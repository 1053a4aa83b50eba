/**
 * The name check of the legacy `/name` bootstrap: the regular expression
 *   ^(?:[a-z0-9][a-z0-9\-]{4,63}[a-z0-9]|[a-z0-9]{4,63})$
 * written out alternative by alternative, and what it really accepts.
 */
module Subdomain {

  /** The message sent with the 403 for a rejected name. */
  const INVALID_SUBDOMAIN_MESSAGE: string :=
    "Invalid subdomain. Subdomains must be lowercase and between 4 and 63 alphanumeric characters."

  /** `[a-z0-9]` */
  predicate IsLowerAlnum(c: char) {
    'a' <= c <= 'z' || '0' <= c <= '9'
  }

  /** `[a-z0-9\-]` */
  predicate IsLabelChar(c: char) {
    IsLowerAlnum(c) || c == '-'
  }

  predicate AllLowerAlnum(s: string) {
    forall i :: 0 <= i < |s| ==> IsLowerAlnum(s[i])
  }

  predicate AllLabelChars(s: string) {
    forall i :: 0 <= i < |s| ==> IsLabelChar(s[i])
  }

  /** The whole of `s` matches `[a-z0-9][a-z0-9\-]{4,63}[a-z0-9]`. */
  predicate MatchesHyphenated(s: string) {
    && |s| >= 2
    && IsLowerAlnum(s[0])
    && 4 <= |s[1..|s| - 1]| <= 63
    && AllLabelChars(s[1..|s| - 1])
    && IsLowerAlnum(s[|s| - 1])
  }

  /** The whole of `s` matches `[a-z0-9]{4,63}`. */
  predicate MatchesPlain(s: string) {
    4 <= |s| <= 63 && AllLowerAlnum(s)
  }

  /** The anchored alternation of server.js: `regex.test(s)`. */
  predicate IsValidSubdomain(s: string) {
    MatchesHyphenated(s) || MatchesPlain(s)
  }

  /**
   * What the pattern accepts, stated without the alternation: lower-case
   * letters, digits and hyphens; a letter or digit at both ends; length 4 to
   * 65 (not 63); and at least 6 characters once a hyphen appears.
   */
  lemma ValidSubdomainIff(s: string)
    ensures IsValidSubdomain(s) <==>
      && 4 <= |s| <= 65
      && AllLabelChars(s)
      && IsLowerAlnum(s[0])
      && IsLowerAlnum(s[|s| - 1])
      && ('-' in s ==> 6 <= |s|)
  {
    if 4 <= |s| <= 65 && AllLabelChars(s) && IsLowerAlnum(s[0]) && IsLowerAlnum(s[|s| - 1]) {
      var middle := s[1..|s| - 1];
      assert AllLabelChars(middle) by {
        forall i | 0 <= i < |middle| ensures IsLabelChar(middle[i]) {
          assert middle[i] == s[i + 1];
        }
      }
      if '-' !in s && |s| <= 63 {
        assert AllLowerAlnum(s) by {
          forall i | 0 <= i < |s| ensures IsLowerAlnum(s[i]) {
            assert s[i] != '-';
          }
        }
      }
    }
    if MatchesHyphenated(s) {
      var middle := s[1..|s| - 1];
      forall i | 0 <= i < |s| ensures IsLabelChar(s[i]) {
        if 0 < i < |s| - 1 {
          assert s[i] == middle[i - 1];
        }
      }
    }
  }

  /** A name of `n` letters `a`. */
  function Letters(n: nat): (s: string)
    ensures |s| == n
    ensures forall i :: 0 <= i < n ==> s[i] == 'a'
  {
    if n == 0 then [] else Letters(n - 1) + ['a']
  }

  /**
   * The message and the comment say 63, but 64 and 65 lower-case letters
   * pass through the first alternative; 66 do not.
   */
  lemma LengthLimitIsSixtyFive()
    ensures IsValidSubdomain(Letters(64))
    ensures IsValidSubdomain(Letters(65))
    ensures !IsValidSubdomain(Letters(66))
  {
    forall n: nat | n == 64 || n == 65 ensures IsValidSubdomain(Letters(n)) {
      var s := Letters(n);
      var middle := s[1..n - 1];
      assert forall i :: 0 <= i < |middle| ==> middle[i] == s[i + 1];
    }
  }

  /**
   * The message promises 4 to 63 characters, yet a hyphenated name shorter
   * than 6 is refused; and the other examples of a name that must be refused.
   */
  lemma RejectedNames()
    ensures !IsValidSubdomain("ab-cd")
    ensures IsValidSubdomain("abcd") && IsValidSubdomain("ab-cde")
    ensures !IsValidSubdomain("ab")
    ensures !IsValidSubdomain("AB-CD-EFGH")
    ensures !IsValidSubdomain("-abcde")
  {
    var h := "ab-cd";
    assert h[2] == '-' && |h[1..4]| == 3;
    var r := "ab-cde";
    assert r[1..5] == "b-cd";
    assert AllLabelChars(r[1..5]);
    assert !IsLowerAlnum('-');
    assert !IsLowerAlnum('A');
  }
}
