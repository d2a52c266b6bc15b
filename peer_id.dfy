/** Peer identifiers: every character that is not an ASCII letter or digit is
    stripped before an id is used as a transport identity or connection key. */
module PeerId {
  import opened Common

  /** The characters `[A-Za-z0-9]` that an id keeps. */
  predicate IsAlnum(c: char) {
    ('A' <= c <= 'Z') || ('a' <= c <= 'z') || ('0' <= c <= '9')
  }

  predicate AllAlnum(s: string) {
    forall i :: 0 <= i < |s| ==> IsAlnum(s[i])
  }

  /** Removes every character outside `[A-Za-z0-9]`, keeping the others in order:
      the result holds only letters and digits, never grows, and is a
      subsequence of the input. */
  function SanitizeId(s: string): (r: string)
    ensures AllAlnum(r)
    ensures |r| <= |s|
    ensures IsSubsequence(r, s)
  {
    if s == [] then []
    else if IsAlnum(s[0]) then [s[0]] + SanitizeId(s[1..])
    else SanitizeId(s[1..])
  }

  /** Nothing but the punctuation is lost: every letter or digit occurs in the
      result as often as in the input, and no other character occurs at all. */
  lemma {:induction false} SanitizeKeepsEveryAlnum(s: string, c: char)
    ensures IsAlnum(c) ==> multiset(SanitizeId(s))[c] == multiset(s)[c]
    ensures !IsAlnum(c) ==> multiset(SanitizeId(s))[c] == 0
  {
    if s != [] {
      SanitizeKeepsEveryAlnum(s[1..], c);
      assert s == [s[0]] + s[1..];
      assert multiset(s) == multiset([s[0]]) + multiset(s[1..]);
      if IsAlnum(s[0]) {
        assert multiset(SanitizeId(s)) == multiset([s[0]]) + multiset(SanitizeId(s[1..]));
      }
    }
  }

  /** The host id used when none is given: `auth0|5f245f6c32cea302211421b0` sanitised. */
  const DefaultHost: string := SanitizeId("auth0|5f245f6c32cea302211421b0")

  /** An id is left as it is exactly when it already holds only letters and digits. */
  lemma {:induction false} SanitizeFixesExactlyAlnum(s: string)
    ensures SanitizeId(s) == s <==> AllAlnum(s)
  {
    if s != [] {
      SanitizeFixesExactlyAlnum(s[1..]);
      if !IsAlnum(s[0]) {
        assert |SanitizeId(s)| < |s|;
      }
    }
  }

  /** Sanitising twice is the same as sanitising once. */
  lemma SanitizeIdempotent(s: string)
    ensures SanitizeId(SanitizeId(s)) == SanitizeId(s)
  {
    SanitizeFixesExactlyAlnum(SanitizeId(s));
  }

  /** Sanitising distributes over concatenation. */
  lemma {:induction false} SanitizeConcat(a: string, b: string)
    ensures SanitizeId(a + b) == SanitizeId(a) + SanitizeId(b)
  {
    if a == [] {
      assert a + b == b;
    } else {
      assert (a + b)[0] == a[0];
      assert (a + b)[1..] == a[1..] + b;
      SanitizeConcat(a[1..], b);
      if IsAlnum(a[0]) {
        calc {
          SanitizeId(a + b);
          [a[0]] + SanitizeId(a[1..] + b);
          [a[0]] + (SanitizeId(a[1..]) + SanitizeId(b));
          ([a[0]] + SanitizeId(a[1..])) + SanitizeId(b);
        }
      }
    }
  }

  /** A string of punctuation only sanitises to the empty id. */
  lemma {:induction false} SanitizeDropsPunctuation(sep: string)
    requires forall i :: 0 <= i < |sep| ==> !IsAlnum(sep[i])
    ensures SanitizeId(sep) == []
  {
    if sep != [] {
      SanitizeDropsPunctuation(sep[1..]);
    }
  }

  /** Two ids that differ only by inserted punctuation name the same peer. */
  lemma SanitizeIgnoresSeparators(a: string, sep: string, b: string)
    requires forall i :: 0 <= i < |sep| ==> !IsAlnum(sep[i])
    ensures SanitizeId(a + sep + b) == SanitizeId(a + b)
  {
    var x, y, z := SanitizeId(a), SanitizeId(sep), SanitizeId(b);
    SanitizeConcat(a + sep, b);
    SanitizeConcat(a, sep);
    SanitizeDropsPunctuation(sep);
    assert SanitizeId(a + sep + b) == x + y + z;
    assert x + y + z == x + z by { assert y == []; }
    SanitizeConcat(a, b);
  }

  /** The examples of the identifier rule: `a-b` and `ab` both become `ab`, and
      the `|` of an identity-provider id such as `auth0|5f` is dropped. */
  lemma SanitizeExamples()
    ensures SanitizeId("a-b") == SanitizeId("ab") == "ab"
    ensures SanitizeId("auth0|5f") == "auth05f"
  {
    var a, sep, b := "a", "-", "b";
    assert a + sep + b == "a-b";
    assert a + b == "ab";
    SanitizeDropsSeparator(a, sep, b);
    var head, bar, tail := "auth0", "|", "5f";
    assert head + bar + tail == "auth0|5f";
    assert head + tail == "auth05f";
    SanitizeDropsSeparator(head, bar, tail);
  }

  /** An alphanumeric id with punctuation inserted sanitises back to itself. */
  lemma SanitizeDropsSeparator(a: string, sep: string, b: string)
    requires AllAlnum(a + b)
    requires forall i :: 0 <= i < |sep| ==> !IsAlnum(sep[i])
    ensures SanitizeId(a + sep + b) == a + b
  {
    SanitizeIgnoresSeparators(a, sep, b);
    SanitizeFixesExactlyAlnum(a + b);
  }
}
