/** String helpers shared by the gateway, the session and the story display:
    the whitespace class of JavaScript's `\s` and `String.prototype.trim`,
    `trim` itself, and `startsWith`. */
module Text {

  /** The fixed whitespace class: the ECMAScript WhiteSpace and
      LineTerminator code points (tab, line tabulation, form feed, space,
      no-break space, the Zs space separators, the byte order mark, line
      feed, carriage return, line and paragraph separator). */
  predicate IsWhitespace(c: char) {
    || c == '\t' || c == '\n' || c == '\U{000B}' || c == '\U{000C}' || c == '\r'
    || c == ' ' || c == '\U{00A0}' || c == '\U{1680}'
    || ('\U{2000}' <= c <= '\U{200A}')
    || c == '\U{2028}' || c == '\U{2029}' || c == '\U{202F}' || c == '\U{205F}'
    || c == '\U{3000}' || c == '\U{FEFF}'
  }

  predicate AllWhitespace(s: string) {
    forall i :: 0 <= i < |s| ==> IsWhitespace(s[i])
  }

  /** `s.startsWith(prefix)`. */
  predicate StartsWith(s: string, prefix: string) {
    |prefix| <= |s| && s[..|prefix|] == prefix
  }

  /** Number of leading whitespace characters. */
  function LeadingEnd(s: string): (k: nat)
    ensures k <= |s|
    ensures AllWhitespace(s[..k])
    ensures k < |s| ==> !IsWhitespace(s[k])
  {
    if |s| == 0 || !IsWhitespace(s[0]) then 0
    else
      var k' := LeadingEnd(s[1..]);
      assert s[..1 + k'] == [s[0]] + s[1..][..k'];
      1 + k'
  }

  /** Index where the trailing whitespace of `s` begins. */
  function TrailingStart(s: string): (k: nat)
    ensures k <= |s|
    ensures AllWhitespace(s[k..])
    ensures 0 < k ==> !IsWhitespace(s[k - 1])
  {
    if |s| == 0 || !IsWhitespace(s[|s| - 1]) then |s|
    else
      var k := TrailingStart(s[..|s| - 1]);
      assert s[k..] == s[..|s| - 1][k..] + [s[|s| - 1]];
      k
  }

  /** `s.trim()`: `s` without its leading and trailing whitespace. */
  function Trim(s: string): (r: string)
    ensures |r| <= |s|
    ensures r == [] <==> AllWhitespace(s)
    ensures r != [] ==> !IsWhitespace(r[0]) && !IsWhitespace(r[|r| - 1])
  {
    var a := LeadingEnd(s);
    var t := s[a..];
    var b := TrailingStart(t);
    assert AllWhitespace(s) ==> a == |s|;
    assert b == 0 ==> AllWhitespace(s) by {
      if b == 0 {
        assert s == s[..a] + t;
      }
    }
    t[..b]
  }

  /** Where `Trim(s)` sits inside `s`: everything around it is whitespace. */
  lemma TrimBounds(s: string) returns (i: nat, j: nat)
    ensures i <= j <= |s| && Trim(s) == s[i..j]
    ensures AllWhitespace(s[..i]) && AllWhitespace(s[j..])
  {
    var a := LeadingEnd(s);
    var t := s[a..];
    var b := TrailingStart(t);
    i, j := a, a + b;
    assert t[b..] == s[j..];
  }

  /** `Trim` is the only cut of `s` that removes whitespace alone and leaves
      no whitespace at either end. */
  lemma TrimUnique(s: string, i: nat, j: nat)
    requires i <= j <= |s|
    requires AllWhitespace(s[..i]) && AllWhitespace(s[j..])
    requires i < j ==> !IsWhitespace(s[i]) && !IsWhitespace(s[j - 1])
    ensures Trim(s) == s[i..j]
  {
    var a, b := TrimBounds(s);
    var r := Trim(s);
    if i == j {
      forall k | 0 <= k < |s| ensures IsWhitespace(s[k]) {
        if k < i { assert s[k] == s[..i][k]; } else { assert s[k] == s[j..][k - j]; }
      }
    } else {
      assert !AllWhitespace(s) by { assert !IsWhitespace(s[i]); }
    }
  }

  lemma TrimIdempotent(s: string)
    ensures Trim(Trim(s)) == Trim(s)
  {
    var r := Trim(s);
    assert r[..0] == [] && r[|r|..] == [];
    TrimUnique(r, 0, |r|);
    assert r[0..|r|] == r;
  }

  /** The non-whitespace characters of `s`, in order. */
  function NonWhitespace(s: string): (r: string)
    ensures |r| <= |s|
  {
    if s == [] then []
    else (if IsWhitespace(s[0]) then [] else [s[0]]) + NonWhitespace(s[1..])
  }

  lemma {:induction false} NonWhitespaceConcat(a: string, b: string)
    ensures NonWhitespace(a + b) == NonWhitespace(a) + NonWhitespace(b)
  {
    if a != [] {
      assert (a + b)[1..] == a[1..] + b;
      NonWhitespaceConcat(a[1..], b);
    } else {
      assert a + b == b;
    }
  }

  lemma {:induction false} NonWhitespaceEmpty(s: string)
    ensures NonWhitespace(s) == [] <==> AllWhitespace(s)
  {
    if s != [] {
      NonWhitespaceEmpty(s[1..]);
      if AllWhitespace(s) {
        assert AllWhitespace(s[1..]) by {
          forall k | 0 <= k < |s| - 1 ensures IsWhitespace(s[1..][k]) { assert s[1..][k] == s[k + 1]; }
        }
      } else if IsWhitespace(s[0]) {
        assert !AllWhitespace(s[1..]) by {
          var k :| 0 <= k < |s| && !IsWhitespace(s[k]);
          assert s[1..][k - 1] == s[k];
        }
      }
    }
  }

  /** Trimming only drops whitespace: the visible characters are kept. */
  lemma NonWhitespaceTrim(s: string)
    ensures NonWhitespace(Trim(s)) == NonWhitespace(s)
  {
    var i, j := TrimBounds(s);
    assert s == s[..i] + s[i..j] + s[j..];
    NonWhitespaceConcat(s[..i] + s[i..j], s[j..]);
    NonWhitespaceConcat(s[..i], s[i..j]);
    NonWhitespaceEmpty(s[..i]);
    NonWhitespaceEmpty(s[j..]);
  }
}
