/**
 The three string built-ins the core calls: `String.prototype.split` with a
 one-character separator, `String.prototype.trim` and `Array.prototype.join`.
 */
module JsString {

  /** ECMAScript WhiteSpace and LineTerminator code points: what `trim` removes. */
  predicate IsSpace(c: char) {
    || c == ' ' || c == '\t' || c == '\n' || c == '\r' || c == '\U{000B}' || c == '\U{000C}'
    || c == '\U{00A0}' || c == '\U{FEFF}' || c == '\U{1680}' || ('\U{2000}' <= c <= '\U{200A}')
    || c == '\U{2028}' || c == '\U{2029}' || c == '\U{202F}' || c == '\U{205F}' || c == '\U{3000}'
  }

  function TrimStart(s: string): (r: string)
    ensures |r| <= |s| && r == s[|s| - |r|..]
    ensures r == "" || !IsSpace(r[0])
    decreases |s|
  {
    if |s| > 0 && IsSpace(s[0]) then TrimStart(s[1..]) else s
  }

  /** What `TrimStart` removes is white space. */
  lemma {:induction false} TrimStartDropsSpace(s: string)
    ensures forall k :: 0 <= k < |s| - |TrimStart(s)| ==> IsSpace(s[k])
    decreases |s|
  {
    if |s| > 0 && IsSpace(s[0]) {
      TrimStartDropsSpace(s[1..]);
      assert forall k :: 1 <= k < |s| ==> s[k] == s[1..][k - 1];
    }
  }

  function TrimEnd(s: string): (r: string)
    ensures |r| <= |s| && r == s[..|r|]
    ensures r == "" || !IsSpace(r[|r| - 1])
    decreases |s|
  {
    if |s| > 0 && IsSpace(s[|s| - 1]) then TrimEnd(s[..|s| - 1]) else s
  }

  /** What `TrimEnd` removes is white space. */
  lemma {:induction false} TrimEndDropsSpace(s: string)
    ensures forall k :: |TrimEnd(s)| <= k < |s| ==> IsSpace(s[k])
    decreases |s|
  {
    if |s| > 0 && IsSpace(s[|s| - 1]) {
      TrimEndDropsSpace(s[..|s| - 1]);
    }
  }

  /** `s.trim()` */
  function Trim(s: string): (r: string)
    ensures |r| <= |s|
    ensures r == "" || (!IsSpace(r[0]) && !IsSpace(r[|r| - 1]))
  {
    TrimEnd(TrimStart(s))
  }

  /** What `trim()` keeps is a contiguous part of the string, and everything
      outside it is white space. */
  lemma TrimIsInfix(s: string)
    ensures exists i, j :: 0 <= i <= j <= |s| && Trim(s) == s[i..j] && forall k :: 0 <= k < |s| && !(i <= k < j) ==> IsSpace(s[k])
  {
    var a := TrimStart(s);
    var r := TrimEnd(a);
    TrimStartDropsSpace(s);
    TrimEndDropsSpace(a);
    var i := |s| - |a|;
    var j := i + |r|;
    assert Trim(s) == s[i..j];
    forall k | 0 <= k < |s| && !(i <= k < j) ensures IsSpace(s[k]) {
      if k >= j {
        assert s[k] == a[k - i];
      }
    }
  }

  /** `a || b` on two strings: the first one unless it is empty. */
  function OrElse(a: string, b: string): (r: string)
    ensures r == a || r == b
    ensures b != "" ==> r != ""
  {
    if a != "" then a else b
  }

  /** `xs.join(sep)` */
  function Join(xs: seq<string>, sep: string): string
  {
    if |xs| == 0 then ""
    else if |xs| == 1 then xs[0]
    else xs[0] + sep + Join(xs[1..], sep)
  }

  /** `s.split(sep)` for a one-character separator. */
  function Split(s: string, sep: char): (r: seq<string>)
    ensures |r| >= 1
    ensures forall i :: 0 <= i < |r| ==> sep !in r[i]
    ensures |r| == 1 <==> sep !in s
    ensures Join(r, [sep]) == s
    decreases |s|
  {
    if |s| == 0 then [""]
    else
      var rest := Split(s[1..], sep);
      if s[0] == sep then
        [""] + rest
      else
        assert s == [s[0]] + s[1..];
        var r := [[s[0]] + rest[0]] + rest[1..];
        assert r[1..] == rest[1..];
        assert sep !in s ==> |rest| == 1 by {
          if sep !in s { assert sep !in s[1..]; }
        }
        r
  }

  /** Pieces that hold no separator are cut back out exactly where they were joined. */
  lemma {:induction false} SplitJoin(xs: seq<string>, sep: char)
    requires |xs| >= 1
    requires forall i :: 0 <= i < |xs| ==> sep !in xs[i]
    ensures Split(Join(xs, [sep]), sep) == xs
    decreases |xs|
  {
    if |xs| == 1 {
      SplitNoSeparator(xs[0], sep);
    } else {
      SplitJoin(xs[1..], sep);
      SplitAfterPiece(xs[0], Join(xs[1..], [sep]), sep);
      assert [xs[0]] + xs[1..] == xs;
    }
  }

  lemma {:induction false} SplitNoSeparator(s: string, sep: char)
    requires sep !in s
    ensures Split(s, sep) == [s]
    decreases |s|
  {
    if |s| > 0 {
      SplitNoSeparator(s[1..], sep);
      assert [s[0]] + s[1..] == s;
    }
  }

  lemma {:induction false} SplitAfterPiece(a: string, b: string, sep: char)
    requires sep !in a
    ensures Split(a + [sep] + b, sep) == [a] + Split(b, sep)
    decreases |a|
  {
    var s := a + [sep] + b;
    if |a| == 0 {
      assert s[1..] == b;
    } else {
      assert s[1..] == a[1..] + [sep] + b;
      SplitAfterPiece(a[1..], b, sep);
      assert [a[0]] + a[1..] == a;
    }
  }

  /** A string with no white space at either end is its own trim; in particular trimming is idempotent. */
  lemma TrimmedIsFixed(x: string)
    requires x == "" || (!IsSpace(x[0]) && !IsSpace(x[|x| - 1]))
    ensures Trim(x) == x
  {
  }

  /** Trimming keeps a contiguous part of the string, so it adds no character. */
  lemma TrimKeepsOut(x: string, c: char)
    requires c !in x
    ensures c !in Trim(x)
  {
    var a := TrimStart(x);
    assert a == x[|x| - |a|..];
    assert c !in a;
    var b := TrimEnd(a);
    assert b == a[..|b|];
  }

  /** `trim()` yields the empty string exactly for a string of white space. */
  lemma TrimEmpty(s: string)
    ensures Trim(s) == "" <==> forall k :: 0 <= k < |s| ==> IsSpace(s[k])
  {
    TrimIsInfix(s);
    var i, j :| 0 <= i <= j <= |s| && Trim(s) == s[i..j] && forall k :: 0 <= k < |s| && !(i <= k < j) ==> IsSpace(s[k]);
    if Trim(s) != "" {
      assert s[i] == Trim(s)[0];
    }
  }

  /** White space typed after a trimmed string is dropped. */
  lemma TrimTrailingSpace(x: string)
    requires x == "" || (!IsSpace(x[0]) && !IsSpace(x[|x| - 1]))
    ensures Trim(x + " ") == x
  {
    assert (x + " ")[..|x|] == x;
    if x == "" {
      assert TrimStart(" ") == TrimStart(" "[1..]) == "";
    } else {
      assert TrimStart(x + " ") == x + " ";
      assert TrimEnd(x + " ") == TrimEnd(x);
    }
  }

  /** Leading white space in front of a trimmed string is dropped. */
  lemma TrimLeadingSpace(x: string)
    requires x == "" || (!IsSpace(x[0]) && !IsSpace(x[|x| - 1]))
    ensures Trim(" " + x) == x
  {
    assert (" " + x)[1..] == x;
    assert TrimStart(" " + x) == TrimStart(x) == x;
  }
}
