/** String helpers shared by the renderer and the certificate store:
    substring search as JavaScript's `includes`, joining lines, and the
    decimal and boolean text that template literals produce. */
module Text {

  /** `s.includes(t)`. */
  predicate Contains(s: string, t: string)
  {
    exists i | 0 <= i <= |s| :: t <= s[i..]
  }

  /** The lines of a multi-line template literal, separated by newlines. */
  function JoinLines(ls: seq<string>): string
  {
    if |ls| == 0 then ""
    else if |ls| == 1 then ls[0]
    else ls[0] + "\n" + JoinLines(ls[1..])
  }

  /** The text of the chunks of a response body, in order. */
  function Concat(chunks: seq<string>): string
  {
    if chunks == [] then "" else Concat(chunks[..|chunks| - 1]) + chunks[|chunks| - 1]
  }

  /** `${b}` for a boolean `b`. */
  function BoolText(b: bool): string
  {
    if b then "true" else "false"
  }

  function Digit(d: nat): (c: char)
    requires d < 10
    ensures '0' <= c <= '9' && c as int - '0' as int == d
  {
    "0123456789"[d]
  }

  /** The number a string of decimal digits denotes, most significant
      digit first; the empty string denotes 0. */
  function DecimalValue(s: string): nat
    requires forall k | 0 <= k < |s| :: '0' <= s[k] <= '9'
  {
    if s == [] then 0
    else 10 * DecimalValue(s[..|s| - 1]) + (s[|s| - 1] as int - '0' as int)
  }

  /** `${n}` for a non-negative integer `n`: its decimal digits, most
      significant first, without leading zeros. */
  function NatToString(n: nat): (s: string)
    ensures |s| > 0
    ensures forall k | 0 <= k < |s| :: '0' <= s[k] <= '9'
    ensures n >= 10 ==> s[0] != '0'
    ensures DecimalValue(s) == n
  {
    if n < 10 then [Digit(n)]
    else
      var s := NatToString(n / 10) + [Digit(n % 10)];
      assert s[..|s| - 1] == NatToString(n / 10);
      s
  }

  // ---------------------------------------------------------------------
  // Facts about Contains

  lemma ContainsInfix(a: string, t: string, b: string)
    ensures Contains(a + t + b, t)
  {
    var s := a + t + b;
    assert s[|a|..] == t + b;
  }

  lemma ContainsGrows(a: string, s: string, b: string, t: string)
    requires Contains(s, t)
    ensures Contains(a + s + b, t)
  {
    var i :| 0 <= i <= |s| && t <= s[i..];
    var w := a + s + b;
    assert w[|a| + i..] == s[i..] + b;
  }

  /** A text cannot contain a needle that has a character the text lacks. */
  lemma MissingChar(s: string, t: string, c: char)
    requires c in t && c !in s
    ensures !Contains(s, t)
  {
  }

  /** Where an occurrence of `t` at position `i` of `a + y` lies: inside
      `a`, across the boundary (then `t` has the characters on both sides
      of it), or inside `y`. */
  lemma WindowSplit(a: string, y: string, t: string, i: nat)
    requires i <= |a + y| && t <= (a + y)[i..]
    ensures || (i + |t| <= |a| && t <= a[i..])
            || (i < |a| < i + |t| && a[|a| - 1] in t && y[0] in t)
            || (|a| <= i && t <= y[i - |a|..])
  {
    var s := a + y;
    if i + |t| <= |a| {
      assert s[i..i + |t|] == a[i..i + |t|];
    } else if i < |a| {
      assert t[|a| - 1 - i] == s[|a| - 1];
      assert t[|a| - i] == s[|a|];
    } else {
      assert s[i..] == y[i - |a|..];
    }
  }

  /** An occurrence of `t` in `a + y` lies in `y` when it does not lie in
      `a` and `t` lacks the last character of `a`. */
  lemma AfterPrefix(a: string, y: string, t: string)
    requires !Contains(a, t) && (|a| > 0 ==> a[|a| - 1] !in t)
    requires Contains(a + y, t)
    ensures Contains(y, t)
  {
    var i :| 0 <= i <= |a + y| && t <= (a + y)[i..];
    WindowSplit(a, y, t, i);
  }

  /** An occurrence of `t` in `x + b` lies in `x` when it does not lie in
      `b` and `t` lacks the first character of `b`. */
  lemma BeforeSuffix(x: string, b: string, t: string)
    requires !Contains(b, t) && (|b| > 0 ==> b[0] !in t)
    requires Contains(x + b, t)
    ensures Contains(x, t)
  {
    var i :| 0 <= i <= |x + b| && t <= (x + b)[i..];
    WindowSplit(x, b, t, i);
  }

  /** An occurrence of `t` in `a + x + b` lies inside `x` when it lies in
      neither `a` nor `b` and `t` has neither the last character of `a` nor
      the first character of `b`: no occurrence can straddle a boundary. */
  lemma Bracketed(a: string, x: string, b: string, t: string)
    requires !Contains(a, t) && !Contains(b, t)
    requires |a| > 0 ==> a[|a| - 1] !in t
    requires |b| > 0 ==> b[0] !in t
    requires Contains(a + x + b, t)
    ensures Contains(x, t)
  {
    assert a + x + b == a + (x + b);
    AfterPrefix(a, x + b, t);
    BeforeSuffix(x, b, t);
  }

  // ---------------------------------------------------------------------
  // Facts about JoinLines

  lemma {:induction false} LineIsContained(ls: seq<string>, i: nat)
    requires i < |ls|
    ensures Contains(JoinLines(ls), ls[i])
    decreases i
  {
    if |ls| == 1 {
      assert JoinLines(ls)[0..] == ls[0];
    } else if i == 0 {
      ContainsInfix("", ls[0], "\n" + JoinLines(ls[1..]));
      assert "" + ls[0] + ("\n" + JoinLines(ls[1..])) == JoinLines(ls);
    } else {
      LineIsContained(ls[1..], i - 1);
      ContainsGrows(ls[0] + "\n", JoinLines(ls[1..]), "", ls[i]);
      assert ls[0] + "\n" + JoinLines(ls[1..]) + "" == JoinLines(ls);
    }
  }

  /** A needle without a newline found in joined lines is found in one line. */
  lemma {:induction false} NeedleInSomeLine(ls: seq<string>, t: string)
    requires |ls| > 0 && '\n' !in t
    requires Contains(JoinLines(ls), t)
    ensures exists l :: l in ls && Contains(l, t)
  {
    if |ls| == 1 {
      assert ls[0] in ls;
    } else {
      var rest := JoinLines(ls[1..]);
      assert JoinLines(ls) == ls[0] + ("\n" + rest);
      assert ls[0] in ls;
      var i :| 0 <= i <= |JoinLines(ls)| && t <= JoinLines(ls)[i..];
      WindowSplit(ls[0], "\n" + rest, t, i);
      if !Contains(ls[0], t) {
        assert t != "" by { assert "" <= ls[0][0..]; }
        MissingChar("\n", t, t[0]);
        AfterPrefix("\n", rest, t);
        NeedleInSomeLine(ls[1..], t);
        var l :| l in ls[1..] && Contains(l, t);
        assert l in ls;
      }
    }
  }

  /** Joining two non-empty runs of lines puts one newline between them. */
  lemma {:induction false} JoinAppend(a: seq<string>, b: seq<string>)
    requires |a| > 0 && |b| > 0
    ensures JoinLines(a + b) == JoinLines(a) + "\n" + JoinLines(b)
    decreases |a|
  {
    assert (a + b)[0] == a[0] && (a + b)[1..] == a[1..] + b;
    if |a| > 1 {
      JoinAppend(a[1..], b);
    }
  }

  /** Text found on either side of a newline is found in the whole. */
  lemma NewlineKeeps(x: string, y: string, t: string)
    requires Contains(x, t) || Contains(y, t)
    ensures Contains(x + "\n" + y, t)
  {
    if Contains(x, t) {
      ContainsGrows("", x, "\n" + y, t);
      assert "" + x + ("\n" + y) == x + "\n" + y;
    } else {
      ContainsGrows(x + "\n", y, "", t);
      assert x + "\n" + y + "" == x + "\n" + y;
    }
  }

  /** Text found in either run of lines is found in their join. */
  lemma JoinKeeps(a: seq<string>, b: seq<string>, t: string)
    requires |a| > 0 && |b| > 0
    requires Contains(JoinLines(a), t) || Contains(JoinLines(b), t)
    ensures Contains(JoinLines(a + b), t)
  {
    JoinAppend(a, b);
    NewlineKeeps(JoinLines(a), JoinLines(b), t);
  }

  /** Joining four lines. */
  lemma JoinFour(a: string, b: string, c: string, d: string)
    ensures JoinLines([a, b, c, d]) == a + "\n" + b + "\n" + c + "\n" + d
  {
    var ls := [a, b, c, d];
    assert ls[1..] == [b, c, d] && ls[1..][1..] == [c, d] && ls[1..][1..][1..] == [d];
    assert JoinLines([c, d]) == c + "\n" + d;
    assert JoinLines([b, c, d]) == b + "\n" + (c + "\n" + d);
  }

  /** Two texts that agree around a middle part agree exactly when the
      middle parts do. */
  lemma MiddleDecides(h: string, x: string, y: string, t: string, u: string)
    ensures h + x + t + u == h + y + t + u <==> x == y
  {
    if h + x + t + u == h + y + t + u {
      assert |x| == |y|;
      assert (h + x + t + u)[|h|..|h| + |x|] == x;
      assert (h + y + t + u)[|h|..|h| + |y|] == y;
    }
  }
}
