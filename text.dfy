/** Small string helpers shared by the orchestration scripts: Python's substring test
    `t in s`, `str(n)` and `int(s)` on natural numbers, Python slicing, and the
    newline-terminated line files the scripts write. */
module Text {

  datatype Option<+T> = None | Some(value: T)

  /** Python's `t in s` for strings: some window of `s` equals `t`. */
  predicate Contains(s: string, t: string)
    decreases |s|
  {
    if |t| > |s| then false
    else if s[..|t|] == t then true
    else Contains(s[1..], t)
  }

  /** Reference definition of the substring test, by an explicit offset. */
  ghost predicate OccursAt(s: string, t: string, i: int)
  {
    0 <= i && i + |t| <= |s| && s[i..i + |t|] == t
  }

  lemma {:induction false} ContainsIff(s: string, t: string)
    ensures Contains(s, t) <==> exists i :: OccursAt(s, t, i)
    decreases |s|
  {
    if |t| > |s| {
      forall i ensures !OccursAt(s, t, i) { }
    } else if s[..|t|] == t {
      assert OccursAt(s, t, 0);
    } else {
      ContainsIff(s[1..], t);
      if Contains(s[1..], t) {
        var i :| OccursAt(s[1..], t, i);
        assert s[1..][i..i + |t|] == s[i + 1..i + 1 + |t|];
        assert OccursAt(s, t, i + 1);
      } else {
        forall i | OccursAt(s, t, i) && i > 0 ensures OccursAt(s[1..], t, i - 1) {
          assert s[1..][i - 1..i - 1 + |t|] == s[i..i + |t|];
        }
      }
    }
  }

  /** A string always contains its own suffix, so `x + tag` contains `tag`. */
  lemma ContainsSuffix(a: string, b: string)
    ensures Contains(a + b, b)
  {
    var s := a + b;
    assert s[|a|..|a| + |b|] == b;
    assert OccursAt(s, b, |a|);
    ContainsIff(s, b);
  }

  /** Containing a string implies containing every prefix of it; for instance a
      setting that contains "1a" also contains "1". */
  lemma ContainsPrefixOf(s: string, t: string, u: string)
    requires Contains(s, t)
    requires |u| <= |t| && t[..|u|] == u
    ensures Contains(s, u)
  {
    ContainsIff(s, t);
    var i :| OccursAt(s, t, i);
    assert s[i..i + |u|] == s[i..i + |t|][..|u|];
    assert OccursAt(s, u, i);
    ContainsIff(s, u);
  }

  /** Python slicing `s[i:j]` for 0 <= i: bounds are clamped to the length. */
  function Slice(s: string, i: nat, j: nat): (r: string)
    ensures |r| <= |s|
    ensures i <= j <= |s| ==> r == s[i..j]
    ensures i <= |s| < j ==> r == s[i..]
    ensures j <= i || |s| <= i ==> r == []
  {
    var hi := if j <= |s| then j else |s|;
    var lo := if i <= hi then i else hi;
    s[lo..hi]
  }

  predicate IsDigit(c: char) { '0' <= c <= '9' }

  function DigitChar(d: nat): (c: char)
    requires d < 10
    ensures IsDigit(c)
  {
    ['0', '1', '2', '3', '4', '5', '6', '7', '8', '9'][d]
  }

  function DigitValue(c: char): (d: nat)
    requires IsDigit(c)
    ensures d < 10 && DigitChar(d) == c
  {
    (c as int - '0' as int) as nat
  }

  /** `str(n)` for a natural number: its decimal digits, most significant first. */
  function NatToString(n: nat): (r: string)
    ensures |r| >= 1 && forall k :: 0 <= k < |r| ==> IsDigit(r[k])
  {
    if n < 10 then [DigitChar(n)] else NatToString(n / 10) + [DigitChar(n % 10)]
  }

  /** The number written by a string of decimal digits (leading zeros allowed). */
  function DigitsValue(s: string): nat
    requires forall k :: 0 <= k < |s| ==> IsDigit(s[k])
  {
    if s == [] then 0 else DigitsValue(s[..|s| - 1]) * 10 + DigitValue(s[|s| - 1])
  }

  /** `int(s)` on plain strings of decimal digits. Only those are modelled: the empty
      string and every other string give None, although `int()` also accepts
      surrounding whitespace, a sign and digit separators. */
  function ParseNat(s: string): (r: Option<nat>)
    ensures r.Some? <==> |s| >= 1 && forall k :: 0 <= k < |s| ==> IsDigit(s[k])
  {
    if |s| >= 1 && forall k :: 0 <= k < |s| ==> IsDigit(s[k]) then Some(DigitsValue(s)) else None
  }

  lemma {:induction false} DigitsOfNatToString(n: nat)
    ensures DigitsValue(NatToString(n)) == n
  {
    var s := NatToString(n);
    if n >= 10 {
      DigitsOfNatToString(n / 10);
      assert s[..|s| - 1] == NatToString(n / 10);
      assert DigitValue(s[|s| - 1]) == n % 10;
    } else {
      assert s[..0] == [];
    }
  }

  /** `int(str(n)) == n`. */
  lemma ParseNatToString(n: nat)
    ensures ParseNat(NatToString(n)) == Some(n)
  {
    DigitsOfNatToString(n);
  }

  /** The text of a file written line by line with `"%s\n" % x`. */
  function Lines(xs: seq<string>): string
  {
    if xs == [] then [] else xs[0] + "\n" + Lines(xs[1..])
  }

  /** Writing one more line appends it, with its newline, to the text. */
  lemma {:induction false} LinesSnoc(xs: seq<string>, x: string)
    ensures Lines(xs + [x]) == Lines(xs) + x + "\n"
  {
    if xs != [] {
      assert (xs + [x])[1..] == xs[1..] + [x];
      LinesSnoc(xs[1..], x);
    } else {
      assert [x][1..] == [];
    }
  }

  /** Reads a newline-terminated text back into its lines; a trailing piece without a
      final newline is kept as a last line. */
  function SplitLines(s: string): seq<string>
    decreases |s|
  {
    if s == [] then []
    else
      var i := LineEnd(s, 0);
      if i == |s| then [s] else [s[..i]] + SplitLines(s[i + 1..])
  }

  /** The index of the first newline at or after `from`, or `|s|` if there is none. */
  function LineEnd(s: string, from: nat): (i: nat)
    requires from <= |s|
    ensures from <= i <= |s|
    ensures forall k :: from <= k < i ==> s[k] != '\n'
    ensures i < |s| ==> s[i] == '\n'
    decreases |s| - from
  {
    if from == |s| || s[from] == '\n' then from else LineEnd(s, from + 1)
  }

  predicate NoNewline(x: string) { forall k :: 0 <= k < |x| ==> x[k] != '\n' }

  /** Reading a written line file gives back the lines written, as long as none of them
      holds a newline itself. */
  lemma {:induction false} SplitLinesOfLines(xs: seq<string>)
    requires forall j :: 0 <= j < |xs| ==> NoNewline(xs[j])
    ensures SplitLines(Lines(xs)) == xs
  {
    if xs != [] {
      var x := xs[0];
      var rest := Lines(xs[1..]);
      var s := Lines(xs);
      assert s == x + "\n" + rest;
      LineEndAt(s, x);
      assert s[..|x|] == x;
      assert s[|x| + 1..] == rest;
      SplitLinesOfLines(xs[1..]);
    }
  }

  lemma LineEndAt(s: string, x: string)
    requires NoNewline(x) && |s| > |x| && s[..|x|] == x && s[|x|] == '\n'
    ensures LineEnd(s, 0) == |x|
  {
  }
}
