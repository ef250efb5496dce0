/**
 * The few Python `str` operations the persona logic relies on:
 * `sep.join(xs)`, `s.strip()` and `s.splitlines()`, over Unicode code points.
 */
module PyStr {

  /** Python's `str.isspace` for a single code point. */
  predicate IsSpace(c: char)
  {
    var n := c as int;
    n == 0x20 || (0x09 <= n <= 0x0D) || (0x1C <= n <= 0x1F) || n == 0x85 || n == 0xA0
    || n == 0x1680 || (0x2000 <= n <= 0x200A) || n == 0x2028 || n == 0x2029
    || n == 0x202F || n == 0x205F || n == 0x3000
  }

  /** The line boundaries recognised by Python's `str.splitlines`. */
  predicate IsLineBreak(c: char)
  {
    var n := c as int;
    (0x0A <= n <= 0x0D) || (0x1C <= n <= 0x1E) || n == 0x85 || n == 0x2028 || n == 0x2029
  }

  /** A string holding no line boundary. */
  predicate NoBreak(s: string)
  {
    forall k :: 0 <= k < |s| ==> !IsLineBreak(s[k])
  }

  /** A string with no whitespace at either end. */
  predicate IsStripped(s: string)
  {
    s != [] ==> !IsSpace(s[0]) && !IsSpace(s[|s| - 1])
  }

  // ---------------------------------------------------------------- join

  /** `sep.join(xs)`. */
  function Join(xs: seq<string>, sep: string): string
  {
    if |xs| == 0 then ""
    else if |xs| == 1 then xs[0]
    else xs[0] + sep + Join(xs[1..], sep)
  }

  /** Where the `i`-th element starts inside `Join(xs, sep)`. */
  function Offset(xs: seq<string>, sep: string, i: nat): nat
    requires i <= |xs|
  {
    if i == 0 then 0 else |xs[0]| + |sep| + Offset(xs[1..], sep, i - 1)
  }

  /** `s` holds `t` starting at index `k`. */
  predicate OccursAt(s: string, t: string, k: nat)
  {
    k + |t| <= |s| && s[k..k + |t|] == t
  }

  /** `s` ends with `t`. */
  predicate EndsWith(s: string, t: string)
  {
    |t| <= |s| && s[|s| - |t|..] == t
  }

  /** An occurrence inside an occurrence is an occurrence in the outer string. */
  lemma OccursWithin(s: string, u: string, k: nat, t: string, j: nat)
    requires OccursAt(s, u, k) && OccursAt(u, t, j)
    ensures OccursAt(s, t, k + j)
  {
    assert s[k..k + |u|] == u;
    forall m | 0 <= m < |t|
      ensures s[k + j + m] == t[m]
    {
      assert s[k..k + |u|][j + m] == u[j + m];
      assert u[j..j + |t|][m] == t[m];
    }
  }

  /** An occurrence stays an occurrence when text is put before it, shifted by that text. */
  lemma OccursShifted(head: string, rest: string, t: string, k: nat)
    requires OccursAt(rest, t, k)
    ensures OccursAt(head + rest, t, |head| + k)
  {
    assert (head + rest)[|head| + k..|head| + k + |t|] == rest[k..k + |t|];
  }

  /** The first element and the separator open a join of two or more elements. */
  lemma JoinFront(xs: seq<string>, sep: string)
    requires |xs| >= 2
    ensures OccursAt(Join(xs, sep), xs[0], 0)
    ensures OccursAt(Join(xs, sep), sep, |xs[0]|)
  {
    var r := Join(xs, sep);
    assert r == xs[0] + sep + Join(xs[1..], sep);
    assert r[..|xs[0]|] == xs[0];
    assert r[|xs[0]|..|xs[0]| + |sep|] == sep;
  }

  /**
   * The joined string is exactly the elements with a separator between
   * each neighbouring pair: element `i` sits at `Offset(xs, sep, i)`, the
   * separator follows it unless it is the last, and the last element ends
   * the string.
   */
  lemma {:induction false} JoinAt(xs: seq<string>, sep: string, i: nat)
    requires i < |xs|
    ensures OccursAt(Join(xs, sep), xs[i], Offset(xs, sep, i))
    ensures i + 1 < |xs| ==> OccursAt(Join(xs, sep), sep, Offset(xs, sep, i) + |xs[i]|)
    ensures i + 1 < |xs| ==> Offset(xs, sep, i + 1) == Offset(xs, sep, i) + |xs[i]| + |sep|
    ensures i + 1 == |xs| ==> Offset(xs, sep, i) + |xs[i]| == |Join(xs, sep)|
  {
    if |xs| == 1 {
      assert Join(xs, sep) == xs[0];
    } else if i == 0 {
      JoinFront(xs, sep);
      assert Offset(xs, sep, 1) == |xs[0]| + |sep| + Offset(xs[1..], sep, 0);
    } else {
      var head := xs[0] + sep;
      var rest := Join(xs[1..], sep);
      assert Join(xs, sep) == head + rest;
      JoinAt(xs[1..], sep, i - 1);
      var k := Offset(xs[1..], sep, i - 1);
      assert xs[1..][i - 1] == xs[i];
      assert Offset(xs, sep, i) == |head| + k;
      OccursShifted(head, rest, xs[i], k);
      if i + 1 < |xs| {
        assert Offset(xs, sep, i + 1) == |head| + Offset(xs[1..], sep, i);
        OccursShifted(head, rest, sep, k + |xs[i]|);
      }
    }
  }

  // ---------------------------------------------------------------- strip

  /** `s.lstrip()`: the suffix left after dropping leading whitespace. */
  function TrimStart(s: string): (r: string)
    ensures |r| <= |s| && r == s[|s| - |r|..]
    ensures forall i :: 0 <= i < |s| - |r| ==> IsSpace(s[i])
    ensures r != [] ==> !IsSpace(r[0])
  {
    if s != [] && IsSpace(s[0]) then TrimStart(s[1..]) else s
  }

  /** `s.rstrip()`: the prefix left after dropping trailing whitespace. */
  function TrimEnd(s: string): (r: string)
    ensures |r| <= |s| && r == s[..|r|]
    ensures forall i :: |r| <= i < |s| ==> IsSpace(s[i])
    ensures r != [] ==> !IsSpace(r[|r| - 1])
  {
    if s != [] && IsSpace(s[|s| - 1]) then TrimEnd(s[..|s| - 1]) else s
  }

  /**
   * `r` is what `s.strip()` gives: a contiguous slice of `s` with only
   * whitespace cut off on either side and no whitespace at either end.
   */
  ghost predicate IsStripOf(r: string, s: string)
  {
    exists a, b :: 0 <= a <= b <= |s| && r == s[a..b]
      && (forall i :: 0 <= i < a ==> IsSpace(s[i]))
      && (forall i :: b <= i < |s| ==> IsSpace(s[i]))
      && IsStripped(r)
  }

  /** A slice with only whitespace cut off either side, and none left at its ends, is the strip. */
  lemma StripOfSlice(s: string, a: nat, b: nat)
    requires a <= b <= |s|
    requires forall i :: 0 <= i < a ==> IsSpace(s[i])
    requires forall i :: b <= i < |s| ==> IsSpace(s[i])
    requires IsStripped(s[a..b])
    ensures IsStripOf(s[a..b], s)
  {
  }

  /** Trimming the start and then the end strips. */
  lemma TrimBothStrips(s: string)
    ensures IsStripOf(TrimEnd(TrimStart(s)), s)
  {
    var t := TrimStart(s);
    var r := TrimEnd(t);
    var a := |s| - |t|;
    var b := a + |r|;
    assert r == s[a..b] by {
      assert t == s[a..];
      assert r == t[..|r|];
    }
    assert forall i :: b <= i < |s| ==> IsSpace(s[i]) by {
      forall i | b <= i < |s|
        ensures IsSpace(s[i])
      {
        assert s[i] == t[i - a];
      }
    }
    assert IsStripped(r) by {
      if r != [] {
        assert r[0] == t[0];
      }
    }
    StripOfSlice(s, a, b);
  }

  /** `s.strip()`. */
  function Strip(s: string): (r: string)
    ensures IsStripOf(r, s)
  {
    TrimBothStrips(s);
    TrimEnd(TrimStart(s))
  }

  // ---------------------------------------------------------------- splitlines

  /** Index of the first line boundary of `s`, or `|s|` when there is none. */
  function LineEnd(s: string): (i: nat)
    ensures i <= |s|
    ensures forall k :: 0 <= k < i ==> !IsLineBreak(s[k])
    ensures i < |s| ==> IsLineBreak(s[i])
  {
    if s == [] || IsLineBreak(s[0]) then 0 else 1 + LineEnd(s[1..])
  }

  /** Width of the boundary at `i`: `"\r\n"` counts as one boundary of two characters. */
  function BreakWidth(s: string, i: nat): (w: nat)
    requires i < |s|
  {
    if s[i] == '\r' && i + 1 < |s| && s[i + 1] == '\n' then 2 else 1
  }

  /**
   * `s.splitlines()`: the lines without their boundaries; a final boundary
   * does not start an extra empty line and the empty string has no lines.
   */
  function SplitLines(s: string): (lines: seq<string>)
    ensures forall l :: l in lines ==> NoBreak(l)
    ensures |lines| <= |s|
    decreases |s|
  {
    if s == [] then []
    else
      var i := LineEnd(s);
      if i == |s| then [s]
      else [s[..i]] + SplitLines(s[i + BreakWidth(s, i)..])
  }

  /**
   * A boundary as `splitlines` consumes it: `"\r\n"`, or any single boundary
   * character, where a lone `"\r"` must not be followed by `"\n"`.
   */
  predicate IsBoundary(brk: string, rest: string)
  {
    brk == "\r\n"
    || (|brk| == 1 && IsLineBreak(brk[0]) && !(brk[0] == '\r' && rest != [] && rest[0] == '\n'))
  }

  /**
   * A line ended by any boundary is split off whole, and the rest is split on
   * its own; with `rest` empty, a final boundary adds no empty line.
   */
  lemma SplitFirstLine(line: string, brk: string, rest: string)
    requires NoBreak(line) && IsBoundary(brk, rest)
    ensures SplitLines(line + brk + rest) == [line] + SplitLines(rest)
  {
    var s := line + brk + rest;
    var i := LineEnd(s);
    assert s[|line|] == brk[0];
    assert i == |line|;
    assert s[..i] == line;
    assert BreakWidth(s, i) == |brk| by {
      if brk == "\r\n" {
        assert s[i + 1] == '\n';
      } else if rest != [] {
        assert s[i + 1] == rest[0];
      }
    }
    assert s[i + |brk|..] == rest;
  }

  /** Text without a boundary is a single line, or no line at all when empty. */
  lemma SplitSingleLine(line: string)
    requires NoBreak(line)
    ensures SplitLines(line) == if line == [] then [] else [line]
  {
  }

  /** The characters of `s` that are not line boundaries, in order. */
  function RemoveBreaks(s: string): string
  {
    if s == [] then "" else (if IsLineBreak(s[0]) then "" else [s[0]]) + RemoveBreaks(s[1..])
  }

  /** A line without boundaries survives in front of whatever follows it. */
  lemma {:induction false} RemoveBreaksKeepsLine(line: string, t: string)
    requires NoBreak(line)
    ensures RemoveBreaks(line + t) == line + RemoveBreaks(t)
  {
    if line == [] {
      assert line + t == t;
    } else {
      assert (line + t)[0] == line[0] && (line + t)[1..] == line[1..] + t;
      RemoveBreaksKeepsLine(line[1..], t);
      assert line == [line[0]] + line[1..];
    }
  }

  /** Boundary characters in front of `t` disappear. */
  lemma {:induction false} RemoveBreaksDropsBoundary(brk: string, t: string)
    requires forall k :: 0 <= k < |brk| ==> IsLineBreak(brk[k])
    ensures RemoveBreaks(brk + t) == RemoveBreaks(t)
  {
    if brk == [] {
      assert brk + t == t;
    } else {
      assert (brk + t)[0] == brk[0] && (brk + t)[1..] == brk[1..] + t;
      RemoveBreaksDropsBoundary(brk[1..], t);
    }
  }

  /** Putting lines back together with `""` puts the first line in front. */
  lemma JoinEmptyCons(line: string, tail: seq<string>)
    ensures Join([line] + tail, "") == line + Join(tail, "")
  {
    if tail != [] {
      assert ([line] + tail)[1..] == tail;
    }
  }

  /**
   * No text is lost or added: the lines of `s.splitlines()` put back together
   * are exactly the characters of `s` that are not boundaries.
   */
  lemma {:induction false} SplitLinesKeepsText(s: string)
    ensures Join(SplitLines(s), "") == RemoveBreaks(s)
    decreases |s|
  {
    if s != [] {
      var i := LineEnd(s);
      if i == |s| {
        RemoveBreaksKeepsLine(s, "");
        assert s + "" == s;
        assert SplitLines(s) == [s];
      } else {
        var w := BreakWidth(s, i);
        var line, brk, rest := s[..i], s[i..i + w], s[i + w..];
        assert RemoveBreaks(s) == line + RemoveBreaks(rest) by {
          assert s == line + (brk + rest);
          RemoveBreaksKeepsLine(line, brk + rest);
          RemoveBreaksDropsBoundary(brk, rest);
        }
        assert SplitLines(s) == [line] + SplitLines(rest);
        SplitLinesKeepsText(rest);
        JoinEmptyCons(line, SplitLines(rest));
      }
    }
  }
}
