/** The Python `str` operations the stub generator is built from, over
    `string` (= `seq<char>`): `lower`, `split` on one character, `join`,
    `replace(..., "")`, `startswith`, `strip` and `splitlines`. */
module PyStrings {

  // ---------------------------------------------------------------- lower

  /** `c.lower()` for ASCII: capitals become small letters, everything else is kept. */
  function LowerChar(c: char): char {
    if 'A' <= c <= 'Z' then (c as int + 32) as char else c
  }

  /** `s.lower()` */
  function Lower(s: string): string {
    seq(|s|, i requires 0 <= i < |s| => LowerChar(s[i]))
  }

  lemma LowerIdempotent(s: string)
    ensures Lower(Lower(s)) == Lower(s)
  {
  }

  lemma LowerAppend(a: string, b: string)
    ensures Lower(a + b) == Lower(a) + Lower(b)
  {
  }

  /** Lowering never creates or removes a space. */
  lemma LowerKeepsSpaces(s: string)
    ensures ' ' in Lower(s) <==> ' ' in s
  {
    if ' ' in s {
      var i :| 0 <= i < |s| && s[i] == ' ';
      assert Lower(s)[i] == ' ';
    }
  }

  // ------------------------------------------------------ prefixes, suffixes

  /** `s.startswith(prefix)` */
  predicate StartsWith(s: string, prefix: string) {
    |prefix| <= |s| && s[..|prefix|] == prefix
  }

  /** `s.endswith(suffix)` */
  predicate EndsWith(s: string, suffix: string) {
    |suffix| <= |s| && s[|s| - |suffix|..] == suffix
  }

  /** A text made of three parts starts with the first and ends with the last. */
  lemma Affixes(a: string, b: string, c: string)
    ensures StartsWith(a + b + c, a) && EndsWith(a + b + c, c)
  {
    assert (a + b + c)[..|a|] == a;
    assert (a + b + c)[|a + b|..] == c;
  }

  // ------------------------------------------------------ sequence facts

  lemma AppendAssociates<T>(x: seq<T>, y: seq<T>, z: seq<T>)
    ensures (x + y) + z == x + (y + z)
  {
  }

  /** The last item of a non-empty concatenation, and what precedes it. */
  lemma SnocOfAppend<T>(a: seq<T>, b: seq<T>)
    requires b != []
    ensures (a + b)[..|a + b| - 1] == a + b[..|b| - 1]
    ensures (a + b)[|a + b| - 1] == b[|b| - 1]
  {
  }

  /** Slicing a concatenation inside its first part. */
  lemma SliceOfAppend<T>(a: seq<T>, b: seq<T>, k: nat)
    requires k <= |a|
    ensures (a + b)[..k] == a[..k]
    ensures (a + b)[k..] == a[k..] + b
  {
  }

  /** Slices of a suffix are slices of the whole. */
  lemma DropThenTake<T>(s: seq<T>, i: nat, n: nat)
    requires i + n <= |s|
    ensures s[i..][..n] == s[i..i + n]
    ensures forall k :: i + n <= k < |s| ==> s[k] == s[i..][k - i]
  {
  }

  /** A sequence is its prefix followed by the rest. */
  lemma TakeDrop<T>(s: seq<T>, k: nat)
    requires k <= |s|
    ensures s[..k] + s[k..] == s
  {
  }

  // ----------------------------------------------------------- join, split

  /** `sep.join(xs)` */
  function Join(xs: seq<string>, sep: string): string {
    if |xs| == 0 then ""
    else if |xs| == 1 then xs[0]
    else Join(xs[..|xs| - 1], sep) + sep + xs[|xs| - 1]
  }

  /** Joining a list of two or more items: its first item, the separator,
      then the rest joined. */
  lemma {:induction false} JoinCons(x: string, xs: seq<string>, sep: string)
    requires |xs| >= 1
    ensures Join([x] + xs, sep) == x + sep + Join(xs, sep)
    decreases |xs|
  {
    var ys := [x] + xs;
    if |xs| > 1 {
      var init := xs[..|xs| - 1];
      assert ys[..|ys| - 1] == [x] + init;
      JoinCons(x, init, sep);
      AppendAssociates(x + sep, Join(init, sep) + sep, xs[|xs| - 1]);
    } else {
      assert ys[..|ys| - 1] == [x];
    }
  }

  /** A joined list starts with its first item. */
  lemma {:induction false} JoinStartsWithFirst(xs: seq<string>, sep: string)
    requires |xs| >= 1
    ensures StartsWith(Join(xs, sep), xs[0])
    decreases |xs|
  {
    if |xs| > 1 {
      var init := xs[..|xs| - 1];
      JoinStartsWithFirst(init, sep);
      var j := Join(init, sep);
      assert (j + sep + xs[|xs| - 1])[..|xs[0]|] == j[..|xs[0]|];
    }
  }

  /** A joined list ends with its last item. */
  lemma JoinEndsWithLast(xs: seq<string>, sep: string)
    requires |xs| >= 1
    ensures EndsWith(Join(xs, sep), xs[|xs| - 1])
  {
    if |xs| > 1 {
      var a, b := Join(xs[..|xs| - 1], sep) + sep, xs[|xs| - 1];
      assert (a + b)[|a + b| - |b|..] == b;
    }
  }

  /** One more character read by `s.split(sep)`: a separator opens a new,
      empty piece; any other character extends the last piece. */
  function AddChar(pieces: seq<string>, c: char, sep: char): (r: seq<string>)
    requires |pieces| >= 1
    ensures |r| >= 1
  {
    if c == sep then pieces + [""]
    else pieces[..|pieces| - 1] + [pieces[|pieces| - 1] + [c]]
  }

  /** `s.split(sep)` for a one-character separator: there is always at least
      one piece, and no piece holds the separator. */
  function Split(s: string, sep: char): (r: seq<string>)
    ensures |r| >= 1
    ensures forall i :: 0 <= i < |r| ==> sep !in r[i]
  {
    if |s| == 0 then [""]
    else
      var front := Split(s[..|s| - 1], sep);
      var r := AddChar(front, s[|s| - 1], sep);
      assert forall i :: 0 <= i < |r| - 1 ==> r[i] == front[i];
      r
  }

  /** Joining the pieces of a split with the same separator gives the string back. */
  lemma {:induction false} JoinSplit(s: string, sep: char)
    ensures Join(Split(s, sep), [sep]) == s
    decreases |s|
  {
    if |s| > 0 {
      var init, c := s[..|s| - 1], s[|s| - 1];
      JoinSplit(init, sep);
      TakeDrop(s, |s| - 1);
      JoinAddChar(Split(init, sep), c, sep);
    }
  }

  /** Reading one more character extends the joined text by it. */
  lemma JoinAddChar(pieces: seq<string>, c: char, sep: char)
    requires |pieces| >= 1
    ensures Join(AddChar(pieces, c, sep), [sep]) == Join(pieces, [sep]) + [c]
  {
    var r := AddChar(pieces, c, sep);
    var k := |pieces| - 1;
    if c == sep {
      SnocOfAppend(pieces, [""]);
    } else if k > 0 {
      SnocOfAppend(pieces[..k], [pieces[k] + [c]]);
      AppendAssociates(Join(pieces[..k], [sep]) + [sep], pieces[k], [c]);
    }
  }

  /** A string without the separator is a single piece. */
  lemma {:induction false} SplitNoSeparator(w: string, sep: char)
    requires sep !in w
    ensures Split(w, sep) == [w]
    decreases |w|
  {
    if |w| > 0 {
      SplitNoSeparator(w[..|w| - 1], sep);
      assert w[..|w| - 1] + [w[|w| - 1]] == w;
    }
  }

  /** Reading a character does not touch the pieces before the last one. */
  lemma AddCharAfter(w: string, f: seq<string>, c: char, sep: char)
    requires |f| >= 1
    ensures AddChar([w] + f, c, sep) == [w] + AddChar(f, c, sep)
  {
    var g := [w] + f;
    if c != sep {
      assert g[..|g| - 1] == [w] + f[..|f| - 1];
    }
  }

  /** Splitting at the first separator: the text before it is the first piece,
      and the pieces of the rest follow. */
  lemma {:induction false} SplitAtFirst(w: string, rest: string, sep: char)
    requires sep !in w
    ensures Split(w + [sep] + rest, sep) == [w] + Split(rest, sep)
    decreases |rest|
  {
    var s := w + [sep] + rest;
    if |rest| == 0 {
      assert s[..|s| - 1] == w;
      SplitNoSeparator(w, sep);
    } else {
      var init, c := rest[..|rest| - 1], rest[|rest| - 1];
      assert s[..|s| - 1] == w + [sep] + init;
      SplitAtFirst(w, init, sep);
      AddCharAfter(w, Split(init, sep), c, sep);
    }
  }

  // ------------------------------------------------- comma-terminated lists

  /** The text `" x0, x1, ..., xn,"`: every item preceded by a space and
      followed by a comma, as a signature is built up before its last comma
      is stripped. */
  function Terminated(xs: seq<string>): string {
    if |xs| == 0 then "" else Terminated(xs[..|xs| - 1]) + " " + xs[|xs| - 1] + ","
  }

  lemma {:induction false} TerminatedAppend(xs: seq<string>, ys: seq<string>)
    ensures Terminated(xs + ys) == Terminated(xs) + Terminated(ys)
    decreases |ys|
  {
    if |ys| > 0 {
      var init := ys[..|ys| - 1];
      var y := ys[|ys| - 1];
      TerminatedAppend(xs, init);
      assert (xs + ys)[..|xs + ys| - 1] == xs + init;
      assert ys[..|ys| - 1] == init;
      calc {
        Terminated(xs + ys);
        Terminated(xs + init) + " " + y + ",";
        Terminated(xs) + Terminated(init) + " " + y + ",";
        Terminated(xs) + (Terminated(init) + " " + y + ",");
        Terminated(xs) + Terminated(ys);
      }
    } else {
      assert xs + ys == xs;
    }
  }

  /** A comma-terminated list after a head item is the `", "`-join of the
      whole list plus one trailing comma. */
  lemma {:induction false} TerminatedJoin(h: string, xs: seq<string>)
    ensures h + "," + Terminated(xs) == Join([h] + xs, ", ") + ","
    decreases |xs|
  {
    if |xs| > 0 {
      var init := xs[..|xs| - 1];
      var x := xs[|xs| - 1];
      TerminatedJoin(h, init);
      SnocOfAppend([h], xs);
      TerminatedJoinStep(h, Terminated(init), Join([h] + init, ", "), x);
    }
  }

  /** The string algebra of one step of `TerminatedJoin`. */
  lemma TerminatedJoinStep(h: string, t: string, j: string, x: string)
    requires h + "," + t == j + ","
    ensures h + "," + (t + " " + x + ",") == (j + ", " + x) + ","
  {
    calc {
      h + "," + (t + " " + x + ",");
      (h + "," + t) + " " + x + ",";
      (j + ",") + " " + x + ",";
      { assert "," + " " == ", "; }
      (j + ", " + x) + ",";
    }
  }

  // ---------------------------------------------------------------- concat

  /** `"".join(xs)` */
  function Concat(xs: seq<string>): string {
    if |xs| == 0 then "" else xs[0] + Concat(xs[1..])
  }

  lemma {:induction false} ConcatSnoc(xs: seq<string>, x: string)
    ensures Concat(xs + [x]) == Concat(xs) + x
    decreases |xs|
  {
    if |xs| > 0 {
      assert (xs + [x])[1..] == xs[1..] + [x];
      ConcatSnoc(xs[1..], x);
    }
  }

  // -------------------------------------------------------------- replace

  /** `s.replace(pat, "")`: the occurrences of `pat` found scanning from the
      left, without overlap, are dropped. */
  function Remove(s: string, pat: string): (r: string)
    requires pat != []
    ensures |r| <= |s|
    decreases |s|
  {
    if |s| < |pat| then s
    else if s[..|pat|] == pat then Remove(s[|pat|..], pat)
    else [s[0]] + Remove(s[1..], pat)
  }

  /** No occurrence of `pat` can straddle a point next to a character that
      `pat` does not contain, so removal distributes over such a split. */
  lemma {:induction false} RemoveSplits(a: string, b: string, pat: string)
    requires pat != []
    requires (a != [] && a[|a| - 1] !in pat) || (b != [] && b[0] !in pat)
    ensures Remove(a + b, pat) == Remove(a, pat) + Remove(b, pat)
    decreases |a|, 1
  {
    var p := |pat|;
    var s := a + b;
    if a == [] {
      assert s == b;
    } else if |s| < p {
      assert |b| < p;
    } else if s[..p] == pat {
      RemoveSplitsAtMatch(a, b, pat);
    } else {
      RemoveSplitsPastChar(a, b, pat);
    }
  }

  /** `RemoveSplits` when an occurrence starts the text: it lies inside `a`. */
  lemma {:induction false} RemoveSplitsAtMatch(a: string, b: string, pat: string)
    requires pat != [] && a != [] && |a + b| >= |pat| && (a + b)[..|pat|] == pat
    requires a[|a| - 1] !in pat || (b != [] && b[0] !in pat)
    ensures Remove(a + b, pat) == Remove(a, pat) + Remove(b, pat)
    decreases |a|, 0
  {
    var p := |pat|;
    var s := a + b;
    if |a| < p {
      Straddle(a, b, pat);
    }
    assert a[..p] == pat;
    assert s[p..] == a[p..] + b;
    if a[p..] == [] {
      assert s[p..] == b;
    } else {
      assert a[p..][|a[p..]| - 1] == a[|a| - 1];
      RemoveSplits(a[p..], b, pat);
    }
  }

  /** An occurrence that starts in `a` and ends in `b` holds `a`'s last and `b`'s first character. */
  lemma Straddle(a: string, b: string, pat: string)
    requires a != [] && |a| < |pat| <= |a + b| && (a + b)[..|pat|] == pat
    ensures a[|a| - 1] in pat && b != [] && b[0] in pat
  {
    assert pat[|a| - 1] == a[|a| - 1];
    assert pat[|a|] == b[0];
  }

  /** `RemoveSplits` when no occurrence starts the text: the first character stays. */
  lemma {:induction false} RemoveSplitsPastChar(a: string, b: string, pat: string)
    requires pat != [] && a != [] && |a + b| >= |pat| && (a + b)[..|pat|] != pat
    requires a[|a| - 1] !in pat || (b != [] && b[0] !in pat)
    ensures Remove(a + b, pat) == Remove(a, pat) + Remove(b, pat)
    decreases |a|, 0
  {
    var p, s := |pat|, a + b;
    SliceOfAppend(a, b, 1);
    assert Remove(s, pat) == [a[0]] + Remove(a[1..] + b, pat);
    var tail := if |a| > 1 then Remove(a[1..], pat) else [];
    if |a| > 1 {
      assert a[1..][|a| - 2] == a[|a| - 1];
      RemoveSplits(a[1..], b, pat);
    }
    assert Remove(a[1..] + b, pat) == tail + Remove(b, pat);
    AppendAssociates([a[0]], tail, Remove(b, pat));
    if |a| >= p {
      SliceOfAppend(a, b, p);
      assert Remove(a, pat) == [a[0]] + Remove(a[1..], pat);
    } else if |a| > 1 {
      assert Remove(a[1..], pat) == a[1..];
      assert [a[0]] + a[1..] == a;
    } else {
      assert [a[0]] == a;
    }
  }

  /** A text that starts with the pattern loses that occurrence. */
  lemma RemoveLeading(pat: string, rest: string)
    requires pat != []
    ensures Remove(pat + rest, pat) == Remove(rest, pat)
  {
    assert (pat + rest)[..|pat|] == pat;
    assert (pat + rest)[|pat|..] == rest;
  }

  // ---------------------------------------------------------------- strip

  /** The characters for which `str.isspace()` holds: what `strip()` removes. */
  predicate IsSpace(c: char) {
    var n := c as int;
    (9 <= n <= 13) || (28 <= n <= 32) || n == 0x85 || n == 0xA0 || n == 0x1680
    || (0x2000 <= n <= 0x200A) || n == 0x2028 || n == 0x2029 || n == 0x202F
    || n == 0x205F || n == 0x3000
  }

  /** The number of whitespace characters `s` starts with. */
  function LeadingSpaces(s: string): (n: nat)
    ensures n <= |s|
    ensures forall k :: 0 <= k < n ==> IsSpace(s[k])
    ensures n == |s| || !IsSpace(s[n])
    decreases |s|
  {
    if s != [] && IsSpace(s[0]) then 1 + LeadingSpaces(s[1..]) else 0
  }

  /** `s` without its trailing whitespace. */
  function TrimEnd(s: string): (r: string)
    ensures |r| <= |s| && r == s[..|r|]
    ensures forall k :: |r| <= k < |s| ==> IsSpace(s[k])
    ensures r == [] || !IsSpace(r[|r| - 1])
    decreases |s|
  {
    if s != [] && IsSpace(s[|s| - 1]) then TrimEnd(s[..|s| - 1]) else s
  }

  /** `s.strip()`: the slice of `s` that starts after its leading whitespace,
      ends before its trailing whitespace, and neither starts nor ends with
      whitespace itself. */
  function Strip(s: string): (r: string)
    ensures r == [] || (!IsSpace(r[0]) && !IsSpace(r[|r| - 1]))
    ensures LeadingSpaces(s) + |r| <= |s|
    ensures r == s[LeadingSpaces(s)..LeadingSpaces(s) + |r|]
    ensures forall k :: LeadingSpaces(s) + |r| <= k < |s| ==> IsSpace(s[k])
  {
    var i := LeadingSpaces(s);
    var r := TrimEnd(s[i..]);
    DropThenTake(s, i, |r|);
    r
  }

  // ----------------------------------------------------------- splitlines

  /** The line boundaries of `str.splitlines()`; `"\r\n"` counts as one. */
  predicate IsLineBreak(c: char) {
    var n := c as int;
    (10 <= n <= 13) || (28 <= n <= 30) || n == 0x85 || n == 0x2028 || n == 0x2029
  }

  /** A text that `str.splitlines()` leaves in one piece. */
  predicate NoLineBreak(s: string) {
    forall j :: 0 <= j < |s| ==> !IsLineBreak(s[j])
  }

  lemma NoLineBreakAppend(a: string, b: string)
    ensures NoLineBreak(a + b) <==> NoLineBreak(a) && NoLineBreak(b)
  {
    assert forall j :: 0 <= j < |a| ==> (a + b)[j] == a[j];
    assert forall j :: 0 <= j < |b| ==> (a + b)[|a| + j] == b[j];
  }

  /** The length of the first line of `s` without, and with, its line boundary. */
  function FirstLine(s: string): (r: (nat, nat))
    requires s != []
    ensures r.0 <= r.1 <= |s| && 0 < r.1
    ensures forall j :: 0 <= j < r.0 ==> !IsLineBreak(s[j])
    ensures r.0 == r.1 ==> r.1 == |s|
    ensures r.0 < r.1 ==>
              && IsLineBreak(s[r.0])
              && r.1 == r.0 + (if s[r.0] == '\r' && r.0 + 1 < |s| && s[r.0 + 1] == '\n' then 2 else 1)
    decreases |s|
  {
    if IsLineBreak(s[0]) then (0, if s[0] == '\r' && 1 < |s| && s[1] == '\n' then 2 else 1)
    else if |s| == 1 then (1, 1)
    else
      var (c, n) := FirstLine(s[1..]);
      (c + 1, n + 1)
  }

  /** `s.splitlines(keepends=True)` */
  function SplitLinesKeep(s: string): seq<string>
    decreases |s|
  {
    if s == [] then []
    else
      var (c, n) := FirstLine(s);
      [s[..n]] + SplitLinesKeep(s[n..])
  }

  /** `s.splitlines()`: no line holds a line boundary. */
  function SplitLines(s: string): (r: seq<string>)
    ensures forall i :: 0 <= i < |r| ==> NoLineBreak(r[i])
    decreases |s|
  {
    if s == [] then []
    else
      var (c, n) := FirstLine(s);
      [s[..c]] + SplitLines(s[n..])
  }

  /** The lines kept with their boundaries put back together give the text. */
  lemma {:induction false} ConcatSplitLinesKeep(s: string)
    ensures Concat(SplitLinesKeep(s)) == s
    decreases |s|
  {
    if s != [] {
      var (c, n) := FirstLine(s);
      var rest := SplitLinesKeep(s[n..]);
      ConcatSplitLinesKeep(s[n..]);
      assert ([s[..n]] + rest)[1..] == rest;
      assert Concat(SplitLinesKeep(s)) == s[..n] + Concat(rest);
      TakeDrop(s, n);
    }
  }

  /** A text without line boundaries is one line (or none, when empty). */
  lemma SplitLinesSingle(s: string)
    ensures NoLineBreak(s) ==> SplitLines(s) == if s == [] then [] else [s]
  {
    if s != [] && NoLineBreak(s) {
      var r := FirstLine(s);
      assert r.0 == |s|;
      assert s[..r.0] == s;
      assert s[r.1..] == [];
    }
  }

  /** A first line ended by `"\n"` at `k` is the `k` characters before it. */
  lemma {:induction false} FirstLineAt(s: string, k: nat)
    requires k < |s| && s[k] == '\n' && NoLineBreak(s[..k])
    ensures FirstLine(s) == (k, k + 1)
    decreases k
  {
    if k > 0 {
      assert s[1..][..k - 1] == s[..k][1..];
      FirstLineAt(s[1..], k - 1);
    }
  }

  /** A line ended by `"\n"` is split off the front of the text. */
  lemma SplitLinesAfterLine(a: string, b: string)
    requires NoLineBreak(a)
    ensures SplitLines(a + "\n" + b) == [a] + SplitLines(b)
  {
    var s := a + "\n" + b;
    assert s[..|a|] == a;
    FirstLineAt(s, |a|);
    assert s[|a| + 1..] == b;
  }

  /** Kept with its boundary, a line ended by `"\n"` is split off the front. */
  lemma SplitLinesKeepAfterLine(a: string, b: string)
    requires NoLineBreak(a)
    ensures SplitLinesKeep(a + "\n" + b) == [a + "\n"] + SplitLinesKeep(b)
  {
    var s := a + "\n" + b;
    assert s[..|a|] == a;
    FirstLineAt(s, |a|);
    assert s[..|a| + 1] == a + "\n";
    assert s[|a| + 1..] == b;
  }

  /** A text made of lines each ended by its only `"\n"` splits back into them. */
  lemma {:induction false} SplitLinesKeepConcat(lines: seq<string>)
    requires forall i :: 0 <= i < |lines| ==> |lines[i]| > 0 && lines[i][|lines[i]| - 1] == '\n'
    requires forall i :: 0 <= i < |lines| ==> NoLineBreak(lines[i][..|lines[i]| - 1])
    ensures SplitLinesKeep(Concat(lines)) == lines
    decreases |lines|
  {
    if lines != [] {
      var first, rest := lines[0], lines[1..];
      var text := first[..|first| - 1];
      assert forall i :: 0 <= i < |rest| ==> rest[i] == lines[i + 1];
      SplitLinesKeepConcat(rest);
      assert first == text + "\n";
      assert Concat(lines) == first + Concat(rest);
      SplitLinesKeepAfterLine(text, Concat(rest));
      assert lines == [first] + rest;
    }
  }

  /** Joining pieces free of line boundaries with a separator free of them
      gives a text free of them. */
  lemma {:induction false} JoinNoLineBreak(xs: seq<string>, sep: string)
    requires forall i :: 0 <= i < |xs| ==> NoLineBreak(xs[i])
    requires NoLineBreak(sep)
    ensures NoLineBreak(Join(xs, sep))
    decreases |xs|
  {
    if |xs| > 1 {
      var init := xs[..|xs| - 1];
      JoinNoLineBreak(init, sep);
      NoLineBreakAppend(Join(init, sep), sep);
      NoLineBreakAppend(Join(init, sep) + sep, xs[|xs| - 1]);
    }
  }
}
