/** Text as a sequence of newline-terminated lines: joining, splitting, selecting by prefix. */
module Lines {

  /** The strings of `ls` joined end to end, in order. */
  function Concat(ls: seq<string>): string
  {
    if ls == [] then "" else Concat(ls[..|ls| - 1]) + ls[|ls| - 1]
  }

  lemma {:induction false} ConcatAppend(a: seq<string>, b: seq<string>)
    ensures Concat(a + b) == Concat(a) + Concat(b)
  {
    if b == [] {
      assert a + b == a;
    } else {
      assert (a + b)[..|a + b| - 1] == a + b[..|b| - 1];
      ConcatAppend(a, b[..|b| - 1]);
    }
  }

  lemma {:induction false} ConcatCons(x: string, ls: seq<string>)
    ensures Concat([x] + ls) == x + Concat(ls)
  {
    ConcatAppend([x], ls);
    assert [x][..0] == [];
  }

  lemma ConcatOne(x: string)
    ensures Concat([x]) == x
  {
    assert [x][..0] == [];
  }

  // Appending strings one after another to a buffer, as the report does, leaves the buffer
  // followed by the strings joined. These lemmas state it in the left-nested form the
  // appends take.

  lemma ConcatStep(buf: string, ls: seq<string>, x: string)
    ensures buf + Concat(ls) + x == buf + Concat(ls + [x])
  {
    assert (ls + [x])[..|ls|] == ls;
  }

  lemma ConcatJoin(buf: string, a: seq<string>, b: seq<string>)
    ensures buf + Concat(a) + Concat(b) == buf + Concat(a + b)
  {
    ConcatAppend(a, b);
  }

  lemma Join4(buf: string, a0: string, a1: string, a2: string, a3: string)
    ensures buf + a0 + a1 + a2 + a3 == buf + Concat([a0, a1, a2, a3])
  {
    var l: seq<string> := [];
    var t := buf;
    ConcatStep(buf, l, a0); t, l := t + a0, l + [a0]; assert t == buf + Concat(l);
    ConcatStep(buf, l, a1); t, l := t + a1, l + [a1]; assert t == buf + Concat(l);
    ConcatStep(buf, l, a2); t, l := t + a2, l + [a2]; assert t == buf + Concat(l);
    ConcatStep(buf, l, a3); t, l := t + a3, l + [a3]; assert t == buf + Concat(l);
    assert l == [a0, a1, a2, a3];
  }

  lemma Join10(buf: string, a0: string, a1: string, a2: string, a3: string, a4: string,
               a5: string, a6: string, a7: string, a8: string, a9: string)
    ensures buf + a0 + a1 + a2 + a3 + a4 + a5 + a6 + a7 + a8 + a9
         == buf + Concat([a0, a1, a2, a3, a4, a5, a6, a7, a8, a9])
  {
    var l: seq<string> := [];
    var t := buf;
    ConcatStep(buf, l, a0); t, l := t + a0, l + [a0]; assert t == buf + Concat(l);
    ConcatStep(buf, l, a1); t, l := t + a1, l + [a1]; assert t == buf + Concat(l);
    ConcatStep(buf, l, a2); t, l := t + a2, l + [a2]; assert t == buf + Concat(l);
    ConcatStep(buf, l, a3); t, l := t + a3, l + [a3]; assert t == buf + Concat(l);
    ConcatStep(buf, l, a4); t, l := t + a4, l + [a4]; assert t == buf + Concat(l);
    ConcatStep(buf, l, a5); t, l := t + a5, l + [a5]; assert t == buf + Concat(l);
    ConcatStep(buf, l, a6); t, l := t + a6, l + [a6]; assert t == buf + Concat(l);
    ConcatStep(buf, l, a7); t, l := t + a7, l + [a7]; assert t == buf + Concat(l);
    ConcatStep(buf, l, a8); t, l := t + a8, l + [a8]; assert t == buf + Concat(l);
    ConcatStep(buf, l, a9); t, l := t + a9, l + [a9]; assert t == buf + Concat(l);
    assert l == [a0, a1, a2, a3, a4, a5, a6, a7, a8, a9];
  }

  /** The index of the first newline of `s` at or after `k`, or |s| when there is none. */
  function NewlineFrom(s: string, k: nat): (i: nat)
    requires k <= |s|
    ensures k <= i <= |s|
    ensures i < |s| ==> s[i] == '\n'
    ensures forall j :: k <= j < i ==> s[j] != '\n'
    decreases |s| - k
  {
    if k == |s| then k else if s[k] == '\n' then k else NewlineFrom(s, k + 1)
  }

  function NewlineIndex(s: string): (i: nat)
    ensures i <= |s|
    ensures i < |s| ==> s[i] == '\n'
    ensures forall j :: 0 <= j < i ==> s[j] != '\n'
  {
    NewlineFrom(s, 0)
  }

  /** The lines of `s`: each piece ends at a newline, except possibly the last. */
  function SplitLines(s: string): (ls: seq<string>)
    decreases |s|
  {
    if s == "" then []
    else
      var i := NewlineIndex(s);
      if i == |s| then [s] else [s[..i + 1]] + SplitLines(s[i + 1..])
  }

  /** A single line: it ends with the only newline it contains. */
  predicate OneLine(l: string)
  {
    |l| > 0 && l[|l| - 1] == '\n' && '\n' !in l[..|l| - 1]
  }

  predicate AllOneLine(ls: seq<string>)
  {
    forall i :: 0 <= i < |ls| ==> OneLine(ls[i])
  }

  /** Empty, or ending with a newline. */
  predicate Terminated(s: string)
  {
    s == "" || s[|s| - 1] == '\n'
  }

  /** The first newline is the only thing that decides the index. */
  lemma NewlineIndexUnique(s: string, i: nat)
    requires i < |s| && s[i] == '\n'
    requires forall j :: 0 <= j < i ==> s[j] != '\n'
    ensures NewlineIndex(s) == i
  {
  }

  lemma NewlineIndexExtend(a: string, b: string)
    requires NewlineIndex(a) < |a|
    ensures NewlineIndex(a + b) == NewlineIndex(a)
  {
    var i := NewlineIndex(a);
    assert forall j :: 0 <= j <= i ==> (a + b)[j] == a[j];
    NewlineIndexUnique(a + b, i);
  }

  lemma NewlineIndexOfLine(l: string)
    requires OneLine(l)
    ensures NewlineIndex(l) == |l| - 1
  {
  }

  /** Splitting undoes joining a list of single lines. */
  lemma {:induction false} SplitOne(l: string)
    requires OneLine(l)
    ensures SplitLines(l) == [l]
  {
    NewlineIndexOfLine(l);
    assert l[..|l|] == l;
    assert l[|l|..] == "";
  }

  lemma SplitHead(s: string)
    requires NewlineIndex(s) < |s|
    ensures SplitLines(s) == [s[..NewlineIndex(s) + 1]] + SplitLines(s[NewlineIndex(s) + 1..])
  {
  }

  lemma TakeDropAppend(a: string, b: string, i: nat)
    requires i < |a|
    ensures (a + b)[..i + 1] == a[..i + 1]
    ensures (a + b)[i + 1..] == a[i + 1..] + b
  {
  }

  /** Text after a complete first line splits into that line and the rest. */
  lemma SplitAfterLine(a: string, b: string)
    requires NewlineIndex(a) < |a|
    ensures SplitLines(a + b)
         == [a[..NewlineIndex(a) + 1]] + SplitLines(a[NewlineIndex(a) + 1..] + b)
  {
    var i := NewlineIndex(a);
    NewlineIndexExtend(a, b);
    TakeDropAppend(a, b, i);
    SplitHead(a + b);
  }

  /** Terminated text has a first newline, and what follows it is terminated too. */
  lemma TerminatedRest(a: string)
    requires Terminated(a) && a != ""
    ensures NewlineIndex(a) < |a| && Terminated(a[NewlineIndex(a) + 1..])
  {
    assert a[|a| - 1] == '\n';
  }

  lemma {:induction false} SplitAppend(a: string, b: string)
    requires Terminated(a)
    ensures SplitLines(a + b) == SplitLines(a) + SplitLines(b)
    decreases |a|
  {
    if a == "" {
      assert a + b == b;
    } else {
      var i := NewlineIndex(a);
      TerminatedRest(a);
      var line, rest := a[..i + 1], a[i + 1..];
      SplitAfterLine(a, b);
      SplitHead(a);
      SplitAppend(rest, b);
      assert [line] + (SplitLines(rest) + SplitLines(b)) == [line] + SplitLines(rest) + SplitLines(b);
    }
  }

  lemma {:induction false} ConcatTerminated(ls: seq<string>)
    requires AllOneLine(ls)
    ensures Terminated(Concat(ls))
  {
  }

  /** Joining single lines and splitting the result gives the same lines back. */
  lemma {:induction false} SplitConcat(ls: seq<string>)
    requires AllOneLine(ls)
    ensures SplitLines(Concat(ls)) == ls
  {
    if ls != [] {
      var init, last := ls[..|ls| - 1], ls[|ls| - 1];
      assert AllOneLine(init);
      ConcatTerminated(init);
      SplitAppend(Concat(init), last);
      SplitOne(last);
      SplitConcat(init);
      assert init + [last] == ls;
    }
  }

  /** Splitting loses nothing: the lines join back into the text. */
  lemma {:induction false} ConcatSplit(s: string)
    ensures Concat(SplitLines(s)) == s
    decreases |s|
  {
    if s != "" {
      var i := NewlineIndex(s);
      if i == |s| {
        assert [s][..0] == [];
      } else {
        ConcatSplit(s[i + 1..]);
        ConcatCons(s[..i + 1], SplitLines(s[i + 1..]));
        assert s[..i + 1] + s[i + 1..] == s;
      }
    }
  }

  /** Does `l` begin with `p`? */
  predicate StartsWith(l: string, p: string)
  {
    |p| <= |l| && l[..|p|] == p
  }

  /** The lines of `ls` that begin with `p`, in order. */
  function Filter(ls: seq<string>, p: string): seq<string>
  {
    if ls == [] then []
    else Filter(ls[..|ls| - 1], p) + (if StartsWith(ls[|ls| - 1], p) then [ls[|ls| - 1]] else [])
  }

  lemma {:induction false} FilterAppend(a: seq<string>, b: seq<string>, p: string)
    ensures Filter(a + b, p) == Filter(a, p) + Filter(b, p)
  {
    if b != [] {
      assert (a + b)[..|a + b| - 1] == a + b[..|b| - 1];
      FilterAppend(a, b[..|b| - 1], p);
    } else {
      assert a + b == a;
    }
  }

  lemma {:induction false} FilterNone(ls: seq<string>, p: string)
    requires forall i :: 0 <= i < |ls| ==> !StartsWith(ls[i], p)
    ensures Filter(ls, p) == []
  {
    if ls != [] {
      FilterNone(ls[..|ls| - 1], p);
    }
  }

  lemma FilterOne(l: string, p: string)
    ensures Filter([l], p) == if StartsWith(l, p) then [l] else []
  {
    assert [l][..0] == [];
  }

  /** The entries of `xs` one after another, entry k (counting from 1) made by `entry(k, xs[k-1])`. */
  function Numbered<T>(xs: seq<T>, entry: (nat, T) -> seq<string>): seq<string>
  {
    if xs == [] then [] else Numbered(xs[..|xs| - 1], entry) + entry(|xs|, xs[|xs| - 1])
  }

  /** The entries of `xs` one after another, each made by `entry`. */
  function Each<T>(xs: seq<T>, entry: T -> seq<string>): seq<string>
  {
    if xs == [] then [] else Each(xs[..|xs| - 1], entry) + entry(xs[|xs| - 1])
  }

  /** One more loop iteration: entry i+1 appended after the first i entries. */
  lemma NumberedStep<T>(buf: string, xs: seq<T>, i: nat, entry: (nat, T) -> seq<string>)
    requires i < |xs|
    ensures buf + Concat(Numbered(xs[..i], entry)) + Concat(entry(i + 1, xs[i]))
         == buf + Concat(Numbered(xs[..i + 1], entry))
  {
    assert xs[..i + 1][..i] == xs[..i];
    ConcatAppend(Numbered(xs[..i], entry), entry(i + 1, xs[i]));
  }

  lemma EachStep<T>(buf: string, xs: seq<T>, i: nat, entry: T -> seq<string>)
    requires i < |xs|
    ensures buf + Concat(Each(xs[..i], entry)) + Concat(entry(xs[i]))
         == buf + Concat(Each(xs[..i + 1], entry))
  {
    assert xs[..i + 1][..i] == xs[..i];
    ConcatAppend(Each(xs[..i], entry), entry(xs[i]));
  }

  /** The same step when every entry is a single string. */
  lemma NumberedLineStep<T>(buf: string, xs: seq<T>, i: nat, entry: (nat, T) -> seq<string>)
    requires i < |xs| && |entry(i + 1, xs[i])| == 1
    ensures buf + Concat(Numbered(xs[..i], entry)) + entry(i + 1, xs[i])[0]
         == buf + Concat(Numbered(xs[..i + 1], entry))
  {
    NumberedStep(buf, xs, i, entry);
    assert entry(i + 1, xs[i]) == [entry(i + 1, xs[i])[0]];
    ConcatOne(entry(i + 1, xs[i])[0]);
  }

  lemma EachLineStep<T>(buf: string, xs: seq<T>, i: nat, entry: T -> seq<string>)
    requires i < |xs| && |entry(xs[i])| == 1
    ensures buf + Concat(Each(xs[..i], entry)) + entry(xs[i])[0]
         == buf + Concat(Each(xs[..i + 1], entry))
  {
    EachStep(buf, xs, i, entry);
    assert entry(xs[i]) == [entry(xs[i])[0]];
    ConcatOne(entry(xs[i])[0]);
  }

  lemma {:induction false} NumberedOneLine<T>(xs: seq<T>, entry: (nat, T) -> seq<string>)
    requires forall i :: 0 <= i < |xs| ==> AllOneLine(entry(i + 1, xs[i]))
    ensures AllOneLine(Numbered(xs, entry))
  {
    if xs != [] {
      NumberedOneLine(xs[..|xs| - 1], entry);
    }
  }

  lemma {:induction false} EachOneLine<T>(xs: seq<T>, entry: T -> seq<string>)
    requires forall i :: 0 <= i < |xs| ==> AllOneLine(entry(xs[i]))
    ensures AllOneLine(Each(xs, entry))
  {
    if xs != [] {
      EachOneLine(xs[..|xs| - 1], entry);
    }
  }

  /** When every entry is one line, there is one line per element, in order. */
  lemma {:induction false} NumberedSingle<T>(xs: seq<T>, entry: (nat, T) -> seq<string>)
    requires forall i :: 0 <= i < |xs| ==> |entry(i + 1, xs[i])| == 1
    ensures |Numbered(xs, entry)| == |xs|
    ensures forall i :: 0 <= i < |xs| ==> Numbered(xs, entry)[i] == entry(i + 1, xs[i])[0]
  {
    if xs != [] {
      NumberedSingle(xs[..|xs| - 1], entry);
    }
  }

  lemma {:induction false} EachSingle<T>(xs: seq<T>, entry: T -> seq<string>)
    requires forall i :: 0 <= i < |xs| ==> |entry(xs[i])| == 1
    ensures |Each(xs, entry)| == |xs|
    ensures forall i :: 0 <= i < |xs| ==> Each(xs, entry)[i] == entry(xs[i])[0]
  {
    if xs != [] {
      EachSingle(xs[..|xs| - 1], entry);
    }
  }

  /** A line that differs from `p` at some position within `p` does not begin with `p`. */
  lemma DiffersAt(l: string, p: string, j: nat)
    requires j < |p| && (j < |l| ==> l[j] != p[j])
    ensures !StartsWith(l, p)
  {
    if |p| <= |l| {
      assert l[..|p|][j] != p[j];
    }
  }

  /** Selecting every line means every line begins with `p`, and conversely. */
  lemma {:induction false} FilterAll(ls: seq<string>, p: string)
    requires forall i :: 0 <= i < |ls| ==> StartsWith(ls[i], p)
    ensures Filter(ls, p) == ls
  {
    if ls != [] {
      FilterAll(ls[..|ls| - 1], p);
    }
  }

  lemma {:induction false} NumberedFilterEmpty<T>(xs: seq<T>, entry: (nat, T) -> seq<string>,
                                                   p: string)
    requires forall i :: 0 <= i < |xs| ==> Filter(entry(i + 1, xs[i]), p) == []
    ensures Filter(Numbered(xs, entry), p) == []
  {
    if xs != [] {
      var n := |xs|;
      NumberedFilterEmpty(xs[..n - 1], entry, p);
      FilterAppend(Numbered(xs[..n - 1], entry), entry(n, xs[n - 1]), p);
    }
  }

  lemma {:induction false} EachFilterEmpty<T>(xs: seq<T>, entry: T -> seq<string>, p: string)
    requires forall i :: 0 <= i < |xs| ==> Filter(entry(xs[i]), p) == []
    ensures Filter(Each(xs, entry), p) == []
  {
    if xs != [] {
      var n := |xs|;
      EachFilterEmpty(xs[..n - 1], entry, p);
      FilterAppend(Each(xs[..n - 1], entry), entry(xs[n - 1]), p);
    }
  }

  lemma {:induction false} EachFilterAll<T>(xs: seq<T>, entry: T -> seq<string>, p: string)
    requires forall i :: 0 <= i < |xs| ==> Filter(entry(xs[i]), p) == entry(xs[i])
    ensures Filter(Each(xs, entry), p) == Each(xs, entry)
  {
    if xs != [] {
      var n := |xs|;
      EachFilterAll(xs[..n - 1], entry, p);
      FilterAppend(Each(xs[..n - 1], entry), entry(xs[n - 1]), p);
    }
  }

  lemma MulStep(c: nat, n: nat)
    requires n > 0
    ensures c * (n - 1) + c == c * n
  {
  }

  /** Entries that each hold `c` lines beginning with `p` hold `c` such lines per element. */
  lemma {:induction false} NumberedFilterCount<T>(xs: seq<T>, entry: (nat, T) -> seq<string>,
                                                   p: string, c: nat)
    requires forall i :: 0 <= i < |xs| ==> |Filter(entry(i + 1, xs[i]), p)| == c
    ensures |Filter(Numbered(xs, entry), p)| == c * |xs|
  {
    if xs != [] {
      var n := |xs|;
      var front := Numbered(xs[..n - 1], entry);
      NumberedFilterCount(xs[..n - 1], entry, p, c);
      assert Numbered(xs, entry) == front + entry(n, xs[n - 1]);
      FilterAppend(front, entry(n, xs[n - 1]), p);
      assert |Filter(entry(n, xs[n - 1]), p)| == c;
      MulStep(c, n);
    }
  }

  /** Selecting from each entry what `sel` gives for it selects, over all entries, the
      entries of `sel`. */
  lemma {:induction false} NumberedFilterMap<T>(xs: seq<T>, entry: (nat, T) -> seq<string>,
                                                 sel: (nat, T) -> seq<string>, p: string)
    requires forall i :: 0 <= i < |xs| ==> Filter(entry(i + 1, xs[i]), p) == sel(i + 1, xs[i])
    ensures Filter(Numbered(xs, entry), p) == Numbered(xs, sel)
  {
    if xs != [] {
      var n := |xs|;
      NumberedFilterMap(xs[..n - 1], entry, sel, p);
      FilterAppend(Numbered(xs[..n - 1], entry), entry(n, xs[n - 1]), p);
    }
  }

  /** Regrouping a join of seven parts so that the first stands apart. */
  lemma BannerRegroup<T>(a: seq<T>, f: seq<T>, m: seq<T>, g: seq<T>,
                         d: seq<T>, n: seq<T>, b: seq<T>)
    ensures (a + f) + m + g + d + n + b == a + (f + m + g + d + n + b)
  {
  }

  /** Where each of five joined parts sits in the whole. */
  lemma Layout5<T>(a: seq<T>, b: seq<T>, c: seq<T>, d: seq<T>, e: seq<T>)
    ensures |a + b + c + d + e| == |a| + |b| + |c| + |d| + |e|
    ensures (a + b + c + d + e)[..|a|] == a
    ensures forall i :: 0 <= i < |b| ==> (a + b + c + d + e)[|a| + i] == b[i]
    ensures (a + b + c + d + e)[|a| + |b|..|a| + |b| + |c|] == c
    ensures forall i :: 0 <= i < |d| ==> (a + b + c + d + e)[|a| + |b| + |c| + i] == d[i]
    ensures (a + b + c + d + e)[|a| + |b| + |c| + |d|..] == e
  {
  }

  lemma MulBound(c: nat, i: nat, n: nat)
    requires i < n
    ensures c * i + c <= c * n
  {
    assert c * i + c == c * (i + 1);
  }

  /** Entries of `c` lines each: the entry of element k (counting from 0) fills lines c*k
      to c*k + c - 1. */
  lemma {:induction false} NumberedBlocks<T>(xs: seq<T>, entry: (nat, T) -> seq<string>, c: nat)
    requires forall i :: 0 <= i < |xs| ==> |entry(i + 1, xs[i])| == c
    ensures |Numbered(xs, entry)| == c * |xs|
    ensures forall i :: 0 <= i < |xs| ==>
      c * i + c <= c * |xs| && Numbered(xs, entry)[c * i..c * i + c] == entry(i + 1, xs[i])
  {
    if xs != [] {
      var n := |xs|;
      var front := Numbered(xs[..n - 1], entry);
      NumberedBlocks(xs[..n - 1], entry, c);
      assert Numbered(xs, entry) == front + entry(n, xs[n - 1]);
      MulStep(c, n);
      forall i | 0 <= i < n
        ensures c * i + c <= c * n && Numbered(xs, entry)[c * i..c * i + c] == entry(i + 1, xs[i])
      {
        if i < n - 1 {
          MulBound(c, i, n - 1);
          assert xs[..n - 1][i] == xs[i];
          assert front[c * i..c * i + c] == entry(i + 1, xs[i]);
        } else {
          assert c * i == |front|;
        }
      }
    }
  }
}
