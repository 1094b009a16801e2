/** The shape shared by the parsers' loops: a state threaded through the
    lines (or what was read from them) in order, and what follows from a property of one step. */
module Folds {
  import opened Wrappers
  import opened Text

  /** Reading `lines` in order, each through `step`. */
  function Fold<S, L>(st: S, lines: seq<L>, step: (S, L) -> S): S
    decreases |lines|
  {
    if lines == [] then st else Fold(step(st, lines[0]), lines[1..], step)
  }

  /** One step of a loop reading `xs` from position `i`. */
  lemma FoldUnroll<S, L>(st: S, xs: seq<L>, i: nat, step: (S, L) -> S)
    requires i < |xs|
    ensures Fold(st, xs[i..], step) == Fold(step(st, xs[i]), xs[i + 1..], step)
  {
    assert xs[i..][1..] == xs[i + 1..];
  }

  /** The concatenation of `part` over the lines, in order. */
  function ConcatMap<L>(lines: seq<L>, part: L -> string): string
    decreases |lines|
  {
    if lines == [] then "" else part(lines[0]) + ConcatMap(lines[1..], part)
  }

  /** How many lines satisfy `p`. */
  function CountWhere<L>(lines: seq<L>, p: L -> bool): (n: nat)
    ensures n <= |lines|
    decreases |lines|
  {
    if lines == [] then 0 else (if p(lines[0]) then 1 else 0) + CountWhere(lines[1..], p)
  }

  /** The value reported by the last line for which `f` reports one. */
  function LastValue<L>(lines: seq<L>, f: L -> Option<int>): (r: Option<int>)
    ensures r.None? <==> forall i :: 0 <= i < |lines| ==> f(lines[i]).None?
    ensures r.Some? ==> exists i :: 0 <= i < |lines| && f(lines[i]) == r
                                  && forall j :: i < j < |lines| ==> f(lines[j]).None?
    decreases |lines|
  {
    if lines == [] then None
    else
      var rest := LastValue(lines[1..], f);
      assert forall i :: 1 <= i < |lines| ==> lines[i] == lines[1..][i - 1];
      if rest.Some? then
        ghost var k :| 0 <= k < |lines[1..]| && f(lines[1..][k]) == rest
                       && forall j :: k < j < |lines[1..]| ==> f(lines[1..][j]).None?;
        assert f(lines[k + 1]) == rest;
        rest
      else f(lines[0])
  }

  /** When every step appends its line's own part to a text field, the fold
      appends the parts of all lines, in order. */
  lemma {:induction false} FoldAppends<S, L>(st: S, lines: seq<L>, step: (S, L) -> S,
                                            get: S -> string, part: L -> string)
    requires forall s, l :: get(step(s, l)) == get(s) + part(l)
    ensures get(Fold(st, lines, step)) == get(st) + ConcatMap(lines, part)
    decreases |lines|
  {
    if lines != [] {
      var st1 := step(st, lines[0]);
      FoldAppends(st1, lines[1..], step, get, part);
      assert get(st) + ConcatMap(lines, part) == (get(st) + part(lines[0])) + ConcatMap(lines[1..], part);
    }
  }

  /** When every step adds one element to a sequence field for the lines
      satisfying `p` and keeps the earlier ones, the fold adds one per such
      line. */
  lemma {:induction false} FoldGrows<S, L, T>(st: S, lines: seq<L>, step: (S, L) -> S,
                                             get: S -> seq<T>, p: L -> bool)
    requires forall s, l :: |get(step(s, l))| == |get(s)| + (if p(l) then 1 else 0)
                            && get(step(s, l))[..|get(s)|] == get(s)
    ensures |get(Fold(st, lines, step))| == |get(st)| + CountWhere(lines, p)
    ensures get(Fold(st, lines, step))[..|get(st)|] == get(st)
    decreases |lines|
  {
    if lines != [] {
      var st1 := step(st, lines[0]);
      FoldGrows(st1, lines[1..], step, get, p);
      var e := get(Fold(st1, lines[1..], step));
      assert e[..|get(st)|] == e[..|get(st1)|][..|get(st)|];
    }
  }

  /** When every step overwrites an optional field with the value its line
      reports, if any, the fold ends with the last value reported. */
  lemma {:induction false} FoldKeepsLast<S, L>(st: S, lines: seq<L>, step: (S, L) -> S,
                                              get: S -> Option<int>, f: L -> Option<int>)
    requires forall s, l :: get(step(s, l)) == (if f(l).Some? then f(l) else get(s))
    ensures get(Fold(st, lines, step)) == (if LastValue(lines, f).Some? then LastValue(lines, f) else get(st))
    decreases |lines|
  {
    if lines != [] {
      FoldKeepsLast(step(st, lines[0]), lines[1..], step, get, f);
    }
  }

  /** Every element is counted either by `p` or by its negation. */
  lemma {:induction false} CountSplits<L>(xs: seq<L>, p: L -> bool)
    ensures CountWhere(xs, p) + CountWhere(xs, x => !p(x)) == |xs|
    decreases |xs|
  {
    if xs != [] {
      CountSplits(xs[1..], p);
    }
  }

  /** A predicate implied by another counts at least as many elements. */
  lemma {:induction false} CountMonotone<L>(xs: seq<L>, p: L -> bool, q: L -> bool)
    requires forall x :: p(x) ==> q(x)
    ensures CountWhere(xs, p) <= CountWhere(xs, q)
    decreases |xs|
  {
    if xs != [] {
      CountMonotone(xs[1..], p, q);
    }
  }

  /** The concatenation of `part` over the elements, for sequence parts. */
  function FlatMap<L, T>(xs: seq<L>, part: L -> seq<T>): seq<T>
    decreases |xs|
  {
    if xs == [] then [] else part(xs[0]) + FlatMap(xs[1..], part)
  }

  /** Appending one element appends its part, for sequence parts. */
  lemma {:induction false} FlatMapSnoc<L, T>(xs: seq<L>, x: L, part: L -> seq<T>)
    ensures FlatMap(xs + [x], part) == FlatMap(xs, part) + part(x)
    decreases |xs|
  {
    if xs == [] {
      assert [x][1..] == [];
    } else {
      assert (xs + [x])[1..] == xs[1..] + [x];
      FlatMapSnoc(xs[1..], x, part);
    }
  }

  /** When every element becomes a flag followed by its value, the result
      alternates the flag with the values, in order. */
  lemma {:induction false} FlatMapPairs<L, T>(xs: seq<L>, part: L -> seq<T>, flag: T, value: L -> T)
    requires forall x :: part(x) == [flag, value(x)]
    ensures |FlatMap(xs, part)| == 2 * |xs|
    ensures forall k :: 0 <= k < |xs| ==> FlatMap(xs, part)[2 * k] == flag && FlatMap(xs, part)[2 * k + 1] == value(xs[k])
    decreases |xs|
  {
    if xs != [] {
      FlatMapPairs(xs[1..], part, flag, value);
      var r := FlatMap(xs, part);
      assert r == [flag, value(xs[0])] + FlatMap(xs[1..], part);
      forall k | 1 <= k < |xs|
        ensures r[2 * k] == flag && r[2 * k + 1] == value(xs[k])
      {
        assert xs[k] == xs[1..][k - 1];
        assert r[2 * k] == FlatMap(xs[1..], part)[2 * (k - 1)];
        assert r[2 * k + 1] == FlatMap(xs[1..], part)[2 * (k - 1) + 1];
      }
    }
  }

  /** Appending one element appends its part. */
  lemma {:induction false} ConcatMapSnoc<L>(xs: seq<L>, x: L, part: L -> string)
    ensures ConcatMap(xs + [x], part) == ConcatMap(xs, part) + part(x)
    decreases |xs|
  {
    if xs == [] {
      assert [x][1..] == [];
    } else {
      assert (xs + [x])[1..] == xs[1..] + [x];
      ConcatMapSnoc(xs[1..], x, part);
    }
  }

  /** The part of every element is found in the concatenation. */
  lemma {:induction false} ConcatMapContains<L>(xs: seq<L>, part: L -> string, j: nat)
    requires j < |xs|
    ensures Contains(ConcatMap(xs, part), part(xs[j]))
    decreases j
  {
    if j == 0 {
      ContainsInConcat("", part(xs[0]), ConcatMap(xs[1..], part));
      assert "" + part(xs[0]) + ConcatMap(xs[1..], part) == ConcatMap(xs, part);
    } else {
      ConcatMapContains(xs[1..], part, j - 1);
      ContainsAfter(part(xs[0]), ConcatMap(xs[1..], part), part(xs[j]));
    }
  }

  /** When every element is `ok` and every step on an `ok` element keeps
      `keep` and appends the element's part, while `keep` holds, the fold
      appends the parts of all elements, in order. */
  lemma {:induction false} FoldCollects<S, L, T>(st: S, xs: seq<L>, step: (S, L) -> S, get: S -> seq<T>,
                                                keep: S -> bool, ok: L -> bool, part: L -> seq<T>)
    requires forall i :: 0 <= i < |xs| ==> ok(xs[i])
    requires forall s, l :: ok(l) ==> keep(step(s, l)) == keep(s)
    requires forall s, l :: ok(l) ==> get(step(s, l)) == get(s) + (if keep(s) then part(l) else [])
    ensures keep(Fold(st, xs, step)) == keep(st)
    ensures get(Fold(st, xs, step)) == get(st) + (if keep(st) then FlatMap(xs, part) else [])
    decreases |xs|
  {
    if xs != [] {
      assert forall i :: 0 <= i < |xs[1..]| ==> xs[1..][i] == xs[i + 1];
      var st1 := step(st, xs[0]);
      FoldCollects(st1, xs[1..], step, get, keep, ok, part);
      if keep(st) {
        assert get(st) + part(xs[0]) + FlatMap(xs[1..], part) == get(st) + (part(xs[0]) + FlatMap(xs[1..], part));
      }
    }
  }
}
