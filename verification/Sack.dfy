/** Selective acknowledgements: the advertised ranges are the first maximal runs of held bytes. */
module Sack {
  import opened Segments
  import opened Transport

  /** Byte `x` is held in the buffer. */
  ghost predicate Covered(m: Buffer, x: nat) {
    exists k :: k in m && k <= x < k + |m[k]|
  }

  /** Buffered segments do not overlap. */
  ghost predicate Clean(m: Buffer) {
    forall j, k :: j in m && k in m && j < k ==> j + |m[j]| <= k
  }

  /** `r` is a maximal run of held bytes. */
  ghost predicate MaximalRun(m: Buffer, r: SackRange) {
    && r.start <= r.end
    && (forall x: nat :: InRange(r, x) ==> Covered(m, x))
    && !Covered(m, r.end + 1)
    && (r.start > 0 ==> !Covered(m, r.start - 1))
  }

  /** `e` and `rest` are the end of the run that continues `end` and the buffer above it. */
  ghost predicate Absorbed(m: Buffer, end: nat, e: nat, rest: Buffer) {
    && e >= end
    && (forall x: nat :: end < x <= e ==> Covered(m, x))
    && (forall k :: k in rest <==> k in m && k > e)
    && (forall k :: k in rest ==> rest[k] == m[k] && k > e + 1)
    && (forall k :: k in m && k <= e ==> k + |m[k]| <= e + 1)
  }

  lemma AbsorbStep(m: Buffer, k: nat, end: nat, e: nat, rest: Buffer)
    requires Clean(m) && k in m && k == end + 1 && forall j :: j in m ==> k <= j
    requires Absorbed(m - {k}, k + |m[k]| - 1, e, rest)
    ensures Absorbed(m, end, e, rest)
  {
    var m1, end1 := m - {k}, k + |m[k]| - 1;
    forall x: nat | end < x <= e ensures Covered(m, x) {
      if x <= end1 {
        assert k in m && k <= x < k + |m[k]|;
      } else {
        CoveredBySmaller(m1, m, x);
      }
    }
    forall j | j in m && j <= e ensures j + |m[j]| <= e + 1 {
      if j != k { assert j in m1 && m1[j] == m[j]; }
    }
    forall j ensures j in rest <==> j in m && j > e { assert j in m1 <==> j in m && j != k; }
  }

  lemma CoveredBySmaller(m1: Buffer, m: Buffer, x: nat)
    requires Covered(m1, x) && forall j :: j in m1 ==> j in m && m1[j] == m[j]
    ensures Covered(m, x)
  {
    var j :| j in m1 && j <= x < j + |m1[j]|;
    assert j in m && j <= x < j + |m[j]|;
  }

  lemma {:induction false} ExtendRunAbsorbs(m: Buffer, end: nat)
    requires Clean(m) && forall k :: k in m ==> k > end
    ensures Absorbed(m, end, ExtendRun(m, end).0, ExtendRun(m, end).1)
    decreases m.Keys
  {
    if m.Keys != {} {
      var k: nat := MinKey(m.Keys);
      if k == end + 1 {
        var m1, end1 := m - {k}, k + |m[k]| - 1;
        ExtendRunAbsorbs(m1, end1);
        AbsorbStep(m, k, end, ExtendRun(m1, end1).0, ExtendRun(m1, end1).1);
      }
    }
  }

  /** Above the end of the absorbed run, what is held is what the remaining buffer holds. */
  lemma RestCovers(m: Buffer, rest: Buffer, e: nat, x: nat)
    requires forall k :: k in rest <==> k in m && k > e
    requires forall k :: k in rest ==> rest[k] == m[k]
    requires forall k :: k in m && k <= e ==> k + |m[k]| <= e + 1
    requires x > e
    ensures Covered(m, x) <==> Covered(rest, x)
  {
    if Covered(m, x) {
      var k :| k in m && k <= x < k + |m[k]|;
      assert k in rest && k <= x < k + |rest[k]|;
    }
    if Covered(rest, x) {
      var k :| k in rest && k <= x < k + |rest[k]|;
      assert k in m && k <= x < k + |m[k]|;
    }
  }

  /** `e` and `rest` close the first run of `m`, which starts at `start`. */
  ghost predicate FirstRunIs(m: Buffer, start: nat, e: nat, rest: Buffer) {
    && MaximalRun(m, SackRange(start, e))
    && Clean(rest)
    && (forall k :: k in rest ==> k > e + 1)
    && (forall x: nat :: x > e ==> (Covered(m, x) <==> Covered(rest, x)))
    && (forall x: nat :: Covered(m, x) ==> x >= start)
  }

  lemma FirstRunMaximal(m: Buffer, start: nat, e: nat, rest: Buffer)
    requires Clean(m) && start in m && forall k :: k in m ==> start <= k
    requires Absorbed(m - {start}, start + |m[start]| - 1, e, rest)
    ensures FirstRunIs(m, start, e, rest)
  {
    var m1, end := m - {start}, start + |m[start]| - 1;
    assert forall k :: k in m ==> k == start || (k in m1 && m1[k] == m[k]);
    forall x: nat | x > e ensures Covered(m, x) <==> Covered(rest, x) { RestCovers(m, rest, e, x); }
    forall x: nat | InRange(SackRange(start, e), x) ensures Covered(m, x) {
      if x <= end {
        assert start in m && start <= x < start + |m[start]|;
      } else {
        CoveredBySmaller(m1, m, x);
      }
    }
    assert !Covered(rest, e + 1);
  }

  lemma FirstRunFound(m: Buffer)
    requires Clean(m) && m.Keys != {}
    ensures FirstRunIs(m, FirstRun(m).0, FirstRun(m).1, FirstRun(m).2)
  {
    var start: nat := MinKey(m.Keys);
    var m1, end := m - {start}, start + |m[start]| - 1;
    ExtendRunAbsorbs(m1, end);
    FirstRunMaximal(m, start, ExtendRun(m1, end).0, ExtendRun(m1, end).1);
  }

  /** `rs` are sorted, separated maximal runs, and nothing held below the last of `n` is left out. */
  ghost predicate FirstRuns(m: Buffer, n: nat, rs: seq<SackRange>) {
    && |rs| <= n
    && (forall i :: 0 <= i < |rs| ==> MaximalRun(m, rs[i]))
    && (forall i, j :: 0 <= i < j < |rs| ==> rs[i].end + 1 < rs[j].start)
    && (forall x: nat :: Covered(m, x) ==> InRanges(rs, x) || (|rs| == n && (n > 0 ==> x > rs[n - 1].end)))
  }

  lemma RunStartsAbove(m: Buffer, r: SackRange, lo: nat)
    requires MaximalRun(m, r) && forall k :: k in m ==> k > lo
    ensures r.start > lo
  {
    assert Covered(m, r.start);
  }

  lemma MaximalAbove(m: Buffer, rest: Buffer, e: nat, r: SackRange)
    requires forall x: nat :: x > e ==> (Covered(m, x) <==> Covered(rest, x))
    requires MaximalRun(rest, r) && r.start > e + 1
    ensures MaximalRun(m, r)
  {}

  lemma ConsRuns(m: Buffer, n: nat, start: nat, e: nat, rest: Buffer, tail: seq<SackRange>)
    requires n > 0 && FirstRunIs(m, start, e, rest) && FirstRuns(rest, n - 1, tail)
    ensures FirstRuns(m, n, [SackRange(start, e)] + tail)
  {
    var r := SackRange(start, e);
    var rs := [r] + tail;
    forall i | 0 <= i < |tail| ensures MaximalRun(m, tail[i]) && tail[i].start > e + 1 {
      RunStartsAbove(rest, tail[i], e + 1);
      MaximalAbove(m, rest, e, tail[i]);
    }
    forall x: nat | Covered(m, x) ensures InRanges(rs, x) || (|rs| == n && x > rs[n - 1].end) {
      if x <= e || InRanges(tail, x) { RunsComplete(r, tail, x); }
    }
  }

  lemma RunsComplete(r: SackRange, tail: seq<SackRange>, x: nat)
    requires InRange(r, x) || InRanges(tail, x)
    ensures InRanges([r] + tail, x)
  {
    var rs := [r] + tail;
    if InRange(r, x) {
      assert r in rs;
    } else {
      var t :| t in tail && InRange(t, x);
      assert t in rs;
    }
  }

  /** The advertised ranges are the first at most `n` maximal runs held, in order. */
  lemma {:induction false} RunsAreMaximal(m: Buffer, n: nat)
    requires Clean(m)
    ensures FirstRuns(m, n, Runs(m, n))
    decreases n
  {
    if n > 0 && m.Keys != {} {
      FirstRunFound(m);
      var (start, e, rest) := FirstRun(m);
      RunsAreMaximal(rest, n - 1);
      ConsRuns(m, n, start, e, rest, Runs(rest, n - 1));
    }
  }

  lemma RangesCovered(m: Buffer, n: nat, x: nat)
    requires Clean(m) && InRanges(Runs(m, n), x)
    ensures Covered(m, x)
  {
    RunsAreMaximal(m, n);
    var rs := Runs(m, n);
    var r :| r in rs && InRange(r, x);
    var i :| 0 <= i < |rs| && rs[i] == r;
    assert MaximalRun(m, rs[i]);
  }
}
