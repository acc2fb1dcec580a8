/**
 * Ordered output matching (the end of `Runner.run` in lib/runner.js).
 *
 * The captured output is split into rows; each expected pattern is searched
 * forward from a cursor that sits one row past the row the previous pattern
 * matched. When a pattern has no forward hit, the rows before the cursor are
 * searched again to tell "out of order" from "missing".
 *
 * What a pattern matches is a parameter `m` (the source uses JavaScript
 * regular expressions, whose semantics are not modelled).
 */
module Matching {
  import opened Basics

  /** `expected` in a snippet: a single pattern or a list of them. */
  datatype Expected<P> = Single(pattern: P) | Many(patterns: seq<P>) {
    /** A non-array `expected` is treated as a one-element list. */
    function Patterns(): seq<P> {
      match this
      case Single(p) => [p]
      case Many(ps) => ps
    }
  }

  /** Outcome of the matcher: pass, `ERR_ASSERTION` or `ERR_ORDER`. */
  datatype Verdict<P> = Pass | Missing(pattern: P) | OutOfOrder(pattern: P, previous: P)

  /** The first row in `[lo, hi)` that `p` matches. */
  function FirstMatch<P>(p: P, rows: seq<string>, m: (P, string) -> bool, lo: nat, hi: nat): (r: Option<nat>)
    requires hi <= |rows|
    ensures r.Some? ==> lo <= r.value < hi && m(p, rows[r.value])
    ensures r.Some? ==> forall j :: lo <= j < r.value ==> !m(p, rows[j])
    ensures r.None? ==> forall j :: lo <= j < hi ==> !m(p, rows[j])
    decreases hi - lo
  {
    if lo >= hi then None
    else if m(p, rows[lo]) then Some(lo)
    else FirstMatch(p, rows, m, lo + 1, hi)
  }

  /**
   * The matcher from pattern `k` on, with the row cursor at `last`. A hit
   * at row `i` moves the cursor to `i + 1`; the previous pattern is `ps[k - 1]`.
   */
  function ScanAt<P>(ps: seq<P>, rows: seq<string>, m: (P, string) -> bool, k: nat, last: nat): Verdict<P>
    requires k <= |ps| && last <= |rows|
    decreases |ps| - k
  {
    if k == |ps| then Pass
    else match FirstMatch(ps[k], rows, m, last, |rows|)
      case Some(i) => ScanAt(ps, rows, m, k + 1, i + 1)
      case None =>
        if k > 0 && FirstMatch(ps[k], rows, m, 0, last).Some? then OutOfOrder(ps[k], ps[k - 1])
        else Missing(ps[k])
  }

  /** The whole matcher: cursor at row 0, no previous pattern. */
  function Check<P>(ps: seq<P>, rows: seq<string>, m: (P, string) -> bool): Verdict<P> {
    ScanAt(ps, rows, m, 0, 0)
  }

  /** `idx` assigns to each pattern a row it matches, rows strictly increasing. */
  ghost predicate IsEmbedding<P>(ps: seq<P>, rows: seq<string>, m: (P, string) -> bool, idx: seq<nat>) {
    |idx| == |ps| &&
    (forall k :: 0 <= k < |idx| ==> idx[k] < |rows| && m(ps[k], rows[idx[k]])) &&
    (forall i, j :: 0 <= i < j < |idx| ==> idx[i] < idx[j])
  }

  ghost predicate Embeds<P>(ps: seq<P>, rows: seq<string>, m: (P, string) -> bool) {
    exists idx :: IsEmbedding(ps, rows, m, idx)
  }

  /** Pattern `k` is the first one that cannot be placed after its predecessors. */
  ghost predicate FailsAt<P>(ps: seq<P>, rows: seq<string>, m: (P, string) -> bool, k: nat) {
    k < |ps| && Embeds(ps[..k], rows, m) && !Embeds(ps[..k + 1], rows, m)
  }

  predicate MatchesSomewhere<P>(p: P, rows: seq<string>, m: (P, string) -> bool) {
    exists j: nat :: 0 <= j < |rows| && m(p, rows[j])
  }

  /**
   * The cursor `last` after `k` patterns is where the greedy earliest
   * embedding of `ps[..k]` ends: one such embedding ends at row `last - 1`
   * and none ends earlier.
   */
  ghost predicate Greedy<P>(ps: seq<P>, rows: seq<string>, m: (P, string) -> bool, k: nat, last: nat) {
    k <= |ps| && last <= |rows| &&
    (k == 0 ==> last == 0) &&
    (k > 0 ==> exists idx :: IsEmbedding(ps[..k], rows, m, idx) && idx[k - 1] + 1 == last) &&
    (k > 0 ==> forall idx :: IsEmbedding(ps[..k], rows, m, idx) ==> idx[k - 1] + 1 >= last)
  }

  /** Any embedding of `ps[..k + 1]` restricts to one of `ps[..k]`. */
  lemma EmbeddingPrefix<P>(ps: seq<P>, rows: seq<string>, m: (P, string) -> bool, k: nat, idx: seq<nat>)
    requires k <= |ps| && IsEmbedding(ps, rows, m, idx)
    ensures IsEmbedding(ps[..k], rows, m, idx[..k])
  {
  }

  /** Every embedding of `ps[..k + 1]` places pattern `k` at or after the greedy cursor. */
  lemma EmbeddingAfterCursor<P>(ps: seq<P>, rows: seq<string>, m: (P, string) -> bool, k: nat, last: nat, e: seq<nat>)
    requires Greedy(ps, rows, m, k, last) && k < |ps|
    requires IsEmbedding(ps[..k + 1], rows, m, e)
    ensures last <= e[k] < |rows| && m(ps[k], rows[e[k]])
  {
    assert ps[..k + 1][k] == ps[k];
    if k > 0 {
      EmbeddingPrefix(ps[..k + 1], rows, m, k, e);
      assert ps[..k + 1][..k] == ps[..k];
      assert e[..k][k - 1] == e[k - 1];
    }
  }

  /** A forward hit keeps the cursor greedy. */
  lemma GreedyStep<P>(ps: seq<P>, rows: seq<string>, m: (P, string) -> bool, k: nat, last: nat, i: nat)
    requires Greedy(ps, rows, m, k, last) && k < |ps|
    requires FirstMatch(ps[k], rows, m, last, |rows|) == Some(i)
    ensures Greedy(ps, rows, m, k + 1, i + 1)
  {
    var pre := ps[..k + 1];
    var idx: seq<nat>;
    if k == 0 {
      idx := [i];
    } else {
      var idx0 :| IsEmbedding(ps[..k], rows, m, idx0) && idx0[k - 1] + 1 == last;
      idx := idx0 + [i];
      forall a, b | 0 <= a < b < |idx| ensures idx[a] < idx[b] {
        if b < k {
          assert idx[a] == idx0[a] && idx[b] == idx0[b];
        } else if a < k - 1 {
          assert idx0[a] < idx0[k - 1];
        }
      }
      forall j | 0 <= j < k ensures pre[j] == ps[..k][j] {
      }
    }
    assert pre[k] == ps[k];
    assert IsEmbedding(pre, rows, m, idx);
    forall e | IsEmbedding(pre, rows, m, e) ensures e[k] + 1 >= i + 1 {
      EmbeddingAfterCursor(ps, rows, m, k, last, e);
    }
  }

  /** No forward hit: pattern `k` is the first that cannot be placed. */
  lemma GreedyStuck<P>(ps: seq<P>, rows: seq<string>, m: (P, string) -> bool, k: nat, last: nat)
    requires Greedy(ps, rows, m, k, last) && k < |ps|
    requires FirstMatch(ps[k], rows, m, last, |rows|).None?
    ensures FailsAt(ps, rows, m, k)
  {
    if k == 0 {
      assert IsEmbedding(ps[..0], rows, m, []);
    }
    forall e | IsEmbedding(ps[..k + 1], rows, m, e)
      ensures last <= e[k] < |rows| && m(ps[k], rows[e[k]])
    {
      EmbeddingAfterCursor(ps, rows, m, k, last, e);
    }
  }

  /** What the scan from a greedy cursor returns. */
  lemma {:induction false} ScanSound<P>(ps: seq<P>, rows: seq<string>, m: (P, string) -> bool, k: nat, last: nat)
    requires Greedy(ps, rows, m, k, last)
    ensures ScanAt(ps, rows, m, k, last).Pass? ==> Embeds(ps, rows, m)
    ensures ScanAt(ps, rows, m, k, last).Missing? ==>
              exists j: nat :: FailsAt(ps, rows, m, j) && ps[j] == ScanAt(ps, rows, m, k, last).pattern &&
                          !MatchesSomewhere(ps[j], rows, m)
    ensures ScanAt(ps, rows, m, k, last).OutOfOrder? ==>
              exists j: nat :: 0 < j && FailsAt(ps, rows, m, j) && ps[j] == ScanAt(ps, rows, m, k, last).pattern &&
                          ps[j - 1] == ScanAt(ps, rows, m, k, last).previous && MatchesSomewhere(ps[j], rows, m)
    decreases |ps| - k
  {
    if k == |ps| {
      assert ps[..k] == ps;
      if k == 0 {
        assert IsEmbedding(ps, rows, m, []);
      }
    } else {
      match FirstMatch(ps[k], rows, m, last, |rows|)
      case Some(i) =>
        GreedyStep(ps, rows, m, k, last, i);
        ScanSound(ps, rows, m, k + 1, i + 1);
      case None =>
        GreedyStuck(ps, rows, m, k, last);
        if k > 0 && FirstMatch(ps[k], rows, m, 0, last).Some? {
          var j := FirstMatch(ps[k], rows, m, 0, last).value;
          assert m(ps[k], rows[j]);
        } else {
          forall j | 0 <= j < |rows| ensures !m(ps[k], rows[j]) {
            if j >= last {
            }
          }
        }
    }
  }

  /** An embeddable list has no failing pattern. */
  lemma EmbedsNoFailure<P>(ps: seq<P>, rows: seq<string>, m: (P, string) -> bool, k: nat)
    requires Embeds(ps, rows, m) && k < |ps|
    ensures !FailsAt(ps, rows, m, k)
  {
    var idx :| IsEmbedding(ps, rows, m, idx);
    EmbeddingPrefix(ps, rows, m, k + 1, idx);
  }

  /**
   * The matcher passes exactly when the patterns can be assigned strictly
   * increasing rows they match. It fails with `Missing` on the first pattern
   * that cannot be placed when that pattern matches no row at all, and with
   * `OutOfOrder` naming it and its predecessor when it matches some row.
   * The first pattern never yields `OutOfOrder`.
   */
  lemma CheckCorrect<P>(ps: seq<P>, rows: seq<string>, m: (P, string) -> bool)
    ensures Check(ps, rows, m).Pass? <==> Embeds(ps, rows, m)
    ensures Check(ps, rows, m).Missing? ==>
              exists j: nat :: FailsAt(ps, rows, m, j) && ps[j] == Check(ps, rows, m).pattern &&
                          !MatchesSomewhere(ps[j], rows, m)
    ensures Check(ps, rows, m).OutOfOrder? ==>
              exists j: nat :: 0 < j && FailsAt(ps, rows, m, j) && ps[j] == Check(ps, rows, m).pattern &&
                          ps[j - 1] == Check(ps, rows, m).previous && MatchesSomewhere(ps[j], rows, m)
  {
    ScanSound(ps, rows, m, 0, 0);
    if Embeds(ps, rows, m) && !Check(ps, rows, m).Pass? {
      var j: nat :| j < |ps| && FailsAt(ps, rows, m, j);
      EmbedsNoFailure(ps, rows, m, j);
    }
  }

  /**
   * Two patterns whose only possible row is the same row: the second must
   * match a strictly later row, so the matcher reports `OutOfOrder`.
   */
  lemma SameRowIsOutOfOrder<P>(p: P, q: P, rows: seq<string>, m: (P, string) -> bool, j: nat)
    requires j < |rows| && m(p, rows[j]) && m(q, rows[j])
    requires forall i :: 0 <= i < j ==> !m(p, rows[i])
    requires forall i :: 0 <= i < |rows| && i != j ==> !m(q, rows[i])
    ensures Check([p, q], rows, m) == OutOfOrder(q, p)
  {
    var ps := [p, q];
    assert FirstMatch(p, rows, m, 0, |rows|) == Some(j);
    assert FirstMatch(q, rows, m, j + 1, |rows|).None?;
    assert FirstMatch(q, rows, m, 0, j + 1).Some?;
    assert ScanAt(ps, rows, m, 1, j + 1) == OutOfOrder(q, p);
  }

  /**
   * The matcher as the source writes it: an outer loop over the expected
   * patterns, an inner forward scan whose `for` update runs once more after
   * the hit (so the cursor lands one row past it), and a rescan of the rows
   * before the cursor when there is no forward hit.
   */
  method CheckRows<P>(expected: seq<P>, rows: seq<string>, m: (P, string) -> bool) returns (v: Verdict<P>)
    ensures v == Check(expected, rows, m)
    ensures v.Pass? <==> Embeds(expected, rows, m)
  {
    var lastIndex := 0;
    var previous: Option<P> := None;
    for k := 0 to |expected|
      invariant lastIndex <= |rows|
      invariant previous == if k == 0 then None else Some(expected[k - 1])
      invariant Check(expected, rows, m) == ScanAt(expected, rows, m, k, lastIndex)
    {
      var e := expected[k];
      var index := lastIndex;
      var matched := false;
      while index < |rows| && !matched
        invariant lastIndex <= index <= |rows|
        invariant matched ==> index > lastIndex && FirstMatch(e, rows, m, lastIndex, |rows|) == Some(index - 1)
        invariant !matched ==> FirstMatch(e, rows, m, lastIndex, |rows|) == FirstMatch(e, rows, m, index, |rows|)
      {
        matched := m(e, rows[index]);
        index := index + 1;
      }
      if !matched {
        if previous.Some? {
          var i := 0;
          while i < lastIndex && !matched
            invariant 0 <= i <= lastIndex
            invariant matched ==> FirstMatch(e, rows, m, 0, lastIndex).Some?
            invariant !matched ==> FirstMatch(e, rows, m, 0, lastIndex) == FirstMatch(e, rows, m, i, lastIndex)
          {
            matched := m(e, rows[i]);
            i := i + 1;
          }
        }
        if matched {
          v := OutOfOrder(e, previous.value);
        } else {
          v := Missing(e);
        }
        assert v.Pass? <==> Embeds(expected, rows, m) by {
          CheckCorrect(expected, rows, m);
        }
        return;
      }
      lastIndex := index;
      previous := Some(e);
    }
    v := Pass;
    assert v.Pass? <==> Embeds(expected, rows, m) by {
      CheckCorrect(expected, rows, m);
    }
  }
}
