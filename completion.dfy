/** The completion bookkeeping of `Graph._drawingCompleteHandler`, on values:
    a pending list from which one `drawingComplete` event removes one entry,
    and the aggregate `chartRendered` signal that fires once the list is
    empty. */
module Completion {

  import opened SeqUtil

  /** What one event leaves behind: the new pending list, and whether the
      handler fires `chartRendered`. */
  datatype Step<T> = Step(pending: seq<T>, rendered: bool)

  /** One `drawingComplete` event from `s`: one occurrence of `s` leaves the
      list (none when it is absent), and the aggregate signal fires exactly
      when nothing is left. */
  function Complete<T(==)>(pending: seq<T>, s: T): (r: Step<T>)
    ensures multiset(r.pending) == multiset(pending) - multiset{s}
    ensures s !in pending ==> r.pending == pending
    ensures r.rendered <==> |r.pending| == 0
  {
    var rest := RemoveFirst(pending, s);
    Step(rest, |rest| == 0)
  }

  /** The pending list after a series of events, taken in order. */
  function PendingAfter<T(==)>(pending: seq<T>, events: seq<T>): seq<T>
    decreases |events|
  {
    if |events| == 0 then pending
    else Complete(PendingAfter(pending, events[..|events| - 1]), events[|events| - 1]).pending
  }

  /** Whether the `k`-th event (from 0) fires `chartRendered`. */
  function RenderedAt<T(==)>(pending: seq<T>, events: seq<T>, k: nat): bool
    requires k < |events|
  {
    Complete(PendingAfter(pending, events[..k]), events[k]).rendered
  }

  /** Events take away from the pending multiset exactly what they name;
      an event for a series not (or no longer) pending takes nothing. */
  lemma {:induction false} PendingAfterMultiset<T>(pending: seq<T>, events: seq<T>)
    ensures multiset(PendingAfter(pending, events)) == multiset(pending) - multiset(events)
    decreases |events|
  {
    if |events| > 0 {
      var n := |events| - 1;
      var init := events[..n];
      PendingAfterMultiset(pending, init);
      assert events == init + [events[n]];
      assert multiset(events) == multiset(init) + multiset{events[n]};
    }
  }

  /** Safety and liveness of the aggregate signal: the `k`-th event fires
      `chartRendered` exactly when every registration still pending at the
      start has been matched by one of the first `k + 1` events. So no
      `chartRendered` fires while any registered series is still pending. */
  lemma RenderedIffAllCompleted<T>(pending: seq<T>, events: seq<T>, k: nat)
    requires k < |events|
    ensures RenderedAt(pending, events, k) <==> multiset(pending) <= multiset(events[..k + 1])
  {
    assert events[..k + 1][..k] == events[..k];
    assert PendingAfter(pending, events[..k + 1])
        == Complete(PendingAfter(pending, events[..k]), events[k]).pending;
    PendingAfterMultiset(pending, events[..k + 1]);
    var left := multiset(pending) - multiset(events[..k + 1]);
    if multiset(pending) <= multiset(events[..k + 1]) {
      assert left == multiset{};
    } else {
      var x :| x in multiset(pending) && multiset(pending)[x] > multiset(events[..k + 1])[x];
      assert x in left;
    }
  }

  /** When each pending series completes exactly once, in any order,
      `chartRendered` fires on the last event and on no earlier one. */
  lemma RenderedExactlyOnce<T>(pending: seq<T>, events: seq<T>, k: nat)
    requires multiset(events) == multiset(pending)
    requires k < |events|
    ensures RenderedAt(pending, events, k) <==> k == |events| - 1
  {
    RenderedIffAllCompleted(pending, events, k);
    if k < |events| - 1 {
      assert events == events[..k + 1] + events[k + 1..];
      assert multiset(events) == multiset(events[..k + 1]) + multiset(events[k + 1..]);
      assert events[k + 1] in multiset(events[k + 1..]);
      assert multiset(events[..k + 1])[events[k + 1]] < multiset(pending)[events[k + 1]];
    } else {
      assert events[..k + 1] == events;
    }
  }

  /** Nothing refills the pending list but a registration, so once an event
      has fired `chartRendered`, every later event fires it again. */
  lemma RenderedAgain<T>(pending: seq<T>, events: seq<T>, j: nat, k: nat)
    requires j <= k < |events| && RenderedAt(pending, events, j)
    ensures RenderedAt(pending, events, k)
  {
    RenderedIffAllCompleted(pending, events, j);
    PrefixGrows(events, j + 1, k + 1);
    RenderedIffAllCompleted(pending, events, k);
  }

  lemma PrefixGrows<T>(events: seq<T>, m: nat, n: nat)
    requires m <= n <= |events|
    ensures multiset(events[..m]) <= multiset(events[..n])
  {
    assert events[..n] == events[..m] + events[m..n];
  }
}
