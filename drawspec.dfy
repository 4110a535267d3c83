/** Value-level descriptions of what the drawing operations of `Graph`
    produce: which series a pass draws and with what outcome, which events
    the completion handler adds to the record, and the fixed sequences of
    calls made by `syncUI` and `_sizeChangeHandler`. */
module DrawSpec {

  import opened Wrappers
  import opened SeriesFactory
  import opened ChartObjects
  import Completion
  import SeqUtil

  /** The script left after `n` draw calls have each taken one outcome. */
  function Drop(script: seq<DrawOutcome>, n: nat): (r: seq<DrawOutcome>)
    ensures |r| <= |script| && r == script[|script| - |r|..]
  {
    if n <= |script| then script[n..] else []
  }

  /** What `_drawingCompleteHandler` does when the pending list is empty:
      flush the series surface unless it draws by itself, then fire the
      aggregate event. */
  function RenderedEffects(autoDraw: bool): seq<Effect>
  {
    (if autoDraw then [] else [GraphicRedrawn]) + [ChartRendered]
  }

  /** `chartRendered` comes last, after the flush, which happens exactly
      when the surface does not draw by itself. */
  lemma RenderedEffectsContents(autoDraw: bool)
    ensures var r := RenderedEffects(autoDraw);
      && |r| > 0 && r[|r| - 1] == ChartRendered
      && (GraphicRedrawn in r <==> !autoDraw)
      && (forall e :: e in r ==> e == GraphicRedrawn || e == ChartRendered)
  {
  }

  /** The series drawn, in the order of their `draw()` calls. */
  function DrawnIn(effects: seq<Effect>): seq<Series>
    decreases |effects|
  {
    if |effects| == 0 then []
    else
      var last := effects[|effects| - 1];
      DrawnIn(effects[..|effects| - 1]) + (if last.SeriesDrawn? then [last.drawnSeries] else [])
  }

  /** The draw projection distributes over concatenation. */
  lemma {:induction false} DrawnInAppend(a: seq<Effect>, b: seq<Effect>)
    ensures DrawnIn(a + b) == DrawnIn(a) + DrawnIn(b)
    decreases |b|
  {
    if |b| > 0 {
      var n := |b| - 1;
      DrawnInAppend(a, b[..n]);
      assert (a + b)[..|a + b| - 1] == a + b[..n];
    } else {
      assert a + b == a;
    }
  }

  /** A record without draw calls projects to nothing. */
  lemma {:induction false} NoDraws(effects: seq<Effect>)
    requires forall e :: e in effects ==> !e.SeriesDrawn?
    ensures DrawnIn(effects) == []
    decreases |effects|
  {
    if |effects| > 0 {
      NoDraws(effects[..|effects| - 1]);
    }
  }

  /** What the drawing code changes or looks at: the series that have x
      coordinates and those that have y coordinates, the pending list, the
      record, and the `_callLater` flag. */
  datatype DrawState = DrawState(xs: set<Series>, ys: set<Series>, pending: seq<Series>,
                                 effects: seq<Effect>, callLater: bool)

  /** A series with both coordinates does not stop a pass. */
  predicate Ready(st: DrawState, s: Series)
  {
    s in st.xs && s in st.ys
  }

  /** The events `_drawingCompleteHandler` fires once it has left `pending`
      behind, while the series surface does not draw by itself. */
  function Announced(pending: seq<Series>): seq<Effect>
  {
    if |pending| == 0 then RenderedEffects(false) else []
  }

  /** What the handler adds to the record, when the surface does not draw
      by itself, is `Announced` of the pending list it leaves. */
  lemma AnnouncedAfter(pending: seq<Series>, autoDraw: bool, before: seq<Effect>, after: seq<Effect>)
    requires |pending| > 0 ==> after == before
    requires |pending| == 0 ==> !autoDraw && after == before + RenderedEffects(autoDraw)
    ensures after == before + Announced(pending)
  {
  }

  /** `chartRendered` is announced exactly when nothing is pending, and an
      announcement holds no draw call. */
  lemma AnnouncedContents(pending: seq<Series>)
    ensures ChartRendered in Announced(pending) <==> |pending| == 0
    ensures forall e :: e in Announced(pending) ==> !e.SeriesDrawn?
  {
  }

  /** `_drawingCompleteHandler` for `s` while the series surface does not
      draw by itself: one handler step on the pending list, and its events. */
  function Notify(st: DrawState, s: Series): DrawState
  {
    var step := Completion.Complete(st.pending, s);
    st.(pending := step.pending, effects := st.effects + Announced(step.pending))
  }

  /** How many times `_drawingCompleteHandler` listens to `s`: every
      registration of `s` pushes it onto the collection once and subscribes
      the handler to its `drawingComplete` once. */
  function Subscriptions(sc: seq<Series>, s: Series): nat
  {
    multiset(sc)[s]
  }

  /** The pending list after `k` handler runs for `s`. */
  function RunsPending(pending: seq<Series>, s: Series, k: nat): seq<Series>
  {
    Completion.PendingAfter(pending, SeqUtil.Repeat(s, k))
  }

  /** What `k` handler runs for `s` add to the record, while the series
      surface does not draw by itself. */
  function RunsFired(pending: seq<Series>, s: Series, k: nat): seq<Effect>
    decreases k
  {
    if k == 0 then [] else RunsFired(pending, s, k - 1) + Announced(RunsPending(pending, s, k))
  }

  /** The `k` handler runs one `drawingComplete` from `s` sets off, one per
      subscription, in order. */
  function NotifyRuns(st: DrawState, s: Series, k: nat): DrawState
  {
    st.(pending := RunsPending(st.pending, s, k), effects := st.effects + RunsFired(st.pending, s, k))
  }

  /** No run leaves the state as it is, and each further run is one more
      `Notify`. */
  lemma NotifyRunsNext(st: DrawState, s: Series, k: nat)
    ensures NotifyRuns(st, s, 0) == st
    ensures NotifyRuns(st, s, k + 1) == Notify(NotifyRuns(st, s, k), s)
  {
    assert st.effects + [] == st.effects;
    var p := RunsPending(st.pending, s, k + 1);
    RunsPendingNext(st.pending, s, k);
    assert RunsFired(st.pending, s, k + 1) == RunsFired(st.pending, s, k) + Announced(p);
    SeqUtil.Assoc(st.effects, RunsFired(st.pending, s, k), Announced(p));
  }

  /** Each handler run is one `Complete` step. */
  lemma RunsPendingNext(pending: seq<Series>, s: Series, k: nat)
    ensures RunsPending(pending, s, k + 1) == Completion.Complete(RunsPending(pending, s, k), s).pending
  {
    assert SeqUtil.Repeat(s, k + 1)[..k] == SeqUtil.Repeat(s, k);
  }

  /** `k` handler runs for `s` take up to `k` occurrences of `s` off the
      pending list, and nothing else. */
  lemma RunsPendingMultiset(pending: seq<Series>, s: Series, k: nat)
    ensures multiset(RunsPending(pending, s, k)) == multiset(pending) - multiset(SeqUtil.Repeat(s, k))
  {
    Completion.PendingAfterMultiset(pending, SeqUtil.Repeat(s, k));
  }

  /** The handler runs add no draw call to the record, and `chartRendered`
      exactly when some run happened and nothing is left pending. */
  lemma {:induction false} RunsFiredContents(pending: seq<Series>, s: Series, k: nat)
    ensures forall e :: e in RunsFired(pending, s, k) ==> !e.SeriesDrawn?
    ensures ChartRendered in RunsFired(pending, s, k) <==> k > 0 && |RunsPending(pending, s, k)| == 0
    decreases k
  {
    if k > 0 {
      RunsFiredContents(pending, s, k - 1);
      RunsPendingNext(pending, s, k - 1);
      AnnouncedContents(RunsPending(pending, s, k));
    }
  }

  /** A series registered twice, with both entries pending, that completes
      once empties the pending list and fires `chartRendered`. */
  lemma TwiceRegistered(st: DrawState, s: Series, o: DrawOutcome)
    requires st.pending == [s, s] && o.completes
    ensures Draw(st, s, o, Subscriptions([s, s], s)).pending == []
    ensures ChartRendered in Draw(st, s, o, Subscriptions([s, s], s)).effects
  {
    SubscribedTwice(s);
    TwoRuns(st.pending, s);
    RunsFiredContents(st.pending, s, 2);
  }

  lemma SubscribedTwice(s: Series)
    ensures Subscriptions([s, s], s) == 2
  {
    assert [s, s] == [s] + [s];
  }

  lemma TwoRuns(pending: seq<Series>, s: Series)
    requires pending == [s, s]
    ensures RunsPending(pending, s, 2) == []
  {
    RunsPendingNext(pending, s, 0);
    RunsPendingNext(pending, s, 1);
    assert RunsPending(pending, s, 0) == pending;
  }

  /** One `s.draw()` with outcome `o` during a pass: the call is recorded; it
      may give `s` its coordinates; a redraw it asks for only sets
      `_callLater`, the graph being busy; a completion it reports runs the
      handler once for each of its `k` subscriptions. */
  function Draw(st: DrawState, s: Series, o: DrawOutcome, k: nat): DrawState
  {
    var drawn := Drawn(st, s, o).(callLater := st.callLater || o.requestsRedraw);
    if o.completes then NotifyRuns(drawn, s, k) else drawn
  }

  /** A draw call adds `s` to the series with the coordinates it produced
      and registers a redraw request in `_callLater`. */
  lemma DrawCoords(st: DrawState, s: Series, o: DrawOutcome, k: nat)
    ensures var r := Draw(st, s, o, k);
      && r.xs == (if o.setsXCoords then st.xs + {s} else st.xs)
      && r.ys == (if o.setsYCoords then st.ys + {s} else st.ys)
      && (r.callLater <==> st.callLater || o.requestsRedraw)
  {
  }

  /** Besides, when a draw call completes, it runs the handler once per
      subscription: up to `k` occurrences of `s` leave the pending list, and
      the record gets the call followed by what those runs fired. Otherwise
      the pending list stays. */
  lemma DrawEffect(st: DrawState, s: Series, o: DrawOutcome, k: nat)
    ensures var r := Draw(st, s, o, k);
      && r.xs == (if o.setsXCoords then st.xs + {s} else st.xs)
      && r.ys == (if o.setsYCoords then st.ys + {s} else st.ys)
      && (r.callLater <==> st.callLater || o.requestsRedraw)
      && multiset(r.pending) == multiset(st.pending) - (if o.completes then multiset(SeqUtil.Repeat(s, k)) else multiset{})
      && r.effects == st.effects + [SeriesDrawn(s)] + (if o.completes then RunsFired(st.pending, s, k) else [])
  {
    DrawCoords(st, s, o, k);
    RunsPendingMultiset(st.pending, s, k);
  }

  /** The start of a draw call: the call is recorded and the coordinates
      it produces are set. */
  function Drawn(st: DrawState, s: Series, o: DrawOutcome): DrawState
  {
    st.(xs := if o.setsXCoords then st.xs + {s} else st.xs,
        ys := if o.setsYCoords then st.ys + {s} else st.ys,
        effects := st.effects + [SeriesDrawn(s)])
  }

  /** A draw call adds exactly itself to the draw projection. */
  lemma DrawnOnce(st: DrawState, s: Series, o: DrawOutcome, k: nat)
    ensures DrawnIn(Draw(st, s, o, k).effects) == DrawnIn(st.effects) + [s]
  {
    var r := Draw(st, s, o, k);
    var drawn := st.effects + [SeriesDrawn(s)];
    var tail := if o.completes then RunsFired(st.pending, s, k) else [];
    assert r.effects == drawn + tail;
    RunsFiredContents(st.pending, s, k);
    NoDraws(tail);
    DrawnInAppend(drawn, tail);
    assert drawn[..|drawn| - 1] == st.effects;
  }

  /** The remainder of the loop of `_drawSeries` from index `j`, with state
      `st`: the result and the number of series drawn by the whole pass. The
      `j`-th draw call takes the `j`-th outcome of the script. */
  function PassFrom(sc: seq<Series>, script: seq<DrawOutcome>, st: DrawState, j: nat): (r: (DrawState, nat))
    requires j <= |sc|
    ensures j <= r.1 <= |sc| && (j < |sc| ==> j < r.1)
    decreases |sc| - j
  {
    if j == |sc| then (st, j)
    else
      var next := Draw(st, sc[j], OutcomeAt(script, j), Subscriptions(sc, sc[j]));
      if !Ready(next, sc[j]) then (next.(callLater := true), j + 1)
      else PassFrom(sc, script, next, j + 1)
  }

  /** Whether one of the draw calls `j` to `n - 1` asked for a redraw. */
  function RequestedIn(script: seq<DrawOutcome>, j: nat, n: nat): bool
    decreases n - j
  {
    j < n && (OutcomeAt(script, j).requestsRedraw || RequestedIn(script, j + 1, n))
  }

  /** `RequestedIn` holds exactly when some call in the range asked. */
  lemma {:induction false} RequestedInSome(script: seq<DrawOutcome>, j: nat, n: nat)
    ensures RequestedIn(script, j, n) <==> exists k :: j <= k < n && OutcomeAt(script, k).requestsRedraw
    decreases n - j
  {
    if j < n {
      RequestedInSome(script, j + 1, n);
      if !OutcomeAt(script, j).requestsRedraw && exists k :: j <= k < n && OutcomeAt(script, k).requestsRedraw {
        var k :| j <= k < n && OutcomeAt(script, k).requestsRedraw;
        assert j + 1 <= k;
      }
    }
  }

  /** A pass from index `j` draws the series from `j` in ascending order,
      one call each, up to where it stops, and adds no other draw call. */
  lemma {:induction false} PassDraws(sc: seq<Series>, script: seq<DrawOutcome>, st: DrawState, j: nat)
    requires j <= |sc|
    ensures var r, n := PassFrom(sc, script, st, j).0, PassFrom(sc, script, st, j).1;
      DrawnIn(r.effects) == DrawnIn(st.effects) + sc[j..n]
    decreases |sc| - j
  {
    var r, n := PassFrom(sc, script, st, j).0, PassFrom(sc, script, st, j).1;
    if j < |sc| {
      var next := Draw(st, sc[j], OutcomeAt(script, j), Subscriptions(sc, sc[j]));
      DrawnOnce(st, sc[j], OutcomeAt(script, j), Subscriptions(sc, sc[j]));
      if Ready(next, sc[j]) {
        assert PassFrom(sc, script, st, j) == PassFrom(sc, script, next, j + 1);
        PassDraws(sc, script, next, j + 1);
        ExtendBack(DrawnIn(st.effects), DrawnIn(next.effects), DrawnIn(r.effects), sc, j, n);
      } else {
        assert n == j + 1 && r.effects == next.effects;
        assert sc[j..j + 1] == [sc[j]];
      }
    } else {
      assert n == j && r == st;
      assert sc[j..j] == [];
    }
  }

  /** Drawing `sc[j]` and then `sc[j + 1..n]` draws `sc[j..n]`. */
  lemma ExtendBack(before: seq<Series>, mid: seq<Series>, after: seq<Series>, sc: seq<Series>, j: nat, n: nat)
    requires j < n <= |sc|
    requires mid == before + [sc[j]] && after == mid + sc[j + 1..n]
    ensures after == before + sc[j..n]
  {
    assert sc[j..n] == [sc[j]] + sc[j + 1..n];
  }

  /** A pass never takes coordinates away, every series it drew before the
      one it stopped at has both, and when it stops before the end, the last
      series it drew has not. */
  lemma {:induction false} PassReady(sc: seq<Series>, script: seq<DrawOutcome>, st: DrawState, j: nat)
    requires j <= |sc|
    ensures var r, n := PassFrom(sc, script, st, j).0, PassFrom(sc, script, st, j).1;
      && st.xs <= r.xs && st.ys <= r.ys
      && (forall k :: j <= k < n - 1 ==> Ready(r, sc[k]))
      && (n < |sc| ==> !Ready(r, sc[n - 1]))
    decreases |sc| - j
  {
    var r, n := PassFrom(sc, script, st, j).0, PassFrom(sc, script, st, j).1;
    if j < |sc| {
      var next := Draw(st, sc[j], OutcomeAt(script, j), Subscriptions(sc, sc[j]));
      DrawCoords(st, sc[j], OutcomeAt(script, j), Subscriptions(sc, sc[j]));
      if Ready(next, sc[j]) {
        PassReady(sc, script, next, j + 1);
        assert PassFrom(sc, script, st, j) == PassFrom(sc, script, next, j + 1);
        forall k | j <= k < n - 1
          ensures Ready(r, sc[k])
        {
          if k == j {
            assert sc[j] in next.xs && sc[j] in next.ys;
          }
        }
      } else {
        assert n == j + 1 && r == next.(callLater := true);
      }
    } else {
      assert n == j && r == st;
    }
  }

  /** A pass leaves `_callLater` set exactly when it was set, or one of the
      series it drew asked for a redraw, or it stopped at a series left
      without both coordinates. */
  lemma {:induction false} PassRerun(sc: seq<Series>, script: seq<DrawOutcome>, st: DrawState, j: nat)
    requires j <= |sc|
    ensures var r, n := PassFrom(sc, script, st, j).0, PassFrom(sc, script, st, j).1;
      (r.callLater <==> st.callLater || RequestedIn(script, j, n) || (j < n && !Ready(r, sc[n - 1])))
    decreases |sc| - j
  {
    var r, n := PassFrom(sc, script, st, j).0, PassFrom(sc, script, st, j).1;
    if j == |sc| {
      assert n == j && r == st;
      assert !RequestedIn(script, j, j);
    } else {
      var next := Draw(st, sc[j], OutcomeAt(script, j), Subscriptions(sc, sc[j]));
      DrawCoords(st, sc[j], OutcomeAt(script, j), Subscriptions(sc, sc[j]));
      if !Ready(next, sc[j]) {
        assert n == j + 1 && r == next.(callLater := true);
        assert !Ready(r, sc[n - 1]);
      } else {
        assert PassFrom(sc, script, st, j) == PassFrom(sc, script, next, j + 1);
        PassRerun(sc, script, next, j + 1);
        if n == j + 1 {
          assert r == next;
        }
      }
    }
  }

  /** The completion handler running inside a pass only ever takes series
      off the pending list. */
  lemma {:induction false} PassPending(sc: seq<Series>, script: seq<DrawOutcome>, st: DrawState, j: nat)
    requires j <= |sc|
    ensures multiset(PassFrom(sc, script, st, j).0.pending) <= multiset(st.pending)
    decreases |sc| - j
  {
    if j < |sc| {
      var next := Draw(st, sc[j], OutcomeAt(script, j), Subscriptions(sc, sc[j]));
      DrawEffect(st, sc[j], OutcomeAt(script, j), Subscriptions(sc, sc[j]));
      if Ready(next, sc[j]) {
        PassPending(sc, script, next, j + 1);
      }
    }
  }

  /** `_drawSeries` when the graph is not drawing: passes over `sc`, each
      started with `_callLater` cleared, repeated while the pass left it set
      and there is fuel left; each pass takes its outcomes from where the
      previous one stopped in the script. */
  function Run(sc: seq<Series>, script: seq<DrawOutcome>, st: DrawState, fuel: nat): DrawState
    decreases fuel
  {
    var pass := PassFrom(sc, script, st.(callLater := false), 0);
    if pass.0.callLater && fuel > 0 then Run(sc, Drop(script, pass.1), pass.0, fuel - 1)
    else pass.0
  }

  /** How many series each pass of `Run` drew. */
  function RunPasses(sc: seq<Series>, script: seq<DrawOutcome>, st: DrawState, fuel: nat): (r: seq<nat>)
    ensures 1 <= |r| <= fuel + 1
    ensures forall i :: 0 <= i < |r| ==> r[i] <= |sc|
    decreases fuel
  {
    var pass := PassFrom(sc, script, st.(callLater := false), 0);
    [pass.1] + (if pass.0.callLater && fuel > 0 then RunPasses(sc, Drop(script, pass.1), pass.0, fuel - 1) else [])
  }

  /** The draw calls of successive passes, each starting at the first series
      and drawing the first `p` of them. */
  function Prefixes(sc: seq<Series>, passes: seq<nat>): seq<Series>
    requires forall i :: 0 <= i < |passes| ==> passes[i] <= |sc|
  {
    if |passes| == 0 then []
    else sc[..passes[0]] + Prefixes(sc, passes[1..])
  }

  /** `_drawSeries` draws, pass after pass, a prefix of the collection in
      index order, and nothing else. */
  lemma {:induction false} RunDraws(sc: seq<Series>, script: seq<DrawOutcome>, st: DrawState, fuel: nat)
    ensures DrawnIn(Run(sc, script, st, fuel).effects)
         == DrawnIn(st.effects) + Prefixes(sc, RunPasses(sc, script, st, fuel))
    decreases fuel
  {
    var start := st.(callLater := false);
    var pass := PassFrom(sc, script, start, 0);
    var first := DrawnIn(pass.0.effects);
    assert first == DrawnIn(st.effects) + sc[..pass.1] by {
      PassDraws(sc, script, start, 0);
      assert sc[0..pass.1] == sc[..pass.1];
    }
    var passes := RunPasses(sc, script, st, fuel);
    if pass.0.callLater && fuel > 0 {
      var rest := RunPasses(sc, Drop(script, pass.1), pass.0, fuel - 1);
      assert Run(sc, script, st, fuel) == Run(sc, Drop(script, pass.1), pass.0, fuel - 1);
      assert passes == [pass.1] + rest;
      assert Prefixes(sc, passes) == sc[..pass.1] + Prefixes(sc, rest) by {
        assert passes[1..] == rest;
      }
      RunDraws(sc, Drop(script, pass.1), pass.0, fuel - 1);
      SeqUtil.Assoc(DrawnIn(st.effects), sc[..pass.1], Prefixes(sc, rest));
    } else {
      assert Run(sc, script, st, fuel) == pass.0;
      assert passes == [pass.1];
      assert Prefixes(sc, passes) == sc[..pass.1] by {
        assert Prefixes(sc, passes[1..]) == [];
      }
    }
  }

  /** When `_drawSeries` returns with no rerun outstanding, every series of
      the collection has both coordinates; one is outstanding only when the
      fuel ran out. */
  lemma {:induction false} RunSettles(sc: seq<Series>, script: seq<DrawOutcome>, st: DrawState, fuel: nat)
    ensures var r := Run(sc, script, st, fuel);
      && (!r.callLater ==> forall x :: x in sc ==> Ready(r, x))
      && (r.callLater ==> |RunPasses(sc, script, st, fuel)| == fuel + 1)
    decreases fuel
  {
    var start := st.(callLater := false);
    var pass := PassFrom(sc, script, start, 0);
    var r, n := pass.0, pass.1;
    if r.callLater && fuel > 0 {
      var rest := RunPasses(sc, Drop(script, n), r, fuel - 1);
      assert Run(sc, script, st, fuel) == Run(sc, Drop(script, n), r, fuel - 1);
      assert RunPasses(sc, script, st, fuel) == [n] + rest;
      RunSettles(sc, Drop(script, n), r, fuel - 1);
    } else if r.callLater {
      assert Run(sc, script, st, fuel) == r;
      assert RunPasses(sc, script, st, fuel) == [n];
    } else {
      assert Run(sc, script, st, fuel) == r;
      PassSettles(sc, script, start);
    }
  }

  /** A pass that leaves `_callLater` clear, started with it clear, leaves
      every series of the collection with both coordinates. */
  lemma PassSettles(sc: seq<Series>, script: seq<DrawOutcome>, st: DrawState)
    requires !st.callLater && !PassFrom(sc, script, st, 0).0.callLater
    ensures forall x :: x in sc ==> Ready(PassFrom(sc, script, st, 0).0, x)
  {
    var r, n := PassFrom(sc, script, st, 0).0, PassFrom(sc, script, st, 0).1;
    PassReady(sc, script, st, 0);
    PassRerun(sc, script, st, 0);
    if |sc| > 0 {
      assert Ready(r, sc[n - 1]);
      assert n == |sc|;
    }
    forall x | x in sc
      ensures Ready(r, x)
    {
      var k :| 0 <= k < |sc| && sc[k] == x;
      assert k < n - 1 || k == n - 1;
    }
  }

  /** Whether each draw call from index `j` to `n - 1` gives its series both
      coordinates and asks for no redraw. */
  predicate CleanFrom(script: seq<DrawOutcome>, j: nat, n: nat)
  {
    forall k :: j <= k < n ==>
      OutcomeAt(script, k).setsXCoords && OutcomeAt(script, k).setsYCoords && !OutcomeAt(script, k).requestsRedraw
  }

  /** When every draw call from `j` on gives its series both coordinates and
      asks for no redraw, the pass goes to the end of the collection,
      leaves `_callLater` as it found it, and leaves every series it drew
      with both coordinates. */
  lemma {:induction false} AllReady(sc: seq<Series>, script: seq<DrawOutcome>, st: DrawState, j: nat)
    requires j <= |sc| && CleanFrom(script, j, |sc|)
    ensures var r, n := PassFrom(sc, script, st, j).0, PassFrom(sc, script, st, j).1;
      && n == |sc| && r.callLater == st.callLater
      && forall k :: j <= k < |sc| ==> Ready(r, sc[k])
    decreases |sc| - j
  {
    if j < |sc| {
      var next := Draw(st, sc[j], OutcomeAt(script, j), Subscriptions(sc, sc[j]));
      DrawCoords(st, sc[j], OutcomeAt(script, j), Subscriptions(sc, sc[j]));
      assert Ready(next, sc[j]);
      assert PassFrom(sc, script, st, j) == PassFrom(sc, script, next, j + 1);
      AllReady(sc, script, next, j + 1);
      PassReady(sc, script, next, j + 1);
    }
  }

  /** When every draw call of the first pass gives its series both
      coordinates and asks for no redraw, `_drawSeries` draws the whole
      collection in a single pass and asks for no rerun. */
  lemma OnePass(sc: seq<Series>, script: seq<DrawOutcome>, st: DrawState, fuel: nat)
    requires CleanFrom(script, 0, |sc|)
    ensures !Run(sc, script, st, fuel).callLater
    ensures RunPasses(sc, script, st, fuel) == [|sc|]
    ensures forall x :: x in sc ==> Ready(Run(sc, script, st, fuel), x)
  {
    AllReady(sc, script, st.(callLater := false), 0);
  }

  /** The completion handler running inside `_drawSeries` only ever takes
      series off the pending list. */
  lemma {:induction false} RunPending(sc: seq<Series>, script: seq<DrawOutcome>, st: DrawState, fuel: nat)
    ensures multiset(Run(sc, script, st, fuel).pending) <= multiset(st.pending)
    decreases fuel
  {
    var start := st.(callLater := false);
    var pass := PassFrom(sc, script, start, 0);
    PassPending(sc, script, start, 0);
    if pass.0.callLater && fuel > 0 {
      RunPending(sc, Drop(script, pass.1), pass.0, fuel - 1);
    }
  }

  /** Whether `syncUI` renders `s`: it renders `CartesianSeries` instances.
      Whether `PieSeries` is one is settled where the series classes are
      defined, outside this model, hence the parameter. */
  predicate IsCartesian(s: Series, pieIsCartesian: bool)
  {
    s.cls != PieSeries || pieIsCartesian
  }

  /** The `render()` calls of `syncUI`'s loop: the Cartesian series of the
      collection, in collection order. */
  function Renders(sc: seq<Series>, pieIsCartesian: bool): seq<Effect>
    decreases |sc|
  {
    if |sc| == 0 then []
    else
      var last := sc[|sc| - 1];
      Renders(sc[..|sc| - 1], pieIsCartesian) + (if IsCartesian(last, pieIsCartesian) then [SeriesRendered(last)] else [])
  }

  /** `Renders` holds one `render()` call per Cartesian series of the
      collection and nothing else. */
  lemma {:induction false} RendersCartesian(sc: seq<Series>, pieIsCartesian: bool)
    ensures |Renders(sc, pieIsCartesian)| <= |sc|
    ensures forall e :: e in Renders(sc, pieIsCartesian) ==>
              e.SeriesRendered? && e.rendered in sc && IsCartesian(e.rendered, pieIsCartesian)
    ensures forall x :: x in sc && IsCartesian(x, pieIsCartesian) ==> SeriesRendered(x) in Renders(sc, pieIsCartesian)
    decreases |sc|
  {
    if |sc| > 0 {
      var init := sc[..|sc| - 1];
      RendersCartesian(init, pieIsCartesian);
      assert sc == init + [sc[|sc| - 1]];
    }
  }

  /** The gridlines `draw()` calls: horizontal first, then vertical, each
      only when the attribute holds a `Gridlines` instance. */
  function GridDraws(horizontal: Gridlines?, vertical: Gridlines?): seq<Effect>
  {
    (if horizontal != null then [GridlinesDrawn(horizontal)] else [])
      + (if vertical != null then [GridlinesDrawn(vertical)] else [])
  }

  /** What `_sizeChangeHandler` does before drawing the series: resize the
      background (when shown and both sizes are truthy), clear the gridlines
      shape (when it exists), draw the gridlines. */
  function SizePrelude(showBackground: bool, width: int, height: int, gridlinesShape: bool,
                       horizontal: Gridlines?, vertical: Gridlines?): seq<Effect>
  {
    (if showBackground && width != 0 && height != 0 then [BackgroundResized(width, height)] else [])
      + (if gridlinesShape then [GridlinesCleared] else [])
      + GridDraws(horizontal, vertical)
  }

  /** The resize happens exactly when the background is shown and both
      sizes are truthy, the clearing exactly when the gridlines shape
      exists, and the gridlines draws come last, each gridlines object drawn
      iff it is set. */
  lemma SizePreludeContents(showBackground: bool, width: int, height: int, gridlinesShape: bool,
                            horizontal: Gridlines?, vertical: Gridlines?)
    ensures var r := SizePrelude(showBackground, width, height, gridlinesShape, horizontal, vertical);
      && (BackgroundResized(width, height) in r <==> showBackground && width != 0 && height != 0)
      && (GridlinesCleared in r <==> gridlinesShape)
      && (forall g: Gridlines :: GridlinesDrawn(g) in r <==> g == horizontal || g == vertical)
      && |r| <= 4
  {
  }
}
