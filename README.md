# Graph (YUI 3 charts) in Dafny

This project models `Y.Graph`, the object inside a YUI 3 Cartesian chart
that owns the chart's series. It is written in Dafny and proves properties
of that model. The graph:

- registers series in a collection, in per-type buckets, in a key
  dictionary and in a list of series whose `drawingComplete` is awaited;
- stamps each series' `graphOrder` and `order`;
- builds series from descriptors through a type-name factory;
- drives the drawing pass `_drawSeries`, with its re-entrancy flags
  `_drawing` and `_callLater`;
- fires `chartRendered` once nothing is pending;
- orders the calls of `syncUI`, `_sizeChangeHandler` and `_updateStyles`;
- replaces gridlines through its two gridlines setters;
- creates its three drawing surfaces lazily.

Modules, one file each:

- `Wrappers` (`wrappers.dfy`): `Option`.
- `SeriesFactory` (`factory.dfy`): `_getSeries` as a total function onto a
  datatype of series classes.
- `ChartObjects` (`objects.dfy`): the foreign objects the graph handles,
  as classes with only the attributes `Graph.js` touches: `Series`,
  `Gridlines`, `Surface` (a `Y.Graphic`) and `Shape`. Also the datatypes of
  setter inputs and of the effects recorded in the graph's trace (events
  fired and calls made on other objects).
- `SeqUtil` (`sequtil.dfy`): `Y.Array.indexOf`, and one-occurrence removal
  (`splice(index, 1)`).
- `Completion` (`completion.dfy`): the pending-list state machine of
  `_drawingCompleteHandler`, on values.
- `Registry` (`registry.dfy`): value-level definitions of the type buckets,
  the ordering stamps and the key dictionary, with their lemmas.
- `DrawSpec` (`drawspec.dfy`): a value-level account of a drawing pass and
  of the call sequences of the redraw handlers. `DrawState` holds the
  series with coordinates, the pending list, the trace and `_callLater`.
  `PassFrom` is one pass of the loop and `Run` is `_drawSeries` with its
  reruns.
- `Charts` (`graph.dfy`): the `Graph` class itself. Its fields are the
  source's private fields and attributes. Its methods are the source's
  methods, proved against the functions above. `State()` reads the drawing
  state off the heap, so each drawing method states its effect as
  `State() == F(old(State()), …)`.

How a series' `draw()` is modelled. One call of `draw()` is an outcome
taken from a `script` parameter, `DrawOutcome`. The outcome says four
things:

- whether the call gave the series its x coordinates;
- whether it gave the series its y coordinates;
- whether it called back into `_drawSeries`;
- whether it fired `drawingComplete`, which runs the graph's handler
  once per subscription.

The `k`-th draw call of a run takes the `k`-th outcome. Reruns are bounded
by a `fuel` parameter.

Each registration pushes the series onto the collection once (Graph.js:195,
234) and subscribes the handler to its `drawingComplete` once (Graph.js:205,
232); nothing else pushes or subscribes. So the number of subscriptions of
a series is the number of its occurrences in the collection
(`DrawSpec.Subscriptions`), and one `drawingComplete` runs the handler that
many times (`DrawSpec.NotifyRuns`). A series registered twice that
completes once takes both of its entries off the pending list, and fires
`chartRendered` when nothing else is pending. In `Completion`, an event is
one run of the handler.

The pending list is filled only when a series is registered (Graph.js:204,
231). So once the first cycle has emptied it, every later `drawingComplete`
fires `chartRendered` again: once per series per redraw, the first of them
before the other series have finished. `Completion.RenderedAgain` states
this.

The graph's class invariant `Valid()` combines three parts:

- `Registered()`: the collection, its buckets, the stamps and the pending
  list agree.
- `Indexed()`: the dictionary is the last-write-wins index of the
  collection.
- `Layered()`: the surfaces have depths −2, −1 and none.

The parse methods require and ensure `Valid()`. `DrawSeries`,
`SizeChangeHandler`, `UpdateStyles`, `DrawingCompleteHandler` and `SyncUI`
ensure `old(Valid()) ==> Valid()`:
they keep the invariant when it held, and do not require it, because
`DrawSeries` is also re-entered from inside a pass.

Three facts about Graph.js that the model keeps:

- `_createSeries` fires no `seriesAdded` (Graph.js:212-235). Only
  `_addSeries`, for entries that are already series instances, fires one
  (Graph.js:206).
- The factory's names are exactly those of the switch in `_getSeries`
  (Graph.js:243-311): `"markerseries"`, `"stackedmarkerseries"`,
  `"stackedarea"` and so on, without hyphens.
- A rerun of `_drawSeries` starts again at index 0 (Graph.js:405-419) and
  draws again the series already drawn in the earlier pass.
  `DrawSpec.RunDraws` states this.

## Model

| member | source | states |
|---|---|---|
| SeriesFactory.ClassFor | src/charts/js/Graph.js:240-313 | `_getSeries` is total. A result other than `CartesianSeries` is the class whose name is the input. Any string outside the 21 names gives `CartesianSeries`. |
| SeriesFactory.TypeName | src/charts/js/Graph.js:240-313 | The name each class is selected by. Exactly the fallback class has none, and every name is one of the 21. |
| SeriesFactory.RecognisedNames | src/charts/js/Graph.js:243-311 | Each of the 21 names selects a class other than the fallback. |
| SeriesFactory.ClassForRoundTrip | src/charts/js/Graph.js:240-313 | Every class except the fallback is selected by its own name. |
| SeriesFactory.ClassForInjective | src/charts/js/Graph.js:240-313 | Distinct recognised names select distinct classes. |
| Charts.Graph.constructor | src/charts/js/Graph.js:124-133 | A new graph has nothing registered, no surfaces, no gridlines and clear flags, and it satisfies the invariant. |
| Charts.Graph.AddDispatcher | src/charts/js/Graph.js:115-122 | Appends the series to the pending list. |
| Charts.Graph.AddSeries | src/charts/js/Graph.js:184-207 | Sets `graph` only when it is unset. Appends the series to the collection and to its type's bucket. Stamps `graphOrder` and `order` with the lengths before the push. Appends the series to the pending list and fires one `seriesAdded`. Keeps the registry invariant. |
| Charts.Graph.CreateSeries | src/charts/js/Graph.js:212-235 | Builds a fresh series of the factory's class from the descriptor, owned by this graph and stamped with the lengths before the push. Appends it to the pending list, its bucket and the collection; fires no event. Keeps the registry invariant. |
| Registry.BuiltFrom | src/charts/js/Graph.js:229-230 | Definition, no contract: a series built from a descriptor has the factory's class for its type, and its type, direction and keys. `Charts.Graph.CreateSeries` ensures it. |
| Charts.Graph.AppendKeepsRegistered | src/charts/js/Graph.js:184-234 | Such an append, with those stamps, preserves the registry invariant. |
| Charts.Graph.AppendEntry | src/charts/js/Graph.js:161-170 | An instance entry goes through `_addSeries` and any other entry through `_createSeries`. One series is appended, placed as the entry asks. A series built from a descriptor is fresh and has this graph (Graph.js:220, 226). |
| Charts.Graph.AppendEntries | src/charts/js/Graph.js:161-170 | The first loop appends one series per entry, in input order. Each new series is also pending. `seriesAdded` fires once per instance entry, in input order. Every series built from a descriptor has this graph. An instance gets this graph only when it had none, and otherwise keeps its own. |
| Charts.Graph.AppendStep | src/charts/js/Graph.js:161-170 | One round of that loop extends the collection, the pending list and the trace by that entry's series and event. |
| Charts.Graph.InstancesAdopted | src/charts/js/Graph.js:191-193 | After the loop, exactly the instance entries that had no graph point at this graph. The others keep their graph. |
| Charts.Graph.IndexCollection | src/charts/js/Graph.js:171-177 | The second loop makes the dictionary the last-write-wins index of the whole collection, under `yKey` for horizontal series and `xKey` otherwise. No key is lost. |
| Charts.Graph.ParseSeriesCollection | src/charts/js/Graph.js:139-178 | A falsy value changes nothing. Otherwise every entry is appended in order, each series built from a descriptor owned by this graph, and the dictionary is rebuilt. Old keys stay, and the invariant holds. |
| Charts.Graph.ParseValue | src/charts/js/Graph.js:145-177 | A present value marks the registry as created, appends without renumbering existing series, indexes, and keeps the class invariant. |
| Charts.Graph.ParseEntries | src/charts/js/Graph.js:145-177 | Marks the registry as created, then runs the two loops, which together keep registration and indexing. |
| Charts.Graph.GetSeriesByIndex | src/charts/js/Graph.js:78-87 | The result is present exactly for an index inside the collection, and is the series there. |
| Charts.Graph.SeriesAtGraphOrder | src/charts/js/Graph.js:195-202 | Looking up a series' `graphOrder` stamp finds that series. |
| Charts.Graph.GetSeriesByKey | src/charts/js/Graph.js:96-105 | The result is present exactly for a key of the dictionary, and is the series stored under it. |
| ChartObjects.KeyOf | src/charts/js/Graph.js:175 | Definition, no contract: the dictionary key of a series is its `yKey` when its direction is "horizontal" and its `xKey` otherwise. `Registry.KeyIndexLookup` states what the index built with it holds. |
| Registry.KeyIndex | src/charts/js/Graph.js:171-177 | Definition, no contract: the second loop of `_parseSeriesCollection` as a fold that writes each series, in collection order, under its key. `Registry.KeyIndexLookup` and `Registry.KeyIndexRebuild` state its meaning. |
| Registry.TypeIndex | src/charts/js/Graph.js:196-203 | Definition, no contract: `seriesTypes` as the insertions of `_addSeries` and `_createSeries` build it, creating a bucket when missing and pushing onto it. `Registry.TypeIndexLookup` relates it to `OfType`. |
| Charts.Graph.SeriesByKeyIsLast | src/charts/js/Graph.js:171-177 | A key finds the last series of the collection that carries it, and nothing when no series does. |
| Registry.OfType | src/charts/js/Graph.js:196-203 | A type's bucket holds exactly the series of that type. |
| Registry.OfTypeAppend | src/charts/js/Graph.js:196-203 | A push onto the collection pushes onto the bucket of the series' type only. |
| Registry.TypeIndexLookup | src/charts/js/Graph.js:196-203 | The type index has a bucket exactly for the types present, holding their series in collection order. |
| Registry.IndexesIsTypeIndex | src/charts/js/Graph.js:196-203 | The invariant on `seriesTypes` holds exactly when it is the type index of the collection. |
| Registry.LastIndexOf | src/charts/js/Graph.js:195-202 | The last position of a series in the collection. |
| Registry.StampedAppend | src/charts/js/Graph.js:201-202 | Stamping with the lengths before the push keeps every series' `graphOrder` and `order` equal to its position and its rank in its bucket. |
| Registry.AddedEvent | src/charts/js/Graph.js:206 | Definition, no contract: the `seriesAdded` an instance entry fires, and nothing for a descriptor. `Registry.AddedEvents` and `Charts.Graph.AppendEntries` state its meaning. |
| Registry.AddedEvents | src/charts/js/Graph.js:206 | The `seriesAdded` events of a parse name only instance entries, and there is at most one per entry. |
| Registry.AddedEventsSnoc | src/charts/js/Graph.js:161-170 | Events are added one entry at a time, in input order. |
| Registry.LastKeyIndex | src/charts/js/Graph.js:171-177 | The last position whose series carries a key, and −1 when none does. |
| Registry.KeyIndexLookup | src/charts/js/Graph.js:171-177 | Last write wins. A carried key maps to the last series carrying it. A key no series carries keeps its old entry. |
| Registry.KeyIndexRebuild | src/charts/js/Graph.js:171-177 | Rebuilding over a grown collection equals building it afresh, and deletes no key. |
| Registry.RebuiltIndex | src/charts/js/Graph.js:145-177 | The same for a collection that now extends the old one. |
| Registry.DistinctKeysSize | src/charts/js/Graph.js:171-177 | With pairwise distinct keys the dictionary has one entry per series. |
| Registry.KeyIndexExample | src/charts/js/Graph.js:171-177 | A vertical series keyed "x" followed by a horizontal series keyed "y2" gives {"x": first, "y2": second}. |
| SeqUtil.FirstIndex | src/charts/js/Graph.js:430 | `indexOf` returns −1 exactly when the value is absent. Otherwise it returns the first position holding it. |
| SeqUtil.IndexOf | src/charts/js/Graph.js:430 | The loop finds `FirstIndex`. |
| SeqUtil.RemoveFirst | src/charts/js/Graph.js:431-434 | `splice(index, 1)` at that index removes one occurrence. An absent value leaves the list as it is. |
| Completion.Complete | src/charts/js/Graph.js:426-444 | An event removes one occurrence of its series from the pending multiset, or none when absent. It signals rendering exactly when nothing is left. |
| Completion.PendingAfter | src/charts/js/Graph.js:426-434 | Definition, no contract: the pending list after a sequence of handler runs, each taking one occurrence off through `Complete`. `Completion.PendingAfterMultiset` states its meaning. |
| Completion.PendingAfterMultiset | src/charts/js/Graph.js:426-434 | After any events, the pending multiset is the registered one minus the events. |
| Completion.RenderedIffAllCompleted | src/charts/js/Graph.js:435-443 | The `k`-th event fires `chartRendered` exactly when every registered series has completed by then. So it never fires while one is still pending. |
| Completion.RenderedExactlyOnce | src/charts/js/Graph.js:435-443 | When every registered series completes once, in any order, `chartRendered` fires at the last event and at no other. |
| Completion.RenderedAgain | src/charts/js/Graph.js:426-443 | Once an event has fired `chartRendered`, every later event fires it again, because only a registration refills the pending list. |
| Charts.Graph.RemoveDispatcher | src/charts/js/Graph.js:430-434 | The pending list becomes the one `Complete` leaves. |
| Charts.Graph.AnnounceRendered | src/charts/js/Graph.js:435-443 | Gets the series surface, creating it with `autoDraw` off. Calls `_redraw()` exactly when `autoDraw` is off, then fires `chartRendered`. |
| Charts.Graph.DrawingCompleteHandler | src/charts/js/Graph.js:426-444 | Removes one occurrence of the series. It adds to the trace only when the list is then empty, and then adds the flush and `chartRendered`. A graph that satisfied the invariant still does. |
| Charts.Graph.PendingKept | src/charts/js/Graph.js:426-444 | Taking entries off the pending list, and creating the series surface in its layer, keeps the class invariant. |
| DrawSpec.RenderedEffectsContents | src/charts/js/Graph.js:437-442 | `chartRendered` comes last. The flush is present exactly when `autoDraw` is off. |
| DrawSpec.RenderedEffects | src/charts/js/Graph.js:437-442 | Definition, no contract: what the handler adds once nothing is pending, the flush unless the surface draws by itself and then `chartRendered`. `DrawSpec.RenderedEffectsContents` states its meaning. |
| DrawSpec.Announced | src/charts/js/Graph.js:435-443 | Definition, no contract: what one handler run adds during a pass, where `autoDraw` is off, given the pending list it leaves. `DrawSpec.AnnouncedContents` states its meaning. |
| DrawSpec.AnnouncedContents | src/charts/js/Graph.js:435-443 | During a pass, `chartRendered` is announced exactly when nothing is pending, and an announcement contains no draw call. |
| DrawSpec.Notify | src/charts/js/Graph.js:426-444 | Definition, no contract: the handler run inside a pass takes one occurrence off the pending list and announces the rendering exactly when the list is then empty. `DrawSpec.AnnouncedContents` states what an announcement holds. |
| DrawSpec.Subscriptions | src/charts/js/Graph.js:195-205 | Definition, no contract: the handler's subscriptions to a series, one per registration, counted as the series' occurrences in the collection (Graph.js:195, 205, 232, 234). `DrawSpec.DrawEffect` states what they cause. |
| DrawSpec.RunsPending | src/charts/js/Graph.js:426-434 | Definition, no contract: the pending list after `k` handler runs for one series, as `Completion.PendingAfter`. `DrawSpec.RunsPendingMultiset` and `DrawSpec.RunsPendingNext` state its meaning. |
| DrawSpec.RunsFired | src/charts/js/Graph.js:435-443 | Definition, no contract: what those `k` runs add to the record. `DrawSpec.RunsFiredContents` states its meaning. |
| DrawSpec.NotifyRuns | src/charts/js/Graph.js:426-444 | Definition, no contract: the `k` handler runs one `drawingComplete` sets off. `DrawSpec.NotifyRunsNext` relates it to `Notify`. |
| DrawSpec.NotifyRunsNext | src/charts/js/Graph.js:426-444 | No run leaves the state alone, and each further run is one more `Notify`, that is one more handler run. |
| DrawSpec.RunsPendingNext | src/charts/js/Graph.js:426-434 | Each handler run is one `Complete` step on the pending list. |
| DrawSpec.RunsPendingMultiset | src/charts/js/Graph.js:426-434 | `k` runs for a series take up to `k` occurrences of it off the pending multiset, and nothing else. |
| DrawSpec.RunsFiredContents | src/charts/js/Graph.js:435-443 | The runs add no draw call, and add `chartRendered` exactly when at least one run happened and nothing is left pending. |
| DrawSpec.TwiceRegistered | src/charts/js/Graph.js:426-443 | A series registered twice, with both entries pending, that completes once runs the handler twice: the pending list empties and `chartRendered` fires. |
| DrawSpec.Draw | src/charts/js/Graph.js:409 | Definition, no contract: one `draw()` records the call, adds the coordinates it produced, turns a redraw request into `_callLater`, and, when the call completes, runs the handler once per subscription. `DrawSpec.DrawEffect` states its effect. |
| DrawSpec.DrawCoords | src/charts/js/Graph.js:409 | One draw call adds the coordinates it produced and turns a redraw request into `_callLater`. |
| DrawSpec.DrawEffect | src/charts/js/Graph.js:409 | Besides, a completing call takes one occurrence of its series off the pending multiset per subscription, and its record is the call followed by what those runs fired. A call that does not complete leaves the pending list alone. |
| DrawSpec.DrawnOnce | src/charts/js/Graph.js:409 | One draw call adds exactly its own series to the record of draw calls. |
| Charts.Graph.MarkDrawn | src/charts/js/Graph.js:409 | The state becomes `Drawn` of the old one. |
| Charts.Graph.RequestRedraw | src/charts/js/Graph.js:392-395 | A nested `_drawSeries` while drawing only sets `_callLater`. |
| Charts.Graph.NotifyComplete | src/charts/js/Graph.js:426-444 | The handler run inside a pass moves the state to `Notify` of the old one. |
| Charts.Graph.NotifySubscribers | src/charts/js/Graph.js:205 | A `drawingComplete` during a pass runs the handler once per subscription, in order: the state becomes `NotifyRuns` of the old one. |
| Charts.Graph.SeriesDraw | src/charts/js/Graph.js:409 | One `draw()` moves the state to `Draw` of the old one, with the handler run once per registration of the series. |
| DrawSpec.PassFrom | src/charts/js/Graph.js:407-416 | A pass from index `j` draws at least one series when any remain, and never more than the collection. |
| Charts.Graph.DrawPass | src/charts/js/Graph.js:403-416 | The loop with its `break` leaves state and count as `PassFrom` from index 0. |
| Charts.Graph.DrawStep | src/charts/js/Graph.js:409-415 | One round draws `sc[i]`. It asks the loop to stop exactly when that series then lacks a coordinate, and then it sets `_callLater`. |
| DrawSpec.PassDraws | src/charts/js/Graph.js:407-415 | A pass draws `sc[0..n)` in ascending index, one call each, and nothing else. |
| DrawSpec.PassReady | src/charts/js/Graph.js:407-415 | A pass never removes coordinates. Every series drawn before the stopping one has both coordinates. When it stops early, the last series drawn lacks one. |
| DrawSpec.PassRerun | src/charts/js/Graph.js:402-415 | A pass leaves `_callLater` set exactly when it was set, a draw asked for a redraw, or the pass stopped at a series left without both coordinates. |
| DrawSpec.RequestedInSome | src/charts/js/Graph.js:392-395 | `RequestedIn` holds exactly when some draw call in the range asked for a redraw. |
| DrawSpec.PassPending | src/charts/js/Graph.js:407-415 | A pass only removes entries from the pending multiset. |
| DrawSpec.PassSettles | src/charts/js/Graph.js:402-418 | A pass that starts and ends with `_callLater` clear leaves every series with both coordinates. |
| DrawSpec.CleanFrom | src/charts/js/Graph.js:409-415 | Definition, no contract: every draw call in a range gives its series both coordinates and asks for no redraw. `DrawSpec.AllReady` and `DrawSpec.OnePass` use it. |
| DrawSpec.AllReady | src/charts/js/Graph.js:407-415 | When every draw call from `j` on is clean in that sense, the pass goes to the end of the collection, leaves `_callLater` as it found it, and leaves every series it drew with both coordinates. |
| DrawSpec.OnePass | src/charts/js/Graph.js:396-420 | When every draw call of the first pass is clean, `_drawSeries` draws the whole collection in a single pass and no rerun is outstanding, every series having both coordinates. |
| Charts.Graph.DrawOnce | src/charts/js/Graph.js:397-416 | Gets the surface and turns `autoDraw` off, clears `_callLater`, and runs one pass with `_drawing` set, which it then clears. |
| Charts.Graph.DrawRuns | src/charts/js/Graph.js:396-420 | When not drawing, runs passes while `_callLater` is set, and the state ends as `Run`. `_drawing` is back to false and `autoDraw` is off. |
| Charts.Graph.DrawSeries | src/charts/js/Graph.js:390-421 | While drawing it only sets `_callLater`. Otherwise the state ends as `Run`. `_drawing` is restored either way. A graph that satisfied the invariant still does. |
| Charts.Graph.DrawIdle | src/charts/js/Graph.js:396-420 | When not drawing, the state ends as `Run`, and a graph that satisfied the invariant still does. |
| Charts.Graph.RunKeepsValid | src/charts/js/Graph.js:396-420 | A run of `_drawSeries` keeps the class invariant: it only takes series off the pending list and leaves the registry and the other surfaces alone. |
| Charts.Graph.BackgroundKept | src/charts/js/Graph.js:336-371 | Creating or resizing the background, keeping its layer, keeps the class invariant. |
| Charts.Graph.TraceOnly | src/charts/js/Graph.js:47-62 | A step that only adds to the trace, as the render and gridlines calls do, keeps the class invariant. |
| DrawSpec.Run | src/charts/js/Graph.js:396-420 | Definition, no contract: `_drawSeries` outside a pass, as passes from index 0, each with `_callLater` cleared first, repeated while the last pass left it set and fuel remains. `RunPasses`, `RunDraws`, `RunSettles` and `RunPending` state its meaning. |
| DrawSpec.RunPasses | src/charts/js/Graph.js:417-420 | There are between one and `fuel + 1` passes, each drawing at most the whole collection. |
| DrawSpec.RunDraws | src/charts/js/Graph.js:390-421 | `_drawSeries` draws, pass after pass, a prefix of the collection in index order, and nothing else. |
| DrawSpec.RunSettles | src/charts/js/Graph.js:417-420 | When no rerun is outstanding at the end, every series has both coordinates. A rerun is outstanding only when the fuel ran out. |
| DrawSpec.RunPending | src/charts/js/Graph.js:390-421 | `_drawSeries` only ever removes series from the pending multiset. |
| Charts.Graph.ResizeBackground | src/charts/js/Graph.js:363-371 | When the background is shown it is fetched, and so created. It is resized exactly when both sizes are nonzero. |
| DrawSpec.GridDraws | src/charts/js/Graph.js:55-62 | Definition, no contract: the gridlines `draw()` calls, horizontal first, then vertical, each when set (also Graph.js:376-383). `DrawSpec.SizePreludeContents` and `Charts.Graph.DrawGridlines` state its meaning. |
| DrawSpec.SizePrelude | src/charts/js/Graph.js:363-383 | Definition, no contract: what `_sizeChangeHandler` does before `_drawSeries`. `DrawSpec.SizePreludeContents` states its meaning. |
| Charts.Graph.DrawGridlines | src/charts/js/Graph.js:376-383 | Draws the horizontal gridlines, then the vertical ones, each only when set. |
| Charts.Graph.ResizeBackdrop | src/charts/js/Graph.js:363-383 | Resizes the background, then clears the gridlines shape if it was created, then draws the gridlines. The trace grows by exactly `SizePrelude`. The class invariant is kept. |
| Charts.Graph.RedrawGridlines | src/charts/js/Graph.js:372-383 | Clears the gridlines shape exactly when it exists, then draws the horizontal and the vertical gridlines, each when set. |
| DrawSpec.SizePreludeContents | src/charts/js/Graph.js:363-383 | The resize happens exactly when the background is shown and both sizes are nonzero. The clear happens exactly when the gridlines shape exists. A gridlines object is drawn exactly when it is set. |
| Charts.Graph.SizeChangeHandler | src/charts/js/Graph.js:350-385 | The prelude comes first, then `_drawSeries` last. The state ends as the guard branch or `Run`, started from the old state plus the prelude. A graph that satisfied the invariant still does. |
| Charts.Graph.StyleBackground | src/charts/js/Graph.js:338-343 | The background shape, created if missing, is handed the background styles, and the class invariant is kept. |
| Charts.Graph.UpdateStyles | src/charts/js/Graph.js:336-345 | Restyles the background, creating it even when it is hidden, then runs the size-change handler. A graph that satisfied the invariant still does. |
| DrawSpec.IsCartesian | src/charts/js/Graph.js:50 | Definition, no contract: `instanceof Y.CartesianSeries`, true of every class but `PieSeries`, whose answer is a parameter. `DrawSpec.RendersCartesian` uses it. |
| DrawSpec.Renders | src/charts/js/Graph.js:47-54 | Definition, no contract: the `render()` calls of `syncUI`'s loop. `DrawSpec.RendersCartesian` states its meaning. |
| Charts.Graph.RenderSeries | src/charts/js/Graph.js:47-54 | The loop renders the Cartesian series in collection order: the trace grows by `Renders`. |
| DrawSpec.RendersCartesian | src/charts/js/Graph.js:47-54 | `Renders` renders every Cartesian series of the collection and nothing else. |
| Charts.Graph.SyncUI | src/charts/js/Graph.js:23-63 | Styles and sizes the background when shown, then renders the series, then draws the horizontal and then the vertical gridlines. A graph that satisfied the invariant still does. |
| Charts.Graph.SyncBackground | src/charts/js/Graph.js:34-46 | When the background is shown, its shape, created if missing, is given the styles with the graph's size, and the class invariant is kept. |
| Charts.Removal | src/charts/js/Graph.js:532-535 | A setter removes the previous value exactly when it was a `Gridlines`. |
| Charts.Graph.GridlinesSetter | src/charts/js/Graph.js:529-547 | Removes the current value, then adopts a given instance and points it at the graph, builds a new one from an axis and styles, or stores nothing. |
| Charts.Graph.GridlinesSet | src/charts/js/Graph.js:536-546 | Definition, no contract: what a gridlines attribute holds after its setter, the adopted instance pointing at the graph, a new one built from the axis and styles, or nothing. `Charts.Graph.SetHorizontalGridlines` and `Charts.Graph.SetVerticalGridlines` ensure it. |
| Charts.Graph.SetHorizontalGridlines | src/charts/js/Graph.js:529-547 | The `horizontalGridlines` setter. A gridlines object it builds has direction "horizontal". |
| Charts.Graph.SetVerticalGridlines | src/charts/js/Graph.js:560-578 | The `verticalGridlines` setter. A gridlines object it builds has direction "vertical". |
| Charts.Graph.GetBackground | src/charts/js/Graph.js:588-599 | Creates the background surface (depth −2) and its rectangle once. From then on it returns the same shape. |
| Charts.Graph.GetGridlines | src/charts/js/Graph.js:610-621 | Creates the gridlines surface (depth −1) and its path once. From then on it returns the same shape. |
| Charts.Graph.GetGraphic | src/charts/js/Graph.js:632-641 | Creates the series surface once, with `autoDraw` off. From then on it returns the same surface. |

## Left out

- `bindUI` (src/charts/js/Graph.js:11-18): DOM styling and event subscriptions. The handlers it subscribes are modelled as methods that callers invoke.
- The `series.after("drawingComplete", …)` subscriptions are not stored. The model counts them as the series' occurrences in the collection, and a completion is an outcome of a `draw()` call, which runs the handler once per subscription. Listeners other than the graph's, and a graph's handler on a series registered with several graphs, are not modelled.
- `_markerEventHandler`: DOM node id parsing and a foreign call.
- `_getDefaultStyles`, and the copying of alpha values into opacity in `syncUI` and `_updateStyles`. Style objects are opaque; the trace records which style object was handed to the background, and with what size.
- The unused `weight` computation of `_sizeChangeHandler`.
- What `draw()`, `render()`, `remove()`, `clear()` and `_redraw()` do inside the foreign objects. Each is recorded in the trace only. In particular `render()` in `syncUI` does not draw the series in the model.
- `Y.Graphic` construction, node attachment and `getShape`: a surface is a handle with a depth and `autoDraw`.
- Charts.Graph.DrawSeries: reruns are bounded by `fuel`. The source has no bound, so a series that never gets its coordinates makes it recurse without end. The model stops after `fuel` reruns, and `RunSettles` says that a rerun still outstanding then means the fuel ran out.
- Charts.Graph.GridlinesSetter: a value that is neither a `Gridlines` nor an object with a truthy `axis` is stored as `null`. What the attribute framework stores for such a value is not visible in the source. Every reader tests `instanceof Y.Gridlines`, so the model treats the value as no gridlines.
- The `TypeError`s the source raises when `_drawSeries`, `syncUI` or `_drawingCompleteHandler` run before any collection was set or any series was registered. The model starts with an empty collection and an empty pending list, and so takes those calls as acting on empty lists.
- Whether `PieSeries` extends `CartesianSeries` is decided outside `Graph.js`. It is the graph constant `pieIsCartesian`.
- Entries that are neither series nor descriptors, and non-integer or non-numeric indexes to `getSeriesByIndex`. The inputs are typed.
- Names of types and keys that are properties of every JavaScript object or array. `seriesTypes` is an array and `_seriesDictionary` a plain object (Graph.js:155, 159), both probed with `hasOwnProperty` (Graph.js:100, 196, 221), and the model stores both as Dafny maps. So a type named "length" (an own property of an array, whose `push` then throws), a key "__proto__" (whose assignment replaces the prototype and stores nothing), and a type or key "hasOwnProperty" (which hides the method and makes every later lookup throw) behave normally in the model. The model speaks only of names that are not such properties.
- The writes of `graph`, `order` and `graphOrder` onto the caller's descriptor object (Graph.js:220-228). A descriptor is a value in the model; the series built from it carries those three values.
- Changes to a series' type, direction or keys after it was registered. Nothing in Graph.js writes them, so the model makes them constants. A key changed between two parses would leave a stale dictionary entry in the source; the model, which rebuilds the index over constant keys, has none.
- Charts.Graph.ParseSeriesCollection: the contract does not restate that descriptor entries become fresh objects. `CreateSeries` states it for each one.
