/** `Y.Graph`: the container that owns the series of a Cartesian chart,
    registers them (collection, per-type buckets, key dictionary, pending
    completion list), stamps their ordering attributes, drives their
    drawing passes and fires `chartRendered` once every registered series
    has reported `drawingComplete`. */
module Charts {

  import opened Wrappers
  import opened SeriesFactory
  import opened SeqUtil
  import opened ChartObjects
  import opened Registry
  import opened DrawSpec
  import Completion

  /** The series of a parsed entry list that are existing instances. */
  function Instances(es: seq<Entry>): set<Series>
  {
    set e | e in es && e.Instance? :: e.series
  }

  /** The entries a setter value holds; none when the value is falsy. */
  function EntriesOf(val: Option<seq<Entry>>): seq<Entry>
  {
    if val.Some? then val.value else []
  }

  /** The instance a gridlines setter points at the graph, if any. */
  function Adoptee(val: GridlinesValue): set<Gridlines>
  {
    if val.Adopt? then {val.gridlines} else {}
  }

  /** The `remove()` call a gridlines setter makes on the current value. */
  function Removal(current: Gridlines?): (r: seq<Effect>)
    ensures |r| <= 1
    ensures r != [] <==> current != null
  {
    if current != null then [GridlinesRemoved(current)] else []
  }

  class Graph {
    // Attributes read by the drawing code; a width or height of 0 is falsy.
    var showBackground: bool
    var width: int
    var height: int
    var styles: StyleRef
    /** Whether `PieSeries` instances count as `CartesianSeries` for `syncUI`. */
    const pieIsCartesian: bool

    // Registry. The collection, the dictionary and the type index are all
    // `null` until the first parse creates them together; `parsed` records
    // that. The pending list is created by the first insertion; before that
    // it is empty here, which no reader can tell apart.
    var parsed: bool
    var seriesCollection: seq<Series>
    var seriesDictionary: map<string, Series>
    var seriesTypes: map<string, seq<Series>>
    var dispatchers: seq<Series>

    // Re-entrancy flags of `_drawSeries`.
    var drawing: bool
    var callLater: bool

    // Gridlines attributes; `null` for any value that is not a `Gridlines`.
    var horizontalGridlines: Gridlines?
    var verticalGridlines: Gridlines?

    // Lazily created surfaces and shapes.
    var backgroundGraphic: Surface?
    var background: Shape?
    var gridlinesGraphic: Surface?
    var gridlines: Shape?
    var graphic: Surface?

    /** Events fired and calls made on other objects, in order. */
    var trace: seq<Effect>

    ghost function Members(): set<Series>
      reads this`seriesCollection
    {
      set x | x in seriesCollection
    }

    /** `this.seriesTypes[t]`, empty when there is no such bucket. */
    function BucketOf(t: string): seq<Series>
      reads this`seriesTypes
    {
      Bucket(seriesTypes, t)
    }

    /** The registry invariant (see `Registry.Consistent`). */
    ghost predicate Registered()
      reads this`seriesCollection, this`seriesTypes, this`dispatchers
      reads Members()`graph, Members()`graphOrder, Members()`order
    {
      Consistent(seriesCollection, seriesTypes, dispatchers)
    }

    /** The dictionary maps each key to the last series in the collection
        with that key (so it is empty while the collection is). */
    ghost predicate Indexed()
      reads this`seriesCollection, this`seriesDictionary
    {
      seriesDictionary == KeyIndex(map[], seriesCollection)
    }

    /** The three surfaces, once created, are stacked background (-2, with a
        rectangle), gridlines (-1, with a path), series (no depth set). */
    ghost predicate Layered()
      reads this`backgroundGraphic, this`background, this`gridlinesGraphic, this`gridlines, this`graphic
    {
      BackgroundLayer() && GridlinesLayer() && SeriesLayer()
    }

    ghost predicate BackgroundLayer()
      reads this`backgroundGraphic, this`background
    {
      && (background == null <==> backgroundGraphic == null)
      && (background != null ==>
            background.kind == Rect && background.surface == backgroundGraphic
            && backgroundGraphic.zIndex == Some(-2))
    }

    ghost predicate GridlinesLayer()
      reads this`gridlinesGraphic, this`gridlines
    {
      && (gridlines == null <==> gridlinesGraphic == null)
      && (gridlines != null ==>
            gridlines.kind == Path && gridlines.surface == gridlinesGraphic
            && gridlinesGraphic.zIndex == Some(-1))
    }

    ghost predicate SeriesLayer()
      reads this`graphic
    {
      graphic != null ==> graphic.zIndex == None
    }

    /** Nothing but the surface fields matters to `Layered`. */
    twostate lemma LayeredFramed()
      requires old(Layered())
      requires unchanged(this`backgroundGraphic, this`background, this`gridlinesGraphic, this`gridlines, this`graphic)
      ensures Layered()
    {
    }

    ghost predicate Valid()
      reads this`parsed, this`seriesCollection, this`seriesDictionary, this`seriesTypes, this`dispatchers
      reads this`backgroundGraphic, this`background, this`gridlinesGraphic, this`gridlines, this`graphic
      reads Members()`graph, Members()`graphOrder, Members()`order
    {
      && Registered() && (!parsed ==> seriesCollection == [])
      && Indexed() && Layered()
    }

    /** A new graph: attribute defaults given, nothing registered, no
        surfaces, not drawing. */
    constructor (showBackground: bool, width: int, height: int, styles: StyleRef, pieIsCartesian: bool)
      ensures Valid()
      ensures this.showBackground == showBackground && this.width == width && this.height == height
      ensures this.styles == styles && this.pieIsCartesian == pieIsCartesian
      ensures !parsed && seriesCollection == [] && seriesDictionary == map[] && seriesTypes == map[]
      ensures dispatchers == [] && !drawing && !callLater
      ensures horizontalGridlines == null && verticalGridlines == null
      ensures background == null && gridlines == null && graphic == null
      ensures trace == []
    {
      this.showBackground, this.width, this.height := showBackground, width, height;
      this.styles, this.pieIsCartesian := styles, pieIsCartesian;
      parsed := false;
      seriesCollection, seriesDictionary, seriesTypes, dispatchers := [], map[], map[], [];
      drawing, callLater := false, false;
      horizontalGridlines, verticalGridlines := null, null;
      backgroundGraphic, background, gridlinesGraphic, gridlines, graphic := null, null, null, null, null;
      trace := [];
    }

    /** The `background` getter: creates the background surface (depth -2)
        and its rectangle on first use, then returns the same shape. */
    method GetBackground() returns (b: Shape)
      requires BackgroundLayer()
      modifies this`backgroundGraphic, this`background
      ensures BackgroundLayer() && b == background
      ensures old(background) != null ==> b == old(background) && backgroundGraphic == old(backgroundGraphic)
      ensures old(background) == null ==> fresh(b) && fresh(backgroundGraphic)
    {
      if background == null {
        var surface := new Surface(Some(-2));
        backgroundGraphic := surface;
        background := new Shape(Rect, surface);
      }
      b := background;
    }

    /** The `gridlines` getter: creates the gridlines surface (depth -1) and
        its path on first use, then returns the same shape. */
    method GetGridlines() returns (p: Shape)
      requires GridlinesLayer()
      modifies this`gridlinesGraphic, this`gridlines
      ensures GridlinesLayer() && p == gridlines
      ensures old(gridlines) != null ==> p == old(gridlines) && gridlinesGraphic == old(gridlinesGraphic)
      ensures old(gridlines) == null ==> fresh(p) && fresh(gridlinesGraphic)
    {
      if gridlines == null {
        var surface := new Surface(Some(-1));
        gridlinesGraphic := surface;
        gridlines := new Shape(Path, surface);
      }
      p := gridlines;
    }

    /** The `graphic` getter: creates the series surface with `autoDraw`
        off on first use, then returns the same surface untouched. */
    method GetGraphic() returns (g: Surface)
      requires SeriesLayer()
      modifies this`graphic
      ensures SeriesLayer() && g == graphic
      ensures old(graphic) != null ==> g == old(graphic)
      ensures old(graphic) == null ==> fresh(g) && !g.autoDraw
    {
      if graphic == null {
        var surface := new Surface(None);
        surface.autoDraw := false;
        graphic := surface;
      }
      g := graphic;
    }

    /** `addDispatcher`: appends to the pending list. */
    method AddDispatcher(s: Series)
      modifies this`dispatchers
      ensures dispatchers == old(dispatchers) + [s]
    {
      dispatchers := dispatchers + [s];
    }

    /** Appending `s` (stamped with its new position and rank, and given a
        graph) to the collection, its bucket and the pending list keeps the
        registry invariant, when nothing else in the collection changed. */
    twostate lemma AppendKeepsRegistered(new s: Series, t: string)
      requires old(Registered()) && t == s.seriesType
      requires seriesCollection == old(seriesCollection) + [s]
      requires seriesTypes == old(seriesTypes)[t := old(BucketOf(t)) + [s]]
      requires dispatchers == old(dispatchers) + [s]
      requires s.graph != null && s.graphOrder == |old(seriesCollection)| && s.order == |old(BucketOf(t))|
      requires forall x :: x in old(seriesCollection) && x != s ==>
                 x.graph == old(x.graph) && x.order == old(x.order) && x.graphOrder == old(x.graphOrder)
      ensures Registered()
    {
      var sc := old(seriesCollection);
      forall u ensures Bucket(seriesTypes, u) == OfType(sc + [s], u) {
        OfTypeAppend(sc, s, u);
      }
      forall n | 0 <= n < |sc| && LastAt(sc, n) && sc[n] != s
        ensures StampedAt(sc, n)
      {
        assert old(StampedAt(sc, n));
      }
      StampedAppend(sc, s);
      assert multiset(sc + [s]) == multiset(sc) + multiset{s};
    }

    /** `_addSeries`: adopts `s` if it has no graph, appends it to the
        collection and to its type's bucket, stamps `graphOrder` with its
        position and `order` with its rank in the bucket, registers it as
        pending and fires `seriesAdded`. The dictionary is left to the
        caller. */
    method AddSeries(s: Series)
      requires Registered()
      modifies this`seriesCollection, this`seriesTypes, this`dispatchers, this`trace
      modifies s`graph, s`graphOrder, s`order
      ensures Registered()
      ensures seriesCollection == old(seriesCollection) + [s]
      ensures seriesTypes == old(seriesTypes)[s.seriesType := old(BucketOf(s.seriesType)) + [s]]
      ensures s.graphOrder == |old(seriesCollection)| && s.order == |old(BucketOf(s.seriesType))|
      ensures s.graph == (if old(s.graph) == null then this else old(s.graph))
      ensures dispatchers == old(dispatchers) + [s]
      ensures trace == old(trace) + [SeriesAdded(s)]
    {
      var t := s.seriesType;
      var sc := seriesCollection;
      if s.graph == null {
        s.graph := this;
      }
      seriesCollection := sc + [s];
      var bucket := BucketOf(t);
      s.graphOrder, s.order := |sc|, |bucket|;
      seriesTypes := seriesTypes[t := bucket + [s]];
      AddDispatcher(s);
      trace := trace + [SeriesAdded(s)];
      AppendKeepsRegistered(s, t);
    }

    /** `_createSeries`: builds a series of the class the factory gives for
        the descriptor's type, owned by this graph and stamped like an added
        one, registers it as pending and appends it to its bucket and to the
        collection. No event is fired. */
    method CreateSeries(config: SeriesConfig) returns (s: Series)
      requires Registered()
      modifies this`seriesCollection, this`seriesTypes, this`dispatchers
      ensures Registered() && fresh(s)
      ensures BuiltFrom(s, config) && s.graph == this && !s.hasXCoords && !s.hasYCoords
      ensures seriesCollection == old(seriesCollection) + [s]
      ensures seriesTypes == old(seriesTypes)[config.seriesType := old(BucketOf(config.seriesType)) + [s]]
      ensures s.graphOrder == |old(seriesCollection)| && s.order == |old(BucketOf(config.seriesType))|
      ensures dispatchers == old(dispatchers) + [s]
    {
      var t := config.seriesType;
      var bucket := BucketOf(t);
      var sc := seriesCollection;
      var cls := ClassFor(t);
      s := new Series(cls, t, config.direction, config.xKey, config.yKey, this, |bucket|, |sc|);
      AddDispatcher(s);
      seriesTypes := seriesTypes[t := bucket + [s]];
      seriesCollection := sc + [s];
      AppendKeepsRegistered(s, t);
    }

    /** How entry `e` of a parsed list shows up in the collection as `y`:
        an instance as itself, a descriptor as a series built from it. */
    static predicate Placed(e: Entry, y: Series)
    {
      match e
      case Instance(x) => y == x
      case Descriptor(c) => BuiltFrom(y, c)
    }

    /** Each entry of `es` is placed as the series at the same position of `ys`. */
    static predicate PlacedAll(es: seq<Entry>, ys: seq<Series>)
      decreases |es|
    {
      && |es| == |ys|
      && (|es| > 0 ==>
            PlacedAll(es[..|es| - 1], ys[..|ys| - 1]) && Placed(es[|es| - 1], ys[|ys| - 1]))
    }

    static lemma PlacedAllSnoc(es: seq<Entry>, i: nat, ys: seq<Series>, y: Series)
      requires i < |es| && PlacedAll(es[..i], ys) && Placed(es[i], y)
      ensures PlacedAll(es[..i + 1], ys + [y])
    {
      assert es[..i + 1][..i] == es[..i];
      assert (ys + [y])[..|ys|] == ys;
    }

    static lemma {:induction false} PlacedAllAt(es: seq<Entry>, ys: seq<Series>, k: nat)
      requires PlacedAll(es, ys) && k < |es|
      ensures Placed(es[k], ys[k])
      decreases |es|
    {
      if k < |es| - 1 {
        PlacedAllAt(es[..|es| - 1], ys[..|ys| - 1], k);
      }
    }

    /** One round of the first loop of `_parseSeriesCollection`: an instance
        goes through `_addSeries`, anything else through `_createSeries`. */
    method AppendEntry(e: Entry) returns (y: Series)
      requires Registered()
      modifies this`seriesCollection, this`seriesTypes, this`dispatchers, this`trace
      modifies (if e.Instance? then {e.series} else {})`graph
      modifies (if e.Instance? then {e.series} else {})`graphOrder
      modifies (if e.Instance? then {e.series} else {})`order
      ensures Registered()
      ensures seriesCollection == old(seriesCollection) + [y] && Placed(e, y)
      ensures e.Descriptor? ==> fresh(y) && y.graph == this
      ensures dispatchers == old(dispatchers) + [y]
      ensures trace == old(trace) + AddedEvent(e)
      ensures e.Instance? ==> y.graph == (if old(y.graph) == null then this else old(y.graph))
    {
      match e {
        case Descriptor(config) =>
          y := CreateSeries(config);
        case Instance(x) =>
          AddSeries(x);
          y := x;
      }
    }

    /** What appending the entries `es` leaves behind, against the
        collection `c0`, the dispatchers `d0` and the trace `t0` before: one
        series per entry, placed as the entry asks, each series built from a
        descriptor owned by this graph, each awaited by `drawingComplete`,
        and each instance announced. */
    ghost predicate Appended(es: seq<Entry>, c0: seq<Series>, d0: seq<Series>, t0: seq<Effect>)
      reads this`seriesCollection, this`dispatchers, this`trace, Members()`graph
    {
      && |seriesCollection| == |c0| + |es| && seriesCollection[..|c0|] == c0
      && PlacedAll(es, seriesCollection[|c0|..])
      && Owned(es, seriesCollection[|c0|..])
      && dispatchers == d0 + seriesCollection[|c0|..]
      && trace == t0 + AddedEvents(es)
    }

    /** Every series of `ys` at the position of a descriptor of `es` has
        this graph. */
    ghost predicate Owned(es: seq<Entry>, ys: seq<Series>)
      reads (set y | y in ys)`graph
    {
      forall k :: 0 <= k < |es| && k < |ys| && es[k].Descriptor? ==> ys[k].graph == this
    }

    /** `_addSeries` gave this graph to exactly those series of `xs` that had
        none; the others kept theirs. */
    twostate predicate Adopted(xs: set<Series>)
      reads xs`graph
    {
      forall x :: x in xs ==> x.graph == (if old(x.graph) == null then this else old(x.graph))
    }

    /** The first loop of `_parseSeriesCollection`: appends every entry in
        order. */
    method AppendEntries(es: seq<Entry>)
      requires Registered()
      modifies this`seriesCollection, this`seriesTypes, this`dispatchers, this`trace
      modifies Instances(es)`graph, Instances(es)`graphOrder, Instances(es)`order
      ensures Registered()
      ensures Appended(es, old(seriesCollection), old(dispatchers), old(trace))
      ensures Adopted(Instances(es))
    {
      ghost var c0, d0, t0 := seriesCollection, dispatchers, trace;
      ghost var ys: seq<Series> := [];
      var i := 0;
      while i < |es|
        invariant 0 <= i <= |es|
        invariant Registered()
        invariant seriesCollection == c0 + ys && dispatchers == d0 + ys
        invariant PlacedAll(es[..i], ys) && Owned(es[..i], ys)
        invariant trace == t0 + AddedEvents(es[..i])
        invariant forall x :: x in Instances(es) ==>
                    x.graph == old(x.graph) || (old(x.graph) == null && x.graph == this)
      {
        ys := AppendStep(es, i, c0, d0, t0, ys);
        i := i + 1;
      }
      assert es[..i] == es;
      assert seriesCollection[..|c0|] == c0 && seriesCollection[|c0|..] == ys;
      InstancesAdopted(es, c0, ys);
    }

    /** One round of that loop, with what it keeps. */
    method AppendStep(es: seq<Entry>, i: nat, ghost c0: seq<Series>, ghost d0: seq<Series>, ghost t0: seq<Effect>, ghost ys: seq<Series>)
      returns (ghost ys': seq<Series>)
      requires i < |es|
      requires Registered()
      requires seriesCollection == c0 + ys && dispatchers == d0 + ys
      requires PlacedAll(es[..i], ys) && Owned(es[..i], ys)
      requires trace == t0 + AddedEvents(es[..i])
      modifies this`seriesCollection, this`seriesTypes, this`dispatchers, this`trace
      modifies (if es[i].Instance? then {es[i].series} else {})`graph
      modifies (if es[i].Instance? then {es[i].series} else {})`graphOrder
      modifies (if es[i].Instance? then {es[i].series} else {})`order
      ensures Registered()
      ensures seriesCollection == c0 + ys' && dispatchers == d0 + ys'
      ensures PlacedAll(es[..i + 1], ys') && Owned(es[..i + 1], ys')
      ensures trace == t0 + AddedEvents(es[..i + 1])
      ensures es[i].Instance? ==> es[i].series.graph == (if old(es[i].series.graph) == null then this else old(es[i].series.graph))
    {
      var y := AppendEntry(es[i]);
      forall k | 0 <= k < i + 1 && es[..i + 1][k].Descriptor?
        ensures (ys + [y])[k].graph == this
      {
        if k < i {
          assert es[..i][k] == es[k];
          assert old(ys[k].graph) == this;
        }
      }
      PlacedAllSnoc(es, i, ys, y);
      AddedEventsSnoc(es, i);
      Assoc(c0, ys, [y]);
      Assoc(d0, ys, [y]);
      Assoc(t0, AddedEvents(es[..i]), AddedEvent(es[i]));
      ys' := ys + [y];
    }

    /** After the first loop every instance entry has a graph, so `_addSeries`
        gave this graph to exactly those that had none. */
    twostate lemma InstancesAdopted(es: seq<Entry>, new c0: seq<Series>, new ys: seq<Series>)
      requires Registered() && seriesCollection == c0 + ys && PlacedAll(es, ys)
      requires forall x :: x in Instances(es) ==>
                 x.graph == old(x.graph) || (old(x.graph) == null && x.graph == this)
      ensures Adopted(Instances(es))
    {
      forall x | x in Instances(es)
        ensures x.graph == (if old(x.graph) == null then this else old(x.graph))
      {
        var k :| 0 <= k < |es| && es[k] == Instance(x);
        PlacedAllAt(es, ys, k);
        assert seriesCollection[|c0| + k] == x;
      }
    }

    /** The second loop of `_parseSeriesCollection`: every series of the
        collection, in order, writes itself under its key into the
        dictionary. */
    method IndexCollection(ghost c0: seq<Series>)
      requires |c0| <= |seriesCollection| && seriesCollection[..|c0|] == c0
      requires seriesDictionary == KeyIndex(map[], c0)
      modifies this`seriesDictionary
      ensures seriesDictionary == KeyIndex(old(seriesDictionary), seriesCollection)
      ensures Indexed() && old(seriesDictionary).Keys <= seriesDictionary.Keys
    {
      ghost var d := seriesDictionary;
      var sc := seriesCollection;
      var j := 0;
      while j < |sc|
        invariant 0 <= j <= |sc|
        invariant seriesDictionary == KeyIndex(d, sc[..j])
      {
        var s := sc[j];
        var key := if s.direction == "horizontal" then s.yKey else s.xKey;
        seriesDictionary := seriesDictionary[key := s];
        assert sc[..j + 1][..j] == sc[..j];
        j := j + 1;
      }
      assert sc[..j] == sc;
      RebuiltIndex(c0, sc);
    }

    /** The `seriesCollection` setter (`_parseSeriesCollection`). A falsy
        value changes nothing. Otherwise the registry is created if missing,
        every entry is appended in order (instances through `_addSeries`,
        anything else through `_createSeries`), and the dictionary is
        brought up to date over the whole collection. */
    method ParseSeriesCollection(val: Option<seq<Entry>>)
      requires Valid()
      modifies this`parsed, this`seriesCollection, this`seriesDictionary, this`seriesTypes
      modifies this`dispatchers, this`trace
      modifies Instances(EntriesOf(val))`graph, Instances(EntriesOf(val))`graphOrder, Instances(EntriesOf(val))`order
      ensures Valid()
      ensures val.None? ==>
                parsed == old(parsed) && seriesCollection == old(seriesCollection)
                && seriesDictionary == old(seriesDictionary) && seriesTypes == old(seriesTypes)
                && dispatchers == old(dispatchers) && trace == old(trace)
      ensures val.Some? ==> parsed
      ensures val.Some? ==> Appended(val.value, old(seriesCollection), old(dispatchers), old(trace))
      ensures Adopted(Instances(EntriesOf(val)))
      ensures old(seriesDictionary).Keys <= seriesDictionary.Keys
    {
      if val.None? {
        return;
      }
      ParseValue(EntriesOf(val));
    }

    /** `_parseSeriesCollection` given a present value. */
    method ParseValue(es: seq<Entry>)
      requires Valid()
      modifies this`parsed, this`seriesCollection, this`seriesDictionary, this`seriesTypes
      modifies this`dispatchers, this`trace
      modifies Instances(es)`graph, Instances(es)`graphOrder, Instances(es)`order
      ensures Valid() && parsed
      ensures Appended(es, old(seriesCollection), old(dispatchers), old(trace))
      ensures Adopted(Instances(es))
      ensures old(seriesDictionary).Keys <= seriesDictionary.Keys
    {
      ParseEntries(es);
      LayeredFramed();
    }

    /** The body of `_parseSeriesCollection` over a present value: the
        registry is created if missing, then the two loops run. */
    method ParseEntries(es: seq<Entry>)
      requires Registered() && Indexed()
      modifies this`parsed, this`seriesCollection, this`seriesDictionary, this`seriesTypes, this`dispatchers, this`trace
      modifies Instances(es)`graph, Instances(es)`graphOrder, Instances(es)`order
      ensures Registered() && Indexed() && parsed
      ensures Appended(es, old(seriesCollection), old(dispatchers), old(trace))
      ensures Adopted(Instances(es))
      ensures old(seriesDictionary).Keys <= seriesDictionary.Keys
    {
      if !parsed {
        parsed := true;
      }
      ghost var c0 := seriesCollection;
      AppendEntries(es);
      IndexCollection(c0);
    }

    // ---------------------------------------------------------------
    // Drawing

    /** What the drawing code changes or looks at, as a value: which series
        of the collection have x and y coordinates, the pending list, the
        record and the `_callLater` flag. */
    ghost function State(): DrawState
      reads this`seriesCollection, this`dispatchers, this`trace, this`callLater
      reads Members()`hasXCoords, Members()`hasYCoords
    {
      DrawState(WithX(), WithY(), dispatchers, trace, callLater)
    }

    /** The series of the collection that have x coordinates. */
    ghost function WithX(): set<Series>
      reads this`seriesCollection, Members()`hasXCoords
    {
      set x | x in seriesCollection && x.hasXCoords
    }

    /** The series of the collection that have y coordinates. */
    ghost function WithY(): set<Series>
      reads this`seriesCollection, Members()`hasYCoords
    {
      set x | x in seriesCollection && x.hasYCoords
    }

    /** The series surface, once created. */
    ghost function SeriesSurface(): set<Surface>
      reads this`graphic
    {
      if graphic != null then {graphic} else {}
    }

    /** `_drawingCompleteHandler` for an event from `s`: the first occurrence
        of `s` leaves the pending list (`Y.Array.indexOf` and `splice`);
        when the list is then empty, the series surface is flushed unless it
        draws by itself, and `chartRendered` fires. */
    method DrawingCompleteHandler(s: Series)
      requires SeriesLayer()
      modifies this`dispatchers, this`trace, this`graphic
      ensures SeriesLayer()
      ensures dispatchers == Completion.Complete(old(dispatchers), s).pending
      ensures |dispatchers| > 0 ==> trace == old(trace) && graphic == old(graphic)
      ensures |dispatchers| == 0 ==> graphic != null && trace == old(trace) + RenderedEffects(graphic.autoDraw)
      ensures old(graphic) != null ==> graphic == old(graphic)
      ensures old(graphic) == null && graphic != null ==> fresh(graphic) && !graphic.autoDraw
      ensures old(Valid()) ==> Valid()
    {
      label start:
      RemoveDispatcher(s);
      if old(Valid()) {
        PendingKept@start();
      }
      if |dispatchers| < 1 {
        AnnounceRendered();
      }
    }

    /** The last part of the handler, once nothing is pending: the series
        surface is flushed unless it draws by itself, then `chartRendered`. */
    method AnnounceRendered()
      requires SeriesLayer()
      modifies this`trace, this`graphic
      ensures SeriesLayer() && graphic != null
      ensures trace == old(trace) + RenderedEffects(graphic.autoDraw)
      ensures old(graphic) != null ==> graphic == old(graphic)
      ensures old(graphic) == null ==> fresh(graphic) && !graphic.autoDraw
      ensures old(Valid()) ==> Valid()
    {
      var g := GetGraphic();
      if !g.autoDraw {
        trace := trace + [GraphicRedrawn];
      }
      trace := trace + [ChartRendered];
      if old(Valid()) {
        PendingKept();
      }
    }

    /** The first part of the handler: `indexOf`, then `splice` when found. */
    method RemoveDispatcher(s: Series)
      modifies this`dispatchers
      ensures dispatchers == Completion.Complete(old(dispatchers), s).pending
    {
      var index := IndexOf(dispatchers, s);
      if index > -1 {
        dispatchers := dispatchers[..index] + dispatchers[index + 1..];
      }
    }

    /** One `s.draw()` during a pass, with outcome `o`: the call is recorded,
        it may give `s` its coordinates, it may ask for a redraw (a nested
        `_drawSeries`, which finds the graph drawing), and it may report
        `drawingComplete`, which runs the handler once per registration of
        `s`. */
    method SeriesDraw(s: Series, o: DrawOutcome, script: seq<DrawOutcome>, fuel: nat)
      requires drawing && graphic != null && !graphic.autoDraw && s in seriesCollection && SeriesLayer()
      modifies this`callLater, this`drawing, this`graphic, this`trace, this`dispatchers
      modifies SeriesSurface()`autoDraw, Members()`hasXCoords, Members()`hasYCoords
      ensures State() == Draw(old(State()), s, o, Subscriptions(seriesCollection, s))
      ensures drawing && graphic == old(graphic) && !graphic.autoDraw && SeriesLayer()
      decreases fuel, 2
    {
      ghost var st := State();
      MarkDrawn(s, o);
      if o.requestsRedraw {
        RequestRedraw(script, fuel);
      }
      if o.completes {
        NotifySubscribers(s, Subscriptions(seriesCollection, s));
      }
    }

    /** A `drawingComplete` from `s` during a pass: the handler runs once for
        each of its `k` subscriptions, in order. */
    method NotifySubscribers(s: Series, k: nat)
      requires graphic != null && !graphic.autoDraw && SeriesLayer()
      modifies this`dispatchers, this`trace, this`graphic
      ensures State() == NotifyRuns(old(State()), s, k)
      ensures graphic == old(graphic) && SeriesLayer()
    {
      NotifyRunsNext(State(), s, 0);
      var i := 0;
      while i < k
        invariant i <= k && graphic == old(graphic) && SeriesLayer()
        invariant State() == NotifyRuns(old(State()), s, i)
      {
        NotifyRunsNext(old(State()), s, i);
        NotifyComplete(s);
        i := i + 1;
      }
    }

    /** A redraw asked for by a series while the graph is drawing: the
        nested `_drawSeries` call takes its guard branch. */
    method RequestRedraw(script: seq<DrawOutcome>, fuel: nat)
      requires drawing && SeriesLayer()
      modifies this`callLater, this`drawing, this`graphic, this`trace, this`dispatchers
      modifies SeriesSurface()`autoDraw, Members()`hasXCoords, Members()`hasYCoords
      ensures State() == old(State()).(callLater := true)
      ensures drawing && graphic == old(graphic) && SeriesLayer()
      ensures graphic != null ==> graphic.autoDraw == old(graphic.autoDraw)
      decreases fuel, 1
    {
      DrawSeries(script, fuel);
    }

    /** The part of `s.draw()` the graph sees before any event: the call,
        and the coordinates it produces. */
    method MarkDrawn(s: Series, o: DrawOutcome)
      requires s in seriesCollection
      modifies this`trace, s`hasXCoords, s`hasYCoords
      ensures State() == Drawn(old(State()), s, o)
    {
      trace := trace + [SeriesDrawn(s)];
      if o.setsXCoords {
        s.hasXCoords := true;
      }
      if o.setsYCoords {
        s.hasYCoords := true;
      }
    }

    /** The handler run for a `drawingComplete` during a pass, while the
        series surface does not draw by itself. */
    method NotifyComplete(s: Series)
      requires graphic != null && !graphic.autoDraw && SeriesLayer()
      modifies this`dispatchers, this`trace, this`graphic
      ensures State() == Notify(old(State()), s)
      ensures graphic == old(graphic) && SeriesLayer()
    {
      DrawingCompleteHandler(s);
      AnnouncedAfter(dispatchers, graphic.autoDraw, old(trace), trace);
      NotifiedState(s);
    }

    /** The handler's effect on the drawing state, given what it changed. */
    twostate lemma NotifiedState(s: Series)
      requires unchanged(this`seriesCollection, this`callLater)
      requires unchanged(old(Members())`hasXCoords, old(Members())`hasYCoords)
      requires dispatchers == Completion.Complete(old(dispatchers), s).pending
      requires trace == old(trace) + Announced(dispatchers)
      ensures State() == Notify(old(State()), s)
    {
      CoordsKept();
    }

    /** The loop of `_drawSeries`: draws the series in index order, the
        `i`-th draw taking the `i`-th outcome of the script, and stops right
        after the first one left without both coordinates, setting
        `_callLater`. Returns how many series it drew. */
    method DrawPass(script: seq<DrawOutcome>, fuel: nat) returns (n: nat)
      requires drawing && graphic != null && !graphic.autoDraw && SeriesLayer()
      modifies this`callLater, this`drawing, this`graphic, this`trace, this`dispatchers
      modifies SeriesSurface()`autoDraw, Members()`hasXCoords, Members()`hasYCoords
      ensures (State(), n) == PassFrom(seriesCollection, script, old(State()), 0)
      ensures drawing && graphic == old(graphic) && !graphic.autoDraw && SeriesLayer()
      decreases fuel, 4
    {
      var sc := seriesCollection;
      ghost var st0 := State();
      var i := 0;
      while i < |sc|
        invariant i <= |sc| && seriesCollection == sc
        invariant drawing && graphic == old(graphic) && !graphic.autoDraw && SeriesLayer()
        invariant PassFrom(sc, script, State(), i) == PassFrom(sc, script, st0, 0)
      {
        var stop := DrawStep(i, script, fuel);
        if stop {
          return i + 1;
        }
        i := i + 1;
      }
      return i;
    }

    /** One round of the loop of `_drawSeries`: `sc[i].draw()`, then, when
        the series lacks a coordinate, `_callLater` is set and the loop is
        to stop. */
    method DrawStep(i: nat, script: seq<DrawOutcome>, fuel: nat) returns (stop: bool)
      requires i < |seriesCollection| && drawing && graphic != null && !graphic.autoDraw && SeriesLayer()
      modifies this`callLater, this`drawing, this`graphic, this`trace, this`dispatchers
      modifies SeriesSurface()`autoDraw, Members()`hasXCoords, Members()`hasYCoords
      ensures drawing && graphic == old(graphic) && !graphic.autoDraw && SeriesLayer()
      ensures var s := seriesCollection[i];
        var next := Draw(old(State()), s, OutcomeAt(script, i), Subscriptions(seriesCollection, s));
        && (stop <==> !Ready(next, s))
        && State() == if stop then next.(callLater := true) else next
      decreases fuel, 3
    {
      var s := seriesCollection[i];
      SeriesDraw(s, OutcomeAt(script, i), script, fuel);
      if !s.hasXCoords || !s.hasYCoords {
        callLater := true;
        stop := true;
      } else {
        stop := false;
      }
    }

    /** `_drawSeries`. While the graph is drawing it only sets `_callLater`.
        Otherwise it switches the series surface's `autoDraw` off, clears
        `_callLater`, runs a pass with `_drawing` set, clears `_drawing`,
        and runs again if `_callLater` was set meanwhile, while there is
        fuel left; each run takes its outcomes from where the previous one
        stopped in the script. */
    method DrawSeries(script: seq<DrawOutcome>, fuel: nat)
      requires SeriesLayer()
      modifies this`callLater, this`drawing, this`graphic, this`trace, this`dispatchers
      modifies SeriesSurface()`autoDraw, Members()`hasXCoords, Members()`hasYCoords
      ensures SeriesLayer() && drawing == old(drawing)
      ensures old(drawing) ==> State() == old(State()).(callLater := true) && graphic == old(graphic)
      ensures old(drawing) && graphic != null ==> graphic.autoDraw == old(graphic.autoDraw)
      ensures !old(drawing) ==> State() == Run(seriesCollection, script, old(State()), fuel)
      ensures !old(drawing) ==> graphic != null && !graphic.autoDraw
      ensures !old(drawing) && old(graphic) != null ==> graphic == old(graphic)
      ensures old(Valid()) ==> Valid()
      decreases fuel, if drawing then 0 else 8
    {
      if drawing {
        callLater := true;
        return;
      }
      DrawIdle(script, fuel);
    }

    /** `_drawSeries` while the graph is not drawing, which keeps the class
        invariant. */
    method DrawIdle(script: seq<DrawOutcome>, fuel: nat)
      requires !drawing && SeriesLayer()
      modifies this`callLater, this`drawing, this`graphic, this`trace, this`dispatchers
      modifies SeriesSurface()`autoDraw, Members()`hasXCoords, Members()`hasYCoords
      ensures SeriesLayer() && !drawing
      ensures State() == Run(seriesCollection, script, old(State()), fuel)
      ensures graphic != null && !graphic.autoDraw
      ensures old(graphic) != null ==> graphic == old(graphic)
      ensures old(Valid()) ==> Valid()
      decreases fuel, 7
    {
      DrawRuns(script, fuel);
      if old(Valid()) {
        RunKeepsValid(script, fuel);
      }
    }

    /** The branch of `_drawSeries` taken while the graph is not drawing. */
    method DrawRuns(script: seq<DrawOutcome>, fuel: nat)
      requires !drawing && SeriesLayer()
      modifies this`callLater, this`drawing, this`graphic, this`trace, this`dispatchers
      modifies SeriesSurface()`autoDraw, Members()`hasXCoords, Members()`hasYCoords
      ensures SeriesLayer() && !drawing
      ensures State() == Run(seriesCollection, script, old(State()), fuel)
      ensures graphic != null && !graphic.autoDraw
      ensures old(graphic) != null ==> graphic == old(graphic)
      decreases fuel, 6
    {
      var n := DrawOnce(script, fuel);
      if callLater && fuel > 0 {
        DrawRuns(Drop(script, n), fuel - 1);
      }
    }

    /** One run of `_drawSeries`: the surface's `autoDraw` goes off,
        `_callLater` is cleared, and one pass runs with `_drawing` set. */
    method DrawOnce(script: seq<DrawOutcome>, fuel: nat) returns (n: nat)
      requires !drawing && SeriesLayer()
      modifies this`callLater, this`drawing, this`graphic, this`trace, this`dispatchers
      modifies SeriesSurface()`autoDraw, Members()`hasXCoords, Members()`hasYCoords
      ensures SeriesLayer() && !drawing
      ensures (State(), n) == PassFrom(seriesCollection, script, old(State()).(callLater := false), 0)
      ensures graphic != null && !graphic.autoDraw
      ensures old(graphic) != null ==> graphic == old(graphic)
      ensures old(graphic) == null ==> fresh(graphic)
      decreases fuel, 5
    {
      label start:
      var g := GetGraphic();
      g.autoDraw := false;
      callLater := false;
      drawing := true;
      ClearedState@start();
      n := DrawPass(script, fuel);
      drawing := false;
    }

    /** A run of `_drawSeries` keeps the class invariant: it only takes
        entries off the pending list and touches no other field `Valid`
        looks at but the series surface. */
    twostate lemma RunKeepsValid(new script: seq<DrawOutcome>, new fuel: nat)
      requires old(Valid()) && SeriesLayer()
      requires unchanged(this`parsed, this`seriesCollection, this`seriesDictionary, this`seriesTypes)
      requires unchanged(this`backgroundGraphic, this`background, this`gridlinesGraphic, this`gridlines)
      requires unchanged(old(Members())`graph, old(Members())`graphOrder, old(Members())`order)
      requires State() == Run(seriesCollection, script, old(State()), fuel)
      ensures Valid()
    {
      RunPending(seriesCollection, script, old(State()), fuel);
    }

    /** A step that only took entries off the pending list, and changed no
        other field `Valid` looks at but the series surface, keeping its
        layer, keeps the class invariant. */
    twostate lemma PendingKept()
      requires old(Valid()) && SeriesLayer()
      requires unchanged(this`parsed, this`seriesCollection, this`seriesDictionary, this`seriesTypes)
      requires unchanged(this`backgroundGraphic, this`background, this`gridlinesGraphic, this`gridlines)
      requires unchanged(old(Members())`graph, old(Members())`graphOrder, old(Members())`order)
      requires multiset(dispatchers) <= multiset(old(dispatchers))
      ensures Valid()
    {
    }

    /** A step that changed no field `Valid` looks at keeps it. */
    twostate lemma TraceOnly()
      requires old(Valid())
      requires unchanged(this`parsed, this`seriesCollection, this`seriesDictionary, this`seriesTypes, this`dispatchers)
      requires unchanged(this`backgroundGraphic, this`background, this`gridlinesGraphic, this`gridlines, this`graphic)
      requires unchanged(old(Members())`graph, old(Members())`graphOrder, old(Members())`order)
      ensures Valid()
    {
    }

    /** A step that changed the background fields, keeping their layer, and
        no other field `Valid` looks at keeps the class invariant. */
    twostate lemma BackgroundKept()
      requires old(Valid()) && BackgroundLayer()
      requires unchanged(this`parsed, this`seriesCollection, this`seriesDictionary, this`seriesTypes, this`dispatchers)
      requires unchanged(this`gridlinesGraphic, this`gridlines, this`graphic)
      requires unchanged(old(Members())`graph, old(Members())`graphOrder, old(Members())`order)
      ensures Valid()
    {
    }

    /** Clearing `_callLater` and touching nothing else the drawing state
        looks at. */
    twostate lemma ClearedState()
      requires unchanged(this`seriesCollection, this`dispatchers, this`trace)
      requires unchanged(old(Members())`hasXCoords, old(Members())`hasYCoords)
      requires !callLater
      ensures State() == old(State()).(callLater := false)
    {
      CoordsKept();
    }

    /** A step that leaves the collection and every member's coordinates
        alone changes the drawing state in its other parts only. */
    twostate lemma CoordsKept()
      requires unchanged(this`seriesCollection)
      requires unchanged(old(Members())`hasXCoords, old(Members())`hasYCoords)
      ensures State() == old(State()).(pending := dispatchers, effects := trace, callLater := callLater)
    {
      assert WithX() == old(WithX());
      assert WithY() == old(WithY());
    }

    // ---------------------------------------------------------------
    // Size and style changes, first render

    /** `_sizeChangeHandler`: resizes the background (created if shown),
        clears the gridlines shape and redraws the gridlines (see
        `SizePrelude`), then requests a drawing pass with `_drawSeries`. */
    method SizeChangeHandler(script: seq<DrawOutcome>, fuel: nat)
      requires BackgroundLayer() && SeriesLayer()
      modifies this`backgroundGraphic, this`background, this`trace
      modifies this`callLater, this`drawing, this`graphic, this`dispatchers
      modifies SeriesSurface()`autoDraw, Members()`hasXCoords, Members()`hasYCoords
      ensures BackgroundLayer() && SeriesLayer() && drawing == old(drawing)
      ensures old(Valid()) ==> Valid()
      ensures showBackground ==> background != null
      ensures old(background) != null || !showBackground ==> background == old(background)
      ensures var st := old(State()).(effects := old(trace) + SizePrelude(showBackground, width, height,
                          old(gridlines) != null, horizontalGridlines, verticalGridlines));
              State() == if old(drawing) then st.(callLater := true) else Run(seriesCollection, script, st, fuel)
    {
      label start:
      ResizeBackdrop();
      CoordsKept@start();
      DrawSeries(script, fuel);
    }

    /** The part of `_sizeChangeHandler` before `_drawSeries`. */
    method ResizeBackdrop()
      requires BackgroundLayer()
      modifies this`backgroundGraphic, this`background, this`trace
      ensures BackgroundLayer() && (old(Valid()) ==> Valid())
      ensures showBackground ==> background != null
      ensures old(background) != null || !showBackground ==> background == old(background)
      ensures trace == old(trace) + SizePrelude(showBackground, width, height, gridlines != null,
                                                horizontalGridlines, verticalGridlines)
    {
      label start:
      ghost var t0 := trace;
      ResizeBackground();
      ghost var resize := if showBackground && width != 0 && height != 0 then [BackgroundResized(width, height)] else [];
      ghost var clear := if gridlines != null then [GridlinesCleared] else [];
      ghost var draws := GridDraws(horizontalGridlines, verticalGridlines);
      RedrawGridlines();
      Assoc(t0, resize + clear, draws);
      Assoc(t0, resize, clear);
      if old(Valid()) {
        BackgroundKept@start();
      }
    }

    /** The gridlines part of `_sizeChangeHandler`: the gridlines shape is
        cleared when it exists, then the gridlines are drawn. */
    method RedrawGridlines()
      modifies this`trace
      ensures trace == old(trace) + (if gridlines != null then [GridlinesCleared] else [])
                       + GridDraws(horizontalGridlines, verticalGridlines)
    {
      if gridlines != null {
        trace := trace + [GridlinesCleared];
      }
      DrawGridlines();
    }

    /** The background part of `_sizeChangeHandler`: the shape is fetched
        (so created) when the background is shown, and resized when both
        sizes are truthy. */
    method ResizeBackground()
      requires BackgroundLayer()
      modifies this`backgroundGraphic, this`background, this`trace
      ensures BackgroundLayer()
      ensures showBackground ==> background != null
      ensures old(background) != null || !showBackground ==> background == old(background)
      ensures trace == old(trace) + if showBackground && width != 0 && height != 0
                                     then [BackgroundResized(width, height)] else []
    {
      if showBackground {
        var b := GetBackground();
        if width != 0 && height != 0 {
          trace := trace + [BackgroundResized(width, height)];
        }
      }
    }

    /** `hgl.draw()` then `vgl.draw()`, each when set. */
    method DrawGridlines()
      modifies this`trace
      ensures trace == old(trace) + GridDraws(horizontalGridlines, verticalGridlines)
    {
      if horizontalGridlines != null {
        trace := trace + [GridlinesDrawn(horizontalGridlines)];
      }
      if verticalGridlines != null {
        trace := trace + [GridlinesDrawn(verticalGridlines)];
      }
    }

    /** `_updateStyles`: hands the background styles to the background shape
        (creating it even when the background is not shown), then runs
        `_sizeChangeHandler`. */
    method UpdateStyles(script: seq<DrawOutcome>, fuel: nat)
      requires BackgroundLayer() && SeriesLayer()
      modifies this`backgroundGraphic, this`background, this`trace
      modifies this`callLater, this`drawing, this`graphic, this`dispatchers
      modifies SeriesSurface()`autoDraw, Members()`hasXCoords, Members()`hasYCoords
      ensures BackgroundLayer() && SeriesLayer() && drawing == old(drawing) && background != null
      ensures old(Valid()) ==> Valid()
      ensures old(background) != null ==> background == old(background)
      ensures var st := old(State()).(effects := old(trace) + [BackgroundStyled(styles, None)]
                          + SizePrelude(showBackground, width, height, old(gridlines) != null,
                                        horizontalGridlines, verticalGridlines));
              State() == if old(drawing) then st.(callLater := true) else Run(seriesCollection, script, st, fuel)
    {
      label start:
      StyleBackground();
      CoordsKept@start();
      SizeChangeHandler(script, fuel);
    }

    /** The first part of `_updateStyles`: the background shape, created if
        missing, is given the background styles. */
    method StyleBackground()
      requires BackgroundLayer()
      modifies this`backgroundGraphic, this`background, this`trace
      ensures BackgroundLayer() && background != null && (old(Valid()) ==> Valid())
      ensures old(background) != null ==> background == old(background)
      ensures trace == old(trace) + [BackgroundStyled(styles, None)]
    {
      var b := GetBackground();
      trace := trace + [BackgroundStyled(styles, None)];
      if old(Valid()) {
        BackgroundKept();
      }
    }

    /** `syncUI`: styles and sizes the background when it is shown, renders
        every Cartesian series of the collection in order, then draws the
        gridlines. */
    method SyncUI()
      requires BackgroundLayer()
      modifies this`backgroundGraphic, this`background, this`trace
      ensures BackgroundLayer()
      ensures showBackground ==> background != null
      ensures old(background) != null || !showBackground ==> background == old(background)
      ensures old(Valid()) ==> Valid()
      ensures trace == old(trace)
                       + (if showBackground then [BackgroundStyled(styles, Some(Size(width, height)))] else [])
                       + Renders(seriesCollection, pieIsCartesian)
                       + GridDraws(horizontalGridlines, verticalGridlines)
    {
      SyncBackground();
      label styled:
      RenderSeries();
      DrawGridlines();
      if old(Valid()) {
        TraceOnly@styled();
      }
    }

    /** The first part of `syncUI`: when the background is shown, its shape,
        created if missing, is given the styles and the graph's size. */
    method SyncBackground()
      requires BackgroundLayer()
      modifies this`backgroundGraphic, this`background, this`trace
      ensures BackgroundLayer() && (old(Valid()) ==> Valid())
      ensures showBackground ==> background != null
      ensures old(background) != null || !showBackground ==> background == old(background)
      ensures trace == old(trace) + (if showBackground then [BackgroundStyled(styles, Some(Size(width, height)))] else [])
    {
      if showBackground {
        var b := GetBackground();
        trace := trace + [BackgroundStyled(styles, Some(Size(width, height)))];
      }
      if old(Valid()) {
        BackgroundKept();
      }
    }

    /** The loop of `syncUI`: `render()` on each `CartesianSeries` of the
        collection, in index order. */
    method RenderSeries()
      modifies this`trace
      ensures trace == old(trace) + Renders(seriesCollection, pieIsCartesian)
    {
      var sc := seriesCollection;
      var i := 0;
      while i < |sc|
        invariant i <= |sc|
        invariant trace == old(trace) + Renders(sc[..i], pieIsCartesian)
      {
        assert sc[..i + 1][..i] == sc[..i];
        if IsCartesian(sc[i], pieIsCartesian) {
          trace := trace + [SeriesRendered(sc[i])];
        }
        i := i + 1;
      }
      assert sc[..i] == sc;
    }

    // ---------------------------------------------------------------
    // Gridlines attributes

    /** The `horizontalGridlines` setter. */
    method SetHorizontalGridlines(val: GridlinesValue)
      modifies this`horizontalGridlines, this`trace, Adoptee(val)`graph
      ensures trace == old(trace) + Removal(old(horizontalGridlines))
      ensures GridlinesSet(horizontalGridlines, val, "horizontal")
      ensures val.FromAxis? ==> fresh(horizontalGridlines)
    {
      horizontalGridlines := GridlinesSetter(horizontalGridlines, val, "horizontal");
    }

    /** The `verticalGridlines` setter. */
    method SetVerticalGridlines(val: GridlinesValue)
      modifies this`verticalGridlines, this`trace, Adoptee(val)`graph
      ensures trace == old(trace) + Removal(old(verticalGridlines))
      ensures GridlinesSet(verticalGridlines, val, "vertical")
      ensures val.FromAxis? ==> fresh(verticalGridlines)
    {
      verticalGridlines := GridlinesSetter(verticalGridlines, val, "vertical");
    }

    /** What either gridlines attribute holds after its setter got `val`:
        the given instance, now pointing at this graph; a new instance of
        the setter's direction built from the axis and styles; or nothing. */
    ghost predicate GridlinesSet(g: Gridlines?, val: GridlinesValue, direction: string)
      reads if g != null then {g} else {}
    {
      match val
      case Adopt(given) => g == given && g.graph == this
      case FromAxis(axis, st) =>
        g != null && g.direction == direction && g.axis == axis && g.styles == st && g.graph == this
      case NoGridlines => g == null
    }

    /** The body both gridlines setters share: the current instance is
        removed, then `val` is adopted, built from, or dropped. */
    method GridlinesSetter(current: Gridlines?, val: GridlinesValue, direction: string) returns (g: Gridlines?)
      modifies this`trace, Adoptee(val)`graph
      ensures trace == old(trace) + Removal(current)
      ensures GridlinesSet(g, val, direction)
      ensures val.FromAxis? ==> fresh(g)
    {
      if current != null {
        trace := trace + [GridlinesRemoved(current)];
      }
      match val
      case Adopt(given) =>
        given.graph := this;
        g := given;
      case FromAxis(axis, st) =>
        g := new Gridlines(direction, axis, this, st);
      case NoGridlines =>
        g := null;
    }

    /** `getSeriesByIndex`: the series at position `val`, if any. */
    function GetSeriesByIndex(val: int): (r: Option<Series>)
      reads this`seriesCollection
      ensures r.Some? <==> 0 <= val < |seriesCollection|
      ensures r.Some? ==> r.value == seriesCollection[val]
    {
      if |seriesCollection| > val && val >= 0 then Some(seriesCollection[val]) else None
    }

    /** Every series is found again under its `graphOrder` stamp. */
    lemma SeriesAtGraphOrder(x: Series)
      requires Registered() && x in seriesCollection
      ensures GetSeriesByIndex(x.graphOrder) == Some(x)
    {
      var n := LastIndexOf(seriesCollection, x);
      assert StampedAt(seriesCollection, n);
    }

    /** `getSeriesByKey`: the dictionary entry for `val`, if any. */
    function GetSeriesByKey(val: string): (r: Option<Series>)
      reads this`seriesDictionary
      ensures r.Some? <==> val in seriesDictionary
      ensures r.Some? ==> r.value == seriesDictionary[val]
    {
      if val in seriesDictionary then Some(seriesDictionary[val]) else None
    }

    /** A key finds the last series in the collection indexed under it,
        and nothing when no series has that key. */
    lemma SeriesByKeyIsLast(k: string)
      requires Indexed()
      ensures GetSeriesByKey(k).Some? <==> k in KeySet(seriesCollection)
      ensures GetSeriesByKey(k).Some? ==>
                GetSeriesByKey(k).value == seriesCollection[LastKeyIndex(seriesCollection, k)]
    {
      KeyIndexLookup(map[], seriesCollection, k);
    }
  }
}
