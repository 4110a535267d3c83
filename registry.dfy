/** The indexes `Graph` keeps over its series collection, defined on values:
    the per-type buckets of `seriesTypes`, the key dictionary
    `_seriesDictionary`, and the `graphOrder`/`order` stamps. */
module Registry {

  import opened Wrappers
  import opened SeriesFactory
  import opened ChartObjects

  /** The series of type `t`, in collection order. */
  function OfType(ss: seq<Series>, t: string): (r: seq<Series>)
    ensures |r| <= |ss|
    ensures forall x :: x in r ==> x in ss && x.seriesType == t
    ensures forall x :: x in ss && x.seriesType == t ==> x in r
    decreases |ss|
  {
    if |ss| == 0 then []
    else
      var last := ss[|ss| - 1];
      OfType(ss[..|ss| - 1], t) + (if last.seriesType == t then [last] else [])
  }

  /** The type names present in a collection. */
  function TypeSet(ss: seq<Series>): set<string>
  {
    set x | x in ss :: x.seriesType
  }

  /** The bucket of type `t` in a type index, empty when there is none. */
  function Bucket(m: map<string, seq<Series>>, t: string): seq<Series>
  {
    if t in m then m[t] else []
  }

  /** `seriesTypes` as `_addSeries` and `_createSeries` build it: each
      insertion creates its type's bucket when missing, then pushes onto it. */
  function TypeIndex(ss: seq<Series>): map<string, seq<Series>>
    decreases |ss|
  {
    if |ss| == 0 then map[]
    else
      var m := TypeIndex(ss[..|ss| - 1]);
      var last := ss[|ss| - 1];
      m[last.seriesType := Bucket(m, last.seriesType) + [last]]
  }

  /** Appending a series extends only the bucket of its own type. */
  lemma OfTypeAppend(ss: seq<Series>, s: Series, u: string)
    ensures OfType(ss + [s], u) == OfType(ss, u) + (if s.seriesType == u then [s] else [])
  {
    assert (ss + [s])[..|ss|] == ss;
  }

  /** The incrementally built index agrees with the reference definition:
      it has a bucket exactly for the types present, and each bucket lists
      the series of its type in collection order. */
  lemma {:induction false} TypeIndexLookup(ss: seq<Series>, t: string)
    ensures t in TypeIndex(ss) <==> t in TypeSet(ss)
    ensures Bucket(TypeIndex(ss), t) == OfType(ss, t)
    decreases |ss|
  {
    if |ss| > 0 {
      var n := |ss| - 1;
      TypeIndexLookup(ss[..n], t);
      assert ss == ss[..n] + [ss[n]];
      OfTypeAppend(ss[..n], ss[n], t);
      assert TypeSet(ss) == TypeSet(ss[..n]) + {ss[n].seriesType};
    }
  }

  /** `types` indexes the collection by type: each bucket lists the
      series of its type in collection order, and only the types present
      have a bucket. */
  ghost predicate Indexes(types: map<string, seq<Series>>, ss: seq<Series>)
  {
    && (forall t :: Bucket(types, t) == OfType(ss, t))
    && (forall t :: t in types ==> types[t] != [])
  }

  /** That is exactly the index `_addSeries` and `_createSeries` build. */
  lemma IndexesIsTypeIndex(types: map<string, seq<Series>>, ss: seq<Series>)
    ensures Indexes(types, ss) <==> types == TypeIndex(ss)
  {
    var m := TypeIndex(ss);
    forall t ensures Bucket(m, t) == OfType(ss, t) && (t in m <==> t in TypeSet(ss)) {
      TypeIndexLookup(ss, t);
    }
    forall t | t in TypeSet(ss) ensures OfType(ss, t) != [] {
      var x :| x in ss && x.seriesType == t;
      assert x in OfType(ss, t);
    }
    if Indexes(types, ss) {
      forall t ensures t in types <==> t in m {
        if t in types {
          var x := types[t][0];
          assert x in OfType(ss, t);
        }
      }
      assert types == m;
    }
  }

  /** Position `n` holds the last occurrence of its series. */
  ghost predicate LastAt(ss: seq<Series>, n: nat)
    requires n < |ss|
  {
    forall j :: n < j < |ss| ==> ss[j] != ss[n]
  }

  /** The insertion stamps: a series' `graphOrder` is the position of its
      latest insertion into the collection, and its `order` is the number
      of series of its type inserted before it. */
  ghost predicate Stamped(ss: seq<Series>)
    reads (set x | x in ss)`graphOrder, (set x | x in ss)`order
  {
    forall n :: 0 <= n < |ss| && LastAt(ss, n) ==> StampedAt(ss, n)
  }

  /** The position of the last occurrence of `x`. */
  function LastIndexOf(ss: seq<Series>, x: Series): (n: nat)
    requires x in ss
    ensures n < |ss| && ss[n] == x && LastAt(ss, n)
    decreases |ss|
  {
    if ss[|ss| - 1] == x then |ss| - 1
    else
      var init := ss[..|ss| - 1];
      assert x in init by { assert ss == init + [ss[|ss| - 1]]; }
      LastIndexOf(init, x)
  }

  /** The series at position `n` carries the stamps of that position. */
  ghost predicate StampedAt(ss: seq<Series>, n: nat)
    requires n < |ss|
    reads {ss[n]}`graphOrder, {ss[n]}`order
  {
    ss[n].graphOrder == n && ss[n].order == |OfType(ss[..n], ss[n].seriesType)|
  }

  /** Appending `s` keeps the stamps of the other series and gives `s`
      those of its new, last position. */
  lemma StampedAppend(c0: seq<Series>, s: Series)
    requires forall n :: 0 <= n < |c0| && LastAt(c0, n) && c0[n] != s ==> StampedAt(c0, n)
    requires s.graphOrder == |c0| && s.order == |OfType(c0, s.seriesType)|
    ensures Stamped(c0 + [s])
  {
    var c1 := c0 + [s];
    forall n | 0 <= n < |c1| && LastAt(c1, n)
      ensures StampedAt(c1, n)
    {
      if n < |c0| {
        StampedPrefix(c0, s, n);
      } else {
        assert c1[..n] == c0;
      }
    }
  }

  lemma StampedPrefix(c0: seq<Series>, s: Series, n: nat)
    requires n < |c0| && LastAt(c0 + [s], n)
    requires LastAt(c0, n) && c0[n] != s ==> StampedAt(c0, n)
    ensures StampedAt(c0 + [s], n)
  {
    var c1 := c0 + [s];
    assert c1[|c0|] == s;
    assert c0[n] != s;
    assert LastAt(c0, n) by {
      forall j | n < j < |c0| ensures c0[j] != c0[n] {
        assert c1[j] == c0[j];
      }
    }
    assert c1[..n] == c0[..n];
  }

  /** What the graph keeps beside a collection `sc`: each type bucket
      lists the collection's series of that type in insertion order; every
      series carries the stamps of its latest insertion and has a graph;
      the pending list only holds series of the collection. */
  ghost predicate Consistent(sc: seq<Series>, types: map<string, seq<Series>>, pending: seq<Series>)
    reads (set x | x in sc)`graph, (set x | x in sc)`graphOrder, (set x | x in sc)`order
  {
    && Indexes(types, sc)
    && Stamped(sc)
    && (forall x :: x in sc ==> x.graph != null)
    && multiset(pending) <= multiset(sc)
  }

  /** The events `_parseSeriesCollection` fires: one `seriesAdded` per
      instance entry, in input order; descriptors fire none. */
  function AddedEvents(es: seq<Entry>): (r: seq<Effect>)
    ensures |r| <= |es|
    ensures forall e :: e in r ==> e.SeriesAdded? && Instance(e.added) in es
    decreases |es|
  {
    if |es| == 0 then []
    else
      var last := es[|es| - 1];
      AddedEvents(es[..|es| - 1]) + AddedEvent(last)
  }

  /** The event an entry fires. */
  function AddedEvent(e: Entry): seq<Effect>
  {
    if e.Instance? then [SeriesAdded(e.series)] else []
  }

  lemma AddedEventsSnoc(es: seq<Entry>, i: nat)
    requires i < |es|
    ensures AddedEvents(es[..i + 1]) == AddedEvents(es[..i]) + AddedEvent(es[i])
  {
    assert es[..i + 1][..i] == es[..i];
  }

  /** A series built by `_createSeries` from `config`: class from the
      factory, type and keys from the config. */
  predicate BuiltFrom(s: Series, config: SeriesConfig)
  {
    && s.cls == ClassFor(config.seriesType)
    && s.seriesType == config.seriesType
    && s.direction == config.direction
    && s.xKey == config.xKey
    && s.yKey == config.yKey
  }

  /** The keys of a collection. */
  function KeySet(ss: seq<Series>): set<string>
  {
    set x | x in ss :: KeyOf(x)
  }

  /** The last position of a series with key `k`, or -1. */
  function LastKeyIndex(ss: seq<Series>, k: string): (i: int)
    ensures -1 <= i < |ss|
    ensures i == -1 <==> k !in KeySet(ss)
    ensures 0 <= i ==> KeyOf(ss[i]) == k
    ensures forall j :: i < j < |ss| ==> KeyOf(ss[j]) != k
    decreases |ss|
  {
    if |ss| == 0 then -1
    else if KeyOf(ss[|ss| - 1]) == k then |ss| - 1
    else
      LastKeyIndex(ss[..|ss| - 1], k)
  }

  /** The second loop of `_parseSeriesCollection`: every series of the
      collection, in order, writes itself under its key into `d`. */
  function KeyIndex(d: map<string, Series>, ss: seq<Series>): map<string, Series>
    decreases |ss|
  {
    if |ss| == 0 then d
    else
      var last := ss[|ss| - 1];
      KeyIndex(d, ss[..|ss| - 1])[KeyOf(last) := last]
  }

  /** Last write wins: after the loop a key names the last series of the
      collection carrying it; a key no series carries keeps its old entry. */
  lemma {:induction false} KeyIndexLookup(d: map<string, Series>, ss: seq<Series>, k: string)
    ensures k in KeyIndex(d, ss) <==> k in d || k in KeySet(ss)
    ensures k in KeySet(ss) ==> KeyIndex(d, ss)[k] == ss[LastKeyIndex(ss, k)]
    ensures k !in KeySet(ss) && k in d ==> KeyIndex(d, ss)[k] == d[k]
    decreases |ss|
  {
    if |ss| > 0 {
      var init := ss[..|ss| - 1];
      KeyIndexLookup(d, init, k);
      assert KeySet(ss) == KeySet(init) + {KeyOf(ss[|ss| - 1])} by {
        assert ss == init + [ss[|ss| - 1]];
      }
      if KeyOf(ss[|ss| - 1]) != k && k in KeySet(init) {
        assert LastKeyIndex(ss, k) == LastKeyIndex(init, k);
      }
    }
  }

  /** Rebuilding over a collection that only grew gives the same dictionary
      as building it afresh: keys of the earlier series are all still
      carried, so nothing stale survives and nothing is deleted. */
  lemma KeyIndexRebuild(c0: seq<Series>, c1: seq<Series>)
    ensures KeyIndex(KeyIndex(map[], c0), c0 + c1) == KeyIndex(map[], c0 + c1)
    ensures KeyIndex(map[], c0).Keys <= KeyIndex(map[], c0 + c1).Keys
  {
    var d0 := KeyIndex(map[], c0);
    var a := KeyIndex(d0, c0 + c1);
    var b := KeyIndex(map[], c0 + c1);
    assert KeySet(c0) <= KeySet(c0 + c1) by {
      forall k | k in KeySet(c0) ensures k in KeySet(c0 + c1) {
        var x :| x in c0 && KeyOf(x) == k;
        assert x in c0 + c1;
      }
    }
    forall k
      ensures k in a <==> k in b
      ensures k in a ==> a[k] == b[k]
    {
      KeyIndexLookup(d0, c0 + c1, k);
      KeyIndexLookup(map[], c0 + c1, k);
      KeyIndexLookup(map[], c0, k);
    }
    forall k | k in d0 ensures k in b {
      KeyIndexLookup(map[], c0, k);
      KeyIndexLookup(map[], c0 + c1, k);
    }
  }

  /** Rebuilding the dictionary of a collection after it grew, as
      `_parseSeriesCollection` does, gives the dictionary of the grown
      collection, and keeps every key. */
  lemma RebuiltIndex(c0: seq<Series>, sc: seq<Series>)
    requires |c0| <= |sc| && sc[..|c0|] == c0
    ensures KeyIndex(KeyIndex(map[], c0), sc) == KeyIndex(map[], sc)
    ensures KeyIndex(map[], c0).Keys <= KeyIndex(map[], sc).Keys
  {
    assert sc == c0 + sc[|c0|..];
    KeyIndexRebuild(c0, sc[|c0|..]);
  }

  /** With pairwise distinct keys, the dictionary has one entry per series. */
  lemma {:induction false} DistinctKeysSize(ss: seq<Series>)
    requires forall i, j :: 0 <= i < j < |ss| ==> KeyOf(ss[i]) != KeyOf(ss[j])
    ensures |KeyIndex(map[], ss)| == |ss|
    decreases |ss|
  {
    if |ss| > 0 {
      var init := ss[..|ss| - 1];
      var last := ss[|ss| - 1];
      DistinctKeysSize(init);
      KeyIndexLookup(map[], init, KeyOf(last));
    }
  }

  /** A vertical series keyed "x" followed by a horizontal one keyed "y2"
      give the dictionary {"x": first, "y2": second}. */
  lemma KeyIndexExample(line: Series, bar: Series)
    requires line.direction == "vertical" && line.xKey == "x"
    requires bar.direction == "horizontal" && bar.yKey == "y2"
    ensures KeyIndex(map[], [line, bar]) == map["x" := line, "y2" := bar]
  {
    assert [line, bar][..1] == [line];
    assert [line][..0] == [];
    assert KeyOf(line) == "x" && KeyOf(bar) == "y2";
    assert KeyIndex(map[], [line]) == map["x" := line];
  }
}
