/**
 * Keeping a MicroSplat texture array configuration in step with the terrain
 * layers MicroVerse's texture stamps ask for: new layers are added to the
 * configuration, entries for layers no longer asked for are dropped, the
 * rest are sorted by layer name and their per-texture property rows move
 * with them. The inspector's in-sync test is modelled as well. MicroSplat's
 * own AddTerrainLayer and CompileConfig are foreign code (see README).
 */
module MicroSplatSync {
  import opened Engine
  import opened Wrappers
  import opened Sequences
  import opened MicroVerseMain

  /** TextureArrayConfig.TextureEntry: one slot of the texture array, for one terrain layer. */
  class TextureEntry {
    const terrainLayer: TerrainLayer?

    constructor (terrainLayer: TerrainLayer?)
      ensures this.terrainLayer == terrainLayer
    {
      this.terrainLayer := terrainLayer;
    }
  }

  /** One row of the property texture: the attribute colours of one texture slot. */
  type Row = seq<Vec4>

  /** MicroSplatPropData: rows by texture index; a row never written reads as empty. */
  class PropData {
    var rows: map<int, Row>

    constructor ()
      ensures rows == map[]
    {
      rows := map[];
    }
  }

  function RowOf(rows: map<int, Row>, i: int): Row
  {
    if i in rows then rows[i] else []
  }

  /**
   * TextureArrayConfig: the three entry lists (the second and third may be
   * absent) and the layers handed to AddTerrainLayer, in call order.
   */
  class TextureArrayConfig {
    var sourceTextures: seq<TextureEntry>
    var sourceTextures2: Option<seq<TextureEntry>>
    var sourceTextures3: Option<seq<TextureEntry>>
    var addedLayers: seq<TerrainLayer>

    constructor (st: seq<TextureEntry>, st2: Option<seq<TextureEntry>>, st3: Option<seq<TextureEntry>>)
      ensures sourceTextures == st && sourceTextures2 == st2 && sourceTextures3 == st3 && addedLayers == []
    {
      sourceTextures := st;
      sourceTextures2 := st2;
      sourceTextures3 := st3;
      addedLayers := [];
    }

    /** AddTerrainLayer (MicroSplat code): modelled as appending one new entry for the layer. */
    method AddTerrainLayer(l: TerrainLayer)
      modifies this
      ensures |sourceTextures| == |old(sourceTextures)| + 1 && sourceTextures[..|old(sourceTextures)|] == old(sourceTextures)
      ensures fresh(sourceTextures[|old(sourceTextures)|]) && sourceTextures[|old(sourceTextures)|].terrainLayer == l
      ensures addedLayers == old(addedLayers) + [l]
      ensures sourceTextures2 == old(sourceTextures2) && sourceTextures3 == old(sourceTextures3)
    {
      var e := new TextureEntry(l);
      sourceTextures := sourceTextures + [e];
      addedLayers := addedLayers + [l];
    }
  }

  /** The layers of a list of entries, slot by slot. */
  function EntryLayers(st: seq<TextureEntry>): (r: seq<TerrainLayer?>)
    ensures |r| == |st| && forall i :: 0 <= i < |st| ==> r[i] == st[i].terrainLayer
  {
    if st == [] then [] else EntryLayers(st[..|st| - 1]) + [st[|st| - 1].terrainLayer]
  }

  /** IsInConfig: some entry of the configuration is for the layer. */
  method IsInConfig(config: TextureArrayConfig, l: TerrainLayer) returns (r: bool)
    ensures r <==> l in EntryLayers(config.sourceTextures)
  {
    var st := config.sourceTextures;
    var i := 0;
    while i < |st|
      invariant 0 <= i <= |st|
      invariant forall k :: 0 <= k < i ==> st[k].terrainLayer != l
    {
      if st[i].terrainLayer == l {
        return true;
      }
      i := i + 1;
    }
    return false;
  }

  // ---------------------------------------------------------------------
  // Adding the missing layers

  /**
   * The layers handed to AddTerrainLayer: each layer of mv that neither the
   * known slots nor an earlier addition hold.
   */
  function NewLayers(known: seq<TerrainLayer?>, mv: seq<TerrainLayer>): seq<TerrainLayer>
  {
    if mv == [] then []
    else
      var p := NewLayers(known, mv[..|mv| - 1]);
      var l := mv[|mv| - 1];
      if l in known || l in p then p else p + [l]
  }

  /**
   * Every layer of mv ends up in the configuration; each addition is a
   * layer of mv the configuration did not hold, and none is added twice.
   */
  lemma {:induction false} NewLayersProperties(known: seq<TerrainLayer?>, mv: seq<TerrainLayer>)
    ensures var n := NewLayers(known, mv);
      NoDuplicates(n) &&
      (forall i :: 0 <= i < |n| ==> n[i] in mv && n[i] !in known) &&
      (forall i :: 0 <= i < |mv| ==> mv[i] in known || mv[i] in n)
  {
    if mv != [] {
      var m := mv[..|mv| - 1];
      NewLayersProperties(known, m);
      assert mv == m + [mv[|mv| - 1]];
      forall i | 0 <= i < |mv| ensures mv[i] in known || mv[i] in NewLayers(known, mv) {
        if i < |m| {
          assert mv[i] == m[i];
        }
      }
    }
  }

  /** For a duplicate-free mv the additions are exactly the unknown layers, in mv's order. */
  lemma {:induction false} NewLayersOfDistinct(known: seq<TerrainLayer?>, mv: seq<TerrainLayer>)
    requires NoDuplicates(mv)
    ensures NewLayers(known, mv) == Filter(mv, (l: TerrainLayer) => l !in known)
  {
    if mv != [] {
      var m := mv[..|mv| - 1];
      assert NoDuplicates(m) by {
        forall i, j | 0 <= i < j < |m| ensures m[i] != m[j] {
          assert m[i] == mv[i] && m[j] == mv[j];
        }
      }
      NewLayersOfDistinct(known, m);
      NewLayersProperties(known, m);
      var l := mv[|mv| - 1];
      assert l !in m;
      assert l !in NewLayers(known, m);
    }
  }

  /** One step of NewLayers: the next layer is added exactly when neither the known slots nor the additions so far hold it. */
  lemma NewLayersStep(known: seq<TerrainLayer?>, mv: seq<TerrainLayer>, i: nat)
    requires i < |mv|
    ensures var p := NewLayers(known, mv[..i]);
      NewLayers(known, mv[..i + 1]) == if mv[i] in known + p then p else p + [mv[i]]
  {
    assert mv[..i + 1][..i] == mv[..i];
  }

  lemma AppendStep<T>(pre: seq<T>, p: seq<T>, add: bool, l: T)
    ensures (pre + p) + (if add then [l] else []) == pre + (if add then p + [l] else p)
  {
  }

  lemma EntryLayersSnoc(a: seq<TextureEntry>, e: TextureEntry)
    ensures EntryLayers(a + [e]) == EntryLayers(a) + [e.terrainLayer]
  {
    assert (a + [e])[..|a|] == a;
  }

  /** The body of the first loop: AddTerrainLayer when IsInConfig says the layer is missing. */
  method AddIfMissing(config: TextureArrayConfig, l: TerrainLayer)
    modifies config
    ensures var missing := l !in EntryLayers(old(config.sourceTextures));
      && EntryLayers(config.sourceTextures) == EntryLayers(old(config.sourceTextures)) + (if missing then [l] else [])
      && config.addedLayers == old(config.addedLayers) + (if missing then [l] else [])
    ensures |config.sourceTextures| >= |old(config.sourceTextures)|
    ensures config.sourceTextures[..|old(config.sourceTextures)|] == old(config.sourceTextures)
    ensures |config.sourceTextures| > |old(config.sourceTextures)| ==> fresh(config.sourceTextures[|old(config.sourceTextures)|])
    ensures config.sourceTextures2 == old(config.sourceTextures2) && config.sourceTextures3 == old(config.sourceTextures3)
  {
    var present := IsInConfig(config, l);
    if !present {
      ghost var before := config.sourceTextures;
      config.AddTerrainLayer(l);
      assert config.sourceTextures == before + [config.sourceTextures[|before|]];
      EntryLayersSnoc(before, config.sourceTextures[|before|]);
    }
  }

  /** The first loop of MatchAndSortTerrainLayers: AddTerrainLayer for every layer not yet in the configuration. */
  method AddMissingLayers(config: TextureArrayConfig, mv: seq<TerrainLayer>)
    modifies config
    ensures EntryLayers(config.sourceTextures) ==
      EntryLayers(old(config.sourceTextures)) + NewLayers(EntryLayers(old(config.sourceTextures)), mv)
    ensures config.addedLayers == old(config.addedLayers) + NewLayers(EntryLayers(old(config.sourceTextures)), mv)
    ensures config.sourceTextures2 == old(config.sourceTextures2) && config.sourceTextures3 == old(config.sourceTextures3)
  {
    ghost var st0 := config.sourceTextures;
    ghost var known := EntryLayers(st0);
    var i := 0;
    while i < |mv|
      invariant 0 <= i <= |mv|
      invariant EntryLayers(config.sourceTextures) == known + NewLayers(known, mv[..i])
      invariant config.addedLayers == old(config.addedLayers) + NewLayers(known, mv[..i])
      invariant config.sourceTextures2 == old(config.sourceTextures2) && config.sourceTextures3 == old(config.sourceTextures3)
    {
      ghost var p := NewLayers(known, mv[..i]);
      ghost var missing := mv[i] !in known + p;
      NewLayersStep(known, mv, i);
      AddIfMissing(config, mv[i]);
      AppendStep(known, p, missing, mv[i]);
      AppendStep(old(config.addedLayers), p, missing, mv[i]);
      i := i + 1;
    }
    assert mv[..i] == mv;
  }

  // ---------------------------------------------------------------------
  // Sorting the configuration

  /** LayerSort: an entry kept for sorting, with what was read at its old slot. */
  datatype LayerSort = LayerSort(
    terrainLayer: TerrainLayer?,
    propDataValues: Option<Row>,
    source: TextureEntry,
    source2: Option<TextureEntry>,
    source3: Option<TextureEntry>)

  /** What the sort loop records for slot k: the prop row only with prop data, the secondary entries only where they exist. */
  function SlotRecord(st: seq<TextureEntry>, st2: Option<seq<TextureEntry>>, st3: Option<seq<TextureEntry>>,
                      rows: Option<map<int, Row>>, k: nat): LayerSort
    requires k < |st|
  {
    LayerSort(
      st[k].terrainLayer,
      if rows.Some? then Some(RowOf(rows.value, k)) else None,
      st[k],
      if st2.Some? && k < |st2.value| then Some(st2.value[k]) else None,
      if st3.Some? && k < |st3.value| then Some(st3.value[k]) else None)
  }

  /** The records of the first n slots whose layer mv holds, in slot order. */
  function Records(st: seq<TextureEntry>, st2: Option<seq<TextureEntry>>, st3: Option<seq<TextureEntry>>,
                   rows: Option<map<int, Row>>, mv: seq<TerrainLayer>, n: nat): seq<LayerSort>
    requires n <= |st|
  {
    if n == 0 then []
    else
      var prev := Records(st, st2, st3, rows, mv, n - 1);
      if st[n - 1].terrainLayer in mv then prev + [SlotRecord(st, st2, st3, rows, n - 1)] else prev
  }

  /** x is the record of some slot whose layer mv holds. */
  ghost predicate IsSlotRecord(st: seq<TextureEntry>, st2: Option<seq<TextureEntry>>, st3: Option<seq<TextureEntry>>,
                               rows: Option<map<int, Row>>, mv: seq<TerrainLayer>, x: LayerSort)
  {
    exists k :: 0 <= k < |st| && st[k].terrainLayer in mv && x == SlotRecord(st, st2, st3, rows, k)
  }

  /** The records are exactly those of the slots whose layer mv holds. */
  lemma {:induction false} RecordsProperties(st: seq<TextureEntry>, st2: Option<seq<TextureEntry>>, st3: Option<seq<TextureEntry>>,
                                             rows: Option<map<int, Row>>, mv: seq<TerrainLayer>, n: nat)
    requires n <= |st|
    ensures var r := Records(st, st2, st3, rows, mv, n);
      (forall x :: x in r ==> IsSlotRecord(st, st2, st3, rows, mv, x)) &&
      (forall k :: 0 <= k < n && st[k].terrainLayer in mv ==> SlotRecord(st, st2, st3, rows, k) in r)
  {
    if n > 0 {
      RecordsProperties(st, st2, st3, rows, mv, n - 1);
      var prev := Records(st, st2, st3, rows, mv, n - 1);
      var r := Records(st, st2, st3, rows, mv, n);
      forall x | x in r ensures IsSlotRecord(st, st2, st3, rows, mv, x) {
        if x !in prev {
          assert st[n - 1].terrainLayer in mv && x == SlotRecord(st, st2, st3, rows, n - 1);
        }
      }
    }
  }

  /** The sort key: the layer's name (CompareTo on names). */
  function RecordName(ls: LayerSort): string
  {
    if ls.terrainLayer != null then ls.terrainLayer.name else ""
  }

  function SortedRecords(st: seq<TextureEntry>, st2: Option<seq<TextureEntry>>, st3: Option<seq<TextureEntry>>,
                         rows: Option<map<int, Row>>, mv: seq<TerrainLayer>): seq<LayerSort>
  {
    SortBy(Records(st, st2, st3, rows, mv, |st|), RecordName, LexLe)
  }

  /** The rebuilt first list: every record's entry. */
  function Sources(ls: seq<LayerSort>): (r: seq<TextureEntry>)
    ensures |r| == |ls| && forall i :: 0 <= i < |ls| ==> r[i] == ls[i].source
  {
    if ls == [] then [] else Sources(ls[..|ls| - 1]) + [ls[|ls| - 1].source]
  }

  /** The rebuilt second list: the records' secondary entries that exist. */
  function Sources2(ls: seq<LayerSort>): seq<TextureEntry>
  {
    if ls == [] then []
    else Sources2(ls[..|ls| - 1]) + (if ls[|ls| - 1].source2.Some? then [ls[|ls| - 1].source2.value] else [])
  }

  /** The rebuilt third list. */
  function Sources3(ls: seq<LayerSort>): seq<TextureEntry>
  {
    if ls == [] then []
    else Sources3(ls[..|ls| - 1]) + (if ls[|ls| - 1].source3.Some? then [ls[|ls| - 1].source3.value] else [])
  }

  /** The prop rows after the rewrite loop: row i gets the values of the i-th record. */
  function WriteRows(rows: map<int, Row>, ls: seq<LayerSort>): map<int, Row>
  {
    if ls == [] then rows
    else
      var n := |ls| - 1;
      var prev := WriteRows(rows, ls[..n]);
      if ls[n].propDataValues.Some? then prev[n := ls[n].propDataValues.value] else prev
  }

  /** The sorted records are the records of the wanted slots, each kept, ordered by layer name. */
  lemma SortedRecordsMembers(st: seq<TextureEntry>, st2: Option<seq<TextureEntry>>, st3: Option<seq<TextureEntry>>,
                             rows: Option<map<int, Row>>, mv: seq<TerrainLayer>)
    ensures var s := SortedRecords(st, st2, st3, rows, mv);
      (forall x :: x in s ==> IsSlotRecord(st, st2, st3, rows, mv, x)) &&
      (forall k :: 0 <= k < |st| && st[k].terrainLayer in mv ==> SlotRecord(st, st2, st3, rows, k) in s) &&
      (forall i, j :: 0 <= i < j < |s| ==> LexLe(RecordName(s[i]), RecordName(s[j])))
  {
    var rec := Records(st, st2, st3, rows, mv, |st|);
    var s := SortedRecords(st, st2, st3, rows, mv);
    RecordsProperties(st, st2, st3, rows, mv, |st|);
    SortByPermutes(rec, RecordName, LexLe);
    forall x | x in s ensures IsSlotRecord(st, st2, st3, rows, mv, x) {
      assert x in multiset(s);
      assert x in rec;
    }
    forall k | 0 <= k < |st| && st[k].terrainLayer in mv
      ensures SlotRecord(st, st2, st3, rows, k) in s
    {
      assert SlotRecord(st, st2, st3, rows, k) in multiset(s);
    }
    LexLeIsTotalPreorder();
    SortBySorted(rec, RecordName, LexLe);
  }

  /**
   * The rebuilt first list is a reordering of the old entries whose layer
   * mv holds, sorted by layer name; each new slot's prop row is the row of
   * that entry's old slot, and the rows past the list keep their values.
   */
  lemma RebuildProperties(st: seq<TextureEntry>, st2: Option<seq<TextureEntry>>, st3: Option<seq<TextureEntry>>,
                          rows: map<int, Row>, mv: seq<TerrainLayer>)
    ensures var s := SortedRecords(st, st2, st3, Some(rows), mv);
      var out := Sources(s);
      var w := WriteRows(rows, s);
      (forall i, j :: 0 <= i < j < |out| ==> LexLe(RecordName(s[i]), RecordName(s[j]))) &&
      (forall i :: 0 <= i < |out| ==>
        exists k :: 0 <= k < |st| && st[k] == out[i] && st[k].terrainLayer in mv && RowOf(w, i) == RowOf(rows, k)) &&
      (forall k :: 0 <= k < |st| && st[k].terrainLayer in mv ==> st[k] in out) &&
      (forall i :: (i < 0 || i >= |out|) ==> RowOf(w, i) == RowOf(rows, i))
  {
    var s := SortedRecords(st, st2, st3, Some(rows), mv);
    SortedRecordsMembers(st, st2, st3, Some(rows), mv);
    RowsFollowEntries(st, st2, st3, rows, mv);
    RebuildFacts(st, st2, st3, Some(rows), mv);
  }

  /** With prop data every record carries its old slot's row, and the rewrite puts that row at the record's new slot. */
  lemma RowsFollowEntries(st: seq<TextureEntry>, st2: Option<seq<TextureEntry>>, st3: Option<seq<TextureEntry>>,
                          rows: map<int, Row>, mv: seq<TerrainLayer>)
    ensures var s := SortedRecords(st, st2, st3, Some(rows), mv);
      var out := Sources(s);
      var w := WriteRows(rows, s);
      (forall i :: 0 <= i < |out| ==>
        exists k :: 0 <= k < |st| && st[k] == out[i] && st[k].terrainLayer in mv && RowOf(w, i) == RowOf(rows, k)) &&
      (forall i :: (i < 0 || i >= |out|) ==> RowOf(w, i) == RowOf(rows, i))
  {
    var s := SortedRecords(st, st2, st3, Some(rows), mv);
    var out := Sources(s);
    SortedRecordsMembers(st, st2, st3, Some(rows), mv);
    forall i | 0 <= i < |s| ensures s[i].propDataValues.Some? {
      assert s[i] in s;
      var k :| 0 <= k < |st| && st[k].terrainLayer in mv && s[i] == SlotRecord(st, st2, st3, Some(rows), k);
    }
    WriteRowsProperties(rows, s);
    forall i | 0 <= i < |out|
      ensures exists k :: 0 <= k < |st| && st[k] == out[i] && st[k].terrainLayer in mv && RowOf(WriteRows(rows, s), i) == RowOf(rows, k)
    {
      assert s[i] in s;
      var k :| 0 <= k < |st| && st[k].terrainLayer in mv && s[i] == SlotRecord(st, st2, st3, Some(rows), k);
      assert out[i] == st[k];
    }
  }

  lemma {:induction false} WriteRowsProperties(rows: map<int, Row>, ls: seq<LayerSort>)
    requires forall i :: 0 <= i < |ls| ==> ls[i].propDataValues.Some?
    ensures forall i :: 0 <= i < |ls| ==> RowOf(WriteRows(rows, ls), i) == ls[i].propDataValues.value
    ensures forall i :: (i < 0 || i >= |ls|) ==> RowOf(WriteRows(rows, ls), i) == RowOf(rows, i)
  {
    if ls != [] {
      var n := |ls| - 1;
      WriteRowsProperties(rows, ls[..n]);
      forall i | 0 <= i < n ensures RowOf(WriteRows(rows, ls), i) == ls[i].propDataValues.value {
        assert ls[..n][i] == ls[i];
      }
    }
  }

  /**
   * The sort and rebuild of MatchAndSortTerrainLayers: the kept entries
   * sorted by layer name, the three lists rebuilt from them and, with prop
   * data, slot i's row written with the row read from the entry's old slot.
   */
  method SortConfig(config: TextureArrayConfig, propData: PropData?, mv: seq<TerrainLayer>)
    modifies config, propData
    ensures var s := SortedRecords(old(config.sourceTextures), old(config.sourceTextures2), old(config.sourceTextures3),
                                   if propData != null then Some(old(propData.rows)) else None, mv);
      && config.sourceTextures == Sources(s)
      && config.sourceTextures2 == (if old(config.sourceTextures2).Some? then Some(Sources2(s)) else None)
      && config.sourceTextures3 == (if old(config.sourceTextures3).Some? then Some(Sources3(s)) else None)
      && (propData != null ==> propData.rows == WriteRows(old(propData.rows), s))
    ensures config.addedLayers == old(config.addedLayers)
  {
    var st := config.sourceTextures;
    var st2 := config.sourceTextures2;
    var st3 := config.sourceTextures3;
    var layers := CollectRecords(st, st2, st3, propData, mv);
    layers := SortBy(layers, RecordName, LexLe);
    var out, out2, out3 := RewriteSlots(propData, layers);
    config.sourceTextures := out;
    if st2.Some? { config.sourceTextures2 := Some(out2); }
    if st3.Some? { config.sourceTextures3 := Some(out3); }
  }

  /** The LayerSort loop: a record for every slot whose layer is wanted, reading the slot's prop row when there is prop data. */
  method CollectRecords(st: seq<TextureEntry>, st2: Option<seq<TextureEntry>>, st3: Option<seq<TextureEntry>>,
                        propData: PropData?, mv: seq<TerrainLayer>) returns (layers: seq<LayerSort>)
    ensures layers == Records(st, st2, st3, if propData != null then Some(propData.rows) else None, mv, |st|)
  {
    ghost var rows := if propData != null then Some(propData.rows) else None;
    layers := [];
    var i := 0;
    while i < |st|
      invariant 0 <= i <= |st|
      invariant layers == Records(st, st2, st3, rows, mv, i)
    {
      if st[i].terrainLayer in mv {
        var values: Option<Row> := None;
        if propData != null {
          values := Some(RowOf(propData.rows, i));
        }
        var s2: Option<TextureEntry> := None;
        var s3: Option<TextureEntry> := None;
        if st2.Some? && i < |st2.value| { s2 := Some(st2.value[i]); }
        if st3.Some? && i < |st3.value| { s3 := Some(st3.value[i]); }
        layers := layers + [LayerSort(st[i].terrainLayer, values, st[i], s2, s3)];
      }
      i := i + 1;
    }
  }

  /** The rewrite loop: prop row i from the i-th record, and the three entry lists rebuilt in record order. */
  method RewriteSlots(propData: PropData?, layers: seq<LayerSort>)
    returns (out: seq<TextureEntry>, out2: seq<TextureEntry>, out3: seq<TextureEntry>)
    modifies propData
    ensures out == Sources(layers) && out2 == Sources2(layers) && out3 == Sources3(layers)
    ensures propData != null ==> propData.rows == WriteRows(old(propData.rows), layers)
  {
    out, out2, out3 := [], [], [];
    var i := 0;
    while i < |layers|
      invariant 0 <= i <= |layers|
      invariant out == Sources(layers[..i]) && out2 == Sources2(layers[..i]) && out3 == Sources3(layers[..i])
      invariant propData != null ==> propData.rows == WriteRows(old(propData.rows), layers[..i])
    {
      assert layers[..i + 1][..i] == layers[..i];
      var l := layers[i];
      if propData != null && l.propDataValues.Some? {
        propData.rows := propData.rows[i := l.propDataValues.value];
      }
      out := out + [l.source];
      if l.source2.Some? { out2 := out2 + [l.source2.value]; }
      if l.source3.Some? { out3 := out3 + [l.source3.value]; }
      i := i + 1;
    }
    assert layers[..i] == layers;
  }

  /**
   * MatchAndSortTerrainLayers: afterwards every slot holds a layer of mv,
   * every layer of mv has a slot, and the slots are in layer-name order.
   * The additions are the unknown layers of mv, each once. CompileConfig is
   * MicroSplat code and is not modelled.
   */
  method MatchAndSortTerrainLayers(config: TextureArrayConfig, propData: PropData?, mv: seq<TerrainLayer>)
    modifies config, propData
    ensures config.addedLayers == old(config.addedLayers) + NewLayers(EntryLayers(old(config.sourceTextures)), mv)
    ensures forall i :: 0 <= i < |config.sourceTextures| ==> config.sourceTextures[i].terrainLayer in mv
    ensures forall l :: l in mv ==> l in EntryLayers(config.sourceTextures)
    ensures forall i, j :: 0 <= i < j < |config.sourceTextures| ==>
      LexLe(config.sourceTextures[i].terrainLayer.name, config.sourceTextures[j].terrainLayer.name)
  {
    ghost var known := EntryLayers(config.sourceTextures);
    AddMissingLayers(config, mv);
    ghost var mid := config.sourceTextures;
    ghost var mid2 := config.sourceTextures2;
    ghost var mid3 := config.sourceTextures3;
    ghost var rows := if propData != null then Some(propData.rows) else None;
    SortConfig(config, propData, mv);
    RebuildFacts(mid, mid2, mid3, rows, mv);
    AllWantedSlotted(mid, known, mv, config.sourceTextures);
  }

  /** Every wanted layer was in the configuration after the additions, and every such entry survives the rebuild. */
  lemma AllWantedSlotted(mid: seq<TextureEntry>, known: seq<TerrainLayer?>, mv: seq<TerrainLayer>, out: seq<TextureEntry>)
    requires EntryLayers(mid) == known + NewLayers(known, mv)
    requires forall k :: 0 <= k < |mid| && mid[k].terrainLayer in mv ==> mid[k] in out
    ensures forall l :: l in mv ==> l in EntryLayers(out)
  {
    NewLayersProperties(known, mv);
    forall l | l in mv ensures l in EntryLayers(out) {
      var t :| 0 <= t < |mv| && mv[t] == l;
      assert l in EntryLayers(mid);
      var k :| 0 <= k < |mid| && EntryLayers(mid)[k] == l;
      assert mid[k] in out;
      var i :| 0 <= i < |out| && out[i] == mid[k];
      assert EntryLayers(out)[i] == l;
    }
  }

  /** The rebuilt list, whatever the prop data: slots of mv's layers only, every kept entry there, in name order. */
  lemma RebuildFacts(st: seq<TextureEntry>, st2: Option<seq<TextureEntry>>, st3: Option<seq<TextureEntry>>,
                     rows: Option<map<int, Row>>, mv: seq<TerrainLayer>)
    ensures var out := Sources(SortedRecords(st, st2, st3, rows, mv));
      (forall i :: 0 <= i < |out| ==> out[i].terrainLayer in mv) &&
      (forall k :: 0 <= k < |st| && st[k].terrainLayer in mv ==> st[k] in out) &&
      (forall i, j :: 0 <= i < j < |out| ==> LexLe(out[i].terrainLayer.name, out[j].terrainLayer.name))
  {
    var s := SortedRecords(st, st2, st3, rows, mv);
    var out := Sources(s);
    SortedRecordsMembers(st, st2, st3, rows, mv);
    forall i | 0 <= i < |out| ensures out[i].terrainLayer in mv && s[i].terrainLayer == out[i].terrainLayer {
      assert s[i] in s;
      var k :| 0 <= k < |st| && st[k].terrainLayer in mv && s[i] == SlotRecord(st, st2, st3, rows, k);
    }
    forall k | 0 <= k < |st| && st[k].terrainLayer in mv ensures st[k] in out {
      var x := SlotRecord(st, st2, st3, rows, k);
      var i :| 0 <= i < |s| && s[i] == x;
      assert out[i] == st[k];
    }
  }

  // ---------------------------------------------------------------------
  // The in-sync check

  /** The inspector's test: nothing collected, or the same number of slots holding exactly the collected layers in order. */
  predicate LayersInSync(slots: seq<TerrainLayer?>, layers: seq<TerrainLayer>)
  {
    |layers| == 0 || (|slots| == |layers| && forall i :: 0 <= i < |layers| ==> slots[i] == layers[i])
  }

  /** The in-sync loop, which stops at the first mismatch. */
  method InSync(config: TextureArrayConfig, layers: seq<TerrainLayer>) returns (inSync: bool)
    ensures inSync <==> LayersInSync(EntryLayers(config.sourceTextures), layers)
  {
    inSync := true;
    var st := config.sourceTextures;
    var i := 0;
    while i < |layers|
      invariant 0 <= i <= |layers|
      invariant i > 0 ==> |st| == |layers|
      invariant forall k :: 0 <= k < i ==> st[k].terrainLayer == layers[k]
    {
      if |st| != |layers| || st[i].terrainLayer != layers[i] {
        inSync := false;
        break;
      }
      i := i + 1;
    }
  }

  /**
   * The "Remove unused layers" button needs the check to pass with a
   * different slot count and a non-empty list, which the check itself
   * excludes: the button is never shown.
   */
  lemma RemoveUnusedNeverShown(slots: seq<TerrainLayer?>, layers: seq<TerrainLayer>)
    ensures !(LayersInSync(slots, layers) && |layers| != |slots| && |layers| != 0)
  {
  }

  /** The layers the texture stamps ask for on the given terrains, as SyncMicroSplat and the inspector collect them. */
  function WantedLayers<M>(ts: seq<Terrain>, modifiers: seq<M>, inq: (Terrain, M) -> seq<TerrainLayer?>): seq<TerrainLayer>
  {
    SortedLayerSet(Inquire(ts, modifiers, inq))
  }

  /**
   * The synchronised slots satisfy the in-sync check once the configuration
   * holds one slot per layer and no two wanted layers share a name.
   */
  lemma SyncedConfigIsInSync(slots: seq<TerrainLayer?>, wanted: seq<TerrainLayer>)
    requires NoDuplicates(slots)
    requires forall i :: 0 <= i < |slots| ==> slots[i] in wanted
    requires forall l :: l in wanted ==> l in slots
    requires NoDuplicates(wanted)
    requires forall i, j :: 0 <= i < j < |wanted| ==> LexLe(wanted[i].name, wanted[j].name) && wanted[i].name != wanted[j].name
    requires forall i, j :: 0 <= i < j < |slots| ==> slots[i] != null && slots[j] != null && LexLe(slots[i].name, slots[j].name)
    ensures LayersInSync(slots, wanted)
  {
    SortedUniqueEqual(slots, wanted);
  }

  lemma {:induction false} SortedUniqueEqual(slots: seq<TerrainLayer?>, wanted: seq<TerrainLayer>)
    requires NoDuplicates(slots)
    requires forall i :: 0 <= i < |slots| ==> slots[i] in wanted
    requires forall l :: l in wanted ==> l in slots
    requires forall i, j :: 0 <= i < j < |wanted| ==> LexLe(wanted[i].name, wanted[j].name) && wanted[i].name != wanted[j].name
    requires forall i, j :: 0 <= i < j < |slots| ==> slots[i] != null && slots[j] != null && LexLe(slots[i].name, slots[j].name)
    ensures |slots| == |wanted| && forall i :: 0 <= i < |wanted| ==> slots[i] == wanted[i]
    decreases |wanted|
  {
    if |wanted| == 0 {
      if |slots| > 0 {
        SlotIsWanted(slots, wanted, 0);
        assert false;
      }
    } else {
      FirstSlotIsFirstWanted(slots, wanted);
      TailsStillMatch(slots, wanted);
      SortedUniqueEqual(slots[1..], wanted[1..]);
      forall i | 0 < i < |wanted| ensures slots[i] == wanted[i] {
        assert slots[1..][i - 1] == wanted[1..][i - 1];
      }
    }
  }

  lemma SlotIsWanted(slots: seq<TerrainLayer?>, wanted: seq<TerrainLayer>, i: nat)
    requires forall i :: 0 <= i < |slots| ==> slots[i] in wanted
    requires i < |slots|
    ensures slots[i] in wanted
  {
  }

  /** The first slot holds the first wanted layer: any other wanted layer would have to precede it by name. */
  lemma FirstSlotIsFirstWanted(slots: seq<TerrainLayer?>, wanted: seq<TerrainLayer>)
    requires NoDuplicates(slots)
    requires forall i :: 0 <= i < |slots| ==> slots[i] in wanted
    requires forall l :: l in wanted ==> l in slots
    requires forall i, j :: 0 <= i < j < |wanted| ==> LexLe(wanted[i].name, wanted[j].name) && wanted[i].name != wanted[j].name
    requires forall i, j :: 0 <= i < j < |slots| ==> slots[i] != null && slots[j] != null && LexLe(slots[i].name, slots[j].name)
    requires |wanted| > 0
    ensures |slots| > 0 && slots[0] == wanted[0]
  {
    var w := wanted[0];
    assert w in slots;
    var k :| 0 <= k < |slots| && slots[k] == w;
    if k != 0 {
      var m :| 0 <= m < |wanted| && wanted[m] == slots[0];
      assert slots[0] != null && LexLe(slots[0].name, w.name);
      if m != 0 {
        assert LexLe(w.name, wanted[m].name) && w.name != wanted[m].name;
        LexLeAntisymmetric(w.name, wanted[m].name);
      }
      assert false;
    }
  }

  /** Dropping the common first layer keeps the slots and the wanted layers matched. */
  lemma TailsStillMatch(slots: seq<TerrainLayer?>, wanted: seq<TerrainLayer>)
    requires NoDuplicates(slots)
    requires forall i :: 0 <= i < |slots| ==> slots[i] in wanted
    requires forall l :: l in wanted ==> l in slots
    requires forall i, j :: 0 <= i < j < |wanted| ==> LexLe(wanted[i].name, wanted[j].name) && wanted[i].name != wanted[j].name
    requires forall i, j :: 0 <= i < j < |slots| ==> slots[i] != null && slots[j] != null && LexLe(slots[i].name, slots[j].name)
    requires |wanted| > 0 && |slots| > 0 && slots[0] == wanted[0]
    ensures NoDuplicates(slots[1..])
    ensures forall i :: 0 <= i < |slots[1..]| ==> slots[1..][i] in wanted[1..]
    ensures forall l :: l in wanted[1..] ==> l in slots[1..]
    ensures forall i, j :: 0 <= i < j < |wanted[1..]| ==>
      LexLe(wanted[1..][i].name, wanted[1..][j].name) && wanted[1..][i].name != wanted[1..][j].name
    ensures forall i, j :: 0 <= i < j < |slots[1..]| ==>
      slots[1..][i] != null && slots[1..][j] != null && LexLe(slots[1..][i].name, slots[1..][j].name)
  {
    forall i | 0 <= i < |slots[1..]| ensures slots[1..][i] in wanted[1..] {
      var m :| 0 <= m < |wanted| && wanted[m] == slots[1..][i];
      assert slots[1 + i] != slots[0];
      assert m != 0;
      assert wanted[1..][m - 1] == wanted[m];
    }
    forall l | l in wanted[1..] ensures l in slots[1..] {
      var m :| 0 <= m < |wanted[1..]| && wanted[1..][m] == l;
      assert wanted[1 + m] != wanted[0];
      assert l in wanted;
      var t :| 0 <= t < |slots| && slots[t] == l;
      assert t != 0;
      assert slots[1..][t - 1] == l;
    }
  }

  /**
   * The in-sync check of OnInspectorGUI (with a configuration): the
   * terrain list is re-synced, the wanted layers collected, and the check
   * run against the configuration's slots. The second result is whether
   * the "Remove unused layers" button shows.
   */
  method InspectorInSync<M>(mv: MicroVerse, children: seq<Terrain>, config: TextureArrayConfig,
                            modifiers: seq<M>, inq: (Terrain, M) -> seq<TerrainLayer?>)
    returns (inSync: bool, showRemoveUnused: bool)
    requires mv.Valid()
    modifies mv
    ensures mv.Valid() && mv.childTerrains == (if old(mv.UsesExplicitTerrains()) then old(mv.childTerrains) else children)
    ensures inSync <==> LayersInSync(EntryLayers(config.sourceTextures), WantedLayers(NonNullTerrains(mv.Terrains()), modifiers, inq))
    ensures !showRemoveUnused
  {
    mv.SyncTerrainList(children);
    var layers := CollectSortedLayers(NonNullTerrains(mv.Terrains()), modifiers, inq);
    inSync := InSync(config, layers);
    showRemoveUnused := inSync && |layers| != |config.sourceTextures| && |layers| != 0;
    RemoveUnusedNeverShown(EntryLayers(config.sourceTextures), layers);
  }

  /**
   * SyncMicroSplat: nothing without a MicroVerse instance or without
   * terrains; otherwise the wanted layers are collected and the
   * configuration matched and sorted against them, between the two
   * Modify(true) calls. An exception from the first Modify ends the sync
   * and is passed on; the second cannot throw, its terrain list being the
   * one the first accepted. propData is the first terrain's property data
   * (found or created by MicroSplat, possibly null); `vegetation` stands for
   * the __MICROVERSE_VEGETATION__ define.
   */
  method SyncMicroSplat<M>(mv: MicroVerse?, children: seq<Terrain>, vegetation: bool, config: TextureArrayConfig,
                           propData: PropData?, modifiers: seq<M>, inq: (Terrain, M) -> seq<TerrainLayer?>)
    returns (synced: bool, error: Option<Error>)
    requires mv != null ==> mv.Valid()
    modifies mv, config, propData, if mv != null then TerrainObjects(mv.SyncedTerrains(children)) else {}
    ensures mv != null ==> mv.Valid()
    ensures error == if mv != null && old(mv.enabled) && |old(mv.Terrains())| > 0
                     then PipelineError(mv.SyncedTerrains(children)) else None
    ensures error == Some(IndexOutOfRange) <==>
      mv != null && old(mv.enabled) && |old(mv.Terrains())| > 0 && !old(mv.UsesExplicitTerrains()) && children == []
    ensures error.Some? ==> !synced
    ensures synced <==> mv != null && |mv.Terrains()| > 0 && error.None?
    ensures synced && mv.enabled ==> forall i :: 0 <= i < |mv.Terrains()| ==>
      mv.Terrains()[i].terrainLayers == WantedLayers(NonNullTerrains(mv.Terrains()), modifiers, inq)
    ensures !synced ==> config.sourceTextures == old(config.sourceTextures) && config.addedLayers == old(config.addedLayers)
    ensures synced ==>
      var wanted := WantedLayers(NonNullTerrains(mv.Terrains()), modifiers, inq);
      && (forall i :: 0 <= i < |config.sourceTextures| ==> config.sourceTextures[i].terrainLayer in wanted)
      && (forall l :: l in wanted ==> l in EntryLayers(config.sourceTextures))
      && (forall i, j :: 0 <= i < j < |config.sourceTextures| ==>
            LexLe(config.sourceTextures[i].terrainLayer.name, config.sourceTextures[j].terrainLayer.name))
  {
    if mv == null {
      return false, None;
    }
    ghost var ts := mv.SyncedTerrains(children);
    error := mv.Modify(children, vegetation, true, modifiers, inq, (t: Terrain, m: M) => true);
    assert mv.SyncedTerrains(children) == ts;
    if error.Some? {
      return false, error;
    }
    if |mv.Terrains()| == 0 {
      return false, None;
    }
    MatchAndResync(mv, children, vegetation, config, propData, modifiers, inq);
    synced := true;
  }

  /** The second half of SyncMicroSplat, once the controller has terrains: match and sort, then Modify again. */
  method MatchAndResync<M>(mv: MicroVerse, children: seq<Terrain>, vegetation: bool, config: TextureArrayConfig,
                           propData: PropData?, modifiers: seq<M>, inq: (Terrain, M) -> seq<TerrainLayer?>)
    requires mv.Valid() && |mv.Terrains()| > 0
    requires mv.enabled && !mv.UsesExplicitTerrains() ==> mv.childTerrains == children
    requires mv.enabled ==> PipelineError(mv.SyncedTerrains(children)).None?
    modifies mv, config, propData, TerrainObjects(mv.SyncedTerrains(children))
    ensures mv.Valid() && |mv.Terrains()| > 0 && mv.enabled == old(mv.enabled)
    ensures mv.explicitTerrains == old(mv.explicitTerrains)
    ensures mv.enabled ==> forall i :: 0 <= i < |mv.Terrains()| ==>
      mv.Terrains()[i].terrainLayers == WantedLayers(NonNullTerrains(mv.Terrains()), modifiers, inq)
    ensures
      var wanted := WantedLayers(NonNullTerrains(mv.Terrains()), modifiers, inq);
      && (forall i :: 0 <= i < |config.sourceTextures| ==> config.sourceTextures[i].terrainLayer in wanted)
      && (forall l :: l in wanted ==> l in EntryLayers(config.sourceTextures))
      && (forall i, j :: 0 <= i < j < |config.sourceTextures| ==>
            LexLe(config.sourceTextures[i].terrainLayer.name, config.sourceTextures[j].terrainLayer.name))
  {
    ghost var ts := mv.Terrains();
    var layers := CollectSortedLayers(NonNullTerrains(mv.Terrains()), modifiers, inq);
    MatchAndSortTerrainLayers(config, propData, layers);
    var error := mv.Modify(children, vegetation, true, modifiers, inq, (t: Terrain, m: M) => true);
    assert error.None?;
    assert mv.Terrains() == ts;
  }
}
