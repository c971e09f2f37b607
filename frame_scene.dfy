/**
 * FrameScene: one frame's unit of work. It holds an ordered list of layer names and a
 * name-to-layer map; running it paints the mapped layers in list order onto a canvas of
 * the scene's resolution, saves the canvas when a file name is set, and reports completion.
 *
 * Layers live on the heap in the source; here every layer a scene allocates gets a handle,
 * its index in `store`, so that a layer the map no longer refers to stays visible as a
 * leak.
 */
module Scenes {
  import opened QtTypes
  import opened Layers

  /** The finished canvas: its size and everything painted on it, in order. */
  datatype Canvas = Canvas(size: Size, ops: seq<DrawOp>)

  /** What running a scene does outside it: save the canvas to a file, signal completion. */
  datatype Effect =
    | Saved(filename: string, image: Canvas)
    | RenderComplete(id: nat, image: Canvas)

  /** The layer bookkeeping of a scene: the order list, the map to handles, and every layer allocated. */
  datatype SceneState = SceneState(order: seq<string>, layers: map<string, nat>, store: seq<Layer>)

  const EmptyScene: SceneState := SceneState([], map[], [])

  /** Every map entry refers to an allocated layer, and no two names share a layer. */
  ghost predicate WellFormed(s: SceneState)
  {
    && (forall n :: n in s.layers ==> s.layers[n] < |s.store|)
    && (forall n, m :: n in s.layers && m in s.layers && n != m ==> s.layers[n] != s.layers[m])
  }

  /** addImageLayer / addTitleLayer: append the name and point it at a freshly allocated layer. */
  function AddLayer(s: SceneState, name: string, layer: Layer): SceneState
  {
    SceneState(s.order + [name], s.layers[name := |s.store|], s.store + [layer])
  }

  /** Adding a layer appends exactly one name, maps it to the new layer, and leaves every other entry alone. */
  lemma AddLayerSpec(s: SceneState, name: string, layer: Layer)
    requires WellFormed(s)
    ensures var r := AddLayer(s, name, layer);
            && WellFormed(r)
            && r.order == s.order + [name]
            && name in r.layers && r.store[r.layers[name]] == layer
            && r.store[..|s.store|] == s.store
            && (forall n :: n != name ==> (n in r.layers <==> n in s.layers))
            && (forall n :: n != name && n in s.layers ==> r.layers[n] == s.layers[n])
  {
    var r := AddLayer(s, name, layer);
    assert r.store[..|s.store|] == s.store;
  }

  /** A name is painted when it is mapped to an allocated layer of positive opacity. */
  predicate Visible(s: SceneState, name: string)
  {
    name in s.layers && s.layers[name] < |s.store| && s.store[s.layers[name]].opacity > 0.0
  }

  /** The handles run paints for the names, in order: one per visible name, repeats included. */
  function Painted(s: SceneState, names: seq<string>): (r: seq<nat>)
    ensures |r| <= |names|
    ensures forall k :: 0 <= k < |r| ==> r[k] < |s.store| && s.store[r[k]].opacity > 0.0
    decreases |names|
  {
    if names == [] then []
    else
      var last := names[|names| - 1];
      var init := Painted(s, names[..|names| - 1]);
      assert forall n :: n in names[..|names| - 1] ==> n in names;
      if last in s.layers && s.layers[last] < |s.store| && s.store[s.layers[last]].opacity > 0.0
      then init + [s.layers[last]]
      else init
  }

  /** The draw operations painting the given handles leaves on a canvas of size sz. */
  function PaintOps(s: SceneState, handles: seq<nat>, sz: Size): (ops: seq<DrawOp>)
    requires PaintableSize(sz)
    requires forall k :: 0 <= k < |handles| ==> handles[k] < |s.store|
    ensures |ops| <= 4 * |handles|
    decreases |handles|
  {
    if handles == [] then []
    else
      var h := handles[|handles| - 1];
      PaintOps(s, handles[..|handles| - 1], sz) + LayerOps(s.store[h], sz, s.store[h].transform)
  }

  /**
   * Adding the same name twice in a row: the order list holds the name twice, the map only
   * the second layer, so a visible second layer is painted twice and an invisible one not at
   * all; the first layer is no longer reachable from the map.
   */
  lemma DuplicateNamePaintsLastTwice(s: SceneState, name: string, first: Layer, second: Layer)
    requires WellFormed(s)
    ensures var r := AddLayer(AddLayer(s, name, first), name, second);
            && r.layers[name] == |s.store| + 1
            && Painted(r, [name, name]) == (if second.opacity > 0.0 then [|s.store| + 1, |s.store| + 1] else [])
            && |s.store| !in r.layers.Values
  {
    var r := AddLayer(AddLayer(s, name, first), name, second);
    assert [name, name][..1] == [name];
    assert [name][..0] == [];
  }

  /** A visible layer is painted once for every occurrence, in the names, of the one name mapped to it. */
  lemma {:induction false} PaintedCount(s: SceneState, names: seq<string>, name: string)
    requires WellFormed(s) && name in s.layers
    ensures multiset(Painted(s, names))[s.layers[name]]
            == if s.store[s.layers[name]].opacity > 0.0 then multiset(names)[name] else 0
    decreases |names|
  {
    if names != [] {
      var init, last := names[..|names| - 1], names[|names| - 1];
      var h := s.layers[name];
      PaintedCount(s, init, name);
      assert names == init + [last];
      assert multiset(names)[name] == multiset(init)[name] + (if last == name then 1 else 0);
      var extra := if Visible(s, last) then [s.layers[last]] else [];
      assert Painted(s, names) == Painted(s, init) + extra;
      assert multiset(extra)[h] == (if Visible(s, last) && last == name then 1 else 0);
    }
  }

  /** A layer no name maps to is never painted. */
  lemma {:induction false} UnmappedNotPainted(s: SceneState, names: seq<string>, h: nat)
    requires forall n :: n in s.layers ==> s.layers[n] != h
    ensures h !in Painted(s, names)
    decreases |names|
  {
    if names != [] {
      UnmappedNotPainted(s, names[..|names| - 1], h);
    }
  }

  /**
   * Adding a layer under a name the map already holds: one more occurrence of the name is
   * painted at the end, every occurrence of the name, old and new, now paints the new layer
   * when it is visible, and the layer it replaced is never painted again.
   */
  lemma ReAddExistingName(s: SceneState, name: string, layer: Layer)
    requires WellFormed(s) && name in s.layers
    ensures var t := AddLayer(s, name, layer);
            && Painted(t, t.order) == Painted(t, s.order) + (if layer.opacity > 0.0 then [|s.store|] else [])
            && multiset(Painted(t, t.order))[|s.store|] == (if layer.opacity > 0.0 then multiset(s.order)[name] + 1 else 0)
            && s.layers[name] !in Painted(t, t.order)
  {
    var t := AddLayer(s, name, layer);
    AddLayerSpec(s, name, layer);
    assert t.order[..|t.order| - 1] == s.order;
    PaintedCount(t, t.order, name);
    UnmappedNotPainted(t, t.order, s.layers[name]);
  }

  /** The names in their order of addition. */
  datatype Entry = Entry(name: string, layer: Layer)

  /** The scene a sequence of additions builds from an empty one. */
  function Build(es: seq<Entry>): SceneState
    decreases |es|
  {
    if es == [] then EmptyScene
    else
      var last := es[|es| - 1];
      AddLayer(Build(es[..|es| - 1]), last.name, last.layer)
  }

  ghost predicate DistinctNames(es: seq<Entry>)
  {
    forall i, j :: 0 <= i < j < |es| ==> es[i].name != es[j].name
  }

  /**
   * The independent description of what is painted when names are distinct: the
   * positions of the visible entries, in order (handle k is the k-th addition).
   */
  function VisibleIndices(es: seq<Entry>): seq<nat>
    decreases |es|
  {
    if es == [] then []
    else VisibleIndices(es[..|es| - 1]) + (if es[|es| - 1].layer.opacity > 0.0 then [|es| - 1] else [])
  }

  /** Building allocates one layer per entry, in order, and lists exactly the entry names. */
  lemma {:induction false} BuildShape(es: seq<Entry>)
    ensures |Build(es).order| == |es| && |Build(es).store| == |es|
    ensures forall k :: 0 <= k < |es| ==> Build(es).order[k] == es[k].name && Build(es).store[k] == es[k].layer
    ensures WellFormed(Build(es))
    ensures forall n :: n in Build(es).layers <==> n in Build(es).order
    decreases |es|
  {
    if es != [] {
      var init := es[..|es| - 1];
      BuildShape(init);
      AddLayerSpec(Build(init), es[|es| - 1].name, es[|es| - 1].layer);
    }
  }

  /** Painting names whose map entries and layers both scenes share gives the same handles in both. */
  lemma {:induction false} PaintedFrame(s: SceneState, t: SceneState, names: seq<string>)
    requires forall n :: n in names ==> (n in s.layers <==> n in t.layers)
    requires forall n :: n in names && n in s.layers ==> s.layers[n] == t.layers[n]
    requires |s.store| <= |t.store| && t.store[..|s.store|] == s.store
    requires forall n :: n in names && n in s.layers ==> s.layers[n] < |s.store|
    ensures Painted(s, names) == Painted(t, names)
    decreases |names|
  {
    if names != [] {
      var init := names[..|names| - 1];
      assert forall n :: n in init ==> n in names;
      PaintedFrame(s, t, init);
      var last := names[|names| - 1];
      if last in s.layers {
        assert s.store[s.layers[last]] == t.store[..|s.store|][s.layers[last]];
      }
    }
  }

  /** Adding a layer under a name not yet listed paints what was painted before, then the new layer if visible. */
  lemma PaintAfterAdd(s: SceneState, name: string, layer: Layer)
    requires WellFormed(s) && name !in s.order
    ensures var t := AddLayer(s, name, layer);
            Painted(t, t.order) == Painted(s, s.order) + (if layer.opacity > 0.0 then [|s.store|] else [])
  {
    var t := AddLayer(s, name, layer);
    assert t.order[..|t.order| - 1] == s.order;
    assert t.store[..|s.store|] == s.store;
    PaintedFrame(s, t, s.order);
  }

  /** The entries before the last one: distinct, well formed, one layer each, and not using the last name. */
  lemma DistinctPrefix(es: seq<Entry>)
    requires DistinctNames(es) && es != []
    ensures var init := es[..|es| - 1];
            && DistinctNames(init)
            && WellFormed(Build(init)) && |Build(init).store| == |init|
            && es[|es| - 1].name !in Build(init).order
  {
    var init := es[..|es| - 1];
    BuildShape(init);
    forall i, j | 0 <= i < j < |init| ensures init[i].name != init[j].name {
      assert init[i] == es[i] && init[j] == es[j];
    }
    forall k | 0 <= k < |Build(init).order| ensures Build(init).order[k] != es[|es| - 1].name {
      assert init[k] == es[k];
    }
  }

  /** One more entry with a new name: painting and the visible positions both grow by that entry alone. */
  lemma PaintSnoc(es: seq<Entry>)
    requires DistinctNames(es) && es != []
    ensures var init := es[..|es| - 1];
            var last := es[|es| - 1];
            var extra := if last.layer.opacity > 0.0 then [|init|] else [];
            && DistinctNames(init)
            && Painted(Build(es), Build(es).order) == Painted(Build(init), Build(init).order) + extra
            && VisibleIndices(es) == VisibleIndices(init) + extra
  {
    var init := es[..|es| - 1];
    var last := es[|es| - 1];
    DistinctPrefix(es);
    PaintAfterAdd(Build(init), last.name, last.layer);
  }

  /**
   * With distinct names, run paints exactly the layers of positive opacity, each once,
   * in the order they were added.
   */
  lemma {:induction false} DistinctNamesPaintVisibleInOrder(es: seq<Entry>)
    requires DistinctNames(es)
    ensures Painted(Build(es), Build(es).order) == VisibleIndices(es)
    decreases |es|
  {
    if es != [] {
      var init := es[..|es| - 1];
      PaintSnoc(es);
      DistinctNamesPaintVisibleInOrder(init);
    }
  }

  /** What painting one name of the order list draws. */
  function StepOps(s: SceneState, name: string, sz: Size): seq<DrawOp>
    requires WellFormed(s) && PaintableSize(sz)
  {
    if Visible(s, name) then LayerOps(s.store[s.layers[name]], sz, s.store[s.layers[name]].transform) else []
  }

  /** The operations of painting the visible layers of names, in order. */
  function Drawn(s: SceneState, names: seq<string>, sz: Size): seq<DrawOp>
    requires PaintableSize(sz)
  {
    PaintOps(s, Painted(s, names), sz)
  }

  /** One more name in the order list adds that layer's operations when it is visible, and nothing otherwise. */
  lemma PaintStep(s: SceneState, names: seq<string>, i: nat, sz: Size)
    requires WellFormed(s) && PaintableSize(sz) && i < |names|
    ensures Drawn(s, names[..i + 1], sz) == Drawn(s, names[..i], sz) + StepOps(s, names[i], sz)
  {
    assert names[..i + 1][..i] == names[..i];
  }

  /**
   * run's loop: a fresh painter on a canvas of size sz walks the names in order; what it
   * draws is the visible layers' operations in that order.
   */
  method PaintInOrder(s: SceneState, names: seq<string>, sz: Size) returns (ops: seq<DrawOp>)
    requires WellFormed(s) && PaintableSize(sz)
    ensures ops == PaintOps(s, Painted(s, names), sz)
  {
    var painter := new Painter(sz);
    var i := 0;
    while i < |names|
      invariant 0 <= i <= |names|
      invariant painter.ops == Drawn(s, names[..i], sz)
    {
      PaintStep(s, names, i, sz);
      PaintName(s, names[i], sz, painter);
      i := i + 1;
    }
    assert names[..|names|] == names;
    ops := painter.ops;
  }

  /**
   * The body of run's loop for one name: a name mapped to a layer of positive opacity sets
   * the painter's transform to the layer's own and renders the layer; any other name paints nothing.
   */
  method PaintName(s: SceneState, name: string, sz: Size, p: Painter)
    requires WellFormed(s) && PaintableSize(sz)
    modifies p
    ensures p.ops == old(p.ops) + StepOps(s, name, sz)
  {
    if name in s.layers {
      var layer := s.store[s.layers[name]];
      if layer.opacity > 0.0 {
        p.SetTransform(layer.transform);
        var _ := Render(layer, sz, p);
      }
    }
  }

  /** A FrameScene object: fixed id, file name and resolution, and the layers added so far. */
  class FrameScene {
    const id: nat
    const outputFilename: string
    const resolution: Size
    var autoDelete: bool
    var order: seq<string>
    var layers: map<string, nat>
    var store: seq<Layer>

    function State(): SceneState
      reads this
    {
      SceneState(order, layers, store)
    }

    ghost predicate Valid()
      reads this
    {
      WellFormed(State())
    }

    /** The constructor keeps its arguments, starts with no layers and marks the scene auto-delete. */
    constructor (id: nat, outputFilename: string, resolution: Size)
      ensures this.id == id && this.outputFilename == outputFilename && this.resolution == resolution
      ensures autoDelete
      ensures State() == EmptyScene && Valid()
    {
      this.id := id;
      this.outputFilename := outputFilename;
      this.resolution := resolution;
      autoDelete := true;
      order := [];
      layers := map[];
      store := [];
    }

    method AddImageLayer(name: string, image: Option<Image>, opacity: real, trans: Transform)
      requires Valid()
      modifies this
      ensures Valid()
      ensures State() == AddLayer(old(State()), name, ImageLayer(opacity, trans, image))
      ensures unchanged(this`autoDelete)
    {
      AddLayerSpec(State(), name, ImageLayer(opacity, trans, image));
      order := order + [name];
      layers := layers[name := |store|];
      store := store + [ImageLayer(opacity, trans, image)];
    }

    method AddTitleLayer(name: string, title: string, subTitle: string, opacity: real, trans: Transform)
      requires Valid()
      modifies this
      ensures Valid()
      ensures State() == AddLayer(old(State()), name, TitleLayer(opacity, trans, title, subTitle))
      ensures unchanged(this`autoDelete)
    {
      AddLayerSpec(State(), name, TitleLayer(opacity, trans, title, subTitle));
      order := order + [name];
      layers := layers[name := |store|];
      store := store + [TitleLayer(opacity, trans, title, subTitle)];
    }

    /**
     * run: a canvas of exactly the scene resolution, painted with the visible layers in
     * order-list order, each under its own transform; saved if and only if the file name is
     * non-empty; then exactly one completion carrying the scene id and that canvas.
     */
    method Run() returns (image: Canvas, effects: seq<Effect>)
      requires Valid() && PaintableSize(resolution)
      ensures image.size == resolution
      ensures image.ops == PaintOps(State(), Painted(State(), order), resolution)
      ensures effects == (if outputFilename != "" then [Saved(outputFilename, image)] else [])
                         + [RenderComplete(id, image)]
    {
      var ops := PaintInOrder(State(), order, resolution);
      image := Canvas(resolution, ops);
      effects := [];
      if outputFilename != "" {
        effects := effects + [Saved(outputFilename, image)];
      }
      effects := effects + [RenderComplete(id, image)];
    }

    /**
     * The destructor: every layer held in the map is deleted exactly once (no handle twice)
     * and the map is left empty. Layers no longer in the map are not deleted.
     */
    method Destroy() returns (deleted: seq<nat>)
      requires Valid()
      modifies this
      ensures layers == map[]
      ensures forall h :: h in deleted <==> h in old(layers).Values
      ensures forall i, j :: 0 <= i < j < |deleted| ==> deleted[i] != deleted[j]
    {
      deleted := [];
      var remaining := layers;
      while remaining != map[]
        invariant remaining.Keys <= old(layers).Keys
        invariant forall n :: n in remaining ==> remaining[n] == old(layers)[n]
        invariant forall h :: h in deleted ==> exists n :: n in old(layers) && n !in remaining && old(layers)[n] == h
        invariant forall n :: n in old(layers) && n !in remaining ==> old(layers)[n] in deleted
        invariant forall i, j :: 0 <= i < j < |deleted| ==> deleted[i] != deleted[j]
        invariant layers == old(layers) && store == old(store) && order == old(order)
        decreases |remaining|
      {
        var n :| n in remaining;
        var h := remaining[n];
        assert h !in deleted;
        deleted := deleted + [h];
        remaining := remaining - {n};
      }
      layers := map[];
    }
  }
}
