/**
 * The retained scene: drawable visuals and the VisualHost layer that keeps
 * an ordered child list together with a map from each child to the object it
 * stands for (a system, a name, or a marker string), used only for picking.
 */
module Scene {
  import opened Wrappers
  import opened Galaxy
  import opened Projection
  import opened Sequences

  /** The colours the map uses; only their identity matters to the model. */
  datatype Brush = Black | LightGray | DarkGray | Gray | Blue | LightPink | WhiteSmoke | Purple | CornflowerBlue

  /** An abstract drawing primitive in canvas coordinates. */
  datatype Shape =
    | Text(text: string, origin: Point, emSize: real, brush: Brush, centred: bool)
    | Line(p1: Point, p2: Point, brush: Brush, dotted: bool)
    | Rectangle(left: real, top: real, width: real, height: real, brush: Brush)
    | Ellipse(centre: Point, radiusX: real, radiusY: real, brush: Brush)

  /** The object a visual is mapped to. */
  datatype DataContext = SystemRef(system: StarSystem) | Name(text: string)

  /** What a layer shows for one child: its drawing and its mapped object. */
  datatype Entry = Entry(drawing: seq<Shape>, context: DataContext)

  /** The error GetVisualChild throws. */
  datatype HostError = ArgumentOutOfRange

  /** A drawing visual: fixed content, and an opacity that hit-testing toggles. */
  class Visual {
    const drawing: seq<Shape>
    var opacity: real

    constructor (drawing: seq<Shape>)
      ensures this.drawing == drawing && opacity == 1.0
    {
      this.drawing := drawing;
      opacity := 1.0;
    }
  }

  /** The opacity a hit leaves: fully opaque becomes 0.4, anything else becomes opaque. */
  function ToggledOpacity(o: real): real {
    if o == 1.0 then 0.4 else 1.0
  }

  /** Two hits restore a visual's opacity, from either state a hit can leave. */
  lemma ToggleTwiceRestores(o: real)
    requires o == 1.0 || o == 0.4
    ensures ToggledOpacity(o) != o
    ensures ToggledOpacity(ToggledOpacity(o)) == o
  {
  }

  /** A layer of the map: child visuals in drawing order and their mapped objects. */
  class VisualHost {
    var children: seq<Visual>
    var dataContextData: map<Visual, DataContext>
    var hitTestEnabled: bool
    /** What the layer shows, in drawing order. */
    ghost var entries: seq<Entry>

    /**
     * The child list and the keys of the mapping hold the same visuals, each
     * once, and `entries` is what they show.
     */
    ghost predicate Valid()
      reads this
    {
      && Distinct(children)
      && dataContextData.Keys == (set v | v in children)
      && (forall v :: v in children ==> v in dataContextData)
      && |entries| == |children|
      && (forall k :: 0 <= k < |children| ==> entries[k] == Entry(children[k].drawing, dataContextData[children[k]]))
    }

    constructor ()
      ensures Valid() && children == [] && dataContextData == map[] && entries == [] && !hitTestEnabled
    {
      children := [];
      dataContextData := map[];
      hitTestEnabled := false;
      entries := [];
    }

    /**
     * Appends `vis` and maps it to `dataContext`. A visual that is already a
     * child makes the collection throw before anything changes: `added` is false.
     */
    method AddChild(vis: Visual, dataContext: DataContext) returns (added: bool)
      requires Valid()
      modifies this`children, this`dataContextData, this`entries
      ensures Valid()
      ensures added == (vis !in old(children))
      ensures added ==> children == old(children) + [vis]
      ensures added ==> dataContextData == old(dataContextData)[vis := dataContext]
      ensures added ==> entries == old(entries) + [Entry(vis.drawing, dataContext)]
      ensures !added ==> children == old(children) && dataContextData == old(dataContextData) && entries == old(entries)
    {
      added := vis !in children;
      if added {
        children := children + [vis];
        dataContextData := dataContextData[vis := dataContext];
        entries := entries + [Entry(vis.drawing, dataContext)];
      }
    }

    /**
     * Renders `e.drawing` into a new visual and adds it with `e.context`: the
     * create-draw-AddChild step every layer-building loop performs.
     */
    method AddDrawing(e: Entry) returns (vis: Visual)
      requires Valid()
      modifies this`children, this`dataContextData, this`entries
      ensures Valid() && fresh(vis) && vis.drawing == e.drawing
      ensures entries == old(entries) + [e]
    {
      vis := new Visual(e.drawing);
      var added := AddChild(vis, e.context);
    }

    /** Removes `vis` from the children and from the mapping; an absent visual is ignored. */
    method RemoveChild(vis: Visual, dataContext: DataContext)
      requires Valid()
      modifies this`children, this`dataContextData, this`entries
      ensures Valid()
      ensures children == RemoveFirst(old(children), vis)
      ensures dataContextData == old(dataContextData) - {vis}
    {
      var rest := RemoveFirst(children, vis);
      var mapped := dataContextData - {vis};
      assert forall v :: v in rest ==> v in children && v != vis;
      assert forall v :: v in mapped ==> v in rest;
      children, dataContextData := rest, mapped;
      entries := seq(|rest|, k requires 0 <= k < |rest| => Entry(rest[k].drawing, mapped[rest[k]]));
    }

    method ClearAllChildren()
      requires Valid()
      modifies this`children, this`dataContextData, this`entries
      ensures Valid()
      ensures children == [] && dataContextData == map[] && entries == []
    {
      children := [];
      dataContextData := map[];
      entries := [];
    }

    /** The number of children equals the number of mapped visuals. */
    function VisualChildrenCount(): (n: nat)
      reads this
      requires Valid()
      ensures n == |dataContextData|
    {
      DistinctCardinality(children);
      assert dataContextData.Keys == set v | v in children;
      |children|
    }

    /** The child at `index`, or the out-of-range error for an index outside [0, count). */
    function GetVisualChild(index: int): (r: Result<Visual, HostError>)
      reads this
      requires Valid()
      ensures r.Ok? <==> 0 <= index < |children|
      ensures r.Ok? ==> r.value == children[index] && r.value in dataContextData
    {
      if index < 0 || index >= |children| then Err(ArgumentOutOfRange) else Ok(children[index])
    }

    /**
     * The hit-test callback: a hit drawing visual (null stands for a hit on
     * anything else) has its opacity toggled, and the click is raised with its
     * mapped object only when it has one.
     */
    method HitTestCheck(hit: Visual?) returns (clicked: Option<DataContext>)
      modifies hit
      ensures hit != null ==> hit.opacity == ToggledOpacity(old(hit.opacity))
      ensures clicked.Some? <==> hit != null && hit in dataContextData
      ensures clicked.Some? ==> clicked.value == dataContextData[hit]
    {
      if hit != null {
        hit.opacity := ToggledOpacity(hit.opacity);
      }
      if hit != null && hit in dataContextData {
        clicked := Some(dataContextData[hit]);
      } else {
        clicked := None;
      }
    }
  }
}
