/**
 * GuiDocument: the GUI side of a document. It keeps one graphics item per
 * displayed document entity, in insertion order, and drives the view
 * trihedron (nothing, a z-buffer trihedron drawn by the view, or an AIS view
 * cube) and the corner where it sits.
 */
module GuiDocuments {
  import Wrappers
  import opened Caf
  import opened GraphicsScenes
  import GraphicsDriver

  /** Qt::Corner. */
  datatype Corner = TopLeftCorner | TopRightCorner | BottomLeftCorner | BottomRightCorner

  /** toOccCorner: the OCC trihedron position for a Qt corner. */
  function ToOccCorner(corner: Corner): (r: TrihedronPosition)
    ensures FromOccCorner(r) == corner
  {
    match corner
    case TopLeftCorner => LeftUpper
    case TopRightCorner => RightUpper
    case BottomLeftCorner => LeftLower
    case BottomRightCorner => RightLower
  }

  /** The Qt corner of an OCC trihedron position. */
  function FromOccCorner(position: TrihedronPosition): Corner
  {
    match position
    case LeftUpper => TopLeftCorner
    case RightUpper => TopRightCorner
    case LeftLower => BottomLeftCorner
    case RightLower => BottomRightCorner
  }

  /** The corner table is a bijection between the four Qt corners and the four OCC positions. */
  lemma OccCornerRoundTrip(corner: Corner, position: TrihedronPosition)
    ensures FromOccCorner(ToOccCorner(corner)) == corner
    ensures ToOccCorner(FromOccCorner(position)) == position
  {
  }

  /** Distinct Qt corners go to distinct OCC positions. */
  lemma ToOccCornerInjective(a: Corner, b: Corner)
    ensures a != b ==> ToOccCorner(a) != ToOccCorner(b)
  {
    OccCornerRoundTrip(a, LeftUpper);
    OccCornerRoundTrip(b, LeftUpper);
  }

  /** GuiDocument::ViewTrihedronMode. */
  datatype ViewTrihedronMode = None | V3dViewZBuffer | AisViewCube

  /** The signals a GuiDocument emits, in the order emitted. */
  datatype Event =
    | GraphicsBoundingBoxChanged
    | ViewTrihedronModeChanged(mode: ViewTrihedronMode)
    | ViewTrihedronCornerChanged(corner: Corner)

  /** A graphics tree-node mapping: only its selection mode is read here. */
  datatype TreeNodeMapping = TreeNodeMapping(selectionMode: int)

  /** GuiDocument::GraphicsItem: an entity's graphics, its tree-node id and its optional mapping. */
  datatype GraphicsItem = GraphicsItem(
    graphicsEntity: GraphicsDriver.GraphicsEntity,
    entityTreeNodeId: TreeNodeId,
    treeNodeMapping: Wrappers.Option<TreeNodeMapping>)

  /** findGraphicsItem: the index of the first item with the given tree-node id, if any. */
  function FindGraphicsItem(items: seq<GraphicsItem>, id: TreeNodeId): (r: Wrappers.Option<nat>)
    ensures r.Some? ==> r.value < |items| && items[r.value].entityTreeNodeId == id
    ensures r.Some? ==> forall j :: 0 <= j < r.value ==> items[j].entityTreeNodeId != id
    ensures r.None? <==> forall j :: 0 <= j < |items| ==> items[j].entityTreeNodeId != id
  {
    if items == [] then Wrappers.None
    else if items[0].entityTreeNodeId == id then Wrappers.Some(0)
    else match FindGraphicsItem(items[1..], id)
      case None => Wrappers.None
      case Some(k) => Wrappers.Some(k + 1)
  }

  /**
   * Erasing the item found for `id` leaves the others in order; the next
   * search for `id` finds the next item carrying it, if any, so an id
   * carried by one item is gone.
   */
  lemma EraseFoundItem(items: seq<GraphicsItem>, id: TreeNodeId)
    requires FindGraphicsItem(items, id).Some?
    ensures var k := FindGraphicsItem(items, id).value;
      var rest := items[..k] + items[k + 1..];
      |rest| == |items| - 1
      && (forall j :: 0 <= j < k ==> rest[j] == items[j])
      && (forall j :: k <= j < |rest| ==> rest[j] == items[j + 1])
      && (FindGraphicsItem(rest, id).None? <==> FindGraphicsItem(items[k + 1..], id).None?)
      && (FindGraphicsItem(rest, id).Some? ==>
            FindGraphicsItem(rest, id).value == k + FindGraphicsItem(items[k + 1..], id).value)
  {
    var k := FindGraphicsItem(items, id).value;
    var rest := items[..k] + items[k + 1..];
    var tail := items[k + 1..];
    var after := FindGraphicsItem(tail, id);
    assert forall j :: 0 <= j < k ==> rest[j].entityTreeNodeId != id;
    assert forall j :: k <= j < |rest| ==> rest[j] == tail[j - k];
    if after.Some? {
      var m := k + after.value;
      assert rest[m].entityTreeNodeId == id;
      var r := FindGraphicsItem(rest, id);
      assert r.Some? && r.value <= m;
    } else {
      assert forall j :: k <= j < |rest| ==> rest[j].entityTreeNodeId != id;
    }
  }

  /** What the constructor, or a later entity addition, gets for one document entity. */
  datatype EntityCreation = EntityCreation(
    entityTreeNodeId: TreeNodeId,
    entity: GraphicsDriver.GraphicsEntity,
    mapping: Wrappers.Option<TreeNodeMapping>)

  /** The item mapGraphics keeps for a created entity: one if it has an AIS object, else none. */
  function MappedItem(c: EntityCreation, scene: GraphicsScene): seq<GraphicsItem>
  {
    if c.entity.aisObject == null then []
    else [GraphicsItem(c.entity.(scene := scene), c.entityTreeNodeId, c.mapping)]
  }

  /** The items mapped for a sequence of created entities, in order. */
  function MappedItems(created: seq<EntityCreation>, scene: GraphicsScene): seq<GraphicsItem>
  {
    if created == [] then []
    else MappedItems(created[..|created| - 1], scene) + MappedItem(created[|created| - 1], scene)
  }

  /** Every mapped item has an AIS object and lives in the scene; each comes from a created entity. */
  lemma {:induction false} MappedItemsDisplayable(created: seq<EntityCreation>, scene: GraphicsScene, i: int)
    requires 0 <= i < |MappedItems(created, scene)|
    ensures MappedItems(created, scene)[i].graphicsEntity.aisObject != null
    ensures MappedItems(created, scene)[i].graphicsEntity.scene == scene
    ensures exists c :: c in created && c.entityTreeNodeId == MappedItems(created, scene)[i].entityTreeNodeId
  {
    var front := created[..|created| - 1];
    var last := created[|created| - 1];
    if i < |MappedItems(front, scene)| {
      MappedItemsDisplayable(front, scene, i);
      var c :| c in front && c.entityTreeNodeId == MappedItems(front, scene)[i].entityTreeNodeId;
      assert c in created;
    } else {
      assert last in created;
    }
  }

  /** The AIS objects of a sequence of created entities. */
  function CreatedAisObjects(created: seq<EntityCreation>): set<AisObject>
  {
    set i | 0 <= i < |created| && created[i].entity.aisObject != null :: created[i].entity.aisObject
  }

  lemma CreatedAisObjectsSnoc(created: seq<EntityCreation>, i: int)
    requires 0 <= i < |created|
    ensures var o := created[i].entity.aisObject;
      CreatedAisObjects(created[..i + 1]) == CreatedAisObjects(created[..i]) + (if o != null then {o} else {})
  {
    var prefix := created[..i + 1];
    assert forall j :: 0 <= j < i ==> prefix[j] == created[..i][j];
  }

  /** The AIS objects of the graphics items. */
  function ItemAisObjects(items: seq<GraphicsItem>): set<AisObject>
  {
    set i | 0 <= i < |items| && items[i].graphicsEntity.aisObject != null :: items[i].graphicsEntity.aisObject
  }

  /** The AIS object of the item found for `id`, as a frame: empty when there is none. */
  function FoundAisObject(items: seq<GraphicsItem>, id: TreeNodeId): set<AisObject>
  {
    match FindGraphicsItem(items, id)
    case None => {}
    case Some(k) => if items[k].graphicsEntity.aisObject != null then {items[k].graphicsEntity.aisObject} else {}
  }

  /** The view cube's visibility and corner. */
  datatype CubeState = CubeState(visible: bool, position: TrihedronPosition)

  /** Everything the view-trihedron methods read and write. */
  datatype TrihedronState = TrihedronState(
    mode: ViewTrihedronMode,
    corner: Corner,
    viewTrihedron: ViewTrihedron,
    cube: Wrappers.Option<CubeState>)

  function HideCube(cube: Wrappers.Option<CubeState>): Wrappers.Option<CubeState>
  {
    if cube.Some? then Wrappers.Some(cube.value.(visible := false)) else cube
  }

  /**
   * The trihedron shown is the one the mode asks for, at the stored corner:
   * nothing for None, the view's z-buffer trihedron for V3dViewZBuffer, a
   * visible view cube for AisViewCube; the cube is hidden in the other modes.
   */
  predicate Coherent(s: TrihedronState)
  {
    match s.mode
    case None =>
      s.viewTrihedron == TrihedronErased && !(s.cube.Some? && s.cube.value.visible)
    case V3dViewZBuffer =>
      s.viewTrihedron == TrihedronShown(ToOccCorner(s.corner)) && !(s.cube.Some? && s.cube.value.visible)
    case AisViewCube =>
      s.viewTrihedron == TrihedronErased && s.cube == Wrappers.Some(CubeState(true, ToOccCorner(s.corner)))
  }

  /**
   * setViewTrihedronMode as written: on a change it erases or displays the
   * view's trihedron, hides the cube, or shows the cube, creating it at the
   * stored corner only when none exists; an existing cube keeps its corner.
   */
  function TrihedronModeStepAsWritten(s: TrihedronState, mode: ViewTrihedronMode): (r: TrihedronState)
    ensures r.mode == mode && r.corner == s.corner
    ensures mode == s.mode ==> r == s
    ensures mode != s.mode ==> (r.cube.Some? && r.cube.value.visible <==> mode == AisViewCube)
    ensures s.cube.Some? ==> r.cube.Some? && r.cube.value.position == s.cube.value.position
  {
    if mode == s.mode then s
    else match mode
      case None => s.(mode := mode, viewTrihedron := TrihedronErased, cube := HideCube(s.cube))
      case V3dViewZBuffer =>
        s.(mode := mode, viewTrihedron := TrihedronShown(ToOccCorner(s.corner)), cube := HideCube(s.cube))
      case AisViewCube =>
        var position := if s.cube.Some? then s.cube.value.position else ToOccCorner(s.corner);
        s.(mode := mode, viewTrihedron := TrihedronErased, cube := Wrappers.Some(CubeState(true, position)))
  }

  /**
   * setViewTrihedronMode, corrected: as written, except that switching to the
   * view cube also moves an existing cube to the stored corner.
   */
  function TrihedronModeStep(s: TrihedronState, mode: ViewTrihedronMode): (r: TrihedronState)
    ensures r.mode == mode && r.corner == s.corner
    ensures mode == s.mode ==> r == s
    ensures mode != s.mode ==> (r.cube.Some? && r.cube.value.visible <==> mode == AisViewCube)
    ensures mode != s.mode ==> (r.viewTrihedron.TrihedronShown? <==> mode == V3dViewZBuffer)
    ensures s.cube.Some? ==> r.cube.Some?
    ensures s.cube.None? && mode != AisViewCube ==> r.cube.None?
  {
    if mode == s.mode then s
    else match mode
      case None => s.(mode := mode, viewTrihedron := TrihedronErased, cube := HideCube(s.cube))
      case V3dViewZBuffer =>
        s.(mode := mode, viewTrihedron := TrihedronShown(ToOccCorner(s.corner)), cube := HideCube(s.cube))
      case AisViewCube =>
        s.(mode := mode, viewTrihedron := TrihedronErased,
           cube := Wrappers.Some(CubeState(true, ToOccCorner(s.corner))))
  }

  /**
   * setViewTrihedronCorner: on a change it moves the view's trihedron in
   * V3dViewZBuffer mode, moves the cube (if any) in AisViewCube mode, and
   * only stores the corner in None mode.
   */
  function TrihedronCornerStep(s: TrihedronState, corner: Corner): (r: TrihedronState)
    ensures r.corner == corner && r.mode == s.mode
    ensures corner == s.corner ==> r == s
    ensures r.cube.Some? <==> s.cube.Some?
    ensures r.cube.Some? ==> r.cube.value.visible == s.cube.value.visible
  {
    if corner == s.corner then s
    else match s.mode
      case None => s.(corner := corner)
      case V3dViewZBuffer => s.(corner := corner, viewTrihedron := TrihedronShown(ToOccCorner(corner)))
      case AisViewCube =>
        s.(corner := corner,
           cube := if s.cube.Some? then Wrappers.Some(s.cube.value.(position := ToOccCorner(corner))) else s.cube)
  }

  /** A mode change always leaves a coherent trihedron, and an unchanged mode keeps one. */
  lemma ModeStepCoherent(s: TrihedronState, mode: ViewTrihedronMode)
    requires mode != s.mode || Coherent(s)
    ensures Coherent(TrihedronModeStep(s, mode))
  {
  }

  /** A corner change keeps the trihedron coherent. */
  lemma CornerStepCoherent(s: TrihedronState, corner: Corner)
    requires Coherent(s)
    ensures Coherent(TrihedronCornerStep(s, corner))
  {
  }

  /** The two mode steps agree whenever there is no cube yet or the cube already sits at the stored corner. */
  lemma ModeStepAsWrittenAgrees(s: TrihedronState, mode: ViewTrihedronMode)
    requires s.cube.None? || s.cube.value.position == ToOccCorner(s.corner)
    ensures TrihedronModeStepAsWritten(s, mode) == TrihedronModeStep(s, mode)
  {
  }

  /**
   * As written, the view cube keeps a stale corner: with the cube shown at
   * the top left, switching to None, moving the corner to the bottom right
   * and switching back shows the cube at the top left again.
   */
  lemma StaleViewCubeCorner()
    ensures var s0 := TrihedronState(AisViewCube, TopLeftCorner, TrihedronErased,
                                     Wrappers.Some(CubeState(true, LeftUpper)));
      var s1 := TrihedronModeStepAsWritten(s0, None);
      var s2 := TrihedronCornerStep(s1, BottomRightCorner);
      var s3 := TrihedronModeStepAsWritten(s2, AisViewCube);
      Coherent(s0) && Coherent(s1) && Coherent(s2)
      && s3.mode == AisViewCube && s3.corner == BottomRightCorner
      && s3.cube == Wrappers.Some(CubeState(true, LeftUpper))
      && !Coherent(s3)
  {
  }

  class GuiDocument {
    const document: DocumentId
    const scene: GraphicsScene
    const view: V3dView
    const originTrihedron: AisObject
    var viewTrihedronMode: ViewTrihedronMode
    var viewTrihedronCorner: Corner
    var viewCube: AisObject?
    var items: seq<GraphicsItem>
    var events: seq<Event>

    /** The view-trihedron state of the document, its view and its cube. */
    function State(): TrihedronState
      reads this, view, viewCube
    {
      TrihedronState(viewTrihedronMode, viewTrihedronCorner, view.trihedron,
                     if viewCube == null then Wrappers.None else Wrappers.Some(CubeState(viewCube.visible, viewCube.corner)))
    }

    /**
     * The trihedron is coherent; every item has an AIS object, other than
     * the cube and the origin trihedron, and lives in the document's scene.
     */
    ghost predicate Valid()
      reads this, view, viewCube
    {
      viewCube != originTrihedron
      && Coherent(State())
      && forall i :: 0 <= i < |items| ==>
           items[i].graphicsEntity.aisObject != null
           && items[i].graphicsEntity.aisObject != viewCube
           && items[i].graphicsEntity.aisObject != originTrihedron
           && items[i].graphicsEntity.scene == scene
    }

    /**
     * Starts in None mode at the bottom-left corner without a cube, switches
     * to the view cube at the top-left corner, then maps the document's
     * entities in index order.
     */
    constructor (document: DocumentId, created: seq<EntityCreation>)
      modifies CreatedAisObjects(created)
      ensures Valid()
      ensures this.document == document && fresh(scene) && fresh(view) && fresh(originTrihedron)
      ensures scene.views == [view] && !originTrihedron.visible
      ensures viewTrihedronMode == AisViewCube && viewTrihedronCorner == TopLeftCorner
      ensures viewCube != null && fresh(viewCube) && viewCube.visible && viewCube.corner == LeftUpper
      ensures view.trihedron == TrihedronErased
      ensures items == MappedItems(created, scene)
      ensures events == [ViewTrihedronModeChanged(AisViewCube), ViewTrihedronCornerChanged(TopLeftCorner)]
      ensures forall o :: o in CreatedAisObjects(created) ==>
        o.visible && o.corner == old(o.corner) && o.Presentation() == old(o.Presentation())
    {
      this.document := document;
      var v3dView := new V3dView();
      view := v3dView;
      scene := new GraphicsScene([v3dView]);
      originTrihedron := new AisObject(0, false, LeftUpper);
      viewTrihedronMode := None;
      viewTrihedronCorner := BottomLeftCorner;
      viewCube := null;
      items := [];
      events := [];
      new;
      SetViewTrihedronMode(AisViewCube);
      SetViewTrihedronCorner(TopLeftCorner);
      MapEntities(created);
    }

    /** The constructor's loop: maps the document's entities in index order. */
    method MapEntities(created: seq<EntityCreation>)
      requires Valid()
      requires forall o :: o in CreatedAisObjects(created) ==> o != viewCube && o != originTrihedron
      modifies this, CreatedAisObjects(created)
      ensures Valid()
      ensures items == old(items) + MappedItems(created, scene)
      ensures viewTrihedronMode == old(viewTrihedronMode) && viewTrihedronCorner == old(viewTrihedronCorner)
      ensures viewCube == old(viewCube) && events == old(events)
      ensures forall o :: o in CreatedAisObjects(created) ==>
        o.visible && o.corner == old(o.corner) && o.Presentation() == old(o.Presentation())
    {
      for i := 0 to |created|
        invariant Valid()
        invariant viewTrihedronMode == old(viewTrihedronMode) && viewTrihedronCorner == old(viewTrihedronCorner)
        invariant viewCube == old(viewCube) && events == old(events)
        invariant items == old(items) + MappedItems(created[..i], scene)
        invariant forall o :: o in CreatedAisObjects(created[..i]) ==> o.visible
        invariant forall o :: o in CreatedAisObjects(created) ==>
          o.corner == old(o.corner) && o.Presentation() == old(o.Presentation())
      {
        var c := created[i];
        CreatedAisObjectsSnoc(created, i);
        assert created[..i + 1][..i] == created[..i];
        assert c.entity.aisObject != null ==> c.entity.aisObject in CreatedAisObjects(created);
        MapGraphics(c.entityTreeNodeId, c.entity, c.mapping);
      }
      assert created[..|created|] == created;
    }

    /**
     * mapGraphics: keeps an entity only when it has an AIS object, putting it
     * in the scene, making it visible and appending exactly one item.
     */
    method MapGraphics(id: TreeNodeId, entity: GraphicsDriver.GraphicsEntity, mapping: Wrappers.Option<TreeNodeMapping>)
      requires Valid()
      requires entity.aisObject != null ==> entity.aisObject != viewCube && entity.aisObject != originTrihedron
      modifies this, if entity.aisObject != null then {entity.aisObject} else {}
      ensures Valid()
      ensures items == old(items) + MappedItem(EntityCreation(id, entity, mapping), scene)
      ensures entity.aisObject != null ==> entity.aisObject.visible
      ensures entity.aisObject != null ==>
        entity.aisObject.corner == old(entity.aisObject.corner)
        && entity.aisObject.Presentation() == old(entity.aisObject.Presentation())
      ensures events == old(events)
      ensures viewTrihedronMode == old(viewTrihedronMode) && viewTrihedronCorner == old(viewTrihedronCorner)
      ensures viewCube == old(viewCube)
    {
      var gfxEntity := entity;
      if gfxEntity.aisObject == null {
        return;
      }
      gfxEntity := gfxEntity.(scene := scene);
      gfxEntity.aisObject.visible := true;
      items := items + [GraphicsItem(gfxEntity, id, mapping)];
    }

    /** onDocumentEntityAdded: maps the entity, then always signals a bounding-box change. */
    method OnDocumentEntityAdded(id: TreeNodeId, entity: GraphicsDriver.GraphicsEntity, mapping: Wrappers.Option<TreeNodeMapping>)
      requires Valid()
      requires entity.aisObject != null ==> entity.aisObject != viewCube && entity.aisObject != originTrihedron
      modifies this, if entity.aisObject != null then {entity.aisObject} else {}
      ensures Valid()
      ensures items == old(items) + MappedItem(EntityCreation(id, entity, mapping), scene)
      ensures entity.aisObject != null ==>
        entity.aisObject.visible && entity.aisObject.corner == old(entity.aisObject.corner)
        && entity.aisObject.Presentation() == old(entity.aisObject.Presentation())
      ensures events == old(events) + [GraphicsBoundingBoxChanged]
    {
      MapGraphics(id, entity, mapping);
      events := events + [GraphicsBoundingBoxChanged];
    }

    /**
     * onDocumentEntityAboutToBeDestroyed: erases the first item for `id` from
     * the scene and the list, keeping the others in order, and signals a
     * bounding-box change; an unmapped id changes nothing.
     */
    method OnDocumentEntityAboutToBeDestroyed(id: TreeNodeId)
      requires Valid()
      modifies this, FoundAisObject(items, id)
      ensures Valid()
      ensures FindGraphicsItem(old(items), id).None? ==> items == old(items) && events == old(events)
      ensures FindGraphicsItem(old(items), id).Some? ==>
        var k := FindGraphicsItem(old(items), id).value;
        var o := old(items)[k].graphicsEntity.aisObject;
        items == old(items)[..k] + old(items)[k + 1..]
        && !o.visible && o.corner == old(o.corner) && o.Presentation() == old(o.Presentation())
        && events == old(events) + [GraphicsBoundingBoxChanged]
      ensures viewTrihedronMode == old(viewTrihedronMode) && viewTrihedronCorner == old(viewTrihedronCorner)
      ensures viewCube == old(viewCube)
    {
      var found := FindGraphicsItem(items, id);
      if found.Some? {
        var k := found.value;
        var aisObject := items[k].graphicsEntity.aisObject;
        assert aisObject in FoundAisObject(items, id);
        aisObject.visible := false;
        items := items[..k] + items[k + 1..];
        events := events + [GraphicsBoundingBoxChanged];
      }
    }

    /** findGraphicsEntity: the entity of the item found for `id`, or a default entity. */
    function FindGraphicsEntity(id: TreeNodeId): (r: GraphicsDriver.GraphicsEntity)
      reads this
      ensures FindGraphicsItem(items, id).None? ==> r == GraphicsDriver.NullEntity()
      ensures FindGraphicsItem(items, id).Some? ==> r == items[FindGraphicsItem(items, id).value].graphicsEntity
    {
      match FindGraphicsItem(items, id)
      case None => GraphicsDriver.NullEntity()
      case Some(k) => items[k].graphicsEntity
    }

    /**
     * The guard of toggleItemSelected: the index of the item whose selection
     * owners are toggled, present only for a tree node of this document whose
     * entity root has an item with a tree-node mapping. `nodeRoot` stands
     * for the model tree's nodeRoot.
     */
    function SelectionTarget(appItem: ApplicationItem, nodeRoot: TreeNodeId -> TreeNodeId): (r: Wrappers.Option<nat>)
      reads this
      ensures r.Some? ==> appItem.TreeNodeItem? && appItem.document == document
      ensures r.Some? ==> r.value < |items| && items[r.value].treeNodeMapping.Some?
      ensures r.Some? ==> FindGraphicsItem(items, nodeRoot(appItem.node.id)) == r
      ensures r.None? && appItem.TreeNodeItem? && appItem.document == document ==>
        match FindGraphicsItem(items, nodeRoot(appItem.node.id))
        case None => true
        case Some(k) => items[k].treeNodeMapping.None?
    {
      if !appItem.TreeNodeItem? || appItem.document != document then Wrappers.None
      else
        var found := FindGraphicsItem(items, nodeRoot(appItem.node.id));
        if found.Some? && items[found.value].treeNodeMapping.Some? then found else Wrappers.None
    }

    /** isOriginTrihedronVisible. */
    function IsOriginTrihedronVisible(): bool
      reads originTrihedron
    {
      originTrihedron.visible
    }

    /** toggleOriginTrihedronVisibility: flips the origin trihedron's visibility, nothing else. */
    method ToggleOriginTrihedronVisibility()
      requires Valid()
      modifies originTrihedron
      ensures Valid()
      ensures IsOriginTrihedronVisible() == !old(IsOriginTrihedronVisible())
      ensures originTrihedron.corner == old(originTrihedron.corner)
      ensures originTrihedron.Presentation() == old(originTrihedron.Presentation())
    {
      originTrihedron.visible := !originTrihedron.visible;
    }

    /**
     * setViewTrihedronMode (corrected as in TrihedronModeStep): no-op when the
     * mode is unchanged; otherwise updates view, cube and mode and emits one
     * signal. The cube is created at most once, only while there is none.
     */
    method SetViewTrihedronMode(mode: ViewTrihedronMode)
      requires Valid()
      modifies this, view, viewCube
      ensures Valid()
      ensures State() == TrihedronModeStep(old(State()), mode)
      ensures old(viewCube) != null ==> viewCube == old(viewCube)
      ensures old(viewCube) == null && viewCube != null ==> fresh(viewCube) && mode == AisViewCube
      ensures old(viewCube) == null && viewCube != null ==> viewCube.Presentation() == (0, false, 0)
      ensures old(viewCube) != null ==> viewCube.Presentation() == old(viewCube.Presentation())
      ensures view.computedMode == old(view.computedMode)
      ensures items == old(items)
      ensures events == old(events) + (if mode == old(viewTrihedronMode) then [] else [ViewTrihedronModeChanged(mode)])
    {
      if mode == viewTrihedronMode {
        return;
      }
      ghost var before := State();
      match mode {
        case None =>
          view.trihedron := TrihedronErased;
          if viewCube != null {
            viewCube.visible := false;
          }
        case V3dViewZBuffer =>
          view.trihedron := TrihedronShown(ToOccCorner(viewTrihedronCorner));
          if viewCube != null {
            viewCube.visible := false;
          }
        case AisViewCube =>
          if viewCube == null {
            // The cube's display mode is not read anywhere.
            viewCube := new AisObject(0, false, ToOccCorner(viewTrihedronCorner));
          } else {
            viewCube.corner := ToOccCorner(viewTrihedronCorner);
          }
          view.trihedron := TrihedronErased;
          viewCube.visible := true;
      }
      viewTrihedronMode := mode;
      events := events + [ViewTrihedronModeChanged(mode)];
      ModeStepCoherent(before, mode);
    }

    /**
     * setViewTrihedronCorner: no-op when the corner is unchanged; otherwise
     * moves what the mode shows, stores the corner and emits one signal.
     */
    method SetViewTrihedronCorner(corner: Corner)
      requires Valid()
      modifies this, view, viewCube
      ensures Valid()
      ensures State() == TrihedronCornerStep(old(State()), corner)
      ensures viewCube == old(viewCube) && items == old(items)
      ensures viewCube != null ==> viewCube.Presentation() == old(viewCube.Presentation())
      ensures view.computedMode == old(view.computedMode)
      ensures events == old(events) + (if corner == old(viewTrihedronCorner) then [] else [ViewTrihedronCornerChanged(corner)])
    {
      if corner == viewTrihedronCorner {
        return;
      }
      ghost var before := State();
      match viewTrihedronMode {
        case None =>
        case V3dViewZBuffer =>
          view.trihedron := TrihedronShown(ToOccCorner(corner));
        case AisViewCube =>
          if viewCube != null {
            viewCube.corner := ToOccCorner(corner);
          }
      }
      viewTrihedronCorner := corner;
      events := events + [ViewTrihedronCornerChanged(corner)];
      CornerStepCoherent(before, corner);
    }
  }
}
