/**
 * Graphics entity drivers: which labels a driver supports, the graphics
 * entity it creates for a label, and how it applies and reads back a
 * display mode. Two drivers exist: one for XCAF shapes, one for meshes.
 */
module GraphicsDriver {
  import Wrappers
  import opened Caf
  import opened Enumerations
  import opened GraphicsScenes

  // Display modes of the shape driver.
  const DisplayModeWireframe: int := 0
  const DisplayModeHiddenLineRemoval: int := 1
  const DisplayModeShaded: int := 2
  const DisplayModeShadedWithFaceBoundary: int := 3

  // AIS_DisplayMode values.
  const AisWireFrame: int := 0
  const AisShaded: int := 1

  // MeshVS_DisplayModeFlags values.
  const MeshWireFrame: int := 1
  const MeshShading: int := 2
  const MeshShrink: int := 3

  /** The text-id context of the display-mode names. */
  const DriverContext: string := "Mayo::GraphicsEntityDriver"

  datatype DriverKind = ShapeDriver | MeshDriver

  /** GraphicsEntityDriver::Support. */
  datatype Support = None | Partial | Complete

  /** The two `invalid_argument` exceptions a driver throws. */
  datatype DriverError = InvalidDisplayMode | InvalidDriver

  /**
   * A graphics entity: the label it shows, the driver that made it, its AIS
   * object and the scene it lives in (null handles where unset).
   */
  datatype GraphicsEntity = GraphicsEntity(
    tdfLabel: Wrappers.Option<Label>,
    driver: GraphicsEntityDriver?,
    aisObject: AisObject?,
    scene: GraphicsScene?)

  /** A default-constructed graphics entity. */
  function NullEntity(): GraphicsEntity
  {
    GraphicsEntity(Wrappers.None, null, null, null)
  }

  /**
   * A default entity belongs to no driver: every driver's ownership check
   * rejects it, so its display mode can be neither read back nor applied.
   */
  lemma NullEntityRejected(d: GraphicsEntityDriver)
    ensures d.CheckSameDriver(NullEntity()) == Wrappers.Fail(InvalidDriver)
    ensures d.CurrentDisplayMode(NullEntity()) == Wrappers.Err(InvalidDriver)
  {
  }

  /** The display modes the shape driver lists, in order. */
  function ShapeDisplayModes(): seq<Item>
  {
    [ Item(DisplayModeWireframe, TextId(DriverContext, "WIREFRAME")),
      Item(DisplayModeHiddenLineRemoval, TextId(DriverContext, "HLR")),
      Item(DisplayModeShaded, TextId(DriverContext, "SHADED")),
      Item(DisplayModeShadedWithFaceBoundary, TextId(DriverContext, "SHADED_FACE_BNDS")) ]
  }

  /** The display modes the mesh driver lists, in order. */
  function MeshDisplayModes(): seq<Item>
  {
    [ Item(MeshWireFrame, TextId(DriverContext, "WIREFRAME")),
      Item(MeshShading, TextId(DriverContext, "SHADED")),
      Item(MeshShrink, TextId(DriverContext, "SHRINK")) ]
  }

  /** The shape driver lists exactly its four modes, the mesh driver exactly its three. */
  lemma DisplayModeLists()
    ensures Values(ShapeDisplayModes()) == [DisplayModeWireframe, DisplayModeHiddenLineRemoval,
                                            DisplayModeShaded, DisplayModeShadedWithFaceBoundary]
    ensures Values(MeshDisplayModes()) == [MeshWireFrame, MeshShading, MeshShrink]
  {
  }

  /** What the shape driver's display mode is made of. */
  datatype ShapeDisplayState = ShapeDisplayState(hiddenLine: bool, aisMode: int, faceBoundary: bool)

  /** The state the shape driver leaves after applying `mode`. */
  function ApplyShapeMode(mode: int, s: ShapeDisplayState): (r: ShapeDisplayState)
    ensures r.hiddenLine <==> mode == DisplayModeHiddenLineRemoval
    ensures mode != DisplayModeHiddenLineRemoval ==> (r.aisMode == AisWireFrame <==> mode == DisplayModeWireframe)
  {
    if mode == DisplayModeHiddenLineRemoval then s.(hiddenLine := true)
    else ShapeDisplayState(false,
                           if mode == DisplayModeWireframe then AisWireFrame else AisShaded,
                           mode == DisplayModeShadedWithFaceBoundary)
  }

  /** The display mode the shape driver reads from a state; -1 for an AIS mode it does not know. */
  function ShapeModeOf(s: ShapeDisplayState): (r: int)
    ensures r == -1 || r in Values(ShapeDisplayModes())
  {
    DisplayModeLists();
    if s.hiddenLine then DisplayModeHiddenLineRemoval
    else if s.aisMode == AisWireFrame then DisplayModeWireframe
    else if s.aisMode == AisShaded then
      (if s.faceBoundary then DisplayModeShadedWithFaceBoundary else DisplayModeShaded)
    else -1
  }

  /** For every listed shape mode, reading back the applied mode gives that mode. */
  lemma ShapeModeRoundTrip(mode: int, s: ShapeDisplayState)
    requires mode in Values(ShapeDisplayModes())
    ensures ShapeModeOf(ApplyShapeMode(mode, s)) == mode
  {
    DisplayModeLists();
  }

  /** Applying a shape mode twice is the same as applying it once. */
  lemma ApplyShapeModeIdempotent(mode: int, s: ShapeDisplayState)
    ensures ApplyShapeMode(mode, ApplyShapeMode(mode, s)) == ApplyShapeMode(mode, s)
  {
  }

  /**
   * Hidden-line drawing ends up on iff the mode is HLR; any other mode sets
   * the AIS mode to wireframe iff the mode is Wireframe, and the face-boundary
   * flag iff the mode is ShadedWithFaceBoundary.
   */
  lemma ApplyShapeModeMeaning(mode: int, s: ShapeDisplayState)
    ensures ApplyShapeMode(mode, s).hiddenLine <==> mode == DisplayModeHiddenLineRemoval
    ensures mode != DisplayModeHiddenLineRemoval ==>
      (ApplyShapeMode(mode, s).aisMode == AisWireFrame <==> mode == DisplayModeWireframe)
      && (ApplyShapeMode(mode, s).faceBoundary <==> mode == DisplayModeShadedWithFaceBoundary)
    ensures mode == DisplayModeHiddenLineRemoval ==>
      ApplyShapeMode(mode, s).aisMode == s.aisMode && ApplyShapeMode(mode, s).faceBoundary == s.faceBoundary
  {
  }

  /** The shape driver reads -1 exactly when hidden lines are off and the AIS mode is neither wireframe nor shaded. */
  lemma ShapeModeOfUnknown(s: ShapeDisplayState)
    ensures ShapeModeOf(s) == -1 <==> !s.hiddenLine && s.aisMode != AisWireFrame && s.aisMode != AisShaded
    ensures ShapeModeOf(s) != -1 ==> ShapeModeOf(s) in Values(ShapeDisplayModes())
  {
    DisplayModeLists();
  }

  /** The objects a display-mode change may touch: the scene, its views and the AIS object. */
  function EntityFrame(e: GraphicsEntity): set<object>
  {
    (if e.scene != null then {e.scene as object} + e.scene.ViewSet() else {})
    + (if e.aisObject != null then {e.aisObject as object} else {})
  }

  class GraphicsEntityDriver {
    const kind: DriverKind

    /** GraphicsShapeEntityDriver's constructor. */
    constructor Shape()
      ensures kind == ShapeDriver
    {
      kind := ShapeDriver;
    }

    /** GraphicsMeshEntityDriver's constructor. */
    constructor Mesh()
      ensures kind == MeshDriver
    {
      kind := MeshDriver;
    }

    /** The driver's display modes. */
    function DisplayModes(): seq<Item>
    {
      if kind == ShapeDriver then ShapeDisplayModes() else MeshDisplayModes()
    }

    /** throwIf_invalidDisplayMode: fails iff `mode` is not one of the driver's display modes. */
    function CheckDisplayMode(mode: int): (r: Wrappers.Outcome<DriverError>)
      ensures r.Pass? <==> mode in Values(DisplayModes())
      ensures r.Fail? ==> r.error == InvalidDisplayMode
    {
      var k := FindIndex(DisplayModes(), mode);
      if k == -1 then Wrappers.Fail(InvalidDisplayMode)
      else
        assert Values(DisplayModes())[k] == mode;
        Wrappers.Pass
    }

    /** throwIf_differentDriver: fails iff the entity was not made by this driver. */
    function CheckSameDriver(entity: GraphicsEntity): (r: Wrappers.Outcome<DriverError>)
      ensures r.Pass? <==> entity.driver == this
      ensures r.Fail? ==> r.error == InvalidDriver
    {
      if entity.driver != this then Wrappers.Fail(InvalidDriver) else Wrappers.Pass
    }

    /** initEntity: the entity now shows `tdfLabel` and belongs to this driver; its handles are kept. */
    function InitEntity(entity: GraphicsEntity, tdfLabel: Label): (r: GraphicsEntity)
      ensures CheckSameDriver(r).Pass?
      ensures r.tdfLabel == Wrappers.Some(tdfLabel)
      ensures r.aisObject == entity.aisObject && r.scene == entity.scene
    {
      entity.(tdfLabel := Wrappers.Some(tdfLabel), driver := this)
    }

    /** supportStatus: how well the driver can show a label. */
    function SupportStatus(tdfLabel: Label): (r: Support)
      ensures kind == ShapeDriver ==> (r == Complete <==> tdfLabel.isShape) && r != Partial
      ensures kind == MeshDriver ==> (r == Complete <==> tdfLabel.hasTriangulation)
      ensures kind == MeshDriver ==> (r == Partial <==> !tdfLabel.hasTriangulation && tdfLabel.isShape && tdfLabel.isFace)
    {
      match kind
      case ShapeDriver =>
        // A triangulation attribute alone is not supported by the shape driver.
        if tdfLabel.isShape then Complete else None
      case MeshDriver =>
        if tdfLabel.hasTriangulation then Complete
        else if tdfLabel.isShape && tdfLabel.isFace then Partial
        else None
    }

    /** Whether createEntity gives the label an AIS object. */
    predicate CreatesAisObject(tdfLabel: Label)
    {
      match kind
      case ShapeDriver => tdfLabel.isShape
      case MeshDriver =>
        if tdfLabel.hasTriangulation then tdfLabel.attributeTriangulated
        else tdfLabel.isShape && tdfLabel.isFace && tdfLabel.faceTriangulated
    }

    /**
     * A driver never makes an AIS object for a label it does not support; the
     * shape driver makes one exactly for the labels it fully supports, the
     * mesh driver for the fully supported labels whose triangulation
     * attribute holds a triangulation and for the partially supported faces
     * that carry one.
     */
    lemma SupportCoversCreation(tdfLabel: Label)
      ensures CreatesAisObject(tdfLabel) ==> SupportStatus(tdfLabel) != None
      ensures kind == ShapeDriver ==> (CreatesAisObject(tdfLabel) <==> SupportStatus(tdfLabel) == Complete)
      ensures kind == MeshDriver && SupportStatus(tdfLabel) == Complete ==> (CreatesAisObject(tdfLabel) <==> tdfLabel.attributeTriangulated)
      ensures kind == MeshDriver && SupportStatus(tdfLabel) == Partial ==> (CreatesAisObject(tdfLabel) <==> tdfLabel.faceTriangulated)
    {
    }

    /**
     * createEntity: an entity for `tdfLabel` owned by this driver, with a fresh
     * AIS object exactly when the driver can show the label. The shape driver
     * shows it shaded with face boundaries, the mesh driver with shading.
     */
    method CreateEntity(tdfLabel: Label) returns (entity: GraphicsEntity)
      ensures CheckSameDriver(entity).Pass? && entity.tdfLabel == Wrappers.Some(tdfLabel) && entity.scene == null
      ensures entity.aisObject != null <==> CreatesAisObject(tdfLabel)
      ensures entity.aisObject != null ==> fresh(entity.aisObject) && !entity.aisObject.visible
      ensures entity.aisObject != null && kind == ShapeDriver ==>
        entity.aisObject.displayMode == AisShaded && entity.aisObject.faceBoundaryDraw
      ensures entity.aisObject != null && kind == MeshDriver ==> entity.aisObject.displayMode == MeshShading
    {
      entity := InitEntity(NullEntity(), tdfLabel);
      if kind == ShapeDriver {
        if tdfLabel.isShape {
          var gpx := new AisObject(AisShaded, true, LeftUpper);
          entity := entity.(aisObject := gpx);
        }
      } else {
        // The attribute's triangulation wins; a face's own one is the fallback.
        var hasPolyTri := if tdfLabel.hasTriangulation then tdfLabel.attributeTriangulated
                          else tdfLabel.isShape && tdfLabel.isFace && tdfLabel.faceTriangulated;
        if hasPolyTri {
          var gpx := new AisObject(MeshShading, false, LeftUpper);
          entity := entity.(aisObject := gpx);
        }
      }
    }

    /** What `currentDisplayMode` needs to find behind the entity's handles. */
    predicate Readable(entity: GraphicsEntity)
      reads entity.scene
    {
      match kind
      case ShapeDriver => entity.scene != null && (!entity.scene.hiddenLineDrawingOn ==> entity.aisObject != null)
      case MeshDriver => entity.aisObject != null
    }

    /** What `applyDisplayMode` needs to find behind the entity's handles. */
    predicate Ready(entity: GraphicsEntity, mode: int)
    {
      match kind
      case ShapeDriver => entity.scene != null && (mode != DisplayModeHiddenLineRemoval ==> entity.aisObject != null)
      case MeshDriver => entity.aisObject != null
    }

    /** The shape facts of an entity whose scene and AIS object are set. */
    function ShapeStateOf(entity: GraphicsEntity): ShapeDisplayState
      requires entity.scene != null && entity.aisObject != null
      reads entity.scene, entity.aisObject
    {
      ShapeDisplayState(entity.scene.hiddenLineDrawingOn, entity.aisObject.displayMode, entity.aisObject.faceBoundaryDraw)
    }

    /**
     * currentDisplayMode: fails for an entity of another driver. The shape
     * driver reads HLR while hidden-line drawing is on, else decodes the AIS
     * mode and face-boundary flag (a listed mode, or -1); the mesh driver
     * reads the AIS display mode.
     */
    function CurrentDisplayMode(entity: GraphicsEntity): (r: Wrappers.Result<int, DriverError>)
      requires CheckSameDriver(entity).Pass? ==> Readable(entity)
      reads entity.scene, entity.aisObject
      ensures r.Err? <==> entity.driver != this
      ensures r.Err? ==> r.error == InvalidDriver
      ensures r.Ok? && kind == ShapeDriver ==> r.value == -1 || CheckDisplayMode(r.value).Pass?
      ensures r.Ok? && kind == ShapeDriver && entity.scene.hiddenLineDrawingOn ==> r.value == DisplayModeHiddenLineRemoval
      ensures r.Ok? && kind == MeshDriver ==> r.value == entity.aisObject.displayMode
    {
      if entity.driver != this then Wrappers.Err(InvalidDriver)
      else if kind == MeshDriver then Wrappers.Ok(entity.aisObject.displayMode)
      else if entity.scene.hiddenLineDrawingOn then
        DisplayModeLists();
        Wrappers.Ok(DisplayModeHiddenLineRemoval)
      else
        var mode := ShapeModeOf(ShapeStateOf(entity));
        ShapeModeOfUnknown(ShapeStateOf(entity));
        Wrappers.Ok(mode)
    }

    /**
     * applyDisplayMode: checks the driver, then the mode, changing nothing on
     * failure. The shape driver switches hidden-line drawing and every view's
     * computed mode on for HLR and off otherwise, and outside HLR sets the AIS
     * mode and face-boundary flag, redisplaying only when the flag changes.
     * The mesh driver sets the AIS display mode. Afterwards the driver reads
     * the applied mode back.
     */
    method ApplyDisplayMode(entity: GraphicsEntity, mode: int) returns (r: Wrappers.Outcome<DriverError>)
      requires CheckSameDriver(entity).Pass? && CheckDisplayMode(mode).Pass? ==> Ready(entity, mode)
      modifies EntityFrame(entity)
      ensures CheckSameDriver(entity).Fail? ==> r == CheckSameDriver(entity)
      ensures CheckSameDriver(entity).Pass? && CheckDisplayMode(mode).Fail? ==> r == CheckDisplayMode(mode)
      ensures r.Pass? <==> CheckSameDriver(entity).Pass? && CheckDisplayMode(mode).Pass?
      ensures r.Fail? ==> unchanged(EntityFrame(entity))
      ensures r.Pass? ==> Readable(entity) && CurrentDisplayMode(entity) == Wrappers.Ok(mode)
      ensures r.Pass? && kind == ShapeDriver ==>
        entity.scene.hiddenLineDrawingOn == (mode == DisplayModeHiddenLineRemoval)
        && entity.scene.typeOfHlr == (if mode == DisplayModeHiddenLineRemoval then HlrPolyAlgo else HlrNotSet)
        && (forall v :: v in entity.scene.views ==>
              v.computedMode == (mode == DisplayModeHiddenLineRemoval) && v.trihedron == old(v.trihedron))
      ensures r.Pass? && kind == ShapeDriver && entity.aisObject != null ==>
        ShapeStateOf(entity) == ApplyShapeMode(mode, old(ShapeStateOf(entity)))
        && entity.aisObject.visible == old(entity.aisObject.visible)
        && entity.aisObject.corner == old(entity.aisObject.corner)
        && entity.aisObject.redisplays
           == old(entity.aisObject.redisplays)
              + (if mode != DisplayModeHiddenLineRemoval
                    && old(entity.aisObject.faceBoundaryDraw) != (mode == DisplayModeShadedWithFaceBoundary)
                 then 1 else 0)
      ensures r.Pass? && kind == MeshDriver ==>
        entity.aisObject.displayMode == mode
        && entity.aisObject.faceBoundaryDraw == old(entity.aisObject.faceBoundaryDraw)
        && entity.aisObject.visible == old(entity.aisObject.visible)
        && entity.aisObject.corner == old(entity.aisObject.corner)
        && entity.aisObject.redisplays == old(entity.aisObject.redisplays)
        && (entity.scene != null ==> unchanged(entity.scene) && forall v :: v in entity.scene.views ==> unchanged(v))
    {
      if entity.driver != this {
        return Wrappers.Fail(InvalidDriver);
      }
      if FindIndex(DisplayModes(), mode) == -1 {
        return Wrappers.Fail(InvalidDisplayMode);
      }
      if kind == MeshDriver {
        entity.aisObject.displayMode := mode;
        return Wrappers.Pass;
      }
      var gfxScene := entity.scene;
      if mode == DisplayModeHiddenLineRemoval {
        gfxScene.typeOfHlr := HlrPolyAlgo;
        gfxScene.hiddenLineDrawingOn := true;
        gfxScene.SetComputedMode(true);
      } else {
        gfxScene.typeOfHlr := HlrNotSet;
        gfxScene.hiddenLineDrawingOn := false;
        gfxScene.SetComputedMode(false);
        var aisDispMode := if mode == DisplayModeWireframe then AisWireFrame else AisShaded;
        var showFaceBounds := mode == DisplayModeShadedWithFaceBoundary;
        var aisObject := entity.aisObject;
        if aisObject.displayMode != aisDispMode {
          aisObject.displayMode := aisDispMode;
        }
        if aisObject.faceBoundaryDraw != showFaceBounds {
          aisObject.faceBoundaryDraw := showFaceBounds;
          aisObject.redisplays := aisObject.redisplays + 1;
        }
        ShapeModeRoundTrip(mode, old(ShapeStateOf(entity)));
      }
      return Wrappers.Pass;
    }
  }
}
