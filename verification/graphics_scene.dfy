/**
 * The few facts of the OpenCascade presentation layer that the display-mode
 * rules and the GUI document read or write: AIS objects, 3D views and the
 * scene's default drawer.
 */
module GraphicsScenes {
  /** Prs3d_TypeOfHLR: the two values the drivers use. */
  datatype TypeOfHlr = HlrNotSet | HlrPolyAlgo

  /** Aspect_TypeOfTriedronPosition: the four corner positions. */
  datatype TrihedronPosition = LeftUpper | RightUpper | LeftLower | RightLower

  /** An AIS interactive object: its display mode, drawer flag, visibility and corner anchor. */
  class AisObject {
    var displayMode: int
    var faceBoundaryDraw: bool
    var visible: bool
    /** The 2D corner of a trihedron-persistent object such as the view cube. */
    var corner: TrihedronPosition
    /** How many times the object was redisplayed. */
    var redisplays: nat

    constructor (displayMode: int, faceBoundaryDraw: bool, corner: TrihedronPosition)
      ensures this.displayMode == displayMode && this.faceBoundaryDraw == faceBoundaryDraw
      ensures this.corner == corner && !visible && redisplays == 0
    {
      this.displayMode := displayMode;
      this.faceBoundaryDraw := faceBoundaryDraw;
      this.corner := corner;
      visible := false;
      redisplays := 0;
    }

    /** How the object is drawn: everything but its visibility and its corner. */
    function Presentation(): (int, bool, nat)
      reads this
    {
      (displayMode, faceBoundaryDraw, redisplays)
    }
  }

  /** A V3d view: its computed (hidden-line) mode and its z-buffer trihedron, if displayed. */
  class V3dView {
    var computedMode: bool
    var trihedron: ViewTrihedron

    constructor ()
      ensures !computedMode && trihedron == TrihedronErased
    {
      computedMode := false;
      trihedron := TrihedronErased;
    }
  }

  /** Whether a view shows its z-buffer trihedron, and where. */
  datatype ViewTrihedron = TrihedronErased | TrihedronShown(position: TrihedronPosition)

  /** A graphics scene: the default drawer's hidden-line settings and the viewer's views. */
  class GraphicsScene {
    var hiddenLineDrawingOn: bool
    var typeOfHlr: TypeOfHlr
    const views: seq<V3dView>

    constructor (views: seq<V3dView>)
      ensures !hiddenLineDrawingOn && typeOfHlr == HlrNotSet && this.views == views
    {
      hiddenLineDrawingOn := false;
      typeOfHlr := HlrNotSet;
      this.views := views;
    }

    /** The views of the viewer, as a frame. */
    function ViewSet(): set<V3dView>
    {
      set v | v in views
    }

    /** Sets the computed mode of every defined view, leaving their trihedrons alone. */
    method SetComputedMode(on: bool)
      modifies ViewSet()
      ensures forall v :: v in views ==> v.computedMode == on && v.trihedron == old(v.trihedron)
    {
      for i := 0 to |views|
        invariant forall j :: 0 <= j < i ==> views[j].computedMode == on
        invariant forall v :: v in views ==> v.trihedron == old(v.trihedron)
      {
        views[i].computedMode := on;
      }
    }
  }
}
