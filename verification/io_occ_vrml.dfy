/**
 * VRML writer: builds a scene from the selected application items, converts
 * it with the shaded and/or wireframe representation, and writes it out.
 *
 * `transfer` reads the member `m_shapeRepresentation`, whereas
 * `applyProperties` writes `m_params.shapeRepresentation`; the class keeps
 * the two as separate fields, `shapeRepresentation` and `params`.
 * The OpenCascade 7.4 branch is modelled: a document item is converted whole.
 */
module Vrml {
  import opened Wrappers
  import opened Caf
  import opened IoParameters

  /** The two flags passed to VrmlData_ShapeConvert::Convert. */
  datatype ConversionFlags = ConversionFlags(shaded: bool, wireframe: bool)

  /** The conversions a representation requests. */
  function FlagsOf(rep: VrmlRepresentation): (r: ConversionFlags)
    ensures RepresentationOf(r) == Some(rep)
  {
    ConversionFlags(rep == Shaded || rep == Both, rep == Wireframe || rep == Both)
  }

  /** The representation that requests a pair of conversions, if any does. */
  function RepresentationOf(flags: ConversionFlags): Option<VrmlRepresentation>
  {
    match flags
    case ConversionFlags(true, false) => Some(Shaded)
    case ConversionFlags(false, true) => Some(Wireframe)
    case ConversionFlags(true, true) => Some(Both)
    case ConversionFlags(false, false) => None
  }

  /** Every representation requests at least one conversion, and its flags name it back. */
  lemma FlagsRoundTrip(rep: VrmlRepresentation)
    ensures FlagsOf(rep).shaded || FlagsOf(rep).wireframe
    ensures RepresentationOf(FlagsOf(rep)) == Some(rep)
  {
  }

  /** Shaded conversion is requested iff the representation is Shaded or Both; wireframe iff Wireframe or Both. */
  lemma FlagsMeaning(rep: VrmlRepresentation)
    ensures FlagsOf(rep).shaded <==> rep != Wireframe
    ensures FlagsOf(rep).wireframe <==> rep != Shaded
  {
  }

  /** What the converter was given. */
  datatype SceneInput = ConvertedDocument(document: DocumentId) | AddedShape(shape: Label)

  /** A converted VRML scene. */
  datatype VrmlScene = VrmlScene(inputs: seq<SceneInput>, flags: ConversionFlags)

  /** What one item gives the converter: its whole document, its shape, or nothing. */
  function InputsOf(item: ApplicationItem): seq<SceneInput>
  {
    match item
    case DocumentItem(doc) => [ConvertedDocument(doc)]
    case TreeNodeItem(_, node) => if node.tdfLabel.isShape then [AddedShape(node.tdfLabel)] else []
    case NullItem => []
  }

  /** What the converter is given for a sequence of items, in order. */
  function SceneInputs(items: seq<ApplicationItem>): seq<SceneInput>
  {
    if items == [] then [] else InputsOf(items[0]) + SceneInputs(items[1..])
  }

  lemma {:induction false} SceneInputsSnoc(items: seq<ApplicationItem>, x: ApplicationItem)
    ensures SceneInputs(items + [x]) == SceneInputs(items) + InputsOf(x)
  {
    if items == [] {
      assert items + [x] == [x];
    } else {
      assert (items + [x])[1..] == items[1..] + [x];
      SceneInputsSnoc(items[1..], x);
    }
  }

  /** Every shape given to the converter is the shape of a tree-node item whose label is a shape. */
  lemma {:induction false} SceneShapesAreShapes(items: seq<ApplicationItem>, k: int)
    requires 0 <= k < |SceneInputs(items)| && SceneInputs(items)[k].AddedShape?
    ensures SceneInputs(items)[k].shape.isShape
    ensures exists i :: 0 <= i < |items| && items[i].TreeNodeItem? && items[i].node.tdfLabel == SceneInputs(items)[k].shape
  {
    if items != [] {
      var head := InputsOf(items[0]);
      if k < |head| {
        assert items[0].TreeNodeItem?;
      } else {
        SceneShapesAreShapes(items[1..], k - |head|);
        var i :| 0 <= i < |items[1..]| && items[1..][i].TreeNodeItem?
                 && items[1..][i].node.tdfLabel == SceneInputs(items[1..])[k - |head|].shape;
        assert items[i + 1] == items[1..][i];
      }
    }
  }

  /** A tree-node item whose label is not a shape gives the converter nothing. */
  lemma NonShapeNodeIgnored(a: seq<ApplicationItem>, x: ApplicationItem, b: seq<ApplicationItem>)
    requires x.TreeNodeItem? && !x.node.tdfLabel.isShape
    ensures SceneInputs(a + [x] + b) == SceneInputs(a + b)
  {
    assert InputsOf(x) == [];
    SceneInputsSnoc(a, x);
    SceneInputsAppend(a + [x], b);
    SceneInputsAppend(a, b);
  }

  lemma {:induction false} SceneInputsAppend(a: seq<ApplicationItem>, b: seq<ApplicationItem>)
    ensures SceneInputs(a + b) == SceneInputs(a) + SceneInputs(b)
  {
    if a == [] {
      assert a + b == b;
    } else {
      assert (a + b)[1..] == a[1..] + b;
      SceneInputsAppend(a[1..], b);
    }
  }

  /** OccVrmlWriter::Properties: the representation a user picks. */
  class VrmlWriterProperties {
    var shapeRepresentation: VrmlRepresentation

    constructor (initial: VrmlParameters)
      ensures Group() == VrmlWriterGroup(initial)
    {
      shapeRepresentation := initial.shapeRepresentation;
    }

    function Group(): PropertyGroup
      reads this
    {
      VrmlWriterGroup(VrmlParameters(shapeRepresentation))
    }

    /** Resets the representation to the default parameters'. */
    method RestoreDefaults(defaults: VrmlParameters)
      modifies this
      ensures Group() == VrmlWriterGroup(defaults)
    {
      shapeRepresentation := defaults.shapeRepresentation;
    }
  }

  /** OccVrmlWriter: the scene built by the last transfer and the writer's representation settings. */
  class OccVrmlWriter {
    var scene: Option<VrmlScene>
    var shapeRepresentation: VrmlRepresentation
    var params: VrmlParameters

    constructor (shapeRepresentation: VrmlRepresentation, params: VrmlParameters)
      ensures scene == None && this.shapeRepresentation == shapeRepresentation && this.params == params
    {
      scene := None;
      this.shapeRepresentation := shapeRepresentation;
      this.params := params;
    }

    /**
     * Replaces any previous scene by one holding, in item order, each
     * document item's document and each shape-labelled tree node's shape,
     * converted as `shapeRepresentation` asks. Always succeeds.
     */
    method Transfer(items: seq<ApplicationItem>) returns (ok: bool)
      modifies this
      ensures ok
      ensures scene == Some(VrmlScene(SceneInputs(items), FlagsOf(shapeRepresentation)))
      ensures shapeRepresentation == old(shapeRepresentation) && params == old(params)
    {
      var inputs: seq<SceneInput> := [];
      for i := 0 to |items|
        invariant inputs == SceneInputs(items[..i])
        invariant shapeRepresentation == old(shapeRepresentation) && params == old(params)
      {
        var item := items[i];
        assert items[..i + 1] == items[..i] + [item];
        SceneInputsSnoc(items[..i], item);
        if item.IsDocument() {
          inputs := inputs + [ConvertedDocument(item.document)];
        } else if item.IsDocumentTreeNode() {
          var l := item.node.tdfLabel;
          if l.isShape {
            inputs := inputs + [AddedShape(l)];
          }
        }
      }
      assert items[..|items|] == items;
      var rep := shapeRepresentation;
      scene := Some(VrmlScene(inputs, ConversionFlags(rep == Shaded || rep == Both, rep == Wireframe || rep == Both)));
      ok := true;
    }

    /**
     * Fails without a scene; otherwise succeeds exactly when the output
     * stream opened and is still good after the scene was written to it.
     */
    method WriteFile(streamOpened: bool, streamGood: bool) returns (ok: bool)
      ensures scene.None? ==> !ok
      ensures scene.Some? ==> (ok <==> streamOpened && streamGood)
    {
      if scene.None? {
        return false;
      }
      if streamOpened {
        return streamGood;
      }
      return false;
    }

    /** Takes the representation from a group of the writer's own type; ignores any other group. */
    method ApplyProperties(group: PropertyGroup)
      modifies this
      ensures group.VrmlWriterGroup? ==> params == group.vrml
      ensures !group.VrmlWriterGroup? ==> params == old(params)
      ensures scene == old(scene) && shapeRepresentation == old(shapeRepresentation)
    {
      if group.VrmlWriterGroup? {
        params := params.(shapeRepresentation := group.vrml.shapeRepresentation);
      }
    }
  }
}
