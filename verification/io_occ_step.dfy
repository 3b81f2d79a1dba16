/**
 * STEP reader and writer: the parameters they keep, the property groups that
 * edit them, and the static variables of OpenCascade they set for the
 * duration of each read or write.
 *
 * The OpenCascade 7.5 branch is modelled: the code-page key is
 * "read.step.codepage" and the Windows and ISO 8859 code pages are known.
 */
module Step {
  import opened Wrappers
  import opened IoParameters
  import opened StaticVariables

  /** The OpenCascade name of the code page for an encoding. */
  function OccCodePage(e: Encoding): (r: string)
    ensures EncodingOfCodePage(r) == Some(e)
  {
    match e
    case Shift_JIS => "SJIS"
    case EUC => "EUC"
    case ANSI => "ANSI"
    case GB => "GB"
    case UTF8 => "UTF8"
    case CP_1250 => "CP1250"
    case CP_1251 => "CP1251"
    case CP_1252 => "CP1252"
    case CP_1253 => "CP1253"
    case CP_1254 => "CP1254"
    case CP_1255 => "CP1255"
    case CP_1256 => "CP1256"
    case CP_1257 => "CP1257"
    case CP_1258 => "CP1258"
    case ISO_8859_1 => "iso8859-1"
    case ISO_8859_2 => "iso8859-2"
    case ISO_8859_3 => "iso8859-3"
    case ISO_8859_4 => "iso8859-4"
    case ISO_8859_5 => "iso8859-5"
    case ISO_8859_6 => "iso8859-6"
    case ISO_8859_7 => "iso8859-7"
    case ISO_8859_8 => "iso8859-8"
    case ISO_8859_9 => "iso8859-9"
  }

  /** The encoding an OpenCascade code-page name stands for, if any. */
  function EncodingOfCodePage(s: string): Option<Encoding>
  {
    if s == "SJIS" then Some(Shift_JIS)
    else if s == "EUC" then Some(EUC)
    else if s == "ANSI" then Some(ANSI)
    else if s == "GB" then Some(GB)
    else if s == "UTF8" then Some(UTF8)
    else if s == "CP1250" then Some(CP_1250)
    else if s == "CP1251" then Some(CP_1251)
    else if s == "CP1252" then Some(CP_1252)
    else if s == "CP1253" then Some(CP_1253)
    else if s == "CP1254" then Some(CP_1254)
    else if s == "CP1255" then Some(CP_1255)
    else if s == "CP1256" then Some(CP_1256)
    else if s == "CP1257" then Some(CP_1257)
    else if s == "CP1258" then Some(CP_1258)
    else if s == "iso8859-1" then Some(ISO_8859_1)
    else if s == "iso8859-2" then Some(ISO_8859_2)
    else if s == "iso8859-3" then Some(ISO_8859_3)
    else if s == "iso8859-4" then Some(ISO_8859_4)
    else if s == "iso8859-5" then Some(ISO_8859_5)
    else if s == "iso8859-6" then Some(ISO_8859_6)
    else if s == "iso8859-7" then Some(ISO_8859_7)
    else if s == "iso8859-8" then Some(ISO_8859_8)
    else if s == "iso8859-9" then Some(ISO_8859_9)
    else None
  }

  /** Every encoding has a code page, and the code page names the encoding back. */
  lemma CodePageRoundTrip(e: Encoding)
    ensures EncodingOfCodePage(OccCodePage(e)) == Some(e)
  {
  }

  /** No two encodings share a code-page string. */
  lemma CodePageInjective(a: Encoding, b: Encoding)
    requires OccCodePage(a) == OccCodePage(b)
    ensures a == b
  {
    CodePageRoundTrip(a);
    CodePageRoundTrip(b);
  }

  /** A boolean parameter as the static variables hold it. */
  function BoolFlag(b: bool): int
  {
    if b then 1 else 0
  }

  /** The boolean a static value of 1 or 0 stands for. */
  function FlagOf(v: Option<StaticValue>): Option<bool>
  {
    if v == Some(IntValue(1)) then Some(true)
    else if v == Some(IntValue(0)) then Some(false)
    else None
  }

  function IntOf(v: Option<StaticValue>): Option<int>
  {
    if v.Some? && v.value.IntValue? then Some(v.value.i) else None
  }

  function TextOf(v: Option<StaticValue>): Option<string>
  {
    if v.Some? && v.value.TextValue? then Some(v.value.text) else None
  }

  const ProductContextKey := "read.step.product.context"
  const AssemblyLevelKey := "read.step.assembly.level"
  const ShapeReprKey := "read.step.shape.repr"
  const ShapeAspectKey := "read.step.shape.aspect"
  const ReadSubShapesNamesKey := "read.stepcaf.subshapes.name"
  const CodePageKey := "read.step.codepage"

  /** The six changes the reader makes, in the order it makes them. */
  function ReaderStaticChanges(p: StepReaderParameters): seq<StaticChange>
  {
    [ StaticChange(ProductContextKey, IntValue(p.productContext)),
      StaticChange(AssemblyLevelKey, IntValue(p.assemblyLevel)),
      StaticChange(ShapeReprKey, IntValue(p.preferredShapeRepresentation)),
      StaticChange(ShapeAspectKey, IntValue(BoolFlag(p.readShapeAspect))),
      StaticChange(ReadSubShapesNamesKey, IntValue(BoolFlag(p.readSubShapesNames))),
      StaticChange(CodePageKey, TextValue(OccCodePage(p.encoding))) ]
  }

  /** The reader parameters a store expresses through the six reader keys, if it expresses any. */
  function ReaderParametersIn(values: map<string, StaticValue>): Option<StepReaderParameters>
  {
    var productContext := IntOf(Get(values, ProductContextKey));
    var assemblyLevel := IntOf(Get(values, AssemblyLevelKey));
    var shapeRepr := IntOf(Get(values, ShapeReprKey));
    var shapeAspect := FlagOf(Get(values, ShapeAspectKey));
    var subShapesNames := FlagOf(Get(values, ReadSubShapesNamesKey));
    var codePage := TextOf(Get(values, CodePageKey));
    var encoding := if codePage.Some? then EncodingOfCodePage(codePage.value) else None;
    if productContext.Some? && assemblyLevel.Some? && shapeRepr.Some? && shapeAspect.Some?
      && subShapesNames.Some? && encoding.Some?
    then Some(StepReaderParameters(productContext.value, assemblyLevel.value, shapeRepr.value,
                                   shapeAspect.value, subShapesNames.value, encoding.value))
    else None
  }

  /**
   * Whatever the store held before, once the reader's changes are applied
   * the store expresses exactly the reader's parameters.
   */
  lemma ReaderStaticChangesRoundTrip(values: map<string, StaticValue>, p: StepReaderParameters)
    ensures ReaderParametersIn(Applied(values, ReaderStaticChanges(p))) == Some(p)
  {
    var changes := ReaderStaticChanges(p);
    var after := Applied(values, changes);
    AppliedLastWins(values, changes, 0);
    AppliedLastWins(values, changes, 1);
    AppliedLastWins(values, changes, 2);
    AppliedLastWins(values, changes, 3);
    AppliedLastWins(values, changes, 4);
    AppliedLastWins(values, changes, 5);
    CodePageRoundTrip(p.encoding);
    assert IntOf(Get(after, ProductContextKey)) == Some(p.productContext);
    assert IntOf(Get(after, AssemblyLevelKey)) == Some(p.assemblyLevel);
    assert IntOf(Get(after, ShapeReprKey)) == Some(p.preferredShapeRepresentation);
    assert FlagOf(Get(after, ShapeAspectKey)) == Some(p.readShapeAspect);
    assert FlagOf(Get(after, ReadSubShapesNamesKey)) == Some(p.readSubShapesNames);
    assert TextOf(Get(after, CodePageKey)) == Some(OccCodePage(p.encoding));
  }

  /** The reader changes no key besides its six. */
  lemma ReaderStaticChangesElsewhere(values: map<string, StaticValue>, p: StepReaderParameters, key: string)
    requires key !in {ProductContextKey, AssemblyLevelKey, ShapeReprKey, ShapeAspectKey, ReadSubShapesNamesKey, CodePageKey}
    ensures Get(Applied(values, ReaderStaticChanges(p)), key) == Get(values, key)
  {
    AppliedElsewhere(values, ReaderStaticChanges(p), key);
  }

  const SchemaKey := "write.step.schema"
  const UnitKey := "write.step.unit"
  const AssemblyKey := "write.step.assembly"
  const VertexModeKey := "write.step.vertex.mode"
  const SurfaceCurveKey := "write.surfacecurve.mode"
  const WriteSubShapesNamesKey := "write.stepcaf.subshapes.name"

  /** The six changes the writer makes, in order; `unit` is the length unit as a CAF string. */
  function WriterStaticChanges(p: StepWriterParameters, unit: string): seq<StaticChange>
  {
    [ StaticChange(SchemaKey, IntValue(p.schema)),
      StaticChange(UnitKey, TextValue(unit)),
      StaticChange(AssemblyKey, IntValue(p.assemblyMode)),
      StaticChange(VertexModeKey, IntValue(p.freeVertexMode)),
      StaticChange(SurfaceCurveKey, IntValue(BoolFlag(p.writeParametricCurves))),
      StaticChange(WriteSubShapesNamesKey, IntValue(BoolFlag(p.writeSubShapesNames))) ]
  }

  /** The writer settings as the static variables express them. */
  datatype WriterSettings = WriterSettings(
    schema: int, unit: string, assemblyMode: int, freeVertexMode: int,
    writeParametricCurves: bool, writeSubShapesNames: bool)

  function WriterSettingsIn(values: map<string, StaticValue>): Option<WriterSettings>
  {
    var schema := IntOf(Get(values, SchemaKey));
    var unit := TextOf(Get(values, UnitKey));
    var assembly := IntOf(Get(values, AssemblyKey));
    var vertexMode := IntOf(Get(values, VertexModeKey));
    var curves := FlagOf(Get(values, SurfaceCurveKey));
    var names := FlagOf(Get(values, WriteSubShapesNamesKey));
    if schema.Some? && unit.Some? && assembly.Some? && vertexMode.Some? && curves.Some? && names.Some?
    then Some(WriterSettings(schema.value, unit.value, assembly.value, vertexMode.value, curves.value, names.value))
    else None
  }

  /**
   * Once the writer's changes are applied the store expresses exactly the
   * writer's parameters, with the length unit as its CAF string.
   */
  lemma WriterStaticChangesRoundTrip(values: map<string, StaticValue>, p: StepWriterParameters, unit: string)
    ensures WriterSettingsIn(Applied(values, WriterStaticChanges(p, unit)))
         == Some(WriterSettings(p.schema, unit, p.assemblyMode, p.freeVertexMode,
                                p.writeParametricCurves, p.writeSubShapesNames))
  {
    var changes := WriterStaticChanges(p, unit);
    var after := Applied(values, changes);
    AppliedLastWins(values, changes, 0);
    AppliedLastWins(values, changes, 1);
    AppliedLastWins(values, changes, 2);
    AppliedLastWins(values, changes, 3);
    AppliedLastWins(values, changes, 4);
    AppliedLastWins(values, changes, 5);
    assert IntOf(Get(after, SchemaKey)) == Some(p.schema);
    assert TextOf(Get(after, UnitKey)) == Some(unit);
    assert IntOf(Get(after, AssemblyKey)) == Some(p.assemblyMode);
    assert IntOf(Get(after, VertexModeKey)) == Some(p.freeVertexMode);
    assert FlagOf(Get(after, SurfaceCurveKey)) == Some(p.writeParametricCurves);
    assert FlagOf(Get(after, WriteSubShapesNamesKey)) == Some(p.writeSubShapesNames);
  }

  /** The writer changes no key besides its six. */
  lemma WriterStaticChangesElsewhere(values: map<string, StaticValue>, p: StepWriterParameters, unit: string, key: string)
    requires key !in {SchemaKey, UnitKey, AssemblyKey, VertexModeKey, SurfaceCurveKey, WriteSubShapesNamesKey}
    ensures Get(Applied(values, WriterStaticChanges(p, unit)), key) == Get(values, key)
  {
    AppliedElsewhere(values, WriterStaticChanges(p, unit), key);
  }

  /** IFSelect_ReturnStatus: the status STEPControl_Writer::Write reports. */
  datatype ReturnStatus = RetVoid | RetDone | RetError | RetFail | RetStop

  /** OccStepReader::Properties: the properties a user edits for the STEP reader. */
  class StepReaderProperties {
    var productContext: int
    var assemblyLevel: int
    var preferredShapeRepresentation: int
    var readShapeAspect: bool
    var readSubShapesNames: bool
    var encoding: Encoding

    constructor (initial: StepReaderParameters)
      ensures Group() == StepReaderGroup(initial)
    {
      productContext := initial.productContext;
      assemblyLevel := initial.assemblyLevel;
      preferredShapeRepresentation := initial.preferredShapeRepresentation;
      readShapeAspect := initial.readShapeAspect;
      readSubShapesNames := initial.readSubShapesNames;
      encoding := initial.encoding;
    }

    /** The group as the reader's `applyProperties` receives it. */
    function Group(): PropertyGroup
      reads this
    {
      StepReaderGroup(StepReaderParameters(productContext, assemblyLevel, preferredShapeRepresentation,
                                           readShapeAspect, readSubShapesNames, encoding))
    }

    /** Resets every property but the preferred shape representation to its default. */
    method RestoreDefaults(defaults: StepReaderParameters)
      modifies this
      ensures Group() == StepReaderGroup(defaults.(preferredShapeRepresentation := old(preferredShapeRepresentation)))
    {
      productContext := defaults.productContext;
      assemblyLevel := defaults.assemblyLevel;
      readShapeAspect := defaults.readShapeAspect;
      readSubShapesNames := defaults.readSubShapesNames;
      encoding := defaults.encoding;
    }
  }

  /** OccStepReader: the parameters it reads STEP files with. */
  class OccStepReader {
    var params: StepReaderParameters

    constructor (params: StepReaderParameters)
      ensures this.params == params
    {
      this.params := params;
    }

    /** Takes all six values from a group of the reader's own type; ignores any other group. */
    method ApplyProperties(group: PropertyGroup)
      modifies this
      ensures group.StepReaderGroup? ==> params == group.stepReader
      ensures !group.StepReaderGroup? ==> params == old(params)
    {
      if group.StepReaderGroup? {
        var values := group.stepReader;
        params := params.(productContext := values.productContext);
        params := params.(assemblyLevel := values.assemblyLevel);
        params := params.(preferredShapeRepresentation := values.preferredShapeRepresentation);
        params := params.(readShapeAspect := values.readShapeAspect);
        params := params.(readSubShapesNames := values.readSubShapesNames);
        params := params.(encoding := values.encoding);
      }
    }

    /** Writes the six reader keys through the rollback. */
    method ChangeStaticVariables(rollback: StaticVariablesRollback)
      requires rollback.Valid()
      modifies rollback, rollback.store
      ensures rollback.Valid() && rollback.original == old(rollback.original)
      ensures rollback.store.values == Applied(old(rollback.store.values), ReaderStaticChanges(params))
    {
      var changes := ReaderStaticChanges(params);
      ghost var before := rollback.store.values;
      rollback.Change(ProductContextKey, IntValue(params.productContext));
      rollback.Change(AssemblyLevelKey, IntValue(params.assemblyLevel));
      rollback.Change(ShapeReprKey, IntValue(params.preferredShapeRepresentation));
      rollback.Change(ShapeAspectKey, IntValue(if params.readShapeAspect then 1 else 0));
      rollback.Change(ReadSubShapesNamesKey, IntValue(if params.readSubShapesNames then 1 else 0));
      rollback.Change(CodePageKey, TextValue(OccCodePage(params.encoding)));
      AppliedSteps(before, changes);
    }

    /**
     * Reads a file with the reader keys set; `cafRead` stands for the result
     * of the OpenCascade read. Returns that result and the store the read saw;
     * the store is restored afterwards.
     */
    method ReadFile(store: StaticStore, cafRead: bool) returns (ok: bool, seen: map<string, StaticValue>)
      modifies store
      ensures ok == cafRead
      ensures seen == Applied(old(store.values), ReaderStaticChanges(params))
      ensures store.values == old(store.values)
    {
      var rollback := new StaticVariablesRollback(store);
      ChangeStaticVariables(rollback);
      seen := store.values;
      ok := cafRead;
      rollback.Restore();
    }
  }

  /** Six successive updates of a store are the six changes applied. */
  lemma AppliedSteps(values: map<string, StaticValue>, c: seq<StaticChange>)
    requires |c| == 6
    ensures Applied(values, c)
         == values[c[0].key := c[0].value][c[1].key := c[1].value][c[2].key := c[2].value]
                  [c[3].key := c[3].value][c[4].key := c[4].value][c[5].key := c[5].value]
  {
    assert c == [c[0]] + [c[1]] + [c[2]] + [c[3]] + [c[4]] + [c[5]];
    AppliedSnoc(values, [], c[0]);
    assert [c[0]] + [c[1]] == [c[0], c[1]];
    AppliedSnoc(values, [c[0]], c[1]);
    AppliedSnoc(values, [c[0], c[1]], c[2]);
    assert [c[0], c[1]] + [c[2]] == [c[0], c[1], c[2]];
    AppliedSnoc(values, [c[0], c[1], c[2]], c[3]);
    assert [c[0], c[1], c[2]] + [c[3]] == [c[0], c[1], c[2], c[3]];
    AppliedSnoc(values, [c[0], c[1], c[2], c[3]], c[4]);
    assert [c[0], c[1], c[2], c[3]] + [c[4]] == [c[0], c[1], c[2], c[3], c[4]];
    AppliedSnoc(values, [c[0], c[1], c[2], c[3], c[4]], c[5]);
    assert [c[0], c[1], c[2], c[3], c[4]] + [c[5]] == c;
  }

  /** OccStepWriter::Properties: the properties a user edits for the STEP writer. */
  class StepWriterProperties {
    var schema: int
    var lengthUnit: int
    var assemblyMode: int
    var freeVertexMode: int
    var writePCurves: bool
    var writeSubShapesNames: bool

    constructor (initial: StepWriterParameters)
      ensures Group() == StepWriterGroup(initial)
    {
      schema := initial.schema;
      lengthUnit := initial.lengthUnit;
      assemblyMode := initial.assemblyMode;
      freeVertexMode := initial.freeVertexMode;
      writePCurves := initial.writeParametricCurves;
      writeSubShapesNames := initial.writeSubShapesNames;
    }

    function Group(): PropertyGroup
      reads this
    {
      StepWriterGroup(StepWriterParameters(schema, lengthUnit, assemblyMode, freeVertexMode,
                                           writePCurves, writeSubShapesNames))
    }

    /** Resets all six properties to the default parameters. */
    method RestoreDefaults(defaults: StepWriterParameters)
      modifies this
      ensures Group() == StepWriterGroup(defaults)
    {
      schema := defaults.schema;
      lengthUnit := defaults.lengthUnit;
      assemblyMode := defaults.assemblyMode;
      freeVertexMode := defaults.freeVertexMode;
      writePCurves := defaults.writeParametricCurves;
      writeSubShapesNames := defaults.writeSubShapesNames;
    }
  }

  /**
   * OccStepWriter: its parameters and the number of times it has asked
   * STEPControl_Writer for a new model (`Model(true)`).
   */
  class OccStepWriter {
    var params: StepWriterParameters
    var modelResets: nat

    constructor (params: StepWriterParameters)
      ensures this.params == params && modelResets == 0
    {
      this.params := params;
      modelResets := 0;
    }

    /** Takes all six values from a group of the writer's own type; ignores any other group. */
    method ApplyProperties(group: PropertyGroup)
      modifies this
      ensures group.StepWriterGroup? ==> params == group.stepWriter
      ensures !group.StepWriterGroup? ==> params == old(params)
      ensures modelResets == old(modelResets)
    {
      if group.StepWriterGroup? {
        var values := group.stepWriter;
        params := params.(schema := values.schema);
        params := params.(lengthUnit := values.lengthUnit);
        params := params.(assemblyMode := values.assemblyMode);
        params := params.(freeVertexMode := values.freeVertexMode);
        params := params.(writeParametricCurves := values.writeParametricCurves);
        params := params.(writeSubShapesNames := values.writeSubShapesNames);
      }
    }

    /**
     * Writes the six writer keys through the rollback, and rebuilds the
     * writer's model exactly when the schema differs from the one the store
     * held before. `toCafString` is the length unit's CAF spelling.
     */
    method ChangeStaticVariables(rollback: StaticVariablesRollback, toCafString: int -> string)
      requires rollback.Valid()
      modifies this, rollback, rollback.store
      ensures rollback.Valid() && rollback.original == old(rollback.original)
      ensures rollback.store.values
           == Applied(old(rollback.store.values), WriterStaticChanges(params, toCafString(params.lengthUnit)))
      ensures params == old(params)
      ensures modelResets == old(modelResets)
                             + (if params.schema != IVal(old(rollback.store.values), SchemaKey) then 1 else 0)
    {
      var changes := WriterStaticChanges(params, toCafString(params.lengthUnit));
      ghost var before := rollback.store.values;
      var previousSchema := IVal(rollback.store.values, SchemaKey);
      rollback.Change(SchemaKey, IntValue(params.schema));
      if params.schema != previousSchema {
        modelResets := modelResets + 1;
      }
      rollback.Change(UnitKey, TextValue(toCafString(params.lengthUnit)));
      rollback.Change(AssemblyKey, IntValue(params.assemblyMode));
      rollback.Change(VertexModeKey, IntValue(params.freeVertexMode));
      rollback.Change(SurfaceCurveKey, IntValue(if params.writeParametricCurves then 1 else 0));
      rollback.Change(WriteSubShapesNamesKey, IntValue(if params.writeSubShapesNames then 1 else 0));
      AppliedSteps(before, changes);
    }

    /**
     * Writes the file with the writer keys set; `status` stands for what
     * STEPControl_Writer::Write reports. Progress ends at 100, the result is
     * true exactly for `RetDone`, and the store is restored afterwards.
     */
    method WriteFile(store: StaticStore, toCafString: int -> string, status: ReturnStatus)
      returns (ok: bool, progress: int, seen: map<string, StaticValue>)
      modifies this, store
      ensures ok <==> status == RetDone
      ensures progress == 100
      ensures seen == Applied(old(store.values), WriterStaticChanges(params, toCafString(params.lengthUnit)))
      ensures store.values == old(store.values)
      ensures params == old(params)
      ensures modelResets == old(modelResets) + (if params.schema != IVal(old(store.values), SchemaKey) then 1 else 0)
    {
      var rollback := new StaticVariablesRollback(store);
      ChangeStaticVariables(rollback, toCafString);
      seen := store.values;
      progress := 100;
      ok := status == RetDone;
      rollback.Restore();
    }
  }
}
