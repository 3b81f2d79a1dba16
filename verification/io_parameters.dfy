/**
 * The parameter records of the OpenCascade readers and writers, and the
 * property groups the application hands to their `applyProperties`.
 *
 * Enumerated parameters whose enumerators are declared in headers outside this
 * model (product context, assembly level, schema, ...) are carried as the
 * integer the code converts them to with `int(...)`.
 */
module IoParameters {
  /** OccGltfWriter::Format. */
  datatype GltfFormat = Json | Binary

  /** OccGltfWriter::Parameters. */
  datatype GltfParameters = GltfParameters(
    coordinatesConverter: int,
    transformationFormat: int,
    format: GltfFormat,
    forceExportUV: bool)

  /** OccStepReader::Encoding: the text encodings a STEP file may be read with. */
  datatype Encoding =
    | Shift_JIS | EUC | ANSI | GB | UTF8
    | CP_1250 | CP_1251 | CP_1252 | CP_1253 | CP_1254 | CP_1255 | CP_1256 | CP_1257 | CP_1258
    | ISO_8859_1 | ISO_8859_2 | ISO_8859_3 | ISO_8859_4 | ISO_8859_5 | ISO_8859_6 | ISO_8859_7
    | ISO_8859_8 | ISO_8859_9

  /** OccStepReader::Parameters. */
  datatype StepReaderParameters = StepReaderParameters(
    productContext: int,
    assemblyLevel: int,
    preferredShapeRepresentation: int,
    readShapeAspect: bool,
    readSubShapesNames: bool,
    encoding: Encoding)

  /** OccStepWriter::Parameters. */
  datatype StepWriterParameters = StepWriterParameters(
    schema: int,
    lengthUnit: int,
    assemblyMode: int,
    freeVertexMode: int,
    writeParametricCurves: bool,
    writeSubShapesNames: bool)

  /** VrmlAPI_RepresentationOfShape. */
  datatype VrmlRepresentation = Shaded | Wireframe | Both

  /** OccVrmlWriter::Parameters. */
  datatype VrmlParameters = VrmlParameters(shapeRepresentation: VrmlRepresentation)

  /**
   * A property group as `applyProperties` sees it: the dynamic type decides
   * which writer or reader recognises it, and the values are those its
   * properties hold.
   */
  datatype PropertyGroup =
    | GltfWriterGroup(gltf: GltfParameters)
    | StepReaderGroup(stepReader: StepReaderParameters)
    | StepWriterGroup(stepWriter: StepWriterParameters)
    | VrmlWriterGroup(vrml: VrmlParameters)
    | OtherGroup
}
