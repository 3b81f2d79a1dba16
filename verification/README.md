# Mayo: verified model of the I/O, graphics-driver and GUI-document logic

Mayo is a desktop CAD viewer and converter built on Qt and OpenCascade. The
file codecs, B-rep data and rendering all live inside OpenCascade. This
project models Mayo's own decision and bookkeeping code around those calls,
and proves properties of that model in Dafny:

- **glTF export** (`OccGltfWriter`). `transfer` picks one target document from
  the application items and collects that document's tree-node root labels.
  `writeFile` asks for a binary or JSON file, and for the whole document or
  for those roots only.
- **STEP reader and writer** (`OccStepReader`, `OccStepWriter`). Parameters are
  copied in from property groups and forwarded to OpenCascade static
  variables. Each call writes the variables through a rollback object, which
  restores them when the call ends. An encoding maps to a code-page string.
  The writer model is rebuilt when the schema changes.
- **VRML export** (`OccVrmlWriter`). A representation (Shaded, Wireframe or
  Both) decides the shaded and wireframe conversions. Tree nodes contribute
  only when their label is a shape.
- **Enumerations** built from enum metadata (`Enumeration::fromEnum`,
  `Enumeration::fromQENUM`).
- **Graphics entity drivers** (`GraphicsShapeEntityDriver`,
  `GraphicsMeshEntityDriver`). They classify label support, create entities,
  and check and apply display modes. `currentDisplayMode` reads a display
  mode back.
- **GuiDocument**. It keeps a list of graphics items keyed by entity tree-node
  id, and runs the view-trihedron mode/corner state machine.

OpenCascade objects are abstract values carrying only what the code reads.
A label carries is-shape, has-triangulation-attribute, whether that attribute holds a triangulation, is-face and face-triangulated.
An AIS object carries display mode, face-boundary flag, visibility and corner
anchor. A view carries computed mode and z-buffer trihedron. A scene carries
its hidden-line flags and its views.

Modelling choices:

- Results of foreign calls are method parameters. These are
  `RWGltf_CafWriter::Perform`, `STEPControl_Writer::Write`, the CAF read, the
  output stream's state, `OccCommon::toCafString` and the model tree's
  `nodeRoot`.
- Emitted Qt signals are appended to an event log.
- The `dynamic_cast` in `applyProperties` is a `PropertyGroup` datatype whose
  constructor tells the group's type.
- The source is C++ and throws `std::invalid_argument` from the
  `throwIf_*` checks. These become `Outcome`/`Result` values.
- OpenCascade version branches follow OpenCascade 7.5 or later. The STEP code
  page is written under `read.step.codepage`, and the ISO/CP code pages
  exist. Documents are converted whole in VRML, and the view cube exists.

Modules: `Wrappers`, `Caf`, `Enumerations`, `IoParameters`,
`StaticVariables`, `Step`, `GltfWriter`, `Vrml`, `GraphicsScenes`,
`GraphicsDriver`, `GuiDocuments`.

## Model

| member | source | states |
|---|---|---|
| `Enumerations.Enumeration.AddItem` | src/base/enumeration_fromenum.h:48 | `addItem` appends exactly one item (value, text id) at the end of the enumeration |
| `Enumerations.FromEnum` | src/base/enumeration_fromenum.h:38-52 | one item per meta-enum entry, in entry order; item i has value `int(entry.first)` and key (context, entry name); every key uses the same context |
| `Enumerations.FromQEnum` | src/base/enumeration_fromenum.h:20-36 | items for indices 0..keyCount-1 in order, with value `value(i)` and key (context, `key(i)`) |
| `Enumerations.FindIndex` | src/graphics/graphics_entity_driver.cpp:38 | `findIndex` gives the index of the first item holding the value, or -1 exactly when no item holds it |
| `Enumerations.FromEnumFindsEntry` | src/base/enumeration_fromenum.h:46-49 | with pairwise distinct enumerators, the enumeration built by `fromEnum` finds entry i's enumerator at index i |
| `StaticVariables.StaticVariablesRollback.Change` | src/base/io_occ_step.cpp:211 | a `rollback->change(key, value)` sets the key in the static store and keeps the rollback able to restore the original store |
| `StaticVariables.StaticVariablesRollback.Restore` | src/base/io_occ_step.cpp:138-140 | when the rollback goes out of scope the static store is exactly what it was when the rollback was created |
| `StaticVariables.AppliedLastWins` | src/base/io_occ_step.cpp:211-216 | after a sequence of changes, the last change of a key decides its value |
| `StaticVariables.AppliedElsewhere` | src/base/io_occ_step.cpp:211-216 | a key no change names keeps its value or its absence |
| `Step.OccCodePage` | src/base/io_occ_step.cpp:171-202 | the code page chosen for an encoding names that encoding back |
| `Step.CodePageRoundTrip` | src/base/io_occ_step.cpp:171-202 | every listed encoding has a code-page string, and that string names the encoding back (the table is total) |
| `Step.CodePageInjective` | src/base/io_occ_step.cpp:171-202 | no two encodings share a code-page string |
| `Step.ReaderStaticChangesRoundTrip` | src/base/io_occ_step.cpp:204-216 | after the reader's six changes the store holds product context, assembly level and shape representation as ints, shape aspect and sub-shape names as 1/0, and the code page under `read.step.codepage`; these decode to exactly the reader parameters, whatever the store held before |
| `Step.ReaderStaticChangesElsewhere` | src/base/io_occ_step.cpp:211-216 | the reader changes no static variable besides its six keys |
| `Step.WriterStaticChangesRoundTrip` | src/base/io_occ_step.cpp:327-343 | after the writer's six changes the store holds schema, unit string, assembly and vertex mode, and parametric curves and sub-shape names as 1/0, decoding to exactly the writer parameters |
| `Step.WriterStaticChangesElsewhere` | src/base/io_occ_step.cpp:338-342 | the writer changes no static variable besides its six keys |
| `Step.AppliedSteps` | src/base/io_occ_step.cpp:211-216 | six successive `change` calls give the store the six changes applied in order |
| `Step.StepReaderProperties.RestoreDefaults` | src/base/io_occ_step.cpp:59-66 | product context, assembly level, shape aspect, sub-shape names and encoding take the default values; the preferred shape representation keeps its value |
| `Step.OccStepReader.ApplyProperties` | src/base/io_occ_step.cpp:156-167 | a reader property group sets all six parameters to its values; any other group leaves them unchanged |
| `Step.OccStepReader.ChangeStaticVariables` | src/base/io_occ_step.cpp:169-217 | the store becomes the reader's six changes applied to the old store, and the rollback can still restore the original |
| `Step.OccStepReader.ReadFile` | src/base/io_occ_step.cpp:135-141 | the read sees the store with the reader's changes applied, its result is the CAF read's, and the store is restored afterwards |
| `Step.StepWriterProperties.RestoreDefaults` | src/base/io_occ_step.cpp:258-266 | all six writer properties take the default parameter values |
| `Step.OccStepWriter.ApplyProperties` | src/base/io_occ_step.cpp:314-325 | a writer property group sets all six parameters to its values; any other group leaves them unchanged |
| `Step.OccStepWriter.ChangeStaticVariables` | src/base/io_occ_step.cpp:327-343 | the store becomes the writer's six changes applied to the old store; the writer model is rebuilt exactly once when the new schema differs from the schema read before the change, and not at all otherwise |
| `Step.OccStepWriter.WriteFile` | src/base/io_occ_step.cpp:299-307 | progress is set to 100; the result is true exactly when the write status is `RetDone`; the write sees the writer's changes; the writer model is rebuilt once exactly when the schema differs from the stored one (lines 329-336); the store is restored afterwards |
| `GltfWriter.ChosenDocumentIsFirst` | src/base/io_occ_gltf_writer.cpp:70-77 | the chosen document is the document of the first item that is a document or a document tree node |
| `GltfWriter.ChosenDocumentNone` | src/base/io_occ_gltf_writer.cpp:83-86 | no document is chosen exactly when no item is a document or a tree node |
| `GltfWriter.ChosenDocumentSnoc` | src/base/io_occ_gltf_writer.cpp:71-76 | once a document is chosen, later items, including a second document item, never change the choice |
| `GltfWriter.RootLabelsAppend` | src/base/io_occ_gltf_writer.cpp:78-79 | root labels are collected item by item, in input order |
| `GltfWriter.RootLabelsBeforeChoice` | src/base/io_occ_gltf_writer.cpp:74-79 | items scanned before a document is chosen contribute no root label |
| `GltfWriter.RootLabelsIgnore` | src/base/io_occ_gltf_writer.cpp:71-79 | document items and tree nodes of another document add no root label |
| `GltfWriter.RootLabelsMembers` | src/base/io_occ_gltf_writer.cpp:74-80 | a label is a root label exactly when some tree-node item of the chosen document carries it |
| `GltfWriter.ChosenByTreeNode` | src/base/io_occ_gltf_writer.cpp:74-79 | when the first relevant item is a tree node, its document is chosen and its label is the first root label |
| `GltfWriter.GltfWriterProperties.RestoreDefaults` | src/base/io_occ_gltf_writer.cpp:41-47 | all four glTF properties take the default parameter values |
| `GltfWriter.OccGltfWriter.Transfer` | src/base/io_occ_gltf_writer.cpp:66-87 | discards the earlier document and roots. The document becomes the chosen one. The roots become exactly its tree-node labels in input order. The result is false exactly when no document was chosen |
| `GltfWriter.OccGltfWriter.WriteFile` | src/base/io_occ_gltf_writer.cpp:89-102 | without a document nothing is requested and the result is false. Otherwise the file is binary exactly when the format is Binary, and the whole document is written exactly when the root list is empty, else those roots. The result is Perform's |
| `GltfWriter.OccGltfWriter.ApplyProperties` | src/base/io_occ_gltf_writer.cpp:109-118 | a glTF property group sets all four parameters; any other group leaves them unchanged |
| `Vrml.FlagsOf` | src/base/io_occ_vrml.cpp:73-76 | the conversion flags requested for a representation name that representation back |
| `Vrml.FlagsRoundTrip` | src/base/io_occ_vrml.cpp:39-43 | each of the three representations requests at least one conversion, and its flag pair names it back |
| `Vrml.FlagsMeaning` | src/base/io_occ_vrml.cpp:73-76 | shaded conversion is requested exactly for Shaded or Both, wireframe conversion exactly for Wireframe or Both |
| `Vrml.SceneInputsSnoc` | src/base/io_occ_vrml.cpp:55-71 | the converter's inputs grow item by item, in item order |
| `Vrml.SceneInputsAppend` | src/base/io_occ_vrml.cpp:55 | the inputs of concatenated item lists are the concatenated inputs |
| `Vrml.SceneShapesAreShapes` | src/base/io_occ_vrml.cpp:63-66 | every shape added to the converter is an XCAF shape carried by a tree-node item |
| `Vrml.NonShapeNodeIgnored` | src/base/io_occ_vrml.cpp:63-66 | a tree node whose label is not a shape adds nothing to the scene |
| `Vrml.VrmlWriterProperties.RestoreDefaults` | src/base/io_occ_vrml.cpp:34-37 | the representation property takes the default value |
| `Vrml.OccVrmlWriter.Transfer` | src/base/io_occ_vrml.cpp:51-78 | always succeeds and replaces any previous scene. Documents are converted whole and shape-labelled tree nodes added, in item order. The flags come from `m_shapeRepresentation`, not from the applied parameters |
| `Vrml.OccVrmlWriter.WriteFile` | src/base/io_occ_vrml.cpp:80-94 | false when no scene was built; otherwise true exactly when the stream opened and is still good after writing |
| `Vrml.OccVrmlWriter.ApplyProperties` | src/base/io_occ_vrml.cpp:101-107 | a VRML property group sets `params.shapeRepresentation`; any other group changes nothing; the representation `transfer` reads is untouched |
| `GraphicsScenes.GraphicsScene.SetComputedMode` | src/graphics/graphics_entity_driver.cpp:111-117 | every defined view's computed mode is set to the argument |
| `GraphicsDriver.NullEntityRejected` | src/gui/gui_document.cpp:109 | the default entity `findGraphicsEntity` returns for an unmapped id belongs to no driver: every driver's ownership check fails on it with the invalid-driver error, so `currentDisplayMode` and `applyDisplayMode` reject it |
| `GraphicsDriver.DisplayModeLists` | src/graphics/graphics_entity_driver.cpp:62-70 | the shape driver lists exactly Wireframe, HLR, Shaded, ShadedWithFaceBoundary; the mesh driver (lines 218-225) exactly WireFrame, Shading, Shrink |
| `GraphicsDriver.ApplyShapeMode` | src/graphics/graphics_entity_driver.cpp:118-137 | hidden-line drawing ends up on exactly for HLR; outside HLR the AIS mode is wireframe exactly for the Wireframe mode |
| `GraphicsDriver.ShapeModeOf` | src/graphics/graphics_entity_driver.cpp:142-159 | the mode read from the scene and AIS object is a listed shape mode or -1 |
| `GraphicsDriver.ShapeModeRoundTrip` | src/graphics/graphics_entity_driver.cpp:106-159 | for each listed shape mode, reading back the applied mode gives that mode |
| `GraphicsDriver.ApplyShapeModeIdempotent` | src/graphics/graphics_entity_driver.cpp:118-137 | applying a shape mode twice equals applying it once |
| `GraphicsDriver.ApplyShapeModeMeaning` | src/graphics/graphics_entity_driver.cpp:118-137 | hidden-line drawing is on exactly for HLR; otherwise the AIS mode is wireframe exactly for Wireframe and the face-boundary flag is set exactly for ShadedWithFaceBoundary; HLR leaves the AIS mode and flag alone |
| `GraphicsDriver.ShapeModeOfUnknown` | src/graphics/graphics_entity_driver.cpp:142-159 | the shape driver reads -1 exactly when hidden lines are off and the AIS mode is neither wireframe nor shaded; otherwise it reads a listed mode |
| `GraphicsDriver.GraphicsEntityDriver.CheckDisplayMode` | src/graphics/graphics_entity_driver.cpp:36-40 | fails with an invalid-display-mode error exactly when the mode is not in the driver's list |
| `GraphicsDriver.GraphicsEntityDriver.CheckSameDriver` | src/graphics/graphics_entity_driver.cpp:42-46 | fails with an invalid-driver error exactly when the entity's driver is not this driver |
| `GraphicsDriver.GraphicsEntityDriver.InitEntity` | src/graphics/graphics_entity_driver.cpp:48-53 | the entity gets the label and this driver, so it passes this driver's ownership check; its handles are kept |
| `GraphicsDriver.GraphicsEntityDriver.SupportStatus` | src/graphics/graphics_entity_driver.cpp:72-239 | shape driver: Complete exactly for XCAF shapes, else None, never Partial. Mesh driver: Complete exactly with a triangulation attribute, Partial exactly for a face shape without one, else None |
| `GraphicsDriver.GraphicsEntityDriver.SupportCoversCreation` | src/graphics/graphics_entity_driver.cpp:227-284 | no AIS object is made for an unsupported label. The shape driver makes one exactly for fully supported labels. The mesh driver makes one for a fully supported label exactly when its triangulation attribute holds a triangulation, and for a partially supported face exactly when the face carries one |
| `GraphicsDriver.GraphicsEntityDriver.CreateEntity` | src/graphics/graphics_entity_driver.cpp:87-104 | the entity belongs to this driver and shows the label, with a fresh hidden AIS object exactly when the driver can show it: shaded with face boundaries for shapes, shading for meshes (lines 241-284). The mesh driver prefers the triangulation attribute and makes no object when that attribute holds none, falling back to a face's own triangulation only without the attribute |
| `GraphicsDriver.GraphicsEntityDriver.CurrentDisplayMode` | src/graphics/graphics_entity_driver.cpp:142-159 | fails for another driver's entity. Shape driver: HLR while hidden lines are on, else a listed mode decoded from AIS mode and face-boundary flag, or -1. Mesh driver (lines 293-297): the AIS display mode |
| `GraphicsDriver.GraphicsEntityDriver.ApplyDisplayMode` | src/graphics/graphics_entity_driver.cpp:106-140 | checks the driver first, then the mode, and changes nothing on failure. Shape driver: hidden lines, HLR type and every view's computed mode on exactly for HLR; outside HLR it sets AIS mode and face-boundary flag, redisplaying only when the flag differed. Mesh driver (lines 286-291): sets the mode and leaves the rest of the AIS object, the scene and its views unchanged. After success `currentDisplayMode` returns the applied mode |
| `GuiDocuments.ToOccCorner` | src/gui/gui_document.cpp:174-184 | the OCC position chosen for a Qt corner names that corner back |
| `GuiDocuments.OccCornerRoundTrip` | src/gui/gui_document.cpp:174-184 | the Qt-corner table is a bijection onto the four OCC trihedron positions |
| `GuiDocuments.ToOccCornerInjective` | src/gui/gui_document.cpp:176-181 | distinct Qt corners map to distinct OCC positions |
| `GuiDocuments.FindGraphicsItem` | src/gui/gui_document.cpp:355-362 | the index of the first item with the given tree-node id, or none exactly when no item has it |
| `GuiDocuments.EraseFoundItem` | src/gui/gui_document.cpp:301-319 | erasing the found item keeps the other items in order. A later search finds the next item with the same id, so an id held by one item is gone |
| `GuiDocuments.MappedItemsDisplayable` | src/gui/gui_document.cpp:96-97 | every item the constructor maps has an AIS object, lives in the document's scene and comes from a document entity |
| `GuiDocuments.TrihedronModeStepAsWritten` | src/gui/gui_document.cpp:206-233 | setViewTrihedronMode as written: the mode becomes the argument, the corner is kept, an unchanged mode is a no-op, after a change the cube is visible exactly for AisViewCube, and an existing cube never moves (the stale corner of Findings) |
| `GuiDocuments.TrihedronModeStep` | src/gui/gui_document.cpp:186-238 | the mode equals the argument and the corner is kept. An unchanged mode is a no-op. On a change the cube is visible exactly for AisViewCube and the view's trihedron is shown exactly for V3dViewZBuffer. A cube once created is never removed, and none is created outside AisViewCube. This is the corrected version, see Findings |
| `GuiDocuments.TrihedronCornerStep` | src/gui/gui_document.cpp:240-263 | the corner equals the argument and the mode is kept; an unchanged corner is a no-op; the cube's existence and visibility are kept |
| `GuiDocuments.ModeStepCoherent` | src/gui/gui_document.cpp:191-233 | after a mode change, what the view shows matches the mode at the stored corner: no trihedron for None, the z-buffer trihedron for V3dViewZBuffer, the visible cube for AisViewCube |
| `GuiDocuments.CornerStepCoherent` | src/gui/gui_document.cpp:245-259 | a corner change keeps the shown trihedron at the stored corner |
| `GuiDocuments.ModeStepAsWrittenAgrees` | src/gui/gui_document.cpp:206-233 | the code as written and the corrected step agree whenever there is no cube yet or the cube already sits at the stored corner |
| `GuiDocuments.StaleViewCubeCorner` | src/gui/gui_document.cpp:240-263 | as written, moving the corner while the cube is hidden and then showing the cube again leaves it at the old corner (see Findings) |
| `GuiDocuments.GuiDocument.constructor` | src/gui/gui_document.cpp:63-104 | mode and corner start at None and BottomLeftCorner, as the change signals show. It then switches to the view cube at the top-left corner and maps every document entity in index order. Every created AIS object ends up visible with its display mode, face-boundary flag, corner and redisplay count kept. The origin trihedron starts hidden |
| `GuiDocuments.GuiDocument.MapEntities` | src/gui/gui_document.cpp:96-97 | the constructor's loop: appends the mapped items of all entities in index order, makes each of their AIS objects visible without touching anything else about them, and leaves the trihedron state and signals alone |
| `GuiDocuments.GuiDocument.MapGraphics` | src/gui/gui_document.cpp:321-353 | an entity with an AIS object gets the document's scene, becomes visible and adds exactly one item with the given id at the end; the object's display mode, face-boundary flag, corner and redisplay count are kept; without an AIS object the list is unchanged |
| `GuiDocuments.GuiDocument.OnDocumentEntityAdded` | src/gui/gui_document.cpp:295-299 | maps the entity (visible, nothing else about it changed), then emits the bounding-box signal even when nothing was mapped |
| `GuiDocuments.GuiDocument.OnDocumentEntityAboutToBeDestroyed` | src/gui/gui_document.cpp:301-319 | may touch only the found item's AIS object: hides it, keeping its other fields, erases exactly that item from the list, keeping the others in order, and emits one bounding-box signal; an unmapped id changes no AIS object, no item and no signal |
| `GuiDocuments.GuiDocument.FindGraphicsEntity` | src/gui/gui_document.cpp:106-110 | the entity of the first item with the id, or a default entity when there is none |
| `GuiDocuments.GuiDocument.SelectionTarget` | src/gui/gui_document.cpp:112-130 | selection is toggled only for a tree node of this document. Its entity root must have an item, and that item a tree-node mapping; the target is that item |
| `GuiDocuments.GuiDocument.ToggleOriginTrihedronVisibility` | src/gui/gui_document.cpp:132-141 | the origin trihedron's visibility, as `isOriginTrihedronVisible` reads it, flips; its display mode, face-boundary flag, corner and redisplay count are kept |
| `GuiDocuments.GuiDocument.SetViewTrihedronMode` | src/gui/gui_document.cpp:186-238 | no-op and no signal for an unchanged mode. Otherwise the state follows `TrihedronModeStep` and one signal is emitted. The cube is created at most once, only while its handle is null; an existing cube keeps its display mode, face-boundary flag and redisplay count; the view's computed mode is kept, and the trihedron stays coherent |
| `GuiDocuments.GuiDocument.SetViewTrihedronCorner` | src/gui/gui_document.cpp:240-263 | no-op and no signal for an unchanged corner; otherwise the state follows `TrihedronCornerStep`, the corner equals the argument, one signal is emitted, and the trihedron stays coherent; the cube keeps its display mode, face-boundary flag and redisplay count, and the view its computed mode |

## Left out

- Calls into OpenCascade readers and writers are left out. This covers the CAF read and transfer helpers, `STEPControl` writing, `RWGltf_CafWriter::Perform`, `VrmlData_ShapeConvert` and scene streaming. Their results are parameters; their behaviour is foreign code.
- `OccStepReader::transfer` and `OccStepWriter::transfer` are not modelled separately. They make the same `changeStaticVariables` call as `readFile`/`writeFile` and then call the foreign transfer.
- `OccStaticVariablesRollback` and `Interface_Static` are not part of this model. The store is a map. The rollback restores it when the call ends.
- Rendering and presentation setup is left out: trihedron and view-cube styling, anti-aliasing, background, camera animation, `processAction`, drawer colours and materials, and mesh data sources.
- Bounding boxes (`Bnd_Box`), `aisViewCubeBoundingSize` and the VRML progress mapping are floating point. Only the bounding-box signal is logged.
- `handleColorChanged` and the mesh `EntityProperties` are left out. They walk OpenCascade shape maps and push colours into drawers. `properties` (the per-entity property groups) is left out too.
- Selection activation and owner mapping in `mapGraphics`, and owner toggling in `toggleItemSelected`, are left out. Only the guard that picks the item is modelled.
- Qt signal wiring and the global CAF lock exist for concurrency and are left out. Signals are an event log.
- `caf_utils`, the application module, the GUI application and the driver table are declarations or thin wrappers, and are not part of this model. Entities reach the GUI document as parameters.
- `Enumeration::findIndex` and `addItem` are not in the modelled files. `FindIndex` is a first-match search and `AddItem` appends.
- `GraphicsEntity::setDisplayMode`, `setVisible`, `GraphicsScene::setObjectVisible` and `GraphicsScene::eraseObject` are not in the modelled files. The first three are modelled as setting the AIS object's display mode or visibility, and hiding a null view cube does nothing. `eraseObject` is modelled as hiding the object.
- Numeric values of enumerations declared in headers outside this model are carried as integers: product context, assembly level, shape representation, schema, length unit, assembly and free-vertex modes, and the glTF coordinate and transformation formats. The shape driver's display-mode constants are 0 to 3; only their distinctness matters. The mesh display modes are OpenCascade's `MeshVS_DisplayModeFlags` values 1, 2 and 3 for wireframe, shading and shrink; only their distinctness matters too.
- Display-mode names, property descriptions and translation strings are not modelled.
- The accessors `viewTrihedronMode()`, `viewTrihedronCorner()` and `document()` are the class fields.
- `GuiDocuments.GuiDocument.SetViewTrihedronMode`: switching to the view cube moves an existing cube to the stored corner. The code as written does not, see Findings.
- `GraphicsDriver.GraphicsEntityDriver.CurrentDisplayMode`: the caller must supply, for an entity of this driver, a scene to the shape driver, an AIS object when hidden lines are off, and an AIS object to the mesh driver; the source dereferences them without checking.
- `GraphicsDriver.GraphicsEntityDriver.ApplyDisplayMode`: the caller must supply a scene, and an AIS object outside HLR, for a valid call; the source dereferences them without checking.
- `Vrml.OccVrmlWriter.Transfer`: the OpenCascade-before-7.4 branch, which ignores document items, is not modelled.

## Findings

| source | as written | input that shows it | evidently intended | confidence | as-written member | corrected member |
|---|---|---|---|---|---|---|
| src/gui/gui_document.cpp:206-233 | switching to AisViewCube reuses an existing cube without re-applying `m_viewTrihedronCorner`, while `setViewTrihedronCorner` (lines 245-259) moves the cube only in AisViewCube mode | mode AisViewCube at TopLeftCorner; set mode None; set corner BottomRightCorner; set mode AisViewCube: the cube shows at the top left while the stored corner is bottom right | the cube is shown at the stored corner | medium, not executed | `GuiDocuments.StaleViewCubeCorner` | `GuiDocuments.TrihedronModeStep` |

`GuiDocuments.TrihedronModeStepAsWritten` is the step as written.
`GuiDocuments.StaleViewCubeCorner` shows the stale corner. `GuiDocuments.ModeStepCoherent`
proves that the corrected step always leaves the cube at the stored corner. The
`GuiDocument` class uses the corrected step.
