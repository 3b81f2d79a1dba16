/**
 * Abstract values for the OpenCascade application-framework objects the
 * modelled code handles: documents, tree nodes, labels and application items.
 * Each carries only the facts the code reads.
 */
module Caf {
  /** Identity of a document: `document().get()` compares document pointers. */
  type DocumentId = nat

  /** Identity of a node of a document's model tree. */
  type TreeNodeId = nat

  /** A TDF label, reduced to the facts the drivers and writers test. */
  datatype Label = Label(
    id: nat,
    isShape: bool,          // XCaf::isShape(label)
    hasTriangulation: bool, // the label holds a TDataXtd_Triangulation attribute
    attributeTriangulated: bool, // that attribute's Get() is a non-null triangulation
    isFace: bool,           // the shape of the label is of type TopAbs_FACE
    faceTriangulated: bool) // the face's TShape carries a triangulation

  /** A node of a document tree with the label it stands for. */
  datatype TreeNode = TreeNode(id: TreeNodeId, tdfLabel: Label)

  /** An item of the application: nothing, a whole document or one node of a document. */
  datatype ApplicationItem =
    | NullItem
    | DocumentItem(document: DocumentId)
    | TreeNodeItem(document: DocumentId, node: TreeNode)
  {
    predicate IsDocument() { DocumentItem? }
    predicate IsDocumentTreeNode() { TreeNodeItem? }
  }
}
