/**
 * glTF writer: picks the document to export from the selected application
 * items, collects the root labels to export, and decides how the file is
 * written.
 */
module GltfWriter {
  import opened Wrappers
  import opened Caf
  import opened IoParameters

  /** The document of the first item that is a document or a document tree node. */
  function ChosenDocument(items: seq<ApplicationItem>): Option<DocumentId>
  {
    if items == [] then None
    else if !items[0].NullItem? then Some(items[0].document)
    else ChosenDocument(items[1..])
  }

  /** The labels of the tree-node items of document `doc`, in input order. */
  function RootLabels(items: seq<ApplicationItem>, doc: DocumentId): seq<Label>
  {
    if items == [] then []
    else (if items[0].TreeNodeItem? && items[0].document == doc then [items[0].node.tdfLabel] else [])
         + RootLabels(items[1..], doc)
  }

  /** The chosen document is that of the first item which is a document or a tree node. */
  lemma {:induction false} ChosenDocumentIsFirst(items: seq<ApplicationItem>, i: int)
    requires 0 <= i < |items| && !items[i].NullItem?
    requires forall j :: 0 <= j < i ==> items[j].NullItem?
    ensures ChosenDocument(items) == Some(items[i].document)
  {
    if i > 0 {
      ChosenDocumentIsFirst(items[1..], i - 1);
    }
  }

  /** No document is chosen exactly when no item is a document or a tree node. */
  lemma {:induction false} ChosenDocumentNone(items: seq<ApplicationItem>)
    ensures ChosenDocument(items).None? <==> forall i :: 0 <= i < |items| ==> items[i].NullItem?
  {
    if items != [] {
      ChosenDocumentNone(items[1..]);
      if items[0].NullItem? {
        assert forall i :: 1 <= i < |items| ==> items[i] == items[1..][i - 1];
      }
    }
  }

  /** Scanning one more item: a chosen document stays chosen; otherwise the item may choose one. */
  lemma {:induction false} ChosenDocumentSnoc(items: seq<ApplicationItem>, x: ApplicationItem)
    ensures ChosenDocument(items + [x])
         == if ChosenDocument(items).Some? then ChosenDocument(items)
            else if !x.NullItem? then Some(x.document)
            else None
  {
    if items == [] {
      assert items + [x] == [x];
    } else {
      assert (items + [x])[1..] == items[1..] + [x];
      ChosenDocumentSnoc(items[1..], x);
    }
  }

  /** Root labels of a concatenation are those of the parts, concatenated. */
  lemma {:induction false} RootLabelsAppend(a: seq<ApplicationItem>, b: seq<ApplicationItem>, doc: DocumentId)
    ensures RootLabels(a + b, doc) == RootLabels(a, doc) + RootLabels(b, doc)
  {
    if a == [] {
      assert a + b == b;
    } else {
      assert (a + b)[1..] == a[1..] + b;
      RootLabelsAppend(a[1..], b, doc);
    }
  }

  /** Before any document is chosen there are no root labels, whatever document is asked for. */
  lemma {:induction false} RootLabelsBeforeChoice(items: seq<ApplicationItem>, doc: DocumentId)
    requires ChosenDocument(items).None?
    ensures RootLabels(items, doc) == []
  {
    if items != [] {
      RootLabelsBeforeChoice(items[1..], doc);
    }
  }

  /** A document item, and a tree node of another document, add no root label. */
  lemma RootLabelsIgnore(a: seq<ApplicationItem>, x: ApplicationItem, b: seq<ApplicationItem>, doc: DocumentId)
    requires x.DocumentItem? || x.NullItem? || (x.TreeNodeItem? && x.document != doc)
    ensures RootLabels(a + [x] + b, doc) == RootLabels(a + b, doc)
  {
    RootLabelsAppend(a + [x], b, doc);
    RootLabelsAppend(a, [x], doc);
    RootLabelsAppend(a, b, doc);
  }

  /** A label is a root label exactly when some tree-node item of the document carries it. */
  lemma {:induction false} RootLabelsMembers(items: seq<ApplicationItem>, doc: DocumentId, l: Label)
    ensures l in RootLabels(items, doc) <==>
      exists i :: 0 <= i < |items| && items[i].TreeNodeItem? && items[i].document == doc && items[i].node.tdfLabel == l
  {
    if items != [] {
      RootLabelsMembers(items[1..], doc, l);
      if l in RootLabels(items[1..], doc) {
        var i :| 0 <= i < |items[1..]| && items[1..][i].TreeNodeItem? && items[1..][i].document == doc
                 && items[1..][i].node.tdfLabel == l;
        assert items[i + 1] == items[1..][i];
      }
      if exists i :: 0 <= i < |items| && items[i].TreeNodeItem? && items[i].document == doc && items[i].node.tdfLabel == l {
        var i :| 0 <= i < |items| && items[i].TreeNodeItem? && items[i].document == doc && items[i].node.tdfLabel == l;
        if i > 0 {
          assert items[1..][i - 1] == items[i];
        }
      }
    }
  }

  /**
   * When the first relevant item is a tree node, the export is partial: its
   * label is the first root label.
   */
  lemma ChosenByTreeNode(items: seq<ApplicationItem>, i: int)
    requires 0 <= i < |items| && items[i].TreeNodeItem?
    requires forall j :: 0 <= j < i ==> items[j].NullItem?
    ensures ChosenDocument(items) == Some(items[i].document)
    ensures RootLabels(items, items[i].document) != []
    ensures RootLabels(items, items[i].document)[0] == items[i].node.tdfLabel
  {
    ChosenDocumentIsFirst(items, i);
    var doc := items[i].document;
    assert items == items[..i] + [items[i]] + items[i + 1..];
    ChosenDocumentNone(items[..i]);
    RootLabelsBeforeChoice(items[..i], doc);
    RootLabelsAppend(items[..i] + [items[i]], items[i + 1..], doc);
    RootLabelsAppend(items[..i], [items[i]], doc);
  }

  /** Which labels RWGltf_CafWriter::Perform is asked to write. */
  datatype RootSelection = WholeDocument | SelectedRoots(labels: seq<Label>)

  /** The call `writeFile` makes on RWGltf_CafWriter. */
  datatype GltfWriteRequest = GltfWriteRequest(document: DocumentId, binary: bool, roots: RootSelection)

  /** OccGltfWriter::Properties: the properties a user edits for the glTF writer. */
  class GltfWriterProperties {
    var coordinatesConverter: int
    var transformationFormat: int
    var format: GltfFormat
    var forceExportUV: bool

    constructor (initial: GltfParameters)
      ensures Group() == GltfWriterGroup(initial)
    {
      coordinatesConverter := initial.coordinatesConverter;
      transformationFormat := initial.transformationFormat;
      format := initial.format;
      forceExportUV := initial.forceExportUV;
    }

    function Group(): PropertyGroup
      reads this
    {
      GltfWriterGroup(GltfParameters(coordinatesConverter, transformationFormat, format, forceExportUV))
    }

    /** Resets all four properties to the default parameters. */
    method RestoreDefaults(defaults: GltfParameters)
      modifies this
      ensures Group() == GltfWriterGroup(defaults)
    {
      coordinatesConverter := defaults.coordinatesConverter;
      transformationFormat := defaults.transformationFormat;
      format := defaults.format;
      forceExportUV := defaults.forceExportUV;
    }
  }

  /** OccGltfWriter: the chosen document, its root labels and the writer parameters. */
  class OccGltfWriter {
    var document: Option<DocumentId>
    var rootLabels: seq<Label>
    var params: GltfParameters

    constructor (params: GltfParameters)
      ensures document == None && rootLabels == [] && this.params == params
    {
      document := None;
      rootLabels := [];
      this.params := params;
    }

    /**
     * Forgets any earlier choice, then chooses the document of the first
     * document or tree-node item and collects the labels of that document's
     * tree-node items in order. Fails exactly when no document was chosen.
     */
    method Transfer(items: seq<ApplicationItem>) returns (ok: bool)
      modifies this
      ensures document == ChosenDocument(items)
      ensures document.None? ==> rootLabels == []
      ensures document.Some? ==> rootLabels == RootLabels(items, document.value)
      ensures ok <==> document.Some?
      ensures params == old(params)
    {
      document := None;
      rootLabels := [];
      for i := 0 to |items|
        invariant document == ChosenDocument(items[..i])
        invariant document.None? ==> rootLabels == []
        invariant document.Some? ==> rootLabels == RootLabels(items[..i], document.value)
        invariant params == old(params)
      {
        var item := items[i];
        assert items[..i + 1] == items[..i] + [item];
        ChosenDocumentSnoc(items[..i], item);
        if item.IsDocument() && document.None? {
          document := Some(item.document);
        } else if item.IsDocumentTreeNode() {
          if document.None? {
            document := Some(item.document);
          }
          if item.document == document.value {
            rootLabels := rootLabels + [item.node.tdfLabel];
          }
        }
        if document.Some? {
          if ChosenDocument(items[..i]).None? {
            RootLabelsBeforeChoice(items[..i], document.value);
          }
          RootLabelsAppend(items[..i], [item], document.value);
        }
      }
      assert items[..|items|] == items;
      ok := document.Some?;
    }

    /**
     * Writes nothing and fails when no document is set; otherwise asks for a
     * binary file exactly when the format is Binary, and for the whole
     * document exactly when there are no root labels. `performed` stands for
     * the result of RWGltf_CafWriter::Perform.
     */
    method WriteFile(performed: bool) returns (ok: bool, request: Option<GltfWriteRequest>)
      ensures document.None? ==> !ok && request.None?
      ensures document.Some? ==> ok == performed && request.Some?
      ensures request.Some? ==> request.value.document == document.value
      ensures request.Some? ==> (request.value.binary <==> params.format == Binary)
      ensures request.Some? ==> (request.value.roots.WholeDocument? <==> rootLabels == [])
      ensures request.Some? && request.value.roots.SelectedRoots? ==> request.value.roots.labels == rootLabels
    {
      if document.None? {
        return false, None;
      }
      var isBinary := params.format == Binary;
      if rootLabels == [] {
        request := Some(GltfWriteRequest(document.value, isBinary, WholeDocument));
      } else {
        request := Some(GltfWriteRequest(document.value, isBinary, SelectedRoots(rootLabels)));
      }
      ok := performed;
    }

    /** Takes all four values from a group of the writer's own type; ignores any other group. */
    method ApplyProperties(group: PropertyGroup)
      modifies this
      ensures group.GltfWriterGroup? ==> params == group.gltf
      ensures !group.GltfWriterGroup? ==> params == old(params)
      ensures document == old(document) && rootLabels == old(rootLabels)
    {
      if group.GltfWriterGroup? {
        var values := group.gltf;
        params := params.(coordinatesConverter := values.coordinatesConverter);
        params := params.(forceExportUV := values.forceExportUV);
        params := params.(format := values.format);
        params := params.(transformationFormat := values.transformationFormat);
      }
    }
  }
}
