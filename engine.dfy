/**
 * The editor engine (CodeMirror's state and view packages), seen only through the narrow
 * interface the binding uses. Extensions are opaque tags, a document is a string, a view
 * is the observable part of a live editor instance.
 */
module Engine {
  import opened Wrappers

  /** A platform UI node (the element the editor is mounted in), known only by identity. */
  datatype Node = Node(id: nat)

  /** An initial selection as anchor and head offsets. */
  datatype Selection = Selection(anchor: nat, head: nat)

  /** A placeholder is either a string or an element. */
  datatype PlaceholderValue = Text(s: string) | Element(node: Node)

  /**
   * The callbacks an update listener closes over, each the identity of a function or None
   * when the caller supplied none.
   */
  datatype Listener = Listener(
    onChange: Option<nat>,
    onFocus: Option<nat>,
    onBlur: Option<nat>,
    onUpdate: Option<nat>)

  /** Opaque extension values, tagged by what produced them. */
  datatype Extension =
    | BasicSetup                                // the bundled `basicSetup`
    | TabKeymap                                 // keymap.of([indentWithTab])
    | TabSize(width: nat, indentUnit: string)   // [EditorState.tabSize.of(n), indentUnit.of(...)]
    | Placeholder(content: PlaceholderValue)    // placeholder(...)
    | Editable(enabled: bool)                   // EditorView.editable.of(...)
    | ReadOnly(enabled: bool)                   // EditorState.readOnly.of(...)
    | Theme(style: map<string, string>)         // EditorView.theme({'&': style})
    | UpdateListener(listener: Listener)        // EditorView.updateListener.of(...)
    | Opaque(id: nat)                           // any other extension a caller supplies

  /** An editor state as created by EditorState.create. */
  datatype EditorState = EditorState(doc: string, selection: Option<Selection>, extensions: seq<Extension>)

  /** The observable part of a live EditorView: where it is mounted, its document and its active extensions. */
  datatype View = View(parent: Node, root: Option<nat>, doc: string, extensions: seq<Extension>)

  /** What an update listener is told about one applied transaction. */
  datatype ViewUpdate = ViewUpdate(docChanged: bool, focusChanged: bool, hasFocus: bool, doc: string)

  /** A change transaction: replace the range [from, to) of the document with insert. */
  datatype Change = Change(from: nat, to: nat, insert: string)

  /** The document after a change is applied. */
  function ApplyChange(doc: string, c: Change): (r: string)
    requires c.from <= c.to <= |doc|
    ensures |r| == |doc| - (c.to - c.from) + |c.insert|
    ensures r[..c.from] == doc[..c.from]
    ensures r[c.from..c.from + |c.insert|] == c.insert
    ensures r[c.from + |c.insert|..] == doc[c.to..]
  {
    doc[..c.from] + c.insert + doc[c.to..]
  }

  /** Replacing the whole range [0, |doc|) leaves exactly the inserted text. */
  lemma FullReplace(doc: string, text: string)
    ensures ApplyChange(doc, Change(0, |doc|, text)) == text
  {
    var r := ApplyChange(doc, Change(0, |doc|, text));
    assert r[0..|text|] == text;
    assert r == r[0..|text|];
  }
}
