/**
 * The synchronisation core (`useCodeMirror`): it reads a configuration, builds the full
 * extension list, classifies the editor's update events into callbacks, and keeps one editor
 * instance in step with the configuration through explicit effects.
 */
module UseCodeMirror {
  import opened Wrappers
  import opened Engine
  import opened Extensions
  import opened Props

  /** The destructured configuration the hook works with; callbacks are function identities. */
  datatype HookConfig = HookConfig(
    value: Option<string>,
    autoFocus: Option<bool>,
    selection: Option<Selection>,
    extensions: seq<Extension>,
    options: ExtensionsOptions,
    root: Option<nat>,
    onChange: Option<nat>,
    onUpdate: Option<nat>,
    onFocus: Option<nat>,
    onBlur: Option<nat>,
    onCreated: Option<nat>,
    onDestroyed: Option<nat>)

  function AsBool(v: Value): Option<bool> {
    if v.Bool? then Some(v.b) else None
  }

  function AsString(v: Value): Option<string> {
    if v.Str? then Some(v.s) else None
  }

  function AsCallback(v: Value): Option<nat> {
    if v.Fn? then Some(v.id) else None
  }

  function AsPlaceholder(v: Value): Option<PlaceholderValue> {
    match v
    case Str(s) => Some(Text(s))
    case Elem(n) => Some(Element(n))
    case _ => None
  }

  /**
   * The destructuring at the top of the hook: each field read from the configuration object,
   * `extensions` falling back to the empty list when undefined.
   */
  function ConfigOf(m: map<string, Value>): (c: HookConfig)
    ensures Get(m, "extensions").Exts? ==> c.extensions == Get(m, "extensions").list
    ensures Get(m, "extensions").Undefined? ==> c.extensions == []
    ensures c.value.Some? <==> Get(m, "value").Str?
    ensures Get(m, "value").Str? ==> c.value == Some(Get(m, "value").s)
    ensures c.options.tabSize.Some? <==> Get(m, "tabSize").Num?
    ensures Get(m, "tabSize").Num? ==> c.options.tabSize == Some(Get(m, "tabSize").n)
    ensures c.options.editable == AsBool(Get(m, "editable"))
    ensures c.options.editable == Some(false) <==> Get(m, "editable") == Bool(false)
  {
    var tabSize := Get(m, "tabSize");
    var style := Get(m, "editorStyle");
    var sel := Get(m, "selection");
    var root := Get(m, "root");
    var exts := Get(m, "extensions");
    HookConfig(
      value := AsString(Get(m, "value")),
      autoFocus := AsBool(Get(m, "autoFocus")),
      selection := if sel.Sel? then Some(sel.selection) else None,
      extensions := if exts.Exts? then exts.list else [],
      options := ExtensionsOptions(
        basicSetup := AsBool(Get(m, "basicSetup")),
        indentWithTab := AsBool(Get(m, "indentWithTab")),
        editable := AsBool(Get(m, "editable")),
        placeholder := AsPlaceholder(Get(m, "placeholder")),
        tabSize := if tabSize.Num? then Some(tabSize.n) else None,
        readOnly := AsBool(Get(m, "readOnly")),
        editorStyle := if style.Style? then Some(style.css) else None),
      root := if root.Root? then Some(root.id) else None,
      onChange := AsCallback(Get(m, "onChange")),
      onUpdate := AsCallback(Get(m, "onUpdate")),
      onFocus := AsCallback(Get(m, "onFocus")),
      onBlur := AsCallback(Get(m, "onBlur")),
      onCreated := AsCallback(Get(m, "onCreated")),
      onDestroyed := AsCallback(Get(m, "onDestroyed")))
  }

  /** What the configuration's callbacks and the engine were asked to do, in order. */
  datatype Event =
    | Created(callback: nat, view: View, state: EditorState)  // onCreated(view, state)
    | Destroyed(callback: nat)                                // onDestroyed()
    | Changed(callback: nat, text: string)                    // onChange(value, update)
    | Focused(callback: nat)                                  // onFocus(update)
    | Blurred(callback: nat)                                  // onBlur(update)
    | Updated(callback: nat)                                  // onUpdate(update)
    | ViewDestroyed                                           // view.destroy()
    | FocusRequested                                          // view.focus()
    | Reconfigured(extensions: seq<Extension>)                // dispatch of a reconfigure effect
    | ChangeDispatched(change: Change)                        // dispatch of a change

  /** The listener the hook builds on this render: it closes over the four update callbacks. */
  function ListenerOf(c: HookConfig): Listener {
    Listener(c.onChange, c.onFocus, c.onBlur, c.onUpdate)
  }

  /** Position of a notification among those one update can produce: change, focus, update. */
  function Phase(e: Event): nat {
    match e
    case Changed(_, _) => 0
    case Focused(_) => 1
    case Blurred(_) => 1
    case _ => 2
  }

  /** onChange with the new document text, if the document changed and onChange is set. */
  function ChangeCallbacks(l: Listener, u: ViewUpdate): seq<Event> {
    if u.docChanged && l.onChange.Some? then [Changed(l.onChange.value, u.doc)] else []
  }

  /** onFocus when focus was gained, onBlur when it was lost, nothing when it did not change. */
  function FocusCallbacks(l: Listener, u: ViewUpdate): seq<Event> {
    if !u.focusChanged then []
    else if u.hasFocus then (if l.onFocus.Some? then [Focused(l.onFocus.value)] else [])
    else (if l.onBlur.Some? then [Blurred(l.onBlur.value)] else [])
  }

  /** onUpdate, whenever it is set. */
  function UpdateCallbacks(l: Listener): seq<Event> {
    if l.onUpdate.Some? then [Updated(l.onUpdate.value)] else []
  }

  /** The callbacks the update listener invokes for one update, in the order it invokes them. */
  function Classify(l: Listener, u: ViewUpdate): (r: seq<Event>)
    ensures |r| <= 3
    ensures forall i :: 0 <= i < |r| ==> r[i].Changed? || r[i].Focused? || r[i].Blurred? || r[i].Updated?
  {
    ChangeCallbacks(l, u) + FocusCallbacks(l, u) + UpdateCallbacks(l)
  }

  /** onChange fires exactly when the document changed (and onChange is set), with the new text. */
  lemma ClassifyChange(l: Listener, u: ViewUpdate)
    ensures var r := Classify(l, u);
      (exists i :: 0 <= i < |r| && r[i].Changed?) <==> u.docChanged && l.onChange.Some?
    ensures var r := Classify(l, u);
      forall i :: 0 <= i < |r| && r[i].Changed? ==> r[i] == Changed(l.onChange.value, u.doc)
  {
    var r := Classify(l, u);
    if u.docChanged && l.onChange.Some? {
      assert r[0].Changed?;
    }
  }

  /**
   * When focus changed, onFocus fires if the editor now has focus and onBlur if it does not;
   * when focus did not change, neither fires.
   */
  lemma ClassifyFocus(l: Listener, u: ViewUpdate)
    ensures var r := Classify(l, u);
      (exists i :: 0 <= i < |r| && r[i].Focused?) <==> u.focusChanged && u.hasFocus && l.onFocus.Some?
    ensures var r := Classify(l, u);
      (exists i :: 0 <= i < |r| && r[i].Blurred?) <==> u.focusChanged && !u.hasFocus && l.onBlur.Some?
    ensures var r := Classify(l, u);
      forall i :: 0 <= i < |r| && r[i].Focused? ==> r[i] == Focused(l.onFocus.value)
    ensures var r := Classify(l, u);
      forall i :: 0 <= i < |r| && r[i].Blurred? ==> r[i] == Blurred(l.onBlur.value)
  {
    var r := Classify(l, u);
    var c := ChangeCallbacks(l, u);
    if u.focusChanged && (if u.hasFocus then l.onFocus.Some? else l.onBlur.Some?) {
      assert r[|c|] == FocusCallbacks(l, u)[0];
    }
  }

  /**
   * onUpdate fires on every update (when set) and last; the order is change, then focus, then
   * update, so onFocus and onBlur never both fire.
   */
  lemma ClassifyOrder(l: Listener, u: ViewUpdate)
    ensures var r := Classify(l, u);
      forall i, j :: 0 <= i < j < |r| ==> Phase(r[i]) < Phase(r[j])
    ensures var r := Classify(l, u);
      (exists i :: 0 <= i < |r| && r[i].Updated?) <==> l.onUpdate.Some?
    ensures var r := Classify(l, u);
      forall i :: 0 <= i < |r| && r[i].Updated? ==> i == |r| - 1 && r[i] == Updated(l.onUpdate.value)
  {
    var r := Classify(l, u);
    if l.onUpdate.Some? {
      assert r[|r| - 1].Updated?;
    }
  }

  /** The full extension list: the update listener, then the assembled defaults, then the caller's extensions. */
  function MergedExtensions(c: HookConfig): (r: seq<Extension>)
    ensures |r| == 1 + |DefaultExtensions(c.options)| + |c.extensions|
    ensures r[0] == UpdateListener(ListenerOf(c))
    ensures r[1..1 + |DefaultExtensions(c.options)|] == DefaultExtensions(c.options)
    ensures r[1 + |DefaultExtensions(c.options)|..] == c.extensions
  {
    [UpdateListener(ListenerOf(c))] + DefaultExtensions(c.options) + c.extensions
  }

  /**
   * Whether a new render's configuration re-runs the reconfigure effect: one of its
   * dependencies (selection, extensions, editorStyle, indentWithTab, placeholder, editable,
   * readOnly and the four update callbacks) differs from the previous render's.
   */
  predicate ReconfigureTriggered(prev: HookConfig, next: HookConfig): (t: bool)
    ensures !t ==> MergedExtensions(prev)[0] == MergedExtensions(next)[0] && prev.extensions == next.extensions
    ensures !t && prev.options.tabSize == next.options.tabSize && prev.options.basicSetup == next.options.basicSetup
      ==> MergedExtensions(prev) == MergedExtensions(next)
  {
    || prev.selection != next.selection
    || prev.extensions != next.extensions
    || prev.options.editorStyle != next.options.editorStyle
    || prev.options.indentWithTab != next.options.indentWithTab
    || prev.options.placeholder != next.options.placeholder
    || prev.options.editable != next.options.editable
    || prev.options.readOnly != next.options.readOnly
    || prev.onChange != next.onChange
    || prev.onUpdate != next.onUpdate
    || prev.onFocus != next.onFocus
    || prev.onBlur != next.onBlur
  }

  /**
   * A render whose configuration differs only in value, tabSize, basicSetup, root, autoFocus,
   * onCreated or onDestroyed does not reconfigure, even when the full extension list it would
   * build is different.
   */
  lemma ReconfigureIgnores(prev: HookConfig, value: Option<string>, tabSize: Option<nat>, basicSetup: Option<bool>,
                           root: Option<nat>, autoFocus: Option<bool>, onCreated: Option<nat>, onDestroyed: Option<nat>)
    ensures var next := prev.(value := value, root := root, autoFocus := autoFocus, onCreated := onCreated,
                              onDestroyed := onDestroyed, options := prev.options.(tabSize := tabSize, basicSetup := basicSetup));
      !ReconfigureTriggered(prev, next) && !ReconfigureTriggered(next, next)
    ensures var next := prev.(options := prev.options.(tabSize := Some(4)));
      prev.options.tabSize == Some(2) ==> !ReconfigureTriggered(prev, next) && MergedExtensions(prev) != MergedExtensions(next)
  {
    var next := prev.(options := prev.options.(tabSize := Some(4)));
    if prev.options.tabSize == Some(2) {
      TabSizeEmitted(prev.options);
      TabSizeEmitted(next.options);
      assert TabSizePair(4) in DefaultExtensions(next.options);
      assert TabSizePair(4) !in DefaultExtensions(prev.options);
      assert TabSizePair(4) in MergedExtensions(next) by {
        assert MergedExtensions(next)[1..1 + |DefaultExtensions(next.options)|] == DefaultExtensions(next.options);
      }
    }
  }

  /**
   * The change the content-reconciliation effect dispatches: none without a view, with an
   * absent or empty value, or when the value already equals the document; otherwise a
   * replacement of the whole document [0, |doc|) by the value.
   */
  function ReconcileChange(view: Option<View>, value: Option<string>): (c: Option<Change>)
    ensures c.Some? <==> view.Some? && value.Some? && value.value != "" && value.value != view.value.doc
    ensures c.Some? ==> c.value.from == 0 && c.value.to == |view.value.doc|
    ensures c.Some? ==> ApplyChange(view.value.doc, c.value) == value.value
  {
    if view.None? || value.None? || value.value == "" then None
    else
      var current := view.value.doc;
      if value.value != current then
        FullReplace(current, value.value);
        Some(Change(0, |current|, value.value))
      else None
  }

  /**
   * No feedback loop: after reconciling, the document equals any non-empty value, and
   * reconciling again with the same value dispatches nothing.
   */
  lemma ReconcileConverges(v: View, value: Option<string>)
    ensures var c := ReconcileChange(Some(v), value);
      var after := if c.Some? then v.(doc := ApplyChange(v.doc, c.value)) else v;
      && (value.Some? && value.value != "" ==> after.doc == value.value)
      && ReconcileChange(Some(after), value).None?
  {
  }

  /** The state EditorState.create builds from the configuration; an absent value is the empty document. */
  function InitialState(c: HookConfig): EditorState {
    EditorState(c.value.GetOr(""), c.selection, MergedExtensions(c))
  }

  /**
   * The hook's state: the view and state it holds (None before creation and after teardown)
   * and the log of callback invocations and engine calls it has made.
   */
  class Sync {
    var view: Option<View>
    var state: Option<EditorState>
    var events: seq<Event>

    /** A view is held exactly when a state is, and its first active extension is the update listener. */
    ghost predicate Valid()
      reads this
    {
      && (view.Some? <==> state.Some?)
      && (view.Some? ==> |view.value.extensions| > 0 && view.value.extensions[0].UpdateListener?)
    }

    constructor ()
      ensures Valid() && view == None && state == None && events == []
    {
      view, state, events := None, None, [];
    }

    /**
     * The creation effect: only when a container is present and neither state nor view
     * exists, create the state and the view, then call onCreated with both.
     */
    method Create(c: HookConfig, container: Option<Node>)
      requires Valid()
      modifies this
      ensures Valid()
      ensures container.Some? && old(state).None? && old(view).None? ==>
        && state == Some(InitialState(c))
        && view == Some(View(container.value, c.root, c.value.GetOr(""), MergedExtensions(c)))
        && events == old(events) + if c.onCreated.Some? then [Created(c.onCreated.value, view.value, state.value)] else []
      ensures !(container.Some? && old(state).None? && old(view).None?) ==>
        view == old(view) && state == old(state) && events == old(events)
    {
      if container.Some? && state.None? && view.None? {
        var currentState := InitialState(c);
        state := Some(currentState);
        var currentView := View(container.value, c.root, currentState.doc, currentState.extensions);
        view := Some(currentView);
        if c.onCreated.Some? {
          events := events + [Created(c.onCreated.value, currentView, currentState)];
        }
      }
    }

    /**
     * The creation effect's cleanup: only when a view is held, destroy it, clear state and
     * view, then call onDestroyed. Without a view it does nothing, so it is safe to repeat.
     */
    method Teardown(c: HookConfig)
      requires Valid()
      modifies this
      ensures Valid()
      ensures old(view).Some? ==>
        && view == None && state == None
        && events == old(events) + [ViewDestroyed] + if c.onDestroyed.Some? then [Destroyed(c.onDestroyed.value)] else []
      ensures old(view).None? ==> view == old(view) && state == old(state) && events == old(events)
    {
      if view.Some? {
        events := events + [ViewDestroyed];
        state := None;
        view := None;
        if c.onDestroyed.Some? {
          events := events + [Destroyed(c.onDestroyed.value)];
        }
      }
    }

    /** The autoFocus effect: focus the view when autoFocus is true and a view is held. */
    method AutoFocus(c: HookConfig)
      requires Valid()
      modifies this
      ensures Valid() && view == old(view) && state == old(state)
      ensures events == old(events) + if IsTrue(c.autoFocus) && old(view).Some? then [FocusRequested] else []
    {
      if IsTrue(c.autoFocus) && view.Some? {
        events := events + [FocusRequested];
      }
    }

    /**
     * The reconfigure effect: when a view is held, replace its whole active extension set by
     * the freshly built full list; the document and the held state are untouched.
     */
    method Reconfigure(c: HookConfig)
      requires Valid()
      modifies this
      ensures Valid() && state == old(state)
      ensures old(view).Some? ==>
        && view == Some(old(view).value.(extensions := MergedExtensions(c)))
        && events == old(events) + [Reconfigured(MergedExtensions(c))]
      ensures old(view).None? ==> view == old(view) && events == old(events)
    {
      if view.Some? {
        var merged := MergedExtensions(c);
        view := Some(view.value.(extensions := merged));
        events := events + [Reconfigured(merged)];
      }
    }

    /**
     * The content-reconciliation effect: with a view and a non-empty value that differs from
     * the document, dispatch the replacement of the whole document by the value.
     */
    method Reconcile(c: HookConfig)
      requires Valid()
      modifies this
      ensures Valid() && state == old(state) && view.Some? == old(view).Some?
      ensures ReconcileChange(old(view), c.value).None? ==> view == old(view) && events == old(events)
      ensures ReconcileChange(old(view), c.value).Some? ==>
        && view == Some(old(view).value.(doc := c.value.value))
        && events == old(events) + [ChangeDispatched(ReconcileChange(old(view), c.value).value)]
      ensures view.Some? && c.value.Some? && c.value.value != "" ==> view.value.doc == c.value.value
    {
      if view.None? || c.value.None? || c.value.value == "" {
        return;
      }
      var currentValue := view.value.doc;
      if c.value.value != currentValue {
        var change := Change(0, |currentValue|, c.value.value);
        view := Some(view.value.(doc := ApplyChange(currentValue, change)));
        events := events + [ChangeDispatched(change)];
      }
    }

    /**
     * The engine delivers one update to the listener of the active configuration: the
     * document becomes the update's, and the callbacks the listener closed over are invoked.
     */
    method OnViewUpdate(u: ViewUpdate)
      requires Valid() && view.Some?
      requires !u.docChanged ==> u.doc == view.value.doc
      modifies this
      ensures Valid() && state == old(state)
      ensures view == Some(old(view).value.(doc := u.doc))
      ensures events == old(events) + Classify(old(view).value.extensions[0].listener, u)
    {
      var listener := view.value.extensions[0].listener;
      view := Some(view.value.(doc := u.doc));
      events := events + Classify(listener, u);
    }
  }
}
