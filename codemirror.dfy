/**
 * The binding component (`ReactCodeMirror`): it merges the props over the defaults, claims the
 * container node, and exposes a handle on the container, the state and the view.
 */
module ReactCodeMirror {
  import opened Wrappers
  import opened Engine
  import opened Extensions
  import opened Props
  import opened UseCodeMirror
  import opened Config

  /** The one prop that is for the rendered element and never reaches the configuration. */
  const ClassName := "className"

  /**
   * The merged configuration: every default key, plus every prop key except className; a prop
   * that is null or undefined falls back to the default (undefined when there is none), any
   * other prop value, false, 0 and '' included, wins.
   */
  function Merged(defaults: map<string, Value>, props: map<string, Value>): (m: map<string, Value>)
    ensures m.Keys == defaults.Keys + (props.Keys - {ClassName})
    ensures forall k :: k in defaults && (k !in props || k == ClassName) ==> m[k] == defaults[k]
    ensures forall k :: k in props && k != ClassName && IsNullish(props[k]) ==> m[k] == Get(defaults, k)
    ensures forall k :: k in props && k != ClassName && !IsNullish(props[k]) ==> m[k] == props[k]
    ensures ClassName in m ==> ClassName in defaults && m[ClassName] == defaults[ClassName]
    ensures NoNull(defaults) ==> NoNull(m)
  {
    map k | k in defaults.Keys + (props.Keys - {ClassName}) ::
      if k in props && k != ClassName then Coalesce(props[k], Get(defaults, k)) else defaults[k]
  }

  /**
   * The merge as the component performs it: copy the defaults, then overwrite key by key for
   * each prop other than className. The keys are visited in any order.
   */
  method MergeConfig(defaults: map<string, Value>, props: map<string, Value>) returns (merged: map<string, Value>)
    ensures merged == Merged(defaults, props)
  {
    merged := defaults;
    var keys := props.Keys;
    while keys != {}
      invariant keys <= props.Keys
      invariant merged == Merged(defaults, props - keys)
      decreases keys
    {
      var key :| key in keys;
      if key != ClassName {
        merged := merged[key := Coalesce(props[key], Get(merged, key))];
      }
      keys := keys - {key};
    }
    assert props - {} == props;
  }

  /**
   * The configuration the component hands to the hook for the given props: a prop that is
   * set wins, a null or undefined one leaves the default in force.
   */
  function ConfigFor(props: map<string, Value>): (c: HookConfig)
    ensures c.value == AsString(Get(props, "value"))
    ensures IsNullish(Get(props, "tabSize")) ==> c.options.tabSize == Some(2)
    ensures Get(props, "tabSize").Num? ==> c.options.tabSize == Some(Get(props, "tabSize").n)
    ensures IsNullish(Get(props, "basicSetup")) ==> c.options.basicSetup == Some(true)
    ensures IsNullish(Get(props, "editable")) ==> c.options.editable == Some(true)
    ensures Get(props, "editable").Bool? ==> c.options.editable == Some(Get(props, "editable").b)
  {
    var m := Merged(DEFAULT_CONFIG, props);
    assert Get(m, "value") == Coalesce(Get(props, "value"), Undefined);
    assert Get(m, "tabSize") == Coalesce(Get(props, "tabSize"), Num(2));
    assert Get(m, "basicSetup") == Coalesce(Get(props, "basicSetup"), Bool(true));
    assert Get(m, "editable") == Coalesce(Get(props, "editable"), Bool(true));
    ConfigOf(m)
  }

  /** With no props at all, the merged configuration is the default one. */
  lemma EmptyPropsGiveDefaults()
    ensures Merged(DEFAULT_CONFIG, map[]) == DEFAULT_CONFIG
  {
  }

  /** editable: false wins over the default true, so the editable override is emitted. */
  lemma EditableFalseProp(props: map<string, Value>)
    requires Get(props, "editable") == Bool(false)
    ensures Editable(false) in DefaultExtensions(ConfigFor(props).options)
  {
    EditableEmitted(ConfigFor(props).options);
  }

  /** tabSize: 0 wins over the default 2, so no tab-size pair is emitted. */
  lemma TabSizeZeroProp(props: map<string, Value>)
    requires Get(props, "tabSize") == Num(0)
    ensures forall e :: e in DefaultExtensions(ConfigFor(props).options) ==> !e.TabSize?
  {
    TabSizeEmitted(ConfigFor(props).options);
  }

  /** A null or undefined tabSize leaves the default 2 in force, with its two-space indent unit. */
  lemma NullTabSizeProp(props: map<string, Value>)
    requires IsNullish(Get(props, "tabSize"))
    ensures ConfigFor(props).options.tabSize == Some(2)
    ensures TabSize(2, "  ") in DefaultExtensions(ConfigFor(props).options)
  {
    TabSizeEmitted(ConfigFor(props).options);
    assert Spaces(2) == "  " by {
      assert Spaces(1) == " ";
    }
    assert TabSizePair(2) in DefaultExtensions(ConfigFor(props).options);
  }

  /** What the component exposes through its ref. */
  datatype Handle = Handle(container: Option<Node>, state: Option<EditorState>, view: Option<View>)

  /** One component instance: the container it has claimed and the hook state it drives. */
  class Binding {
    var container: Option<Node>
    const core: Sync

    constructor ()
      ensures container == None && fresh(core)
      ensures core.Valid() && core.view == None && core.state == None && core.events == []
    {
      container := None;
      core := new Sync();
    }

    /** The ref callback: a non-null node becomes the container; null leaves the container as it was. */
    method EditorRef(node: Option<Node>)
      modifies this
      ensures container == if node.Some? then node else old(container)
      ensures old(container).Some? ==> container.Some?
    {
      if node.Some? {
        container := node;
      }
    }

    /** The handle: exactly the current container, state and view. */
    function GetHandle(): (h: Handle)
      reads this, core
      ensures h.container == container && h.state == core.state && h.view == core.view
    {
      Handle(container, core.state, core.view)
    }
  }

  /**
   * A mount, two renders with the same value, an edit in the editor echoed back as the value,
   * and an unmount, as a caller drives them.
   */
  method MountScenario(node: Node, o: ExtensionsOptions) {
    var b := new Binding();
    b.EditorRef(Some(node));
    var c := HookConfig(Some("hello"), None, None, [], o, None, Some(3), None, None, None, Some(1), Some(2));
    b.core.Create(c, b.container);
    assert b.GetHandle().view.Some? && b.core.view.value.doc == "hello";
    assert b.core.events == [Created(1, b.core.view.value, b.core.state.value)];
    b.core.Create(c, b.container);
    assert |b.core.events| == 1;

    var c2 := c.(value := Some("world"));
    b.core.Reconcile(c2);
    assert b.core.view.value.doc == "world" && |b.core.events| == 2;
    b.core.Reconcile(c2);
    assert |b.core.events| == 2;

    b.core.OnViewUpdate(ViewUpdate(true, false, false, "typed"));
    assert b.core.view.value.doc == "typed";
    assert b.core.events == [b.core.events[0], ChangeDispatched(Change(0, 5, "world")), Changed(3, "typed")];
    var c3 := c.(value := Some("typed"));
    var before := b.core.events;
    b.core.Reconcile(c3);
    assert b.core.events == before;

    b.EditorRef(None);
    assert b.container == Some(node);

    b.core.Teardown(c);
    assert b.GetHandle().view.None? && b.core.events[3..] == [ViewDestroyed, Destroyed(2)];
    b.core.Teardown(c);
    assert |b.core.events| == 5;
  }
}
