/** The baseline configuration merged under the component's props. */
module Config {
  import opened Wrappers
  import opened Engine
  import opened Extensions
  import opened Props
  import opened UseCodeMirror

  const DEFAULT_CONFIG: map<string, Value> := map[
    "autoFocus" := Bool(false),
    "basicSetup" := Bool(true),
    "indentWithTab" := Bool(true),
    "tabSize" := Num(2),
    "placeholder" := Str(""),
    "editable" := Bool(true),
    "readOnly" := Bool(false),
    "extensions" := Exts([])]

  /** Read through the hook's destructuring, the defaults give each field its documented value. */
  lemma DefaultFields()
    ensures var c := ConfigOf(DEFAULT_CONFIG);
      && c.autoFocus == Some(false) && !IsTrue(c.autoFocus)
      && c.options.basicSetup == Some(true) && c.options.indentWithTab == Some(true)
      && c.options.tabSize == Some(2)
      && c.options.placeholder == Some(Text("")) && !PlaceholderSet(c.options.placeholder)
      && c.options.editable == Some(true) && c.options.readOnly == Some(false)
      && c.options.editorStyle.None?
      && c.extensions == [] && c.value.None?
    ensures NoNull(DEFAULT_CONFIG)
  {
  }

  /** Assembling the default flags yields exactly basicSetup, the tab keymap and a tab size of 2 with a two-space indent unit. */
  lemma DefaultExtensionsOfDefaults()
    ensures DefaultExtensions(ConfigOf(DEFAULT_CONFIG).options) == [BasicSetup, TabKeymap, TabSize(2, "  ")]
  {
    var o := ConfigOf(DEFAULT_CONFIG).options;
    DefaultFields();
    var r := DefaultExtensions(o);
    assert Spaces(2) == "  " by {
      assert Spaces(1) == " ";
    }
    assert BasicSetup in r && TabKeymap in r && TabSizePair(2) in r;
    forall e | e in r ensures e == BasicSetup || e == TabKeymap || e == TabSizePair(2) {
      assert Contributes(o, e);
    }
    assert r[0] == BasicSetup && r[1] == TabKeymap && r[2] == TabSizePair(2) by {
      assert Rank(r[0]) < Rank(r[1]) < Rank(r[2]);
      assert r[0] in r && r[1] in r && r[2] in r;
    }
  }
}
