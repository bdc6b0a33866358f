/**
 * The extension assembler (`getDefaultExtensions`): a record of optional flags becomes an
 * ordered list of extension tags, one guarded push per flag, in a fixed order.
 */
module Extensions {
  import opened Wrappers
  import opened Engine

  /** The options record; None stands for an absent (undefined) field. */
  datatype ExtensionsOptions = ExtensionsOptions(
    basicSetup: Option<bool>,
    indentWithTab: Option<bool>,
    editable: Option<bool>,
    placeholder: Option<PlaceholderValue>,
    tabSize: Option<nat>,
    readOnly: Option<bool>,
    editorStyle: Option<map<string, string>>)

  /** JavaScript truthiness of an optional boolean. */
  predicate IsTrue(b: Option<bool>) {
    b == Some(true)
  }

  /** JavaScript truthiness of an optional number: present and not 0. */
  predicate TabSizeSet(n: Option<nat>) {
    n.Some? && n.value != 0
  }

  /** JavaScript truthiness of an optional placeholder: a non-empty string or any element. */
  predicate PlaceholderSet(p: Option<PlaceholderValue>) {
    p.Some? && (p.value.Text? ==> p.value.s != "")
  }

  /** ' '.repeat(n) */
  function Spaces(n: nat): (s: string)
    ensures |s| == n
    ensures forall i :: 0 <= i < n ==> s[i] == ' '
  {
    if n == 0 then "" else Spaces(n - 1) + " "
  }

  /** The tab-size pair for width n: tab width n and an indent unit of n spaces. */
  function TabSizePair(n: nat): Extension {
    TabSize(n, Spaces(n))
  }

  /** Position of each kind of assembled extension in the fixed output order; 7 for any other tag. */
  function Rank(e: Extension): nat {
    match e
    case BasicSetup => 0
    case TabKeymap => 1
    case TabSize(_, _) => 2
    case Placeholder(_) => 3
    case Editable(_) => 4
    case ReadOnly(_) => 5
    case Theme(_) => 6
    case _ => 7
  }

  /** Every element comes strictly after the previous one in the fixed order (so no kind occurs twice). */
  predicate InAssemblyOrder(r: seq<Extension>) {
    forall i, j :: 0 <= i < j < |r| ==> Rank(r[i]) < Rank(r[j])
  }

  /**
   * The seven slots of the assembler in their fixed order: the extension each flag
   * contributes, or None where the flag is absent or falsy.
   */
  function Slots(o: ExtensionsOptions): (s: seq<Option<Extension>>)
    ensures |s| == 7
  {
    [ if IsTrue(o.basicSetup) then Some(BasicSetup) else None,
      if IsTrue(o.indentWithTab) then Some(TabKeymap) else None,
      if TabSizeSet(o.tabSize) then Some(TabSizePair(o.tabSize.value)) else None,
      if PlaceholderSet(o.placeholder) then Some(Placeholder(o.placeholder.value)) else None,
      if o.editable == Some(false) then Some(Editable(false)) else None,
      if IsTrue(o.readOnly) then Some(ReadOnly(true)) else None,
      if o.editorStyle.Some? then Some(Theme(o.editorStyle.value)) else None ]
  }

  /** What one slot adds to the list: its tag, or nothing. */
  function Contribution(x: Option<Extension>): seq<Extension> {
    if x.Some? then [x.value] else []
  }

  /** The contributions of the first k slots, concatenated in slot order. */
  function Present(s: seq<Option<Extension>>, k: nat): (r: seq<Extension>)
    requires k <= |s|
    ensures |r| <= k
  {
    if k == 0 then [] else Present(s, k - 1) + Contribution(s[k - 1])
  }

  /** A tag is present exactly when one of the first k slots holds it. */
  lemma {:induction false} PresentMembers(s: seq<Option<Extension>>, k: nat)
    requires k <= |s|
    ensures forall e :: e in Present(s, k) <==> Some(e) in s[..k]
  {
    if k != 0 {
      PresentMembers(s, k - 1);
      assert s[..k] == s[..k - 1] + [s[k - 1]];
    }
  }

  /** Present keeps the order of its slots: ranks rising with the slot index stay rising. */
  lemma {:induction false} PresentInOrder(s: seq<Option<Extension>>, k: nat)
    requires k <= |s|
    requires forall i :: 0 <= i < |s| && s[i].Some? ==> Rank(s[i].value) == i
    ensures InAssemblyOrder(Present(s, k))
    ensures forall e :: e in Present(s, k) ==> Rank(e) < k
  {
    if k != 0 {
      PresentInOrder(s, k - 1);
      PresentMembers(s, k - 1);
    }
  }

  /** Which tags the slot table holds, flag by flag. */
  predicate Contributes(o: ExtensionsOptions, e: Extension) {
    || (e == BasicSetup && IsTrue(o.basicSetup))
    || (e == TabKeymap && IsTrue(o.indentWithTab))
    || (TabSizeSet(o.tabSize) && e == TabSizePair(o.tabSize.value))
    || (PlaceholderSet(o.placeholder) && e == Placeholder(o.placeholder.value))
    || (e == Editable(false) && o.editable == Some(false))
    || (e == ReadOnly(true) && IsTrue(o.readOnly))
    || (o.editorStyle.Some? && e == Theme(o.editorStyle.value))
  }

  lemma SlotMembership(o: ExtensionsOptions, e: Extension)
    ensures e in Present(Slots(o), 7) <==> Contributes(o, e)
  {
    var s := Slots(o);
    PresentMembers(s, 7);
    assert s[..7] == s;
    assert Some(e) in s <==> exists i :: 0 <= i < 7 && s[i] == Some(e);
  }

  /** getDefaultExtensions, as a specification: the present slots in the fixed order. */
  function DefaultExtensions(o: ExtensionsOptions): (r: seq<Extension>)
    ensures InAssemblyOrder(r)
    ensures |r| <= 7
    ensures forall e :: e in r ==> Rank(e) < 7
    ensures forall e :: e in r <==> Contributes(o, e)
  {
    assert forall i :: 0 <= i < 7 && Slots(o)[i].Some? ==> Rank(Slots(o)[i].value) == i;
    PresentInOrder(Slots(o), 7);
    forall e ensures e in Present(Slots(o), 7) <==> Contributes(o, e) {
      SlotMembership(o, e);
    }
    Present(Slots(o), 7)
  }

  /** basicSetup is emitted exactly when the basicSetup flag is true. */
  lemma BasicSetupEmitted(o: ExtensionsOptions)
    ensures BasicSetup in DefaultExtensions(o) <==> IsTrue(o.basicSetup)
  {
    assert BasicSetup in DefaultExtensions(o) <==> Contributes(o, BasicSetup);
  }

  /** The tab keymap is emitted exactly when the indentWithTab flag is true. */
  lemma TabKeymapEmitted(o: ExtensionsOptions)
    ensures TabKeymap in DefaultExtensions(o) <==> IsTrue(o.indentWithTab)
  {
    assert TabKeymap in DefaultExtensions(o) <==> Contributes(o, TabKeymap);
  }

  /**
   * A tab-size pair for n is emitted exactly when tabSize is n and n is not 0, and every
   * emitted pair holds the configured width and an indent unit of that many spaces.
   */
  lemma TabSizeEmitted(o: ExtensionsOptions)
    ensures forall n: nat :: TabSizePair(n) in DefaultExtensions(o) <==> o.tabSize == Some(n) && n != 0
    ensures forall e :: e in DefaultExtensions(o) && e.TabSize? ==> e == TabSizePair(e.width) && o.tabSize == Some(e.width)
  {
    var r := DefaultExtensions(o);
    forall n: nat ensures TabSizePair(n) in r <==> o.tabSize == Some(n) && n != 0 {
      assert TabSizePair(n) in r <==> Contributes(o, TabSizePair(n));
    }
    forall e | e in r && e.TabSize? ensures e == TabSizePair(e.width) && o.tabSize == Some(e.width) {
      assert Contributes(o, e);
    }
  }

  /** The placeholder is emitted, with the configured content, exactly when it is a non-empty string or an element. */
  lemma PlaceholderEmitted(o: ExtensionsOptions)
    ensures forall p :: Placeholder(p) in DefaultExtensions(o) <==> o.placeholder == Some(p) && PlaceholderSet(o.placeholder)
  {
    var r := DefaultExtensions(o);
    forall p ensures Placeholder(p) in r <==> o.placeholder == Some(p) && PlaceholderSet(o.placeholder) {
      assert Placeholder(p) in r <==> Contributes(o, Placeholder(p));
    }
  }

  /** The editable override is emitted exactly when editable is false, and never as editable true. */
  lemma EditableEmitted(o: ExtensionsOptions)
    ensures Editable(false) in DefaultExtensions(o) <==> o.editable == Some(false)
    ensures Editable(true) !in DefaultExtensions(o)
  {
    assert Editable(false) in DefaultExtensions(o) <==> Contributes(o, Editable(false));
    assert Editable(true) in DefaultExtensions(o) <==> Contributes(o, Editable(true));
  }

  /** The read-only override is emitted exactly when readOnly is true, and never as read-only false. */
  lemma ReadOnlyEmitted(o: ExtensionsOptions)
    ensures ReadOnly(true) in DefaultExtensions(o) <==> IsTrue(o.readOnly)
    ensures ReadOnly(false) !in DefaultExtensions(o)
  {
    assert ReadOnly(true) in DefaultExtensions(o) <==> Contributes(o, ReadOnly(true));
    assert ReadOnly(false) in DefaultExtensions(o) <==> Contributes(o, ReadOnly(false));
  }

  /** A theme with the given style is emitted exactly when editorStyle is that mapping, the empty one included. */
  lemma ThemeEmitted(o: ExtensionsOptions)
    ensures forall m :: Theme(m) in DefaultExtensions(o) <==> o.editorStyle == Some(m)
    ensures o.editorStyle == Some(map[]) ==> Theme(map[]) in DefaultExtensions(o)
  {
    var r := DefaultExtensions(o);
    forall m ensures Theme(m) in r <==> o.editorStyle == Some(m) {
      assert Theme(m) in r <==> Contributes(o, Theme(m));
    }
  }

  /** getDefaultExtensions as the source writes it: a local list grown by guarded pushes. */
  method GetDefaultExtensions(o: ExtensionsOptions) returns (r: seq<Extension>)
    ensures r == DefaultExtensions(o)
  {
    ghost var slots := Slots(o);
    var extensions: seq<Extension> := [];
    if IsTrue(o.basicSetup) {
      extensions := extensions + [BasicSetup];
    }
    assert extensions == Present(slots, 1);
    if IsTrue(o.indentWithTab) {
      extensions := extensions + [TabKeymap];
    }
    assert extensions == Present(slots, 2);
    if TabSizeSet(o.tabSize) {
      extensions := extensions + [TabSize(o.tabSize.value, Spaces(o.tabSize.value))];
    }
    assert extensions == Present(slots, 3);
    if PlaceholderSet(o.placeholder) {
      extensions := extensions + [Placeholder(o.placeholder.value)];
    }
    assert extensions == Present(slots, 4);
    if o.editable == Some(false) {
      extensions := extensions + [Editable(false)];
    }
    assert extensions == Present(slots, 5);
    if IsTrue(o.readOnly) {
      extensions := extensions + [ReadOnly(true)];
    }
    assert extensions == Present(slots, 6);
    if o.editorStyle.Some? {
      extensions := extensions + [Theme(o.editorStyle.value)];
    }
    assert extensions == Present(slots, 7);
    r := extensions;
  }

  lemma HeadIsMember(r: seq<Extension>)
    ensures r != [] ==> r[0] in r
  {
  }

  /** With every flag absent, false, 0 or empty, nothing is emitted. */
  lemma NothingSetIsEmpty(o: ExtensionsOptions)
    requires !IsTrue(o.basicSetup) && !IsTrue(o.indentWithTab) && !TabSizeSet(o.tabSize)
    requires !PlaceholderSet(o.placeholder) && o.editable != Some(false) && !IsTrue(o.readOnly)
    requires o.editorStyle.None?
    ensures DefaultExtensions(o) == []
  {
    HeadIsMember(DefaultExtensions(o));
  }

  /** A tab size of n yields one pair whose indent unit is exactly n spaces. */
  lemma TabSizeWidth(o: ExtensionsOptions, n: nat)
    requires o.tabSize == Some(n) && n > 0
    ensures exists i :: 0 <= i < |DefaultExtensions(o)| && DefaultExtensions(o)[i] == TabSize(n, Spaces(n))
    ensures forall e :: e in DefaultExtensions(o) && e.TabSize? ==> e.width == n && |e.indentUnit| == n
    ensures Spaces(n) == seq(n, _ => ' ')
  {
    TabSizeEmitted(o);
    assert TabSizePair(n) in DefaultExtensions(o);
  }
}
