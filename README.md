# react-codemirror core, modelled in Dafny

This project models the decision logic of a React binding for the CodeMirror editor. The
editor engine is an abstract collaborator: a document is a `string`, an extension is an opaque
tag (`Engine.Extension`), and every callback invocation or engine call is an entry appended to
an event log (`UseCodeMirror.Event`).

- `wrappers.dfy` (`Wrappers`): `Option`, standing for JavaScript's "undefined or a value".
- `engine.dfy` (`Engine`): the engine's vocabulary. It holds extension tags, editor states,
  the observable part of a view (parent, root, document, active extensions), update events and
  change transactions. `ApplyChange` replaces `[from, to)` as `doc[..from] + insert + doc[to..]`.
- `extensions.dfy` (`Extensions`): `getDefaultExtensions`. The specification
  `DefaultExtensions` is a table of seven slots in the fixed order, filtered to the present
  ones. The method `GetDefaultExtensions` is the source's sequence of guarded pushes, proved
  equal to it. Lemmas state, flag by flag, when each tag is emitted and that the output is in
  the fixed order with at most one tag per flag.
- `props.dfy` (`Props`): prop values as a JavaScript object sees them. `undefined` and `null`
  are values of their own, and `??` is `Coalesce`.
- `use_codemirror.dfy` (`UseCodeMirror`): the hook. `ConfigOf` is its destructuring.
  `Classify` is the update listener. `MergedExtensions` is the listener, then the defaults, then
  the caller's extensions. `ReconcileChange` is the content-reconciliation decision. The class
  `Sync` holds the optional `view` and `state` and the event log. Each effect is a method the
  caller invokes: `Create`, `Teardown`, `AutoFocus`, `Reconfigure` and `Reconcile`.
  `OnViewUpdate` is the engine delivering one update to the listener of the active configuration.
  The listener's callbacks are captured in the `UpdateListener` tag when the list is built, as
  the source's closure captures them, so a later render's callbacks reach the editor only
  through a reconfigure.
- `config.dfy` (`Config`): `DEFAULT_CONFIG` and what it yields.
- `codemirror.dfy` (`ReactCodeMirror`): the props-over-defaults merge. `Merged` is its
  specification; `MergeConfig` is the `forEach` loop, proved equal to it for any key order.
  The class `Binding` holds the claimed container and the hook state, with the ref callback and
  the handle. `MountScenario` drives one mount, two reconciliations with the same value, an
  edit whose onChange text comes back as the value (and dispatches nothing), and two teardowns,
  through the contracts alone.

Points where the code's behaviour is easy to misread:

- A theme is emitted whenever `editorStyle` is present, even for an empty mapping.
- `tabSize` and `basicSetup` are not dependencies of the reconfigure effect, so changing them
  alone never reaches a live editor (`ReconfigureIgnores`).
- An empty or absent `value` is never reconciled, so going back from non-empty text to `''` is
  not applied to the editor.
- The hook's `state` is the snapshot taken at creation. Dispatches change the view's document and
  extensions, not that snapshot.

## Model

| member | source | states |
|---|---|---|
| Engine.FullReplace | core/src/useCodeMirror.ts:125-131 | replacing the range `[0, doc.length)` with a text leaves exactly that text as the document |
| Extensions.Spaces | core/src/extensions.ts:35 | `' '.repeat(n)` has length n and every character is a space |
| Extensions.DefaultExtensions | core/src/extensions.ts:17-56 | the output is in the fixed order basicSetup, tab keymap, tab-size pair, placeholder, editable, readOnly, theme; ranks strictly rise, so each flag contributes at most one tag; only those kinds occur, at most seven; a tag is in the output iff its flag contributes it |
| Extensions.GetDefaultExtensions | core/src/extensions.ts:27-55 | the guarded pushes produce exactly the slot-table specification |
| Extensions.PresentInOrder | core/src/extensions.ts:27-55 | filtering slots whose rank equals their index keeps the tags in strictly rising rank order |
| Extensions.BasicSetupEmitted | core/src/extensions.ts:28-30 | basicSetup is emitted iff the basicSetup flag is true |
| Extensions.TabKeymapEmitted | core/src/extensions.ts:31-33 | the Tab-indent keymap is emitted iff indentWithTab is true |
| Extensions.TabSizeEmitted | core/src/extensions.ts:34-36 | a tab-size pair for n is emitted iff tabSize is n and n is not 0; every emitted pair carries the configured width and an indent unit of that many spaces |
| Extensions.TabSizeWidth | core/src/extensions.ts:34-36 | for a positive tabSize n the output holds `TabSize(n, Spaces(n))`, every tab-size entry has width n and an indent unit of length n, and that unit is n spaces |
| Extensions.PlaceholderEmitted | core/src/extensions.ts:37-39 | the placeholder is emitted with the configured content iff it is a non-empty string or an element |
| Extensions.EditableEmitted | core/src/extensions.ts:40-42 | the editable override is emitted iff editable is exactly false; `editable(true)` is never emitted |
| Extensions.ReadOnlyEmitted | core/src/extensions.ts:43-45 | the read-only override is emitted iff readOnly is true; `readOnly(false)` is never emitted |
| Extensions.ThemeEmitted | core/src/extensions.ts:46-54 | a theme with the given style is emitted iff editorStyle is that mapping, including the empty mapping |
| Extensions.NothingSetIsEmpty | core/src/extensions.ts:27-55 | with every flag absent, false, 0 or empty, the result is the empty list |
| UseCodeMirror.ConfigOf | core/src/useCodeMirror.ts:20-39 | destructuring: `extensions` is the given list, or `[]` when it is undefined; `value` is the string under its key (absent otherwise), `tabSize` the number under its key, `editable` the boolean under its key |
| UseCodeMirror.Classify | core/src/useCodeMirror.ts:43-53 | one update yields at most three notifications, and each is a change, focus, blur or update callback |
| UseCodeMirror.ClassifyChange | core/src/useCodeMirror.ts:44-48 | onChange fires iff the document changed (and onChange is set), and it receives the new document text |
| UseCodeMirror.ClassifyFocus | core/src/useCodeMirror.ts:49-51 | onFocus fires iff focus changed and the editor now has focus; onBlur fires iff focus changed and it does not; neither fires without a focus change |
| UseCodeMirror.ClassifyOrder | core/src/useCodeMirror.ts:44-52 | notifications come in the order change, focus, update, so onFocus and onBlur never both fire; onUpdate fires on every update when set, and last |
| UseCodeMirror.MergedExtensions | core/src/useCodeMirror.ts:65 | the full list is the update listener over this render's callbacks, then the assembled defaults, then the caller's extensions; its length is 1 + defaults + extensions |
| UseCodeMirror.ReconfigureIgnores | core/src/useCodeMirror.ts:100-117 | a render that changes only value, tabSize, basicSetup, root, autoFocus, onCreated or onDestroyed does not reconfigure, even when it changes the full extension list, and identical dependencies never reconfigure |
| UseCodeMirror.ReconfigureTriggered | core/src/useCodeMirror.ts:100-117 | when none of the eleven dependencies changed, the update listener and the caller's extensions are the same, and if tabSize and basicSetup are also unchanged the full extension list is the same, so skipping the reconfigure loses nothing |
| UseCodeMirror.ReconcileChange | core/src/useCodeMirror.ts:119-133 | a change is dispatched iff a view exists, the value is present, non-empty and differs from the document; it spans `[0, doc.length)` and applying it leaves the value as the document |
| UseCodeMirror.ReconcileConverges | core/src/useCodeMirror.ts:119-133 | after reconciling, the document equals any non-empty value, and reconciling again with the same value dispatches nothing (no feedback loop) |
| UseCodeMirror.Sync.constructor | core/src/useCodeMirror.ts:40-41 | the hook starts with neither view nor state and an empty log |
| UseCodeMirror.Sync.Create | core/src/useCodeMirror.ts:67-82 | creation happens only with a container present and neither state nor view held; then both are set, the view is mounted in the container with the value as document and the full list active, and onCreated is called once with them; otherwise nothing changes |
| UseCodeMirror.Sync.Teardown | core/src/useCodeMirror.ts:83-90 | without a view nothing happens; with one, the view is destroyed, state and view are cleared, and onDestroyed is called once, in that order |
| UseCodeMirror.Sync.AutoFocus | core/src/useCodeMirror.ts:94-98 | a focus request is made iff autoFocus is true and a view is held; nothing else changes |
| UseCodeMirror.Sync.Reconfigure | core/src/useCodeMirror.ts:100-103 | with a view, a reconfigure is dispatched and the active set becomes the full merged list, with document and state unchanged; without a view nothing happens |
| UseCodeMirror.Sync.Reconcile | core/src/useCodeMirror.ts:119-133 | the dispatched change is the one `ReconcileChange` decides, and the document becomes the value; with a view and a non-empty value, the document equals the value afterwards |
| UseCodeMirror.Sync.OnViewUpdate | core/src/useCodeMirror.ts:43-53 | an engine update invokes exactly the callbacks `Classify` gives for the listener in the active extensions, and the view's document becomes the update's |
| Config.DefaultFields | core/src/config.ts:3-12 | the defaults read as autoFocus false, basicSetup and indentWithTab true, tabSize 2, placeholder '' (not emitted), editable true, readOnly false and extensions `[]`, with no null value |
| Config.DefaultExtensionsOfDefaults | core/src/config.ts:3-12 | assembling the default flags yields exactly basicSetup, the tab keymap and a tab size of 2 with a two-space indent unit |
| ReactCodeMirror.Merged | core/src/CodeMirror.tsx:26-38 | the merged keys are the default keys plus the prop keys other than className; an absent key keeps its default; a null or undefined prop gives the default (undefined without one); any other prop value wins, including false, 0 and ''; className is never copied; with null-free defaults the result holds no null |
| ReactCodeMirror.MergeConfig | core/src/CodeMirror.tsx:26-38 | the copy-defaults-then-overwrite-per-key loop computes `Merged`, whatever order the keys are visited in |
| ReactCodeMirror.EmptyPropsGiveDefaults | core/src/CodeMirror.tsx:27-30 | merging no props yields the default record |
| ReactCodeMirror.ConfigFor | core/src/CodeMirror.tsx:26-40 | the configuration handed to the hook: `value` is the string prop; a set `tabSize` or `editable` prop wins; a null or undefined `tabSize`, `basicSetup` or `editable` leaves the default 2, true, true |
| ReactCodeMirror.EditableFalseProp | core/src/CodeMirror.tsx:34 | for any props with `editable: false`, that value wins over the default and the editable override is emitted |
| ReactCodeMirror.TabSizeZeroProp | core/src/CodeMirror.tsx:34 | for any props with `tabSize: 0`, that value wins over the default 2 and no tab-size pair is emitted |
| ReactCodeMirror.NullTabSizeProp | core/src/CodeMirror.tsx:34 | for any props whose `tabSize` is null or undefined, the default 2 stays in force and the pair with a two-space indent unit is emitted |
| ReactCodeMirror.Binding.constructor | core/src/CodeMirror.tsx:17-19 | a component starts with no container and a hook holding nothing |
| ReactCodeMirror.Binding.EditorRef | core/src/CodeMirror.tsx:20-24 | a non-null node becomes the container; a null callback leaves the container unchanged, so a claimed container is never cleared |
| ReactCodeMirror.Binding.GetHandle | core/src/CodeMirror.tsx:42-50 | the handle is exactly the current container, state and view |

## Left out

- React scheduling is not modelled: `useEffect`, dependency arrays, `useMemo`, `useState`, `forwardRef`, `useImperativeHandle` and JSX. Each effect is a method the caller invokes. Only the reconfigure effect's dependency list is stated, as `ReconfigureTriggered`. It compares values, whereas React compares references with `Object.is`.
- Teardown's stale closure is not modelled. The source's cleanup reads the `view` of the render in which the `[container]` effect last ran. The model's `Teardown` acts on the current state instead, and no claim is made that React calls it on unmount.
- Engine internals are not modelled: the contents of `basicSetup`, keymaps, themes and CSS, placeholder rendering, selection semantics, how a reconfigure effect is resolved, and `view.focus()`. Extensions are tags and focus is a logged request.
- UseCodeMirror.Sync.Reconcile: a dispatched change does not itself produce the update event that the real engine would deliver to the listener. That delivery is the separate `OnViewUpdate`, which the caller invokes.
- UseCodeMirror.Sync.Reconfigure: likewise, the reconfigure dispatch does not itself deliver the update (on which the new listener would call onUpdate). The caller invokes `OnViewUpdate` for it.
- Exceptions that the engine raises from `dispatch` are not modelled. The source lets them propagate.
- The update object (`ViewUpdate`) passed to onChange, onUpdate, onFocus and onBlur is not recorded in the log, only the callback and, for onChange, the text.
- DOM and platform types are reduced to identities: the container node, the `root` scoping context, the rendered `div` and its `className`.
- Numbers in props are non-negative integers (`Num(n: nat)`). Negative or fractional `tabSize`, where `' '.repeat` throws or floors, is outside the model.
- UseCodeMirror.ConfigOf: values of a type the TypeScript declarations exclude (a string `tabSize`, a `null` `extensions`) read as absent. The source would pass them on, or throw when spreading `null`.
- `Object.keys` order is not modelled. `MergeConfig` picks keys in any order, and its result does not depend on that order.
- core/src/index.ts only re-exports, and the `CodeMirrorConfig` type import in core/src/config.ts:1 has no behavioural effect; neither is modelled.
