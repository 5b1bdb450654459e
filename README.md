# JSON Viewer — a Dafny model

This project models the logic of the JSON viewer component
(`src/app/components/JsonViewer.tsx`). The user pastes, edits or fetches JSON
text. The component parses it, beautifies or minifies it, and shows it as a
collapsible tree. The model has two parts.

- **The document controller** (`JsonViewer`) is a class with the component's six
  state fields: `inputJson`, `parsedJson`, `error`, `url`, `activeTab` and
  `isLoading`. It has one method per handler. Each method's contract gives the
  new value of every field on every branch.
- **The tree node** is a pure render function (`Render`). It maps a node's
  props and flags to what the node shows: a scalar line with truncation and
  "Show more", or an `Array[n]` / `Object{n}` header with its children. A click
  on a scalar is decided by a function that returns a tagged outcome: expand a
  nested JSON string, or copy. A small class (`TreeNode`) holds the node's value
  and its three flags, and its handlers change only their own flags.

The JSON library is not modelled: `JSON.parse` and `JSON.stringify` are passed
in as the two functions of a `Codec` value. So nothing here depends on how
they work. In the same way, the relay endpoint is a function from the URL it
is sent to its response, and the clipboard read is a parameter.

Files:

- `json_model.dfy` (module `JsonModel`): the `JsonValue` datatype, the
  `Codec`, `String()` for scalars, and JavaScript truthiness.
- `text_util.dfy` (module `TextUtil`): `truncateText`, `String.prototype.trim`
  with the ECMAScript whitespace set, and decimal rendering of counts and
  indices.
- `tree_view.dfy` (module `TreeView`): the TreeNode render, the click
  decision, and the `TreeNode` class.
- `controller.dfy` (module `Controller`): the `JsonViewer` class and its
  handlers.

Behaviours of the code that the model keeps:

- A body from the URL that fails to parse only sets the message "URL did not
  return valid JSON data". It does not discard the previously parsed value
  (`FinishLoad`).
- Editing the text does not invalidate `parsedJson`. The old tree stays until
  the viewer tab is selected again (`EditInput`).
- The viewer tab shows a tree only for a truthy parsed value (`parsedJson &&`).
  The valid documents `null`, `false` and `""` leave the viewer empty, and the
  document `0` (also `-0` or `0.0`) shows the bare text "0", because React
  renders the falsy number the expression yields (`ViewerBox`).
- `handleCopy` stringifies `null` with `JSON.stringify` because
  `typeof null === 'object'`. Every other scalar goes through `String()`
  (`CopiedText`).
- A mounted TreeNode keeps its flags when its `value` prop changes. The
  root `<TreeNode name="root" …/>` has no key, so a URL loaded on the viewer
  tab gives the live root a new value under its old `isExpanded`,
  `showFullText` and `nestedJson` (`TreeNode.Rerender`,
  `StaleNestedAfterNewValue`). Children under an unchanged key keep their
  state the same way.
- The `catch` around the second `JSON.parse` in `handleValueClick` can never
  run, because the first parse of the same text has just succeeded. The model
  keeps that branch, and `ValueClick`'s contract shows that it never decides
  the outcome.

## Model

| member | source | states |
|---|---|---|
| TextUtil.TruncateText | src/app/components/JsonViewer.tsx:40-43 | a text of at most 100 (maxLength) characters comes back unchanged; a longer one becomes its first 100 characters followed by "...", so the result never exceeds 103 and always agrees with the input on its first min(len, 100) characters |
| TextUtil.Trim | src/app/components/JsonViewer.tsx:185 | `url.trim()` is the infix `url[a..b]` whose dropped prefix and suffix are all ECMAScript whitespace, and which neither starts nor ends with whitespace |
| TextUtil.TrimStartIndex | src/app/components/JsonViewer.tsx:185 | the leading part trim skips is all whitespace and stops at the first character that is not |
| TextUtil.TrimEndIndex | src/app/components/JsonViewer.tsx:185 | the trailing part trim drops is all whitespace and the last character kept is not |
| TextUtil.TrimEmptyIffBlank | src/app/components/JsonViewer.tsx:185 | `!url.trim()` holds exactly when the URL is empty or consists only of whitespace (both directions) |
| TextUtil.NatToString | src/app/components/JsonViewer.tsx:147-149 | the count in a header and an array index name are non-empty strings of decimal digits without a leading zero, one digit exactly below 10 |
| TextUtil.DigitsValueOfNatToString | src/app/components/JsonViewer.tsx:147-149 | reading the decimal text of n back gives n |
| TextUtil.NatToStringInjective | src/app/components/JsonViewer.tsx:162 | distinct indices get distinct names |
| TreeView.ValueClick | src/app/components/JsonViewer.tsx:55-77 | a click expands exactly when the value is a string whose parse succeeds with an object or array, and then the nested value is that parse result; every other case (non-string, unparseable, parses to a scalar or null) copies CopiedText of the value, which for a scalar other than null is String(value) |
| TreeView.ChildNodes | src/app/components/JsonViewer.tsx:162-169 | one child per entry, in entry order, with the entry's key as name and its value, at depth + 1 |
| TreeView.SummaryReportsCount | src/app/components/JsonViewer.tsx:146-150 | the header is `Array[` digits `]` for an array and `Object{` digits `}` for an object, and the digits read back as the array's length or the number of keys, which is the number of children when expanded |
| TreeView.ArrayChildren | src/app/components/JsonViewer.tsx:162-169 | an array's children are its elements in index order, named by their decimal index, at depth + 1, with pairwise distinct names |
| TreeView.ObjectChildren | src/app/components/JsonViewer.tsx:162-169 | an object's children are its properties in their order, named by their key, at depth + 1 |
| TreeView.ChildrenOnlyWhenExpanded | src/app/components/JsonViewer.tsx:131-171 | a composite node shows its summary always and its children exactly while isExpanded holds |
| TreeView.ShowMoreIffLong | src/app/components/JsonViewer.tsx:84-113 | the "Show more"/"Show less" control and the title appear exactly when String(value) is longer than 100 characters; a shorter value is always shown in full |
| TreeView.LongValueDisplay | src/app/components/JsonViewer.tsx:85-111 | a long value shows its first 100 characters and "..." with the label "Show more" while collapsed, and the full text with "Show less" once toggled |
| TreeView.ShowMoreChangesOnlyText | src/app/components/JsonViewer.tsx:79-127 | flipping showFullText changes neither the node's name, its title, whether the control is shown, nor the nested tree: only the text and the label |
| TreeView.ClickedJsonStringShowsNested | src/app/components/JsonViewer.tsx:122-126 | after an expanding click the scalar shows the parsed value as a child named "Nested JSON" at depth + 1 |
| TreeView.ExampleDocument | src/app/components/JsonViewer.tsx:131-171 | `{"a":1,"b":[1,2,3]}` renders as an expanded `Object{2}` with children `a: 1` and `b`, whose header reads `Array[3]` |
| TreeView.ExampleNestedClick | src/app/components/JsonViewer.tsx:64-77 | clicking the string `{"x":1}` expands it and copies nothing |
| TreeView.ExampleCopyClick | src/app/components/JsonViewer.tsx:64-77 | clicking the string `hello`, which is not JSON text, copies `hello` |
| TreeView.TreeNode.constructor | src/app/components/JsonViewer.tsx:19-23 | a fresh node is expanded, shows truncated text and has no nested JSON |
| TreeView.TreeNode.View | src/app/components/JsonViewer.tsx:84-173 | in terms of the node's fields: a scalar shows String(value) in full when showFullText is set and truncated to 100 characters plus "..." otherwise, the "Show more"/"Show less" toggle exactly when that text is longer than 100, and the "Nested JSON" child at depth + 1 exactly when nestedJson holds a (truthy) value; an array or object shows its `Array[n]`/`Object{n}` summary and its entries as children at depth + 1 exactly while isExpanded holds |
| TreeView.TreeNode.Rerender | src/app/components/JsonViewer.tsx:19-23 | a new `value` prop replaces the value and keeps every flag, because the useState initial values apply only on mount |
| TreeView.StaleNestedAfterNewValue | src/app/components/JsonViewer.tsx:122-126 | a node that was clicked open on `{"x":1}` and then receives the string `abc` still shows the old "Nested JSON" tree under it |
| TreeView.TreeNode.HandleValueClick | src/app/components/JsonViewer.tsx:64-77 | the value is unchanged and the outcome is ValueClick's for it; an expanding click sets nestedJson to the parsed value and isExpanded to true and leaves showFullText; a copying click changes no flag |
| TreeView.TreeNode.HandleShowMore | src/app/components/JsonViewer.tsx:79-82 | flips showFullText and leaves the value, isExpanded and nestedJson |
| TreeView.TreeNode.ToggleExpanded | src/app/components/JsonViewer.tsx:136 | flips isExpanded and leaves the value and the other flags |
| TreeView.TreeNode.HeaderCopyText | src/app/components/JsonViewer.tsx:153-158 | the header's copy button copies the subtree stringified with an indent of 2 |
| Controller.ViewerBox | src/app/components/JsonViewer.tsx:342-346 | the viewer shows a root node named "root" at depth 0 holding the parsed value for every array and object, true, a number other than 0 and a non-empty string; the bare text "0" for the number 0; nothing for null, false or "" |
| Controller.JsonViewer.constructor | src/app/components/JsonViewer.tsx:177-182 | the component starts with empty text, URL and error, null parsed value, the editor tab and no loading |
| Controller.JsonViewer.ProcessJson | src/app/components/JsonViewer.tsx:226-237 | returns true exactly when the text parses; then parsedJson is the parse result of that text and the error is cleared, otherwise the error is "Invalid JSON format" and parsedJson is null; the text, URL, tab and loading flag are unchanged |
| Controller.JsonViewer.HandleTabChange | src/app/components/JsonViewer.tsx:239-244 | the tab becomes the requested one; switching to "viewer" has first had processJson's effect on the current text; any other tab leaves parsedJson and error |
| Controller.JsonViewer.Reformat | src/app/components/JsonViewer.tsx:246-264 | on a parse failure the text is unchanged and the error is "Invalid JSON format"; on success the text is the stringified parse result with the given indent and the error is cleared; parsedJson, URL, tab and loading flag untouched |
| Controller.JsonViewer.BeautifyJson | src/app/components/JsonViewer.tsx:246-254 | as Reformat with an indent of 2 |
| Controller.JsonViewer.UglifyJson | src/app/components/JsonViewer.tsx:256-264 | as Reformat with the compact form (indent 0) |
| Controller.JsonViewer.HandlePaste | src/app/components/JsonViewer.tsx:266-273 | a successful clipboard read replaces the text and leaves the error; a refused one keeps the text and reports "Failed to paste from clipboard" |
| Controller.JsonViewer.HandleClear | src/app/components/JsonViewer.tsx:275-280 | text, parsed value, error and URL are reset to empty or null; tab and loading flag are unchanged |
| Controller.JsonViewer.EditInput | src/app/components/JsonViewer.tsx:334 | an edit replaces the text only; the parsed value is not refreshed |
| Controller.JsonViewer.EditUrl | src/app/components/JsonViewer.tsx:289 | an edit of the URL field replaces the URL only |
| Controller.JsonViewer.StartLoad | src/app/components/JsonViewer.tsx:184-199 | a blank or whitespace-only URL sets "Please enter a URL", sends nothing and leaves the loading flag; otherwise loading starts, the error is cleared and the trimmed URL is sent |
| Controller.JsonViewer.FinishLoad | src/app/components/JsonViewer.tsx:193-223 | a relay failure sets the generic failure message and keeps text and parsed value; a body that does not parse sets "URL did not return valid JSON data" and keeps them; a good body becomes the text and, on the viewer tab only, the parsed value; loading is off on every path |
| Controller.JsonViewer.LoadFromUrl | src/app/components/JsonViewer.tsx:184-224 | the whole handler: no relay call for a blank URL, otherwise the trimmed URL is sent and the three outcomes above follow, with the error cleared on success and loading off at the end |

## Left out

- The JSON library: `JSON.parse` and `JSON.stringify` are parameters (`Codec`). So no property relating them is stated, such as beautify followed by minify giving back the same value.
- Distinct object keys: an `Obj` may list a key twice, while JSON.parse never returns such an object. `Object{n}` counts `Object.keys(value).length` only for distinct keys, and the model does not enforce that.
- Number formatting: a number carries the text `String(n)` gives it. `-0` is taken to display as "0".
- Lengths count Unicode scalar values, not UTF-16 code units. A JavaScript `slice(0, 100)` can split a surrogate pair, and the model cannot.
- The relay endpoint (`src/app/api/proxy/route.ts`) is not part of this model. Its answer is a parameter, with every failure folded into `Failed`, because the component turns all of them into one message.
- The clipboard write in `handleCopy`, the `isCopied` indicator and its one-second reset timer are platform calls and a timer. The model keeps only the choice of the copy path and the text to be copied.
- Asynchrony: each handler runs as one atomic step. `loadFromUrl` is split at its `await` into `StartLoad` and `FinishLoad`, but overlapping loads and the tab value captured when the handler started are not modelled.
- The buttons are disabled while loading, and beautify, minify, paste and clear are shown only on the editor tab. These are conditions of the markup, not of the handlers, so the methods do not require them.
- Styling (`getValueStyle`), padding by depth, icons, and the page and its metadata (`src/app/page.tsx`) are presentation only.
- A child TreeNode's own state: each child is modelled as the props it is mounted with (`ChildNode`). Its flags live in its own `TreeNode` object.
