/** The TreeNode component: how one node of the parsed document is displayed,
    what a click on a scalar value does, and the three per-node flags. */
module TreeView {
  import opened JsonModel
  import opened TextUtil

  /** The name under which a nested JSON string is shown. */
  const NestedJsonName: string := "Nested JSON"

  /** A TreeNode element to be rendered: its props `name`, `value` and `depth`. */
  datatype ChildNode = ChildNode(name: string, value: JsonValue, depth: nat)

  /** The per-node state: isExpanded, showFullText and nestedJson (None is null). */
  datatype NodeFlags = NodeFlags(isExpanded: bool, showFullText: bool, nestedJson: Option<JsonValue>)

  /** The flags of a freshly mounted node. */
  const InitialFlags: NodeFlags := NodeFlags(true, false, None)

  /** What a node displays. A scalar shows `name: text`, a "Show more" or
      "Show less" toggle when its text is long, a hover title with the full
      text, and the nested tree of a JSON string once it has been clicked. An
      array or object shows `name` with its count summary and, when expanded,
      its children. */
  datatype NodeView =
    | LeafView(name: string, text: string, title: Option<string>, toggleLabel: Option<string>, nested: Option<ChildNode>)
    | BranchView(name: string, expanded: bool, summary: string, children: seq<ChildNode>)

  /** The outcome of a click on a scalar value: show the string's parsed
      content as a nested tree, or copy a text to the clipboard. */
  datatype ClickOutcome = ExpandNested(nested: JsonValue) | CopyText(text: string)

  /** isJsonString(str): the text parses, to an object or an array. */
  predicate IsJsonString(codec: Codec, str: string) {
    match codec.parse(str)
    case None => false
    case Some(parsed) => parsed.IsComposite()
  }

  /** The text handleCopy writes: `typeof text === 'object'` (an array, an
      object, or null) is stringified with an indent of 2, anything else goes
      through String(). */
  function CopiedText(codec: Codec, v: JsonValue): string {
    if v.Null? || v.IsComposite() then codec.stringify(v, 2) else DisplayString(v)
  }

  /** handleValueClick's decision: a string holding a JSON object or array is
      expanded in place, every other value is copied. */
  function ValueClick(codec: Codec, val: JsonValue): (r: ClickOutcome)
    ensures r.ExpandNested? <==> val.Str? && codec.parse(val.s).Some? && codec.parse(val.s).value.IsComposite()
    ensures r.ExpandNested? ==> codec.parse(val.s) == Some(r.nested) && Truthy(r.nested)
    ensures r.CopyText? ==> r.text == CopiedText(codec, val)
    ensures r.CopyText? && !val.Null? && !val.IsComposite() ==> r.text == DisplayString(val)
  {
    if val.Str? && IsJsonString(codec, val.s) then
      match codec.parse(val.s)
      case Some(parsed) => ExpandNested(parsed)
      case None => CopyText(CopiedText(codec, val))  // the catch of the second JSON.parse
    else
      CopyText(CopiedText(codec, val))
  }

  /** Object.entries(value): for an array, its indices as decimal strings with
      the elements; for an object, its own properties in order. */
  function Entries(v: JsonValue): seq<(string, JsonValue)>
    requires v.IsComposite()
  {
    match v
    case Arr(elems) => seq(|elems|, i requires 0 <= i < |elems| => (NatToString(i), elems[i]))
    case Obj(entries) => entries
  }

  /** The TreeNode elements for a list of entries, one level deeper. */
  function ChildNodes(entries: seq<(string, JsonValue)>, depth: nat): (r: seq<ChildNode>)
    ensures |r| == |entries|
    ensures forall i :: 0 <= i < |r| ==> r[i] == ChildNode(entries[i].0, entries[i].1, depth + 1)
  {
    if entries == [] then []
    else [ChildNode(entries[0].0, entries[0].1, depth + 1)] + ChildNodes(entries[1..], depth)
  }

  /** The count summary of an array or object header. */
  function Summary(v: JsonValue): string
    requires v.IsComposite()
  {
    match v
    case Arr(elems) => "Array[" + NatToString(|elems|) + "]"
    case Obj(entries) => "Object{" + NatToString(|entries|) + "}"
  }

  /** The text shown for a scalar: in full when showFullText is set, truncated otherwise. */
  function LeafText(full: string, showFullText: bool): string {
    if showFullText then full else TruncateText(full, MaxDisplayLength)
  }

  /** The TreeNode render for props `name`, `value`, `depth` and the node's flags. */
  function Render(name: string, value: JsonValue, depth: nat, flags: NodeFlags): NodeView {
    if !value.IsComposite() then
      var full := DisplayString(value);
      var isLong := |full| > MaxDisplayLength;
      LeafView(name,
               LeafText(full, flags.showFullText),
               if isLong then Some(full) else None,
               if isLong then Some(if flags.showFullText then "Show less" else "Show more") else None,
               match flags.nestedJson
               case Some(nested) =>
                 if Truthy(nested) then Some(ChildNode(NestedJsonName, nested, depth + 1)) else None
               case None => None)
    else
      BranchView(name, flags.isExpanded, Summary(value),
                 if flags.isExpanded then ChildNodes(Entries(value), depth) else [])
  }

  /** The summary of an array names `Array[` and its length, that of an
      object `Object{` and its number of keys, and the count reads back as
      the number of children the node has when expanded. */
  lemma SummaryReportsCount(v: JsonValue, depth: nat)
    requires v.IsComposite()
    ensures var s := Summary(v);
            var n := |ChildNodes(Entries(v), depth)|;
            var open := if v.Arr? then "Array[" else "Object{";
            var close := if v.Arr? then ']' else '}';
            |s| > |open| + 1 && s[..|open|] == open && s[|s| - 1] == close
            && (forall i :: |open| <= i < |s| - 1 ==> IsDigit(s[i]))
            && DigitsValue(s[|open|..|s| - 1]) == n
            && n == (if v.Arr? then |v.elems| else |v.entries|)
  {
    var s := Summary(v);
    var n := |ChildNodes(Entries(v), depth)|;
    DigitsValueOfNatToString(n);
    if v.Arr? {
      assert s[6..|s| - 1] == NatToString(n);
    } else {
      assert s[7..|s| - 1] == NatToString(n);
    }
  }

  /** An expanded array lists its elements in index order, each named by its
      decimal index and one level deeper; the names are pairwise distinct. */
  lemma ArrayChildren(elems: seq<JsonValue>, depth: nat)
    ensures var cs := ChildNodes(Entries(Arr(elems)), depth);
            |cs| == |elems|
            && (forall i :: 0 <= i < |cs| ==> cs[i] == ChildNode(NatToString(i), elems[i], depth + 1))
            && (forall i, j :: 0 <= i < j < |cs| ==> cs[i].name != cs[j].name)
  {
    var cs := ChildNodes(Entries(Arr(elems)), depth);
    forall i, j | 0 <= i < j < |cs| ensures cs[i].name != cs[j].name {
      NatToStringInjective(i, j);
    }
  }

  /** An expanded object lists its own properties in their order, each under
      its key and one level deeper. */
  lemma ObjectChildren(entries: seq<(string, JsonValue)>, depth: nat)
    ensures var cs := ChildNodes(Entries(Obj(entries)), depth);
            |cs| == |entries|
            && forall i :: 0 <= i < |cs| ==> cs[i] == ChildNode(entries[i].0, entries[i].1, depth + 1)
  {
  }

  /** Children are rendered exactly while the node is expanded. */
  lemma ChildrenOnlyWhenExpanded(name: string, v: JsonValue, depth: nat, flags: NodeFlags)
    requires v.IsComposite()
    ensures var view := Render(name, v, depth, flags);
            view.BranchView? && view.summary == Summary(v)
            && (flags.isExpanded ==> view.children == ChildNodes(Entries(v), depth))
            && (!flags.isExpanded ==> view.children == [])
  {
  }

  /** The "Show more" toggle appears exactly for a scalar whose String() is
      longer than 100 characters; a short value always shows in full. */
  lemma ShowMoreIffLong(name: string, v: JsonValue, depth: nat, flags: NodeFlags)
    requires !v.IsComposite()
    ensures var view := Render(name, v, depth, flags);
            view.LeafView?
            && (view.toggleLabel.Some? <==> |DisplayString(v)| > MaxDisplayLength)
            && (view.title.Some? <==> view.toggleLabel.Some?)
            && (|DisplayString(v)| <= MaxDisplayLength ==> view.text == DisplayString(v))
  {
  }

  /** A long value shows its first 100 characters and "..." while collapsed,
      and in full once "Show more" has been pressed. */
  lemma LongValueDisplay(name: string, v: JsonValue, depth: nat, flags: NodeFlags)
    requires !v.IsComposite() && |DisplayString(v)| > MaxDisplayLength
    ensures var view := Render(name, v, depth, flags);
            var full := DisplayString(v);
            view.LeafView?
            && (flags.showFullText ==> view.text == full && view.toggleLabel == Some("Show less"))
            && (!flags.showFullText ==> view.text == full[..MaxDisplayLength] + Ellipsis
                                        && view.toggleLabel == Some("Show more"))
  {
    var full := DisplayString(v);
    var t := TruncateText(full, MaxDisplayLength);
    assert t == t[..MaxDisplayLength] + t[MaxDisplayLength..];
  }

  /** Toggling showFullText changes only the displayed text and the toggle's
      label: the node's name, title and nested tree stay the same. */
  lemma ShowMoreChangesOnlyText(name: string, v: JsonValue, depth: nat, flags: NodeFlags)
    requires !v.IsComposite()
    ensures var before := Render(name, v, depth, flags);
            var after := Render(name, v, depth, flags.(showFullText := !flags.showFullText));
            before.LeafView? && after.LeafView?
            && after.name == before.name && after.title == before.title && after.nested == before.nested
            && after.toggleLabel.Some? == before.toggleLabel.Some?
  {
  }

  /** Once a click has stored a nested JSON value, the scalar shows it as a
      tree named "Nested JSON" one level deeper. */
  lemma ClickedJsonStringShowsNested(name: string, v: JsonValue, depth: nat, flags: NodeFlags, codec: Codec)
    requires ValueClick(codec, v).ExpandNested?
    ensures var view := Render(name, v, depth, flags.(nestedJson := Some(ValueClick(codec, v).nested)));
            view.LeafView?
            && view.nested == Some(ChildNode(NestedJsonName, ValueClick(codec, v).nested, depth + 1))
  {
  }

  /** The document {"a":1,"b":[1,2,3]} renders as an expanded `Object{2}`
      root whose children are `a` (the number 1) and `b`, an `Array[3]`. */
  lemma ExampleDocument()
    ensures var b := Arr([Num("1"), Num("2"), Num("3")]);
            var doc := Obj([("a", Num("1")), ("b", b)]);
            Render("root", doc, 0, InitialFlags)
              == BranchView("root", true, "Object{2}", [ChildNode("a", Num("1"), 1), ChildNode("b", b, 1)])
            && Render("a", Num("1"), 1, InitialFlags) == LeafView("a", "1", None, None, None)
            && Render("b", b, 1, InitialFlags).summary == "Array[3]"
  {
    var b := Arr([Num("1"), Num("2"), Num("3")]);
    assert Entries(Obj([("a", Num("1")), ("b", b)])) == [("a", Num("1")), ("b", b)];
  }

  /** Clicking the string {"x":1} expands it into a nested tree and copies nothing. */
  lemma ExampleNestedClick(codec: Codec)
    requires codec.parse("{\"x\":1}") == Some(Obj([("x", Num("1"))]))
    ensures ValueClick(codec, Str("{\"x\":1}")) == ExpandNested(Obj([("x", Num("1"))]))
  {
  }

  /** Clicking the string hello, which is not JSON text, copies it. */
  lemma ExampleCopyClick(codec: Codec)
    requires codec.parse("hello") == None
    ensures ValueClick(codec, Str("hello")) == CopyText("hello")
  {
  }

  /** A node whose value prop changes keeps its flags: a string root that was
      clicked open on {"x":1} and then re-rendered with the string abc still
      shows the stale "Nested JSON" tree under `root: abc`. */
  lemma StaleNestedAfterNewValue(flags: NodeFlags)
    requires flags.nestedJson == Some(Obj([("x", Num("1"))]))
    ensures Render("root", Str("abc"), 0, flags).nested
              == Some(ChildNode(NestedJsonName, Obj([("x", Num("1"))]), 1))
  {
  }

  /** One mounted TreeNode with its own state. React keeps this state for as
      long as the node stays mounted, also when its `value` prop changes. */
  class TreeNode {
    const name: string
    var value: JsonValue
    const depth: nat
    var isExpanded: bool
    var showFullText: bool
    var nestedJson: Option<JsonValue>

    constructor (name: string, value: JsonValue, depth: nat)
      ensures this.name == name && this.value == value && this.depth == depth
      ensures Flags() == InitialFlags
    {
      this.name := name;
      this.value := value;
      this.depth := depth;
      isExpanded := true;
      showFullText := false;
      nestedJson := None;
    }

    function Flags(): NodeFlags
      reads this
    {
      NodeFlags(isExpanded, showFullText, nestedJson)
    }

    /** What the node currently displays. A scalar shows String(value), cut
        to 100 characters and "..." unless showFullText is set, with the
        toggle exactly when that text is longer than 100 characters, and the
        nested tree once nestedJson holds a value. An array or object shows
        its count summary and, exactly while isExpanded holds, its entries as
        children one level deeper. */
    function View(): (view: NodeView)
      reads this
      ensures view.name == name
      ensures !value.IsComposite() ==>
                view.LeafView?
                && view.text == (if showFullText then DisplayString(value)
                                 else TruncateText(DisplayString(value), MaxDisplayLength))
                && (view.toggleLabel.Some? <==> |DisplayString(value)| > MaxDisplayLength)
                && (view.toggleLabel.Some? ==>
                      view.toggleLabel.value == (if showFullText then "Show less" else "Show more"))
                && (view.nested.Some? <==> nestedJson.Some? && Truthy(nestedJson.value))
                && (view.nested.Some? ==> view.nested.value == ChildNode(NestedJsonName, nestedJson.value, depth + 1))
      ensures value.IsComposite() ==>
                view.BranchView? && view.expanded == isExpanded && view.summary == Summary(value)
                && view.children == (if isExpanded then ChildNodes(Entries(value), depth) else [])
    {
      Render(name, value, depth, Flags())
    }

    /** A re-render of the mounted node with a new `value` prop: the value is
        replaced and the flags are kept, since React runs the useState
        initialisers only on mount. */
    method Rerender(newValue: JsonValue)
      modifies this`value
      ensures value == newValue && Flags() == old(Flags())
    {
      value := newValue;
    }

    /** handleValueClick: a JSON string is parsed into nestedJson and the
        node expanded; any other value takes the copy path, which leaves the
        node's flags as they were (the clipboard write is not modelled). */
    method HandleValueClick(codec: Codec) returns (outcome: ClickOutcome)
      modifies this`isExpanded, this`nestedJson
      ensures value == old(value)
      ensures outcome == ValueClick(codec, old(value))
      ensures outcome.ExpandNested? ==> Flags() == old(Flags()).(isExpanded := true, nestedJson := Some(outcome.nested))
      ensures outcome.CopyText? ==> Flags() == old(Flags())
    {
      if value.Str? && IsJsonString(codec, value.s) {
        match codec.parse(value.s)
        case Some(parsed) =>
          nestedJson := Some(parsed);
          isExpanded := true;
          outcome := ExpandNested(parsed);
        case None =>
          outcome := CopyText(CopiedText(codec, value));
      } else {
        outcome := CopyText(CopiedText(codec, value));
      }
    }

    /** handleShowMore: flips showFullText and nothing else; the value stays. */
    method HandleShowMore()
      modifies this`showFullText
      ensures value == old(value)
      ensures Flags() == old(Flags()).(showFullText := !old(showFullText))
    {
      showFullText := !showFullText;
    }

    /** The header click of an array or object: flips isExpanded and nothing else. */
    method ToggleExpanded()
      modifies this`isExpanded
      ensures value == old(value)
      ensures Flags() == old(Flags()).(isExpanded := !old(isExpanded))
    {
      isExpanded := !isExpanded;
    }

    /** The text the copy button of an array or object header copies: the
        subtree as indented JSON. */
    function HeaderCopyText(codec: Codec): (text: string)
      reads this
      ensures value.IsComposite() ==> text == codec.stringify(value, 2)
    {
      CopiedText(codec, value)
    }
  }
}
