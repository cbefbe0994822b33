/**
 * The virtual DOM as values: property maps, text nodes, elements and component nodes, with
 * `VElement`'s constructors and its `toString`.
 *
 * A property map is seen through its entries in the order its key set iterates; the order
 * is whatever the map gives and is taken as part of the value. Java `assert`s are enabled, as
 * they are under test: a failing one is an error outcome.
 */
module VirtualDom {
  import opened Wrappers

  /** A value stored in a property map. `Str` is a string; `Null` an explicit null; `Styles` a
      nested style map, its declarations in key order; `Obj` an event handler or any
      other object that is not a string. */
  datatype PropValue = Str(s: string) | Null | Styles(decls: seq<(string, string)>) | Obj(id: nat)

  /** A property map's entries, in its iteration order. */
  type Props = seq<(string, PropValue)>

  datatype VNode =
    | Element(tag: string, props: Props, children: seq<VNode>, key: Option<string>)
    | Text(text: string)
    | Component(id: nat)

  /** The exceptions the canonical `VElement` constructor can throw. */
  datatype ElementError = KeyNotString | NullChildArray | NullChild

  /** `get`: the value stored under `k`, `None` when the key is absent. */
  function Lookup(props: Props, k: string): (r: Option<PropValue>)
    ensures r.None? <==> forall i :: 0 <= i < |props| ==> props[i].0 != k
    ensures r.Some? ==> exists i :: 0 <= i < |props| && props[i] == (k, r.value)
  {
    if props == [] then None
    else if props[0].0 == k then Some(props[0].1)
    else Lookup(props[1..], k)
  }

  /** The text a node shows: its text, or its descendants' texts in document order. */
  function TextContent(n: VNode): string
    decreases n
  {
    match n
    case Element(_, _, children, _) => TextContentAll(children)
    case Text(text) => text
    case Component(_) => ""
  }

  function TextContentAll(nodes: seq<VNode>): string
    decreases nodes
  {
    if nodes == [] then "" else TextContent(nodes[0]) + TextContentAll(nodes[1..])
  }

  /** The key an element takes from its `"key"` property, read with a cast to `String`. */
  function KeyOf(props: Props): (r: Result<Option<string>, ElementError>)
    ensures r == Err(KeyNotString) <==> Lookup(props, "key").Some? && (Lookup(props, "key").value.Styles? || Lookup(props, "key").value.Obj?)
    ensures r.Ok? && r.value.Some? <==> Lookup(props, "key").Some? && Lookup(props, "key").value.Str?
    ensures r.Ok? && r.value.Some? ==> Lookup(props, "key") == Some(Str(r.value.value))
  {
    match Lookup(props, "key")
    case None => Ok(None)
    case Some(Str(s)) => Ok(Some(s))
    case Some(Null) => Ok(None)
    case Some(_) => Err(KeyNotString)
  }

  predicate NoNullChildren(children: seq<Option<VNode>>)
  {
    forall i :: 0 <= i < |children| ==> children[i].Some?
  }

  function Present(children: seq<Option<VNode>>): (r: seq<VNode>)
    requires NoNullChildren(children)
    ensures |r| == |children| && forall i :: 0 <= i < |r| ==> Some(r[i]) == children[i]
  {
    seq(|children|, i requires 0 <= i < |children| => children[i].value)
  }

  /** The canonical constructor as written: a null property map becomes the empty one and a
      null child array the empty array, but the null-children check reads the raw argument,
      so a null array fails it. */
  function MakeElementAsWritten(tag: string, properties: Option<Props>, children: Option<seq<Option<VNode>>>): (r: Result<VNode, ElementError>)
    ensures children.None? && KeyOf(properties.UnwrapOr([])).Ok? ==> r == Err(NullChildArray)
  {
    var props := if properties.Some? then properties.value else [];
    match KeyOf(props)
    case Err(e) => Err(e)
    case Ok(key) =>
      if children.None? then Err(NullChildArray)
      else if !NoNullChildren(children.value) then Err(NullChild)
      else Ok(Element(tag, props, Present(children.value), key))
  }

  /** The constructor with the check made on the normalised array. A null map or array
      yields an element with no properties or no children; the key is the `"key"` property;
      a null child or a key that is not a string is refused. */
  function MakeElement(tag: string, properties: Option<Props>, children: Option<seq<Option<VNode>>>): (r: Result<VNode, ElementError>)
    ensures r.Ok? <==>
      KeyOf(properties.UnwrapOr([])).Ok? && (children.None? || NoNullChildren(children.value))
    ensures r.Ok? ==>
      && r.value.Element? && r.value.tag == tag
      && r.value.props == properties.UnwrapOr([])
      && r.value.key == KeyOf(properties.UnwrapOr([])).value
      && (children.None? ==> r.value.children == [])
      && (children.Some? ==> |r.value.children| == |children.value|)
      && (children.Some? ==> forall i :: 0 <= i < |children.value| ==> children.value[i] == Some(r.value.children[i]))
  {
    var props := if properties.Some? then properties.value else [];
    var kids := if children.Some? then children.value else [];
    match KeyOf(props)
    case Err(e) => Err(e)
    case Ok(key) =>
      if !NoNullChildren(kids) then Err(NullChild)
      else Ok(Element(tag, props, Present(kids), key))
  }

  /** The two constructors differ only on a null child array. */
  lemma MakeElementAgreesOnArrays(tag: string, properties: Option<Props>, children: seq<Option<VNode>>)
    ensures MakeElementAsWritten(tag, properties, Some(children)) == MakeElement(tag, properties, Some(children))
  {
  }

  /** `new VElement(tag, (VNode[]) null)` throws as written; the corrected constructor gives
      the element with no children that the normalisation intends. */
  lemma NullChildArrayRejectedAsWritten()
    ensures MakeElementAsWritten("div", None, None) == Err(NullChildArray)
    ensures MakeElement("div", None, None) == Ok(Element("div", [], [], None))
  {
    assert KeyOf([]) == Ok(None);
  }

  /** `VElement(tag, String text)` and `VElement(tag, props, child)`: one child. */
  function ElementOfText(tag: string, text: string): (r: VNode)
    ensures r.Element? && r.tag == tag && r.props == [] && r.key == None
    ensures r.children == [Text(text)] && TextContent(r) == text
  {
    var made := MakeElement(tag, None, Some([Some(Text(text))]));
    assert KeyOf([]) == Ok(None);
    assert TextContentAll([Text(text)]) == text + TextContentAll([]);
    made.value
  }

  function ElementWithChild(tag: string, properties: Option<Props>, child: VNode): (r: Result<VNode, ElementError>)
    ensures r.Ok? <==> KeyOf(properties.UnwrapOr([])).Ok?
    ensures r.Ok? ==> r.value.Element? && r.value.children == [child] && r.value.props == properties.UnwrapOr([])
  {
    MakeElement(tag, properties, Some([Some(child)]))
  }

  /** Java's `toLowerCase` on the ASCII letters. */
  function LowerChar(c: char): char
  {
    if 'A' <= c <= 'Z' then (c as int + 32) as char else c
  }

  function ToLower(s: string): (r: string)
    ensures |r| == |s| && forall i :: 0 <= i < |s| ==> r[i] == LowerChar(s[i])
    ensures forall i :: 0 <= i < |r| ==> !('A' <= r[i] <= 'Z')
  {
    seq(|s|, i requires 0 <= i < |s| => LowerChar(s[i]))
  }

  lemma ToLowerIdempotent(s: string)
    ensures ToLower(ToLower(s)) == ToLower(s)
  {
  }

  /** `VElement.toString` as written: the one-text-child shape closes with `</tag/>`. */
  function ElementToStringAsWritten(tag: string, children: seq<VNode>): string
  {
    var t := ToLower(tag);
    if |children| == 1 && children[0].Text? then "<" + t + ">" + children[0].text + "</" + t + "/>"
    else if |children| > 0 then "<" + t + "> ... </" + t + ">"
    else "<" + t + "/>"
  }

  /** The corrected `toString`: every shape with children closes with the same end tag. */
  function ElementToString(tag: string, children: seq<VNode>): (r: string)
    ensures var t := ToLower(tag);
      && (|children| == 1 && children[0].Text? ==> r == "<" + t + ">" + children[0].text + "</" + t + ">")
      && (|children| > 0 ==> |r| >= 2 * |t| + 5 && r[..|t| + 2] == "<" + t + ">" && r[|r| - |t| - 3..] == "</" + t + ">")
      && (children == [] ==> r == "<" + t + "/>")
  {
    var t := ToLower(tag);
    if |children| == 1 && children[0].Text? then "<" + t + ">" + children[0].text + "</" + t + ">"
    else if |children| > 0 then "<" + t + "> ... </" + t + ">"
    else "<" + t + "/>"
  }

  /** The summary of `<b>hi</b>` ends in `</b/>` as written. */
  lemma TextShapeMisclosedAsWritten()
    ensures ElementToStringAsWritten("B", [Text("hi")]) == "<b>hi</b/>"
    ensures ElementToString("B", [Text("hi")]) == "<b>hi</b>"
  {
    assert ToLower("B") == "b";
  }

  /** The summary depends on the tag only through its lower-cased form. */
  lemma ElementToStringIgnoresCase(tag: string, children: seq<VNode>)
    ensures ElementToString(tag, children) == ElementToString(ToLower(tag), children)
  {
    ToLowerIdempotent(tag);
  }
}
