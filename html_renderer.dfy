/**
 * HtmlRenderer: serialises a virtual-DOM tree to HTML text by appending to a string buffer
 * while visiting the tree. `Html` and its helpers state the text (or the exception) a node
 * gives; the `HtmlRenderer` class appends it step by step. The escaping function of the
 * HTML toolkit is a parameter.
 */
module HtmlRendering {
  import opened Wrappers
  import opened VirtualDom

  const SingletonTags: set<string> := {"meta", "link", "hr", "br", "wbr", "img", "embed", "param", "source", "col", "input"}
  const SvgNamespace: string := " xmlns=\"http://www.w3.org/2000/svg\" version=\"1.1\""
  const Quote: string := "\""

  /** The exceptions rendering throws: a component node (unsupported), a singleton element
      with children (a failed assertion), a property value of the wrong type for
      `className` or `style` (a failed cast), and a null `style` map. */
  datatype RenderError = ComponentNotSupported | SingletonWithChildren(tag: string) | PropertyCast(name: string) | NullStyle

  type Rendered = Result<string, RenderError>

  /** Append `b` after `a`: the first exception wins. */
  function Then(a: Rendered, b: Rendered): (r: Rendered)
    ensures r.Ok? <==> a.Ok? && b.Ok?
    ensures r.Ok? ==> r.value == a.value + b.value
    ensures a.Err? ==> r == a
    ensures a.Ok? && b.Err? ==> r == b
  {
    if a.Err? then a else if b.Err? then b else Ok(a.value + b.value)
  }

  function ErrorOf(r: Rendered): (e: Option<RenderError>)
    ensures e.None? <==> r.Ok?
    ensures e.Some? ==> r == Err(e.value)
  {
    if r.Err? then Some(r.error) else None
  }

  /** `appendProperty`: ` name="escaped value"`, nothing for a null value. */
  function AttributeHtml(name: string, value: Option<string>, escape: string -> string): string
  {
    if value.None? then "" else " " + name + "=" + Quote + escape(value.value) + Quote
  }

  /** One declaration of a style attribute: `name:value;`. */
  function DeclarationHtml(decl: (string, string)): string
  {
    decl.0 + ":" + decl.1 + ";"
  }

  function Declarations(decls: seq<(string, string)>): string
  {
    if decls == [] then "" else Declarations(decls[..|decls| - 1]) + DeclarationHtml(decls[|decls| - 1])
  }

  /** `appendStyleProperty`: nothing for an empty style map, else ` style="name:value;..."`,
      unescaped. */
  function StyleHtml(decls: seq<(string, string)>): (r: string)
    ensures r == "" <==> decls == []
  {
    if decls == [] then "" else " style=" + Quote + Declarations(decls) + Quote
  }

  /** The style attribute appended piece by piece is the attribute appended at once. */
  lemma StyleAppended(html: string, declarations: string)
    ensures html + " style=" + Quote + declarations + Quote == html + (" style=" + Quote + declarations + Quote)
  {
  }

  /** One property of `appendProperties`. */
  function PropertyHtml(entry: (string, PropValue), escape: string -> string): (r: Rendered)
    ensures entry.0 == "className" && entry.1.Str? ==> r == Ok(AttributeHtml("class", Some(entry.1.s), escape))
    ensures entry.0 == "className" && entry.1.Null? ==> r == Ok("")
    ensures entry.0 == "style" && entry.1.Styles? ==> r == Ok(StyleHtml(entry.1.decls))
    ensures entry.0 == "style" && entry.1.Null? ==> r == Err(NullStyle)
    ensures entry.0 != "className" && entry.0 != "style" && entry.1.Str? ==>
      r == Ok(" " + entry.0 + "=" + Quote + escape(entry.1.s) + Quote)
    ensures entry.0 != "className" && entry.0 != "style" && !entry.1.Str? ==> r == Ok("")
    ensures r.Err? <==>
      || (entry.0 == "className" && (entry.1.Styles? || entry.1.Obj?))
      || (entry.0 == "style" && !entry.1.Styles?)
  {
    var (name, value) := entry;
    if name == "className" then
      match value
      case Str(s) => Ok(AttributeHtml("class", Some(s), escape))
      case Null => Ok(AttributeHtml("class", None, escape))
      case _ => Err(PropertyCast(name))
    else if name == "style" then
      match value
      case Styles(decls) => Ok(StyleHtml(decls))
      case Null => Err(NullStyle)
      case _ => Err(PropertyCast(name))
    else if value.Str? then Ok(AttributeHtml(name, Some(value.s), escape))
    else Ok("")
  }

  function PropertiesHtml(props: Props, escape: string -> string): Rendered
    decreases |props|
  {
    if props == [] then Ok("")
    else Then(PropertiesHtml(props[..|props| - 1], escape), PropertyHtml(props[|props| - 1], escape))
  }

  function EndTag(tag: string): string
  {
    "</" + tag + ">"
  }

  lemma AppendAssoc(a: string, b: string, c: string)
    ensures a + (b + c) == a + b + c
  {
  }

  /** What follows the properties in a start tag. */
  function StartTagEnd(tag: string): string
  {
    if tag == "svg" then SvgNamespace + ">" else ">"
  }

  /** `visitNode` and `visitSvgRoot` given the rendered properties and children: the start
      tag, then (unless the tag is a singleton) the children and the end tag. A singleton
      with children fails the assertion on them; `svg` is never a singleton. */
  function ElementHtml(tag: string, attrs: Rendered, childless: bool, inner: Rendered): (r: Rendered)
    ensures attrs.Err? ==> r == attrs
    ensures attrs.Ok? && tag != "svg" && tag in SingletonTags ==>
      r == if childless then Ok("<" + tag + attrs.value + ">") else Err(SingletonWithChildren(tag))
    ensures attrs.Ok? && (tag == "svg" || tag !in SingletonTags) && inner.Err? ==> r == inner
    ensures attrs.Ok? && (tag == "svg" || tag !in SingletonTags) && inner.Ok? ==>
      r == Ok("<" + tag + attrs.value + StartTagEnd(tag) + inner.value + EndTag(tag))
  {
    if attrs.Err? then attrs
    else if tag != "svg" && tag in SingletonTags then
      (if childless then Ok("<" + tag + attrs.value + ">") else Err(SingletonWithChildren(tag)))
    else if inner.Err? then inner
    else Ok("<" + tag + attrs.value + StartTagEnd(tag) + inner.value + EndTag(tag))
  }

  /** The text `visitNode`, `visitText` and `visitComponent` append for a node. */
  function Html(n: VNode, escape: string -> string): (r: Rendered)
    decreases n, 1
  {
    match n
    case Text(text) => Ok(escape(text))
    case Component(_) => Err(ComponentNotSupported)
    case Element(tag, props, children, _) =>
      ElementHtml(tag, PropertiesHtml(props, escape), children == [], ChildrenHtml(children, escape))
  }

  function ChildrenHtml(children: seq<VNode>, escape: string -> string): Rendered
    decreases children, 0
  {
    if children == [] then Ok("")
    else Then(ChildrenHtml(children[..|children| - 1], escape), Html(children[|children| - 1], escape))
  }

  /** One more child of a prefix that renders: its HTML follows the prefix's. */
  lemma ChildrenStep(children: seq<VNode>, i: nat, escape: string -> string)
    requires i < |children| && ChildrenHtml(children[..i], escape).Ok? && Html(children[i], escape).Ok?
    ensures ChildrenHtml(children[..i + 1], escape) == Ok(ChildrenHtml(children[..i], escape).value + Html(children[i], escape).value)
  {
    assert children[..i + 1][..i] == children[..i];
  }

  /** The shape of a rendered element: its start tag, and an end tag unless it is a
      singleton; `svg` always declares its namespace and is always closed. */
  lemma ElementShape(tag: string, props: Props, children: seq<VNode>, key: Option<string>, escape: string -> string)
    requires Html(Element(tag, props, children, key), escape).Ok?
    ensures PropertiesHtml(props, escape).Ok?
    ensures tag == "svg" ==>
      Html(Element(tag, props, children, key), escape).value ==
      "<" + tag + PropertiesHtml(props, escape).value + SvgNamespace + ">" + ChildrenHtml(children, escape).value + EndTag(tag)
    ensures tag != "svg" && tag in SingletonTags ==> children == []
    ensures tag != "svg" && tag in SingletonTags ==>
      Html(Element(tag, props, children, key), escape).value == "<" + tag + PropertiesHtml(props, escape).value + ">"
    ensures tag != "svg" && tag !in SingletonTags ==>
      Html(Element(tag, props, children, key), escape).value ==
      "<" + tag + PropertiesHtml(props, escape).value + ">" + ChildrenHtml(children, escape).value + EndTag(tag)
  {
  }

  /** A property renders unless a cast or the null style map throws. */
  predicate PropertyRenders(entry: (string, PropValue))
  {
    (entry.0 == "className" ==> entry.1.Str? || entry.1.Null?) &&
    (entry.0 == "style" ==> entry.1.Styles?)
  }

  /** A tree renders: no component node, no singleton with children, every property of the
      right type. */
  predicate Renders(n: VNode)
    decreases n
  {
    match n
    case Text(_) => true
    case Component(_) => false
    case Element(tag, props, children, _) =>
      && (forall i :: 0 <= i < |props| ==> PropertyRenders(props[i]))
      && (tag != "svg" && tag in SingletonTags ==> children == [])
      && (forall i :: 0 <= i < |children| ==> Renders(children[i]))
  }

  lemma {:induction false} PropertiesRenderIff(props: Props, escape: string -> string)
    ensures PropertiesHtml(props, escape).Ok? <==> forall i :: 0 <= i < |props| ==> PropertyRenders(props[i])
    decreases |props|
  {
    if props != [] {
      var init := props[..|props| - 1];
      PropertiesRenderIff(init, escape);
      assert forall i :: 0 <= i < |init| ==> init[i] == props[i];
    }
  }

  /** Rendering throws exactly when the tree holds a component, a singleton element with
      children, or a property of the wrong type. */
  lemma {:induction false} RenderSucceedsIff(n: VNode, escape: string -> string)
    ensures Html(n, escape).Ok? <==> Renders(n)
    decreases n, 1
  {
    if n.Element? {
      PropertiesRenderIff(n.props, escape);
      ChildrenRenderIff(n.children, escape);
    }
  }

  lemma {:induction false} ChildrenRenderIff(children: seq<VNode>, escape: string -> string)
    ensures ChildrenHtml(children, escape).Ok? <==> forall i :: 0 <= i < |children| ==> Renders(children[i])
    decreases children, 0
  {
    if children != [] {
      var init := children[..|children| - 1];
      ChildrenRenderIff(init, escape);
      RenderSucceedsIff(children[|children| - 1], escape);
      assert forall i :: 0 <= i < |init| ==> init[i] == children[i];
    }
  }

  lemma {:induction false} PropertiesPrefixFails(props: Props, j: nat, escape: string -> string)
    requires j <= |props| && PropertiesHtml(props[..j], escape).Err?
    ensures PropertiesHtml(props, escape) == PropertiesHtml(props[..j], escape)
    decreases |props|
  {
    if j < |props| {
      assert props[..|props| - 1][..j] == props[..j];
      PropertiesPrefixFails(props[..|props| - 1], j, escape);
    } else {
      assert props[..j] == props;
    }
  }

  lemma {:induction false} ChildrenPrefixFails(children: seq<VNode>, j: nat, escape: string -> string)
    requires j <= |children| && ChildrenHtml(children[..j], escape).Err?
    ensures ChildrenHtml(children, escape) == ChildrenHtml(children[..j], escape)
    decreases |children|
  {
    if j < |children| {
      assert children[..|children| - 1][..j] == children[..j];
      ChildrenPrefixFails(children[..|children| - 1], j, escape);
    } else {
      assert children[..j] == children;
    }
  }

  class HtmlRenderer {
    const escape: string -> string
    var html: string

    constructor (escape: string -> string)
      ensures this.escape == escape && html == ""
    {
      this.escape := escape;
      html := "";
    }

    method WriteDocTypeDeclaration()
      modifies this
      ensures html == old(html) + "<!DOCTYPE html>\n"
    {
      html := html + "<!DOCTYPE html>\n";
    }

    method WriteXmlDeclaration()
      modifies this
      ensures html == old(html) + "<?xml version=\"1.0\"?>\n"
    {
      html := html + "<?xml version=\"1.0\"?>\n";
    }

    /** `accept`: dispatch on the kind of node. */
    method Visit(n: VNode) returns (err: Option<RenderError>)
      modifies this
      ensures err == ErrorOf(Html(n, escape))
      ensures err.None? ==> html == old(html) + Html(n, escape).value
      decreases n, 4
    {
      match n
      case Element(_, _, _, _) => err := VisitNode(n);
      case Text(text) => VisitText(text); err := None;
      case Component(_) => err := VisitComponent();
    }

    method VisitText(text: string)
      modifies this
      ensures html == old(html) + escape(text)
    {
      html := html + escape(text);
    }

    /** `visitComponent` throws. */
    method VisitComponent() returns (err: Option<RenderError>)
      ensures err == Some(ComponentNotSupported)
    {
      return Some(ComponentNotSupported);
    }

    method VisitNode(node: VNode) returns (err: Option<RenderError>)
      requires node.Element?
      modifies this
      ensures err == ErrorOf(Html(node, escape))
      ensures err.None? ==> html == old(html) + Html(node, escape).value
      decreases node, 3
    {
      if node.tag == "svg" {
        err := VisitSvgRoot(node);
        return;
      }
      ghost var h0 := html;
      var open := "<" + node.tag;
      html := html + open;
      err := AppendProperties(node.props);
      if err != None {
        return;
      }
      ghost var start := open + PropertiesHtml(node.props, escape).value;
      AppendAssoc(h0, open, PropertiesHtml(node.props, escape).value);
      html := html + ">";
      AppendAssoc(h0, start, ">");
      if node.tag in SingletonTags {
        if node.children != [] {
          // the singleton assertion fails
          return Some(SingletonWithChildren(node.tag));
        }
      } else {
        err := AppendChildren(node.children);
        if err != None {
          return;
        }
        AppendAssoc(h0, start + ">", ChildrenHtml(node.children, escape).value);
        html := html + EndTag(node.tag);
        AppendAssoc(h0, start + ">" + ChildrenHtml(node.children, escape).value, EndTag(node.tag));
      }
    }

    method VisitSvgRoot(node: VNode) returns (err: Option<RenderError>)
      requires node.Element? && node.tag == "svg"
      modifies this
      ensures err == ErrorOf(Html(node, escape))
      ensures err.None? ==> html == old(html) + Html(node, escape).value
      decreases node, 2
    {
      ghost var h0 := html;
      var open := "<" + node.tag;
      html := html + open;
      err := AppendProperties(node.props);
      if err != None {
        return;
      }
      ghost var start := open + PropertiesHtml(node.props, escape).value;
      AppendAssoc(h0, open, PropertiesHtml(node.props, escape).value);
      html := html + StartTagEnd(node.tag);
      AppendAssoc(h0, start, StartTagEnd(node.tag));
      err := AppendChildren(node.children);
      if err != None {
        return;
      }
      AppendAssoc(h0, start + StartTagEnd(node.tag), ChildrenHtml(node.children, escape).value);
      html := html + EndTag(node.tag);
      AppendAssoc(h0, start + StartTagEnd(node.tag) + ChildrenHtml(node.children, escape).value, EndTag(node.tag));
    }

    method AppendChildren(children: seq<VNode>) returns (err: Option<RenderError>)
      modifies this
      ensures err == ErrorOf(ChildrenHtml(children, escape))
      ensures err.None? ==> html == old(html) + ChildrenHtml(children, escape).value
      decreases children, 5
    {
      for i := 0 to |children|
        invariant ChildrenHtml(children[..i], escape).Ok?
        invariant html == old(html) + ChildrenHtml(children[..i], escape).value
      {
        err := Visit(children[i]);
        if err != None {
          assert children[..i + 1][..i] == children[..i];
          ChildrenPrefixFails(children, i + 1, escape);
          return;
        }
        ChildrenStep(children, i, escape);
        AppendAssoc(old(html), ChildrenHtml(children[..i], escape).value, Html(children[i], escape).value);
      }
      assert children[..|children|] == children;
      return None;
    }

    method AppendProperties(props: Props) returns (err: Option<RenderError>)
      modifies this
      ensures err == ErrorOf(PropertiesHtml(props, escape))
      ensures err.None? ==> html == old(html) + PropertiesHtml(props, escape).value
    {
      for i := 0 to |props|
        invariant PropertiesHtml(props[..i], escape).Ok?
        invariant html == old(html) + PropertiesHtml(props[..i], escape).value
      {
        assert props[..i + 1][..i] == props[..i];
        ghost var before := html;
        err := AppendEntry(props[i]);
        if err != None {
          PropertiesPrefixFails(props, i + 1, escape);
          return;
        }
        AppendAssoc(old(html), PropertiesHtml(props[..i], escape).value, PropertyHtml(props[i], escape).value);
      }
      assert props[..|props|] == props;
      return None;
    }

    /** One turn of the loop in `appendProperties`: `className` is cast to a string and
        written as `class`, `style` is cast to a style map, any other property is written
        only when it is a string. */
    method AppendEntry(entry: (string, PropValue)) returns (err: Option<RenderError>)
      modifies this
      ensures err == ErrorOf(PropertyHtml(entry, escape))
      ensures err.None? ==> html == old(html) + PropertyHtml(entry, escape).value
      ensures err.Some? ==> html == old(html)
    {
      var (name, value) := entry;
      err := None;
      if name == "className" {
        match value
        case Str(s) => AppendProperty("class", Some(s));
        case Null => AppendProperty("class", None);
        case _ => err := Some(PropertyCast(name));
      } else if name == "style" {
        match value
        case Styles(decls) => AppendStyleProperty(decls);
        case Null => err := Some(NullStyle);
        case _ => err := Some(PropertyCast(name));
      } else if value.Str? {
        AppendProperty(name, Some(value.s));
      }
    }

    method AppendProperty(name: string, value: Option<string>)
      modifies this
      ensures html == old(html) + AttributeHtml(name, value, escape)
    {
      if value != None {
        html := html + " " + name + "=" + Quote + escape(value.value) + Quote;
      }
    }

    method AppendStyleProperty(decls: seq<(string, string)>)
      modifies this
      ensures html == old(html) + StyleHtml(decls)
    {
      if decls != [] {
        html := html + " style=" + Quote;
        ghost var start := html;
        for i := 0 to |decls|
          invariant html == start + Declarations(decls[..i])
        {
          assert decls[..i + 1][..i] == decls[..i];
          AppendAssoc(start, Declarations(decls[..i]), DeclarationHtml(decls[i]));
          html := html + DeclarationHtml(decls[i]);
        }
        assert decls[..|decls|] == decls;
        html := html + Quote;
        StyleAppended(old(html), Declarations(decls));
      }
    }
  }

  /** `render`: the whole tree's HTML, or the exception rendering throws. */
  method Render(tree: VNode, escape: string -> string) returns (r: Rendered)
    ensures r == Html(tree, escape)
  {
    var renderer := new HtmlRenderer(escape);
    var err := renderer.Visit(tree);
    if err.Some? {
      return Err(err.value);
    }
    assert "" + Html(tree, escape).value == Html(tree, escape).value;
    return Ok(renderer.html);
  }
}
