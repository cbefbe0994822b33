/**
 * ButtonBuilder: a fluent builder of Bootstrap buttons. Its setters update the builder's
 * fields and its own property map in place; `build` writes the button's class and type (or
 * link) into that map and wraps the label in a `button` element, or an `a` element styled as
 * a button. The built element's properties are the map read in its iteration order, which is
 * an input. Event handlers are identified by a number.
 */
module Bootstrap {
  import opened Wrappers
  import opened FiniteSets
  import opened VirtualDom
  import opened HtmlBuilders
  import opened PropertyMaps

  datatype ButtonStyle = Primary | Secondary | Success | Danger | Warning | Info | Light | Dark | Link

  /** The enum constant's `name()`. */
  function StyleName(s: ButtonStyle): string
  {
    match s
    case Primary => "PRIMARY"
    case Secondary => "SECONDARY"
    case Success => "SUCCESS"
    case Danger => "DANGER"
    case Warning => "WARNING"
    case Info => "INFO"
    case Light => "LIGHT"
    case Dark => "DARK"
    case Link => "LINK"
  }

  /** Every style's suffix is a single lower-case class-name fragment. */
  lemma StyleSuffixIsClassName(s: ButtonStyle)
    ensures IsClassName(ToLower(StyleName(s)))
  {
  }

  /** The class list `build` sets. */
  function ButtonClass(outline: bool, classSuffix: string): string
  {
    "btn btn-" + (if outline then "outline-" else "") + classSuffix
  }

  /** A button has exactly two classes: `btn` and the style class. */
  lemma ButtonClasses(outline: bool, classSuffix: string)
    requires IsClassName(classSuffix)
    ensures Classes(ButtonClass(outline, classSuffix)) == ["btn", "btn-" + (if outline then "outline-" else "") + classSuffix]
  {
    var styleClass := "btn-" + (if outline then "outline-" else "") + classSuffix;
    assert ButtonClass(outline, classSuffix) == "btn" + " " + styleClass;
    assert IsClassName(styleClass) by {
      forall j | 0 <= j < |styleClass| ensures styleClass[j] != ' ' {
        var prefix := "btn-" + (if outline then "outline-" else "");
        assert styleClass == prefix + classSuffix;
        if j >= |prefix| {
          assert styleClass[j] == classSuffix[j - |prefix|];
        }
      }
    }
    SingleClass("btn");
    AppendClass("btn", styleClass);
  }

  /** The property map after `build`. */
  function BuiltEntries(entries: map<string, PropValue>, outline: bool, classSuffix: string, link: Option<string>): (r: map<string, PropValue>)
    ensures r.Keys == entries.Keys + {"className"} + (if link.None? then {"type"} else {"href", "role"})
  {
    var classed := entries["className" := Str(ButtonClass(outline, classSuffix))];
    if link.None? then classed["type" := Str("button")]
    else classed["href" := Str(link.value)]["role" := Str("button")]
  }

  class ButtonBuilder {
    /** `label`. */
    var labelText: string
    var classSuffix: string
    var outline: bool
    const attr: AttrMap
    /** The link's URI as a string, or none for a plain button. */
    var link: Option<string>

    /** The builder never stores a `key` property, so the element it builds has no key. */
    ghost predicate Valid()
      reads this, attr
    {
      "key" !in attr.entries
    }

    constructor ()
      ensures Valid()
      ensures labelText == "" && classSuffix == "primary" && !outline && link == None
      ensures fresh(attr) && attr.entries == map[]
    {
      labelText := "";
      classSuffix := "primary";
      outline := false;
      link := None;
      attr := new AttrMap();
    }

    method Label(text: string) returns (r: ButtonBuilder)
      modifies this`labelText
      ensures labelText == text && r == this
    {
      labelText := text;
      r := this;
    }

    /** `link`: the button becomes a link styled as a button. */
    method SetLink(uri: string) returns (r: ButtonBuilder)
      modifies this`link
      ensures link == Some(uri) && r == this
    {
      link := Some(uri);
      r := this;
    }

    /** `style`: the suffix is the lower-cased name of the style. */
    method SetStyle(style: ButtonStyle) returns (r: ButtonBuilder)
      modifies this`classSuffix
      ensures classSuffix == ToLower(StyleName(style)) && IsClassName(classSuffix)
      ensures r == this
    {
      classSuffix := ToLower(StyleName(style));
      StyleSuffixIsClassName(style);
      r := this;
    }

    method Outline(outline: bool) returns (r: ButtonBuilder)
      modifies this`outline
      ensures this.outline == outline && r == this
    {
      this.outline := outline;
      r := this;
    }

    /** `onSelect`: the handler becomes the `onclick` property. The overload taking a
        confirmation message installs a handler of its own, one more handler here. */
    method OnSelect(handler: nat) returns (r: ButtonBuilder)
      requires Valid()
      modifies attr
      ensures Valid()
      ensures attr.entries == old(attr.entries)["onclick" := Obj(handler)]
      ensures r == this
    {
      var _ := attr.Set("onclick", Obj(handler));
      r := this;
    }

    method OnMouseUp(handler: nat) returns (r: ButtonBuilder)
      requires Valid()
      modifies attr
      ensures Valid()
      ensures attr.entries == old(attr.entries)["onmouseup" := Obj(handler)]
      ensures r == this
    {
      attr.On("mouseup", handler);
      assert "on" + "mouseup" == "onmouseup";
      r := this;
    }

    /** The writes of `build` into the builder's map. */
    method WriteButtonProperties()
      requires Valid()
      modifies attr
      ensures Valid()
      ensures attr.entries == BuiltEntries(old(attr.entries), outline, classSuffix, link)
    {
      attr.SetClass("btn btn-" + (if outline then "outline-" else "") + classSuffix);
      if link == None {
        var _ := attr.Set("type", Str("button"));
      } else {
        var _ := attr.Set("href", Str(link.value));
        var _ := attr.Set("role", Str("button"));
      }
    }

    /** `build`: the class, then the type (plain button) or the link and role (link), go
        into the builder's map; the element holds the label as its one text child. */
    method Build(order: seq<string>) returns (e: VNode)
      requires Valid()
      requires Elements(order) == BuiltEntries(attr.entries, outline, classSuffix, link).Keys && NoDuplicates(order)
      modifies attr
      ensures Valid()
      ensures attr.entries == BuiltEntries(old(attr.entries), outline, classSuffix, link)
      ensures e.Element? && e.tag == (if link.None? then "button" else "a")
      ensures e.children == [Text(labelText)] && TextContent(e) == labelText
      ensures e.key == None
      ensures e.props == Entries(attr.entries, order)
      ensures Lookup(e.props, "className") == Some(Str(ButtonClass(outline, classSuffix)))
      ensures link.None? ==> Lookup(e.props, "type") == Some(Str("button"))
      ensures link.Some? ==> Lookup(e.props, "href") == Some(Str(link.value))
      ensures link.Some? ==> Lookup(e.props, "role") == Some(Str("button"))
    {
      WriteButtonProperties();
      var tag := if link == None then "button" else "a";
      e := ButtonElement(tag, attr.entries, order, labelText);
      BuiltLookups(old(attr.entries), outline, classSuffix, link, order);
    }
  }

  /** `new VElement(tag, attr, H.t(label))` over a map without a `key` property. */
  function ButtonElement(tag: string, entries: map<string, PropValue>, order: seq<string>, text: string): (e: VNode)
    requires "key" !in entries && Elements(order) == entries.Keys && NoDuplicates(order)
    ensures e.Element? && e.tag == tag && e.key == None && e.props == Entries(entries, order)
    ensures e.children == [Text(text)] && TextContent(e) == text
  {
    var props := Entries(entries, order);
    LookupEntries(entries, order, "key");
    assert KeyOf(props) == Ok(None);
    var child := T(text);
    assert TextContentAll([child]) == text + TextContentAll([]);
    ElementWithChild(tag, Some(props), child).value
  }

  /** What the built element's properties read back. */
  lemma BuiltLookups(entries: map<string, PropValue>, outline: bool, classSuffix: string, link: Option<string>, order: seq<string>)
    requires Elements(order) == BuiltEntries(entries, outline, classSuffix, link).Keys && NoDuplicates(order)
    ensures var props := Entries(BuiltEntries(entries, outline, classSuffix, link), order);
      && Lookup(props, "className") == Some(Str(ButtonClass(outline, classSuffix)))
      && (link.None? ==> Lookup(props, "type") == Some(Str("button")))
      && (link.Some? ==> Lookup(props, "href") == Some(Str(link.value)))
      && (link.Some? ==> Lookup(props, "role") == Some(Str("button")))
  {
    var built := BuiltEntries(entries, outline, classSuffix, link);
    LookupEntries(built, order, "className");
    LookupEntries(built, order, "type");
    LookupEntries(built, order, "href");
    LookupEntries(built, order, "role");
  }

  /** A plain outlined danger button. */
  method DangerButton() returns (e: VNode)
    ensures e.Element? && e.tag == "button"
    ensures Lookup(e.props, "className") == Some(Str("btn btn-outline-danger"))
    ensures Classes(Lookup(e.props, "className").value.s) == ["btn", "btn-outline-danger"]
  {
    var b := new ButtonBuilder();
    var _ := b.SetStyle(Danger);
    var _ := b.Outline(true);
    DangerClass();
    PlainButtonKeys(true, "danger");
    e := b.Build(["className", "type"]);
  }

  /** The outlined danger style's suffix and class list. */
  lemma DangerClass()
    ensures ToLower(StyleName(Danger)) == "danger"
    ensures ButtonClass(true, "danger") == "btn btn-outline-danger"
    ensures Classes("btn btn-outline-danger") == ["btn", "btn-outline-danger"]
  {
    DangerSuffix();
    var styleClass := "btn-" + "outline-" + "danger";
    assert styleClass == "btn-outline-danger";
    assert ButtonClass(true, "danger") == "btn btn-outline-danger";
    ButtonClasses(true, "danger");
  }

  lemma DangerSuffix()
    ensures ToLower(StyleName(Danger)) == "danger"
  {
    var r := ToLower("DANGER");
    assert r[0] == 'd' && r[1] == 'a' && r[2] == 'n' && r[3] == 'g' && r[4] == 'e' && r[5] == 'r';
  }

  /** A plain button built from an empty map has exactly the keys `className` and `type`. */
  lemma PlainButtonKeys(outline: bool, classSuffix: string)
    ensures Elements(["className", "type"]) == BuiltEntries(map[], outline, classSuffix, None).Keys
    ensures NoDuplicates(["className", "type"])
  {
    assert Elements(["className", "type"]) == {"className", "type"};
  }
}
