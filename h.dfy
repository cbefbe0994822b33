/**
 * The builders of `H` that do more than call a constructor: `t`, `bdi`, the shared empty
 * `div()`, and the two array builders `nullableList` and `map`.
 */
module HtmlBuilders {
  import opened Wrappers
  import opened VirtualDom

  /** `H.t`. */
  function T(text: string): (r: VNode)
    ensures r.Text? && TextContent(r) == text
  {
    Text(text)
  }

  /** `H.bdi`: an empty text node for a null or empty text, else the text isolated in `bdi`. */
  function Bdi(text: Option<string>): (r: VNode)
    ensures TextContent(r) == text.UnwrapOr("")
    ensures text.None? || text.value == "" ==> r == Text("")
    ensures text.Some? && text.value != "" ==> r.Element? && r.tag == "bdi" && r.children == [Text(text.value)]
  {
    if text.None? || text.value == "" then T("") else ElementOfText("bdi", text.value)
  }

  /** `H.div()`: the one shared empty div. */
  const EmptyDiv: VNode := Element("div", [], [], None)

  function Div(): (r: VNode)
    ensures r.Element? && r.tag == "div" && r.children == [] && r.props == [] && TextContent(r) == ""
  {
    EmptyDiv
  }

  /** The entries of `nodes` that are not null, in their order. */
  function NonNull(nodes: seq<Option<VNode>>): seq<VNode>
    decreases |nodes|
  {
    if nodes == [] then []
    else
      var last := nodes[|nodes| - 1];
      NonNull(nodes[..|nodes| - 1]) + (if last.Some? then [last.value] else [])
  }

  /** The number of entries of `nodes` that are not null. */
  function CountPresent(nodes: seq<Option<VNode>>): nat
    decreases |nodes|
  {
    if nodes == [] then 0
    else CountPresent(nodes[..|nodes| - 1]) + (if nodes[|nodes| - 1].Some? then 1 else 0)
  }

  lemma {:induction false} NonNullLength(nodes: seq<Option<VNode>>)
    ensures |NonNull(nodes)| == CountPresent(nodes)
    decreases |nodes|
  {
    if nodes != [] {
      NonNullLength(nodes[..|nodes| - 1]);
    }
  }

  /** Exactly the present entries are kept. */
  lemma {:induction false} NonNullMembers(nodes: seq<Option<VNode>>, n: VNode)
    ensures n in NonNull(nodes) <==> Some(n) in nodes
    decreases |nodes|
  {
    if nodes != [] {
      var init := nodes[..|nodes| - 1];
      NonNullMembers(init, n);
      assert nodes == init + [nodes[|nodes| - 1]];
    }
  }

  /** Filtering a concatenation filters each part: the kept entries keep their relative order. */
  lemma {:induction false} NonNullAppend(a: seq<Option<VNode>>, b: seq<Option<VNode>>)
    ensures NonNull(a + b) == NonNull(a) + NonNull(b)
    decreases |b|
  {
    if b == [] {
      assert a + b == a;
    } else {
      var init := b[..|b| - 1];
      assert (a + b)[..|a + b| - 1] == a + init;
      NonNullAppend(a, init);
    }
  }

  /** One more entry of a prefix: the kept entries grow by that entry if it is present, and
      never outgrow what is kept of the whole sequence. */
  lemma NonNullPrefix(nodes: seq<Option<VNode>>, i: nat)
    requires i < |nodes|
    ensures NonNull(nodes[..i + 1]) == NonNull(nodes[..i]) + (if nodes[i].Some? then [nodes[i].value] else [])
    ensures |NonNull(nodes[..i + 1])| <= |NonNull(nodes)|
  {
    assert nodes[..i + 1][..i] == nodes[..i];
    // what is kept so far is a prefix of what is kept overall
    NonNullAppend(nodes[..i + 1], nodes[i + 1..]);
    assert nodes == nodes[..i + 1] + nodes[i + 1..];
  }

  /** `nullableList`: count the entries that are not null, then copy them into an array of
      exactly that size. */
  method NullableList(nodes: array<Option<VNode>>) returns (r: array<VNode>)
    ensures fresh(r)
    ensures r[..] == NonNull(nodes[..])
  {
    var count := 0;
    for i := 0 to nodes.Length
      invariant count == CountPresent(nodes[..i])
    {
      assert nodes[..i + 1][..i] == nodes[..i];
      if nodes[i] != None {
        count := count + 1;
      }
    }
    assert nodes[..nodes.Length] == nodes[..];
    NonNullLength(nodes[..]);
    r := new VNode[count];
    var j := 0;
    for i := 0 to nodes.Length
      invariant j == |NonNull(nodes[..i])| && j <= count
      invariant r[..j] == NonNull(nodes[..i])
    {
      NonNullPrefix(nodes[..], i);
      if nodes[i] != None {
        r[j] := nodes[i].value;
        j := j + 1;
      }
    }
    assert nodes[..nodes.Length] == nodes[..];
  }

  /** `map`: the i-th node renders the i-th item. */
  method Map<T>(items: seq<T>, render: T -> VNode) returns (nodes: array<VNode>)
    ensures fresh(nodes) && nodes.Length == |items|
    ensures forall i :: 0 <= i < |items| ==> nodes[i] == render(items[i])
  {
    nodes := new VNode[|items|];
    for i := 0 to |items|
      invariant forall k :: 0 <= k < i ==> nodes[k] == render(items[k])
    {
      nodes[i] := render(items[i]);
    }
  }
}
