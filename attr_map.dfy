/**
 * VAttrMapJre: the property map of a virtual element, a hash map from property names to
 * values updated in place. A key stored with a null value is present and reads as null, like
 * an absent key. The map's iteration order is an input wherever the map is read as an
 * entry sequence.
 */
module PropertyMaps {
  import opened Wrappers
  import opened FiniteSets
  import opened VirtualDom

  /** `get`: the stored value, or null for an absent key. */
  function ValueOf(m: map<string, PropValue>, k: string): (v: PropValue)
    ensures k in m ==> v == m[k]
    ensures k !in m ==> v == Null
  {
    if k in m then m[k] else Null
  }

  /** After `set(k, v)`, `get(k)` is `v` and every other key reads as before. */
  lemma GetAfterSet(m: map<string, PropValue>, k: string, v: PropValue, other: string)
    ensures ValueOf(m[k := v], k) == v
    ensures other != k ==> ValueOf(m[k := v], other) == ValueOf(m, other)
  {
  }

  /** The map's entries in the order `order` lists its keys. */
  function Entries(m: map<string, PropValue>, order: seq<string>): (r: Props)
    requires forall i :: 0 <= i < |order| ==> order[i] in m
    ensures |r| == |order|
    ensures forall i :: 0 <= i < |order| ==> r[i] == (order[i], m[order[i]])
  {
    seq(|order|, i requires 0 <= i < |order| => (order[i], m[order[i]]))
  }

  /** Read in any order that lists each key once, the entries give back the map. */
  lemma {:induction false} LookupEntries(m: map<string, PropValue>, order: seq<string>, k: string)
    requires Elements(order) == m.Keys && NoDuplicates(order)
    ensures Lookup(Entries(m, order), k) == (if k in m then Some(m[k]) else None)
    decreases |order|
  {
    if order != [] {
      var rest := order[1..];
      var m' := m - {order[0]};
      assert Elements(rest) == m'.Keys by {
        forall x ensures x in Elements(rest) <==> x in m'.Keys {
          if x in rest {
            var j :| 0 <= j < |rest| && rest[j] == x;
            assert order[j + 1] == x;
          }
          if x in m'.Keys {
            assert x in order;
            var j :| 0 <= j < |order| && order[j] == x;
            assert j != 0;
            assert rest[j - 1] == x;
          }
        }
      }
      assert NoDuplicates(rest) by {
        forall i, j | 0 <= i < j < |rest| ensures rest[i] != rest[j] {
          assert rest[i] == order[i + 1] && rest[j] == order[j + 1];
        }
      }
      LookupEntries(m', rest, k);
      assert Entries(m, order)[1..] == Entries(m', rest);
    }
  }

  /** The position of the last space in `s`, if any. */
  function LastSpace(s: string): (r: Option<nat>)
    ensures r.None? ==> forall j :: 0 <= j < |s| ==> s[j] != ' '
    ensures r.Some? ==> r.value < |s| && s[r.value] == ' '
    ensures r.Some? ==> forall j :: r.value < j < |s| ==> s[j] != ' '
  {
    if s == [] then None
    else if s[|s| - 1] == ' ' then Some(|s| - 1)
    else LastSpace(s[..|s| - 1])
  }

  /** The classes of a `className` value: the words between its spaces. */
  function Classes(s: string): seq<string>
    decreases |s|
  {
    match LastSpace(s)
    case None => if s == "" then [] else [s]
    case Some(i) => Classes(s[..i]) + (if i + 1 == |s| then [] else [s[i + 1..]])
  }

  /** A class name: non-empty and free of spaces. */
  predicate IsClassName(c: string)
  {
    c != "" && forall j :: 0 <= j < |c| ==> c[j] != ' '
  }

  lemma SingleClass(c: string)
    requires IsClassName(c)
    ensures Classes(c) == [c]
  {
  }

  /** Joining with a space appends one class to the list. */
  lemma AppendClass(current: string, c: string)
    requires IsClassName(c)
    ensures Classes(current + " " + c) == Classes(current) + [c]
  {
    var s := current + " " + c;
    assert s[|current|] == ' ';
    var i := LastSpace(s).value;
    assert i == |current|;
    assert s[..i] == current;
    assert s[i + 1..] == c;
  }

  class AttrMap {
    var entries: map<string, PropValue>

    constructor ()
      ensures entries == map[]
    {
      entries := map[];
    }

    /** `set`: store `value` under `k`, replacing any value there; returns the map. */
    method Set(k: string, value: PropValue) returns (r: AttrMap)
      modifies this
      ensures entries == old(entries)[k := value]
      ensures r == this
    {
      entries := entries[k := value];
      r := this;
    }

    method Get(k: string) returns (v: PropValue)
      ensures k in entries ==> v == entries[k]
      ensures k !in entries ==> v == Null
    {
      v := if k in entries then entries[k] else Null;
    }

    method Remove(k: string)
      modifies this
      ensures entries == old(entries) - {k}
    {
      entries := entries - {k};
    }

    method Keys() returns (keys: set<string>)
      ensures keys == entries.Keys
    {
      keys := entries.Keys;
    }

    method IsEmpty() returns (empty: bool)
      ensures empty <==> |entries| == 0
    {
      empty := |entries| == 0;
    }

    /** `addClassName`: the stored `className` is cast to a string; the new class is the
        whole value when none is stored, and is appended after a space otherwise. */
    method AddClassName(newClass: string) returns (castFailed: bool)
      modifies this
      ensures castFailed <==> "className" in old(entries) && (old(entries)["className"].Styles? || old(entries)["className"].Obj?)
      ensures castFailed ==> entries == old(entries)
      ensures !castFailed && !ValueOf(old(entries), "className").Str? ==> entries == old(entries)["className" := Str(newClass)]
      ensures ValueOf(old(entries), "className").Str? ==>
        entries == old(entries)["className" := Str(ValueOf(old(entries), "className").s + " " + newClass)]
    {
      var current := Get("className");
      match current
      case Null =>
        var _ := Set("className", Str(newClass));
        return false;
      case Str(s) =>
        var _ := Set("className", Str(s + " " + newClass));
        return false;
      case _ =>
        return true;
    }

    method AddClassNameIf(newClass: string, add: bool) returns (castFailed: bool)
      modifies this
      ensures !add ==> !castFailed && entries == old(entries)
      ensures add && !castFailed && !ValueOf(old(entries), "className").Str? ==> entries == old(entries)["className" := Str(newClass)]
      ensures add && ValueOf(old(entries), "className").Str? ==>
        !castFailed && entries == old(entries)["className" := Str(ValueOf(old(entries), "className").s + " " + newClass)]
      ensures castFailed ==> entries == old(entries)
    {
      castFailed := false;
      if add {
        castFailed := AddClassName(newClass);
      }
    }

    /** `data` and `setData`: the value goes under `data-` followed by the name. */
    method Data(name: string, value: string)
      modifies this
      ensures entries == old(entries)["data-" + name := Str(value)]
    {
      var _ := Set("data-" + name, Str(value));
    }

    /** `setClass`: the whole class list is replaced. */
    method SetClass(classNames: string)
      modifies this
      ensures entries == old(entries)["className" := Str(classNames)]
    {
      var _ := Set("className", Str(classNames));
    }

    method SetClassIf(classNames: string, add: bool)
      modifies this
      ensures add ==> entries == old(entries)["className" := Str(classNames)]
      ensures !add ==> entries == old(entries)
    {
      if add {
        SetClass(classNames);
      }
    }

    /** `disabled`: set to `"true"`, or the key is removed. */
    method Disabled(disabled: bool)
      modifies this
      ensures disabled ==> entries == old(entries)["disabled" := Str("true")]
      ensures !disabled ==> entries == old(entries) - {"disabled"}
    {
      if disabled {
        var _ := Set("disabled", Str("true"));
      } else {
        Remove("disabled");
      }
    }

    /** `on`: the handler goes under `on` followed by the event name; `onclick` and the
        other named handlers are `on` with a fixed event name. */
    method On(eventName: string, handler: nat)
      modifies this
      ensures entries == old(entries)["on" + eventName := Obj(handler)]
    {
      var _ := Set("on" + eventName, Obj(handler));
    }

    method Draggable(draggable: bool)
      modifies this
      ensures entries == old(entries)["draggable" := Str(if draggable then "true" else "false")]
    {
      var _ := Set("draggable", Str(if draggable then "true" else "false"));
    }

    /** `href`: the URI's string form. */
    method Href(uri: string)
      modifies this
      ensures entries == old(entries)["href" := Str(uri)]
    {
      var _ := Set("href", Str(uri));
    }

    /** `setStyle`: the style map, read in the order `order` lists its keys, goes under
        `style`. */
    method SetStyle(style: AttrMap, order: seq<string>)
      requires forall i :: 0 <= i < |order| ==> order[i] in style.entries
      modifies this
      ensures entries == old(entries)["style" := Styles(StyleDeclarations(old(style.entries), order))]
    {
      var decls := StyleDeclarations(style.entries, order);
      var _ := Set("style", Styles(decls));
    }
  }

  /** The text a style value is appended as: a string as it is, and a null (which the cast to
      `String` lets through) as `null`. */
  function DeclarationValue(v: PropValue): string
  {
    match v
    case Str(s) => s
    case Null => "null"
    case _ => ""
  }

  /** The declarations of a style map: its values as text, under their names. */
  function StyleDeclarations(m: map<string, PropValue>, order: seq<string>): (r: seq<(string, string)>)
    requires forall i :: 0 <= i < |order| ==> order[i] in m
    ensures |r| == |order|
    ensures forall i :: 0 <= i < |order| ==> r[i].0 == order[i]
    ensures forall i :: 0 <= i < |order| ==> m[order[i]].Str? ==> r[i].1 == m[order[i]].s
    ensures forall i :: 0 <= i < |order| ==> m[order[i]].Null? ==> r[i].1 == "null"
  {
    seq(|order|, i requires 0 <= i < |order| => (order[i], DeclarationValue(m[order[i]])))
  }

  /** Classes added one by one accumulate in order. */
  method AddTwoClasses() returns (m: AttrMap)
    ensures m.entries == map["className" := Str("btn active")]
    ensures Classes(m.entries["className"].s) == ["btn", "active"]
  {
    m := new AttrMap();
    var failed := m.AddClassName("btn");
    assert m.entries == map["className" := Str("btn")];
    failed := m.AddClassName("active");
    assert "btn" + " " + "active" == "btn active";
    SingleClass("btn");
    AppendClass("btn", "active");
  }
}
