/** The options of local_config.xml and their edition, src/lib/ConfigStore.cpp:632-778: a document is the
    list of the nodes under its root element. */
module ConfigDocuments {
  import opened Options

  datatype Attr = Attr(name: string, value: string)

  /** An element and its subtree, or anything else that may stand between elements. */
  datatype Node =
    | Element(tag: string, attrs: seq<Attr>, inner: string)
    | Other(text: string)

  type Doc = seq<Node>

  const OPTION: string := "calaos:option"

  datatype Setting = Setting(key: string, value: string)

  /** What one call of set_config_options asks for. A Params is a std::map: no key is set twice. */
  datatype Batch = Batch(toSet: seq<Setting>, toDelete: seq<string>) {
    predicate Valid() { forall i, j | 0 <= i < j < |toSet| :: toSet[i].key != toSet[j].key }

    predicate Sets(key: string) { exists s <- toSet :: s.key == key }

    predicate Touches(key: string) { Sets(key) || key in toDelete }
  }

  // ----- attributes -----

  function Attribute(attrs: seq<Attr>, name: string): Option<string> {
    if attrs == [] then None
    else if attrs[0].name == name then Some(attrs[0].value)
    else Attribute(attrs[1..], name)
  }

  /** XmlUtils::setAttribute: replaces in place, appends when there is none. */
  function SetAttribute(attrs: seq<Attr>, name: string, value: string): seq<Attr> {
    if attrs == [] then [Attr(name, value)]
    else if attrs[0].name == name then [Attr(name, value)] + attrs[1..]
    else [attrs[0]] + SetAttribute(attrs[1..], name, value)
  }

  lemma {:induction false} AttributeAfterSet(attrs: seq<Attr>, name: string, value: string, other: string)
    ensures Attribute(SetAttribute(attrs, name, value), other)
         == if other == name then Some(value) else Attribute(attrs, other)
  {
    if attrs != [] && attrs[0].name != name {
      AttributeAfterSet(attrs[1..], name, value, other);
    }
  }

  predicate IsOption(n: Node, key: string) {
    n.Element? && n.tag == OPTION && Attribute(n.attrs, "name") == Some(key)
  }

  /** The element with its value attribute set. */
  function WithValue(n: Node, value: string): Node
    requires n.Element?
  {
    n.(attrs := SetAttribute(n.attrs, "value", value))
  }

  // ----- what the file means -----

  /** The first option of that name that has a value; "" when there is none. */
  function Get(doc: Doc, key: string): string {
    if doc == [] then ""
    else if IsOption(doc[0], key) && Attribute(doc[0].attrs, "value").Some?
    then Attribute(doc[0].attrs, "value").value
    else Get(doc[1..], key)
  }

  predicate Has(doc: Doc, key: string) { exists n <- doc :: IsOption(n, key) }

  /** The nodes an update of these keys has nothing to do with. */
  function Rest(doc: Doc, keys: set<string>): Doc {
    if doc == [] then []
    else if exists k <- keys :: IsOption(doc[0], k) then Rest(doc[1..], keys)
    else [doc[0]] + Rest(doc[1..], keys)
  }

  lemma {:induction false} RestConcat(a: Doc, b: Doc, keys: set<string>)
    ensures Rest(a + b, keys) == Rest(a, keys) + Rest(b, keys)
  {
    hide IsOption;
    if a == [] {
      assert a + b == b;
    } else {
      assert (a + b)[1..] == a[1..] + b;
      RestConcat(a[1..], b, keys);
    }
  }

  /** They are the nodes that are not an option of one of these names, in their order. */
  lemma RestIs(before: Doc, n: Node, after: Doc, keys: set<string>)
    ensures Rest(before + [n] + after, keys)
         == Rest(before, keys) + (if exists k <- keys :: IsOption(n, k) then [] else [n]) + Rest(after, keys)
    ensures Rest([], keys) == []
  {
    hide IsOption;
    RestConcat(before + [n], after, keys);
    RestConcat(before, [n], keys);
    assert [n][1..] == [];
    assert Rest([n], keys) == if exists k <- keys :: IsOption(n, k) then [] else [n];
  }

  // ----- what an update does -----

  /** Every option of that name goes away. */
  function Without(doc: Doc, key: string): Doc {
    if doc == [] then []
    else if IsOption(doc[0], key) then Without(doc[1..], key)
    else [doc[0]] + Without(doc[1..], key)
  }

  function WithoutAll(doc: Doc, keys: seq<string>): Doc
    decreases |keys|
  {
    if keys == [] then doc else WithoutAll(Without(doc, keys[0]), keys[1..])
  }

  /** The first option of that name gets the value; a new one is appended when there is none. */
  function With(doc: Doc, key: string, value: string): Doc {
    if doc == [] then [Element(OPTION, [Attr("name", key), Attr("value", value)], "")]
    else if IsOption(doc[0], key) then [WithValue(doc[0], value)] + doc[1..]
    else [doc[0]] + With(doc[1..], key, value)
  }

  function WithAll(doc: Doc, toSet: seq<Setting>): Doc
    decreases |toSet|
  {
    if toSet == [] then doc else WithAll(With(doc, toSet[0].key, toSet[0].value), toSet[1..])
  }

  function Apply(doc: Doc, b: Batch): Doc { WithAll(WithoutAll(doc, b.toDelete), b.toSet) }

  // ----- what a reader finds after an update -----

  lemma {:induction false} GetWithout(doc: Doc, key: string, other: string)
    ensures Get(Without(doc, key), other) == if other == key then "" else Get(doc, other)
  {
    if doc != [] {
      GetWithout(doc[1..], key, other);
    }
  }

  lemma {:induction false} GetWithoutAll(doc: Doc, keys: seq<string>, other: string)
    ensures Get(WithoutAll(doc, keys), other) == if other in keys then "" else Get(doc, other)
    decreases |keys|
  {
    if keys != [] {
      GetWithoutAll(Without(doc, keys[0]), keys[1..], other);
      GetWithout(doc, keys[0], other);
    }
  }

  lemma {:induction false} GetWith(doc: Doc, key: string, value: string, other: string)
    ensures Get(With(doc, key, value), other) == if other == key then value else Get(doc, other)
  {
    if doc == [] {
      var attrs := [Attr("name", key), Attr("value", value)];
      assert attrs[1..] == [Attr("value", value)];
      assert Attribute(attrs, "value") == Some(value);
    } else if IsOption(doc[0], key) {
      AttributeAfterSet(doc[0].attrs, "value", value, "value");
      AttributeAfterSet(doc[0].attrs, "value", value, "name");
    } else {
      GetWith(doc[1..], key, value, other);
    }
  }

  lemma {:induction false} GetWithAll(doc: Doc, toSet: seq<Setting>, key: string)
    requires Batch(toSet, []).Valid()
    ensures forall i | 0 <= i < |toSet| :: toSet[i].key == key ==> Get(WithAll(doc, toSet), key) == toSet[i].value
    ensures (forall i | 0 <= i < |toSet| :: toSet[i].key != key) ==> Get(WithAll(doc, toSet), key) == Get(doc, key)
    decreases |toSet|
  {
    if toSet != [] {
      var rest := toSet[1..];
      GetWithAll(With(doc, toSet[0].key, toSet[0].value), rest, key);
      GetWith(doc, toSet[0].key, toSet[0].value, key);
      assert forall i | 0 < i < |toSet| :: toSet[i] == rest[i - 1];
    }
  }

  /** After an update a reader finds every value that was set, nothing for a key that was deleted and not
      set again, and for every other key what it would have found before. */
  lemma GetAfterUpdate(doc: Doc, b: Batch, key: string)
    requires b.Valid()
    ensures forall s <- b.toSet :: s.key == key ==> Get(Apply(doc, b), key) == s.value
    ensures !b.Sets(key) && key in b.toDelete ==> Get(Apply(doc, b), key) == ""
    ensures !b.Touches(key) ==> Get(Apply(doc, b), key) == Get(doc, key)
  {
    GetWithAll(WithoutAll(doc, b.toDelete), b.toSet, key);
    GetWithoutAll(doc, b.toDelete, key);
  }

  // ----- what an update leaves alone -----

  lemma {:induction false} RestWithout(doc: Doc, key: string, keys: set<string>)
    requires key in keys
    ensures Rest(Without(doc, key), keys) == Rest(doc, keys)
  {
    if doc != [] {
      RestWithout(doc[1..], key, keys);
      assert IsOption(doc[0], key) ==> exists k <- keys :: IsOption(doc[0], k);
    }
  }

  lemma {:induction false} RestWith(doc: Doc, key: string, value: string, keys: set<string>)
    requires key in keys
    ensures Rest(With(doc, key, value), keys) == Rest(doc, keys)
  {
    if doc == [] {
      var n := Element(OPTION, [Attr("name", key), Attr("value", value)], "");
      assert IsOption(n, key);
      assert Rest([n], keys) == Rest([], keys);
    } else if IsOption(doc[0], key) {
      AttributeAfterSet(doc[0].attrs, "value", value, "name");
      assert IsOption(WithValue(doc[0], value), key);
    } else {
      RestWith(doc[1..], key, value, keys);
    }
  }

  lemma {:induction false} RestWithoutAll(doc: Doc, toDelete: seq<string>, keys: set<string>)
    requires forall k <- toDelete :: k in keys
    ensures Rest(WithoutAll(doc, toDelete), keys) == Rest(doc, keys)
    decreases |toDelete|
  {
    if toDelete != [] {
      RestWithoutAll(Without(doc, toDelete[0]), toDelete[1..], keys);
      RestWithout(doc, toDelete[0], keys);
    }
  }

  lemma {:induction false} RestWithAll(doc: Doc, toSet: seq<Setting>, keys: set<string>)
    requires forall s <- toSet :: s.key in keys
    ensures Rest(WithAll(doc, toSet), keys) == Rest(doc, keys)
    decreases |toSet|
  {
    if toSet != [] {
      RestWithAll(With(doc, toSet[0].key, toSet[0].value), toSet[1..], keys);
      RestWith(doc, toSet[0].key, toSet[0].value, keys);
    }
  }

  /** Whatever an update does not name keeps its attributes, its subtree and its place among the rest. */
  lemma UntouchedNodesStay(doc: Doc, b: Batch, keys: set<string>)
    requires forall k: string :: b.Touches(k) ==> k in keys
    ensures Rest(Apply(doc, b), keys) == Rest(doc, keys)
  {
    forall s <- b.toSet
      ensures s.key in keys
    {
      assert b.Touches(s.key);
    }
    forall k <- b.toDelete
      ensures k in keys
    {
      assert b.Touches(k);
    }
    RestWithAll(WithoutAll(doc, b.toDelete), b.toSet, keys);
    RestWithoutAll(doc, b.toDelete, keys);
  }

  // ----- when nothing has to be written -----

  /** The first option of that name exists and has that value. */
  predicate Holds(doc: Doc, key: string, value: string) {
    doc != [] && (if IsOption(doc[0], key) then Attribute(doc[0].attrs, "value") == Some(value)
                  else Holds(doc[1..], key, value))
  }

  /** The document already says what the update asks for. */
  ghost predicate Done(doc: Doc, b: Batch) {
    && (forall k <- b.toDelete :: !Has(doc, k))
    && (forall s <- b.toSet :: Holds(doc, s.key, s.value))
  }

  lemma {:induction false} WithoutSame(doc: Doc, key: string)
    ensures Without(doc, key) == doc <==> !Has(doc, key)
    ensures |Without(doc, key)| <= |doc|
  {
    if doc != [] {
      WithoutSame(doc[1..], key);
      assert doc == [doc[0]] + doc[1..];
      assert Has(doc, key) <==> IsOption(doc[0], key) || Has(doc[1..], key);
    }
  }

  lemma {:induction false} SetAttributeSame(attrs: seq<Attr>, name: string, value: string)
    requires Attribute(attrs, name) == Some(value)
    ensures SetAttribute(attrs, name, value) == attrs
  {
    assert attrs == [attrs[0]] + attrs[1..];
    if attrs[0].name != name {
      SetAttributeSame(attrs[1..], name, value);
    }
  }

  lemma {:induction false} WithSame(doc: Doc, key: string, value: string)
    requires Holds(doc, key, value)
    ensures With(doc, key, value) == doc
  {
    assert doc == [doc[0]] + doc[1..];
    if IsOption(doc[0], key) {
      SetAttributeSame(doc[0].attrs, "value", value);
    } else {
      WithSame(doc[1..], key, value);
    }
  }

  lemma {:induction false} HoldsAfterWith(doc: Doc, key: string, value: string, k: string, v: string)
    requires if k == key then v == value else Holds(doc, k, v)
    ensures Holds(With(doc, key, value), k, v)
  {
    if doc == [] {
    } else if IsOption(doc[0], key) {
      AttributeAfterSet(doc[0].attrs, "value", value, "value");
      AttributeAfterSet(doc[0].attrs, "value", value, "name");
    } else if !IsOption(doc[0], k) || k == key {
      HoldsAfterWith(doc[1..], key, value, k, v);
    }
  }

  lemma {:induction false} HoldsAfterWithAll(doc: Doc, toSet: seq<Setting>, s: Setting)
    requires Batch(toSet, []).Valid()
    requires s in toSet || (Holds(doc, s.key, s.value) && forall t <- toSet :: t.key != s.key)
    ensures Holds(WithAll(doc, toSet), s.key, s.value)
    decreases |toSet|
  {
    if toSet != [] {
      var doc1 := With(doc, toSet[0].key, toSet[0].value);
      if s == toSet[0] || (s !in toSet) {
        HoldsAfterWith(doc, toSet[0].key, toSet[0].value, s.key, s.value);
      }
      assert s in toSet && s != toSet[0] ==> s in toSet[1..];
      HoldsAfterWithAll(doc1, toSet[1..], s);
    }
  }

  lemma {:induction false} HasAfterWith(doc: Doc, key: string, value: string, k: string)
    requires k != key
    ensures Has(With(doc, key, value), k) == Has(doc, k)
  {
    if doc == [] {
    } else {
      var t := With(doc, key, value);
      assert Has(doc, k) <==> IsOption(doc[0], k) || Has(doc[1..], k);
      assert Has(t, k) <==> IsOption(t[0], k) || Has(t[1..], k);
      if IsOption(doc[0], key) {
        AttributeAfterSet(doc[0].attrs, "value", value, "name");
      } else {
        HasAfterWith(doc[1..], key, value, k);
      }
    }
  }

  lemma {:induction false} HasAfterWithAll(doc: Doc, toSet: seq<Setting>, k: string)
    requires forall s <- toSet :: s.key != k
    ensures Has(WithAll(doc, toSet), k) == Has(doc, k)
    decreases |toSet|
  {
    if toSet != [] {
      HasAfterWithAll(With(doc, toSet[0].key, toSet[0].value), toSet[1..], k);
      HasAfterWith(doc, toSet[0].key, toSet[0].value, k);
    }
  }

  lemma {:induction false} HasAfterWithout(doc: Doc, key: string, k: string)
    ensures Has(Without(doc, key), k) == (k != key && Has(doc, k))
  {
    if doc != [] {
      HasAfterWithout(doc[1..], key, k);
      assert Has(doc, k) <==> IsOption(doc[0], k) || Has(doc[1..], k);
      var t := Without(doc, key);
      if !IsOption(doc[0], key) {
        assert t[1..] == Without(doc[1..], key);
        assert Has(t, k) <==> IsOption(t[0], k) || Has(t[1..], k);
      }
    }
  }

  lemma {:induction false} HasAfterWithoutAll(doc: Doc, keys: seq<string>, k: string)
    ensures Has(WithoutAll(doc, keys), k) == (k !in keys && Has(doc, k))
    decreases |keys|
  {
    if keys != [] {
      HasAfterWithoutAll(Without(doc, keys[0]), keys[1..], k);
      HasAfterWithout(doc, keys[0], k);
    }
  }

  lemma {:induction false} WithoutAllSame(doc: Doc, keys: seq<string>)
    requires forall k <- keys :: !Has(doc, k)
    ensures WithoutAll(doc, keys) == doc
    decreases |keys|
  {
    if keys != [] {
      WithoutSame(doc, keys[0]);
      WithoutAllSame(doc, keys[1..]);
    }
  }

  lemma {:induction false} WithAllSame(doc: Doc, toSet: seq<Setting>)
    requires forall s <- toSet :: Holds(doc, s.key, s.value)
    ensures WithAll(doc, toSet) == doc
    decreases |toSet|
  {
    if toSet != [] {
      WithSame(doc, toSet[0].key, toSet[0].value);
      WithAllSame(doc, toSet[1..]);
    }
  }

  /** An update that asks for what the document already says changes nothing. */
  lemma DoneIsSame(doc: Doc, b: Batch)
    requires Done(doc, b)
    ensures Apply(doc, b) == doc
  {
    WithoutAllSame(doc, b.toDelete);
    WithAllSame(doc, b.toSet);
  }

  /** Once made, the same update has nothing left to do, unless it deletes a key that it also sets. */
  lemma UpdateTwice(doc: Doc, b: Batch)
    requires b.Valid()
    ensures Done(Apply(doc, b), b) <==> forall k <- b.toDelete :: !b.Sets(k)
  {
    var d := WithoutAll(doc, b.toDelete);
    forall s <- b.toSet
      ensures Holds(Apply(doc, b), s.key, s.value)
    {
      HoldsAfterWithAll(d, b.toSet, s);
      HoldsHas(Apply(doc, b), s.key, s.value);
    }
    forall k <- b.toDelete | !b.Sets(k)
      ensures !Has(Apply(doc, b), k)
    {
      HasAfterWithAll(d, b.toSet, k);
      HasAfterWithoutAll(doc, b.toDelete, k);
    }
    forall k <- b.toDelete | b.Sets(k)
      ensures Has(Apply(doc, b), k)
    {
      var s :| s in b.toSet && s.key == k;
      assert Holds(Apply(doc, b), s.key, s.value);
      HoldsHas(Apply(doc, b), s.key, s.value);
    }
  }

  lemma {:induction false} HoldsHas(doc: Doc, key: string, value: string)
    requires Holds(doc, key, value)
    ensures Has(doc, key)
  {
    if !IsOption(doc[0], key) {
      HoldsHas(doc[1..], key, value);
      var n :| n in doc[1..] && IsOption(n, key);
      assert n in doc;
    }
  }

  lemma WithoutStep(doc: Doc, key: string, i: nat)
    requires i < |doc|
    ensures var done := doc[..i] + Without(doc[i..], key);
            if IsOption(doc[i], key)
            then var doc1 := doc[..i] + doc[i + 1..]; done == doc1[..i] + Without(doc1[i..], key)
            else done == doc[..i + 1] + Without(doc[i + 1..], key)
  {
    hide IsOption;
    assert doc[i..][1..] == doc[i + 1..];
    if IsOption(doc[i], key) {
      var doc1 := doc[..i] + doc[i + 1..];
      assert doc1[..i] == doc[..i] && doc1[i..] == doc[i + 1..];
    } else {
      assert doc[..i + 1] == doc[..i] + [doc[i]];
    }
  }

  lemma WithStep(doc: Doc, key: string, value: string, i: nat)
    requires i < |doc|
    ensures var done := doc[..i] + With(doc[i..], key, value);
            if IsOption(doc[i], key) then done == doc[i := WithValue(doc[i], value)]
            else done == doc[..i + 1] + With(doc[i + 1..], key, value)
    ensures Holds(doc[i..], key, value)
         == if IsOption(doc[i], key) then Attribute(doc[i].attrs, "value") == Some(value)
            else Holds(doc[i + 1..], key, value)
  {
    assert doc[i..][1..] == doc[i + 1..];
    if !IsOption(doc[i], key) {
      assert doc[..i + 1] == doc[..i] + [doc[i]];
    }
  }

  lemma OptionHasAttrs(n: Node, key: string)
    requires IsOption(n, key)
    ensures n.Element?
  {
  }

  // ----- the document that is edited in place -----

  /** The loaded file: the nodes under its root element. */
  class ConfigDocument {
    var children: Doc

    constructor (children: Doc)
      ensures this.children == children
    {
      this.children := children;
    }

    /** doGetConfigOption: the walk stops at the first option of that name that has a value. */
    method GetOption(key: string) returns (value: string)
      ensures value == Get(children, key)
    {
      value := "";
      var i := 0;
      while i < |children|
        invariant i <= |children|
        invariant value == "" && Get(children[i..], key) == Get(children, key)
      {
        var attr := Attribute(if children[i].Element? then children[i].attrs else [], "value");
        if IsOption(children[i], key) && attr.Some? {
          value := attr.value;
          return;
        }
        assert children[i..][1..] == children[i + 1..];
        i := i + 1;
      }
    }

    /** One turn of the deletion loop: nodes are removed while the walk goes on. */
    method DeleteOption(key: string) returns (changed: bool)
      modifies this
      ensures children == Without(old(children), key)
      ensures changed == Has(old(children), key)
    {
      hide IsOption, Has;
      changed := false;
      var i := 0;
      while i < |children|
        invariant i <= |children|
        invariant children[..i] + Without(children[i..], key) == Without(old(children), key)
        invariant if changed then |children| < |old(children)| else children == old(children)
        decreases |children| - i
      {
        WithoutStep(children, key, i);
        if IsOption(children[i], key) {
          children := children[..i] + children[i + 1..];
          changed := true;
        } else {
          i := i + 1;
        }
      }
      assert children[i..] == [] && children[..i] == children;
      WithoutSame(old(children), key);
    }

    /** One turn of the setting loop. */
    method SetOption(key: string, value: string) returns (changed: bool)
      modifies this
      ensures children == With(old(children), key, value)
      ensures changed == !Holds(old(children), key, value)
    {
      hide IsOption, WithValue, Attribute;
      var i := 0;
      while i < |children|
        invariant i <= |children| && children == old(children)
        invariant With(children, key, value) == children[..i] + With(children[i..], key, value)
        invariant Holds(children, key, value) == Holds(children[i..], key, value)
      {
        WithStep(children, key, value, i);
        if IsOption(children[i], key) {
          OptionHasAttrs(children[i], key);
          changed := Attribute(children[i].attrs, "value") != Some(value);
          if changed {
            children := children[i := WithValue(children[i], value)];
          } else {
            WithSame(children, key, value);
          }
          return;
        }
        i := i + 1;
      }
      assert children[i..] == [] && children[..i] == children;
      children := children + [Element(OPTION, [Attr("name", key), Attr("value", value)], "")];
      changed := true;
    }

    /** doSetConfigOptions once the file is loaded: the whole batch, and whether the file must be written. */
    method SetOptions(b: Batch) returns (changed: bool)
      modifies this
      ensures children == Apply(old(children), b)
      ensures changed == !Done(old(children), b)
      ensures !changed ==> children == old(children)
    {
      changed := false;
      for i := 0 to |b.toDelete|
        invariant WithoutAll(children, b.toDelete[i..]) == WithoutAll(old(children), b.toDelete)
        invariant !changed ==> children == old(children) && forall k <- b.toDelete[..i] :: !Has(old(children), k)
        invariant changed ==> !Done(old(children), b)
      {
        assert b.toDelete[i..][1..] == b.toDelete[i + 1..];
        ghost var before := children;
        var removed := DeleteOption(b.toDelete[i]);
        WithoutSame(before, b.toDelete[i]);
        changed := changed || removed;
      }
      ghost var d := children;
      for i := 0 to |b.toSet|
        invariant WithAll(children, b.toSet[i..]) == WithAll(d, b.toSet)
        invariant !changed ==> children == old(children)
                               && (forall k <- b.toDelete :: !Has(old(children), k))
                               && (forall j | 0 <= j < i :: Holds(old(children), b.toSet[j].key, b.toSet[j].value))
        invariant changed ==> !Done(old(children), b)
      {
        assert b.toSet[i..][1..] == b.toSet[i + 1..];
        ghost var before := children;
        var edited := SetOption(b.toSet[i].key, b.toSet[i].value);
        if !edited {
          WithSame(before, b.toSet[i].key, b.toSet[i].value);
        }
        changed := changed || edited;
      }
    }
  }
}
