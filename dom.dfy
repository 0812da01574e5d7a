/**
 * The declarative element builder of src/dom.ts.
 *
 * `element(tag)` returns a function that decides from its first argument
 * whether it was given a class shorthand (".a.b"), an options object or
 * only children, and hands the result to `createElement`, which makes one
 * new element and fills it in a fixed order: properties, classes, `data-*`
 * attributes, inline styles, children.
 *
 * An element is observed through an abstract record: its tag, the
 * properties assigned to it, its class list, its attributes, its inline
 * style declarations and its children.
 */
module Dom {
  import opened JsString

  /** A JavaScript value handed to the builder as an option. */
  datatype Value =
    | Undefined
    | Str(s: string)
    /** An object of style declarations, as `style: {color: "red"}`. */
    | Style(declarations: seq<(string, string)>)
    /** Any other value (a number, a handler function, ...), known by identity. */
    | Other(id: nat)

  /** The `class` option: one class name or an array of them. */
  datatype ClassOption = OneClass(name: string) | ClassArray(names: seq<string>)

  /**
   * An options object. `class` and `data` are taken out of it by
   * destructuring; every other key, `style` included, stays in `rest`,
   * in the object's key order.
   */
  datatype Opts = Opts(
    classes: Option<ClassOption>,
    data: Option<seq<(string, string)>>,
    rest: seq<(string, Value)>)

  /** The default `{}` used when no options are given. */
  const NoOpts := Opts(None, None, [])

  /** A node of the document tree. */
  datatype Node = Text(content: string) | ElementNode(element: Element)

  /** The observable state of an element. */
  datatype Element = Element(
    tag: string,
    props: map<string, Value>,
    classes: seq<string>,
    attributes: map<string, string>,
    style: map<string, string>,
    children: seq<Node>)

  /** An argument of the function `element(tag)` returns. */
  datatype Arg = StrArg(s: string) | NodeArg(node: Node) | OptsArg(opts: Opts)

  /** A `Child`: a string or a node. */
  predicate IsChild(a: Arg) {
    !a.OptsArg?
  }

  predicate AllChildren(args: seq<Arg>) {
    forall i :: 0 <= i < |args| ==> IsChild(args[i])
  }

  /** What `appendChild` receives for a child: a text node for a string. */
  function ToNode(a: Arg): Node
    requires IsChild(a)
  {
    if a.StrArg? then Text(a.s) else a.node
  }

  function ToNodes(args: seq<Arg>): (nodes: seq<Node>)
    requires AllChildren(args)
  {
    seq(|args|, i requires 0 <= i < |args| => ToNode(args[i]))
  }

  // ---------------------------------------------------------------------
  // Keyed entries (the entries of a JavaScript object, in key order)

  /** The keys of a JavaScript object are distinct. */
  predicate DistinctKeys<V>(entries: seq<(string, V)>) {
    forall i, j :: 0 <= i < j < |entries| ==> entries[i].0 != entries[j].0
  }

  /** The value stored under `k`, if any. */
  function Lookup<V>(entries: seq<(string, V)>, k: string): (r: Option<V>)
    ensures r.Some? <==> exists i :: 0 <= i < |entries| && entries[i].0 == k
    ensures r.Some? ==> exists i :: 0 <= i < |entries| && entries[i] == (k, r.value)
  {
    if entries == [] then None
    else if entries[|entries| - 1].0 == k then Some(entries[|entries| - 1].1)
    else
      var r := Lookup(entries[..|entries| - 1], k);
      assert forall i :: 0 <= i < |entries| - 1 ==> entries[..|entries| - 1][i] == entries[i];
      r
  }

  /**
   * The options the type `Opts<T>` admits: an object (distinct keys) whose
   * `class` and `data` were destructured away, whose `className` is a
   * string and whose `style` is an object of declarations.
   */
  predicate WellTyped(opts: Opts) {
    && DistinctKeys(opts.rest)
    && (opts.data.Some? ==> DistinctKeys(opts.data.value))
    && forall i :: 0 <= i < |opts.rest| ==> OptionFits(opts.rest[i].0, opts.rest[i].1)
  }

  predicate OptionFits(key: string, v: Value) {
    && key != "class" && key != "data"
    && (key == "className" ==> v.Undefined? || v.Str?)
    && (key == "style" ==> v.Undefined? || (v.Style? && DistinctKeys(v.declarations)))
  }

  // ---------------------------------------------------------------------
  // Class lists

  /** No token occurs twice. */
  predicate NoDuplicates(cs: seq<string>) {
    forall i, j :: 0 <= i < j < |cs| ==> cs[i] != cs[j]
  }

  /** `classList.add(...tokens)`: each token not yet present is appended. */
  function AddClasses(cs: seq<string>, tokens: seq<string>): seq<string> {
    if tokens == [] then cs
    else
      var r := AddClasses(cs, tokens[..|tokens| - 1]);
      var t := tokens[|tokens| - 1];
      if t in r then r else r + [t]
  }

  /**
   * Adding keeps the old class list as a prefix, holds exactly the old
   * classes and the tokens, and never duplicates a class.
   */
  lemma {:induction false} AddClassesSpec(cs: seq<string>, tokens: seq<string>)
    ensures |cs| <= |AddClasses(cs, tokens)|
    ensures AddClasses(cs, tokens)[..|cs|] == cs
    ensures forall t :: t in AddClasses(cs, tokens) <==> t in cs || t in tokens
    ensures NoDuplicates(cs) ==> NoDuplicates(AddClasses(cs, tokens))
  {
    if tokens != [] {
      var init := tokens[..|tokens| - 1];
      AddClassesSpec(cs, init);
      assert tokens == init + [tokens[|tokens| - 1]];
      var r := AddClasses(cs, init);
      assert (r + [tokens[|tokens| - 1]])[..|cs|] == r[..|cs|];
    }
  }

  /** Adding distinct new tokens appends them in order. */
  lemma {:induction false} AddFreshClasses(cs: seq<string>, tokens: seq<string>)
    requires NoDuplicates(tokens)
    requires forall t :: t in tokens ==> t !in cs
    ensures AddClasses(cs, tokens) == cs + tokens
  {
    if tokens != [] {
      var init := tokens[..|tokens| - 1];
      var t := tokens[|tokens| - 1];
      assert forall x :: x in init ==> x in tokens;
      assert NoDuplicates(init);
      AddFreshClasses(cs, init);
      assert t !in init;
      assert tokens == init + [t];
    }
  }

  /** The ASCII white space that separates class names in a `className`. */
  const AsciiWhiteSpace: set<char> := {' ', '\t', '\n', '\r', '\U{000C}'}

  /** The pieces that are not empty, in order. */
  function NonEmpty(ws: seq<string>): (r: seq<string>)
    ensures forall w :: w in r <==> w in ws && w != ""
  {
    if ws == [] then []
    else (if ws[0] == "" then [] else [ws[0]]) + NonEmpty(ws[1..])
  }

  /** The class list a `className` string denotes: its tokens, each once. */
  function ClassTokens(s: string): (r: seq<string>)
    ensures NoDuplicates(r)
    ensures forall t :: t in r <==> t in Split(s, AsciiWhiteSpace) && t != ""
    ensures forall t :: t in r ==> Avoids(t, AsciiWhiteSpace)
  {
    var pieces := Split(s, AsciiWhiteSpace);
    AddClassesSpec([], NonEmpty(pieces));
    assert forall t :: t in pieces ==> Avoids(t, AsciiWhiteSpace) by {
      forall t | t in pieces ensures Avoids(t, AsciiWhiteSpace) {
        var i :| 0 <= i < |pieces| && pieces[i] == t;
      }
    }
    AddClasses([], NonEmpty(pieces))
  }

  // ---------------------------------------------------------------------
  // The build steps, as functions on the element record

  /** A new element of the tag, as `document.createElement(tag)` gives it. */
  function Empty(tag: string): Element {
    Element(tag, map[], [], map[], map[], [])
  }

  /**
   * `elem[key] = value`. A `className` string replaces the class list; a
   * write to `style` is forwarded to the inline declaration's text, and
   * an object's string form holds no declaration, so the inline style is
   * emptied; any other key is stored as a property.
   */
  function Assign(e: Element, key: string, v: Value): (r: Element)
    ensures r.tag == e.tag && r.attributes == e.attributes && r.children == e.children
  {
    if key == "className" && v.Str? then e.(classes := ClassTokens(v.s))
    else if key == "style" then e.(style := map[])
    else e.(props := e.props[key := v])
  }

  /** The property loop: an entry is assigned when the element has the key and the value is defined. */
  function ApplyProps(e: Element, rest: seq<(string, Value)>, known: set<string>): (r: Element)
    ensures r.tag == e.tag && r.attributes == e.attributes && r.children == e.children
  {
    if rest == [] then e
    else
      var r := ApplyProps(e, rest[..|rest| - 1], known);
      var (key, value) := rest[|rest| - 1];
      if key in known && value != Undefined then Assign(r, key, value) else r
  }

  /** The classes `if (classes) classList.add(...)` adds: none for a missing or empty name. */
  function ClassesToAdd(c: Option<ClassOption>): (r: seq<string>)
    ensures c.None? ==> r == []
    ensures "" in r ==> c.Some? && c.value.ClassArray?
    ensures forall t :: t in r ==> c.Some? && (if c.value.OneClass? then t == c.value.name else t in c.value.names)
  {
    match c
    case None => []
    case Some(OneClass(name)) => if name == "" then [] else [name]
    case Some(ClassArray(names)) => names
  }

  /** The attribute name a data entry gets. */
  function DataName(key: string): string {
    "data-" + key
  }

  /** The `setAttribute` loop over the data entries. */
  function ApplyData(e: Element, entries: seq<(string, string)>): (r: Element)
    ensures r == e.(attributes := r.attributes)
  {
    if entries == [] then e
    else
      var r := ApplyData(e, entries[..|entries| - 1]);
      var (key, value) := entries[|entries| - 1];
      r.(attributes := r.attributes[DataName(key) := value])
  }

  /** The loop assigning each style declaration onto `elem.style`. */
  function ApplyStyles(e: Element, declarations: seq<(string, string)>): (r: Element)
    ensures r == e.(style := r.style)
  {
    if declarations == [] then e
    else
      var r := ApplyStyles(e, declarations[..|declarations| - 1]);
      var (key, value) := declarations[|declarations| - 1];
      r.(style := r.style[key := value])
  }

  /** The `appendChild` loop. */
  function AppendChildren(e: Element, children: seq<Arg>): (r: Element)
    requires AllChildren(children)
    ensures r == e.(children := r.children)
  {
    if children == [] then e
    else
      var r := AppendChildren(e, children[..|children| - 1]);
      r.(children := r.children + [ToNode(children[|children| - 1])])
  }

  /** `Object.entries(data || {})` */
  function DataOf(opts: Opts): seq<(string, string)> {
    if opts.data.Some? then opts.data.value else []
  }

  /** `Object.entries(opts.style || {})` */
  function StyleOf(opts: Opts): seq<(string, string)> {
    var style := Lookup(opts.rest, "style");
    if style.Some? && style.value.Style? then style.value.declarations else []
  }

  /** The element `createElement(tag, opts, ...children)` returns. */
  function Build(tag: string, known: set<string>, opts: Opts, children: seq<Arg>): (r: Element)
    requires AllChildren(children)
    ensures r.tag == tag
  {
    var withProps := ApplyProps(Empty(tag), opts.rest, known);
    var withClasses := withProps.(classes := AddClasses(withProps.classes, ClassesToAdd(opts.classes)));
    var withData := ApplyData(withClasses, DataOf(opts));
    var withStyle := ApplyStyles(withData, StyleOf(opts));
    AppendChildren(withStyle, children)
  }

  // ---------------------------------------------------------------------
  // The element being built

  /** A DOM element under construction; its methods are the DOM calls `createElement` makes. */
  class HtmlElement {
    const tag: string
    var props: map<string, Value>
    var classes: seq<string>
    var attributes: map<string, string>
    var style: map<string, string>
    var children: seq<Node>

    function Snapshot(): Element
      reads this
    {
      Element(tag, props, classes, attributes, style, children)
    }

    /** `document.createElement(tag)` */
    constructor (tag: string)
      ensures Snapshot() == Empty(tag)
    {
      this.tag := tag;
      props := map[];
      classes := [];
      attributes := map[];
      style := map[];
      children := [];
    }

    /** `elem[key] = value` */
    method SetProperty(key: string, value: Value)
      modifies this
      ensures Snapshot() == Assign(old(Snapshot()), key, value)
    {
      if key == "className" && value.Str? {
        classes := ClassTokens(value.s);
      } else if key == "style" {
        style := map[];
      } else {
        props := props[key := value];
      }
    }

    /** `elem.classList.add(...tokens)` */
    method AddToClassList(tokens: seq<string>)
      modifies this
      ensures Snapshot() == old(Snapshot()).(classes := AddClasses(old(classes), tokens))
    {
      classes := AddClasses(classes, tokens);
    }

    /** `elem.setAttribute(name, value)` */
    method SetAttribute(name: string, value: string)
      modifies this
      ensures Snapshot() == old(Snapshot()).(attributes := old(attributes)[name := value])
    {
      attributes := attributes[name := value];
    }

    /** `elem.style[key] = value` */
    method SetStyle(key: string, value: string)
      modifies this
      ensures Snapshot() == old(Snapshot()).(style := old(style)[key := value])
    {
      style := style[key := value];
    }

    /** `elem.appendChild(node)` */
    method AppendChild(node: Node)
      modifies this
      ensures Snapshot() == old(Snapshot()).(children := old(children) + [node])
    {
      children := children + [node];
    }
  }

  /** The property loop of `createElement`. */
  method AssignProperties(elem: HtmlElement, rest: seq<(string, Value)>, known: set<string>)
    modifies elem
    ensures elem.Snapshot() == ApplyProps(old(elem.Snapshot()), rest, known)
  {
    ghost var e0 := elem.Snapshot();
    var i := 0;
    while i < |rest|
      invariant 0 <= i <= |rest|
      invariant elem.Snapshot() == ApplyProps(e0, rest[..i], known)
    {
      var (key, value) := rest[i];
      if key in known {
        if value != Undefined {
          elem.SetProperty(key, value);
        }
      }
      assert rest[..i + 1][..i] == rest[..i];
      i := i + 1;
    }
    assert rest[..i] == rest;
  }

  /** The `setAttribute` loop of `createElement`. */
  method SetDataAttributes(elem: HtmlElement, data: seq<(string, string)>)
    modifies elem
    ensures elem.Snapshot() == ApplyData(old(elem.Snapshot()), data)
  {
    ghost var e0 := elem.Snapshot();
    var i := 0;
    while i < |data|
      invariant 0 <= i <= |data|
      invariant elem.Snapshot() == ApplyData(e0, data[..i])
    {
      var (key, value) := data[i];
      elem.SetAttribute(DataName(key), value);
      assert data[..i + 1][..i] == data[..i];
      i := i + 1;
    }
    assert data[..i] == data;
  }

  /** The style loop of `createElement`. */
  method SetStyles(elem: HtmlElement, declarations: seq<(string, string)>)
    modifies elem
    ensures elem.Snapshot() == ApplyStyles(old(elem.Snapshot()), declarations)
  {
    ghost var e0 := elem.Snapshot();
    var i := 0;
    while i < |declarations|
      invariant 0 <= i <= |declarations|
      invariant elem.Snapshot() == ApplyStyles(e0, declarations[..i])
    {
      var (key, value) := declarations[i];
      elem.SetStyle(key, value);
      assert declarations[..i + 1][..i] == declarations[..i];
      i := i + 1;
    }
    assert declarations[..i] == declarations;
  }

  /** The child loop of `createElement`: a string becomes a text node. */
  method AppendAll(elem: HtmlElement, children: seq<Arg>)
    requires AllChildren(children)
    modifies elem
    ensures elem.Snapshot() == AppendChildren(old(elem.Snapshot()), children)
  {
    ghost var e0 := elem.Snapshot();
    var i := 0;
    while i < |children|
      invariant 0 <= i <= |children|
      invariant elem.Snapshot() == AppendChildren(e0, children[..i])
    {
      var child := children[i];
      elem.AppendChild(if child.StrArg? then Text(child.s) else child.node);
      assert children[..i + 1][..i] == children[..i];
      i := i + 1;
    }
    assert children[..i] == children;
  }

  /**
   * `createElement(tag, opts, ...children)`: one new element, filled by
   * the property loop, the class step, the data loop, the style loop and
   * the child loop, in that order. `known` is the set of property names
   * an element of the tag has (the `key in elem` test).
   */
  method CreateElement(tag: string, known: set<string>, opts: Opts, children: seq<Arg>)
    returns (elem: HtmlElement)
    requires AllChildren(children)
    ensures fresh(elem)
    ensures elem.Snapshot() == Build(tag, known, opts, children)
  {
    elem := new HtmlElement(tag);
    AssignProperties(elem, opts.rest, known);
    match opts.classes {
      case None =>
      case Some(OneClass(name)) =>
        if name != "" {
          elem.AddToClassList([name]);
        }
      case Some(ClassArray(names)) =>
        elem.AddToClassList(names);
    }
    SetDataAttributes(elem, DataOf(opts));
    SetStyles(elem, StyleOf(opts));
    AppendAll(elem, children);
  }

  // ---------------------------------------------------------------------
  // element(tag): the three call shapes

  /** The options and children `element(tag)(...args)` passes on to `createElement`. */
  datatype Call = Call(opts: Option<Opts>, children: seq<Arg>)

  /**
   * A string first argument starting with "." is a class shorthand; any
   * other string is a child; a first argument that is neither a string
   * nor a node is the options object; otherwise every argument is a child.
   */
  function Dispatch(args: seq<Arg>): (c: Call)
    requires AllChildren(if args == [] then [] else args[1..])
    ensures AllChildren(c.children)
  {
    if |args| > 0 && args[0].StrArg? then
      if StartsWith(args[0].s, ".") then
        Call(Some(Opts(Some(ClassArray(Split(args[0].s[1..], {'.'}))), None, [])), args[1..])
      else
        Call(None, args)
    else if |args| > 0 && !args[0].NodeArg? then
      Call(Some(args[0].opts), args[1..])
    else
      Call(None, args)
  }

  /** The element `element(tag)(...args)` returns. */
  function Invocation(tag: string, known: set<string>, args: seq<Arg>): (r: Element)
    requires AllChildren(if args == [] then [] else args[1..])
    ensures r.tag == tag
  {
    var c := Dispatch(args);
    Build(tag, known, c.opts.GetOr(NoOpts), c.children)
  }

  /** The function `element(tag)` returns, applied to `args`. */
  method Invoke(tag: string, known: set<string>, args: seq<Arg>) returns (elem: HtmlElement)
    requires AllChildren(if args == [] then [] else args[1..])
    ensures fresh(elem)
    ensures elem.Snapshot() == Invocation(tag, known, args)
  {
    var opts: Option<Opts>;
    var children: seq<Arg>;
    if |args| > 0 && args[0].StrArg? {
      var first := args[0].s;
      if StartsWith(first, ".") {
        opts := Some(Opts(Some(ClassArray(Split(first[1..], {'.'}))), None, []));
        children := args[1..];
      } else {
        opts := None;
        children := args;
      }
    } else if |args| > 0 && !args[0].NodeArg? {
      opts := Some(args[0].opts);
      children := args[1..];
    } else {
      opts := None;
      children := args;
    }
    elem := CreateElement(tag, known, opts.GetOr(NoOpts), children);
  }
}

/** What the builder promises, proved about `Build` and `Invocation`. */
module DomProperties {
  import opened JsString
  import opened Dom

  /** The property loop assigns `k`: the element has it and the object holds a defined value for it. */
  predicate Applied(rest: seq<(string, Value)>, known: set<string>, k: string) {
    k in known && Lookup(rest, k).Some? && Lookup(rest, k).value != Undefined
  }

  predicate AllFit(rest: seq<(string, Value)>) {
    forall i :: 0 <= i < |rest| ==> OptionFits(rest[i].0, rest[i].1)
  }

  /** A key other than `className` and `style` the property loop stores as a property. */
  predicate Plain(k: string) {
    k != "className" && k != "style"
  }

  lemma LookupLast<V>(init: seq<(string, V)>, key: string, value: V, k: string)
    requires DistinctKeys(init + [(key, value)])
    ensures Lookup(init + [(key, value)], k) == if k == key then Some(value) else Lookup(init, k)
    ensures DistinctKeys(init)
    ensures Lookup(init, key).None?
  {
    var rest := init + [(key, value)];
    assert rest[..|rest| - 1] == init;
    assert forall i :: 0 <= i < |init| ==> rest[i] == init[i];
    assert forall i :: 0 <= i < |init| ==> init[i].0 != key by {
      forall i | 0 <= i < |init| ensures init[i].0 != key {
        assert rest[i].0 != rest[|rest| - 1].0;
      }
    }
  }

  /**
   * The property loop on a plain key: it ends up on the element exactly
   * when it was applied, with the object's value; keys the element lacks
   * and undefined values leave the element as it was.
   */
  lemma {:induction false} ApplyPropsAt(e: Element, rest: seq<(string, Value)>, known: set<string>, k: string)
    requires DistinctKeys(rest) && Plain(k)
    ensures k in ApplyProps(e, rest, known).props <==> k in e.props || Applied(rest, known, k)
    ensures Applied(rest, known, k) ==> ApplyProps(e, rest, known).props[k] == Lookup(rest, k).value
    ensures !Applied(rest, known, k) && k in e.props ==> ApplyProps(e, rest, known).props[k] == e.props[k]
  {
    if rest != [] {
      var init := rest[..|rest| - 1];
      var (key, value) := rest[|rest| - 1];
      assert rest == init + [(key, value)];
      LookupLast(init, key, value, k);
      ApplyPropsAt(e, init, known, k);
    }
  }

  /** The `className` the property loop assigns, if any. */
  function AssignedClassName(rest: seq<(string, Value)>, known: set<string>): Option<string> {
    var v := Lookup(rest, "className");
    if Applied(rest, known, "className") && v.value.Str? then Some(v.value.s) else None
  }

  /** The property loop on the class list: an assigned `className` replaces it. */
  lemma {:induction false} ApplyPropsClasses(e: Element, rest: seq<(string, Value)>, known: set<string>)
    requires DistinctKeys(rest) && AllFit(rest)
    ensures Applied(rest, known, "className") ==> AssignedClassName(rest, known).Some?
    ensures ApplyProps(e, rest, known).classes ==
      if AssignedClassName(rest, known).Some? then ClassTokens(AssignedClassName(rest, known).value) else e.classes
  {
    if rest != [] {
      var init := rest[..|rest| - 1];
      var (key, value) := rest[|rest| - 1];
      assert rest == init + [(key, value)];
      LookupLast(init, key, value, "className");
      assert AllFit(init) by {
        forall i | 0 <= i < |init| ensures OptionFits(init[i].0, init[i].1) {
          assert init[i] == rest[i];
        }
      }
      assert OptionFits(rest[|rest| - 1].0, rest[|rest| - 1].1);
      ApplyPropsClasses(e, init, known);
    }
  }

  /** The property loop on the inline style: an assigned `style` empties it. */
  lemma {:induction false} ApplyPropsStyle(e: Element, rest: seq<(string, Value)>, known: set<string>)
    requires DistinctKeys(rest)
    ensures ApplyProps(e, rest, known).style == if Applied(rest, known, "style") then map[] else e.style
  {
    if rest != [] {
      var init := rest[..|rest| - 1];
      var (key, value) := rest[|rest| - 1];
      assert rest == init + [(key, value)];
      LookupLast(init, key, value, "style");
      ApplyPropsStyle(e, init, known);
    }
  }

  lemma DataNameInjective(a: string, b: string)
    requires DataName(a) == DataName(b)
    ensures a == b
  {
    assert DataName(a)[5..] == a;
    assert DataName(b)[5..] == b;
  }

  /** Each data entry `k -> v` becomes attribute `data-k` with value `v`, and no other attribute appears. */
  lemma {:induction false} ApplyDataSpec(e: Element, entries: seq<(string, string)>)
    requires DistinctKeys(entries)
    ensures forall i :: 0 <= i < |entries| ==>
      DataName(entries[i].0) in ApplyData(e, entries).attributes
      && ApplyData(e, entries).attributes[DataName(entries[i].0)] == entries[i].1
    ensures forall name :: name in ApplyData(e, entries).attributes ==>
      name in e.attributes || exists i :: 0 <= i < |entries| && name == DataName(entries[i].0)
  {
    if entries != [] {
      var n := |entries| - 1;
      var init := entries[..n];
      assert DistinctKeys(init) by {
        assert forall i :: 0 <= i < n ==> init[i] == entries[i];
      }
      ApplyDataSpec(e, init);
      forall i | 0 <= i < n
        ensures DataName(entries[i].0) != DataName(entries[n].0)
      {
        if DataName(entries[i].0) == DataName(entries[n].0) {
          DataNameInjective(entries[i].0, entries[n].0);
        }
      }
      assert forall i :: 0 <= i < n ==> init[i] == entries[i];
    }
  }

  /** Each style declaration is in the inline style with its value, and no other declaration appears. */
  lemma {:induction false} ApplyStylesSpec(e: Element, declarations: seq<(string, string)>)
    requires DistinctKeys(declarations)
    ensures forall i :: 0 <= i < |declarations| ==>
      declarations[i].0 in ApplyStyles(e, declarations).style
      && ApplyStyles(e, declarations).style[declarations[i].0] == declarations[i].1
    ensures forall k :: k in ApplyStyles(e, declarations).style ==>
      k in e.style || exists i :: 0 <= i < |declarations| && k == declarations[i].0
  {
    if declarations != [] {
      var n := |declarations| - 1;
      var init := declarations[..n];
      assert forall i :: 0 <= i < n ==> init[i] == declarations[i];
      assert DistinctKeys(init);
      ApplyStylesSpec(e, init);
    }
  }

  /** Children are appended in argument order, strings as text nodes of the same content. */
  lemma {:induction false} AppendChildrenSpec(e: Element, children: seq<Arg>)
    requires AllChildren(children)
    ensures AppendChildren(e, children).children == e.children + ToNodes(children)
  {
    if children != [] {
      var n := |children| - 1;
      AppendChildrenSpec(e, children[..n]);
      assert ToNodes(children) == ToNodes(children[..n]) + [ToNode(children[n])];
    }
  }

  /** The class list of the element `Build` returns. */
  function BaseClasses(opts: Opts, known: set<string>): seq<string> {
    var name := AssignedClassName(opts.rest, known);
    if name.Some? then ClassTokens(name.value) else []
  }

  /** Build step 2: properties the element has and whose values are defined are assigned, nothing else. */
  lemma BuildProperties(tag: string, known: set<string>, opts: Opts, children: seq<Arg>)
    requires WellTyped(opts) && AllChildren(children)
    ensures Build(tag, known, opts, children).tag == tag
    ensures forall k :: Plain(k) ==>
      (k in Build(tag, known, opts, children).props <==> Applied(opts.rest, known, k))
    ensures forall k :: Plain(k) && Applied(opts.rest, known, k) ==>
      Build(tag, known, opts, children).props[k] == Lookup(opts.rest, k).value
  {
    forall k | Plain(k)
      ensures k in Build(tag, known, opts, children).props <==> Applied(opts.rest, known, k)
      ensures Applied(opts.rest, known, k) ==> Build(tag, known, opts, children).props[k] == Lookup(opts.rest, k).value
    {
      ApplyPropsAt(Empty(tag), opts.rest, known, k);
    }
  }

  /**
   * Build step 3: the `class` option is added on top of the classes a
   * `className` property set, which stay first; nothing is duplicated and
   * nothing else is added.
   */
  lemma BuildClasses(tag: string, known: set<string>, opts: Opts, children: seq<Arg>)
    requires WellTyped(opts) && AllChildren(children)
    ensures Build(tag, known, opts, children).classes == AddClasses(BaseClasses(opts, known), ClassesToAdd(opts.classes))
    ensures var cs := Build(tag, known, opts, children).classes;
      && |BaseClasses(opts, known)| <= |cs|
      && cs[..|BaseClasses(opts, known)|] == BaseClasses(opts, known)
      && (forall t :: t in cs <==> t in BaseClasses(opts, known) || t in ClassesToAdd(opts.classes))
      && NoDuplicates(cs)
  {
    ApplyPropsClasses(Empty(tag), opts.rest, known);
    var base := BaseClasses(opts, known);
    var name := AssignedClassName(opts.rest, known);
    if name.Some? {
      AddClassesSpec([], NonEmpty(Split(name.value, AsciiWhiteSpace)));
    }
    assert NoDuplicates(base);
    AddClassesSpec(base, ClassesToAdd(opts.classes));
  }

  /** Build step 4: the attributes are exactly `data-k = v` for the data entries. */
  lemma BuildData(tag: string, known: set<string>, opts: Opts, children: seq<Arg>)
    requires WellTyped(opts) && AllChildren(children)
    ensures var attributes := Build(tag, known, opts, children).attributes;
      && (forall i :: 0 <= i < |DataOf(opts)| ==>
            DataName(DataOf(opts)[i].0) in attributes && attributes[DataName(DataOf(opts)[i].0)] == DataOf(opts)[i].1)
      && (forall name :: name in attributes ==> exists i :: 0 <= i < |DataOf(opts)| && name == DataName(DataOf(opts)[i].0))
  {
    var withProps := ApplyProps(Empty(tag), opts.rest, known);
    var withClasses := withProps.(classes := AddClasses(withProps.classes, ClassesToAdd(opts.classes)));
    ApplyDataSpec(withClasses, DataOf(opts));
  }

  /**
   * Build step 5: the inline style is exactly the `style` option's
   * declarations; the style loop runs after the property loop, so its
   * declarations are what remains.
   */
  lemma BuildStyle(tag: string, known: set<string>, opts: Opts, children: seq<Arg>)
    requires WellTyped(opts) && AllChildren(children)
    ensures var style := Build(tag, known, opts, children).style;
      && (forall i :: 0 <= i < |StyleOf(opts)| ==>
            StyleOf(opts)[i].0 in style && style[StyleOf(opts)[i].0] == StyleOf(opts)[i].1)
      && (forall k :: k in style ==> exists i :: 0 <= i < |StyleOf(opts)| && k == StyleOf(opts)[i].0)
  {
    var withProps := ApplyProps(Empty(tag), opts.rest, known);
    ApplyPropsStyle(Empty(tag), opts.rest, known);
    assert withProps.style == map[];
    var withClasses := withProps.(classes := AddClasses(withProps.classes, ClassesToAdd(opts.classes)));
    var withData := ApplyData(withClasses, DataOf(opts));
    var style := Lookup(opts.rest, "style");
    if style.Some? && style.value.Style? {
      var i :| 0 <= i < |opts.rest| && opts.rest[i] == ("style", style.value);
      assert OptionFits(opts.rest[i].0, opts.rest[i].1);
    }
    ApplyStylesSpec(withData, StyleOf(opts));
  }

  /** Build step 6: the children are the arguments in order, strings as text nodes of the same content. */
  lemma BuildChildren(tag: string, known: set<string>, opts: Opts, children: seq<Arg>)
    requires AllChildren(children)
    ensures Build(tag, known, opts, children).children == ToNodes(children)
    ensures forall i :: 0 <= i < |children| && children[i].StrArg? ==>
      Build(tag, known, opts, children).children[i] == Text(children[i].s)
  {
    var withProps := ApplyProps(Empty(tag), opts.rest, known);
    var withClasses := withProps.(classes := AddClasses(withProps.classes, ClassesToAdd(opts.classes)));
    var withData := ApplyData(withClasses, DataOf(opts));
    var withStyle := ApplyStyles(withData, StyleOf(opts));
    AppendChildrenSpec(withStyle, children);
  }

  /** `createElement` with only a `class` array: an element holding those classes and the children. */
  lemma BuildClassArray(tag: string, known: set<string>, tokens: seq<string>, children: seq<Arg>)
    requires AllChildren(children)
    ensures Build(tag, known, Opts(Some(ClassArray(tokens)), None, []), children)
      == Element(tag, map[], AddClasses([], tokens), map[], map[], ToNodes(children))
  {
    var opts := Opts(Some(ClassArray(tokens)), None, []);
    assert StyleOf(opts) == [];
    var e := Empty(tag).(classes := AddClasses([], tokens));
    AppendChildrenSpec(e, children);
  }

  /**
   * Shape 1, the class shorthand: a first argument ".a.b" gives the class
   * list `"a.b".split(".")` (each token once), whose join with "." is the
   * argument without its dot; no property, attribute or style is set;
   * every other argument is a child.
   */
  lemma ShorthandInvocation(tag: string, known: set<string>, s: string, rest: seq<Arg>)
    requires StartsWith(s, ".") && AllChildren(rest)
    ensures var e := Invocation(tag, known, [StrArg(s)] + rest);
      && (forall t :: t in e.classes <==> t in Split(s[1..], {'.'}))
      && NoDuplicates(e.classes)
      && (NoDuplicates(Split(s[1..], {'.'})) ==> e.classes == Split(s[1..], {'.'}))
      && Join(Split(s[1..], {'.'}), '.') == s[1..]
      && e.props == map[] && e.attributes == map[] && e.style == map[]
      && e.children == ToNodes(rest)
  {
    var args := [StrArg(s)] + rest;
    assert args[1..] == rest;
    var tokens := Split(s[1..], {'.'});
    assert Dispatch(args) == Call(Some(Opts(Some(ClassArray(tokens)), None, [])), rest);
    BuildClassArray(tag, known, tokens, rest);
    AddClassesSpec([], tokens);
    if NoDuplicates(tokens) {
      AddFreshClasses([], tokens);
    }
    JoinSplit(s[1..], '.');
  }

  /**
   * Shape 3, children only: no arguments, a node first, or a string first
   * that does not start with "." — no option is applied and every
   * argument, the first included, is a child.
   */
  lemma ChildrenOnlyInvocation(tag: string, known: set<string>, args: seq<Arg>)
    requires args == [] || args[0].NodeArg? || (args[0].StrArg? && !StartsWith(args[0].s, "."))
    requires AllChildren(args)
    ensures Invocation(tag, known, args) == Empty(tag).(children := ToNodes(args))
  {
    assert Dispatch(args) == Call(None, args);
    assert StyleOf(NoOpts) == [];
    AppendChildrenSpec(Empty(tag), args);
  }

  /** Shape 2: a first argument that is neither a string nor a node is the options object and no child. */
  lemma OptionsInvocation(tag: string, known: set<string>, opts: Opts, rest: seq<Arg>)
    requires AllChildren(rest)
    ensures Invocation(tag, known, [OptsArg(opts)] + rest) == Build(tag, known, opts, rest)
    ensures Invocation(tag, known, [OptsArg(opts)] + rest).children == ToNodes(rest)
  {
    assert ([OptsArg(opts)] + rest)[1..] == rest;
    BuildChildren(tag, known, opts, rest);
  }

  /** `div({class: "option", data: {idx: "1"}}, "Valid")` */
  lemma OptionDivExample(known: set<string>)
    ensures Invocation("div", known,
      [OptsArg(Opts(Some(OneClass("option")), Some([("idx", "1")]), [])), StrArg("Valid")])
      == Element("div", map[], ["option"], map["data-idx" := "1"], map[], [Text("Valid")])
  {
    var opts := Opts(Some(OneClass("option")), Some([("idx", "1")]), []);
    OptionsInvocation("div", known, opts, [StrArg("Valid")]);
    assert [OptsArg(opts), StrArg("Valid")] == [OptsArg(opts)] + [StrArg("Valid")];
    assert DataName("idx") == "data-idx";
    assert ToNodes([StrArg("Valid")]) == [Text("Valid")];
    var withProps := ApplyProps(Empty("div"), [], known);
    var withClasses := withProps.(classes := AddClasses(withProps.classes, ["option"]));
    assert withClasses.classes == ["option"];
    var withData := ApplyData(withClasses, [("idx", "1")]);
    assert [("idx", "1")][..0] == [];
    assert withData.attributes == map["data-idx" := "1"];
  }

  /** Two dot-free pieces joined by a dot split back into those two pieces. */
  lemma SplitTwoPieces(a: string, b: string)
    requires Avoids(a, {'.'}) && Avoids(b, {'.'})
    ensures Split(a + "." + b, {'.'}) == [a, b]
  {
    SplitJoin([a, b], '.');
    assert Join([a, b], '.') == a + "." + Join([b], '.');
  }

  /** `div(".option.selected", "Valid")` */
  lemma ShorthandDivExample(known: set<string>)
    ensures Invocation("div", known, [StrArg(".option.selected"), StrArg("Valid")])
      == Element("div", map[], ["option", "selected"], map[], map[], [Text("Valid")])
  {
    var s := ".option.selected";
    assert s[1..] == "option" + "." + "selected";
    SplitTwoPieces("option", "selected");
    assert NoDuplicates(["option", "selected"]);
    ShorthandInvocation("div", known, s, [StrArg("Valid")]);
    assert [StrArg(s), StrArg("Valid")] == [StrArg(s)] + [StrArg("Valid")];
    assert ToNodes([StrArg("Valid")]) == [Text("Valid")];
  }

  /** Every call makes exactly one new element; two calls with the same arguments give two distinct, equal elements. */
  method TwoCallsTwoElements(tag: string, known: set<string>, args: seq<Arg>)
    returns (first: HtmlElement, second: HtmlElement)
    requires AllChildren(if args == [] then [] else args[1..])
    ensures fresh(first) && fresh(second) && first != second
    ensures first.Snapshot() == second.Snapshot() == Invocation(tag, known, args)
  {
    first := Invoke(tag, known, args);
    second := Invoke(tag, known, args);
  }
}
