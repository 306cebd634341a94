/**
 * The transpiler agrees with the declarative reference: it succeeds with
 * exactly the object tree the reference relates to its input, its output
 * respects every whitelist and mirrors the input's shape, and when it fails
 * it reports the first failing check in traversal order.
 */
module Theorems {
  import opened Results
  import opened Ascii
  import opened Tables
  import opened Trees
  import opened Transpiler
  import opened Reference

  // ---------------------------------------------------------------- attributes

  /** An attribute is classified as an event binding exactly when the event table declares it one. */
  lemma SignalKeyClassified(key: string)
    ensures IsSignalKey(key) <==> IsEventName(key)
  {
  }

  /** The case-insensitive scan of the event table finds exactly the signal the table declares. */
  lemma SignalLookupAgrees(key: string, signal: string)
    ensures LookupSignal(key) == Some(signal) <==> MapsToSignal(key, signal)
  {
    if MapsToSignal(key, signal) {
      var i :| 0 <= i < |SignalNameMap| && EqualsIgnoreCase(SignalNameMap[i].0, key) && SignalNameMap[i].1 == signal;
      SignalNameMapWellFormed();
      FindIgnoreCaseUnique(SignalNameMap, key, i);
    }
  }

  /**
   * One attribute yields entry `e` exactly when the reference admits `e`:
   * event bindings take priority and become signals, everything else is
   * aliased before its whitelist check.
   */
  lemma AttributeAgrees(kv: (string, string), cls: string, e: Entry)
    requires WidgetProperties(cls).Some?
    ensures TranslateAttribute(kv.0, kv.1, cls) == Ok(e) <==> EntryFor(kv, cls, e)
  {
    SignalKeyClassified(kv.0);
    SignalLookupAgrees(kv.0, e.name);
  }

  /** One attribute fails exactly when the reference's check on it fails, with the same error. */
  lemma AttributeVerdictAgrees(kv: (string, string), cls: string)
    requires WidgetProperties(cls).Some?
    ensures TranslateAttribute(kv.0, kv.1, cls).ErrorOf() == AttributeVerdict(kv, cls)
  {
    var r := TranslateAttribute(kv.0, kv.1, cls);
    SignalKeyClassified(kv.0);
    if r.Ok? {
      AttributeAgrees(kv, cls, r.value);
    } else {
      forall e | true
        ensures !EntryFor(kv, cls, e)
      {
        AttributeAgrees(kv, cls, e);
      }
    }
  }

  /** The attribute loop emits `es` exactly when `es` lists, in order, the entries the reference admits. */
  lemma PropsAgree(props: seq<(string, string)>, cls: string, es: seq<Entry>)
    requires WidgetProperties(cls).Some?
    ensures TranslateProps(props, cls) == Ok(es) <==>
      |es| == |props| && forall i :: 0 <= i < |props| ==> EntryFor(props[i], cls, es[i])
  {
    var r := TranslateProps(props, cls);
    if |es| == |props| {
      forall i | 0 <= i < |props|
        ensures TranslateAttribute(props[i].0, props[i].1, cls) == Ok(es[i]) <==> EntryFor(props[i], cls, es[i])
      {
        AttributeAgrees(props[i], cls, es[i]);
      }
      if forall i :: 0 <= i < |props| ==> EntryFor(props[i], cls, es[i]) {
        assert r.Ok?;
        assert r.value == es;
      }
    }
  }

  /** The style block emitted is exactly the one the reference prescribes. */
  lemma StyleBlockAgrees(styles: seq<(string, string)>, cls: string, block: Option<seq<StyleProp>>)
    ensures StyleBlock(styles, cls) == Ok(block) <==> StyleBlockFor(styles, cls, block)
  {
    if StylesChecked(styles, cls) && StyleBlockFor(styles, cls, block) {
      assert TranslateStyles(styles, cls).Ok?;
      assert TranslateStyles(styles, cls).value == block.value;
    }
  }

  // ---------------------------------------------------------------- trees

  /** Transpiling succeeds with `o` exactly when `o` translates `n`. */
  lemma {:induction false} TranspileAgrees(n: Node, o: Obj)
    ensures Transpile(n) == Ok(o) <==> Translates(n, o)
    decreases n
  {
    if WidgetMap(n.name).Some? {
      var cls := WidgetMap(n.name).value;
      EveryWidgetClassHasProperties();
      PropsAgree(n.props, cls, o.entries);
      StyleBlockAgrees(n.styles, cls, o.style);
      ChildrenAgree(n.children, o.children);
    }
  }

  /** The child loop succeeds with `os` exactly when each of `os` translates its child. */
  lemma {:induction false} ChildrenAgree(cs: seq<Node>, os: seq<Obj>)
    ensures TranspileChildren(cs) == Ok(os) <==>
      |os| == |cs| && forall i :: 0 <= i < |cs| ==> Translates(cs[i], os[i])
    decreases cs
  {
    if |os| == |cs| {
      forall i | 0 <= i < |cs|
        ensures Transpile(cs[i]) == Ok(os[i]) <==> Translates(cs[i], os[i])
      {
        TranspileAgrees(cs[i], os[i]);
      }
      if forall i :: 0 <= i < |cs| ==> Translates(cs[i], os[i]) {
        assert TranspileChildren(cs).Ok?;
        assert TranspileChildren(cs).value == os;
      }
    }
  }

  /** Any translation respects every whitelist, all the way down. */
  lemma {:induction false} TranslatesWhitelisted(n: Node, o: Obj)
    requires Translates(n, o)
    ensures Whitelisted(o)
    decreases n
  {
    forall e | e in o.entries
      ensures EntryWhitelisted(e, o.cls)
    {
      var i :| 0 <= i < |o.entries| && o.entries[i] == e;
      assert EntryFor(n.props[i], o.cls, e);
    }
    forall c | c in o.children
      ensures Whitelisted(c)
    {
      var i :| 0 <= i < |o.children| && o.children[i] == c;
      TranslatesWhitelisted(n.children[i], c);
    }
  }

  /** Every object the transpiler emits has a mapped class and only whitelisted entries and styles. */
  lemma {:induction false} TranspileOutputWhitelisted(n: Node)
    ensures Transpile(n).Ok? ==> Whitelisted(Transpile(n).value)
  {
    if Transpile(n).Ok? {
      TranspileAgrees(n, Transpile(n).value);
      TranslatesWhitelisted(n, Transpile(n).value);
    }
  }

  /** A translation has the shape of its input. */
  lemma {:induction false} TranslatesPreservesShape(n: Node, o: Obj)
    requires Translates(n, o)
    ensures ObjShape(o) == NodeShape(n)
    decreases n
  {
    forall i | 0 <= i < |n.children|
      ensures ObjShape(o.children[i]) == NodeShape(n.children[i])
    {
      TranslatesPreservesShape(n.children[i], o.children[i]);
    }
    assert ObjShape(o).kids == NodeShape(n).kids;
  }

  /** On success the output tree has the input tree's shape: same nesting, same child order. */
  lemma {:induction false} TranspilePreservesShape(n: Node)
    ensures Transpile(n).Ok? ==> ObjShape(Transpile(n).value) == NodeShape(n)
  {
    if Transpile(n).Ok? {
      TranspileAgrees(n, Transpile(n).value);
      TranslatesPreservesShape(n, Transpile(n).value);
    }
  }

  // ---------------------------------------------------------------- first failure

  lemma {:induction false} FirstFailureAppend(a: seq<Option<Err>>, b: seq<Option<Err>>)
    ensures FirstFailure(a + b) == if FirstFailure(a).Some? then FirstFailure(a) else FirstFailure(b)
  {
    if a != [] {
      assert (a + b)[1..] == a[1..] + b;
      FirstFailureAppend(a[1..], b);
    } else {
      assert a + b == b;
    }
  }

  lemma {:induction false} FirstFailureNone(vs: seq<Option<Err>>)
    requires forall i :: 0 <= i < |vs| ==> vs[i].None?
    ensures FirstFailure(vs) == None
  {
    if vs != [] {
      FirstFailureNone(vs[1..]);
    }
  }

  lemma {:induction false} FirstFailureAt(vs: seq<Option<Err>>, i: nat)
    requires i < |vs| && vs[i].Some?
    requires forall j :: 0 <= j < i ==> vs[j].None?
    ensures FirstFailure(vs) == vs[i]
  {
    if i > 0 {
      FirstFailureAt(vs[1..], i - 1);
    }
  }

  /** The attribute loop reports the first failing attribute check, or nothing. */
  lemma PropsReportFirstFailure(props: seq<(string, string)>, cls: string)
    requires WidgetProperties(cls).Some?
    ensures TranslateProps(props, cls).ErrorOf() == FirstFailure(AttributeVerdicts(props, cls))
  {
    var vs := AttributeVerdicts(props, cls);
    forall i | 0 <= i < |props|
      ensures TranslateAttribute(props[i].0, props[i].1, cls).ErrorOf() == vs[i]
    {
      AttributeVerdictAgrees(props[i], cls);
    }
    var r := TranslateProps(props, cls);
    if r.Ok? {
      FirstFailureNone(vs);
    } else {
      var i :| 0 <= i < |props|
        && (forall j :: 0 <= j < i ==> TranslateAttribute(props[j].0, props[j].1, cls).Ok?)
        && TranslateAttribute(props[i].0, props[i].1, cls) == Fail(r.error);
      FirstFailureAt(vs, i);
    }
  }

  /** The style block reports the first style outside the whitelist, when styles are looked at at all. */
  lemma StylesReportFirstFailure(styles: seq<(string, string)>, cls: string)
    ensures StyleBlock(styles, cls).ErrorOf() == FirstFailure(StyleVerdicts(styles, cls))
  {
    var vs := StyleVerdicts(styles, cls);
    if StylesChecked(styles, cls) {
      var r := TranslateStyles(styles, cls);
      if r.Ok? {
        FirstFailureNone(vs);
      } else {
        var i :| 0 <= i < |styles|
          && (forall j :: 0 <= j < i ==> styles[j].0 in WidgetStyles(cls).value)
          && styles[i].0 !in WidgetStyles(cls).value
          && r.error == UnsupportedStyle(styles[i].0, cls);
        FirstFailureAt(vs, i);
      }
    }
  }

  /**
   * Fail-fast: the transpiler fails exactly when some check in the tree
   * fails, and then with the error of the first failing check in depth-first
   * order (the node's name, its attributes, its styles, then its children).
   */
  lemma {:induction false} TranspileReportsFirstFailure(n: Node)
    ensures Transpile(n).ErrorOf() == FirstFailure(Verdicts(n))
    decreases n
  {
    if WidgetMap(n.name).Some? {
      var cls := WidgetMap(n.name).value;
      EveryWidgetClassHasProperties();
      PropsReportFirstFailure(n.props, cls);
      StylesReportFirstFailure(n.styles, cls);
      ChildrenReportFirstFailure(n.children);
      FirstFailureAppend(AttributeVerdicts(n.props, cls), StyleVerdicts(n.styles, cls));
      FirstFailureAppend(AttributeVerdicts(n.props, cls) + StyleVerdicts(n.styles, cls), ChildVerdicts(n.children));
    }
  }

  /** The child loop reports the first failing check among its children, in order. */
  lemma {:induction false} ChildrenReportFirstFailure(cs: seq<Node>)
    ensures TranspileChildren(cs).ErrorOf() == FirstFailure(ChildVerdicts(cs))
    decreases cs
  {
    if cs != [] {
      TranspileReportsFirstFailure(cs[0]);
      ChildrenReportFirstFailure(cs[1..]);
      FirstFailureAppend(Verdicts(cs[0]), ChildVerdicts(cs[1..]));
    }
  }

  /** A failure anywhere below aborts the whole call: no output for any ancestor. */
  lemma {:induction false} DescendantFailureAbortsRoot(n: Node, path: seq<nat>)
    requires Subtree(n, path).Some? && Transpile(Subtree(n, path).value).Fail?
    ensures Transpile(n).Fail?
    decreases |path|
  {
    if path != [] {
      DescendantFailureAbortsRoot(n.children[path[0]], path[1..]);
      assert !TranspileChildren(n.children).Ok?;
    }
  }

  // ---------------------------------------------------------------- policies

  /**
   * A node of an unknown widget fails naming it, whatever its attributes,
   * styles and children.
   */
  lemma UnknownWidgetRejectedFirst(name: string, props: seq<(string, string)>, styles: seq<(string, string)>,
                                   children: seq<Node>)
    requires WidgetMap(name).None?
    ensures Transpile(Node(name, props, styles, children)) == Fail(UnsupportedWidget(name))
  {
  }

  /**
   * An attribute that is not an event binding and whose alias is not
   * whitelisted is rejected under its own key, before any style or child
   * is looked at.
   */
  lemma UnlistedPropertyRejected(w: string, key: string, value: string, styles: seq<(string, string)>,
                                 children: seq<Node>)
    requires WidgetMap(w).Some? && !IsEventName(key)
    requires Alias(key) !in WidgetProperties(WidgetMap(w).value).value
    ensures Transpile(Node(w, [(key, value)], styles, children))
         == Fail(UnsupportedProperty(key, WidgetMap(w).value))
  {
    EveryWidgetClassHasProperties();
    SignalKeyClassified(key);
  }

  /** Styles on a class without a style whitelist are neither checked nor emitted, whatever their keys. */
  lemma StylesIgnoredWithoutWhitelist(n: Node, styles: seq<(string, string)>)
    requires WidgetMap(n.name).Some? && WidgetStyles(WidgetMap(n.name).value).None?
    ensures Transpile(n.(styles := styles)) == Transpile(n)
    ensures Transpile(n).Ok? ==> Transpile(n).value.style == None
  {
  }
}
