/**
 * The validating translation of a DSL widget tree into a GTK Builder object
 * tree. Every check that fails aborts the whole call with its error; checks
 * run on a node before its children, attributes before styles, and each list
 * in enumeration order.
 */
module Transpiler {
  import opened Results
  import opened Ascii
  import opened Tables
  import opened Trees

  /**
   * Classifies one attribute of a node of class `cls` and emits its entry.
   * An event binding becomes a signal checked against the class's signal
   * whitelist; anything else is aliased, then checked against the property
   * whitelist. Errors name the attribute key as written.
   */
  function TranslateAttribute(key: string, value: string, cls: string): (r: Result<Entry, Err>)
    requires WidgetProperties(cls).Some?
    ensures r.Ok? && r.value.Signal? ==>
      r.value.handler == value && WidgetSignals(cls).Some? && r.value.name in WidgetSignals(cls).value
    ensures r.Ok? && r.value.Property? ==> r.value.value == value && r.value.name in WidgetProperties(cls).value
    ensures r.Ok? ==> (r.value.Signal? <==> IsSignalKey(key))
    ensures r.Fail? ==> r.error in {UnsupportedSignal(key, cls), UnsupportedProperty(key, cls)}
    ensures r.Fail? ==> (r.error.UnsupportedSignal? <==> IsSignalKey(key))
  {
    if IsSignalKey(key) then
      var signal := LookupSignal(key).value;
      if WidgetSignals(cls).Some? && signal in WidgetSignals(cls).value then Ok(Signal(signal, value))
      else Fail(UnsupportedSignal(key, cls))
    else
      var prop := Alias(key);
      if prop in WidgetProperties(cls).value then Ok(Property(prop, value))
      else Fail(UnsupportedProperty(key, cls))
  }

  /** The attribute loop: one entry per attribute in order, or the first attribute's error. */
  function TranslateProps(props: seq<(string, string)>, cls: string): (r: Result<seq<Entry>, Err>)
    requires WidgetProperties(cls).Some?
    ensures r.Ok? <==> forall i :: 0 <= i < |props| ==> TranslateAttribute(props[i].0, props[i].1, cls).Ok?
    ensures r.Ok? ==> |r.value| == |props|
    ensures r.Ok? ==> forall i :: 0 <= i < |props| ==> TranslateAttribute(props[i].0, props[i].1, cls) == Ok(r.value[i])
    ensures r.Fail? ==>
      exists i :: 0 <= i < |props|
        && (forall j :: 0 <= j < i ==> TranslateAttribute(props[j].0, props[j].1, cls).Ok?)
        && TranslateAttribute(props[i].0, props[i].1, cls) == Fail(r.error)
  {
    if props == [] then Ok([])
    else
      var entry :- TranslateAttribute(props[0].0, props[0].1, cls);
      var rest :- TranslateProps(props[1..], cls);
      assert forall i :: 0 <= i < |props| - 1 ==> props[1..][i] == props[i + 1];
      Ok([entry] + rest)
  }

  /** The style loop for a class with a style whitelist: every style copied in order, or the first unknown key's error. */
  function TranslateStyles(styles: seq<(string, string)>, cls: string): (r: Result<seq<StyleProp>, Err>)
    requires WidgetStyles(cls).Some?
    ensures r.Ok? <==> forall i :: 0 <= i < |styles| ==> styles[i].0 in WidgetStyles(cls).value
    ensures r.Ok? ==> |r.value| == |styles|
    ensures r.Ok? ==> forall i :: 0 <= i < |styles| ==> r.value[i] == StyleProp(styles[i].0, styles[i].1)
    ensures r.Fail? ==>
      exists i :: 0 <= i < |styles|
        && (forall j :: 0 <= j < i ==> styles[j].0 in WidgetStyles(cls).value)
        && styles[i].0 !in WidgetStyles(cls).value
        && r.error == UnsupportedStyle(styles[i].0, cls)
  {
    if styles == [] then Ok([])
    else if styles[0].0 !in WidgetStyles(cls).value then Fail(UnsupportedStyle(styles[0].0, cls))
    else
      var rest :- TranslateStyles(styles[1..], cls);
      assert forall i :: 0 <= i < |styles| - 1 ==> styles[1..][i] == styles[i + 1];
      Ok([StyleProp(styles[0].0, styles[0].1)] + rest)
  }

  /**
   * The style block of a node: validated and emitted only when the class has
   * a style whitelist and the node declares at least one style; otherwise
   * the styles are ignored without being looked at.
   */
  function StyleBlock(styles: seq<(string, string)>, cls: string): (r: Result<Option<seq<StyleProp>>, Err>)
    ensures WidgetStyles(cls).None? || styles == [] ==> r == Ok(None)
    ensures r.Ok? && r.value.Some? ==> WidgetStyles(cls).Some? && |r.value.value| == |styles| > 0
  {
    if WidgetStyles(cls).Some? && |styles| > 0 then
      var props :- TranslateStyles(styles, cls);
      Ok(Some(props))
    else Ok(None)
  }

  /** Transpiles one DSL node and, recursively, its children. */
  function Transpile(n: Node): (r: Result<Obj, Err>)
    ensures WidgetMap(n.name).None? ==> r == Fail(UnsupportedWidget(n.name))
    ensures r.Ok? ==>
      WidgetMap(n.name).Some? && r.value.cls == WidgetMap(n.name).value && r.value.id == n.name
    ensures r.Ok? ==> |r.value.children| == |n.children|
    decreases n
  {
    if WidgetMap(n.name).None? then Fail(UnsupportedWidget(n.name))
    else
      var cls := WidgetMap(n.name).value;
      var entries :- if WidgetProperties(cls).Some? then TranslateProps(n.props, cls) else Ok([]);
      var style :- StyleBlock(n.styles, cls);
      var children :- TranspileChildren(n.children);
      Ok(Obj(cls, n.name, entries, style, children))
  }

  /** The child loop: every child transpiled in order, or the first failing child's error. */
  function TranspileChildren(cs: seq<Node>): (r: Result<seq<Obj>, Err>)
    ensures r.Ok? <==> forall i :: 0 <= i < |cs| ==> Transpile(cs[i]).Ok?
    ensures r.Ok? ==> |r.value| == |cs|
    ensures r.Ok? ==> forall i :: 0 <= i < |cs| ==> Transpile(cs[i]) == Ok(r.value[i])
    ensures r.Fail? ==>
      exists i :: 0 <= i < |cs|
        && (forall j :: 0 <= j < i ==> Transpile(cs[j]).Ok?)
        && Transpile(cs[i]) == Fail(r.error)
    decreases cs
  {
    if cs == [] then Ok([])
    else
      var first :- Transpile(cs[0]);
      var rest :- TranspileChildren(cs[1..]);
      assert forall i :: 0 <= i < |cs| - 1 ==> cs[1..][i] == cs[i + 1];
      Ok([first] + rest)
  }
}
