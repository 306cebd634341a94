/**
 * Declarative statements of what the transpiler is meant to compute, written
 * without its fail-fast recursion: which entry each attribute admits, which
 * object trees translate a node tree, which output trees respect the
 * whitelists, and the flat list of every check made on a tree in traversal
 * order, of which the first failing one decides the error.
 */
module Reference {
  import opened Results
  import opened Ascii
  import opened Tables
  import opened Trees

  /** `key` binds an event: it starts with "on" and some event-table row matches it up to case. */
  ghost predicate IsEventName(key: string) {
    StartsWith(key, "on") && exists i :: 0 <= i < |SignalNameMap| && EqualsIgnoreCase(SignalNameMap[i].0, key)
  }

  /** Some event-table row that matches `key` up to case maps it to `signal`. */
  ghost predicate MapsToSignal(key: string, signal: string) {
    exists i :: 0 <= i < |SignalNameMap| && EqualsIgnoreCase(SignalNameMap[i].0, key) && SignalNameMap[i].1 == signal
  }

  /**
   * `e` is the entry attribute `kv` admits on class `cls`: a whitelisted
   * signal with the attribute's value as handler when the key binds an event,
   * otherwise a whitelisted property under the key's alias (or the key itself
   * when it has none) with the attribute's value as text.
   */
  ghost predicate EntryFor(kv: (string, string), cls: string, e: Entry) {
    if IsEventName(kv.0) then
      && e.Signal?
      && MapsToSignal(kv.0, e.name)
      && e.handler == kv.1
      && WidgetSignals(cls).Some? && e.name in WidgetSignals(cls).value
    else
      && e.Property?
      && (PropertyAliases(kv.0).Some? ==> e.name == PropertyAliases(kv.0).value)
      && (PropertyAliases(kv.0).None? ==> e.name == kv.0)
      && e.value == kv.1
      && WidgetProperties(cls).Some? && e.name in WidgetProperties(cls).value
  }

  /** Whether styles on class `cls` are looked at at all. */
  ghost predicate StylesChecked(styles: seq<(string, string)>, cls: string) {
    WidgetStyles(cls).Some? && styles != []
  }

  /**
   * `block` is the style block of a node with `styles` on class `cls`: absent
   * when styles are not looked at, otherwise every style, whitelisted, copied
   * unchanged and in order.
   */
  ghost predicate StyleBlockFor(styles: seq<(string, string)>, cls: string, block: Option<seq<StyleProp>>) {
    if StylesChecked(styles, cls) then
      && block.Some?
      && |block.value| == |styles|
      && forall i :: 0 <= i < |styles| ==>
           styles[i].0 in WidgetStyles(cls).value && block.value[i] == StyleProp(styles[i].0, styles[i].1)
    else
      block == None
  }

  /** `o` translates `n`: same tree shape, and every object is what its node admits. */
  ghost predicate Translates(n: Node, o: Obj)
    decreases n
  {
    && WidgetMap(n.name).Some?
    && o.cls == WidgetMap(n.name).value
    && o.id == n.name
    && |o.entries| == |n.props|
    && (forall i :: 0 <= i < |n.props| ==> EntryFor(n.props[i], o.cls, o.entries[i]))
    && StyleBlockFor(n.styles, o.cls, o.style)
    && |o.children| == |n.children|
    && (forall i :: 0 <= i < |n.children| ==> Translates(n.children[i], o.children[i]))
  }

  /** An output entry is allowed on class `cls`; a signal must also come from the event table. */
  ghost predicate EntryWhitelisted(e: Entry, cls: string) {
    match e
    case Property(name, _) => WidgetProperties(cls).Some? && name in WidgetProperties(cls).value
    case Signal(name, _) =>
      && WidgetSignals(cls).Some? && name in WidgetSignals(cls).value
      && exists i :: 0 <= i < |SignalNameMap| && SignalNameMap[i].1 == name
  }

  /** Every object of an output tree has a known class and only whitelisted entries and styles. */
  ghost predicate Whitelisted(o: Obj)
    decreases o
  {
    && (exists w :: WidgetMap(w) == Some(o.cls))
    && (forall e :: e in o.entries ==> EntryWhitelisted(e, o.cls))
    && (o.style.Some? ==>
          && WidgetStyles(o.cls).Some?
          && forall p :: p in o.style.value ==> p.name in WidgetStyles(o.cls).value)
    && (forall c :: c in o.children ==> Whitelisted(c))
  }

  /** The bare shape of a tree: nesting and child order only. */
  datatype Shape = Shape(kids: seq<Shape>)

  ghost function NodeShape(n: Node): Shape
    decreases n
  {
    Shape(seq(|n.children|, i requires 0 <= i < |n.children| => NodeShape(n.children[i])))
  }

  ghost function ObjShape(o: Obj): Shape
    decreases o
  {
    Shape(seq(|o.children|, i requires 0 <= i < |o.children| => ObjShape(o.children[i])))
  }

  /** The node reached from `n` by following child indices, if they are all in range. */
  ghost function Subtree(n: Node, path: seq<nat>): Option<Node>
    decreases |path|
  {
    if path == [] then Some(n)
    else if path[0] < |n.children| then Subtree(n.children[path[0]], path[1..])
    else None
  }

  /** The check on one attribute: None when it admits an entry, else the error naming the key. */
  ghost function AttributeVerdict(kv: (string, string), cls: string): Option<Err> {
    if exists e :: EntryFor(kv, cls, e) then None
    else if IsEventName(kv.0) then Some(UnsupportedSignal(kv.0, cls))
    else Some(UnsupportedProperty(kv.0, cls))
  }

  /** The checks on all attributes, in enumeration order. */
  ghost function AttributeVerdicts(props: seq<(string, string)>, cls: string): seq<Option<Err>> {
    seq(|props|, i requires 0 <= i < |props| => AttributeVerdict(props[i], cls))
  }

  /** The checks on the styles, in enumeration order; none when styles are not looked at. */
  ghost function StyleVerdicts(styles: seq<(string, string)>, cls: string): seq<Option<Err>> {
    if StylesChecked(styles, cls) then
      seq(|styles|, i requires 0 <= i < |styles| =>
        if styles[i].0 in WidgetStyles(cls).value then None else Some(UnsupportedStyle(styles[i].0, cls)))
    else []
  }

  /**
   * Every check made on a tree, depth first: the widget name (and nothing
   * else on that node when it is unknown), the attributes, the styles, then
   * each child's checks in order.
   */
  ghost function Verdicts(n: Node): seq<Option<Err>>
    decreases n
  {
    if WidgetMap(n.name).None? then [Some(UnsupportedWidget(n.name))]
    else
      var cls := WidgetMap(n.name).value;
      AttributeVerdicts(n.props, cls) + StyleVerdicts(n.styles, cls) + ChildVerdicts(n.children)
  }

  ghost function ChildVerdicts(cs: seq<Node>): seq<Option<Err>>
    decreases cs
  {
    if cs == [] then [] else Verdicts(cs[0]) + ChildVerdicts(cs[1..])
  }

  /** The first failing check of a list, if any. */
  ghost function FirstFailure(vs: seq<Option<Err>>): Option<Err> {
    if vs == [] then None
    else if vs[0].Some? then vs[0]
    else FirstFailure(vs[1..])
  }
}
