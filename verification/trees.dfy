/**
 * The transpiler's input and output trees and its error taxonomy.
 *
 * The input node's property and style dictionaries become association lists
 * in the order the dictionaries enumerate them. .NET leaves that order
 * unspecified; for a dictionary filled only by `Add`, it is insertion order.
 * The output object is the `object` element of a GTK
 * Builder document with its `property`/`signal` children, its optional
 * `style` block and its child objects, without any XML encoding.
 */
module Trees {
  import opened Results

  /** One DSL widget: its name, its attributes and styles in enumeration order, and its children in order. */
  datatype Node = Node(
    name: string,
    props: seq<(string, string)>,
    styles: seq<(string, string)>,
    children: seq<Node>)

  /** A `property` (canonical name, text) or `signal` (name, handler) child of an `object`. */
  datatype Entry = Property(name: string, value: string) | Signal(name: string, handler: string)

  /** A `property` child of the `style` block. */
  datatype StyleProp = StyleProp(name: string, value: string)

  /**
   * An `object` element: its class and id attributes, its property and signal
   * entries in attribute order, an optional style block, then its child objects.
   */
  datatype Obj = Obj(
    cls: string,
    id: string,
    entries: seq<Entry>,
    style: Option<seq<StyleProp>>,
    children: seq<Obj>)

  /** The four ways a transpilation is rejected; each carries the offending DSL key and the resolved class. */
  datatype Err =
    | UnsupportedWidget(name: string)
    | UnsupportedSignal(key: string, cls: string)
    | UnsupportedProperty(key: string, cls: string)
    | UnsupportedStyle(key: string, cls: string)

  /** No key occurs twice, as in the dictionaries the DSL nodes carry; used to show an input could come from one. */
  ghost predicate DistinctKeys(kvs: seq<(string, string)>) {
    forall i, j :: 0 <= i < j < |kvs| ==> kvs[i].0 != kvs[j].0
  }
}
