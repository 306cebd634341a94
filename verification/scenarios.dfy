/** Worked examples of the transpiler on concrete widget trees. */
module Scenarios {
  import opened Results
  import opened Ascii
  import opened Tables
  import opened Trees
  import opened Transpiler

  /** An "on"-prefixed key that matches row `i` of the event table up to case binds that row's signal. */
  lemma EventRow(key: string, i: nat)
    requires i < |SignalNameMap| && StartsWith(key, "on") && EqualsIgnoreCase(SignalNameMap[i].0, key)
    ensures IsSignalKey(key) && LookupSignal(key) == Some(SignalNameMap[i].1)
  {
    SignalNameMapWellFormed();
    FindIgnoreCaseUnique(SignalNameMap, key, i);
  }

  /** A key whose first character is not 'o' cannot bind an event. */
  lemma NotAnEvent(key: string)
    requires |key| > 0 && key[0] != 'o'
    ensures !IsSignalKey(key)
  {
  }

  /** A one-attribute list yields the attribute's entry or its error. */
  lemma SingleAttribute(key: string, value: string, cls: string)
    requires WidgetProperties(cls).Some?
    ensures TranslateProps([(key, value)], cls)
         == (var r := TranslateAttribute(key, value, cls); if r.Ok? then Ok([r.value]) else Fail(r.error))
  {
    var r := TranslateProps([(key, value)], cls);
    if r.Ok? {
      assert |r.value| == 1 && r.value[0] == TranslateAttribute(key, value, cls).value;
      assert r.value == [TranslateAttribute(key, value, cls).value];
    }
  }

  /** The attribute loop emits the per-attribute entries when every attribute is accepted. */
  lemma PropsFromAttributes(props: seq<(string, string)>, cls: string, es: seq<Entry>)
    requires WidgetProperties(cls).Some? && |es| == |props|
    requires forall i :: 0 <= i < |props| ==> TranslateAttribute(props[i].0, props[i].1, cls) == Ok(es[i])
    ensures TranslateProps(props, cls) == Ok(es)
  {
    var r := TranslateProps(props, cls);
    assert r.Ok? && |r.value| == |es|;
    forall i | 0 <= i < |es|
      ensures r.value[i] == es[i]
    {
      assert TranslateAttribute(props[i].0, props[i].1, cls) == Ok(r.value[i]);
    }
    assert r.value == es;
  }

  /** A childless node of a known widget whose attributes and styles pass becomes a childless object. */
  lemma LeafSucceeds(name: string, props: seq<(string, string)>, styles: seq<(string, string)>,
                     entries: seq<Entry>, block: Option<seq<StyleProp>>)
    requires WidgetMap(name).Some? && WidgetProperties(WidgetMap(name).value).Some?
    requires TranslateProps(props, WidgetMap(name).value) == Ok(entries)
    requires StyleBlock(styles, WidgetMap(name).value) == Ok(block)
    ensures Transpile(Node(name, props, styles, [])) == Ok(Obj(WidgetMap(name).value, name, entries, block, []))
  {
  }

  /** The attributes of the button example: the label stays a property, onClick becomes a signal. */
  lemma ButtonAttributes()
    ensures TranslateProps([("label", "OK"), ("onClick", "on_ok_clicked")], "GtkButton")
         == Ok([Property("label", "OK"), Signal("clicked", "on_ok_clicked")])
  {
    NotAnEvent("label");
    assert TranslateAttribute("label", "OK", "GtkButton") == Ok(Property("label", "OK"));
    EventRow("onClick", 0);
    assert TranslateAttribute("onClick", "on_ok_clicked", "GtkButton") == Ok(Signal("clicked", "on_ok_clicked"));
    var props := [("label", "OK"), ("onClick", "on_ok_clicked")];
    assert props[0] == ("label", "OK") && props[1] == ("onClick", "on_ok_clicked");
    PropsFromAttributes(props, "GtkButton", [Property("label", "OK"), Signal("clicked", "on_ok_clicked")]);
  }

  /** A button's label is a property and its onClick binding becomes the "clicked" signal. */
  lemma ButtonWithClickHandler()
    ensures Transpile(Node("Button", [("label", "OK"), ("onClick", "on_ok_clicked")], [], []))
         == Ok(Obj("GtkButton", "Button", [Property("label", "OK"), Signal("clicked", "on_ok_clicked")], None, []))
  {
    ButtonAttributes();
    LeafSucceeds("Button", [("label", "OK"), ("onClick", "on_ok_clicked")], [],
                 [Property("label", "OK"), Signal("clicked", "on_ok_clicked")], None);
  }

  /** Event names match ignoring case after the prefix: "onclick" still binds "clicked". */
  lemma LowerCaseEventName()
    ensures Transpile(Node("Button", [("onclick", "h")], [], []))
         == Ok(Obj("GtkButton", "Button", [Signal("clicked", "h")], None, []))
  {
    assert Fold('C') == 'c';
    EventRow("onclick", 0);
    SingleAttribute("onclick", "h", "GtkButton");
  }

  /** The "on" prefix itself is case-sensitive: "OnClick" is treated as a property and rejected. */
  lemma CapitalisedPrefixIsAProperty()
    ensures Transpile(Node("Button", [("OnClick", "h")], [], []))
         == Fail(UnsupportedProperty("OnClick", "GtkButton"))
  {
    NotAnEvent("OnClick");
    SingleAttribute("OnClick", "h", "GtkButton");
  }

  /** A known event on a class with no signal whitelist is rejected. */
  lemma EventOnLabelRejected()
    ensures Transpile(Node("Label", [("onClick", "h")], [], []))
         == Fail(UnsupportedSignal("onClick", "GtkLabel"))
  {
    EventRow("onClick", 0);
    assert TranslateAttribute("onClick", "h", "GtkLabel") == Fail(UnsupportedSignal("onClick", "GtkLabel"));
  }

  /** "placeholder" is aliased to "placeholder_text" before the whitelist check. */
  lemma EntryPlaceholderAliased()
    ensures Transpile(Node("Entry", [("placeholder", "Type here")], [], []))
         == Ok(Obj("GtkEntry", "Entry", [Property("placeholder_text", "Type here")], None, []))
  {
    NotAnEvent("placeholder");
    SingleAttribute("placeholder", "Type here", "GtkEntry");
  }

  /**
   * "width" is aliased to "default_width" before the whitelist check: a window
   * accepts it, a box does not, and the box's error names the DSL key.
   */
  lemma WidthAliasedPerClass()
    ensures Transpile(Node("Window", [("width", "400")], [], []))
         == Ok(Obj("GtkWindow", "Window", [Property("default_width", "400")], None, []))
    ensures Transpile(Node("Box", [("width", "400")], [], []))
         == Fail(UnsupportedProperty("width", "GtkBox"))
  {
    NotAnEvent("width");
    SingleAttribute("width", "400", "GtkWindow");
    SingleAttribute("width", "400", "GtkBox");
  }

  /** "value" and "text" both resolve to the entry's "text" property. */
  lemma CollidingAttributes()
    ensures TranslateProps([("value", "a"), ("text", "b")], "GtkEntry")
         == Ok([Property("text", "a"), Property("text", "b")])
  {
    NotAnEvent("value");
    NotAnEvent("text");
    assert TranslateAttribute("value", "a", "GtkEntry") == Ok(Property("text", "a"));
    assert TranslateAttribute("text", "b", "GtkEntry") == Ok(Property("text", "b"));
    var props := [("value", "a"), ("text", "b")];
    assert props[0] == ("value", "a") && props[1] == ("text", "b");
    PropsFromAttributes(props, "GtkEntry", [Property("text", "a"), Property("text", "b")]);
  }

  /** Two distinct DSL keys may alias to the same GTK property: both entries are emitted. */
  lemma AliasesMayCollide()
    ensures DistinctKeys([("value", "a"), ("text", "b")])
    ensures Transpile(Node("Entry", [("value", "a"), ("text", "b")], [], []))
         == Ok(Obj("GtkEntry", "Entry", [Property("text", "a"), Property("text", "b")], None, []))
  {
    CollidingAttributes();
    LeafSucceeds("Entry", [("value", "a"), ("text", "b")], [], [Property("text", "a"), Property("text", "b")], None);
  }

  /** A label's styles are checked and copied into a style block. */
  lemma LabelStyleBlock()
    ensures Transpile(Node("Label", [], [("font-size", "14px")], []))
         == Ok(Obj("GtkLabel", "Label", [], Some([StyleProp("font-size", "14px")]), []))
  {
    assert "font-size" in WidgetStyles("GtkLabel").value;
    var r := TranslateStyles([("font-size", "14px")], "GtkLabel");
    assert r.Ok? && |r.value| == 1 && r.value[0] == StyleProp("font-size", "14px");
    assert r.value == [StyleProp("font-size", "14px")];
  }

  /** A grid has no style whitelist, so even unknown style keys are ignored. */
  lemma GridStylesIgnored()
    ensures Transpile(Node("Grid", [], [("no-such-style", "x")], []))
         == Ok(Obj("GtkGrid", "Grid", [], None, []))
  {
    assert WidgetStyles("GtkGrid").None?;
  }

  /** An unknown widget name is rejected. */
  lemma UnknownWidget()
    ensures Transpile(Node("Unknown", [], [], [])) == Fail(UnsupportedWidget("Unknown"))
  {
  }

  /** A button with an unknown property is rejected under that property's key. */
  lemma UnknownButtonProperty()
    ensures Transpile(Node("Button", [("foo", "bar")], [], [])) == Fail(UnsupportedProperty("foo", "GtkButton"))
  {
    NotAnEvent("foo");
    SingleAttribute("foo", "bar", "GtkButton");
  }

  /** The child loop over that one button fails with the button's error. */
  lemma UnknownButtonPropertyAsChild()
    ensures TranspileChildren([Node("Button", [("foo", "bar")], [], [])])
         == Fail(UnsupportedProperty("foo", "GtkButton"))
  {
    UnknownButtonProperty();
  }

  /** A window's title is a plain property. */
  lemma WindowTitle()
    ensures TranslateProps([("title", "App")], "GtkWindow") == Ok([Property("title", "App")])
  {
    NotAnEvent("title");
    SingleAttribute("title", "App", "GtkWindow");
  }

  /** An invalid property on a child aborts the whole tree with the child's error. */
  lemma ChildErrorAbortsWindow()
    ensures Transpile(Node("Window", [("title", "App")], [], [Node("Button", [("foo", "bar")], [], [])]))
         == Fail(UnsupportedProperty("foo", "GtkButton"))
  {
    WindowTitle();
    UnknownButtonPropertyAsChild();
  }
}
