/**
 * The six rule tables of the GTK DSL transpiler, fixed at start-up and
 * never changed, together with the lookups the transpiler performs on them.
 * Each dictionary is a lookup function: `Some` of the entry for a key it
 * holds, `None` for any other key.
 */
module Tables {
  import opened Results
  import opened Ascii

  /** DSL widget name to GTK class name; its keys are the supported widgets. */
  function WidgetMap(name: string): Option<string> {
    match name
      case "Window" => Some("GtkWindow")
      case "ApplicationWindow" => Some("GtkApplicationWindow")
      case "Box" => Some("GtkBox")
      case "Grid" => Some("GtkGrid")
      case "Button" => Some("GtkButton")
      case "Entry" => Some("GtkEntry")
      case "Label" => Some("GtkLabel")
      case "CheckButton" => Some("GtkCheckButton")
      case "RadioButton" => Some("GtkRadioButton")
      case "ToggleButton" => Some("GtkToggleButton")
      case "Image" => Some("GtkImage")
      case "ProgressBar" => Some("GtkProgressBar")
      case "Notebook" => Some("GtkNotebook")
      case "Stack" => Some("GtkStack")
      case "FlowBox" => Some("GtkFlowBox")
      case "ScrolledWindow" => Some("GtkScrolledWindow")
      case "TextView" => Some("GtkTextView")
      case "ComboBoxText" => Some("GtkComboBoxText")
      case "Scale" => Some("GtkScale")
      case _ => None
  }

  /** CSS/HTML-style property names to canonical GTK property names. */
  function PropertyAliases(key: string): Option<string> {
    match key
      case "width" => Some("default_width")
      case "height" => Some("default_height")
      case "margin-top" => Some("margin_top")
      case "margin-bottom" => Some("margin_bottom")
      case "margin-left" => Some("margin_start")
      case "margin-right" => Some("margin_end")
      case "halign" => Some("halign")
      case "valign" => Some("valign")
      case "placeholder" => Some("placeholder_text")
      case "value" => Some("text")
      case "checked" => Some("active")
      case "label" => Some("label")
      case "src" => Some("file")
      case _ => None
  }

  /** GTK class to the canonical property names it accepts. */
  function WidgetProperties(cls: string): Option<set<string>> {
    match cls
      case "GtkWindow" => Some({"title", "default_width", "default_height", "resizable", "modal",
                                "decorated"})
      case "GtkApplicationWindow" => Some({"title", "default_width", "default_height", "resizable", "modal",
                                           "decorated"})
      case "GtkBox" => Some({"orientation", "spacing", "homogeneous", "halign", "valign", "margin",
                             "margin_start", "margin_end", "margin_top", "margin_bottom"})
      case "GtkGrid" => Some({"row_spacing", "column_spacing", "margin", "margin_top", "margin_bottom",
                              "margin_start", "margin_end"})
      case "GtkButton" => Some({"label", "image", "sensitive", "tooltip_text", "halign", "valign", "margin"})
      case "GtkEntry" => Some({"text", "placeholder_text", "editable", "visibility", "max_length",
                               "activates_default", "halign", "valign"})
      case "GtkLabel" => Some({"label", "halign", "valign", "wrap", "ellipsize"})
      case "GtkCheckButton" => Some({"label", "active", "halign", "valign"})
      case "GtkRadioButton" => Some({"label", "active", "group", "halign", "valign"})
      case "GtkToggleButton" => Some({"label", "active", "halign", "valign"})
      case "GtkImage" => Some({"file", "icon_name", "pixbuf"})
      case "GtkProgressBar" => Some({"fraction", "text", "show_text", "pulse_step"})
      case "GtkNotebook" => Some({"tab_pos", "show_tabs", "show_border"})
      case "GtkStack" => Some({"visible_child", "transition_type"})
      case "GtkFlowBox" => Some({"selection_mode", "min_children_per_line", "max_children_per_line"})
      case "GtkScrolledWindow" => Some({"hscrollbar_policy", "vscrollbar_policy", "shadow_type"})
      case "GtkTextView" => Some({"editable", "wrap_mode", "cursor_visible"})
      case "GtkComboBoxText" => Some({"active", "has_entry"})
      case "GtkScale" => Some({"adjustment", "draw_value", "digits"})
      case _ => None
  }

  /** GTK class to the inline style names it accepts; classes without an entry take no styles. */
  function WidgetStyles(cls: string): Option<set<string>> {
    match cls
      case "GtkWindow" => Some({"background-color", "color", "opacity", "margin", "padding", "border",
                                "border-radius"})
      case "GtkBox" => Some({"background-color", "color", "opacity", "margin", "padding", "border",
                             "border-radius"})
      case "GtkButton" => Some({"background-color", "color", "font-size", "font-weight", "font-style",
                                "opacity", "padding", "margin", "border", "border-radius"})
      case "GtkLabel" => Some({"color", "font-size", "font-weight", "font-style", "opacity", "margin",
                               "padding"})
      case "GtkEntry" => Some({"color", "font-size", "font-weight", "font-style", "background-color",
                               "opacity", "padding", "margin"})
      case "GtkCheckButton" => Some({"color", "font-size", "font-weight", "font-style", "background-color",
                                     "opacity", "padding", "margin"})
      case "GtkToggleButton" => Some({"color", "font-size", "font-weight", "font-style", "background-color",
                                      "opacity", "padding", "margin"})
      case _ => None
  }

  /** GTK class to the signal names it accepts. */
  function WidgetSignals(cls: string): Option<set<string>> {
    match cls
      case "GtkWindow" => Some({"delete-event", "destroy", "focus-in-event", "focus-out-event", "map",
                                "unmap", "show", "hide"})
      case "GtkButton" => Some({"clicked", "pressed", "released", "enter", "leave"})
      case "GtkToggleButton" => Some({"toggled", "pressed", "released"})
      case "GtkCheckButton" => Some({"toggled"})
      case "GtkRadioButton" => Some({"toggled"})
      case "GtkEntry" => Some({"activate", "changed", "insert-text", "delete-text", "focus-in-event",
                               "focus-out-event"})
      case "GtkComboBoxText" => Some({"changed"})
      case "GtkScale" => Some({"value-changed", "change-value"})
      case _ => None
  }

  /**
   * DSL event attribute to GTK signal name. Its keys are matched ignoring
   * letter case, so it is kept as a list of rows scanned with that comparison.
   */
  const SignalNameMap: seq<(string, string)> := [
    ("onClick", "clicked"),
    ("onActivate", "activate"),
    ("onChanged", "changed"),
    ("onToggled", "toggled"),
    ("onPress", "pressed"),
    ("onRelease", "released")
  ]

  /** No two rows of a case-insensitive table have keys equal up to case. */
  ghost predicate KeysDistinctIgnoringCase(table: seq<(string, string)>) {
    forall i, j :: 0 <= i < j < |table| ==> !EqualsIgnoreCase(table[i].0, table[j].0)
  }

  /** The canonical property name for a DSL key: its alias if it has one, else the key itself. */
  function Alias(key: string): string {
    match PropertyAliases(key)
      case Some(prop) => prop
      case None => key
  }

  /** Case-insensitive lookup of `key` among the keys of `table`, first matching row wins. */
  function FindIgnoreCase(table: seq<(string, string)>, key: string): (r: Option<string>)
    ensures r.Some? <==> exists i :: 0 <= i < |table| && EqualsIgnoreCase(table[i].0, key)
    ensures r.Some? ==> exists i :: 0 <= i < |table| && EqualsIgnoreCase(table[i].0, key) && table[i].1 == r.value
  {
    if table == [] then None
    else if EqualsIgnoreCase(table[0].0, key) then Some(table[0].1)
    else
      var r := FindIgnoreCase(table[1..], key);
      assert forall i :: 0 <= i < |table| - 1 ==> table[1..][i] == table[i + 1];
      r
  }

  /** The lookup returns the value of the first row whose key matches. */
  lemma {:induction false} FindIgnoreCaseFirstMatch(table: seq<(string, string)>, key: string, i: int)
    requires 0 <= i < |table| && EqualsIgnoreCase(table[i].0, key)
    requires forall j :: 0 <= j < i ==> !EqualsIgnoreCase(table[j].0, key)
    ensures FindIgnoreCase(table, key) == Some(table[i].1)
    decreases i
  {
    if i > 0 {
      assert !EqualsIgnoreCase(table[0].0, key);
      assert forall j :: 0 <= j < i - 1 ==> table[1..][j] == table[j + 1];
      FindIgnoreCaseFirstMatch(table[1..], key, i - 1);
    }
  }

  /** When keys are distinct up to case, the lookup returns the value of whichever row matches. */
  lemma {:induction false} FindIgnoreCaseUnique(table: seq<(string, string)>, key: string, i: int)
    requires KeysDistinctIgnoringCase(table)
    requires 0 <= i < |table| && EqualsIgnoreCase(table[i].0, key)
    ensures FindIgnoreCase(table, key) == Some(table[i].1)
  {
    var r := FindIgnoreCase(table, key);
    var j :| 0 <= j < |table| && EqualsIgnoreCase(table[j].0, key) && table[j].1 == r.value;
    if i != j {
      assert EqualsIgnoreCase(table[i].0, table[j].0);
      assert EqualsIgnoreCase(table[j].0, table[i].0);
      assert false;
    }
  }

  /** The signal an event attribute names, looked up ignoring case. */
  function LookupSignal(key: string): Option<string> {
    FindIgnoreCase(SignalNameMap, key)
  }

  /** An attribute is an event binding when it starts with "on" (case-sensitively) and names a known event. */
  predicate IsSignalKey(key: string) {
    StartsWith(key, "on") && LookupSignal(key).Some?
  }

  /** Every DSL widget resolves to a class that has a property whitelist. */
  lemma EveryWidgetClassHasProperties()
    ensures forall w :: WidgetMap(w).Some? ==> WidgetProperties(WidgetMap(w).value).Some?
  {
  }

  /** The event table's keys all carry the "on" prefix and are distinct up to case. */
  lemma SignalNameMapWellFormed()
    ensures KeysDistinctIgnoringCase(SignalNameMap)
    ensures forall i :: 0 <= i < |SignalNameMap| ==> StartsWith(SignalNameMap[i].0, "on")
  {
    var t := SignalNameMap;
    // Keys of equal length differ, up to case, in their third character.
    assert Fold(t[0].0[2]) != Fold(t[4].0[2]);
    assert Fold(t[2].0[2]) != Fold(t[3].0[2]);
    assert Fold(t[2].0[2]) != Fold(t[5].0[2]);
    assert Fold(t[3].0[2]) != Fold(t[5].0[2]);
  }
}
