# GTK DSL transpiler — Dafny model

This project models `GtkDslTranspiler.TranspileToUiXml` in `dsl.cs`. The function turns a tree of
DSL widget nodes into a GTK Builder `object` tree. Along the way it checks every widget name,
attribute, event binding and inline style against six fixed rule tables, and the first failed
check aborts the whole call.

Layout:

- `results.dfy` (`Results`): `Option` and a `Result` that stands in for thrown exceptions.
- `ascii.dfy` (`Ascii`): the ordinal `"on"` prefix test and the ASCII case-insensitive comparison
  used for event names.
- `tables.dfy` (`Tables`): the six rule tables, transcribed entry for entry. `WidgetMap`,
  `PropertyAliases`, `WidgetProperties`, `WidgetStyles` and `WidgetSignals` are lookup
  functions that return `Some` of the entry for a key the dictionary holds and `None` for any
  other key. This is the source's `ContainsKey`/`TryGetValue` pair in one call.
  `SignalNameMap` is a list of rows, because it is looked up ignoring case. The file also holds
  the alias and event lookups and the lemmas about the tables themselves.
- `trees.dfy` (`Trees`): the input `Node` (name, attribute list, style list, children), the
  output `Obj` (class, id, property/signal entries, optional style block, child objects) and
  the four errors.
- `transpiler.dfy` (`Transpiler`): the translation. There is one function for each loop of the
  source: attributes, styles and children.
- `reference.dfy` (`Reference`): a declarative description of the intended result. It has no
  fail-fast recursion. `Translates(n, o)` relates a node tree to the object tree it should
  become. `Whitelisted(o)` is the output invariant. `Verdicts(n)` lists every check in
  depth-first order, and `FirstFailure` picks the first one that failed.
- `theorems.dfy` (`Theorems`): lemmas connecting `Transpile` to the reference: an
  if-and-only-if, first-failure reporting, whitelist soundness, shape preservation and the
  style policy.
- `scenarios.dfy` (`Scenarios`): concrete trees worked through the transpiler.

Two details of `dsl.cs` shape the model:

- Line 121 of `dsl.cs` skips the attribute loop entirely when the class has no property
  whitelist. It does not reject the attributes. `Transpile` keeps that branch.
  `Tables.EveryWidgetClassHasProperties` proves the branch can never be taken with these
  tables. The reference definitions therefore state the stricter "reject" reading, and the
  two agree.
- No class whitelists a literal `width`, so alias-before-check is shown through the
  `width` → `default_width` alias: a window accepts it and a box rejects it.

## Model

| member | source | states |
|---|---|---|
| Trees.Node | dsl.cs:170-176 | an `XmlElement`: widget name, attributes and styles as lists in the dictionaries' enumeration order, and children in order; repeated keys not excluded; no contract |
| Trees.Entry | dsl.cs:125-141 | a `signal` element (signal name, handler) or a `property` element (canonical name, text) added to an `object`; no contract |
| Trees.StyleProp | dsl.cs:150-155 | a `property` element (style name, text) inside the `style` element; no contract |
| Trees.Obj | dsl.cs:115-163 | an `object` element: class and id attributes, then its `property`/`signal` elements in attribute order, then the optional `style` element, then the child objects in order, as the source adds them; no contract |
| Trees.Err | dsl.cs:112-154 | one variant per `throw`: unsupported widget (the DSL name), signal, property or style (the DSL key and the GTK class), carrying the same key and class as the message; no contract |
| Tables.WidgetMap | dsl.cs:8-29 | DSL widget name to GTK class, transcribed entry for entry; `None` for a name the dictionary lacks; no contract |
| Tables.PropertyAliases | dsl.cs:32-47 | DSL property key to canonical GTK property, transcribed entry for entry; no contract |
| Tables.WidgetProperties | dsl.cs:50-71 | GTK class to its property whitelist, transcribed entry for entry; no contract |
| Tables.WidgetStyles | dsl.cs:74-83 | GTK class to its style whitelist, transcribed entry for entry; no contract |
| Tables.WidgetSignals | dsl.cs:86-96 | GTK class to its signal whitelist, transcribed entry for entry; no contract |
| Tables.SignalNameMap | dsl.cs:99-107 | the event table, transcribed row for row; its well-formedness is `Tables.SignalNameMapWellFormed`; no contract |
| Tables.Alias | dsl.cs:134-136 | the property name an attribute is checked under: the alias when the key has one, else the key; no contract |
| Tables.LookupSignal | dsl.cs:125-127 | the case-insensitive read of the event table; what it returns is stated by `Tables.FindIgnoreCase` and `Theorems.SignalLookupAgrees`; no contract |
| Tables.IsSignalKey | dsl.cs:125 | the line-125 test that sends an attribute down the signal path; `Theorems.SignalKeyClassified` relates it to the event table; no contract |
| Ascii.EqualsIgnoreCase | dsl.cs:99 | the `OrdinalIgnoreCase` key comparison of the event table, for ASCII letters; no contract |
| Ascii.StartsWith | dsl.cs:125 | the `"on"` prefix test, as an ordinal comparison; no contract |
| Tables.EveryWidgetClassHasProperties | dsl.cs:8-71 | every class a DSL widget resolves to has a property whitelist, so the guard on the attribute loop always holds and attributes are never silently skipped |
| Tables.SignalNameMapWellFormed | dsl.cs:99-107 | every event-table key starts with "on", and no two keys are equal up to case, as a case-insensitive dictionary requires |
| Tables.FindIgnoreCase | dsl.cs:99-107 | the case-insensitive lookup finds a value exactly when some key equals the queried key up to case, and the value it returns belongs to such a key |
| Tables.FindIgnoreCaseFirstMatch | dsl.cs:99-107 | the lookup returns the value of the first row whose key equals the queried key up to case |
| Tables.FindIgnoreCaseUnique | dsl.cs:99-107 | when keys are distinct up to case, the lookup returns the value of whichever row matches, so the result does not depend on row order |
| Transpiler.TranslateAttribute | dsl.cs:123-142 | an accepted attribute yields a signal exactly when it is an event binding; signals and properties are whitelisted for the class and carry the attribute's value unchanged; a rejection names the original key and the class, and is a signal error exactly for event bindings |
| Transpiler.TranslateProps | dsl.cs:121-144 | the attribute loop succeeds exactly when every attribute is accepted, emitting their entries one for one in order; otherwise it returns the error of the first rejected attribute, and all earlier ones were accepted |
| Transpiler.TranslateStyles | dsl.cs:150-155 | the style loop succeeds exactly when every style key is whitelisted, copying names and values unchanged and in order; otherwise it reports the first style key outside the whitelist |
| Transpiler.StyleBlock | dsl.cs:147-157 | no style block and no failure when the class has no style whitelist or the node has no styles; a block that is emitted is non-empty, has one entry per style, and belongs to a class with a style whitelist |
| Transpiler.Transpile | dsl.cs:110-118 | an unknown widget name fails with an unsupported-widget error carrying that name; on success the object's class is the mapped class, its id is the DSL name, and it has as many children as the node |
| Transpiler.TranspileChildren | dsl.cs:159-163 | the child loop succeeds exactly when every child transpiles, giving their objects in order; otherwise it returns the error of the first failing child, and all earlier children succeeded |
| Theorems.SignalKeyClassified | dsl.cs:99-125 | an attribute is treated as an event binding exactly when it starts with "on" and matches an event-table key up to case |
| Theorems.SignalLookupAgrees | dsl.cs:99-127 | the lookup yields a signal exactly when some event-table key matching the attribute up to case maps to it |
| Theorems.AttributeAgrees | dsl.cs:123-142 | an attribute yields entry e exactly when the reference admits e: event bindings become whitelisted signals with the value as handler, and every other key is aliased first and then checked against the property whitelist |
| Theorems.AttributeVerdictAgrees | dsl.cs:125-139 | an attribute is rejected exactly when it admits no entry; the error is a signal error for event bindings and a property error otherwise, always under the original key |
| Theorems.PropsAgree | dsl.cs:121-144 | the attribute loop emits a list exactly when that list has, position by position, the entry the reference admits for each attribute |
| Theorems.StyleBlockAgrees | dsl.cs:147-157 | the style block emitted is exactly the one the style policy prescribes: absent when styles are ignored, otherwise every style, whitelisted, in order, unchanged |
| Theorems.TranspileAgrees | dsl.cs:110-166 | transpiling a node succeeds with object o if and only if o translates the node: mapped class, DSL name as id, admitted entries in attribute order, the prescribed style block, and children that translate the node's children in order |
| Theorems.ChildrenAgree | dsl.cs:159-163 | the child loop yields a list of objects exactly when that list translates the children one for one |
| Theorems.TranslatesWhitelisted | dsl.cs:115-163 | every object of a translation has a mapped class; its properties, signals and styles are all whitelisted for that class; its signals come from the event table |
| Theorems.TranspileOutputWhitelisted | dsl.cs:110-166 | every object tree the transpiler returns satisfies the whitelist invariant at every depth |
| Theorems.TranslatesPreservesShape | dsl.cs:159-163 | a translation has exactly the nesting and child order of its input tree |
| Theorems.TranspilePreservesShape | dsl.cs:110-166 | on success the output tree has the input tree's shape |
| Theorems.PropsReportFirstFailure | dsl.cs:123-143 | the attribute loop's error is exactly the first failing attribute check in enumeration order, and there is none when no check fails |
| Theorems.StylesReportFirstFailure | dsl.cs:147-157 | the style block's error is exactly the first failing style check in enumeration order; no style is checked when styles are ignored |
| Theorems.TranspileReportsFirstFailure | dsl.cs:110-166 | the transpiler fails exactly when some check in the tree fails, and then with the first failing check in depth-first order: widget name, then attributes, then styles, then each child in turn |
| Theorems.ChildrenReportFirstFailure | dsl.cs:159-163 | the child loop's error is the first failing check across the children, taken in order |
| Theorems.DescendantFailureAbortsRoot | dsl.cs:159-163 | if any node reachable from the root fails to transpile, the whole call fails |
| Theorems.UnknownWidgetRejectedFirst | dsl.cs:112-113 | a node whose name is not a DSL widget fails naming it, whatever its attributes, styles and children |
| Theorems.UnlistedPropertyRejected | dsl.cs:134-139 | an attribute that is not an event binding and whose alias is not whitelisted fails under its own key, before any style or child is examined |
| Theorems.StylesIgnoredWithoutWhitelist | dsl.cs:147-157 | on a class with no style whitelist, replacing the styles with any others does not change the result, and no style block is emitted |
| Scenarios.ButtonWithClickHandler | dsl.cs:123-141 | a Button with label "OK" and onClick yields a label property followed by a "clicked" signal carrying the handler |
| Scenarios.LowerCaseEventName | dsl.cs:99-130 | "onclick" matches the event key "onClick" ignoring case and binds "clicked" |
| Scenarios.CapitalisedPrefixIsAProperty | dsl.cs:125-139 | "OnClick" fails the case-sensitive "on" prefix test, falls through to the property path, and is rejected as a property |
| Scenarios.EventOnLabelRejected | dsl.cs:125-129 | a known event on a class with no signal whitelist is rejected as an unsupported signal |
| Scenarios.EntryPlaceholderAliased | dsl.cs:134-141 | "placeholder" on an Entry is emitted as "placeholder_text" with its value unchanged |
| Scenarios.WidthAliasedPerClass | dsl.cs:134-141 | "width" is aliased before the whitelist check: on a Window it is emitted as "default_width"; on a Box, whose whitelist lacks "default_width", it fails under the key "width" |
| Scenarios.AliasesMayCollide | dsl.cs:134-141 | on an Entry the distinct keys "value" and "text" both produce a "text" property, and both entries are emitted |
| Scenarios.LabelStyleBlock | dsl.cs:147-157 | a Label's font-size style is emitted in a style block unchanged |
| Scenarios.GridStylesIgnored | dsl.cs:147-157 | a Grid has no style whitelist, so an unknown style key is ignored and no block is emitted |
| Scenarios.UnknownWidget | dsl.cs:112-113 | the name "Unknown" is rejected as an unsupported widget |
| Scenarios.UnknownButtonProperty | dsl.cs:134-139 | a Button with the attribute "foo" is rejected as an unsupported property of GtkButton |
| Scenarios.ChildErrorAbortsWindow | dsl.cs:159-163 | a Window whose Button child has an unknown property fails with the child's error, and no window object is produced |

## Left out

- Building the XML itself is not modelled. That covers `XDocument`, `XElement` and `XAttribute`
  construction, and wrapping each child in a document and then taking its root. `Obj` holds
  the same information in order: entries, then the style block, then the children. Serialising
  it is the XML library's job.
- The wording of the exception messages is not modelled. Each `throw` becomes the matching
  `Err` variant, carrying the same key and class.
- The `"on"` prefix test is modelled as an ordinal comparison. The source's `StartsWith` is
  culture-sensitive, and the two can disagree. For example, the culture-sensitive test skips
  zero-weight characters such as U+0000, so `"\0onX".StartsWith("on")` holds at line 125 while
  the ordinal test fails. The difference never changes the path an attribute takes. A key on
  which the tests disagree does not match any event-table key under `OrdinalIgnoreCase` on the
  same line, so in both it falls through to the property path.
- Event names are compared by folding ASCII letters only. The source's `OrdinalIgnoreCase`
  also matches non-ASCII characters whose upper-case form is an ASCII letter; that is not
  modelled.
- `Dictionary` hashing and enumeration order are not modelled. Attributes and styles are lists
  in the order the source's dictionaries enumerate them. .NET leaves that order unspecified;
  for a dictionary filled only by `Add`, it is insertion order.
- Repeated keys are not excluded. Dictionaries cannot hold them, but the model translates any
  list. `Trees.DistinctKeys` is used to show a scenario's input could come from a dictionary.
- `null` names, values and children are not modelled, nor the library exceptions they would
  raise. Model strings are never null.
- Stack depth is not modelled. Recursion in the model is unbounded.
- There is no determinism lemma. Every operation is a pure function, so equal inputs give
  equal outputs by construction.
