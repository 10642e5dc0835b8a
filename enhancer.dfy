/** The entry point of the prompt enhancer: reject a missing or blank text,
    look the requested type up in the strategy table (unknown types fall back
    to the general strategy) and run the strategy on the trimmed text. */
module Enhancer {
  import opened JsString
  import opened Heuristics
  import opened Templates

  /** A value that may be absent (`null` or `undefined`). */
  datatype Option<T> = None | Some(value: T)

  /** The key each strategy is registered under in the table. */
  function KeyOf(c: Category): string {
    match c
    case Code => "code"
    case Creative => "creative"
    case Analysis => "analysis"
    case Business => "business"
    case General => "general"
  }

  /** `this.strategies[type] || this.strategies.general`. */
  function Lookup(key: string): (c: Category)
    ensures c != General ==> key == KeyOf(c)
  {
    if key == "code" then Code
    else if key == "creative" then Creative
    else if key == "analysis" then Analysis
    else if key == "business" then Business
    else General
  }

  /** The type parameter defaults to `'general'` when it is not given. */
  function KeyOrDefault(key: Option<string>): (k: string)
    ensures key.Some? ==> k == key.value
    ensures key.None? ==> Lookup(k) == General
  {
    if key.None? then "general" else key.value
  }

  /** `enhance(text, type)`: `null` for a missing or blank text, otherwise the
      strategy for the type applied to the trimmed text. */
  function Enhance(text: Option<string>, key: Option<string>): (r: Option<string>)
    ensures r.None? <==> text.None? || AllSpace(text.value)
    ensures r.Some? ==> r.value == Strategy(Lookup(KeyOrDefault(key)), Trim(text.value))
  {
    if text.None? then None
    else
      TrimEmptyIff(text.value);
      var trimmed := Trim(text.value);
      if |trimmed| == 0 then None
      else Some(Strategy(Lookup(KeyOrDefault(key)), trimmed))
  }

  /** Every strategy is found under its own key. */
  lemma LookupKeyOf(c: Category)
    ensures Lookup(KeyOf(c)) == c
  {
  }

  /** A type that is not a key of the table selects the general strategy. */
  lemma LookupUnknown(key: string)
    requires forall c: Category :: key != KeyOf(c)
    ensures Lookup(key) == General
  {
    assert key != KeyOf(Code) && key != KeyOf(Creative) && key != KeyOf(Analysis) && key != KeyOf(Business);
  }

  /** An unknown type, the type `'general'` and no type at all give the same result. */
  lemma EnhanceUnknownTypeIsGeneral(text: Option<string>, key: string)
    requires forall c: Category :: key != KeyOf(c) || c == General
    ensures Enhance(text, Some(key)) == Enhance(text, Some("general")) == Enhance(text, None)
  {
    assert key != KeyOf(Code) && key != KeyOf(Creative) && key != KeyOf(Analysis) && key != KeyOf(Business);
  }

  /** The text is trimmed before anything else: surrounding white space never changes the result. */
  lemma EnhanceIgnoresSurroundingSpace(text: string, key: Option<string>)
    ensures Enhance(Some(text), key) == Enhance(Some(Trim(text)), key)
  {
    TrimOfTrimmed(Trim(text));
    TrimEmptyIff(text);
    TrimEmptyIff(Trim(text));
  }

  /** A non-blank text under the key of a strategy gets exactly that strategy. */
  lemma EnhanceDispatches(text: string, c: Category)
    requires !AllSpace(text)
    ensures Enhance(Some(text), Some(KeyOf(c))) == Some(Strategy(c, Trim(text)))
  {
    LookupKeyOf(c);
  }

  /** Every enhanced prompt opens with the strategy's title and the echoed text. */
  lemma EnhanceOpening(text: string, key: Option<string>)
    requires !AllSpace(text)
    ensures var c, t := Lookup(KeyOrDefault(key)), Trim(text);
      var out, first := Enhance(Some(text), key).value, "**" + TitleText(LeadTitle(c)) + "**: " + LeadValue(c, Extract(t)) + "\n";
      |first| <= |out| && out[..|first|] == first
  {
    var c, t := Lookup(KeyOrDefault(key)), Trim(text);
    assert Enhance(Some(text), key) == Some(Strategy(c, t));
    StrategyOpening(c, t);
  }

  /** Every enhanced prompt contains the goal (code) or the capitalised trimmed text (the others). */
  lemma EnhanceEchoesText(text: string, key: Option<string>)
    requires !AllSpace(text)
    ensures var c, t, out := Lookup(KeyOrDefault(key)), Trim(text), Enhance(Some(text), key).value;
      (c == Code ==> Contains(out, ExtractMainGoal(t))) && (c != Code ==> Contains(out, CapitalizeFirst(t)))
  {
    var c, t := Lookup(KeyOrDefault(key)), Trim(text);
    assert Enhance(Some(text), key) == Some(Strategy(c, t));
    StrategyEchoesText(c, t);
  }

  // ------------------------------------------- the lookup as the source writes it

  /** The names every object inherits from `Object.prototype`, the strategy table included. */
  const InheritedKeys: seq<string> := [
    "constructor", "hasOwnProperty", "isPrototypeOf", "propertyIsEnumerable",
    "toLocaleString", "toString", "valueOf", "__proto__",
    "__defineGetter__", "__defineSetter__", "__lookupGetter__", "__lookupSetter__"
  ]

  /** What the property access `this.strategies[type]` finds: one of the table's
      own strategies, a member inherited from `Object.prototype`, or nothing. */
  datatype Entry = Own(c: Category) | Inherited(name: string) | Missing

  function TableEntry(key: string): (e: Entry)
    ensures e.Own? ==> key == KeyOf(e.c)
    ensures e.Inherited? ==> e.name == key && key in InheritedKeys
  {
    if key == "code" then Own(Code)
    else if key == "creative" then Own(Creative)
    else if key == "analysis" then Own(Analysis)
    else if key == "business" then Own(Business)
    else if key == "general" then Own(General)
    else if key in InheritedKeys then Inherited(key)
    else Missing
  }

  /** `this.strategies[type] || this.strategies.general`: the fallback is taken
      only when the access finds nothing. */
  function SelectedAsWritten(key: string): (e: Entry)
    ensures !e.Missing?
    ensures e.Inherited? <==> key in InheritedKeys
  {
    var e := TableEntry(key);
    assert forall c: Category :: KeyOf(c) !in InheritedKeys;
    if e.Missing? then Own(General) else e
  }

  /** As written, a type naming an inherited member selects that member, which
      is not a strategy, instead of falling back to the general strategy. */
  lemma InheritedKeyBypassesFallback(key: string)
    requires key in InheritedKeys
    ensures SelectedAsWritten(key) == Inherited(key)
  {
    assert forall c: Category :: KeyOf(c) !in InheritedKeys;
  }

  /** On every other type the source's lookup and `Lookup` agree. */
  lemma SelectedAsWrittenElsewhere(key: string)
    requires key !in InheritedKeys
    ensures SelectedAsWritten(key) == Own(Lookup(key))
  {
  }
}
