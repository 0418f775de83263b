/** The single saved snapshot: what saveCode writes under a fixed
    localStorage key and what loadCode makes of whatever it finds there.
    JSON.stringify and JSON.parse are not modelled; the editor receives them
    as functions, and only the facts the round trip needs are assumed about
    them, as preconditions of the lemma that states it. */
module Persistence {
  import opened Wrappers

  /** The one key the editor reads and writes. */
  const StorageKey: string := "miniCodeEditor_savedCode"

  /** The object saveCode serialises: the three panes and when they were saved. */
  datatype Snapshot = Snapshot(html: string, css: string, js: string, timestamp: string)

  /** A property value of the parsed object, as far as `value || ''` and the
      assignment to textContent can tell them apart: a string, a falsy
      non-string (false, 0, null), or a truthy non-string together with the
      text it converts to. */
  datatype JsValue = Str(s: string) | Falsy | Other(text: string)

  /** What JSON.parse returns: null, on which reading a property throws, or
      any other value, with its html, css and js properties (None when the
      property is missing, as it is on numbers, strings and booleans). */
  datatype Parsed =
    | Null
    | Value(html: Option<JsValue>, css: Option<JsValue>, js: Option<JsValue>)

  /** The texts of the three panes. */
  datatype Panes = Panes(html: string, css: string, js: string)

  /** The three ways loadCode can end. */
  datatype LoadOutcome = NothingSaved | Unreadable | Loaded(panes: Panes)

  /** What JSON.parse gives back for the text JSON.stringify made of s (the
      timestamp property is there too, but loadCode never reads it). */
  function Revived(s: Snapshot): Parsed
  {
    Value(Some(Str(s.html)), Some(Str(s.css)), Some(Str(s.js)))
  }

  /** localStorage.getItem(StorageKey). */
  function GetItem(storage: map<string, string>): (item: Option<string>)
    ensures item.Some? <==> StorageKey in storage
    ensures item.Some? ==> item.value == storage[StorageKey]
  {
    if StorageKey in storage then Some(storage[StorageKey]) else None
  }

  /** `v || ''`, as assigned to a pane's textContent. */
  function PaneText(v: Option<JsValue>): (text: string)
    ensures v.None? || v == Some(Falsy) ==> text == ""
    ensures v.Some? && v.value.Str? ==> text == v.value.s
    ensures v.Some? && v.value.Other? ==> text == v.value.text
  {
    match v
    case None => ""
    case Some(Falsy) => ""
    case Some(Str(s)) => s
    case Some(Other(text)) => text
  }

  /** What loadCode does with the stored text. A missing item and an empty
      string are both falsy and both mean "nothing saved". */
  function Restore(saved: Option<string>, parse: string -> Option<Parsed>): (outcome: LoadOutcome)
    ensures outcome.NothingSaved? <==> saved.None? || saved.value == ""
    ensures outcome.Unreadable? <==>
      saved.Some? && saved.value != "" &&
      (parse(saved.value).None? || parse(saved.value) == Some(Null))
    ensures outcome.Loaded? <==>
      saved.Some? && saved.value != "" &&
      parse(saved.value).Some? && parse(saved.value).value.Value?
  {
    if saved.None? || saved.value == "" then NothingSaved
    else match parse(saved.value)
      case None => Unreadable
      case Some(Null) => Unreadable
      case Some(Value(h, c, j)) => Loaded(Panes(PaneText(h), PaneText(c), PaneText(j)))
  }

  /** What a successful load puts in each pane: a missing or falsy
      property gives '', a string property its own text, any other truthy
      value the text it converts to. */
  lemma LoadedPaneTexts(saved: Option<string>, parse: string -> Option<Parsed>)
    ensures Restore(saved, parse).Loaded? ==>
      var p := parse(saved.value).value;
      var loaded := Restore(saved, parse).panes;
      (p.html.None? || p.html == Some(Falsy) ==> loaded.html == "") &&
      (p.html.Some? && p.html.value.Str? ==> loaded.html == p.html.value.s) &&
      (p.html.Some? && p.html.value.Other? ==> loaded.html == p.html.value.text) &&
      (p.css.None? || p.css == Some(Falsy) ==> loaded.css == "") &&
      (p.css.Some? && p.css.value.Str? ==> loaded.css == p.css.value.s) &&
      (p.css.Some? && p.css.value.Other? ==> loaded.css == p.css.value.text) &&
      (p.js.None? || p.js == Some(Falsy) ==> loaded.js == "") &&
      (p.js.Some? && p.js.value.Str? ==> loaded.js == p.js.value.s) &&
      (p.js.Some? && p.js.value.Other? ==> loaded.js == p.js.value.text)
  {
  }

  /** Save followed by Load gives back exactly the three panes that were
      saved, whatever else the storage holds and whatever the timestamp was,
      provided JSON.parse inverts JSON.stringify on the snapshot and the
      serialised text is not empty (JSON text for an object never is). */
  lemma SaveThenLoad(storage: map<string, string>, s: Snapshot,
                     stringify: Snapshot -> string, parse: string -> Option<Parsed>)
    requires parse(stringify(s)) == Some(Revived(s))
    requires stringify(s) != ""
    ensures Restore(GetItem(storage[StorageKey := stringify(s)]), parse) ==
      Loaded(Panes(s.html, s.css, s.js))
  {
  }
}
