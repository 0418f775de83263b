# Mini code editor: a Dafny model of its logic

The mini code editor is a browser page with three editable panes (HTML, CSS,
JavaScript) and a preview frame. Beneath its DOM and event wiring sit a few
pieces of logic, and this project models them and proves their properties:

- **Line numbering** (`LineNumbers`, `line_numbers.dfy`). `updateLineNumbers`
  splits a pane's text at `'\n'` and builds `"1\n2\n…N\n"` in a loop. It is
  modelled as the method `UpdateLineNumbers`, with that loop and its
  invariant. The method is proved equal to the recursive definition
  `Numbered(CountNewlines(text) + 1)`. JavaScript's `split('\n')` is modelled
  by `Split`: `Join` undoes it, and it undoes `Join` on `'\n'`-free
  segments. The decimal text of each number is
  modelled by `Decimal`, proved to read back as the number.
- **Document composition** (`Composer`, `composer.dfy`). `runCode` builds the
  document string. The fixed doctype, meta, head and body text are constants,
  and `Compose` states where each pane's text stands in the result, verbatim.
- **Notification style** (`Notification`, `notification.dfy`).
  `showNotification` picks a background from the type tag.
- **Persistence** (`Persistence`, `persistence.dfy`). This covers the single
  localStorage slot under `miniCodeEditor_savedCode` and the three outcomes of
  loading.
- **Editor state** (`MiniEditor.Editor`, `editor.dfy`). A class holds the
  three panes, their `data-line-numbers` annotations, localStorage (a map from
  keys to strings) and the last banner shown. Its methods are the page's
  handlers: `Edit`, `Run`, `Clear`, `Save` and `Load`. `Valid()` says that
  every annotation matches its pane, and every handler keeps it.

Parameters stand in for the browser services:
- `confirm(...)` is the boolean `confirmed`.
- `new Date().toISOString()` is the string `timestamp`.
- `JSON.stringify` is a function `Snapshot -> string`.
- `JSON.parse` is a partial function `string -> Option<Parsed>`, where `None`
  is a thrown parse error.

`Parsed` separates two kinds of result:
- `null`. Reading `code.html` on it throws, so the load fails with an error
  and no pane changes.
- Any other value. Its `html`, `css` and `js` properties may be missing, a
  string, falsy, or some other truthy value that `textContent` turns into text.

The Save/Load round trip needs two facts about the concrete parse and
stringify functions:
- `parse` inverts `stringify` on the saved snapshot.
- The serialised text is not empty. This matters because `loadCode` tests
  `!saved`, and an empty stored string counts as "no saved code".

Two consequences of the code are worth spelling out:
- The annotation of empty text is `"1\n"`, and that of `"a\nb"` is
  `"1\n2\n"`, because script.js:191 appends `'\n'` after every number, the
  last one included.
- A stored empty string is falsy, so `loadCode` reports it as "nothing
  saved" (script.js:162).

Notes on the model's choices:
- A pane's `textContent` is always a string. So `textContent || ''` in
  `runCode` only maps `''` to `''`, and `Compose` takes the three strings as
  they are.
- The template's indentation is not reproduced. Its line breaks are.

## Model

| member | source | states |
|---|---|---|
| LineNumbers.UpdateLineNumbers | script.js:187-194 | the loop builds exactly "1\n2\n…N\n" with N = (number of '\n' in the text) + 1, i.e. the pane's annotation |
| LineNumbers.LineCount | script.js:188 | `split('\n').length` is the number of '\n' characters plus one |
| LineNumbers.Split | script.js:188 | `split('\n')` yields at least one segment and no segment contains '\n' |
| LineNumbers.JoinSplit | script.js:188 | joining the segments with '\n' gives back the text, so splitting loses nothing |
| LineNumbers.SplitJoin | script.js:188 | '\n'-free segments joined with '\n' split back into exactly those segments, so the segments of a text are unique |
| LineNumbers.Decimal | script.js:191 | the number-to-string conversion of a line number is a non-empty digit string with no leading zero |
| LineNumbers.DecimalRoundTrip | script.js:191 | that digit string reads back as the same number |
| LineNumbers.NumberedLines | script.js:189-192 | after the loop, read line by line, the annotation holds 1..n in ascending order and ends with '\n' (last segment empty) |
| LineNumbers.AnnotationReadsBack | script.js:187-193 | a pane's annotation lists the values 1..count('\n')+1 in order, each followed by '\n', and has exactly that many '\n' |
| LineNumbers.AnnotationExamples | script.js:188-193 | "" is annotated "1\n"; "a\n" and "a\nb" are annotated "1\n2\n" |
| Composer.Assemble | script.js:109-122 | the template's pieces stand one after the other at known offsets, with nothing added |
| Composer.Compose | script.js:105-122 | the document is the fixed text plus the three panes verbatim (length = overhead + pane lengths); CSS right after the meta tags and "<style>", "</style></head><body>" after it, HTML after that, then "<script>try {", the JS, and the catch clause with the closing tags |
| Composer.ComposeOrder | script.js:106-118 | the style block lies before "</head>", which lies before "<body>", which lies before the HTML, which lies before the JS |
| Composer.HeadDependsOnCssOnly | script.js:109-118 | everything before the HTML is the same whatever the HTML and JS are |
| Composer.ScriptIsGuarded | script.js:107-120 | the JS is directly preceded by "<script>try {" and directly followed by "} catch(e) {console.error(e);}</script>", and only the closing body and html tags follow |
| Notification.AccentFor | script.js:196-208 | "error", "warning", "success" select danger, warning and secondary backgrounds; any other tag the primary one |
| Notification.Show | script.js:196-208 | the banner shows the message unchanged on the background its tag selects: danger, warning or secondary for "error", "warning", "success", primary otherwise |
| Notification.AccentsDistinct | script.js:196-208 | the recognised tags get pairwise different backgrounds, none of them the fallback; the default tag is "success" |
| Persistence.GetItem | script.js:160 | the stored item is present exactly when the key is in storage, and is then the string stored under it |
| Persistence.PaneText | script.js:169-171 | `value || ''`: a missing or falsy property gives '', a string its own text, any other truthy value its text |
| Persistence.Restore | script.js:159-171 | loading reports "nothing saved" exactly when no item or an empty one is stored; an error exactly when the text does not parse or parses to null; and a load exactly when it parses to a non-null value |
| Persistence.LoadedPaneTexts | script.js:168-171 | after a successful load each pane holds '' when its property is missing or falsy, the property's string when it is one, and the converted text of any other truthy value |
| Persistence.SaveThenLoad | script.js:147-171 | loading what Save wrote yields exactly the three saved panes, whatever the timestamp and the other keys |
| MiniEditor.Editor.constructor | script.js:17-25 | the page starts with empty panes, each annotated "1\n" |
| MiniEditor.Editor.Edit | script.js:33-34 | an edit changes that one pane and recomputes its annotation |
| MiniEditor.Editor.SetPanes | script.js:169-175 | the panes take the given texts and every annotation is recomputed to match |
| MiniEditor.Editor.Run | script.js:103-133 | runCode produces the composed document of the current panes and shows a success banner; no pane changes |
| MiniEditor.Editor.Clear | script.js:135-145 | declined: nothing changes; confirmed: all panes '' and every annotation "1\n", storage untouched |
| MiniEditor.Editor.Save | script.js:147-157 | the slot under miniCodeEditor_savedCode is overwritten with the serialised panes and timestamp; no other key and no pane changes |
| MiniEditor.Editor.Load | script.js:159-185 | nothing stored: panes and annotations unchanged, warning; unreadable: unchanged, error; otherwise panes take the stored texts and annotations are recomputed, success |
| MiniEditor.SaveThenLoadRestores | script.js:147-185 | Save followed by Load leaves every pane and annotation as it was |

## Left out

- DOM lookups, `contenteditable` set-up and the listener wiring are not modelled. The keyboard shortcuts (Ctrl/Cmd+S, L, R) are left out too: they only dispatch to the modelled handlers.
- All timers are left out: the 500 ms auto-run render, the 200 ms render after a load, the 10 ms re-annotation after Enter and the 3 s banner hide. Their effect is timing, not computed state.
- The auto-run toggle and its "Auto-run enabled/disabled" banner are not modelled. Nothing computed depends on the toggle except the timers above.
- Tab insertion at the caret is left out. It goes through the browser's Selection and Range objects.
- Writing the document into `previewFrame.srcdoc` and hiding the placeholder are not modelled. This is iframe rendering. `Run` returns the document instead.
- `runCode`'s catch branch is not modelled. Composing strings cannot throw in the model, so that branch is unreachable here.
- The banner's `show` class and the hide timer are not modelled. `notice` records only the text and background of the last banner.
- The internals of localStorage, JSON.stringify, JSON.parse and the clock are not modelled. They are parameters, as described above. A `setItem` that throws (storage full) is not modelled either.
- The editor stylesheet injected at page load is not modelled. It is presentation only.
- LineNumbers.Decimal: writes every natural number in plain digits. JavaScript switches to exponent notation from 10^21, far more lines than a string can hold.
