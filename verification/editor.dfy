/** The editor page's state and the handlers that change it: three panes,
    the line annotation of each, the browser's localStorage, and the message
    the notification banner last showed. */
module MiniEditor {
  import opened Wrappers
  import opened LineNumbers
  import opened Composer
  import opened Notification
  import opened Persistence

  datatype Pane = HtmlPane | CssPane | JsPane

  /** The panes after one of them is given new text. */
  function WithPane(p: Panes, pane: Pane, text: string): Panes
  {
    match pane
    case HtmlPane => p.(html := text)
    case CssPane => p.(css := text)
    case JsPane => p.(js := text)
  }

  /** The banner loadCode shows for each outcome. */
  function LoadNotice(outcome: LoadOutcome): Notice
  {
    match outcome
    case NothingSaved => Show("No saved code found", "warning")
    case Unreadable => Show("Error loading saved code", "error")
    case Loaded(_) => Show("Code loaded successfully!", DefaultType)
  }

  class Editor {
    /** The panes' textContent. */
    var html: string
    var css: string
    var js: string
    /** Each pane's data-line-numbers attribute. */
    var htmlLines: string
    var cssLines: string
    var jsLines: string
    /** The page's localStorage. */
    var storage: map<string, string>
    /** What the notification banner last showed, if anything. */
    var notice: Option<Notice>

    /** Every annotation matches its pane's text. */
    ghost predicate Valid()
      reads this
    {
      htmlLines == LineAnnotation(html) &&
      cssLines == LineAnnotation(css) &&
      jsLines == LineAnnotation(js)
    }

    function Contents(): Panes
      reads this
    {
      Panes(html, css, js)
    }

    /** Page load: empty panes, each annotated "1\n"; localStorage keeps
        whatever an earlier visit left in it. */
    constructor (storage: map<string, string>)
      ensures Valid()
      ensures Contents() == Panes("", "", "")
      ensures htmlLines == cssLines == jsLines == "1\n"
      ensures this.storage == storage && notice == None
    {
      AnnotationExamples();
      var lines := UpdateLineNumbers("");
      html, css, js := "", "", "";
      htmlLines, cssLines, jsLines := lines, lines, lines;
      this.storage := storage;
      notice := None;
    }

    /** The input handler: the user's edit gives a pane new text, and that
        pane's annotation is recomputed. */
    method Edit(pane: Pane, text: string)
      requires Valid()
      modifies this`html, this`css, this`js, this`htmlLines, this`cssLines, this`jsLines
      ensures Valid()
      ensures Contents() == WithPane(old(Contents()), pane, text)
    {
      var lines := UpdateLineNumbers(text);
      match pane
      case HtmlPane => html, htmlLines := text, lines;
      case CssPane => css, cssLines := text, lines;
      case JsPane => js, jsLines := text, lines;
    }

    /** Give the three panes new text and recompute every annotation, as
        clearAll and loadCode both do. */
    method SetPanes(p: Panes)
      modifies this`html, this`css, this`js, this`htmlLines, this`cssLines, this`jsLines
      ensures Valid()
      ensures Contents() == p
    {
      html, css, js := p.html, p.css, p.js;
      htmlLines := UpdateLineNumbers(html);
      cssLines := UpdateLineNumbers(css);
      jsLines := UpdateLineNumbers(js);
    }

    /** runCode: the document for the preview frame, and a success banner. */
    method Run() returns (doc: string)
      modifies this`notice
      ensures doc == Compose(html, css, js)
      ensures notice == Some(Show("Code executed successfully!", DefaultType))
    {
      doc := Compose(html, css, js);
      notice := Some(Show("Code executed successfully!", DefaultType));
    }

    /** clearAll: only with the user's confirmation, empty every pane and
        reset every annotation to "1\n". The saved snapshot is left alone. */
    method Clear(confirmed: bool)
      requires Valid()
      modifies this`html, this`css, this`js, this`htmlLines, this`cssLines, this`jsLines, this`notice
      ensures Valid()
      ensures !confirmed ==> unchanged(this)
      ensures confirmed ==> Contents() == Panes("", "", "")
      ensures confirmed ==> htmlLines == cssLines == jsLines == "1\n"
      ensures confirmed ==> notice == Some(Show("All editors cleared", DefaultType))
    {
      if confirmed {
        SetPanes(Panes("", "", ""));
        AnnotationExamples();
        notice := Some(Show("All editors cleared", DefaultType));
      }
    }

    /** saveCode: overwrite the one slot under StorageKey with the serialised
        panes and the time of saving; every other key is untouched. */
    method Save(timestamp: string, stringify: Snapshot -> string)
      modifies this`storage, this`notice
      ensures storage == old(storage)[StorageKey := stringify(Snapshot(html, css, js, timestamp))]
      ensures notice == Some(Show("Code saved successfully!", DefaultType))
    {
      storage := storage[StorageKey := stringify(Snapshot(html, css, js, timestamp))];
      notice := Some(Show("Code saved successfully!", DefaultType));
    }

    /** loadCode: nothing stored leaves the panes as they were, with a
        warning; text that cannot be read leaves them as they were, with an
        error; otherwise each pane takes its stored property (or '') and its
        annotation is recomputed. */
    method Load(parse: string -> Option<Parsed>) returns (outcome: LoadOutcome)
      requires Valid()
      modifies this`html, this`css, this`js, this`htmlLines, this`cssLines, this`jsLines, this`notice
      ensures Valid()
      ensures outcome == Restore(GetItem(storage), parse)
      ensures outcome.Loaded? ==> Contents() == outcome.panes
      ensures !outcome.Loaded? ==> Contents() == old(Contents())
      ensures !outcome.Loaded? ==>
        htmlLines == old(htmlLines) && cssLines == old(cssLines) && jsLines == old(jsLines)
      ensures notice == Some(LoadNotice(outcome))
    {
      var saved := GetItem(storage);
      if saved.None? || saved.value == "" {
        notice := Some(Show("No saved code found", "warning"));
        return NothingSaved;
      }
      var code := parse(saved.value);
      if code.None? || code.value.Null? {
        notice := Some(Show("Error loading saved code", "error"));
        return Unreadable;
      }
      var loaded := Panes(PaneText(code.value.html), PaneText(code.value.css), PaneText(code.value.js));
      SetPanes(loaded);
      outcome := Loaded(loaded);
      notice := Some(Show("Code loaded successfully!", DefaultType));
    }
  }

  /** Saving and then loading gives every pane back exactly as it was, and
      the timestamp ends up in no pane; it takes only that JSON.parse
      inverts JSON.stringify on the saved snapshot and that the serialised
      text is not empty. */
  method SaveThenLoadRestores(e: Editor, timestamp: string,
                              stringify: Snapshot -> string, parse: string -> Option<Parsed>)
    requires e.Valid()
    requires parse(stringify(Snapshot(e.html, e.css, e.js, timestamp))) ==
      Some(Revived(Snapshot(e.html, e.css, e.js, timestamp)))
    requires stringify(Snapshot(e.html, e.css, e.js, timestamp)) != ""
    modifies e
    ensures e.Valid()
    ensures e.Contents() == old(e.Contents())
    ensures e.htmlLines == old(e.htmlLines) && e.cssLines == old(e.cssLines) && e.jsLines == old(e.jsLines)
  {
    ghost var before := e.storage;
    var snapshot := Snapshot(e.html, e.css, e.js, timestamp);
    e.Save(timestamp, stringify);
    SaveThenLoad(before, snapshot, stringify, parse);
    var outcome := e.Load(parse);
    assert outcome == Loaded(Panes(snapshot.html, snapshot.css, snapshot.js));
  }
}
