/** The document runCode hands to the preview frame: fixed head text with the
    CSS in a style block, then a body holding the HTML followed by the JS inside
    a script block whose try/catch sends any thrown error to console.error.
    Nothing is escaped: every pane's text goes in verbatim. The fixed text keeps
    the template's line breaks but not its indentation. */
module Composer {

  /** Leading line break, doctype, opening html and head, the charset and
      viewport meta tags. */
  const DocumentHead: string :=
    "\n<!DOCTYPE html>\n<html>\n<head>\n<meta charset=\"UTF-8\">\n" +
    "<meta name=\"viewport\" content=\"width=device-width, initial-scale=1.0\">\n"
  const StyleOpen: string := "<style>"
  const StyleClose: string := "</style>"
  const HeadClose: string := "</head>"
  const BodyOpen: string := "<body>"
  /** Closes the head and opens the body. */
  const HeadToBody: string := "\n" + HeadClose + ("\n" + BodyOpen + "\n")
  const HtmlToScript: string := "\n"
  const ScriptOpen: string := "<script>try {"
  const ScriptClose: string := "} catch(e) {console.error(e);}</script>"
  const DocumentTail: string := "\n</body>\n</html>\n"

  /** The fixed text before the CSS, between the CSS and the HTML, between
      the HTML and the JS, and after the JS. */
  const Opening: string := DocumentHead + StyleOpen
  const Between: string := StyleClose + HeadToBody
  const BeforeJs: string := HtmlToScript + ScriptOpen
  const Closing: string := ScriptClose + DocumentTail

  /** All the fixed text of a composed document. */
  const Overhead: nat := |Opening| + |Between| + |BeforeJs| + |Closing|

  /** part stands in doc starting at index at. */
  predicate Occurs(part: string, doc: string, at: nat)
  {
    at + |part| <= |doc| && forall k :: 0 <= k < |part| ==> doc[at + k] == part[k]
  }

  /** Where the CSS starts. */
  function CssAt(): nat
  {
    |Opening|
  }

  /** Where "</head>" starts, for a document with this CSS. */
  function HeadCloseAt(css: string): nat
  {
    CssAt() + |css| + |StyleClose| + 1
  }

  /** Where "<body>" starts, for a document with this CSS. */
  function BodyOpenAt(css: string): nat
  {
    HeadCloseAt(css) + |HeadClose| + 1
  }

  /** Where the HTML starts. */
  function HtmlAt(css: string): nat
  {
    CssAt() + |css| + |Between|
  }

  /** Where the JS starts. */
  function JsAt(css: string, html: string): nat
  {
    HtmlAt(css) + |html| + |BeforeJs|
  }

  /** A piece of a piece of doc is a piece of doc. */
  lemma OccursWithin(part: string, whole: string, i: nat, doc: string, at: nat)
    requires Occurs(part, whole, i) && Occurs(whole, doc, at)
    ensures Occurs(part, doc, at + i)
  {
    forall k | 0 <= k < |part| ensures doc[at + i + k] == part[k] {
      assert part[k] == whole[i + k];
    }
  }

  /** Where each of three pieces stands in their concatenation. */
  lemma Layout(a: string, b: string, c: string)
    ensures |a + b + c| == |a| + |b| + |c|
    ensures Occurs(a, a + b + c, 0)
    ensures Occurs(b, a + b + c, |a|)
    ensures Occurs(c, a + b + c, |a| + |b|)
  {
  }

  /** opening + css + between + html + beforeJs + js + closing: where each
      piece stands, and that nothing else is in the result. */
  function Assemble(opening: string, between: string, beforeJs: string, closing: string, html: string, css: string, js: string): (doc: string)
    ensures |doc| == |opening| + |between| + |beforeJs| + |closing| + |html| + |css| + |js|
    ensures Occurs(opening, doc, 0)
    ensures Occurs(css, doc, |opening|)
    ensures Occurs(between, doc, |opening| + |css|)
    ensures Occurs(html, doc, |opening| + |css| + |between|)
    ensures Occurs(beforeJs, doc, |opening| + |css| + |between| + |html|)
    ensures Occurs(js, doc, |opening| + |css| + |between| + |html| + |beforeJs|)
    ensures Occurs(closing, doc, |opening| + |css| + |between| + |html| + |beforeJs| + |js|)
  {
    var body := beforeJs + js + closing;
    var rest := between + html + body;
    var doc := opening + css + rest;
    Layout(opening, css, rest);
    Layout(between, html, body);
    Layout(beforeJs, js, closing);
    OccursWithin(between, rest, 0, doc, |opening| + |css|);
    OccursWithin(html, rest, |between|, doc, |opening| + |css|);
    OccursWithin(body, rest, |between| + |html|, doc, |opening| + |css|);
    var at := |opening| + |css| + |between| + |html|;
    OccursWithin(beforeJs, body, 0, doc, at);
    OccursWithin(js, body, |beforeJs|, doc, at);
    OccursWithin(closing, body, |beforeJs| + |js|, doc, at);
    doc
  }

  /** The document is the fixed text plus the three panes and nothing else:
      the CSS sits between "<style>" and "</style>" directly after the meta
      tags, the HTML directly after "<body>", and the JS directly after
      "<script>try {" and directly before the catch clause that closes the
      script block. */
  function Compose(html: string, css: string, js: string): (doc: string)
    ensures |doc| == Overhead + |html| + |css| + |js|
    ensures Occurs(Opening, doc, 0)
    ensures Occurs(css, doc, CssAt())
    ensures Occurs(Between, doc, CssAt() + |css|)
    ensures Occurs(html, doc, HtmlAt(css))
    ensures Occurs(BeforeJs, doc, HtmlAt(css) + |html|)
    ensures Occurs(js, doc, JsAt(css, html))
    ensures Occurs(Closing, doc, JsAt(css, html) + |js|)
  {
    Assemble(Opening, Between, BeforeJs, Closing, html, css, js)
  }

  /** The style block lies in the head: "</head>" and then "<body>" come
      after "</style>", and the HTML comes after "<body>"; the JS comes after
      the HTML. */
  lemma ComposeOrder(html: string, css: string, js: string)
    ensures Occurs(StyleOpen, Compose(html, css, js), CssAt() - |StyleOpen|)
    ensures Occurs(StyleClose, Compose(html, css, js), CssAt() + |css|)
    ensures Occurs(HeadClose, Compose(html, css, js), HeadCloseAt(css))
    ensures Occurs(BodyOpen, Compose(html, css, js), BodyOpenAt(css))
    ensures CssAt() + |css| + |StyleClose| <= HeadCloseAt(css) < BodyOpenAt(css)
    ensures BodyOpenAt(css) + |BodyOpen| <= HtmlAt(css)
    ensures HtmlAt(css) + |html| < JsAt(css, html)
  {
    var doc := Compose(html, css, js);
    var mid, at := Between, CssAt() + |css|;
    var afterHead := "\n" + BodyOpen + "\n";
    Layout(DocumentHead, StyleOpen, []);
    OccursWithin(StyleOpen, Opening, |DocumentHead|, doc, 0);
    Layout(StyleClose, HeadToBody, []);
    OccursWithin(StyleClose, mid, 0, doc, at);
    OccursWithin(HeadToBody, mid, |StyleClose|, doc, at);
    Layout("\n", HeadClose, afterHead);
    Layout("\n", BodyOpen, "\n");
    OccursWithin(HeadClose, HeadToBody, 1, doc, at + |StyleClose|);
    OccursWithin(afterHead, HeadToBody, 1 + |HeadClose|, doc, at + |StyleClose|);
    OccursWithin(BodyOpen, afterHead, 1, doc, at + |StyleClose| + 1 + |HeadClose|);
  }

  /** Neither the HTML nor the JS reaches the head: everything up to the
      start of the HTML depends on the CSS alone. */
  lemma HeadDependsOnCssOnly(html1: string, js1: string, html2: string, js2: string, css: string)
    ensures Compose(html1, css, js1)[..HtmlAt(css)] == Compose(html2, css, js2)[..HtmlAt(css)]
  {

  }

  /** The JS is inside the guarded script block whatever the other panes
      hold: "<script>try {" directly before it, the catch clause and
      "</script>" directly after it, and then only the closing body and html
      tags. */
  lemma ScriptIsGuarded(html: string, css: string, js: string)
    ensures Occurs(ScriptOpen, Compose(html, css, js), JsAt(css, html) - |ScriptOpen|)
    ensures Occurs(ScriptClose, Compose(html, css, js), JsAt(css, html) + |js|)
    ensures Occurs(DocumentTail, Compose(html, css, js), JsAt(css, html) + |js| + |ScriptClose|)
    ensures JsAt(css, html) + |js| + |ScriptClose| + |DocumentTail| == |Compose(html, css, js)|
  {
    var doc := Compose(html, css, js);
    Layout(HtmlToScript, ScriptOpen, []);
    OccursWithin(ScriptOpen, BeforeJs, |HtmlToScript|, doc, HtmlAt(css) + |html|);
    Layout(ScriptClose, DocumentTail, []);
    OccursWithin(ScriptClose, Closing, 0, doc, JsAt(css, html) + |js|);
    OccursWithin(DocumentTail, Closing, |ScriptClose|, doc, JsAt(css, html) + |js|);
  }
}
