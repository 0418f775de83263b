/** showNotification: a status message and the background colour chosen from
    its type tag. Only the selection is modelled; the banner's show/hide timing
    is not. */
module Notification {

  /** The four backgrounds, after the CSS custom properties --accent-danger,
      --accent-warning, --accent-secondary and --accent-primary. */
  datatype Accent = Danger | Warning | Secondary | Primary

  /** The type tag used when a caller passes none. */
  const DefaultType: string := "success"

  /** The recognised type tags and the background each one selects. */
  const Palette: map<string, Accent> :=
    map["error" := Danger, "warning" := Warning, "success" := Secondary]

  /** The background for a type tag: a recognised tag gets its own colour,
      any other tag the primary accent. */
  function AccentFor(kind: string): (a: Accent)
    ensures kind in Palette ==> a == Palette[kind]
    ensures kind !in Palette ==> a == Primary
  {
    if kind == "error" then Danger
    else if kind == "warning" then Warning
    else if kind == "success" then Secondary
    else Primary
  }

  /** What the notification element shows: its text and its background. */
  datatype Notice = Notice(message: string, accent: Accent)

  /** showNotification(message, kind): the banner shows the message as
      given, on the background the tag selects. */
  function Show(message: string, kind: string): (n: Notice)
    ensures n.message == message
    ensures kind in Palette ==> n.accent == Palette[kind]
    ensures kind !in Palette ==> n.accent == Primary
  {
    Notice(message, AccentFor(kind))
  }

  /** Distinct recognised tags get distinct colours, none of them the
      fallback; a call without a tag looks like a success. */
  lemma AccentsDistinct(k1: string, k2: string)
    requires k1 in Palette && k2 in Palette && k1 != k2
    ensures AccentFor(k1) != AccentFor(k2)
    ensures AccentFor(k1) != Primary
    ensures AccentFor(DefaultType) == Secondary
  {
  }
}
