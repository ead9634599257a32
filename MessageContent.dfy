/**
 * The save-feedback values the store's `message` field takes, and the fixed
 * content shown for each of them (the `CONTENT_STATES` table).
 */
module MessageContent {
  import opened Wrappers

  /** The six values of the store's `message` field. */
  datatype Message = IDLE | PENDING | SUCCESS | ERROR | TOO_MANY_REQUESTS | LIMIT_REACHED

  /** What the banner shows for a message; icons and class names are presentational and left out. */
  datatype Content = Content(id: string, text: string)

  /** Delay, in milliseconds, after which a timed message is reset to IDLE. */
  const ResetDelayMs: nat := 2500

  /** The messages whose display arms the reset timer: all but IDLE and PENDING. */
  predicate ArmsTimer(m: Message): (r: bool)
    ensures r <==> ContentFor(m).Some? && m != PENDING
    ensures r <==> m in {SUCCESS, ERROR, TOO_MANY_REQUESTS, LIMIT_REACHED}
  {
    m != IDLE && m != PENDING
  }

  /** The content table: one fixed entry per message except IDLE, which has none. */
  function ContentFor(m: Message): (r: Option<Content>)
    ensures r.None? <==> m == IDLE
  {
    match m
    case IDLE => None
    case SUCCESS => Some(Content("success", "Changes saved"))
    case ERROR => Some(Content("error", "Failed to save"))
    case TOO_MANY_REQUESTS => Some(Content("too-many-requests", "Too many requests"))
    case LIMIT_REACHED => Some(Content("limit-reached", "Limit reached"))
    case PENDING => Some(Content("pending", "Saving..."))
  }

  /** Distinct messages have entries with distinct ids, so the id identifies the message. */
  lemma ContentIdsDistinct(m1: Message, m2: Message)
    requires m1 != IDLE && m2 != IDLE
    ensures ContentFor(m1).value.id == ContentFor(m2).value.id <==> m1 == m2
  {
  }
}
