/**
 * The payload decoders of the three subscription handlers of the session
 * adapter: the progress decoder and the mp3 (download URL) normaliser.
 * The error handler passes its body through and needs no decoder.
 */
module Decoders {
  import opened Wrappers

  /**
   * A JavaScript number as far as `Number.isFinite` is concerned: a finite
   * value, or one of NaN, +Infinity and -Infinity, which the handler treats
   * alike.
   */
  datatype JsNumber = Finite(value: real) | NonFinite

  /**
   * What `JSON.parse` and `Number` make of one progress frame body.  Both are
   * treated abstractly; the three alternatives are the three ways the handler
   * arrives at its candidate value.
   *  - ParsedNumber: `JSON.parse` returned a number (non-finite for a literal
   *    that overflows, such as 1e999);
   *  - ParsedOther: `JSON.parse` returned any other value `v`, and
   *    `progressField` is `Number(v?.progress)` (NaN when there is no such
   *    field, 0 when it is null, the converted value otherwise);
   *  - Unparseable: the try block threw (`JSON.parse`, or the conversion of
   *    an odd `progress` field), and `rawAsNumber` is `Number(body)`.
   */
  datatype ProgressPayload =
    | ParsedNumber(number: JsNumber)
    | ParsedOther(progressField: JsNumber)
    | Unparseable(rawAsNumber: JsNumber)

  /** The empty body: `JSON.parse("")` throws and `Number("")` is 0. */
  const EmptyBody: ProgressPayload := Unparseable(Finite(0.0))

  /** The value the handler computes before its `Number.isFinite` test. */
  function Candidate(p: ProgressPayload): JsNumber
  {
    match p
    case ParsedNumber(n) => n
    case ParsedOther(f) => f
    case Unparseable(r) => r
  }

  /**
   * The latest progress value after one progress frame, given the latest
   * value before it: a finite candidate replaces it, anything else is
   * dropped and the previous value stays.
   */
  function NextProgress(prev: Option<real>, p: ProgressPayload): (r: Option<real>)
    ensures p.ParsedNumber? && p.number.Finite? ==> r == Some(p.number.value)
    ensures p.ParsedOther? && p.progressField.Finite? ==> r == Some(p.progressField.value)
    ensures p.Unparseable? && p.rawAsNumber.Finite? ==> r == Some(p.rawAsNumber.value)
    ensures Candidate(p).NonFinite? ==> r == prev
  {
    match Candidate(p)
    case Finite(v) => Some(v)
    case NonFinite => prev
  }

  /** Delivering the same progress frame twice has the effect of delivering it once. */
  lemma NextProgressIdempotent(prev: Option<real>, p: ProgressPayload)
    ensures NextProgress(NextProgress(prev, p), p) == NextProgress(prev, p)
  {
  }

  /** An empty progress frame is not dropped: it sets the progress to 0. */
  lemma EmptyBodySetsZero(prev: Option<real>)
    ensures NextProgress(prev, EmptyBody) == Some(0.0)
  {
  }

  /**
   * The download URL after an mp3 frame: the body itself, except that the
   * empty body (the one falsy string, so `body || null`) becomes null.
   */
  function DownloadUrlOf(body: string): (r: Option<string>)
    ensures r == None <==> body == ""
    ensures r != None ==> r.value == body
  {
    if body == "" then None else Some(body)
  }
}
