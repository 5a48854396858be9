/**
 * The unified notification record that both parsers return, the JavaScript
 * operators the parsers use on optional fields, and the host's number
 * conversions, which the model takes as parameters instead of defining them.
 */
module Notification {
  import opened Wrappers
  import opened Text

  /** One observation point of a quake report: area name and observed scale code. */
  datatype ObservationPoint = ObservationPoint(addr: string, scale: Option<int>)

  /** The source-specific block of a record, kept for map and alert layers. */
  datatype StructuredData =
    | QuakeData(
        maxIntensity: string,
        magnitude: Option<real>,
        hypocenterRegion: string,
        depthKm: Option<real>,
        points: seq<ObservationPoint>)
    | EewData(
        eventId: string,
        serial: nat,
        isFinal: bool,
        isAssumption: bool,
        maxIntensity: string,
        magnitude: Option<real>,
        depthKm: Option<real>,
        hypocenter: string,
        warnAreas: seq<Option<string>>)

  /** The record both parsers produce (JSON keys id, report_type, report_time, ...). */
  datatype NotificationRecord = NotificationRecord(
    id: string,
    reportType: string,
    reportTime: string,
    isCanceled: bool,
    listSummary: string,
    fullText: string,
    structuredData: StructuredData)

  /**
   * Number.prototype.toFixed(1) and parseFloat, which the model does not define.
   * `parseFloat` answers None where JavaScript gives NaN.
   */
  datatype HostNumbers = HostNumbers(
    toFixed1: real -> string,
    parseFloat: string -> Option<real>)

  /** `s || fallback` on a string field: an absent or empty string gives `fallback`. */
  function LogicalOr(s: Option<string>, fallback: string): (r: string)
    ensures s.Some? && s.value != "" ==> r == s.value
    ensures s.None? || s.value == "" ==> r == fallback
  {
    if s.Some? && s.value != "" then s.value else fallback
  }

  /** `s ?? fallback`: only an absent (null or undefined) field gives `fallback`. */
  function NullishCoalesce(s: Option<string>, fallback: string): (r: string)
    ensures s.Some? ==> r == s.value
    ensures s.None? ==> r == fallback
  {
    s.GetOr(fallback)
  }

  /** `n || null` on a parsed number: NaN and also zero become null. */
  function OrNull(n: Option<real>): (r: Option<real>)
    ensures r.Some? <==> n.Some? && n.value != 0.0
    ensures r.Some? ==> r == n
  {
    if n.Some? && n.value != 0.0 then n else None
  }

  /** `s.slice(-n)` for a positive `n`: the last `n` characters of `s`, or all of `s` when it is shorter. */
  function SliceLast(s: string, n: nat): (r: string)
    requires n > 0
    ensures EndsWith(s, r)
    ensures |r| == if |s| < n then |s| else n
  {
    if |s| <= n then s else s[|s| - n..]
  }
}
