/**
 * The earthquake-early-warning parser: one Wolfx EEW message becomes a
 * notification record. The full text is assembled by appending segments to an
 * accumulator; the segments it can hold, and the order they come in, are the
 * specification the method is proved against.
 */
module WolfxEEW {
  import opened Wrappers
  import opened Text
  import opened Notification

  // ---------------------------------------------------------------------------
  // Payload
  // ---------------------------------------------------------------------------

  /** One warned area. `upperChiiki` is the `Chiiki` key and `lowerChiiki` the `chiiki` key. */
  datatype Area = Area(upperChiiki: Option<string>, lowerChiiki: Option<string>)

  /** One EEW message. `magunitude` keeps the payload's own spelling of the key;
      MaxIntensity, Magunitude and Depth are carried as the text the message shows. */
  datatype EewItem = EewItem(
    eventId: string,
    serial: nat,
    maxIntensity: Option<string>,
    title: Option<string>,
    isFinal: bool,
    isCancel: bool,
    isAssumption: bool,
    hypocenter: Option<string>,
    magunitude: Option<string>,
    depth: Option<string>,
    warnArea: Option<seq<Area>>)

  const DefaultTitle := "緊急地震速報"
  /** The display origin time the source uses in place of the event's OriginTime. */
  const OriginStr := "11月07日 13時40分"
  const CancelNotice := "この緊急地震速報はキャンセルされました。"
  const PlumNote := "PLUM法による緊急地震速報"
  const OriginLabel := "発生時刻:"
  const HypocenterTail := " で地震が発生した模様です。"
  const EstimateLead := "推定最大震度は"
  const AreaHeading := "【対象地域】"
  const Attribution := "出典：Wolfx EEW API"
  const CancelSummary := "【EEW】取消報"

  // ---------------------------------------------------------------------------
  // Field fallbacks: `??`, so only an absent field falls back
  // ---------------------------------------------------------------------------

  function Title(d: EewItem): string { NullishCoalesce(d.title, DefaultTitle) }
  function MaxInt(d: EewItem): string { NullishCoalesce(d.maxIntensity, "不明") }
  function Hypocenter(d: EewItem): string { NullishCoalesce(d.hypocenter, "震源地不明") }
  function Magnitude(d: EewItem): string { NullishCoalesce(d.magunitude, "不明") }
  function Depth(d: EewItem): string { NullishCoalesce(d.depth, "不明") }

  /** `data.WarnArea || []`: a missing list is empty; a present list, even an empty one, is kept. */
  function WarnAreas(d: EewItem): seq<Area> { d.warnArea.GetOr([]) }

  // ---------------------------------------------------------------------------
  // Warned-area names
  // ---------------------------------------------------------------------------

  /** `a.Chiiki ?? a.chiiki`: the first of the two keys that is present. */
  function AreaName(a: Area): (r: Option<string>)
    ensures a.upperChiiki.Some? ==> r == a.upperChiiki
    ensures a.upperChiiki.None? ==> r == a.lowerChiiki
  {
    if a.upperChiiki.Some? then a.upperChiiki else a.lowerChiiki
  }

  /** `areas.map(a => a.Chiiki ?? a.chiiki)`. */
  function AreaNames(areas: seq<Area>): (r: seq<Option<string>>)
    ensures |r| == |areas|
    ensures forall i :: 0 <= i < |areas| ==> r[i] == AreaName(areas[i])
  {
    seq(|areas|, i requires 0 <= i < |areas| => AreaName(areas[i]))
  }

  /** How Array.prototype.join shows each element: a missing name as the empty string. */
  function NameTexts(names: seq<Option<string>>): (r: seq<string>)
    ensures |r| == |names|
    ensures forall i :: 0 <= i < |names| ==> r[i] == names[i].GetOr("")
  {
    seq(|names|, i requires 0 <= i < |names| => names[i].GetOr(""))
  }

  /** The warned-area names in input order, joined by "、". */
  function ChiikiList(areas: seq<Area>): string {
    Join(NameTexts(AreaNames(areas)), "、")
  }

  // ---------------------------------------------------------------------------
  // Serial indicator
  // ---------------------------------------------------------------------------

  /** "最終報" for the final report, else "第N報" with N the serial number. */
  function Indicator(isFinal: bool, serial: nat): (r: string)
    ensures isFinal ==> r == "最終報"
    ensures !isFinal ==> |r| >= 3 && r[0] == '第' && r[|r| - 1] == '報'
                         && AllDigits(r[1..|r| - 1]) && DigitsValue(r[1..|r| - 1]) == serial
                         && (|r| == 3 || r[1] != '0')
  {
    var digits := DecimalText(serial);
    DecimalTextRoundTrip(serial);
    if isFinal then "最終報"
    else
      assert ("第" + digits + "報")[1..|digits| + 1] == digits;
      "第" + digits + "報"
  }

  /** The second line of the message. */
  function SerialText(isFinal: bool, serial: nat): (r: string)
    ensures StartsWith(r, "#") && r[1..] == Indicator(isFinal, serial)
    ensures '\n' !in r
  {
    var ind := Indicator(isFinal, serial);
    assert ("#" + ind)[1..] == ind;
    assert isFinal ==> '\n' !in ind;
    assert !isFinal ==> ind == "第" + DecimalText(serial) + "報";
    "#" + ind
  }

  // ---------------------------------------------------------------------------
  // Segments of the full text
  // ---------------------------------------------------------------------------

  /** The pieces the message is built from, one per append. */
  datatype Segment =
    | TitleLine(title: string)
    | SerialLine(serialText: string)
    | CancelLine
    | PlumLine
    | OriginLine
    | HypocenterLine(hypocenter: string)
    | EstimateLine(maxInt: string, magnitude: string, depth: string)
    | AreaLine(chiikiList: string)
    | AttributionLine

  /** The text one append adds. */
  function SegmentText(seg: Segment): string {
    match seg
    case TitleLine(t) => "◆" + t + "◆"
    case SerialLine(s) => "\n" + s
    case CancelLine => "\n" + CancelNotice
    case PlumLine => "\n" + PlumNote
    case OriginLine => "\n\n" + OriginLabel + OriginStr
    case HypocenterLine(h) => "\n" + h + HypocenterTail
    case EstimateLine(m, g, e) =>
      "\n" + EstimateLead + m + "で、マグニチュードは" + g + "、震源の深さは" + e + "kmと推定されます。"
    case AreaLine(l) => "\n\n" + AreaHeading + "\n" + l
    case AttributionLine => "\n\n" + Attribution
  }

  /** Strings appended in order, left to right. */
  function Concat(xs: seq<string>): string
    decreases |xs|
  {
    if xs == [] then "" else Concat(xs[..|xs| - 1]) + xs[|xs| - 1]
  }

  /** The text of each segment. */
  function Texts(segs: seq<Segment>): (r: seq<string>)
    ensures |r| == |segs|
    ensures forall i :: 0 <= i < |segs| ==> r[i] == SegmentText(segs[i])
  {
    seq(|segs|, i requires 0 <= i < |segs| => SegmentText(segs[i]))
  }

  /** The message the segments make, appended in order. */
  function Render(segs: seq<Segment>): string {
    Concat(Texts(segs))
  }

  /** The values a message is filled with. */
  datatype EewFields = EewFields(
    title: string,
    serialText: string,
    maxInt: string,
    hypocenter: string,
    magnitude: string,
    depth: string,
    chiikiList: string)

  function FieldsOf(d: EewItem): EewFields {
    EewFields(Title(d), SerialText(d.isFinal, d.serial), MaxInt(d), Hypocenter(d),
              Magnitude(d), Depth(d), ChiikiList(WarnAreas(d)))
  }

  /** Which segments a message carries, under the cancel, PLUM and warned-area flags:
      title and serial line; then the cancellation notice, or the optional PLUM note,
      origin, hypocenter, estimate and optional area list; then the attribution. */
  function Layout(cancel: bool, plum: bool, areas: bool, f: EewFields): seq<Segment> {
    [TitleLine(f.title), SerialLine(f.serialText)]
    + (if cancel then [CancelLine]
       else (if plum then [PlumLine] else [])
            + [OriginLine, HypocenterLine(f.hypocenter), EstimateLine(f.maxInt, f.magnitude, f.depth)]
            + (if areas then [AreaLine(f.chiikiList)] else []))
    + [AttributionLine]
  }

  /** The segments of one message. */
  function Segments(d: EewItem): seq<Segment> {
    Layout(d.isCancel, d.isAssumption, |WarnAreas(d)| > 0, FieldsOf(d))
  }

  lemma {:induction false} ConcatAppend(xs: seq<string>, ys: seq<string>)
    ensures Concat(xs + ys) == Concat(xs) + Concat(ys)
    decreases |ys|
  {
    if ys == [] {
      assert xs + ys == xs;
    } else {
      var y0, y := ys[..|ys| - 1], ys[|ys| - 1];
      assert (xs + ys)[..|xs + ys| - 1] == xs + y0;
      ConcatAppend(xs, y0);
    }
  }

  lemma TextsAppend(s: seq<Segment>, t: seq<Segment>)
    ensures Texts(s + t) == Texts(s) + Texts(t)
  {
    var a, b, c := Texts(s + t), Texts(s), Texts(t);
    forall i | 0 <= i < |a|
      ensures a[i] == (b + c)[i]
    {
      if i < |s| {
        assert (s + t)[i] == s[i];
      } else {
        assert (s + t)[i] == t[i - |s|];
      }
    }
  }

  /** Rendering distributes over concatenation of segment lists. */
  lemma RenderAppend(s: seq<Segment>, t: seq<Segment>)
    ensures Render(s + t) == Render(s) + Render(t)
  {
    TextsAppend(s, t);
    ConcatAppend(Texts(s), Texts(t));
  }

  lemma RenderOne(seg: Segment)
    ensures Render([seg]) == SegmentText(seg)
  {
    var x := SegmentText(seg);
    assert Texts([seg]) == [x];
    assert [x][..0] == [];
    assert Concat([x]) == Concat([]) + x;
  }

  lemma RenderSnoc(segs: seq<Segment>, seg: Segment)
    ensures Render(segs + [seg]) == Render(segs) + SegmentText(seg)
  {
    RenderAppend(segs, [seg]);
    RenderOne(seg);
  }

  /** A list that opens with `first` and closes with `last` renders as their texts around
      the rendering of what lies between. */
  lemma RenderFrame(first: Segment, middle: seq<Segment>, last: Segment)
    ensures Render([first] + middle + [last]) == SegmentText(first) + Render(middle) + SegmentText(last)
  {
    RenderAppend([first] + middle, [last]);
    RenderAppend([first], middle);
    RenderOne(first);
    RenderOne(last);
  }

  // ---------------------------------------------------------------------------
  // The parser
  // ---------------------------------------------------------------------------

  /**
   * The message body of parseWolfxEEW: the title, the serial line, then either the
   * cancellation notice or the optional PLUM note, origin, hypocenter, estimate and
   * optional warned-area list, then the attribution, appended one by one to a string.
   */
  method ComposeMessage(title: string, serialText: string, isCancel: bool, isAssumption: bool,
                        hypocenter: string, maxInt: string, magnitude: string, depth: string,
                        warnAreas: seq<Area>)
    returns (eewMessage: string)
    ensures eewMessage == Render(Layout(isCancel, isAssumption, |warnAreas| > 0,
      EewFields(title, serialText, maxInt, hypocenter, magnitude, depth, ChiikiList(warnAreas))))
  {
    var originStr := OriginStr;
    eewMessage := "";
    eewMessage := eewMessage + ("◆" + title + "◆");
    eewMessage := eewMessage + ("\n" + serialText);
    if isCancel {
      eewMessage := eewMessage + ("\n" + CancelNotice);
    } else {
      if isAssumption {
        eewMessage := eewMessage + ("\n" + PlumNote);
      }
      eewMessage := eewMessage + ("\n\n" + OriginLabel + originStr);
      eewMessage := eewMessage + ("\n" + hypocenter + HypocenterTail);
      eewMessage := eewMessage
        + ("\n" + EstimateLead + maxInt + "で、マグニチュードは" + magnitude + "、震源の深さは" + depth + "kmと推定されます。");
      if |warnAreas| > 0 {
        var chiikiList := ChiikiList(warnAreas);
        eewMessage := eewMessage + ("\n\n" + AreaHeading + "\n" + chiikiList);
      }
    }
    eewMessage := eewMessage + ("\n\n" + Attribution);

    // The appends above lay out exactly the segments of the message.
    ghost var f := EewFields(title, serialText, maxInt, hypocenter, magnitude, depth, ChiikiList(warnAreas));
    SegmentPieces(f);
    LayoutAsAppended(isCancel, isAssumption, |warnAreas| > 0, f);
  }

  /** parseWolfxEEW: one EEW message as a notification record. */
  method ParseWolfxEEW(data: EewItem, parseFloat: string -> Option<real>) returns (r: NotificationRecord)
    ensures r.fullText == Render(Segments(data))
    ensures StartsWith(r.fullText, "◆" + Title(data) + "◆")
    ensures EndsWith(r.fullText, "\n\n" + Attribution)
    ensures '\n' !in Title(data) ==>
      |Split(r.fullText, '\n')| >= 2 && Split(r.fullText, '\n')[1] == "#" + Indicator(data.isFinal, data.serial)
    ensures data.isCancel ==>
      r.fullText == "◆" + Title(data) + "◆" + ("\n" + SerialText(data.isFinal, data.serial))
                    + ("\n" + CancelNotice) + ("\n\n" + Attribution)
    ensures r.id == data.eventId + "_" + DecimalText(data.serial)
    ensures r.reportType == "WolfxEEW"
    ensures r.reportTime == "3時40分" && EndsWith(OriginStr, r.reportTime)
    ensures r.isCanceled == data.isCancel
    ensures data.isCancel ==> r.listSummary == CancelSummary
    ensures !data.isCancel ==>
      r.listSummary == "【EEW " + Indicator(data.isFinal, data.serial) + "】" + MaxInt(data) + " " + Hypocenter(data)
    ensures r.structuredData.EewData?
    ensures r.structuredData.eventId == data.eventId && r.structuredData.serial == data.serial
    ensures r.structuredData.isFinal == data.isFinal && r.structuredData.isAssumption == data.isAssumption
    ensures r.structuredData.maxIntensity == MaxInt(data)
    ensures r.structuredData.hypocenter == Hypocenter(data)
    ensures r.structuredData.magnitude == OrNull(parseFloat(Magnitude(data)))
    ensures r.structuredData.depthKm == OrNull(parseFloat(Depth(data)))
    ensures |r.structuredData.warnAreas| == |WarnAreas(data)|
    ensures forall i :: 0 <= i < |WarnAreas(data)| ==>
      r.structuredData.warnAreas[i] == AreaName(WarnAreas(data)[i])
  {
    var eventId := data.eventId;
    var serial := data.serial;
    var maxInt := NullishCoalesce(data.maxIntensity, "不明");
    var title := NullishCoalesce(data.title, DefaultTitle);
    var isFinal, isCancel, isAssumption := data.isFinal, data.isCancel, data.isAssumption;
    var originStr := OriginStr;
    var hypocenter := NullishCoalesce(data.hypocenter, "震源地不明");
    var magnitude := NullishCoalesce(data.magunitude, "不明");
    var depth := NullishCoalesce(data.depth, "不明");
    var warnAreas := data.warnArea.GetOr([]);

    var serialText := SerialText(isFinal, serial);
    var eewMessage := ComposeMessage(title, serialText, isCancel, isAssumption,
                                     hypocenter, maxInt, magnitude, depth, warnAreas);
    ghost var f := FieldsOf(data);
    assert f == EewFields(title, serialText, maxInt, hypocenter, magnitude, depth, ChiikiList(warnAreas));
    LayoutFrame(isCancel, isAssumption, |warnAreas| > 0, f);
    LayoutTrimmed(isCancel, isAssumption, |warnAreas| > 0, f);
    LayoutSecondLine(isCancel, isAssumption, |warnAreas| > 0, f);
    if isCancel {
      CancelledLayout(isAssumption, |warnAreas| > 0, f);
    }

    var reportTimeJST := SliceLast(originStr, 5);
    OriginClock();
    var indicator := Indicator(isFinal, serial);
    r := NotificationRecord(
      id := eventId + "_" + DecimalText(serial),
      reportType := "WolfxEEW",
      reportTime := reportTimeJST,
      isCanceled := isCancel,
      listSummary := if isCancel then CancelSummary else "【EEW " + indicator + "】" + maxInt + " " + hypocenter,
      fullText := Trim(eewMessage),
      structuredData := EewData(
        eventId := eventId,
        serial := serial,
        isFinal := isFinal,
        isAssumption := isAssumption,
        maxIntensity := maxInt,
        magnitude := OrNull(parseFloat(magnitude)),
        depthKm := OrNull(parseFloat(depth)),
        hypocenter := hypocenter,
        warnAreas := AreaNames(warnAreas)));
  }

  // ---------------------------------------------------------------------------
  // The layout written out
  // ---------------------------------------------------------------------------

  /** The last five characters of the fixed origin time are its hour and minute. */
  lemma OriginClock()
    ensures SliceLast(OriginStr, 5) == "3時40分"
  {
    assert OriginStr[|OriginStr| - 5..] == "3時40分";
  }

  /** Proof step for ComposeMessage: each segment's text written out as the literal pieces the
      method appends, so that the method's proof matches them without unfolding SegmentText. */
  lemma SegmentPieces(f: EewFields)
    ensures SegmentText(TitleLine(f.title)) == "◆" + f.title + "◆"
    ensures SegmentText(SerialLine(f.serialText)) == "\n" + f.serialText
    ensures SegmentText(CancelLine) == "\n" + CancelNotice
    ensures SegmentText(PlumLine) == "\n" + PlumNote
    ensures SegmentText(OriginLine) == "\n\n" + OriginLabel + OriginStr
    ensures SegmentText(HypocenterLine(f.hypocenter)) == "\n" + f.hypocenter + HypocenterTail
    ensures SegmentText(EstimateLine(f.maxInt, f.magnitude, f.depth))
         == "\n" + EstimateLead + f.maxInt + "で、マグニチュードは" + f.magnitude + "、震源の深さは" + f.depth + "kmと推定されます。"
    ensures SegmentText(AreaLine(f.chiikiList)) == "\n\n" + AreaHeading + "\n" + f.chiikiList
    ensures SegmentText(AttributionLine) == "\n\n" + Attribution
  {
  }

  /** The segment list of each kind of message, written out. */
  lemma LayoutListed(cancel: bool, plum: bool, areas: bool, f: EewFields)
    ensures var t, s, z := TitleLine(f.title), SerialLine(f.serialText), AttributionLine;
      var o, h, e := OriginLine, HypocenterLine(f.hypocenter), EstimateLine(f.maxInt, f.magnitude, f.depth);
      var a, l := AreaLine(f.chiikiList), Layout(cancel, plum, areas, f);
      && (cancel ==> l == [t, s, CancelLine, z])
      && (!cancel && plum && areas ==> l == [t, s, PlumLine, o, h, e, a, z])
      && (!cancel && plum && !areas ==> l == [t, s, PlumLine, o, h, e, z])
      && (!cancel && !plum && areas ==> l == [t, s, o, h, e, a, z])
      && (!cancel && !plum && !areas ==> l == [t, s, o, h, e, z])
  {
  }

  /** The rendering of each kind of message, as the successive appends produce it. */
  lemma LayoutAsAppended(cancel: bool, plum: bool, areas: bool, f: EewFields)
    ensures var t, s, z := SegmentText(TitleLine(f.title)), SegmentText(SerialLine(f.serialText)), SegmentText(AttributionLine);
      var o, h, e := SegmentText(OriginLine), SegmentText(HypocenterLine(f.hypocenter)),
                     SegmentText(EstimateLine(f.maxInt, f.magnitude, f.depth));
      var p, a, m := SegmentText(PlumLine), SegmentText(AreaLine(f.chiikiList)), Render(Layout(cancel, plum, areas, f));
      && (cancel ==> m == "" + t + s + SegmentText(CancelLine) + z)
      && (!cancel && plum && areas ==> m == "" + t + s + p + o + h + e + a + z)
      && (!cancel && plum && !areas ==> m == "" + t + s + p + o + h + e + z)
      && (!cancel && !plum && areas ==> m == "" + t + s + o + h + e + a + z)
      && (!cancel && !plum && !areas ==> m == "" + t + s + o + h + e + z)
  {
    LayoutListed(cancel, plum, areas, f);
    RenderedList(Layout(cancel, plum, areas, f));
  }

  /** The rendering of a list of four to eight segments, laid out piece by piece. */
  lemma RenderedList(segs: seq<Segment>)
    requires 4 <= |segs| <= 8
    ensures |segs| == 4 ==>
      Render(segs) == "" + SegmentText(segs[0]) + SegmentText(segs[1])
        + SegmentText(segs[2]) + SegmentText(segs[3])
    ensures |segs| == 6 ==>
      Render(segs) == "" + SegmentText(segs[0]) + SegmentText(segs[1])
        + SegmentText(segs[2]) + SegmentText(segs[3]) + SegmentText(segs[4]) + SegmentText(segs[5])
    ensures |segs| == 7 ==>
      Render(segs) == "" + SegmentText(segs[0]) + SegmentText(segs[1])
        + SegmentText(segs[2]) + SegmentText(segs[3]) + SegmentText(segs[4]) + SegmentText(segs[5])
        + SegmentText(segs[6])
    ensures |segs| == 8 ==>
      Render(segs) == "" + SegmentText(segs[0]) + SegmentText(segs[1])
        + SegmentText(segs[2]) + SegmentText(segs[3]) + SegmentText(segs[4]) + SegmentText(segs[5])
        + SegmentText(segs[6]) + SegmentText(segs[7])
  {
    ConcatLaidOut(Texts(segs));
  }

  /** Concatenating a list of strings is appending its elements one after another to "". */
  lemma ConcatLaidOut(xs: seq<string>)
    requires 4 <= |xs| <= 8
    ensures |xs| == 4 ==> Concat(xs) == "" + xs[0] + xs[1] + xs[2] + xs[3]
    ensures |xs| == 6 ==> Concat(xs) == "" + xs[0] + xs[1] + xs[2] + xs[3] + xs[4] + xs[5]
    ensures |xs| == 7 ==> Concat(xs) == "" + xs[0] + xs[1] + xs[2] + xs[3] + xs[4] + xs[5] + xs[6]
    ensures |xs| == 8 ==> Concat(xs) == "" + xs[0] + xs[1] + xs[2] + xs[3] + xs[4] + xs[5] + xs[6] + xs[7]
  {
    forall k | 0 < k <= |xs|
      ensures Concat(xs[..k]) == Concat(xs[..k - 1]) + xs[k - 1]
    {
      assert xs[..k][..k - 1] == xs[..k - 1];
    }
    assert xs[..0] == [];
    assert xs[..|xs|] == xs;
  }

  // ---------------------------------------------------------------------------
  // Frame, trim and second line
  // ---------------------------------------------------------------------------

  /** Every message opens with the bracketed title and closes with the attribution line. */
  lemma LayoutFrame(cancel: bool, plum: bool, areas: bool, f: EewFields)
    ensures StartsWith(Render(Layout(cancel, plum, areas, f)), "◆" + f.title + "◆")
    ensures EndsWith(Render(Layout(cancel, plum, areas, f)), "\n\n" + Attribution)
  {
    var l := Layout(cancel, plum, areas, f);
    var middle := l[1..|l| - 1];
    assert l == [TitleLine(f.title)] + middle + [AttributionLine];
    RenderFrame(TitleLine(f.title), middle, AttributionLine);
    Framed(SegmentText(TitleLine(f.title)), Render(middle), SegmentText(AttributionLine));
  }

  /** Trimming the message changes nothing: it opens with "◆" and closes with "I". */
  lemma LayoutTrimmed(cancel: bool, plum: bool, areas: bool, f: EewFields)
    ensures Trim(Render(Layout(cancel, plum, areas, f))) == Render(Layout(cancel, plum, areas, f))
  {
    LayoutFrame(cancel, plum, areas, f);
    TrimFramed(Render(Layout(cancel, plum, areas, f)), "◆" + f.title + "◆", "\n\n" + Attribution);
  }

  /** Every segment after the title opens a new line. */
  lemma SegmentOpensLine(seg: Segment)
    requires !seg.TitleLine?
    ensures |SegmentText(seg)| > 0 && SegmentText(seg)[0] == '\n'
  {
  }

  /** Split into lines, the message has the bracketed title as its first line and the
      serial text as its second, as long as neither holds a line break. */
  lemma LayoutSecondLine(cancel: bool, plum: bool, areas: bool, f: EewFields)
    ensures '\n' !in f.title && '\n' !in f.serialText ==>
      var lines := Split(Render(Layout(cancel, plum, areas, f)), '\n');
      |lines| >= 2 && lines[0] == "◆" + f.title + "◆" && lines[1] == f.serialText
  {
    if '\n' !in f.title && '\n' !in f.serialText {
      var l := Layout(cancel, plum, areas, f);
      var t, sl := TitleLine(f.title), SerialLine(f.serialText);
      var next := if cancel then CancelLine else if plum then PlumLine else OriginLine;
      var rest := l[3..];
      assert l[2] == next;
      assert l == [t] + [sl] + ([next] + rest);
      RenderAppend([t] + [sl], [next] + rest);
      RenderAppend([t], [sl]);
      RenderAppend([next], rest);
      RenderOne(t);
      RenderOne(sl);
      RenderOne(next);
      SegmentOpensLine(next);
      var x := SegmentText(next)[1..] + Render(rest);
      ReopenLine(SegmentText(next), Render(rest));
      SplitTwoLines("◆" + f.title + "◆", f.serialText, x);
    }
  }

  /** Proof step for LayoutSecondLine: a text that opens with a line break, regrouped. */
  lemma ReopenLine(u: string, v: string)
    requires |u| > 0 && u[0] == '\n'
    ensures u + v == "\n" + (u[1..] + v)
  {
    assert u == "\n" + u[1..];
  }

  /** A cancelled message is the title, the serial line, the cancellation notice and the
      attribution, whatever its PLUM flag and warned areas. */
  lemma CancelledLayout(plum: bool, areas: bool, f: EewFields)
    ensures Layout(true, plum, areas, f) == [TitleLine(f.title), SerialLine(f.serialText), CancelLine, AttributionLine]
    ensures Render(Layout(true, plum, areas, f))
         == "◆" + f.title + "◆" + ("\n" + f.serialText) + ("\n" + CancelNotice) + ("\n\n" + Attribution)
  {
    LayoutAsAppended(true, plum, areas, f);
    LayoutListed(true, plum, areas, f);
    EmptyConcat(SegmentText(TitleLine(f.title)));
  }

  // ---------------------------------------------------------------------------
  // Which fixed texts a message shows
  // ---------------------------------------------------------------------------

  /** The fixed texts a message can show besides its title, serial and attribution. */
  datatype Notice = Cancellation | Plum | Origin | HypocenterReport | Estimate | AreaList

  function NoticeText(n: Notice): string {
    match n
    case Cancellation => CancelNotice
    case Plum => PlumNote
    case Origin => OriginLabel
    case HypocenterReport => HypocenterTail
    case Estimate => EstimateLead
    case AreaList => AreaHeading
  }

  /** A character of the notice's text that no other fixed text of a message holds. */
  function Marker(n: Notice): (c: char)
    ensures c in NoticeText(n)
  {
    match n
    case Cancellation => assert CancelNotice[9] == 'キ'; 'キ'
    case Plum => assert PlumNote[4] == '法'; '法'
    case Origin => assert OriginLabel[3] == '刻'; '刻'
    case HypocenterReport => assert HypocenterTail[9] == '模'; '模'
    case Estimate => assert EstimateLead[0] == '推'; '推'
    case AreaList => assert AreaHeading[0] == '【'; '【'
  }

  /** The segment that carries the notice. */
  predicate Carries(seg: Segment, n: Notice) {
    match n
    case Cancellation => seg.CancelLine?
    case Plum => seg.PlumLine?
    case Origin => seg.OriginLine?
    case HypocenterReport => seg.HypocenterLine?
    case Estimate => seg.EstimateLine?
    case AreaList => seg.AreaLine?
  }

  /** Under which flags the source appends the notice. */
  predicate Shown(cancel: bool, plum: bool, areas: bool, n: Notice) {
    match n
    case Cancellation => cancel
    case Plum => !cancel && plum
    case Origin => !cancel
    case HypocenterReport => !cancel
    case Estimate => !cancel
    case AreaList => !cancel && areas
  }

  /** No value filled into the message holds `c`. */
  predicate FieldsFree(f: EewFields, c: char) {
    && c !in f.title && c !in f.serialText && c !in f.maxInt && c !in f.hypocenter
    && c !in f.magnitude && c !in f.depth && c !in f.chiikiList
  }

  /** The values the segment holds are the ones in `f`. */
  predicate FilledFrom(seg: Segment, f: EewFields) {
    match seg
    case TitleLine(t) => t == f.title
    case SerialLine(s) => s == f.serialText
    case HypocenterLine(h) => h == f.hypocenter
    case EstimateLine(m, g, e) => m == f.maxInt && g == f.magnitude && e == f.depth
    case AreaLine(l) => l == f.chiikiList
    case _ => true
  }

  lemma ContainsExtended(s: string, t: string, u: string)
    requires Contains(s, t)
    ensures Contains(s + u, t)
  {
    var i: nat :| i <= |s| && OccursAt(s, t, i);
    assert (s + u)[i..i + |t|] == s[i..i + |t|];
    assert OccursAt(s + u, t, i);
  }

  /** The carrying segment's text holds the notice. */
  lemma CarrierShowsNotice(seg: Segment, n: Notice)
    requires Carries(seg, n)
    ensures Contains(SegmentText(seg), NoticeText(n))
  {
    match seg
    case CancelLine =>
      ContainsInfix("\n", CancelNotice, "");
      assert "\n" + CancelNotice + "" == SegmentText(seg);
    case PlumLine =>
      ContainsInfix("\n", PlumNote, "");
      assert "\n" + PlumNote + "" == SegmentText(seg);
    case OriginLine =>
      ContainsInfix("\n\n", OriginLabel, OriginStr);
    case HypocenterLine(h) =>
      ContainsInfix("\n" + h, HypocenterTail, "");
      assert "\n" + h + HypocenterTail + "" == SegmentText(seg);
    case EstimateLine(m, g, e) =>
      var u := "\n" + EstimateLead;
      ContainsInfix("\n", EstimateLead, "");
      assert "\n" + EstimateLead + "" == u;
      ContainsExtended(u, EstimateLead, m);
      ContainsExtended(u + m, EstimateLead, "で、マグニチュードは");
      ContainsExtended(u + m + "で、マグニチュードは", EstimateLead, g);
      ContainsExtended(u + m + "で、マグニチュードは" + g, EstimateLead, "、震源の深さは");
      ContainsExtended(u + m + "で、マグニチュードは" + g + "、震源の深さは", EstimateLead, e);
      ContainsExtended(u + m + "で、マグニチュードは" + g + "、震源の深さは" + e, EstimateLead, "kmと推定されます。");
    case AreaLine(l) =>
      ContainsInfix("\n\n", AreaHeading, "\n" + l);
      assert "\n\n" + AreaHeading + ("\n" + l) == SegmentText(seg);
  }

  /** Any other segment filled from marker-free values lacks the marker. */
  lemma OthersLackMarker(seg: Segment, f: EewFields, n: Notice)
    requires FilledFrom(seg, f) && FieldsFree(f, Marker(n)) && !Carries(seg, n)
    ensures Marker(n) !in SegmentText(seg)
  {
    match seg
    case TitleLine(_) =>
    case SerialLine(_) =>
    case CancelLine => CancelLineLacks(n);
    case PlumLine => PlumLineLacks(n);
    case OriginLine => OriginLineLacks(n);
    case HypocenterLine(h) => HypocenterLineLacks(h, n);
    case EstimateLine(m, g, e) => EstimateLineLacks(m, g, e, n);
    case AreaLine(l) => AreaLineLacks(l, n);
    case AttributionLine => AttributionLineLacks(n);
  }

  lemma CancelLineLacks(n: Notice)
    requires n != Cancellation
    ensures Marker(n) !in SegmentText(CancelLine)
  {
  }

  lemma PlumLineLacks(n: Notice)
    requires n != Plum
    ensures Marker(n) !in SegmentText(PlumLine)
  {
  }

  lemma OriginLineLacks(n: Notice)
    requires n != Origin
    ensures Marker(n) !in SegmentText(OriginLine)
  {
  }

  lemma HypocenterLineLacks(h: string, n: Notice)
    requires n != HypocenterReport && Marker(n) !in h
    ensures Marker(n) !in SegmentText(HypocenterLine(h))
  {
  }

  lemma EstimateLineLacks(m: string, g: string, e: string, n: Notice)
    requires n != Estimate && Marker(n) !in m && Marker(n) !in g && Marker(n) !in e
    ensures Marker(n) !in SegmentText(EstimateLine(m, g, e))
  {
    var c := Marker(n);
    assert c !in "\n" + EstimateLead;
    assert c !in "で、マグニチュードは";
    assert c !in "、震源の深さは";
    assert c !in "kmと推定されます。";
  }

  lemma AreaLineLacks(l: string, n: Notice)
    requires n != AreaList && Marker(n) !in l
    ensures Marker(n) !in SegmentText(AreaLine(l))
  {
  }

  lemma AttributionLineLacks(n: Notice)
    ensures Marker(n) !in SegmentText(AttributionLine)
  {
  }

  /** Every segment's text shows up in the message. */
  lemma RenderShowsSegment(segs: seq<Segment>, i: nat)
    requires i < |segs|
    ensures Contains(Render(segs), SegmentText(segs[i]))
  {
    var before, after := segs[..i], segs[i + 1..];
    assert segs == before + [segs[i]] + after;
    RenderAppend(before + [segs[i]], after);
    RenderSnoc(before, segs[i]);
    ContainsInfix(Render(before), SegmentText(segs[i]), Render(after));
  }

  /** A character that none of the strings holds is not in their concatenation. */
  lemma {:induction false} ConcatCharFree(xs: seq<string>, c: char)
    requires forall i :: 0 <= i < |xs| ==> c !in xs[i]
    ensures c !in Concat(xs)
    decreases |xs|
  {
    if xs != [] {
      var init := xs[..|xs| - 1];
      assert forall i :: 0 <= i < |init| ==> init[i] == xs[i];
      ConcatCharFree(init, c);
    }
  }

  /** A character that no segment's text holds is not in the message. */
  lemma RenderCharFree(segs: seq<Segment>, c: char)
    requires forall i :: 0 <= i < |segs| ==> c !in SegmentText(segs[i])
    ensures c !in Render(segs)
  {
    ConcatCharFree(Texts(segs), c);
  }

  /** Every segment of a layout is filled from its values. */
  lemma LayoutFilled(cancel: bool, plum: bool, areas: bool, f: EewFields)
    ensures forall i :: 0 <= i < |Layout(cancel, plum, areas, f)| ==> FilledFrom(Layout(cancel, plum, areas, f)[i], f)
  {
    LayoutListed(cancel, plum, areas, f);
  }

  /** A layout holds the segment carrying a notice exactly under the flags the source appends it. */
  lemma LayoutCarriers(cancel: bool, plum: bool, areas: bool, f: EewFields, n: Notice)
    ensures Shown(cancel, plum, areas, n) ==>
      exists i :: 0 <= i < |Layout(cancel, plum, areas, f)| && Carries(Layout(cancel, plum, areas, f)[i], n)
    ensures !Shown(cancel, plum, areas, n) ==>
      forall i :: 0 <= i < |Layout(cancel, plum, areas, f)| ==> !Carries(Layout(cancel, plum, areas, f)[i], n)
  {
    LayoutListed(cancel, plum, areas, f);
    var l := Layout(cancel, plum, areas, f);
    if Shown(cancel, plum, areas, n) {
      var i := match n
        case Cancellation => 2
        case Plum => 2
        case Origin => if plum then 3 else 2
        case HypocenterReport => if plum then 4 else 3
        case Estimate => if plum then 5 else 4
        case AreaList => if plum then 6 else 5;
      assert Carries(l[i], n);
    }
  }

  /** The message shows every notice the source appends; and, as long as none of the values
      filled in holds the notice's marker character, it shows no other. */
  lemma LayoutShowsNotice(cancel: bool, plum: bool, areas: bool, f: EewFields, n: Notice)
    ensures Shown(cancel, plum, areas, n) ==> Contains(Render(Layout(cancel, plum, areas, f)), NoticeText(n))
    ensures FieldsFree(f, Marker(n)) && Contains(Render(Layout(cancel, plum, areas, f)), NoticeText(n)) ==>
      Shown(cancel, plum, areas, n)
  {
    var l := Layout(cancel, plum, areas, f);
    LayoutCarriers(cancel, plum, areas, f, n);
    if Shown(cancel, plum, areas, n) {
      var i :| 0 <= i < |l| && Carries(l[i], n);
      CarrierShowsNotice(l[i], n);
      RenderShowsSegment(l, i);
      ContainsTransitive(Render(l), SegmentText(l[i]), NoticeText(n));
    } else if FieldsFree(f, Marker(n)) {
      LayoutFilled(cancel, plum, areas, f);
      forall i | 0 <= i < |l|
        ensures Marker(n) !in SegmentText(l[i])
      {
        OthersLackMarker(l[i], f, n);
      }
      RenderCharFree(l, Marker(n));
      AbsentCharNotContained(Render(l), NoticeText(n), Marker(n));
    }
  }

  /** The area segment, present exactly when the source appends it, lists the names. */
  lemma LayoutListsAreas(cancel: bool, plum: bool, areas: bool, f: EewFields)
    ensures !cancel && areas ==>
      Contains(Render(Layout(cancel, plum, areas, f)), "\n\n" + AreaHeading + "\n" + f.chiikiList)
  {
    if !cancel && areas {
      LayoutListed(cancel, plum, areas, f);
      RenderShowsSegment(Layout(cancel, plum, areas, f), if plum then 6 else 5);
    }
  }

  // ---------------------------------------------------------------------------
  // The same facts about one message
  // ---------------------------------------------------------------------------

  /** None of the message's own field texts and area names holds `c`. */
  predicate ItemFree(d: EewItem, c: char) {
    && c !in Title(d) && c !in MaxInt(d) && c !in Hypocenter(d) && c !in Magnitude(d) && c !in Depth(d)
    && forall i :: 0 <= i < |WarnAreas(d)| ==> c !in AreaName(WarnAreas(d)[i]).GetOr("")
  }

  /** The serial line never holds a marker character. */
  lemma SerialTextFree(isFinal: bool, serial: nat, n: Notice)
    ensures Marker(n) !in SerialText(isFinal, serial)
  {
    var digits := DecimalText(serial);
    if !isFinal {
      assert SerialText(isFinal, serial) == "#" + ("第" + digits + "報");
      assert Marker(n) !in digits by {
        assert !IsDigit(Marker(n));
      }
    }
  }

  /** A message whose own texts lack the marker fills every value without it. */
  lemma ItemFieldsFree(d: EewItem, n: Notice)
    requires ItemFree(d, Marker(n))
    ensures FieldsFree(FieldsOf(d), Marker(n))
  {
    SerialTextFree(d.isFinal, d.serial, n);
    var names := NameTexts(AreaNames(WarnAreas(d)));
    assert Marker(n) !in "、";
    JoinCharFree(names, "、", Marker(n));
  }

  /**
   * The message shows each notice the source appends: the cancellation notice when
   * cancelled; otherwise the origin, hypocenter and estimate lines, the PLUM note when the
   * item is a PLUM estimate and the area section when it has warned areas. When none of the
   * item's own texts holds the notice's marker character, it shows no notice it does not append.
   */
  lemma MessageShowsNotice(d: EewItem, n: Notice)
    ensures Shown(d.isCancel, d.isAssumption, |WarnAreas(d)| > 0, n) ==> Contains(Render(Segments(d)), NoticeText(n))
    ensures ItemFree(d, Marker(n)) && Contains(Render(Segments(d)), NoticeText(n)) ==>
      Shown(d.isCancel, d.isAssumption, |WarnAreas(d)| > 0, n)
  {
    if ItemFree(d, Marker(n)) {
      ItemFieldsFree(d, n);
    }
    LayoutShowsNotice(d.isCancel, d.isAssumption, |WarnAreas(d)| > 0, FieldsOf(d), n);
  }

  /** A cancelled layout shows the cancellation notice and none of the other fixed texts,
      whatever the values it would show if it were not cancelled. */
  lemma CancelledLayoutShowsOnlyNotice(plum: bool, areas: bool, f: EewFields, n: Notice)
    requires Marker(n) !in f.title && Marker(n) !in f.serialText
    ensures Contains(Render(Layout(true, plum, areas, f)), NoticeText(n)) <==> n == Cancellation
  {
    var g := EewFields(f.title, f.serialText, "", "", "", "", "");
    CancelledLayout(plum, areas, f);
    CancelledLayout(plum, areas, g);
    assert Layout(true, plum, areas, f) == Layout(true, plum, areas, g);
    LayoutShowsNotice(true, plum, areas, g, n);
  }

  /** A cancelled message shows the cancellation notice and none of the other fixed texts,
      as long as its title holds none of the marker characters. */
  lemma CancelledShowsOnlyNotice(d: EewItem)
    requires d.isCancel
    requires forall n: Notice :: Marker(n) !in Title(d)
    ensures Contains(Render(Segments(d)), CancelNotice)
    ensures !Contains(Render(Segments(d)), PlumNote) && !Contains(Render(Segments(d)), OriginLabel)
    ensures !Contains(Render(Segments(d)), HypocenterTail) && !Contains(Render(Segments(d)), EstimateLead)
    ensures !Contains(Render(Segments(d)), AreaHeading)
  {
    var f := FieldsOf(d);
    forall n: Notice
      ensures Contains(Render(Segments(d)), NoticeText(n)) <==> n == Cancellation
    {
      SerialTextFree(d.isFinal, d.serial, n);
      CancelledLayoutShowsOnlyNotice(d.isAssumption, |WarnAreas(d)| > 0, f, n);
    }
    assert NoticeText(Cancellation) == CancelNotice && NoticeText(Plum) == PlumNote;
    assert NoticeText(Origin) == OriginLabel && NoticeText(HypocenterReport) == HypocenterTail;
    assert NoticeText(Estimate) == EstimateLead && NoticeText(AreaList) == AreaHeading;
  }

  /** Split at "、", the area list gives back every area's name, in input order. */
  lemma ChiikiListRoundTrip(areas: seq<Area>)
    requires |areas| >= 1
    requires forall i :: 0 <= i < |areas| ==> '、' !in AreaName(areas[i]).GetOr("")
    ensures Split(ChiikiList(areas), '、') == NameTexts(AreaNames(areas))
  {
    SplitJoin(NameTexts(AreaNames(areas)), '、');
  }

  /** A non-cancelled message with warned areas lists them under the area heading. */
  lemma MessageListsAreas(d: EewItem)
    requires !d.isCancel && |WarnAreas(d)| > 0
    ensures Contains(Render(Segments(d)), "\n\n" + AreaHeading + "\n" + ChiikiList(WarnAreas(d)))
  {
    LayoutListsAreas(d.isCancel, d.isAssumption, true, FieldsOf(d));
  }
}
