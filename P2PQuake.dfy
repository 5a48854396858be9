/**
 * The quake-information parser: the lookup helpers (depth text, scale label,
 * scale rank, tsunami sentence, area text) and the template builder that turns
 * one P2P earthquake-information item into a notification record.
 */
module P2PQuake {
  import opened Wrappers
  import opened Text
  import opened Notification

  // ---------------------------------------------------------------------------
  // Payload
  // ---------------------------------------------------------------------------

  datatype Hypocenter = Hypocenter(name: Option<string>, magnitude: Option<real>, depth: Option<int>)

  datatype Earthquake = Earthquake(
    hypocenter: Hypocenter,
    maxScale: Option<int>,
    domesticTsunami: Option<string>,
    foreignTsunami: Option<string>)

  /** The `issue` object; `issueType` is its `type` key. */
  datatype Issue = Issue(issueType: Option<string>)

  datatype Comments = Comments(freeFormComment: Option<string>)

  /** One item of the P2P feed. `earthquake` and its hypocenter are taken as present: the source
      throws without them, and the model has no error case for that. */
  datatype QuakeItem = QuakeItem(
    id: string,
    issue: Option<Issue>,
    earthquake: Earthquake,
    lfeClass: Option<int>,
    comments: Option<Comments>,
    points: Option<seq<ObservationPoint>>)

  // ---------------------------------------------------------------------------
  // Depth
  // ---------------------------------------------------------------------------

  /** Display text of a depth in km. */
  function DepthToText(depth: Option<int>): (r: string)
    ensures r == "不明" <==> depth.None? || depth.value < 0
    ensures r == "ごく浅い" <==> depth == Some(0)
    ensures depth.Some? && depth.value > 0 ==>
      r == DecimalText(depth.value) + "km" && EndsWith(r, "km")
      && DigitsValue(r[..|r| - 2]) == depth.value
  {
    if depth.None? || depth.value < 0 then "不明"
    else if depth.value == 0 then "ごく浅い"
    else
      var digits := DecimalText(depth.value);
      DecimalTextRoundTrip(depth.value);
      assert (digits + "km")[..|digits|] == digits;
      digits + "km"
  }

  // ---------------------------------------------------------------------------
  // Scale label and rank
  // ---------------------------------------------------------------------------

  /** The intensity-code table of scaleToText. */
  const ScaleLabels: map<int, string> :=
    map[10 := "1", 20 := "2", 30 := "3", 40 := "4", 45 := "5弱",
        50 := "5強", 55 := "6弱", 60 := "6強", 70 := "7"]

  /** The rank table of compareScale, keyed by label. */
  const ScaleRanks: map<string, int> :=
    map["1" := 10, "2" := 20, "3" := 30, "4" := 40, "5弱" := 45,
        "5強" := 50, "6弱" := 55, "6強" := 60, "7" := 70]

  /** Every text ScaleToText can produce. */
  const ScaleTexts: set<string> := {"1", "2", "3", "4", "5弱", "5強", "6弱", "6強", "7", "不明"}

  /** Display label of an intensity code: its table entry, else "不明". */
  function ScaleToText(scale: Option<int>): (r: string)
    ensures r in ScaleTexts
    ensures scale.Some? && scale.value in ScaleLabels ==> r == ScaleLabels[scale.value]
    ensures r == "不明" <==> scale.None? || scale.value !in ScaleLabels
  {
    if scale.None? || scale.value < 0 then "不明"
    // an empty table entry would fall back too, as the source falls back on any falsy label
    else if scale.value in ScaleLabels && ScaleLabels[scale.value] != "" then ScaleLabels[scale.value]
    else "不明"
  }

  /** The nine table codes give their labels; a code between them does not. */
  lemma ScaleLabelTable()
    ensures ScaleToText(Some(10)) == "1" && ScaleToText(Some(20)) == "2"
    ensures ScaleToText(Some(30)) == "3" && ScaleToText(Some(40)) == "4"
    ensures ScaleToText(Some(45)) == "5弱" && ScaleToText(Some(50)) == "5強"
    ensures ScaleToText(Some(55)) == "6弱" && ScaleToText(Some(60)) == "6強"
    ensures ScaleToText(Some(70)) == "7"
    ensures ScaleToText(Some(35)) == "不明" && ScaleToText(Some(-1)) == "不明"
    ensures ScaleToText(None) == "不明"
  {
  }

  /** `order[text] || 0`. */
  function Rank(text: string): (r: int)
    ensures text !in ScaleRanks ==> r == 0
    ensures text in ScaleRanks ==> r == ScaleRanks[text] && r >= 10
  {
    if text in ScaleRanks && ScaleRanks[text] != 0 then ScaleRanks[text] else 0
  }

  /** Sign gives the order of two labels: positive when `a` is the stronger intensity. */
  function CompareScale(a: string, b: string): int {
    Rank(a) - Rank(b)
  }

  lemma CompareScaleAntisymmetric(a: string, b: string)
    ensures CompareScale(a, b) == -CompareScale(b, a)
    ensures CompareScale(a, a) == 0
  {
  }

  /** Any label outside the rank table, "不明" included, ranks as 0, below every table label. */
  lemma UnrecognisedLabelRanksLowest(a: string, b: string)
    requires a !in ScaleRanks
    ensures Rank(a) == 0 && Rank("不明") == 0
    ensures b in ScaleRanks ==> CompareScale(a, b) < 0
  {
  }

  /** The rank table inverts the label table: ranking the label of a code gives the code back. */
  lemma RankInvertsScaleLabel(code: int)
    requires code in ScaleLabels
    ensures Rank(ScaleToText(Some(code))) == code
  {
  }

  /** Comparing the labels of two table codes compares the codes themselves. */
  lemma CompareScaleFollowsCodes(c1: int, c2: int)
    requires c1 in ScaleLabels && c2 in ScaleLabels
    ensures CompareScale(ScaleToText(Some(c1)), ScaleToText(Some(c2))) == c1 - c2
    ensures CompareScale(ScaleToText(Some(c1)), ScaleToText(Some(c2))) > 0 <==> c1 > c2
  {
    RankInvertsScaleLabel(c1);
    RankInvertsScaleLabel(c2);
  }

  // ---------------------------------------------------------------------------
  // Tsunami sentence
  // ---------------------------------------------------------------------------

  const TsunamiIssued := "津波に関する情報を発表しています。"
  const TsunamiMinorChange := "津波予報(若干の海面変動)を発表していますが、被害の心配はありません。"
  const TsunamiNoDomesticRisk := "この地震による国内での津波の心配はありません。"
  const TsunamiNoRisk := "この地震による津波の心配はありません。"
  const TsunamiChecking := "この地震による津波の有無を現在調査中です。"
  const TsunamiUnknown := "この地震による津波の有無は不明です。"
  const TsunamiError := "津波情報：エラー！"

  const TsunamiSentences: set<string> := {
    TsunamiIssued, TsunamiMinorChange, TsunamiNoDomesticRisk, TsunamiNoRisk,
    TsunamiChecking, TsunamiUnknown, TsunamiError }

  /** The domestic statuses the decision table handles. */
  const KnownDomesticStatuses: set<string> :=
    {"Warning", "Watch", "NonEffective", "None", "Checking", "Unknown"}

  /** Tsunami sentence for a domestic and a foreign tsunami status. */
  function BuildTsunamiText(domestic: Option<string>, foreign: Option<string>): (r: string)
    ensures r in TsunamiSentences
    ensures r == TsunamiError <==> LogicalOr(domestic, "Unknown") !in KnownDomesticStatuses
    ensures r == TsunamiIssued <==> LogicalOr(domestic, "Unknown") in {"Warning", "Watch"}
    ensures r == TsunamiMinorChange <==> LogicalOr(domestic, "Unknown") == "NonEffective"
    ensures r == TsunamiChecking <==> LogicalOr(domestic, "Unknown") == "Checking"
    ensures r == TsunamiUnknown <==> LogicalOr(domestic, "Unknown") == "Unknown"
    ensures r in {TsunamiNoDomesticRisk, TsunamiNoRisk} <==> LogicalOr(domestic, "Unknown") == "None"
  {
    var d := LogicalOr(domestic, "Unknown");
    var f := LogicalOr(foreign, "");
    if d == "Warning" || d == "Watch" then TsunamiIssued
    else if d == "NonEffective" then TsunamiMinorChange
    else if d == "None" then
      (if f == "Warning" || f == "Watch" then TsunamiNoDomesticRisk else TsunamiNoRisk)
    else if d == "Checking" then TsunamiChecking
    else if d == "Unknown" then TsunamiUnknown
    else TsunamiError
  }

  /** The foreign status matters only when the domestic status is "None", and there
      it picks the domestic-only sentence exactly for a foreign Warning or Watch. */
  lemma ForeignTsunamiMattersOnlyForNone(domestic: Option<string>, f1: Option<string>, f2: Option<string>)
    ensures LogicalOr(domestic, "Unknown") != "None" ==>
      BuildTsunamiText(domestic, f1) == BuildTsunamiText(domestic, f2)
    ensures LogicalOr(domestic, "Unknown") == "None" ==>
      BuildTsunamiText(domestic, f1) ==
        if f1 == Some("Warning") || f1 == Some("Watch") then TsunamiNoDomesticRisk else TsunamiNoRisk
  {
  }

  /** An absent or empty domestic status reads as "Unknown". */
  lemma AbsentDomesticTsunamiIsUnknown(foreign: Option<string>)
    ensures BuildTsunamiText(None, foreign) == BuildTsunamiText(Some("Unknown"), foreign) == TsunamiUnknown
    ensures BuildTsunamiText(Some(""), foreign) == TsunamiUnknown
  {
  }

  // ---------------------------------------------------------------------------
  // Area text
  // ---------------------------------------------------------------------------

  /** The per-area breakdown. The source has it as a stub that renders nothing. */
  function BuildAreaText(points: seq<ObservationPoint>): (r: string)
    ensures r == ""
  {
    ""
  }

  // ---------------------------------------------------------------------------
  // Report subtypes and templates
  // ---------------------------------------------------------------------------

  /** The four templates; DetailScale also serves "Unknown" and every other issue type. */
  datatype Subtype = ScalePrompt | Destination | DetailScale | Foreign

  function SubtypeOf(issueType: string): (k: Subtype)
    ensures k == ScalePrompt <==> issueType == "ScalePrompt"
    ensures k == Destination <==> issueType == "Destination"
    ensures k == Foreign <==> issueType == "Foreign"
    ensures k == DetailScale <==> issueType !in {"ScalePrompt", "Destination", "Foreign"}
  {
    if issueType == "ScalePrompt" then ScalePrompt
    else if issueType == "Destination" then Destination
    else if issueType == "Foreign" then Foreign
    else DetailScale
  }

  function TitlePrefix(k: Subtype): string {
    match k
    case ScalePrompt => "《震度速報》"
    case Destination => "《震源速報》"
    case DetailScale => "《地震情報》"
    case Foreign => "《遠地地震情報》"
  }

  function SummaryPrefix(k: Subtype): string {
    match k
    case ScalePrompt => "【速報】"
    case Destination => "【震源】"
    case DetailScale => "【詳細】"
    case Foreign => "【遠地】"
  }

  /** The display time the source uses in place of the event time. */
  const TimeJST := "2025/11/07 01:23"
  const Attribution := "出典：P2P地震情報API(気象庁)"
  const NoPointsPlaceholder := "◁震度情報不明▷"
  const LfePhrase := "長周期地震動階級"
  const CommentLabel := "備考："

  /** `item.issue?.type || "Unknown"`. */
  function ReportType(item: QuakeItem): string {
    if item.issue.Some? then LogicalOr(item.issue.value.issueType, "Unknown") else "Unknown"
  }

  function Place(h: Hypocenter): string {
    LogicalOr(h.name, "(発生地点不明)")
  }

  function MagnitudeText(h: Hypocenter, nums: HostNumbers): string {
    if h.magnitude.Some? && h.magnitude.value >= 0.0 then nums.toFixed1(h.magnitude.value) else "不明"
  }

  /** The sentence reporting long-period ground-motion class `lfe`. */
  function LfeObserved(lfe: nat): string {
    LfePhrase + DecimalText(lfe) + "を観測しています"
  }

  function LfeText(item: QuakeItem): string {
    if item.lfeClass.Some? && item.lfeClass.value >= 0
    then "\nまた、この地震について" + LfeObserved(item.lfeClass.value)
    else ""
  }

  function CommentText(item: QuakeItem): string {
    if item.comments.Some? && item.comments.value.freeFormComment.Some?
       && item.comments.value.freeFormComment.value != ""
    then "\n" + CommentLabel + Trim(item.comments.value.freeFormComment.value)
    else ""
  }

  function IntensityInfoText(item: QuakeItem): string {
    if item.points.Some? && |item.points.value| > 0 then BuildAreaText(item.points.value)
    else "\n" + NoPointsPlaceholder
  }

  /** The values the templates are filled with. */
  datatype QuakeFields = QuakeFields(
    place: string,
    maxScaleText: string,
    magnitudeText: string,
    depthText: string,
    tsunamiText: string,
    lfeText: string,
    commentText: string,
    intensityInfoText: string)

  function FieldsOf(item: QuakeItem, nums: HostNumbers): QuakeFields {
    var eq := item.earthquake;
    var h := eq.hypocenter;
    QuakeFields(
      Place(h),
      ScaleToText(eq.maxScale),
      MagnitudeText(h, nums),
      DepthToText(h.depth),
      BuildTsunamiText(eq.domesticTsunami, eq.foreignTsunami),
      LfeText(item),
      CommentText(item),
      IntensityInfoText(item))
  }

  /** The time line and the hypocenter, intensity and tsunami lines of a template. */
  function Lines(k: Subtype, f: QuakeFields): string {
    match k
    case ScalePrompt =>
      "\n" + TimeJST
      + "\n最大震度 " + f.maxScaleText
      + "\n" + f.tsunamiText
    case Destination =>
      "\n" + TimeJST
      + "\n震源地 " + f.place
      + "\nマグニチュード " + f.magnitudeText
      + "\n深さ " + f.depthText
      + "\n" + f.tsunamiText
    case _ =>
      "\n" + TimeJST
      + "\n震源地 " + f.place
      + "\n最大震度 " + f.maxScaleText
      + "\nマグニチュード " + f.magnitudeText
      + "\n深さ " + f.depthText
      + "\n" + f.tsunamiText
  }

  /** The long-period-motion and comment lines, which only the DetailScale template has. */
  function Notes(k: Subtype, f: QuakeFields): string {
    if k == DetailScale then f.lfeText + f.commentText else ""
  }

  /** The intensity heading and the area text; the Destination template has none. */
  function AreaSection(k: Subtype, f: QuakeFields): string {
    match k
    case ScalePrompt => "\n\n◆各地の震度(速報値)◆\n" + f.intensityInfoText
    case Destination => ""
    case _ => "\n\n◆各地の震度◆\n" + f.intensityInfoText
  }

  /** What a template holds between its title prefix and its closing attribution. */
  function Body(k: Subtype, f: QuakeFields): string {
    Lines(k, f) + Notes(k, f) + AreaSection(k, f)
  }

  /** The blank line and attribution line that close every template. */
  const Closing := "\n\n" + Attribution

  /** The full-text template of one subtype, before trimming. */
  function Template(k: Subtype, f: QuakeFields): string {
    TitlePrefix(k) + Body(k, f) + Closing
  }

  /** Every template opens with its title prefix and closes with the attribution line. */
  lemma TemplateFrame(k: Subtype, f: QuakeFields)
    ensures StartsWith(Template(k, f), TitlePrefix(k))
    ensures EndsWith(Template(k, f), Closing)
    ensures EndsWith(Template(k, f), Attribution)
  {
    var t, b := TitlePrefix(k), Body(k, f);
    Framed(t, b, Closing);
    EndsWithSuffix(t + b + Closing, "\n\n", Attribution);
  }

  /** Trimming a template changes nothing: it starts with a title bracket and ends with ")". */
  lemma TemplateTrimmed(k: Subtype, f: QuakeFields)
    ensures Trim(Template(k, f)) == Template(k, f)
  {
    TemplateFrame(k, f);
    TrimFramed(Template(k, f), TitlePrefix(k), Attribution);
  }

  /** The one-line digest: summary prefix, then scale label, place and magnitude. */
  function ListSummary(k: Subtype, f: QuakeFields): string {
    SummaryPrefix(k) + SummaryDetail(f)
  }

  function SummaryDetail(f: QuakeFields): string {
    (" 震度" + f.maxScaleText) + (" " + f.place) + (" M" + f.magnitudeText)
  }

  /** `parseFloat(h.depth) || null` for an integer depth: absent and zero give null. */
  function DepthKm(depth: Option<int>): Option<real> {
    OrNull(if depth.Some? then Some(depth.value as real) else None)
  }

  /** The report type is "Unknown" exactly when the issue type is absent, empty or "Unknown". */
  lemma ReportTypeUnknown(item: QuakeItem)
    ensures ReportType(item) == "Unknown" <==>
      item.issue.None? || item.issue.value.issueType.None?
      || item.issue.value.issueType.value in {"", "Unknown"}
  {
  }

  /** The last five characters of the fixed display time are its hour and minute. */
  lemma DisplayClock()
    ensures SliceLast(TimeJST, 5) == "01:23"
  {
    assert TimeJST[|TimeJST| - 5..] == "01:23";
  }

  /** parseP2PQuake: one quake item as a notification record. */
  function ParseP2PQuake(item: QuakeItem, nums: HostNumbers): (r: NotificationRecord)
    ensures r.reportType == ReportType(item)
    ensures r.reportType == "Unknown" <==>
      item.issue.None? || item.issue.value.issueType.None?
      || item.issue.value.issueType.value in {"", "Unknown"}
    ensures r.id == item.id + "_" + r.reportType
    ensures !r.isCanceled
    ensures r.reportTime == "01:23" && EndsWith(TimeJST, r.reportTime)
    ensures r.fullText == Template(SubtypeOf(r.reportType), FieldsOf(item, nums))
    ensures r.listSummary == ListSummary(SubtypeOf(r.reportType), FieldsOf(item, nums))
    ensures r.structuredData.QuakeData?
    ensures r.structuredData.points == if item.points.Some? then item.points.value else []
    ensures r.structuredData.maxIntensity == ScaleToText(item.earthquake.maxScale)
    ensures r.structuredData.hypocenterRegion == LogicalOr(item.earthquake.hypocenter.name, "(発生地点不明)")
  {
    var kind := ReportType(item);
    var k := SubtypeOf(kind);
    var f := FieldsOf(item, nums);
    var text := Template(k, f);
    TemplateTrimmed(k, f);
    ReportTypeUnknown(item);
    DisplayClock();
    NotificationRecord(
      id := item.id + "_" + kind,
      reportType := kind,
      reportTime := SliceLast(TimeJST, 5),
      isCanceled := false,
      listSummary := ListSummary(k, f),
      fullText := Trim(text),
      structuredData := QuakeData(
        maxIntensity := f.maxScaleText,
        magnitude := OrNull(nums.parseFloat(f.magnitudeText)),
        hypocenterRegion := f.place,
        depthKm := DepthKm(item.earthquake.hypocenter.depth),
        points := item.points.GetOr([])))
  }

  /** The full text of every subtype opens with that subtype's title prefix and closes
      with the attribution line. */
  lemma FullTextFrame(item: QuakeItem, nums: HostNumbers)
    ensures var r := ParseP2PQuake(item, nums);
      && StartsWith(r.fullText, TitlePrefix(SubtypeOf(r.reportType)))
      && EndsWith(r.fullText, "\n\n" + Attribution)
  {
    TemplateFrame(SubtypeOf(ReportType(item)), FieldsOf(item, nums));
  }

  /** The list summary opens with the subtype's summary prefix, followed by the scale
      label, and closes with the magnitude text. */
  lemma ListSummaryShape(item: QuakeItem, nums: HostNumbers)
    ensures var r := ParseP2PQuake(item, nums);
      && StartsWith(r.listSummary, SummaryPrefix(SubtypeOf(r.reportType)))
      && StartsWith(r.listSummary[|SummaryPrefix(SubtypeOf(r.reportType))|..], " 震度" + r.structuredData.maxIntensity)
      && EndsWith(r.listSummary, " M" + MagnitudeText(item.earthquake.hypocenter, nums))
  {
    var k, f := SubtypeOf(ReportType(item)), FieldsOf(item, nums);
    Framed(SummaryPrefix(k), SummaryDetail(f), "");
    Framed(" 震度" + f.maxScaleText, " " + f.place, " M" + f.magnitudeText);
    EndsWithExtended(SummaryDetail(f), " M" + f.magnitudeText, SummaryPrefix(k));
    assert (SummaryPrefix(k) + SummaryDetail(f))[|SummaryPrefix(k)|..] == SummaryDetail(f);
  }

  // ---------------------------------------------------------------------------
  // Which segments each template carries
  // ---------------------------------------------------------------------------

  /** An absent or unrecognised issue type selects the DetailScale template and its prefixes. */
  lemma UnrecognisedTypeUsesDetailTemplate(item: QuakeItem, nums: HostNumbers)
    requires item.issue.None?
      || item.issue.value.issueType !in {Some("ScalePrompt"), Some("Destination"), Some("Foreign")}
    ensures var r := ParseP2PQuake(item, nums);
      && SubtypeOf(r.reportType) == DetailScale
      && StartsWith(r.fullText, "《地震情報》")
      && StartsWith(r.listSummary, "【詳細】")
  {
    UnrecognisedTypeIsDetail(item);
    FullTextFrame(item, nums);
    ListSummaryShape(item, nums);
  }

  lemma UnrecognisedTypeIsDetail(item: QuakeItem)
    requires item.issue.None?
      || item.issue.value.issueType !in {Some("ScalePrompt"), Some("Destination"), Some("Foreign")}
    ensures SubtypeOf(ReportType(item)) == DetailScale
  {
  }

  /** The notes and the area section of a template occur in its text. */
  lemma TemplateContainsNotesAndArea(k: Subtype, f: QuakeFields)
    ensures Contains(Template(k, f), Notes(k, f))
    ensures Contains(Template(k, f), AreaSection(k, f))
  {
    var t, l, n, a := TitlePrefix(k), Lines(k, f), Notes(k, f), AreaSection(k, f);
    assert Template(k, f) == (t + l) + n + (a + Closing);
    ContainsInfix(t + l, n, a + Closing);
    assert Template(k, f) == (t + l + n) + a + Closing;
    ContainsInfix(t + l + n, a, Closing);
  }

  lemma AreaSectionShowsPlaceholder(k: Subtype, f: QuakeFields)
    requires k != Destination
    requires f.intensityInfoText == "\n" + NoPointsPlaceholder
    ensures Contains(Template(k, f), NoPointsPlaceholder)
  {
    var heading := if k == ScalePrompt then "◆各地の震度(速報値)◆" else "◆各地の震度◆";
    assert AreaSection(k, f) == "\n\n" + heading + "\n\n" + NoPointsPlaceholder + "";
    ContainsInfix("\n\n" + heading + "\n\n", NoPointsPlaceholder, "");
    TemplateContainsNotesAndArea(k, f);
    ContainsTransitive(Template(k, f), AreaSection(k, f), NoPointsPlaceholder);
  }

  /** Without observation points, every template that has an area section shows the
      placeholder in it. */
  lemma NoPointsShowsPlaceholder(item: QuakeItem, nums: HostNumbers)
    requires item.points.None? || |item.points.value| == 0
    requires SubtypeOf(ReportType(item)) != Destination
    ensures Contains(ParseP2PQuake(item, nums).fullText, NoPointsPlaceholder)
  {
    AreaSectionShowsPlaceholder(SubtypeOf(ReportType(item)), FieldsOf(item, nums));
  }

  /** Proof step: the long-period sentence sits inside the DetailScale notes. */
  lemma NotesShowLfe(f: QuakeFields)
    ensures Contains(Template(DetailScale, f), f.lfeText)
  {
    var notes := Notes(DetailScale, f);
    assert notes == f.lfeText + f.commentText;
    TemplateContainsNotesAndArea(DetailScale, f);
    assert notes == "" + f.lfeText + f.commentText;
    ContainsInfix("", f.lfeText, f.commentText);
    ContainsTransitive(Template(DetailScale, f), notes, f.lfeText);
  }

  /** Proof step: the comment line sits inside the DetailScale notes. */
  lemma NotesShowComment(f: QuakeFields)
    ensures Contains(Template(DetailScale, f), f.commentText)
  {
    var notes := Notes(DetailScale, f);
    assert notes == f.lfeText + f.commentText;
    TemplateContainsNotesAndArea(DetailScale, f);
    assert notes == f.lfeText + f.commentText + "";
    ContainsInfix(f.lfeText, f.commentText, "");
    ContainsTransitive(Template(DetailScale, f), notes, f.commentText);
  }

  /** A long-period-motion class and a non-empty comment show up in the DetailScale text. */
  lemma DetailTemplateShowsNotes(item: QuakeItem, nums: HostNumbers)
    requires SubtypeOf(ReportType(item)) == DetailScale
    ensures item.lfeClass.Some? && item.lfeClass.value >= 0 ==>
      Contains(ParseP2PQuake(item, nums).fullText, LfeObserved(item.lfeClass.value))
    ensures item.comments.Some? && item.comments.value.freeFormComment.Some?
            && item.comments.value.freeFormComment.value != "" ==>
      Contains(ParseP2PQuake(item, nums).fullText,
               "\n" + CommentLabel + Trim(item.comments.value.freeFormComment.value))
  {
    var f := FieldsOf(item, nums);
    NotesShowLfe(f);
    NotesShowComment(f);
    if item.lfeClass.Some? && item.lfeClass.value >= 0 {
      var phrase := LfeObserved(item.lfeClass.value);
      ContainsInfix("\nまた、この地震について", phrase, "");
      assert f.lfeText == "\nまた、この地震について" + phrase + "";
      ContainsTransitive(Template(DetailScale, f), f.lfeText, phrase);
    }
  }

  /** The Destination template has no intensity line and no area section: its text
      depends neither on the maximum scale nor on the observation points. */
  lemma DestinationOmitsAreaSection(item: QuakeItem, nums: HostNumbers,
                                    maxScale: Option<int>, points: Option<seq<ObservationPoint>>)
    requires SubtypeOf(ReportType(item)) == Destination
    ensures var other := item.(points := points, earthquake := item.earthquake.(maxScale := maxScale));
      ParseP2PQuake(other, nums).fullText == ParseP2PQuake(item, nums).fullText
  {
    var other := item.(points := points, earthquake := item.earthquake.(maxScale := maxScale));
    assert Template(Destination, FieldsOf(item, nums)) == Template(Destination, FieldsOf(other, nums));
  }

  /** The long-period-motion and comment lines belong to the DetailScale template only:
      the other templates' text does not depend on them. */
  lemma NotesOnlyInDetailTemplate(item: QuakeItem, nums: HostNumbers,
                                  lfeClass: Option<int>, comments: Option<Comments>)
    requires SubtypeOf(ReportType(item)) != DetailScale
    ensures ParseP2PQuake(item.(lfeClass := lfeClass, comments := comments), nums).fullText
         == ParseP2PQuake(item, nums).fullText
  {
    var k := SubtypeOf(ReportType(item));
    var other := item.(lfeClass := lfeClass, comments := comments);
    assert Template(k, FieldsOf(item, nums)) == Template(k, FieldsOf(other, nums));
  }

  // ---------------------------------------------------------------------------
  // Structured data
  // ---------------------------------------------------------------------------

  /** depth_km carries the depth, except that an absent depth and also a zero depth
      ("ごく浅い") read as null, while an unknown negative depth passes through. */
  lemma DepthKmNullCases(item: QuakeItem, nums: HostNumbers)
    ensures var d := item.earthquake.hypocenter.depth;
      var km := ParseP2PQuake(item, nums).structuredData.depthKm;
      && (km.None? <==> d.None? || d.value == 0)
      && (km.Some? ==> km.value == d.value as real)
  {
  }

  /** magnitude is null when parseFloat of the magnitude text gives NaN or zero. */
  lemma MagnitudeNullCases(item: QuakeItem, nums: HostNumbers)
    ensures var text := MagnitudeText(item.earthquake.hypocenter, nums);
      var m := ParseP2PQuake(item, nums).structuredData.magnitude;
      && (m.None? <==> nums.parseFloat(text).None? || nums.parseFloat(text).value == 0.0)
      && (m.Some? ==> m == nums.parseFloat(text))
  {
  }
}
