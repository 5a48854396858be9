# Earthquake notification parsers, modelled in Dafny

This project models the two parsers of a disaster-notification service. Each turns one upstream earthquake payload into the same notification record:
- an `id`;
- a `report_type`;
- a `report_time`;
- an `is_canceled` flag;
- a one-line `list_summary`;
- a multi-line `full_text`;
- a `structured_data` block for map and alert layers.

The modules are:
- `Wrappers`: the `Option` type used for absent JSON fields.
- `Text`: strings as `seq<char>`. It covers the decimal text of an integer and its inverse, prefix, suffix and infix tests, `Array.prototype.join` with its inverse `String.prototype.split`, and the exact ECMAScript `String.prototype.trim`.
- `Notification`: the record both parsers return. It also holds the JavaScript operators the parsers apply to optional fields:
  - `||` on a string (`LogicalOr`);
  - `??` (`NullishCoalesce`);
  - `x || null` on a parsed number (`OrNull`);
  - `slice(-n)` (`SliceLast`).
- `P2PQuake`: the P2P earthquake-information parser, written as pure functions. It contains:
  - the depth text;
  - the intensity-code label table and the reverse rank table used to order labels;
  - the tsunami decision table;
  - the area-text stub;
  - the subtype-dispatching template builder, with four templates: ScalePrompt, Destination, DetailScale/default and Foreign.
- `WolfxEEW`: the Wolfx earthquake-early-warning parser.
  - `ComposeMessage` builds the message body imperatively. It appends to a local string, under the cancel, PLUM and warned-area conditions, in the source's order.
  - The method is proved equal to `Render(Segments(data))`, which is the list of segments those conditions select, concatenated.
  - The facts about the text are then proved about that list: prefix, suffix, second line, the cancelled form, and which fixed texts appear under which flags.
  - `ParseWolfxEEW` builds the record around the message.

The host's number conversions cannot be defined exactly here: `Number.prototype.toFixed(1)` and `parseFloat`. They are parameters. `parseFloat` answers `None` where JavaScript yields NaN. The hard-coded display times of both parsers are constants with the source's values.

In four places the model follows what the code does, which differs from what a reader might expect:
- The scale labels are "5弱", "5強", "6弱" and "6強", with no English suffix.
- `buildAreaText` is a stub that returns the empty string. No per-area breakdown is modelled.
- A parsed magnitude or depth of zero becomes null, because the code uses `|| null`.
- The EEW `report_time` is the last five characters of the fixed origin string, "3時40分", not an HH:mm time.

## Model

| member | source | states |
|---|---|---|
| Text.DecimalTextRoundTrip | src/P2PQuake_parser.js:9 | the shortest decimal text of a natural number reads back as the same number; for integers below 2^53 that is the text JavaScript interpolates |
| Text.DecimalTextInjective | src/WolfxEEW_parser.js:63 | different serial numbers give different decimal texts, so the `id` suffix names the serial |
| Text.SplitJoin | src/WolfxEEW_parser.js:52 | splitting a non-empty joined list at a separator character that no element contains gives back the list (an empty list joins to "", which splits to one empty string) |
| Text.TrimFramed | src/WolfxEEW_parser.js:71 | trim leaves unchanged a text that starts and ends with a non-whitespace character |
| Notification.LogicalOr | src/P2PQuake_parser.js:59 | JavaScript's logical or on a string field: an absent or empty string gives the fallback, any other string is kept |
| Notification.NullishCoalesce | src/WolfxEEW_parser.js:12-13 | `s ?? fallback`: only an absent field gives the fallback, so an empty string is kept |
| Notification.OrNull | src/WolfxEEW_parser.js:80-81 | logical or with null on a parsed number: the result is null exactly when the parsed number is NaN or zero, and otherwise is the number |
| Notification.SliceLast | src/WolfxEEW_parser.js:60 | `slice(-n)` for a positive n returns a suffix of the string of length min(n, length) |
| P2PQuake.DepthToText | src/P2PQuake_parser.js:6-10 | "不明" exactly for an absent or negative depth, "ごく浅い" exactly for zero, and otherwise the decimal text followed by "km", whose digits read back as the depth |
| P2PQuake.ScaleToText | src/P2PQuake_parser.js:12-17 | the result is always one of the ten texts; a table code gives its label; "不明" exactly for null, negative or off-table codes |
| P2PQuake.ScaleLabelTable | src/P2PQuake_parser.js:15 | each of the nine codes 10…70 gives its label, and 35, -1 and null give "不明" |
| P2PQuake.Rank | src/P2PQuake_parser.js:34-35 | a label in the rank table gives its rank, at least 10; any other label gives 0 |
| P2PQuake.CompareScaleAntisymmetric | src/P2PQuake_parser.js:33-36 | swapping the arguments negates the comparison, and a label compares equal to itself |
| P2PQuake.UnrecognisedLabelRanksLowest | src/P2PQuake_parser.js:35 | an unrecognised label, "不明" included, ranks 0 and compares below every table label |
| P2PQuake.RankInvertsScaleLabel | src/P2PQuake_parser.js:34 | the rank of the label of a table code is that code, so the rank table inverts the label table |
| P2PQuake.CompareScaleFollowsCodes | src/P2PQuake_parser.js:33-36 | comparing the labels of two table codes gives their difference, positive exactly when the first code is greater |
| P2PQuake.BuildTsunamiText | src/P2PQuake_parser.js:19-31 | the result is one of seven fixed sentences; for each domestic status (absent or empty read as "Unknown"), the if-and-only-if for the sentence it selects, and the error sentence exactly for statuses outside the six handled |
| P2PQuake.ForeignTsunamiMattersOnlyForNone | src/P2PQuake_parser.js:24-27 | the foreign status changes the sentence only when the domestic status is "None"; there, a foreign Warning or Watch gives the domestic-only sentence and anything else the plain one |
| P2PQuake.AbsentDomesticTsunamiIsUnknown | src/P2PQuake_parser.js:20 | an absent or empty domestic status gives the same sentence as "Unknown" |
| P2PQuake.BuildAreaText | src/P2PQuake_parser.js:38-44 | the stub renders no text for any list of points |
| P2PQuake.SubtypeOf | src/P2PQuake_parser.js:77-140 | the issue types "ScalePrompt", "Destination" and "Foreign" select their own templates; every other type selects the DetailScale template |
| P2PQuake.ParseP2PQuake | src/P2PQuake_parser.js:55-164 | `report_type` is the issue type, or "Unknown" exactly when it is absent, empty or "Unknown"; `id` is the item id, "_" and the type; never cancelled; `report_time` is the last five characters of the display time; the full text and summary are the selected template and summary; `points` is passed through or empty; `max_intensity` is the scale label; `hypocenter_region` is the place name, or "(発生地点不明)" when it is absent or empty |
| P2PQuake.ReportTypeUnknown | src/P2PQuake_parser.js:58 | the report type is "Unknown" exactly when the issue or its type is absent, or the type is empty or "Unknown" |
| P2PQuake.DisplayClock | src/P2PQuake_parser.js:147 | the report time cut from the fixed display time is "01:23" |
| P2PQuake.FullTextFrame | src/P2PQuake_parser.js:73-151 | the full text of every subtype starts with that subtype's title prefix and ends with the attribution line |
| P2PQuake.TemplateTrimmed | src/P2PQuake_parser.js:151 | trimming a template changes nothing |
| P2PQuake.ListSummaryShape | src/P2PQuake_parser.js:150 | the summary starts with the subtype's summary prefix, then " 震度" and the scale label, and ends with " M" and the magnitude text |
| P2PQuake.UnrecognisedTypeUsesDetailTemplate | src/P2PQuake_parser.js:105-122 | an absent or unrecognised issue type gives the 《地震情報》 text and the 【詳細】 summary |
| P2PQuake.TemplateContainsNotesAndArea | src/P2PQuake_parser.js:110-121 | the notes and the area section of a template occur in its text |
| P2PQuake.NoPointsShowsPlaceholder | src/P2PQuake_parser.js:71 | with absent or zero observation points, every template except Destination shows "◁震度情報不明▷" |
| P2PQuake.DetailTemplateShowsNotes | src/P2PQuake_parser.js:67-68 | in the DetailScale text, a non-negative long-period class shows its sentence, and a non-empty comment shows as "備考：" followed by the trimmed comment |
| P2PQuake.DestinationOmitsAreaSection | src/P2PQuake_parser.js:92-103 | the Destination text depends neither on the maximum scale nor on the points, so it has no area section |
| P2PQuake.NotesOnlyInDetailTemplate | src/P2PQuake_parser.js:78-139 | outside the DetailScale template, the long-period class and the comment do not affect the text |
| P2PQuake.DepthKmNullCases | src/P2PQuake_parser.js:159 | `depth_km` is null exactly for an absent or zero depth, and otherwise is the depth |
| P2PQuake.MagnitudeNullCases | src/P2PQuake_parser.js:157 | `magnitude` is null exactly when parsing the magnitude text gives NaN or zero |
| WolfxEEW.AreaName | src/WolfxEEW_parser.js:83 | `Chiiki` when that key is present, otherwise `chiiki` |
| WolfxEEW.AreaNames | src/WolfxEEW_parser.js:83 | one name per warned area, same length and same order, each chosen by the first-present rule |
| WolfxEEW.NameTexts | src/WolfxEEW_parser.js:52 | join shows a missing name as the empty string and keeps every other name |
| WolfxEEW.Indicator | src/WolfxEEW_parser.js:70 | "最終報" for the final report, else "第", digits without a leading zero that read back as the serial, then "報" — the text `${serial}` gives |
| WolfxEEW.SerialText | src/WolfxEEW_parser.js:34 | the serial line is "#" followed by the same indicator the summary uses, and holds no line break |
| WolfxEEW.ComposeMessage | src/WolfxEEW_parser.js:28-57 | the appended message equals the rendering of the segment list that the cancel, PLUM and warned-area flags select |
| WolfxEEW.ParseWolfxEEW | src/WolfxEEW_parser.js:8-86 | the full text is the rendered segment list; it starts with ◆title◆ (title defaulting only when absent) and ends with the attribution; its second line is "#" and the indicator when the title holds no line break; when cancelled, it is title, serial, notice and attribution only; also `id`, `report_type`, `report_time`, `is_canceled`, both summary branches, and every structured field including `warn_areas`, element by element |
| WolfxEEW.OriginClock | src/WolfxEEW_parser.js:60 | the report time cut from the fixed origin string is "3時40分" |
| WolfxEEW.LayoutFrame | src/WolfxEEW_parser.js:31-57 | every message starts with the bracketed title and ends with a blank line and the attribution |
| WolfxEEW.LayoutTrimmed | src/WolfxEEW_parser.js:71 | trimming the message changes nothing |
| WolfxEEW.LayoutSecondLine | src/WolfxEEW_parser.js:34-35 | split into lines, the message has the bracketed title first and the serial text second, when neither holds a line break |
| WolfxEEW.CancelledLayout | src/WolfxEEW_parser.js:38-41 | a cancelled message is title, serial line, cancellation notice and attribution, whatever its PLUM flag and areas |
| WolfxEEW.LayoutShowsNotice | src/WolfxEEW_parser.js:38-54 | every fixed text the source appends is in the message, for all values: the notice when cancelled; origin, hypocenter and estimate when not; the PLUM note when not cancelled and PLUM; the area heading when not cancelled and with areas. Conversely, when no value filled in holds the text's marker character, a text in the message is one the source appends |
| WolfxEEW.MessageShowsNotice | src/WolfxEEW_parser.js:38-54 | the same for the message of one EEW item: every appended notice is shown; a shown notice is appended when none of the item's own texts holds its marker character |
| WolfxEEW.CancelledLayoutShowsOnlyNotice | src/WolfxEEW_parser.js:38-41 | a cancelled layout contains a fixed text exactly when it is the cancellation notice, whatever its other values, when neither title nor serial holds the marker |
| WolfxEEW.CancelledShowsOnlyNotice | src/WolfxEEW_parser.js:38-41 | a cancelled message contains the cancellation notice and no PLUM note, "発生時刻:", hypocenter line, estimate line or "【対象地域】", whatever its fields other than the title hold |
| WolfxEEW.LayoutListsAreas | src/WolfxEEW_parser.js:51-54 | when not cancelled and with areas, the message contains the area heading followed by the list on its own line |
| WolfxEEW.MessageListsAreas | src/WolfxEEW_parser.js:51-54 | the message of a non-cancelled item with warned areas lists them under "【対象地域】" |
| WolfxEEW.ChiikiListRoundTrip | src/WolfxEEW_parser.js:52 | split at "、", a non-empty area list gives back every area's name in input order, when no name contains "、" |
| WolfxEEW.SerialTextFree | src/WolfxEEW_parser.js:34 | the serial line holds none of the marker characters of the fixed texts |

## Left out

- Floating point is left out. `magnitude.toFixed(1)` and `parseFloat` are function parameters and are not defined. The model does not claim that magnitude or depth is null exactly when the field is absent, because a parsed zero is also null.
- Dates and clocks are left out. The `updateTime` parameter of parseP2PQuake and the EEW `OriginTime` are unused in the source. The display times are the source's fixed strings.
- Observation points and warned areas are carried as given. The per-area text that `buildAreaText` would build is a stub in the source.
- P2PQuake.Rank: it does not model labels that name `Object.prototype` members, such as "toString" or "__proto__". In JavaScript those make `order[a] || 0` a function, so the comparison gives NaN.
- P2PQuake.DepthToText: the depth is an integer, and so is the long-period class `lfeClass` that P2PQuake.ParseP2PQuake shows in the DetailScale text. A fractional depth or class and JavaScript's number formatting of it are not modelled.
- Text.DecimalTextRoundTrip: numbers are written as plain decimal digits at any size. JavaScript writes integers of 10^21 and above with an exponent ("1e+21") and is exact only below 2^53, so the depth text, the long-period sentence, the EEW indicator and the EEW `id` differ from the source for such values.
- JavaScript truthiness is modelled only where the source relies on it: `||` on strings, `??`, `!= null` with `>= 0`, and non-empty lists. The EEW flags are booleans and `Serial` is a natural number. A missing `Serial`, a missing P2P `id` (src/P2PQuake_parser.js:145) or a missing EEW `EventID` (src/WolfxEEW_parser.js:63) would print "undefined" inside the text or the `id` in JavaScript; the model takes `id` and `EventID` as strings that are always present, so that is not modelled.
- EEW `MaxIntensity`, `Magunitude` and `Depth` are kept as the text the message shows. A numeric payload value is assumed to arrive as its decimal text.
- WolfxEEW.MessageShowsNotice: only the "not shown" direction assumes that the title, the field texts and the area names do not contain the notice's marker character (the "法" of the PLUM note, for example). A payload that embeds a fixed text in its own fields can show that text anywhere. WolfxEEW.CancelledShowsOnlyNotice needs this only of the title.
- Thrown errors are not modelled. The payload types make `earthquake` and its hypocenter always present, where the P2P parser throws a TypeError without them (src/P2PQuake_parser.js:57 and :59). The EEW parser throws on a null `WarnArea` element (src/WolfxEEW_parser.js:52 and :83); an `Area` here is always an object whose two keys may be absent.
- Fetching, polling, persistence, delivery and map rendering are not part of these two parsers.
