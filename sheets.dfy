/** The local logic of the spreadsheet connector, js/googleSheets.js
    (GoogleSheetsManager): the 30-second response cache, the two sheet
    filters applied to an equipment reply, the tagging of untagged entries,
    and the 7-column row written for one inspection. The JSONP transport is
    not modelled: each remote call's reply is a parameter. */
module Sheets {
  import opened Seqs
  import Alarm
  import Equipment

  // ---------------------------------------------------------------------
  // Equipment entries as the sheet returns them

  /** The last-inspection cell of an entry: absent or falsy, a string, a
      Date object (given by its calendar day number), or any other value. */
  datatype DateCell = NoDate | DateText(text: string) | DateObject(day: int) | OtherValue

  /** One equipment entry of a reply. The sheet may be named by any of five
      properties (`sheetName`, `sheet`, `tab`, `sheet_tab`, `sheetname`); an
      absent or falsy property is "". */
  datatype SheetEntry = SheetEntry(
    name: string,
    sheetName: string,
    sheet: string,
    tab: string,
    sheetTab: string,
    sheetname: string,
    lastInspectionDate: DateCell)

  /** The effective sheet tag: the first non-empty of the five properties,
      "" when the entry is untagged. */
  function SheetTag(e: SheetEntry): (tag: string)
    ensures tag == "" <==> e.sheetName == "" && e.sheet == "" && e.tab == "" && e.sheetTab == "" && e.sheetname == ""
    ensures e.sheetName != "" ==> tag == e.sheetName
  {
    if e.sheetName != "" then e.sheetName
    else if e.sheet != "" then e.sheet
    else if e.tab != "" then e.tab
    else if e.sheetTab != "" then e.sheetTab
    else e.sheetname
  }

  predicate HasTag(e: SheetEntry)
  {
    SheetTag(e) != ""
  }

  predicate Untagged(e: SheetEntry)
  {
    SheetTag(e) == ""
  }

  function TagEquals(sheet: string): SheetEntry -> bool
  {
    (e: SheetEntry) => SheetTag(e) == sheet
  }

  function MatchesSheet(sheet: string): SheetEntry -> bool
  {
    (e: SheetEntry) => HasTag(e) && SheetTag(e) == sheet
  }

  // ---------------------------------------------------------------------
  // _filterBySheet

  /** What _filterBySheet returns: nothing for a reply that is not an array;
      otherwise the entries tagged with the sheet, in their order, followed,
      for sheet 1-A only, by the untagged entries. */
  function FilterBySheetSpec(data: Option<seq<SheetEntry>>, sheet: string): seq<SheetEntry>
  {
    match data
    case None => []
    case Some(xs) =>
      Filter(xs, MatchesSheet(sheet)) + (if sheet == "1-A" then Filter(xs, Untagged) else [])
  }

  /** _filterBySheet: partition into tagged and untagged entries with one
      pass, then keep the tagged entries whose tag is the sheet. */
  method FilterBySheet(data: Option<seq<SheetEntry>>, sheet: string) returns (r: seq<SheetEntry>)
    ensures r == FilterBySheetSpec(data, sheet)
  {
    if data.None? {
      return [];
    }
    var xs := data.value;
    var withSheet: seq<SheetEntry> := [];
    var withoutSheet: seq<SheetEntry> := [];
    var i := 0;
    while i < |xs|
      invariant 0 <= i <= |xs|
      invariant withSheet == Filter(xs[..i], HasTag)
      invariant withoutSheet == Filter(xs[..i], Untagged)
    {
      FilterSnoc(xs, i, HasTag);
      FilterSnoc(xs, i, Untagged);
      if HasTag(xs[i]) {
        withSheet := withSheet + [xs[i]];
      } else {
        withoutSheet := withoutSheet + [xs[i]];
      }
      i := i + 1;
    }
    assert xs[..i] == xs;
    var filteredWithSheet := Filter(withSheet, TagEquals(sheet));
    FilterFilter(xs, HasTag, TagEquals(sheet), MatchesSheet(sheet));
    if sheet == "1-A" {
      r := filteredWithSheet + withoutSheet;
    } else {
      r := filteredWithSheet;
    }
  }

  /** Which entries survive _filterBySheet, in both directions: a tagged
      entry survives iff its tag is the sheet; an untagged one iff the sheet
      is 1-A. */
  lemma FilterBySheetMembership(xs: seq<SheetEntry>, sheet: string, e: SheetEntry)
    ensures e in FilterBySheetSpec(Some(xs), sheet) <==>
              e in xs && ((HasTag(e) && SheetTag(e) == sheet) || (sheet == "1-A" && Untagged(e)))
  {
  }

  /** For every sheet but 1-A the result holds tagged entries only, all with
      that tag. */
  lemma FilterBySheetOtherSheets(xs: seq<SheetEntry>, sheet: string)
    requires sheet != "1-A"
    ensures forall e :: e in FilterBySheetSpec(Some(xs), sheet) ==> HasTag(e) && SheetTag(e) == sheet
  {
  }

  /** The matching entries come first, untagged ones after them. */
  lemma FilterBySheetOrder(xs: seq<SheetEntry>, sheet: string)
    ensures var r := FilterBySheetSpec(Some(xs), sheet);
            var m := |Filter(xs, MatchesSheet(sheet))|;
            m <= |r| && (forall k :: 0 <= k < m ==> SheetTag(r[k]) == sheet) && (forall k :: m <= k < |r| ==> Untagged(r[k]))
  {
    var a := Filter(xs, MatchesSheet(sheet));
    var b := if sheet == "1-A" then Filter(xs, Untagged) else [];
    MatchedPartTagged(xs, sheet);
    ConcatOrder(a, b, FilterBySheetSpec(Some(xs), sheet), sheet);
  }

  lemma MatchedPartTagged(xs: seq<SheetEntry>, sheet: string)
    ensures forall e :: e in Filter(xs, MatchesSheet(sheet)) ==> SheetTag(e) == sheet
  {
    forall e | e in Filter(xs, MatchesSheet(sheet)) ensures SheetTag(e) == sheet {
      assert MatchesSheet(sheet)(e);
    }
  }

  /** Positions in `a + b` fall in `a` first, then in `b`. */
  lemma ConcatOrder(a: seq<SheetEntry>, b: seq<SheetEntry>, r: seq<SheetEntry>, sheet: string)
    requires r == a + b
    requires forall e :: e in a ==> SheetTag(e) == sheet
    requires forall e :: e in b ==> Untagged(e)
    ensures |a| <= |r| && (forall k :: 0 <= k < |a| ==> SheetTag(r[k]) == sheet) && (forall k :: |a| <= k < |r| ==> Untagged(r[k]))
  {
    forall k | 0 <= k < |a| ensures SheetTag(r[k]) == sheet {
      assert r[k] == a[k] && a[k] in a;
    }
    forall k | |a| <= k < |r| ensures Untagged(r[k]) {
      assert r[k] == b[k - |a|] && b[k - |a|] in b;
    }
  }

  // ---------------------------------------------------------------------
  // _filterEquipmentBySheet

  /** The equipment only one team has, per team letter; [] for any other
      key. */
  function TeamEquipment(key: string): seq<string>
  {
    if key == "A" then
      ["스크러바", "자동 배기장치", "합성 반응기", "정제 반응기", "Feeding Tank", "정제수 제조설비",
       "냉각수 시스템", "온수 시스템", "압축공기 시스템", "상활실 및 전기", "방화셔터", "승강기"]
    else if key == "B" then ["Oven", "긴급배기장치", "퓨리파이시스템"]
    else if key == "C" then ["초음파 세척기", "자동 세정설비", "자동 충진설비", "자동 퍼지설비", "클린오븐", "제품 출하 차량"]
    else if key == "D" then ["GC", "NMR", "ICP", "IC", "KF", "점도계", "APHA"]
    else if key == "E" then ["맨틀", "교반기", "칠러"]
    else []
  }

  /** The other teams' equipment, in team order. */
  function OtherEquipment(key: string): seq<string>
  {
    (if key != "A" then TeamEquipment("A") else []) +
    (if key != "B" then TeamEquipment("B") else []) +
    (if key != "C" then TeamEquipment("C") else []) +
    (if key != "D" then TeamEquipment("D") else []) +
    (if key != "E" then TeamEquipment("E") else [])
  }

  /** String.prototype.replace with a two-character pattern: remove its
      first occurrence, if any. */
  function DeleteFirst(s: string, pattern: string): (r: string)
    requires |pattern| == 2
    ensures |s| >= 2 && s[0] == pattern[0] && s[1] == pattern[1] ==> r == s[2..]
    ensures SepFree(s, pattern) ==> r == s
    decreases |s|
  {
    if |s| < 2 then s
    else if s[0] == pattern[0] && s[1] == pattern[1] then s[2..]
    else [s[0]] + DeleteFirst(s[1..], pattern)
  }

  /** The team letter of a sheet name: "1-A" gives "A". */
  function SheetKey(sheet: string): string
  {
    DeleteFirst(sheet, "1-")
  }

  predicate HasOwnData(raw: seq<SheetEntry>, own: seq<string>)
  {
    exists k :: 0 <= k < |raw| && raw[k].name != "" && raw[k].name in own
  }

  predicate HasOtherData(raw: seq<SheetEntry>, own: seq<string>, other: seq<string>)
  {
    exists k :: 0 <= k < |raw| && raw[k].name != "" && raw[k].name in other && raw[k].name !in own
  }

  /** The reply looks like another team's data: it names some other team's
      equipment and none of the requesting team's own. */
  predicate WrongSheetData(raw: seq<SheetEntry>, sheet: string)
  {
    var key := SheetKey(sheet);
    HasOtherData(raw, TeamEquipment(key), OtherEquipment(key)) && !HasOwnData(raw, TeamEquipment(key))
  }

  function NotOtherTeams(sheet: string): SheetEntry -> bool
  {
    (e: SheetEntry) => e.name !in OtherEquipment(SheetKey(sheet))
  }

  /** _filterEquipmentBySheet as written: drop the other teams' equipment,
      keeping the order of what remains, from a reply that names some other
      team's equipment and none of the requesting team's own; leave any
      other reply alone. Names no team lists are always kept. */
  function FilterEquipmentBySheet(raw: seq<SheetEntry>, sheet: string): (r: seq<SheetEntry>)
    ensures !WrongSheetData(raw, sheet) ==> r == raw
    ensures WrongSheetData(raw, sheet) ==>
              forall e :: e in r <==> e in raw && e.name !in OtherEquipment(SheetKey(sheet))
    ensures WrongSheetData(raw, sheet) ==> r == Filter(raw, NotOtherTeams(sheet))
  {
    if WrongSheetData(raw, sheet) then Filter(raw, NotOtherTeams(sheet)) else raw
  }

  /** Sheet 1-B's own list holds 맨틀, 교반기 and 칠러, but the team table
      files them under E only: for 1-B a reply naming just those is taken
      for another team's data and they are dropped. */
  lemma SharedEquipmentDroppedOnB()
    ensures var e := SheetEntry("맨틀", "1-B", "", "", "", "", DateText("2024-01-01"));
            && e.name in Equipment.SheetEquipmentNames("1-B")
            && FilterEquipmentBySheet([e], "1-B") == []
  {
    var e := SheetEntry("맨틀", "1-B", "", "", "", "", DateText("2024-01-01"));
    assert SheetKey("1-B") == "B";
    assert e.name in OtherEquipment("B") by {
      assert TeamEquipment("E")[0] == e.name;
    }
    assert WrongSheetData([e], "1-B") by {
      assert [e][0].name in OtherEquipment("B") && [e][0].name !in TeamEquipment("B");
    }
    assert !NotOtherTeams("1-B")(e);
  }

  /** The team table with 1-B's own list complete: team B also has the
      equipment it shares with 1-E. */
  function TeamEquipmentFixed(key: string): seq<string>
  {
    if key == "B" then TeamEquipment("B") + ["맨틀", "교반기", "칠러"] else TeamEquipment(key)
  }

  function OtherEquipmentFixed(key: string): seq<string>
  {
    (if key != "A" then TeamEquipmentFixed("A") else []) +
    (if key != "B" then TeamEquipmentFixed("B") else []) +
    (if key != "C" then TeamEquipmentFixed("C") else []) +
    (if key != "D" then TeamEquipmentFixed("D") else []) +
    (if key != "E" then TeamEquipmentFixed("E") else [])
  }

  /** Equipment of another team that the requesting team does not also
      have. */
  predicate Foreign(name: string, key: string)
  {
    name in OtherEquipmentFixed(key) && name !in TeamEquipmentFixed(key)
  }

  predicate WrongSheetDataFixed(raw: seq<SheetEntry>, sheet: string)
  {
    var key := SheetKey(sheet);
    HasOtherData(raw, TeamEquipmentFixed(key), OtherEquipmentFixed(key)) && !HasOwnData(raw, TeamEquipmentFixed(key))
  }

  function NotForeign(sheet: string): SheetEntry -> bool
  {
    (e: SheetEntry) => !Foreign(e.name, SheetKey(sheet))
  }

  /** The team filter as intended: the same detection and order-keeping
      filter, but with 1-B's own list complete and a team's own equipment
      never dropped. The equipment reply uses this definition. */
  function FilterEquipmentBySheetFixed(raw: seq<SheetEntry>, sheet: string): (r: seq<SheetEntry>)
    ensures !WrongSheetDataFixed(raw, sheet) ==> r == raw
    ensures WrongSheetDataFixed(raw, sheet) ==> r == Filter(raw, NotForeign(sheet))
    ensures forall e :: e in r ==> e in raw
  {
    if WrongSheetDataFixed(raw, sheet) then Filter(raw, NotForeign(sheet)) else raw
  }

  /** No name on a known sheet's own list is foreign to it; one sheet at
      a time. */
  lemma OwnListNotForeign(sheet: string, name: string)
    requires sheet in {"1-A", "1-B", "1-C", "1-D", "1-E"}
    requires name in Equipment.SheetEquipmentNames(sheet)
    ensures !Foreign(name, SheetKey(sheet))
  {
    var key := sheet[2..];
    assert SheetKey(sheet) == key;
    if name !in TeamEquipmentFixed(key) {
      SheetListSplit(sheet, name);
      SharedNotTeamEquipment(name, key);
    }
  }

  /** Equipment that several sheets list and no team owns. */
  const SharedEquipment: seq<string> := ["진공펌프", "A/C Tower", "글러브박스", "클린룸 공조설비"]

  lemma SheetListSplit(sheet: string, name: string)
    requires sheet in {"1-A", "1-B", "1-C", "1-D", "1-E"}
    requires name in Equipment.SheetEquipmentNames(sheet)
    ensures name in TeamEquipmentFixed(sheet[2..]) || name in SharedEquipment
  {
    if sheet == "1-A" {
      assert sheet[2..] == "A";
    } else if sheet == "1-B" {
      assert sheet[2..] == "B";
    } else if sheet == "1-C" {
      assert sheet[2..] == "C";
    } else if sheet == "1-D" {
      assert sheet[2..] == "D";
    } else {
      assert sheet[2..] == "E";
    }
  }

  lemma SharedNotTeamEquipment(name: string, key: string)
    requires name in SharedEquipment
    ensures name !in OtherEquipmentFixed(key)
  {
    SharedNotInTeam(name, "A");
    SharedNotInTeam(name, "B");
    SharedNotInTeam(name, "C");
    SharedNotInTeam(name, "D");
    SharedNotInTeam(name, "E");
  }

  lemma SharedNotInTeam(name: string, key: string)
    requires name in SharedEquipment
    ensures name !in TeamEquipmentFixed(key)
  {
    if key == "A" {
      assert TeamEquipmentFixed(key) == TeamEquipment("A");
    }
  }
  /** The corrected filter never drops a piece of equipment that is on the
      requesting sheet's own list. */
  lemma FixedKeepsOwnSheetEquipment(raw: seq<SheetEntry>, sheet: string, e: SheetEntry)
    requires sheet in {"1-A", "1-B", "1-C", "1-D", "1-E"}
    requires e in raw && e.name in Equipment.SheetEquipmentNames(sheet)
    ensures e in FilterEquipmentBySheetFixed(raw, sheet)
  {
    OwnListNotForeign(sheet, e.name);
    assert NotForeign(sheet)(e);
  }

  /** Filtering twice changes nothing more: once the other teams' names are
      gone, the reply no longer looks like another team's data. */
  lemma FilterEquipmentBySheetIdempotent(raw: seq<SheetEntry>, sheet: string)
    ensures FilterEquipmentBySheet(FilterEquipmentBySheet(raw, sheet), sheet) == FilterEquipmentBySheet(raw, sheet)
  {
    var r := FilterEquipmentBySheet(raw, sheet);
    if WrongSheetData(raw, sheet) {
      var key := SheetKey(sheet);
      forall k | 0 <= k < |r| ensures r[k].name !in OtherEquipment(key) {
        assert r[k] in r;
      }
      assert !HasOtherData(r, TeamEquipment(key), OtherEquipment(key));
    }
  }

  /** A reply that names any of the team's own equipment is returned as it
      is. */
  lemma OwnDataKeepsReply(raw: seq<SheetEntry>, sheet: string, k: nat)
    requires k < |raw| && raw[k].name in TeamEquipment(SheetKey(sheet))
    ensures FilterEquipmentBySheet(raw, sheet) == raw
  {
    var key := SheetKey(sheet);
    TeamEquipmentNamed(key);
    assert raw[k].name != "";
    assert HasOwnData(raw, TeamEquipment(key));
  }

  /** No team lists an unnamed equipment. */
  lemma TeamEquipmentNamed(key: string)
    ensures forall n :: n in TeamEquipment(key) ==> n != ""
  {
    if key == "A" {
    } else if key == "B" {
    } else if key == "C" {
    } else if key == "D" {
    } else if key == "E" {
    }
  }

  // ---------------------------------------------------------------------
  // Tagging and getEquipmentFromSheet

  /** An untagged entry gets `sheetName` and `sheet` set to the sheet; a
      tagged one is kept. */
  function TagEntry(e: SheetEntry, sheet: string): (r: SheetEntry)
    ensures SheetTag(r) == (if Untagged(e) then sheet else SheetTag(e))
    ensures r.name == e.name && r.lastInspectionDate == e.lastInspectionDate
  {
    if Untagged(e) then e.(sheetName := sheet, sheet := sheet) else e
  }

  function TagUntagged(xs: seq<SheetEntry>, sheet: string): (r: seq<SheetEntry>)
    ensures |r| == |xs|
    ensures forall k :: 0 <= k < |xs| ==> r[k] == TagEntry(xs[k], sheet)
  {
    seq(|xs|, k requires 0 <= k < |xs| => TagEntry(xs[k], sheet))
  }

  /** The equipment reply pipeline: name-based filter (with the team table
      as written), tagging, sheet filter. */
  function EquipmentReply(raw: seq<SheetEntry>, sheet: string): seq<SheetEntry>
  {
    FilterBySheetSpec(Some(TagUntagged(FilterEquipmentBySheet(raw, sheet), sheet)), sheet)
  }

  /** Once every entry is tagged, every entry the pipeline returns carries
      the requested sheet (the sheet name is never empty there). */
  lemma EquipmentReplyTagged(raw: seq<SheetEntry>, sheet: string)
    requires sheet != ""
    ensures forall e :: e in EquipmentReply(raw, sheet) ==> SheetTag(e) == sheet
  {
    var tagged := TagUntagged(FilterEquipmentBySheet(raw, sheet), sheet);
    forall e | e in tagged ensures HasTag(e) {
      var k :| 0 <= k < |tagged| && tagged[k] == e;
    }
  }

  /** The whole pipeline as written returns nothing for that 1-B reply. */
  lemma SharedEquipmentReplyEmptyOnB()
    ensures EquipmentReply([SheetEntry("맨틀", "1-B", "", "", "", "", DateText("2024-01-01"))], "1-B") == []
  {
    SharedEquipmentDroppedOnB();
    assert TagUntagged([], "1-B") == [];
  }

  /** The same pipeline with the corrected team table. */
  function EquipmentReplyFixed(raw: seq<SheetEntry>, sheet: string): seq<SheetEntry>
  {
    FilterBySheetSpec(Some(TagUntagged(FilterEquipmentBySheetFixed(raw, sheet), sheet)), sheet)
  }

  /** With the corrected table, a row naming the requesting sheet's own
      equipment, untagged or tagged with that sheet, always reaches the
      caller, tagged. */
  lemma EquipmentReplyFixedKeepsOwn(raw: seq<SheetEntry>, sheet: string, e: SheetEntry)
    requires sheet in {"1-A", "1-B", "1-C", "1-D", "1-E"}
    requires e in raw && e.name in Equipment.SheetEquipmentNames(sheet)
    requires Untagged(e) || SheetTag(e) == sheet
    ensures TagEntry(e, sheet) in EquipmentReplyFixed(raw, sheet)
  {
    var kept := FilterEquipmentBySheetFixed(raw, sheet);
    FixedKeepsOwnSheetEquipment(raw, sheet, e);
    var k :| 0 <= k < |kept| && kept[k] == e;
    var tagged := TagUntagged(kept, sheet);
    assert tagged[k] == TagEntry(e, sheet);
    FilterBySheetMembership(tagged, sheet, TagEntry(e, sheet));
  }

  /** The cache key of an equipment request. */
  function EquipmentCacheKey(sheet: string, inspectionType: string): string
  {
    "equip_" + sheet + "_" + inspectionType
  }

  // ---------------------------------------------------------------------
  // Rows written for an inspection

  /** One element of an inspection's results: an `{item, result}` object
      or a plain string. */
  datatype CheckEntry = Pair(item: string, result: string) | Plain(text: string)

  /** The `inspections` property: absent or falsy, an array, or any other
      value (by its String rendering). */
  datatype InspectionsField = Absent | List(entries: seq<CheckEntry>) | Scalar(text: string)

  /** The inspection handed to addInspectionData; absent strings are "". */
  datatype InspectionData = InspectionData(
    inspectionType: string,
    equipment: string,
    inspections: InspectionsField,
    notes: string)

  const PairSep: string := ": "
  const ListSep: string := ", "

  function EntryText(e: CheckEntry): string
  {
    match e
    case Pair(item, result) => item + PairSep + result
    case Plain(text) => text
  }

  function EntryTexts(es: seq<CheckEntry>): (r: seq<string>)
    ensures |r| == |es|
    ensures forall k :: 0 <= k < |es| ==> r[k] == EntryText(es[k])
  {
    seq(|es|, k requires 0 <= k < |es| => EntryText(es[k]))
  }

  /** The check-content column: the entries as "item: result" (strings
      verbatim) joined by ", ". */
  function CheckContent(f: InspectionsField): string
  {
    match f
    case Absent => ""
    case List(es) => Join(EntryTexts(es), ListSep)
    case Scalar(text) => text
  }

  predicate Separable(s: string)
  {
    SepFree(s, PairSep) && SepFree(s, ListSep)
  }

  /** The check content reads back: splitting it at ", " and each piece at
      ": " recovers every item and result, as long as they contain neither
      separator. */
  lemma CheckContentRoundTrip(es: seq<CheckEntry>)
    requires |es| >= 1
    requires forall k :: 0 <= k < |es| ==> es[k].Pair? && Separable(es[k].item) && Separable(es[k].result)
    ensures var pieces := SplitOn(CheckContent(List(es)), ListSep);
            |pieces| == |es| &&
            forall k :: 0 <= k < |es| ==> SplitOn(pieces[k], PairSep) == [es[k].item, es[k].result]
  {
    var texts := EntryTexts(es);
    forall k | 0 <= k < |es| ensures SepFree(texts[k], ListSep) {
      var item, result := es[k].item, es[k].result;
      SepFreeConcat(item, PairSep, ListSep);
      SepFreeConcat(item + PairSep, result, ListSep);
    }
    SplitJoin(texts, ListSep);
    forall k | 0 <= k < |es| ensures SplitOn(texts[k], PairSep) == [es[k].item, es[k].result] {
      var item, result := es[k].item, es[k].result;
      assert Join([item, result], PairSep) == texts[k];
      SplitJoin([item, result], PairSep);
    }
  }

  /** formatInspectionDataForSheet: one row of seven columns, A date,
      B type (daily by default), C equipment, D and E left empty,
      F check content, G notes (empty by default). `date` is the day's
      `YYYY-MM-DD` text. */
  function FormatInspectionDataForSheet(data: InspectionData, date: string): (row: seq<string>)
    ensures |row| == 7
    ensures row[0] == date && row[2] == data.equipment && row[3] == "" && row[4] == ""
    ensures row[1] == (if data.inspectionType == "" then Alarm.Daily else data.inspectionType)
    ensures row[5] == CheckContent(data.inspections) && row[6] == data.notes
  {
    var inspectionType := if data.inspectionType == "" then Alarm.Daily else data.inspectionType;
    [date, inspectionType, data.equipment, "", "", CheckContent(data.inspections), data.notes]
  }

  // ---------------------------------------------------------------------
  // The manager: cache and the two modelled remote calls

  const CacheTtl: int := 30000
  const NoUrlMessage: string := "웹앱 URL이 설정되지 않았습니다."
  const SaveFailedMessage: string := "데이터 저장 실패"
  const FetchFailedMessage: string := "데이터 가져오기 실패"

  /** A cached reply and the instant (milliseconds) it was stored. */
  datatype CacheEntry = CacheEntry(data: seq<SheetEntry>, time: int)

  /** The reply of a remote call: success with its data, or failure with its
      error text ("" when there is none). */
  datatype Reply<T> = Success(data: T) | Failure(error: string)

  /** A call's outcome: a value, or the message of the thrown error. */
  datatype Outcome<T> = Done(value: T) | Thrown(message: string)

  function FailureMessage<T>(reply: Reply<T>, fallback: string): string
    requires reply.Failure?
  {
    if reply.error != "" then reply.error else fallback
  }

  /** `a || b || "1-A"` over sheet names. */
  function ResolveSheet(explicit: string, current: string): (s: string)
    ensures s != ""
    ensures explicit != "" ==> s == explicit
  {
    if explicit != "" then explicit else if current != "" then current else "1-A"
  }

  class GoogleSheetsManager {
    var webAppUrl: string
    var cache: map<string, CacheEntry>

    constructor(url: string)
      ensures webAppUrl == url && cache == map[]
    {
      webAppUrl := url;
      cache := map[];
    }

    /** What _getCache answers at instant `now`. */
    function Lookup(key: string, now: int): (r: Option<seq<SheetEntry>>)
      reads this
      ensures r.Some? <==> key in cache && now - cache[key].time < CacheTtl
      ensures r.Some? ==> r.value == cache[key].data
    {
      if key in cache && now - cache[key].time < CacheTtl then Some(cache[key].data) else None
    }

    /** _getCache: a fresh entry is returned and kept; a stale or absent one
        is deleted and nothing is returned. */
    method GetCache(key: string, now: int) returns (r: Option<seq<SheetEntry>>)
      modifies this
      ensures r == old(Lookup(key, now))
      ensures r.Some? ==> cache == old(cache)
      ensures r.None? ==> cache == old(cache) - {key}
      ensures webAppUrl == old(webAppUrl)
    {
      if key in cache && now - cache[key].time < CacheTtl {
        return Some(cache[key].data);
      }
      cache := cache - {key};
      r := None;
    }

    /** _setCache at instant `now`. */
    method SetCache(key: string, data: seq<SheetEntry>, now: int)
      modifies this
      ensures cache == old(cache)[key := CacheEntry(data, now)]
      ensures Lookup(key, now) == Some(data)
      ensures webAppUrl == old(webAppUrl)
    {
      cache := cache[key := CacheEntry(data, now)];
    }

    /** clearCache. */
    method ClearCache()
      modifies this
      ensures cache == map[]
      ensures forall key, now :: Lookup(key, now).None?
      ensures webAppUrl == old(webAppUrl)
    {
      cache := map[];
    }

    /** addInspectionData: without a web-app URL it throws before building
        anything; otherwise it sends the row for the current sheet (1-A
        when none) and, on success, clears the whole cache. A failed call
        throws and leaves the cache as it was. */
    method AddInspectionData(data: InspectionData, currentSheet: string, date: string, reply: Reply<bool>)
      returns (r: Outcome<bool>, sentSheet: string, sentRow: seq<string>)
      modifies this
      ensures webAppUrl == old(webAppUrl)
      ensures old(webAppUrl) == "" ==> r == Thrown(NoUrlMessage) && cache == old(cache)
      ensures old(webAppUrl) != "" ==>
                sentSheet == ResolveSheet("", currentSheet) && sentRow == FormatInspectionDataForSheet(data, date)
      ensures old(webAppUrl) != "" && reply.Success? ==> r == Done(true) && cache == map[]
      ensures old(webAppUrl) != "" && reply.Failure? ==>
                r == Thrown(FailureMessage(reply, SaveFailedMessage)) && cache == old(cache)
    {
      sentSheet, sentRow := "", [];
      if webAppUrl == "" {
        return Thrown(NoUrlMessage), sentSheet, sentRow;
      }
      sentSheet := ResolveSheet("", currentSheet);
      sentRow := FormatInspectionDataForSheet(data, date);
      if reply.Success? {
        ClearCache();
        r := Done(true);
      } else {
        r := Thrown(FailureMessage(reply, SaveFailedMessage));
      }
    }

    /** getEquipmentFromSheet, called at instant `now`, its reply arriving at
        `replyTime`. The sheet is the explicit one, else the current one,
        else 1-A. A fresh cached list is returned without a call (`reply` is
        then unused); otherwise a successful reply goes through the name
        filter, the tagging and the sheet filter, and the result is cached
        under `equip_<sheet>_<type>`, stamped with the time the reply
        arrived. */
    method GetEquipmentFromSheet(inspectionType: string, explicitSheet: string, currentSheet: string, now: int,
                                 replyTime: int, reply: Reply<seq<SheetEntry>>)
      returns (r: Outcome<seq<SheetEntry>>)
      modifies this
      ensures webAppUrl == old(webAppUrl)
      ensures old(webAppUrl) == "" ==> r == Thrown(NoUrlMessage) && cache == old(cache)
      ensures old(webAppUrl) != "" ==>
                var key := EquipmentCacheKey(ResolveSheet(explicitSheet, currentSheet), inspectionType);
                && (old(Lookup(key, now)).Some? ==> r == Done(old(Lookup(key, now)).value) && cache == old(cache))
                && (old(Lookup(key, now)).None? && reply.Success? ==>
                      r == Done(EquipmentReply(reply.data, ResolveSheet(explicitSheet, currentSheet))) &&
                      (forall e :: e in r.value ==> SheetTag(e) == ResolveSheet(explicitSheet, currentSheet)) &&
                      cache == (old(cache) - {key})[key := CacheEntry(r.value, replyTime)])
                && (old(Lookup(key, now)).None? && reply.Failure? ==>
                      r == Thrown(FailureMessage(reply, FetchFailedMessage)) && cache == old(cache) - {key})
    {
      if webAppUrl == "" {
        return Thrown(NoUrlMessage);
      }
      var sheet := ResolveSheet(explicitSheet, currentSheet);
      var key := EquipmentCacheKey(sheet, inspectionType);
      var cached := GetCache(key, now);
      if cached.Some? {
        return Done(cached.value);
      }
      if reply.Success? {
        var rawData := FilterEquipmentBySheet(reply.data, sheet);
        rawData := TagUntagged(rawData, sheet);
        var filtered := FilterBySheet(Some(rawData), sheet);
        EquipmentReplyTagged(reply.data, sheet);
        SetCache(key, filtered, replyTime);
        r := Done(filtered);
      } else {
        r := Thrown(FailureMessage(reply, FetchFailedMessage));
      }
    }
  }
}
