/** The dashboard and the inspection workflow of js/app.js: the completion
    rate of one inspection type on one team sheet, the per-sheet equipment
    list, the session being filled in (chosen equipment, ticked results,
    notes) and its submission, which writes one row per chosen equipment and
    records every one of them locally whatever the remote outcome. */
module Dashboard {
  import opened Seqs
  import Alarm
  import Equipment
  import Sheets
  import Checklist

  // ---------------------------------------------------------------------
  // Completion rate

  /** `Math.round(completed / total * 100)`, 0 for an empty list, in exact
      arithmetic: the nearest integer to 100·completed/total, halves
      rounding up. */
  function CompletionPercentage(completed: nat, total: nat): (p: nat)
    ensures total == 0 ==> p == 0
    ensures total > 0 ==> 2 * total * p <= 200 * completed + total < 2 * total * p + 2 * total
  {
    if total == 0 then 0 else (200 * completed + total) / (2 * total)
  }

  /** Cancelling a positive factor from a strict inequality. */
  lemma CancelFactor(t: int, x: int, y: int)
    requires t > 0 && t * x < t * y
    ensures x < y
  {
    assert t * y - t * x == t * (y - x);
  }

  /** Nothing completed is 0%. */
  lemma PercentageOfNothing(total: nat)
    ensures CompletionPercentage(0, total) == 0
  {
    if total > 0 {
      var p := CompletionPercentage(0, total);
      assert 2 * total * p < 2 * total * 1;
      CancelFactor(2 * total, p, 1);
    }
  }

  /** The percentage of a count that does not exceed the total is at most
      100, and it is 100 when everything is completed. */
  lemma PercentageBounds(completed: nat, total: nat)
    requires completed <= total
    ensures CompletionPercentage(completed, total) <= 100
    ensures total > 0 && completed == total ==> CompletionPercentage(completed, total) == 100
  {
    var p := CompletionPercentage(completed, total);
    if total > 0 {
      var t2 := 2 * total;
      assert t2 * p <= 200 * completed + total < t2 * 101;
      CancelFactor(t2, p, 101);
      if completed == total {
        assert t2 * 99 < 200 * completed + total < t2 * p + t2 == t2 * (p + 1);
        CancelFactor(t2, 99, p + 1);
      }
    }
  }

  /** A higher count never gives a lower percentage. */
  lemma PercentageMonotone(c1: nat, c2: nat, total: nat)
    requires c1 <= c2
    ensures CompletionPercentage(c1, total) <= CompletionPercentage(c2, total)
  {
    if total > 0 {
      var p1, p2 := CompletionPercentage(c1, total), CompletionPercentage(c2, total);
      var t2 := 2 * total;
      assert t2 * p1 <= 200 * c1 + total <= 200 * c2 + total < t2 * p2 + t2 == t2 * (p2 + 1);
      CancelFactor(t2, p1, p2 + 1);
    }
  }

  datatype RateStatus = RateAlarm | RateWarning | RateCompleted

  /** Below 50 alarm, below 80 warning, otherwise completed. */
  function RateStatusOf(percentage: int): (s: RateStatus)
    ensures s == RateAlarm <==> percentage < 50
    ensures s == RateWarning <==> 50 <= percentage < 80
    ensures s == RateCompleted <==> percentage >= 80
  {
    if percentage < 50 then RateAlarm
    else if percentage < 80 then RateWarning
    else RateCompleted
  }

  function RateRank(s: RateStatus): nat
  {
    match s
    case RateAlarm => 0
    case RateWarning => 1
    case RateCompleted => 2
  }

  /** More completed equipment never makes the status worse. */
  lemma RateStatusMonotone(c1: nat, c2: nat, total: nat)
    requires c1 <= c2
    ensures RateRank(RateStatusOf(CompletionPercentage(c1, total))) <= RateRank(RateStatusOf(CompletionPercentage(c2, total)))
  {
    PercentageMonotone(c1, c2, total);
  }

  datatype CompletionRate = CompletionRate(percentage: nat, completed: nat, total: nat, status: RateStatus)

  /** getEquipmentListForSheet: the sheet's hard-coded list (the 1-A list
      for any other sheet), every entry normal. The inspection type does not
      matter. Its per-sheet table is a copy of the one loadEquipmentData
      uses, so both are the single table `Equipment.SheetEquipmentNames`. */
  function EquipmentListForSheet(inspectionType: string, sheet: string): (r: seq<Equipment.EquipmentEntry>)
    ensures sheet !in {"1-A", "1-B", "1-C", "1-D", "1-E"} ==> r == Equipment.SheetEquipment("1-A")
    ensures forall k :: 0 <= k < |r| ==> r[k].status == "normal" && r[k].statusText == "정상"
    ensures Equipment.Names(r) == Equipment.SheetEquipmentNames(sheet)
  {
    Equipment.SheetEquipment(sheet)
  }

  /** `name.trim().toLowerCase()`. */
  function Normalize(name: string): string
  {
    ToLower(Trim(name))
  }

  function NameMatches(normalized: string): Sheets.SheetEntry -> bool
  {
    (se: Sheets.SheetEntry) => Normalize(se.name) == normalized
  }

  /** The first sheet entry whose normalised name equals the equipment's. */
  function FindSheetEntry(sheetEquipment: seq<Sheets.SheetEntry>, name: string): (r: Option<Sheets.SheetEntry>)
    ensures r.None? <==> forall k :: 0 <= k < |sheetEquipment| ==> Normalize(sheetEquipment[k].name) != Normalize(name)
    ensures r.Some? ==> r.value in sheetEquipment && Normalize(r.value.name) == Normalize(name)
  {
    var i := FindFirst(sheetEquipment, NameMatches(Normalize(name)));
    if i < 0 then None else Some(sheetEquipment[i])
  }

  /** The first match wins: an entry is found only when no earlier entry
      has the same normalised name. */
  lemma FirstMatchWins(sheetEquipment: seq<Sheets.SheetEntry>, name: string, i: nat)
    requires i < |sheetEquipment| && Normalize(sheetEquipment[i].name) == Normalize(name)
    requires forall k :: 0 <= k < i ==> Normalize(sheetEquipment[k].name) != Normalize(name)
    ensures FindSheetEntry(sheetEquipment, name) == Some(sheetEquipment[i])
  {
    FindFirstAt(sheetEquipment, NameMatches(Normalize(name)), i);
  }

  predicate IsDigit(c: char)
  {
    '0' <= c <= '9'
  }

  /** `/^\d{4}-\d{2}-\d{2}$/`. */
  predicate IsDateShape(s: string)
  {
    && |s| == 10
    && IsDigit(s[0]) && IsDigit(s[1]) && IsDigit(s[2]) && IsDigit(s[3]) && s[4] == '-'
    && IsDigit(s[5]) && IsDigit(s[6]) && s[7] == '-' && IsDigit(s[8]) && IsDigit(s[9])
  }

  /** Whether one hard-coded entry counts as completed: a sheet entry with
      its name must exist and carry a date, either a Date object or a string
      that is `YYYY-MM-DD` once trimmed, and that date must classify as
      normal. `dayOf` gives the calendar day of such a string and `today`
      is the current calendar day. */
  function CountsAsCompleted(inspectionType: string, found: Option<Sheets.SheetEntry>,
                             dayOf: string -> int, today: int): (b: bool)
    ensures b ==> found.Some? && !found.value.lastInspectionDate.NoDate? && !found.value.lastInspectionDate.OtherValue?
    ensures b && found.value.lastInspectionDate.DateText? ==> IsDateShape(Trim(found.value.lastInspectionDate.text))
    ensures found.Some? && found.value.lastInspectionDate.DateObject? ==>
              (b <==> Alarm.StatusFromDate(inspectionType, Some(found.value.lastInspectionDate.day), today) == Alarm.Normal)
    ensures found.Some? && found.value.lastInspectionDate.DateText? ==>
              (b <==> IsDateShape(Trim(found.value.lastInspectionDate.text))
                      && Alarm.StatusFromDate(inspectionType, Some(dayOf(Trim(found.value.lastInspectionDate.text))), today) == Alarm.Normal)
  {
    match found
    case None => false
    case Some(se) =>
      match se.lastInspectionDate
      case NoDate => false
      case OtherValue => false
      case DateObject(day) => Alarm.StatusFromDate(inspectionType, Some(day), today) == Alarm.Normal
      case DateText(text) =>
        var d := Trim(text);
        IsDateShape(d) && Alarm.StatusFromDate(inspectionType, Some(dayOf(d)), today) == Alarm.Normal
  }

  /** Whether the hard-coded entry `name` counts, looked up in the reply. */
  function EntryCounts(inspectionType: string, sheetEquipment: seq<Sheets.SheetEntry>, name: string,
                       dayOf: string -> int, today: int): bool
  {
    CountsAsCompleted(inspectionType, FindSheetEntry(sheetEquipment, name), dayOf, today)
  }

  /** The test applied to each hard-coded entry, as a predicate on it. */
  function CountsFor(inspectionType: string, sheetEquipment: seq<Sheets.SheetEntry>,
                     dayOf: string -> int, today: int): Equipment.EquipmentEntry -> bool
  {
    (e: Equipment.EquipmentEntry) => EntryCounts(inspectionType, sheetEquipment, e.name, dayOf, today)
  }

  /** The number of entries of `list` that count as completed. */
  function CountCompleted(inspectionType: string, list: seq<Equipment.EquipmentEntry>,
                          sheetEquipment: seq<Sheets.SheetEntry>, dayOf: string -> int, today: int): (c: nat)
    ensures c <= |list|
  {
    |Filter(list, CountsFor(inspectionType, sheetEquipment, dayOf, today))|
  }

  /** An entry counts only when it has a dated sheet entry: a list none of
      whose names the sheet knows counts zero. */
  lemma UnknownNamesCountZero(inspectionType: string, list: seq<Equipment.EquipmentEntry>,
                              sheetEquipment: seq<Sheets.SheetEntry>, dayOf: string -> int, today: int)
    requires forall k :: 0 <= k < |list| ==> FindSheetEntry(sheetEquipment, list[k].name).None?
    ensures CountCompleted(inspectionType, list, sheetEquipment, dayOf, today) == 0
  {
    FilterNone(list, CountsFor(inspectionType, sheetEquipment, dayOf, today));
  }

  /** The outcome of the (retried) equipment fetch: no web-app URL, an error
      that escaped the retries, or the fetched list. */
  datatype SheetFetch = NotConfigured | FetchFailed(message: string) | Fetched(data: seq<Sheets.SheetEntry>)

  /** What calculateCompletionRate returns. */
  function CompletionRateSpec(inspectionType: string, explicitSheet: string, currentSheet: string,
                              fetch: SheetFetch, dayOf: string -> int, today: int): Sheets.Outcome<CompletionRate>
  {
    var list := EquipmentListForSheet(inspectionType, Sheets.ResolveSheet(explicitSheet, currentSheet));
    match fetch
    case FetchFailed(message) => Sheets.Thrown(message)
    case NotConfigured =>
      Sheets.Done(CompletionRate(CompletionPercentage(0, |list|), 0, |list|, RateStatusOf(CompletionPercentage(0, |list|))))
    case Fetched(data) =>
      var c := if |data| > 0 then CountCompleted(inspectionType, list, data, dayOf, today) else 0;
      var p := CompletionPercentage(c, |list|);
      Sheets.Done(CompletionRate(p, c, |list|, RateStatusOf(p)))
  }

  /** The counting loop of calculateCompletionRate: for each hard-coded
      entry, look its name up and count it when it classifies as normal. */
  method CountCompletedEquipment(inspectionType: string, equipmentList: seq<Equipment.EquipmentEntry>,
                                 sheetEquipment: seq<Sheets.SheetEntry>, dayOf: string -> int, today: int)
    returns (completedCount: nat)
    ensures completedCount == CountCompleted(inspectionType, equipmentList, sheetEquipment, dayOf, today)
  {
    completedCount := CountWhere(equipmentList, CountsFor(inspectionType, sheetEquipment, dayOf, today));
  }

  /** calculateCompletionRate. */
  method CalculateCompletionRate(inspectionType: string, explicitSheet: string, currentSheet: string,
                                 fetch: SheetFetch, dayOf: string -> int, today: int)
    returns (r: Sheets.Outcome<CompletionRate>)
    ensures r == CompletionRateSpec(inspectionType, explicitSheet, currentSheet, fetch, dayOf, today)
  {
    var targetSheet := Sheets.ResolveSheet(explicitSheet, currentSheet);
    var equipmentList := EquipmentListForSheet(inspectionType, targetSheet);
    var totalEquipment := |equipmentList|;
    var completedCount := 0;
    if fetch.FetchFailed? {
      return Sheets.Thrown(fetch.message);
    }
    if fetch.Fetched? && |fetch.data| > 0 {
      completedCount := CountCompletedEquipment(inspectionType, equipmentList, fetch.data, dayOf, today);
    }
    var percentage := CompletionPercentage(completedCount, totalEquipment);
    r := Sheets.Done(CompletionRate(percentage, completedCount, totalEquipment, RateStatusOf(percentage)));
  }

  /** Every rate returned is consistent: completed never exceeds total, the
      percentage lies in 0..100 and the status follows the thresholds. */
  lemma CompletionRateConsistent(inspectionType: string, explicitSheet: string, currentSheet: string,
                                 fetch: SheetFetch, dayOf: string -> int, today: int)
    ensures var r := CompletionRateSpec(inspectionType, explicitSheet, currentSheet, fetch, dayOf, today);
            r.Done? ==>
              && r.value.completed <= r.value.total
              && r.value.percentage <= 100
              && r.value.status == RateStatusOf(r.value.percentage)
              && r.value.total == |Equipment.SheetEquipmentNames(Sheets.ResolveSheet(explicitSheet, currentSheet))|
  {
    var r := CompletionRateSpec(inspectionType, explicitSheet, currentSheet, fetch, dayOf, today);
    if r.Done? {
      PercentageBounds(r.value.completed, r.value.total);
    }
  }

  /** Without a connection, or with an empty reply, every type reads 0% and
      alarm. */
  lemma UnconnectedReadsAlarm(inspectionType: string, explicitSheet: string, currentSheet: string,
                              fetch: SheetFetch, dayOf: string -> int, today: int)
    requires fetch.NotConfigured? || fetch == Fetched([])
    ensures CompletionRateSpec(inspectionType, explicitSheet, currentSheet, fetch, dayOf, today)
              == Sheets.Done(CompletionRate(0, 0, |Equipment.SheetEquipmentNames(Sheets.ResolveSheet(explicitSheet, currentSheet))|, RateAlarm))
  {
    var n := |Equipment.SheetEquipmentNames(Sheets.ResolveSheet(explicitSheet, currentSheet))|;
    PercentageOfNothing(n);
  }

  /** Equipment whose sheet row is dated today always counts, whatever the
      inspection type. */
  lemma {:induction false} InspectedTodayCountsAll(inspectionType: string, list: seq<Equipment.EquipmentEntry>,
                                                   sheetEquipment: seq<Sheets.SheetEntry>, dayOf: string -> int, today: int)
    requires forall k :: 0 <= k < |list| ==>
               FindSheetEntry(sheetEquipment, list[k].name).Some? &&
               FindSheetEntry(sheetEquipment, list[k].name).value.lastInspectionDate == Sheets.DateObject(today)
    ensures CountCompleted(inspectionType, list, sheetEquipment, dayOf, today) == |list|
  {
    var p := CountsFor(inspectionType, sheetEquipment, dayOf, today);
    forall k | 0 <= k < |list| ensures p(list[k]) {
      assert Alarm.StatusFromDate(inspectionType, Some(today), today) == Alarm.Normal;
    }
    FilterAll(list, p);
  }

  /** A reply in which every piece of the team's list is dated today reads
      100% and completed. */
  lemma InspectedTodayReadsComplete(inspectionType: string, explicitSheet: string, currentSheet: string,
                                    data: seq<Sheets.SheetEntry>, dayOf: string -> int, today: int)
    requires |data| > 0
    requires var list := EquipmentListForSheet(inspectionType, Sheets.ResolveSheet(explicitSheet, currentSheet));
             forall k :: 0 <= k < |list| ==>
               FindSheetEntry(data, list[k].name).Some? &&
               FindSheetEntry(data, list[k].name).value.lastInspectionDate == Sheets.DateObject(today)
    ensures var n := |Equipment.SheetEquipmentNames(Sheets.ResolveSheet(explicitSheet, currentSheet))|;
            CompletionRateSpec(inspectionType, explicitSheet, currentSheet, Fetched(data), dayOf, today)
              == Sheets.Done(CompletionRate(100, n, n, RateCompleted))
  {
    var sheet := Sheets.ResolveSheet(explicitSheet, currentSheet);
    var list := EquipmentListForSheet(inspectionType, sheet);
    var n := |list|;
    assert n == |Equipment.SheetEquipmentNames(sheet)| by {
      assert |Equipment.Names(list)| == n;
    }
    InspectedTodayCountsAll(inspectionType, list, data, dayOf, today);
    PercentageBounds(n, n);
    assert RateStatusOf(100) == RateCompleted;
  }

  // ---------------------------------------------------------------------
  // Submission bookkeeping

  const NoTypeMessage: string := "점검 유형을 선택해주세요."
  const NoEquipmentMessage: string := "장비를 최소 1개 이상 선택해주세요."
  const NoInspectionsMessage: string := "점검 내용을 선택해주세요."

  /** Whether the k-th save call succeeds: a web-app URL is set and the
      reply is a success. */
  predicate CallSucceeds(urlSet: bool, replies: nat -> Sheets.Reply<bool>, k: nat)
  {
    urlSet && replies(k).Success?
  }

  /** The names whose save failed, in order. */
  function FailedNames(names: seq<string>, urlSet: bool, replies: nat -> Sheets.Reply<bool>): seq<string>
    decreases |names|
  {
    if |names| == 0 then []
    else
      var k := |names| - 1;
      FailedNames(names[..k], urlSet, replies) + (if CallSucceeds(urlSet, replies, k) then [] else [names[k]])
  }

  /** The number of saves that succeeded. */
  function SuccessCount(names: seq<string>, urlSet: bool, replies: nat -> Sheets.Reply<bool>): nat
    decreases |names|
  {
    if |names| == 0 then 0
    else
      var k := |names| - 1;
      SuccessCount(names[..k], urlSet, replies) + (if CallSucceeds(urlSet, replies, k) then 1 else 0)
  }

  /** Every equipment is either a success or listed as failed. */
  lemma {:induction false} SuccessPlusFailed(names: seq<string>, urlSet: bool, replies: nat -> Sheets.Reply<bool>)
    ensures SuccessCount(names, urlSet, replies) + |FailedNames(names, urlSet, replies)| == |names|
    decreases |names|
  {
    if |names| > 0 {
      SuccessPlusFailed(names[..|names| - 1], urlSet, replies);
    }
  }

  /** Without a web-app URL nothing succeeds. */
  lemma {:induction false} NoUrlAllFail(names: seq<string>, replies: nat -> Sheets.Reply<bool>)
    ensures SuccessCount(names, false, replies) == 0
    ensures FailedNames(names, false, replies) == names
    decreases |names|
  {
    if |names| > 0 {
      var k := |names| - 1;
      NoUrlAllFail(names[..k], replies);
      assert names[..k] + [names[k]] == names;
    }
  }

  /** The local history after recording every name, in order, at one
      instant. */
  function RecordAll(times: map<string, Alarm.InspectionRecord>, inspectionType: string, names: seq<string>,
                     sheet: string, now: int): map<string, Alarm.InspectionRecord>
    decreases |names|
  {
    if |names| == 0 then times
    else
      var k := |names| - 1;
      RecordAll(times, inspectionType, names[..k], sheet, now)[Alarm.BuildKey(inspectionType, names[k], sheet) :=
        Alarm.InspectionRecord(now, inspectionType, names[k], sheet)]
  }

  /** Every name gets its record; every key that is not one of theirs is
      left alone. */
  lemma {:induction false} RecordAllContents(times: map<string, Alarm.InspectionRecord>, inspectionType: string,
                                             names: seq<string>, sheet: string, now: int)
    ensures var after := RecordAll(times, inspectionType, names, sheet, now);
            && (forall k :: 0 <= k < |names| ==>
                  Alarm.BuildKey(inspectionType, names[k], sheet) in after &&
                  after[Alarm.BuildKey(inspectionType, names[k], sheet)].lastInspection == now)
            && (forall key :: (forall k :: 0 <= k < |names| ==> key != Alarm.BuildKey(inspectionType, names[k], sheet)) ==>
                  (key in after <==> key in times) && (key in times ==> after[key] == times[key]))
    decreases |names|
  {
    if |names| > 0 {
      var k := |names| - 1;
      RecordAllContents(times, inspectionType, names[..k], sheet, now);
      assert forall j :: 0 <= j < k ==> names[..k][j] == names[j];
    }
  }

  /** One more equipment extends the three tallies by its own call. */
  lemma {:induction false} SubmitStep(names: seq<string>, i: nat, urlSet: bool, replies: nat -> Sheets.Reply<bool>,
                                      times: map<string, Alarm.InspectionRecord>, inspectionType: string,
                                      sheet: string, now: int)
    requires i < |names|
    ensures SuccessCount(names[..i + 1], urlSet, replies) ==
              SuccessCount(names[..i], urlSet, replies) + (if CallSucceeds(urlSet, replies, i) then 1 else 0)
    ensures FailedNames(names[..i + 1], urlSet, replies) ==
              FailedNames(names[..i], urlSet, replies) + (if CallSucceeds(urlSet, replies, i) then [] else [names[i]])
    ensures RecordAll(times, inspectionType, names[..i + 1], sheet, now) ==
              RecordAll(times, inspectionType, names[..i], sheet, now)[Alarm.BuildKey(inspectionType, names[i], sheet) :=
                Alarm.InspectionRecord(now, inspectionType, names[i], sheet)]
  {
    assert names[..i + 1][..i] == names[..i];
  }

  /** How the submission is summed up to the user. */
  datatype SaveSummary = AllSaved(count: nat) | PartlySaved(succeeded: nat, failed: seq<string>) | LocalOnly

  function SaveSummaryOf(successCount: nat, failed: seq<string>, total: nat): (s: SaveSummary)
    ensures s.AllSaved? <==> successCount == total
    ensures s.LocalOnly? <==> successCount != total && successCount == 0
  {
    if successCount == total then AllSaved(successCount)
    else if successCount > 0 then PartlySaved(successCount, failed)
    else LocalOnly
  }

  datatype SubmitOutcome = Rejected(message: string) | Submitted(successCount: nat, failed: seq<string>, summary: SaveSummary)

  // ---------------------------------------------------------------------
  // The session being filled in

  /** The current inspection (the `inspectionData` object). */
  class InspectionSession {
    var inspectionType: string
    var equipment: seq<string>
    var inspections: seq<Checklist.CheckResult>
    var notes: string

    constructor()
      ensures inspectionType == "" && equipment == [] && inspections == [] && notes == ""
    {
      inspectionType, equipment, inspections, notes := "", [], [], "";
    }

    /** Choosing a type. */
    method SelectType(t: string)
      modifies this
      ensures inspectionType == t
      ensures equipment == old(equipment) && inspections == old(inspections) && notes == old(notes)
    {
      inspectionType := t;
    }

    /** Clicking an unselected equipment: push its name unless present. */
    method SelectEquipment(name: string)
      modifies this
      ensures equipment == if name in old(equipment) then old(equipment) else old(equipment) + [name]
      ensures name in equipment
      ensures old(NoDup(equipment)) ==> NoDup(equipment)
      ensures inspectionType == old(inspectionType) && inspections == old(inspections) && notes == old(notes)
    {
      if name !in equipment {
        if NoDup(equipment) {
          AppendNoDup(equipment, name);
        }
        equipment := equipment + [name];
      }
    }

    /** Clicking a selected equipment: splice its first occurrence out. */
    method DeselectEquipment(name: string)
      modifies this
      ensures equipment == RemoveFirst(old(equipment), name)
      ensures multiset(equipment) == multiset(old(equipment)) - multiset{name}
      ensures old(NoDup(equipment)) ==> NoDup(equipment) && name !in equipment
      ensures inspectionType == old(inspectionType) && inspections == old(inspections) && notes == old(notes)
    {
      RemoveFirstMultiset(equipment, name);
      if NoDup(equipment) {
        RemoveFirstNoDup(equipment, name);
      }
      var index := IndexOf(equipment, name);
      if index > -1 {
        equipment := equipment[..index] + equipment[index + 1..];
      }
    }

    /** Ticking a checklist item: upsert it as completed. */
    method TickItem(item: string)
      modifies this
      ensures inspections == Checklist.Upsert(old(inspections), item, Checklist.Completed)
      ensures !StartsWith(item, Checklist.OtherPrefix) ==> Checklist.OtherCount(inspections) == old(Checklist.OtherCount(inspections))
      ensures inspectionType == old(inspectionType) && equipment == old(equipment) && notes == old(notes)
    {
      if !StartsWith(item, Checklist.OtherPrefix) {
        Checklist.OrdinaryTogglesKeepOtherCount(inspections, item, Checklist.Completed);
      }
      var index := FindFirst(inspections, Checklist.ItemIs(item));
      if index >= 0 {
        inspections := inspections[index := inspections[index].(result := Checklist.Completed)];
      } else {
        inspections := inspections + [Checklist.CheckResult(item, Checklist.Completed)];
      }
    }

    /** Unticking a checklist item: splice its entry out. */
    method UntickItem(item: string)
      modifies this
      ensures inspections == Checklist.RemoveItem(old(inspections), item)
      ensures !StartsWith(item, Checklist.OtherPrefix) ==> Checklist.OtherCount(inspections) == old(Checklist.OtherCount(inspections))
      ensures inspectionType == old(inspectionType) && equipment == old(equipment) && notes == old(notes)
    {
      if !StartsWith(item, Checklist.OtherPrefix) {
        Checklist.OrdinaryTogglesKeepOtherCount(inspections, item, Checklist.Completed);
      }
      var index := FindFirst(inspections, Checklist.ItemIs(item));
      if index != -1 {
        inspections := RemoveAt(inspections, index);
      }
    }

    /** confirmOtherItem: blank input changes nothing and is reported;
        otherwise the other entry holds the trimmed text, ticked. */
    method ConfirmOtherItem(input: string) returns (accepted: bool)
      modifies this
      ensures accepted <==> Trim(input) != ""
      ensures accepted ==> inspections == Checklist.ConfirmOther(old(inspections), input).value
      ensures !accepted ==> inspections == old(inspections)
      ensures accepted && old(Checklist.OtherCount(inspections)) <= 1 ==> Checklist.OtherCount(inspections) == 1
      ensures inspectionType == old(inspectionType) && equipment == old(equipment) && notes == old(notes)
    {
      var outcome := Checklist.ConfirmOther(inspections, input);
      if outcome.None? {
        return false;
      }
      if Checklist.OtherCount(inspections) <= 1 {
        Checklist.ConfirmOtherKeepsOne(inspections, input);
      }
      inspections := outcome.value;
      accepted := true;
    }

    /** Deselecting the other entry. */
    method DeselectOtherItem()
      modifies this
      ensures inspections == Checklist.DeselectOther(old(inspections))
      ensures old(Checklist.OtherCount(inspections)) <= 1 ==> Checklist.OtherCount(inspections) == 0
      ensures inspectionType == old(inspectionType) && equipment == old(equipment) && notes == old(notes)
    {
      if Checklist.OtherCount(inspections) <= 1 {
        Checklist.DeselectOtherLeavesNone(inspections);
      }
      inspections := Checklist.DeselectOther(inspections);
    }

    /** saveCurrentStepData on the notes step: the notes field, trimmed. */
    method SaveNotes(text: string)
      modifies this
      ensures notes == Trim(text)
      ensures inspectionType == old(inspectionType) && equipment == old(equipment) && inspections == old(inspections)
    {
      notes := Trim(text);
    }

    /** The data sent for one equipment. */
    function DataFor(name: string): Sheets.InspectionData
      reads this
    {
      Sheets.InspectionData(inspectionType, name, Sheets.List(Checklist.AsCheckEntries(inspections)), notes)
    }

    /** submitInspection: reject an empty type, an empty equipment list or
        an empty result list, in that order, before any call; otherwise save
        one row per equipment (the k-th call answered by `replies(k)`) and
        record each equipment locally at `now` whether its save succeeded
        or not. */
    method SubmitInspection(sheets: Sheets.GoogleSheetsManager, times: Alarm.InspectionTimeManager,
                            currentSheet: string, date: string, now: int, replies: nat -> Sheets.Reply<bool>)
      returns (r: SubmitOutcome)
      modifies sheets, times
      ensures inspectionType == "" ==> r == Rejected(NoTypeMessage)
      ensures inspectionType != "" && equipment == [] ==> r == Rejected(NoEquipmentMessage)
      ensures inspectionType != "" && equipment != [] && inspections == [] ==> r == Rejected(NoInspectionsMessage)
      ensures r.Rejected? ==> times.inspectionTimes == old(times.inspectionTimes) && sheets.cache == old(sheets.cache)
      ensures inspectionType != "" && equipment != [] && inspections != [] ==>
                var urlSet := old(sheets.webAppUrl) != "";
                && r == Submitted(SuccessCount(equipment, urlSet, replies), FailedNames(equipment, urlSet, replies),
                                  SaveSummaryOf(SuccessCount(equipment, urlSet, replies), FailedNames(equipment, urlSet, replies), |equipment|))
                && times.inspectionTimes == RecordAll(old(times.inspectionTimes), inspectionType, equipment, Sheets.ResolveSheet("", currentSheet), now)
                && (SuccessCount(equipment, urlSet, replies) > 0 ==> sheets.cache == map[])
                && (SuccessCount(equipment, urlSet, replies) == 0 ==> sheets.cache == old(sheets.cache))
      ensures r.Submitted? ==> r.successCount + |r.failed| == |equipment|
      ensures r.Submitted? ==> forall k :: 0 <= k < |equipment| ==>
                times.LastInspectionTime(inspectionType, equipment[k], Sheets.ResolveSheet("", currentSheet)) == Some(now)
      ensures sheets.webAppUrl == old(sheets.webAppUrl)
    {
      if inspectionType == "" {
        return Rejected(NoTypeMessage);
      }
      if |equipment| == 0 {
        return Rejected(NoEquipmentMessage);
      }
      if |inspections| == 0 {
        return Rejected(NoInspectionsMessage);
      }
      var urlSet := sheets.webAppUrl != "";
      var sheet := Sheets.ResolveSheet("", currentSheet);
      var successCount := 0;
      var failedEquipment: seq<string> := [];
      var i := 0;
      while i < |equipment|
        invariant 0 <= i <= |equipment|
        invariant sheets.webAppUrl == old(sheets.webAppUrl)
        invariant successCount == SuccessCount(equipment[..i], urlSet, replies)
        invariant failedEquipment == FailedNames(equipment[..i], urlSet, replies)
        invariant times.inspectionTimes == RecordAll(old(times.inspectionTimes), inspectionType, equipment[..i], sheet, now)
        invariant successCount > 0 ==> sheets.cache == map[]
        invariant successCount == 0 ==> sheets.cache == old(sheets.cache)
      {
        var name := equipment[i];
        SubmitStep(equipment, i, urlSet, replies, old(times.inspectionTimes), inspectionType, sheet, now);
        var saved, _, _ := sheets.AddInspectionData(DataFor(name), currentSheet, date, replies(i));
        times.RecordInspection(inspectionType, name, sheet, now);
        if saved.Done? {
          successCount := successCount + 1;
        } else {
          failedEquipment := failedEquipment + [name];
        }
        i := i + 1;
      }
      assert equipment[..i] == equipment;
      SuccessPlusFailed(equipment, urlSet, replies);
      RecordAllContents(old(times.inspectionTimes), inspectionType, equipment, sheet, now);
      r := Submitted(successCount, failedEquipment, SaveSummaryOf(successCount, failedEquipment, |equipment|));
    }
  }
}
