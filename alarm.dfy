/** The inspection-due classifier of js/equipment.js (InspectionTimeManager):
    the cycle table, the two alarm-status variants (from a calendar date and
    from the locally recorded inspection time), the status labels, and the
    local inspection history keyed `sheet_type_name`. */
module Alarm {
  import opened Seqs

  const Daily: string := "일일점검"
  const Weekly: string := "주간점검"
  const Monthly: string := "월간점검"
  const Quarterly: string := "분기점검"
  const Semiannual: string := "반기점검"
  const Annual: string := "연간점검"

  /** The six inspection types, in the order the application lists them. */
  const InspectionTypes: seq<string> := [Daily, Weekly, Monthly, Quarterly, Semiannual, Annual]

  /** Milliseconds in a day: the divisor of every day difference. */
  const DayMs: int := 1000 * 60 * 60 * 24

  /** Days before the end of a cycle at which a non-daily status turns to
      warning. */
  const WarningLead: int := 3

  /** The cycle table (`cycles[type] || 7`): an unknown type uses 7 days. */
  function CycleDays(t: string): (c: nat)
    ensures c == 1 <==> t == Daily
    ensures c == 7 <==> t != Daily && t != Monthly && t != Quarterly && t != Semiannual && t != Annual
    ensures c != 1 ==> c >= 7
  {
    if t == Daily then 1
    else if t == Weekly then 7
    else if t == Monthly then 30
    else if t == Quarterly then 90
    else if t == Semiannual then 180
    else if t == Annual then 365
    else 7
  }

  datatype AlarmStatus = Normal | Warning | Alarm | Unknown

  /** calculateAlarmStatusFromDate. `lastDay` is the calendar day number of
      the last inspection, or None when the sheet holds no date or one that
      does not parse; `today` is the current calendar day in the configured
      time zone. Daily equipment is normal only on the day of inspection. */
  function StatusFromDate(t: string, lastDay: Option<int>, today: int): (s: AlarmStatus)
    ensures s == Unknown <==> lastDay.None?
    ensures lastDay.Some? && today < lastDay.value ==> s == Normal
    ensures lastDay.Some? && t == Daily ==>
              (s == Normal <==> today <= lastDay.value) && (s == Alarm <==> today > lastDay.value)
    ensures lastDay.Some? && t != Daily ==>
              && (s == Alarm <==> today - lastDay.value >= CycleDays(t))
              && (s == Warning <==> CycleDays(t) - WarningLead <= today - lastDay.value < CycleDays(t))
  {
    match lastDay
    case None => Unknown
    case Some(last) =>
      var diff := today - last;
      var cycle := CycleDays(t);
      if diff < 0 then Normal
      else if cycle == 1 then (if diff == 0 then Normal else Alarm)
      else if diff == 0 then Normal
      else if diff >= cycle then Alarm
      else if diff >= cycle - WarningLead then Warning
      else Normal
  }

  /** The classification calculateAlarmStatus applies once a local record
      exists: `elapsedMs` is now minus the recorded time; whole days are
      counted by flooring (Dafny's `/` by a positive divisor floors). The
      daily cycle is always normal, however old the record. */
  function StatusFromElapsed(t: string, elapsedMs: int): (s: AlarmStatus)
    ensures s != Unknown
    ensures t == Daily ==> s == Normal
    ensures t != Daily ==>
              && (s == Alarm <==> elapsedMs >= CycleDays(t) * DayMs)
              && (s == Warning <==> (CycleDays(t) - WarningLead) * DayMs <= elapsedMs < CycleDays(t) * DayMs)
  {
    var daysDiff := elapsedMs / DayMs;
    var cycle := CycleDays(t);
    if cycle == 1 then Normal
    else if daysDiff >= cycle then Alarm
    else if daysDiff >= cycle - WarningLead then Warning
    else Normal
  }

  /** getAlarmStatusText. */
  function AlarmStatusText(s: AlarmStatus): string
  {
    match s
    case Normal => "정상"
    case Warning => "점검예정"
    case Alarm => "점검필요"
    case Unknown => "미점검"
  }

  /** Different statuses get different labels, so the label identifies the
      status. */
  lemma AlarmStatusTextInjective(a: AlarmStatus, b: AlarmStatus)
    requires AlarmStatusText(a) == AlarmStatusText(b)
    ensures a == b
  {
    match a
    case Normal => assert AlarmStatusText(b)[0] == '정';
    case Warning => assert AlarmStatusText(b)[2] == '예';
    case Alarm => assert AlarmStatusText(b)[2] == '필';
    case Unknown => assert AlarmStatusText(b)[0] == '미';
  }

  /** The boundary scenarios every non-daily type satisfies: a full cycle is
      alarm, three days before it is warning, four days before is normal. */
  lemma NonDailyBoundaries(t: string, today: int)
    requires t != Daily
    ensures StatusFromDate(t, Some(today - CycleDays(t)), today) == Alarm
    ensures StatusFromDate(t, Some(today - (CycleDays(t) - 3)), today) == Warning
    ensures StatusFromDate(t, Some(today - (CycleDays(t) - 4)), today) == Normal
  {
  }

  /** The status only gets worse as days pass: normal, then warning, then
      alarm (for a date that is not in the future). */
  function Severity(s: AlarmStatus): nat
  {
    match s
    case Normal => 0
    case Warning => 1
    case Alarm => 2
    case Unknown => 3
  }

  lemma StatusFromDateMonotone(t: string, last: int, today: int, later: int)
    requires last <= today <= later
    ensures Severity(StatusFromDate(t, Some(last), today)) <= Severity(StatusFromDate(t, Some(last), later))
  {
  }

  /** The two variants agree on every non-daily type once the date-based
      day difference and the elapsed-time day count coincide; they differ
      only on the daily type, where the recorded variant never raises an
      alarm and the date variant does from the day after on. */
  lemma VariantsAgreeOffDaily(t: string, last: int, today: int, elapsedMs: int)
    requires t != Daily
    requires elapsedMs / DayMs == today - last
    ensures StatusFromDate(t, Some(last), today) == StatusFromElapsed(t, elapsedMs)
  {
  }

  lemma DailyAsymmetry(last: int, today: int, elapsedMs: int)
    requires today > last
    ensures StatusFromDate(Daily, Some(last), today) == Alarm
    ensures StatusFromElapsed(Daily, elapsedMs) == Normal
  {
  }

  // ---------------------------------------------------------------------
  // Local inspection history

  /** One entry of the local history: the recorded instant (milliseconds)
      and the identifying fields. */
  datatype InspectionRecord = InspectionRecord(lastInspection: int, inspectionType: string, equipment: string, sheet: string)

  /** buildKey: `${sheetName}_${type}_${equipmentName}`. */
  function BuildKey(t: string, equipmentName: string, sheetName: string): string
  {
    sheetName + "_" + t + "_" + equipmentName
  }

  predicate NoUnderscore(s: string)
  {
    forall k :: 0 <= k < |s| ==> s[k] != '_'
  }

  /** In `head + "_" + tail` with an underscore-free head, the first
      underscore sits right after the head. */
  lemma FirstUnderscoreAt(a: string, x: string)
    requires NoUnderscore(a)
    ensures IndexOf(a + "_" + x, '_') == |a|
  {
    var s := a + "_" + x;
    assert s[|a|] == '_';
    assert s[..|a|] == a;
  }

  /** An underscore-free head is determined by `head + "_" + tail`. */
  lemma SplitAtFirstUnderscore(a: string, x: string, b: string, y: string)
    requires NoUnderscore(a) && NoUnderscore(b)
    requires a + "_" + x == b + "_" + y
    ensures a == b && x == y
  {
    var s := a + "_" + x;
    FirstUnderscoreAt(a, x);
    FirstUnderscoreAt(b, y);
    assert a == s[..|a|] == b;
    assert x == s[|a| + 1..] == y;
  }

  /** Keys identify their entry when sheet names and inspection types hold
      no underscore (true of every sheet and type of the application; an
      underscore in the type would let two entries share a key). */
  lemma BuildKeyInjective(t1: string, e1: string, s1: string, t2: string, e2: string, s2: string)
    requires NoUnderscore(s1) && NoUnderscore(s2) && NoUnderscore(t1) && NoUnderscore(t2)
    requires BuildKey(t1, e1, s1) == BuildKey(t2, e2, s2)
    ensures t1 == t2 && e1 == e2 && s1 == s2
  {
    assert BuildKey(t1, e1, s1) == s1 + "_" + (t1 + "_" + e1);
    assert BuildKey(t2, e2, s2) == s2 + "_" + (t2 + "_" + e2);
    SplitAtFirstUnderscore(s1, t1 + "_" + e1, s2, t2 + "_" + e2);
    SplitAtFirstUnderscore(t1, e1, t2, e2);
  }

  /** InspectionTimeManager: the history map that recordInspection writes. */
  class InspectionTimeManager {
    var inspectionTimes: map<string, InspectionRecord>

    /** Starts from the previously saved history. */
    constructor(saved: map<string, InspectionRecord>)
      ensures inspectionTimes == saved
    {
      inspectionTimes := saved;
    }

    /** recordInspection at instant `now`: overwrites the entry under the
        key and nothing else. */
    method RecordInspection(t: string, equipmentName: string, sheetName: string, now: int)
      modifies this
      ensures inspectionTimes == old(inspectionTimes)[BuildKey(t, equipmentName, sheetName) := InspectionRecord(now, t, equipmentName, sheetName)]
      ensures LastInspectionTime(t, equipmentName, sheetName) == Some(now)
      ensures forall k :: k != BuildKey(t, equipmentName, sheetName) ==>
                (k in inspectionTimes <==> k in old(inspectionTimes)) &&
                (k in inspectionTimes ==> inspectionTimes[k] == old(inspectionTimes)[k])
    {
      var key := BuildKey(t, equipmentName, sheetName);
      inspectionTimes := inspectionTimes[key := InspectionRecord(now, t, equipmentName, sheetName)];
    }

    /** getLastInspectionTime. */
    function LastInspectionTime(t: string, equipmentName: string, sheetName: string): (r: Option<int>)
      reads this
      ensures r.Some? <==> BuildKey(t, equipmentName, sheetName) in inspectionTimes
      ensures r.Some? ==> r.value == inspectionTimes[BuildKey(t, equipmentName, sheetName)].lastInspection
    {
      var key := BuildKey(t, equipmentName, sheetName);
      if key in inspectionTimes then Some(inspectionTimes[key].lastInspection) else None
    }

    /** calculateAlarmStatus at instant `now`: unknown without a record,
        otherwise the elapsed-time classification. */
    function CalculateAlarmStatus(t: string, equipmentName: string, sheetName: string, now: int): (s: AlarmStatus)
      reads this
      ensures s == Unknown <==> BuildKey(t, equipmentName, sheetName) !in inspectionTimes
      ensures t == Daily ==> s != Warning && s != Alarm
      ensures s != Unknown ==>
                s == StatusFromElapsed(t, now - inspectionTimes[BuildKey(t, equipmentName, sheetName)].lastInspection)
    {
      match LastInspectionTime(t, equipmentName, sheetName)
      case None => Unknown
      case Some(last) => StatusFromElapsed(t, now - last)
    }
  }

  /** Just after an inspection is recorded its status is normal, whatever
      the type. */
  lemma RecordedNowIsNormal(m: InspectionTimeManager, t: string, e: string, sheet: string, now: int)
    requires m.LastInspectionTime(t, e, sheet) == Some(now)
    ensures m.CalculateAlarmStatus(t, e, sheet, now) == Normal
  {
  }
}
