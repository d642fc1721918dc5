/** inspection.js: the InspectionManager of the first front end. It holds
    a per-type configuration table and an object of equipment statuses
    keyed by equipment name (kept here as a sequence of entries with unique
    names, in the object's insertion order), and derives from them the
    status labels, the alert list and the inspection schedule. It also
    validates a submitted inspection, summarises its results and counts a
    history by type, equipment and inspector. Times are millisecond
    timestamps and "now" is a parameter. */
module InspectionUtils {
  import opened Seqs
  import Alarm

  // ---------------------------------------------------------------------
  // The per-type configuration table

  datatype TypeConfig = TypeConfig(locations: seq<string>, inspectionItems: seq<string>,
                                   warningDays: nat, alarmDays: nat, equipmentList: seq<string>)

  /** The placeholder for an unused location slot. */
  const EmptySlot: string := "EMPTY"

  /** `this.inspectionTypes[inspectionType]`: the configuration of a known
      type, None for any other key. */
  function TypeConfigOf(t: string): Option<TypeConfig>
  {
    if t == Alarm.Daily then
      Some(TypeConfig(["3동", "10동", EmptySlot, EmptySlot], ["오일교체", "누유점검", "모터점검", "외부수리"],
                      1, 3, ["VP-001", "VP-002"]))
    else if t == Alarm.Weekly then
      Some(TypeConfig(["정제실1", "정제실2", "정제실3", "정제실4"], ["전체점검", "정밀점검", "교체점검", "예방정비"],
                      1, 7, ["VP-001", "VP-002", "VP-003", "VP-004"]))
    else if t == Alarm.Monthly then
      Some(TypeConfig(["정제실1", "정제실2", "정제실3", "정제실4"], ["종합점검", "성능점검", "안전점검", "정기교체"],
                      3, 30, ["VP-001", "VP-002", "VP-003"]))
    else if t == Alarm.Quarterly then
      Some(TypeConfig(["정제실1", "정제실2", "정제실3", "정제실4"], ["전면점검", "부품교체", "성능측정", "안전확인"],
                      3, 90, ["VP-001"]))
    else if t == Alarm.Semiannual then
      Some(TypeConfig(["정제실1", "정제실2", "정제실3", "정제실4"], ["대점검", "주요부품교체", "성능개선", "안전강화"],
                      7, 180, ["VP-001"]))
    else if t == Alarm.Annual then
      Some(TypeConfig(["정제실1", "정제실2", "정제실3", "정제실4"], ["오버홀", "시설개선", "성능업그레이드", "안전시설점검"],
                      7, 365, ["VP-001"]))
    else None
  }

  /** getInspectionItemsForType: the configured items, [] for an unknown
      type. */
  function GetInspectionItemsForType(t: string): (items: seq<string>)
    ensures TypeConfigOf(t).None? ==> items == []
    ensures TypeConfigOf(t).Some? ==> items == TypeConfigOf(t).value.inspectionItems
  {
    match TypeConfigOf(t)
    case None => []
    case Some(config) => config.inspectionItems
  }

  function IsUsedSlot(location: string): bool
  {
    location != EmptySlot
  }

  /** getLocationsForType: the configured locations without the "EMPTY"
      placeholders, in order; [] for an unknown type. */
  function GetLocationsForType(t: string): (locations: seq<string>)
  {
    match TypeConfigOf(t)
    case None => []
    case Some(config) => Filter(config.locations, IsUsedSlot)
  }

  /** The locations offered are exactly the configured non-placeholder
      ones; an unknown type offers none. */
  lemma LocationsForType(t: string, location: string)
    ensures TypeConfigOf(t).None? ==> GetLocationsForType(t) == []
    ensures TypeConfigOf(t).Some? ==>
              (location in GetLocationsForType(t) <==> location in TypeConfigOf(t).value.locations && location != EmptySlot)
    ensures EmptySlot !in GetLocationsForType(t)
  {
  }

  /** The daily type has two real locations. */
  lemma DailyLocations()
    ensures GetLocationsForType(Alarm.Daily) == ["3동", "10동"]
  {
    var used := ["3동", "10동"];
    FilterAppend(used, [EmptySlot, EmptySlot], IsUsedSlot);
    FilterAll(used, IsUsedSlot);
    FilterNone([EmptySlot, EmptySlot], IsUsedSlot);
    assert TypeConfigOf(Alarm.Daily).value.locations == used + [EmptySlot, EmptySlot];
  }

  /** Every other known type has all four locations in use. */
  lemma {:induction false} PlantLocations(t: string)
    requires TypeConfigOf(t).Some? && t != Alarm.Daily
    ensures GetLocationsForType(t) == ["정제실1", "정제실2", "정제실3", "정제실4"]
  {
    var plant := ["정제실1", "정제실2", "정제실3", "정제실4"];
    assert TypeConfigOf(t).value.locations == plant;
    assert forall k :: 0 <= k < |plant| ==> |plant[k]| == 4;
    FilterAll(plant, IsUsedSlot);
  }

  // ---------------------------------------------------------------------
  // Equipment status

  /** One value of `this.equipmentStatus`: the stored status string is
      never read back; the two times are timestamps in milliseconds. */
  datatype StatusEntry = StatusEntry(name: string, status: string, lastCheck: int, nextCheck: int)

  /** `Math.floor((to - from) / (1000 * 60 * 60 * 24))`. */
  function DaysBetween(from: int, to: int): int
  {
    (to - from) / Alarm.DayMs
  }

  /** Whole days from `now` to `nextCheck` are at most `d` exactly when
      `nextCheck` comes before the start of day `d + 1` after now. */
  lemma DaysBetweenAtMost(now: int, nextCheck: int, d: int)
    ensures DaysBetween(now, nextCheck) <= d <==> nextCheck < now + (d + 1) * Alarm.DayMs
  {
    var q := (nextCheck - now) / Alarm.DayMs;
    var r := (nextCheck - now) % Alarm.DayMs;
    assert nextCheck - now == q * Alarm.DayMs + r && 0 <= r < Alarm.DayMs;
    if q <= d {
      assert q * Alarm.DayMs <= d * Alarm.DayMs;
    } else {
      assert (d + 1) * Alarm.DayMs <= q * Alarm.DayMs;
    }
  }

  /** The classification shared by getEquipmentStatus and the alerts: due
      (at most 0 days left) is alarm, at most 3 days left is warning. */
  function StatusOfDays(d: int): (s: Alarm.AlarmStatus)
    ensures s != Alarm.Unknown
    ensures s == Alarm.Alarm <==> d <= 0
    ensures s == Alarm.Warning <==> 1 <= d <= 3
    ensures s == Alarm.Normal <==> d > 3
  {
    if d <= 0 then Alarm.Alarm
    else if d <= 3 then Alarm.Warning
    else Alarm.Normal
  }

  /** The status labels of inspection.js. */
  function StatusLabel(s: Alarm.AlarmStatus): string
  {
    match s
    case Normal => "정상"
    case Warning => "점검 필요"
    case Alarm => "긴급 점검 필요"
    case Unknown => "알 수 없음"
  }

  /** Every status has its own label. */
  lemma StatusLabelInjective(a: Alarm.AlarmStatus, b: Alarm.AlarmStatus)
    requires StatusLabel(a) == StatusLabel(b)
    ensures a == b
  {
  }

  datatype StatusView = StatusView(status: Alarm.AlarmStatus, statusText: string)

  /** `{name, status, statusText}` as getEquipmentForType returns it. */
  datatype EquipmentView = EquipmentView(name: string, status: Alarm.AlarmStatus, statusText: string)

  function NameIs(name: string): StatusEntry -> bool
  {
    (e: StatusEntry) => e.name == name
  }

  /** Looking a name up in the status object. */
  function LookupStatus(entries: seq<StatusEntry>, name: string): (r: Option<StatusEntry>)
    ensures r.None? <==> forall k :: 0 <= k < |entries| ==> entries[k].name != name
    ensures r.Some? ==> r.value in entries && r.value.name == name
  {
    var i := FindFirst(entries, NameIs(name));
    if i < 0 then None else Some(entries[i])
  }

  /** The status object's own keys are unique. */
  predicate UniqueNames(entries: seq<StatusEntry>)
  {
    forall i, j :: 0 <= i < j < |entries| ==> entries[i].name != entries[j].name
  }

  /** `this.equipmentStatus[name] = entry`: overwrite the value under an
      existing key in place, or add the key at the end. */
  function PutStatus(entries: seq<StatusEntry>, entry: StatusEntry): (r: seq<StatusEntry>)
  {
    var i := FindFirst(entries, NameIs(entry.name));
    if i < 0 then entries + [entry] else entries[i := entry]
  }

  /** A put keeps keys unique. */
  lemma PutStatusUnique(entries: seq<StatusEntry>, entry: StatusEntry)
    requires UniqueNames(entries)
    ensures UniqueNames(PutStatus(entries, entry))
  {
    var i := FindFirst(entries, NameIs(entry.name));
    if i < 0 {
      assert forall k :: 0 <= k < |entries| ==> entries[k].name != entry.name;
    }
  }

  /** After a put the key reads the new value. */
  lemma PutStatusLookupSame(entries: seq<StatusEntry>, entry: StatusEntry)
    ensures LookupStatus(PutStatus(entries, entry), entry.name) == Some(entry)
  {
    var r := PutStatus(entries, entry);
    var i := FindFirst(entries, NameIs(entry.name));
    if i < 0 {
      FindFirstAt(r, NameIs(entry.name), |entries|);
    } else {
      FindFirstAt(r, NameIs(entry.name), i);
    }
  }

  /** After a put every other key reads what it read before. */
  lemma PutStatusLookupOther(entries: seq<StatusEntry>, entry: StatusEntry, name: string)
    requires name != entry.name
    ensures LookupStatus(PutStatus(entries, entry), name) == LookupStatus(entries, name)
  {
    var r := PutStatus(entries, entry);
    var j := FindFirst(entries, NameIs(name));
    if j >= 0 {
      FindFirstAt(r, NameIs(name), j);
    } else {
      assert forall k :: 0 <= k < |r| ==> r[k].name != name;
    }
  }

  /** After a put the key reads the new value, every other key reads what
      it read before, and keys stay unique. */
  lemma PutStatusLookup(entries: seq<StatusEntry>, entry: StatusEntry, name: string)
    requires UniqueNames(entries)
    ensures UniqueNames(PutStatus(entries, entry))
    ensures LookupStatus(PutStatus(entries, entry), name)
              == if name == entry.name then Some(entry) else LookupStatus(entries, name)
  {
    PutStatusUnique(entries, entry);
    if name == entry.name {
      PutStatusLookupSame(entries, entry);
    } else {
      PutStatusLookupOther(entries, entry, name);
    }
  }

  /** getEquipmentStatus on the status object: unknown for an unrecorded
      name, otherwise the classification of the whole days left until the
      next check. */
  function EquipmentStatusOf(entries: seq<StatusEntry>, name: string, now: int): (v: StatusView)
    ensures v.statusText == StatusLabel(v.status)
    ensures v.status == Alarm.Unknown <==> LookupStatus(entries, name).None?
    ensures LookupStatus(entries, name).Some? ==>
              v.status == StatusOfDays(DaysBetween(now, LookupStatus(entries, name).value.nextCheck))
  {
    match LookupStatus(entries, name)
    case None => StatusView(Alarm.Unknown, StatusLabel(Alarm.Unknown))
    case Some(equipment) =>
      var status := StatusOfDays(DaysBetween(now, equipment.nextCheck));
      StatusView(status, StatusLabel(status))
  }

  /** Read against the clock: a recorded piece of equipment is alarm when
      its next check falls before tomorrow's time of day, warning up to four
      days ahead. */
  lemma EquipmentStatusAgainstClock(entries: seq<StatusEntry>, name: string, now: int)
    requires LookupStatus(entries, name).Some?
    ensures var next := LookupStatus(entries, name).value.nextCheck;
            var s := EquipmentStatusOf(entries, name, now).status;
            && (s == Alarm.Alarm <==> next < now + Alarm.DayMs)
            && (s == Alarm.Warning <==> now + Alarm.DayMs <= next < now + 4 * Alarm.DayMs)
  {
    var next := LookupStatus(entries, name).value.nextCheck;
    DaysBetweenAtMost(now, next, 0);
    DaysBetweenAtMost(now, next, 3);
  }

  // ---------------------------------------------------------------------
  // The default statuses

  /** calculateNextCheckDate's interval table (`checkIntervals[name] || 30`). */
  function CheckInterval(name: string): (days: nat)
    ensures days >= 1
    ensures days <= 3 <==> name == "VP-001"
  {
    if name == "VP-001" then 1
    else if name == "VP-002" then 7
    else if name == "VP-003" then 30
    else if name == "VP-004" then 90
    else if name == "VP-005" then 180
    else if name == "VP-006" then 365
    else 30
  }

  /** calculateNextCheckDate: `interval` calendar days after now. */
  function NextCheckDate(name: string, now: int): int
  {
    now + CheckInterval(name) * Alarm.DayMs
  }

  /** The equipment lists of all types, concatenated in table order. */
  function EquipmentOfTypes(types: seq<string>): seq<string>
    decreases |types|
  {
    if |types| == 0 then []
    else
      var init := EquipmentOfTypes(types[..|types| - 1]);
      match TypeConfigOf(types[|types| - 1])
      case None => init
      case Some(config) => init + config.equipmentList
  }

  /** `[...new Set(xs)]`: the first occurrence of each element, in order. */
  function UniqueInOrder(xs: seq<string>): (r: seq<string>)
    ensures NoDup(r)
    ensures forall x :: x in r <==> x in xs
    ensures forall i, j :: 0 <= i < j < |r| ==> IndexOf(xs, r[i]) < IndexOf(xs, r[j])
    decreases |xs|
  {
    if |xs| == 0 then []
    else
      var pre := xs[..|xs| - 1];
      var init := UniqueInOrder(pre);
      var x := xs[|xs| - 1];
      assert forall y :: y in xs <==> y in pre || y == x;
      forall y | y in init
        ensures IndexOf(xs, y) == IndexOf(pre, y)
      {
        IndexOfPrefix(xs, |xs| - 1, y);
      }
      if x in init then init
      else
        IndexOfUnique(xs, x, |xs| - 1);
        init + [x]
  }

  /** The names setDefaultEquipmentStatus writes, once each. */
  function DefaultNames(): seq<string>
  {
    UniqueInOrder(EquipmentOfTypes(Alarm.InspectionTypes))
  }

  function DefaultEntry(name: string, now: int): StatusEntry
  {
    StatusEntry(name, "normal", now, NextCheckDate(name, now))
  }

  /** Writing the default entry of each name in turn. */
  function PutDefaults(entries: seq<StatusEntry>, names: seq<string>, now: int): seq<StatusEntry>
    decreases |names|
  {
    if |names| == 0 then entries
    else PutStatus(PutDefaults(entries, names[..|names| - 1], now), DefaultEntry(names[|names| - 1], now))
  }

  /** After the defaults are written every written name reads its default
      entry, every other name reads what it read before, and keys stay
      unique. */
  lemma {:induction false} PutDefaultsLookup(entries: seq<StatusEntry>, names: seq<string>, now: int, name: string)
    requires UniqueNames(entries)
    ensures UniqueNames(PutDefaults(entries, names, now))
    ensures LookupStatus(PutDefaults(entries, names, now), name)
              == if name in names then Some(DefaultEntry(name, now)) else LookupStatus(entries, name)
    decreases |names|
  {
    if |names| > 0 {
      var init := names[..|names| - 1];
      var last := names[|names| - 1];
      PutDefaultsLookup(entries, init, now, name);
      PutStatusLookup(PutDefaults(entries, init, now), DefaultEntry(last, now), name);
      assert name in names <==> name in init || name == last;
    }
  }

  /** Reading the defaults written at `written` at any time `read` up to a
      day later: at the instant of writing the equipment checked daily
      reads warning, and from the next millisecond on it reads alarm, since
      less than one whole day is left; every other default reads normal
      throughout. */
  lemma {:induction false} FreshDefaultStatus(entries: seq<StatusEntry>, names: seq<string>, written: int, read: int, name: string)
    requires UniqueNames(entries)
    requires name in names
    requires written <= read <= written + Alarm.DayMs
    ensures EquipmentStatusOf(PutDefaults(entries, names, written), name, read).status
              == if name != "VP-001" then Alarm.Normal
                 else if read == written then Alarm.Warning
                 else Alarm.Alarm
  {
    PutDefaultsLookup(entries, names, written, name);
    var interval := CheckInterval(name);
    var next := NextCheckDate(name, written);
    assert next - read == interval * Alarm.DayMs - (read - written);
    if read == written {
      assert DaysBetween(read, next) == interval;
    } else {
      assert DaysBetween(read, next) == interval - 1 by {
        DaysBetweenAtMost(read, next, interval - 1);
        DaysBetweenAtMost(read, next, interval - 2);
      }
    }
  }

  // ---------------------------------------------------------------------
  // Alerts and schedule

  datatype Alert =
    | Urgent(equipment: string, message: string, daysOverdue: nat)
    | Upcoming(equipment: string, message: string, daysUntilCheck: int)

  /** The alert one status entry raises, if any. */
  function AlertFor(now: int, e: StatusEntry): (a: Option<Alert>)
    ensures var d := DaysBetween(now, e.nextCheck);
            && (a.Some? <==> d <= 3)
            && (a.Some? && a.value.Urgent? <==> d <= 0)
            && (a.Some? ==> a.value.equipment == e.name)
            && (a.Some? && a.value.Urgent? ==> a.value.daysOverdue == -d)
            && (a.Some? && a.value.Upcoming? ==> a.value.daysUntilCheck == d && 1 <= d)
  {
    var d := DaysBetween(now, e.nextCheck);
    if d <= 0 then Some(Urgent(e.name, e.name + " 긴급 점검 필요", -d))
    else if d <= 3 then Some(Upcoming(e.name, e.name + " 점검 예정 (" + NatToString(d) + "일 후)", d))
    else None
  }

  function AlertOf(now: int): StatusEntry -> Option<Alert>
  {
    (e: StatusEntry) => AlertFor(now, e)
  }

  /** An alert is urgent exactly when the status of its equipment reads
      alarm, and upcoming exactly when it reads warning; normal equipment
      raises none. */
  lemma AlertsFollowStatus(entries: seq<StatusEntry>, k: nat, now: int)
    requires UniqueNames(entries)
    requires k < |entries|
    ensures var s := EquipmentStatusOf(entries, entries[k].name, now).status;
            var a := AlertFor(now, entries[k]);
            && (a.Some? && a.value.Urgent? <==> s == Alarm.Alarm)
            && (a.Some? && a.value.Upcoming? <==> s == Alarm.Warning)
            && (a.None? <==> s == Alarm.Normal)
  {
    FindFirstAt(entries, NameIs(entries[k].name), k);
  }

  datatype Priority = PriorityUrgent | PriorityHigh | PriorityNormal

  datatype ScheduleEntry = ScheduleEntry(equipment: string, scheduledDate: int, daysUntilCheck: int, priority: Priority)

  /** The priority of a scheduled check: already due is urgent, due within
      three days (to the millisecond) is high. */
  function PriorityOf(nextCheck: int, now: int): (p: Priority)
    ensures p == PriorityUrgent <==> nextCheck <= now
    ensures p == PriorityHigh <==> now < nextCheck <= now + 3 * Alarm.DayMs
  {
    if nextCheck <= now then PriorityUrgent
    else if nextCheck <= now + 3 * Alarm.DayMs then PriorityHigh
    else PriorityNormal
  }

  /** The schedule entry one status entry contributes before `endDate`. */
  function ScheduleFor(now: int, endDate: int, e: StatusEntry): (r: Option<ScheduleEntry>)
    ensures r.Some? <==> e.nextCheck <= endDate
    ensures r.Some? ==> r.value.equipment == e.name && r.value.scheduledDate == e.nextCheck
  {
    if e.nextCheck <= endDate then
      Some(ScheduleEntry(e.name, e.nextCheck, DaysBetween(now, e.nextCheck), PriorityOf(e.nextCheck, now)))
    else None
  }

  function ScheduleOf(now: int, endDate: int): StatusEntry -> Option<ScheduleEntry>
  {
    (e: StatusEntry) => ScheduleFor(now, endDate, e)
  }

  /** The end of the schedule window: `days` days after now. */
  function WindowEnd(now: int, days: int): int
  {
    now + days * 24 * 60 * 60 * 1000
  }

  predicate SortedByDate(s: seq<ScheduleEntry>)
  {
    forall i, j :: 0 <= i < j < |s| ==> s[i].scheduledDate <= s[j].scheduledDate
  }

  /** Insert after every entry due no later, which keeps equal dates in
      their original order. */
  function InsertByDate(x: ScheduleEntry, s: seq<ScheduleEntry>): (r: seq<ScheduleEntry>)
    ensures multiset(r) == multiset(s) + multiset{x}
    ensures |r| == |s| + 1
  {
    if |s| == 0 then [x]
    else if x.scheduledDate < s[0].scheduledDate then [x] + s
    else
      assert s == [s[0]] + s[1..];
      [s[0]] + InsertByDate(x, s[1..])
  }

  lemma {:induction false} InsertByDateSorted(x: ScheduleEntry, s: seq<ScheduleEntry>)
    requires SortedByDate(s)
    ensures SortedByDate(InsertByDate(x, s))
  {
    if |s| > 0 && x.scheduledDate >= s[0].scheduledDate {
      InsertByDateSorted(x, s[1..]);
      var r := InsertByDate(x, s[1..]);
      forall k | 0 <= k < |r| ensures s[0].scheduledDate <= r[k].scheduledDate {
        assert r[k] in multiset(s[1..]) + multiset{x} by {
          assert r[k] in multiset(r);
        }
        if r[k] != x {
          var j :| 0 <= j < |s[1..]| && s[1..][j] == r[k];
          assert s[j + 1] == r[k];
        }
      }
    }
  }

  /** The stable sort by scheduled date that `schedule.sort(...)` performs. */
  function SortByDate(s: seq<ScheduleEntry>): (r: seq<ScheduleEntry>)
    ensures multiset(r) == multiset(s)
    decreases |s|
  {
    if |s| == 0 then []
    else
      var init := s[..|s| - 1];
      assert s == init + [s[|s| - 1]];
      InsertByDate(s[|s| - 1], SortByDate(init))
  }

  lemma {:induction false} SortByDateSorted(s: seq<ScheduleEntry>)
    ensures SortedByDate(SortByDate(s))
    decreases |s|
  {
    if |s| > 0 {
      SortByDateSorted(s[..|s| - 1]);
      InsertByDateSorted(s[|s| - 1], SortByDate(s[..|s| - 1]));
    }
  }

  /** The manager: its one mutable field is the status object. */
  class InspectionManager {
    var equipmentStatus: seq<StatusEntry>

    predicate Valid()
      reads this
    {
      UniqueNames(equipmentStatus)
    }

    /** The constructor ends with the default statuses. Loading tests the
        connector's `isConnected` synchronously, and that flag is still false
        then, because the connector's own initialisation is asynchronous; so
        the defaults are written. Were it true, the connector of
        js/googleSheets.js has no `getEquipmentStatus` method, the call
        throws, and the catch falls back to the same defaults. The
        `getEquipmentStatus` of the root googleSheets.js connector is not
        part of this model. */
    constructor(now: int)
      ensures Valid()
      ensures equipmentStatus == PutDefaults([], DefaultNames(), now)
    {
      equipmentStatus := [];
      new;
      SetDefaultEquipmentStatus(now);
    }

    /** setDefaultEquipmentStatus: write a fresh default entry under each
        equipment name of the table, once per name. */
    method SetDefaultEquipmentStatus(now: int)
      requires Valid()
      modifies this
      ensures Valid()
      ensures equipmentStatus == PutDefaults(old(equipmentStatus), DefaultNames(), now)
    {
      WriteDefaults(DefaultNames(), now);
    }

    /** The forEach of setDefaultEquipmentStatus over the de-duplicated
        names. */
    method WriteDefaults(uniqueEquipment: seq<string>, now: int)
      requires Valid()
      modifies this
      ensures Valid()
      ensures equipmentStatus == PutDefaults(old(equipmentStatus), uniqueEquipment, now)
    {
      var i := 0;
      while i < |uniqueEquipment|
        invariant 0 <= i <= |uniqueEquipment|
        invariant equipmentStatus == PutDefaults(old(equipmentStatus), uniqueEquipment[..i], now)
        invariant Valid()
      {
        assert uniqueEquipment[..i + 1][..i] == uniqueEquipment[..i];
        PutStatusUnique(equipmentStatus, DefaultEntry(uniqueEquipment[i], now));
        equipmentStatus := PutStatus(equipmentStatus, DefaultEntry(uniqueEquipment[i], now));
        i := i + 1;
      }
      assert uniqueEquipment[..i] == uniqueEquipment;
    }

    /** getEquipmentStatus. */
    function GetEquipmentStatus(name: string, now: int): (v: StatusView)
      reads this
      ensures v.statusText == StatusLabel(v.status)
      ensures v.status == Alarm.Unknown <==> LookupStatus(equipmentStatus, name).None?
    {
      EquipmentStatusOf(equipmentStatus, name, now)
    }

    /** getEquipmentForType: the configured equipment of the type, each with
        its current status; [] for an unknown type. */
    function GetEquipmentForType(t: string, now: int): (r: seq<EquipmentView>)
      reads this
      ensures TypeConfigOf(t).None? ==> r == []
      ensures TypeConfigOf(t).Some? ==> |r| == |TypeConfigOf(t).value.equipmentList|
      ensures TypeConfigOf(t).Some? ==>
                forall k :: 0 <= k < |r| ==>
                  var name := TypeConfigOf(t).value.equipmentList[k];
                  r[k] == EquipmentView(name, GetEquipmentStatus(name, now).status, GetEquipmentStatus(name, now).statusText)
    {
      match TypeConfigOf(t)
      case None => []
      case Some(config) =>
        var entries := equipmentStatus;
        seq(|config.equipmentList|, k requires 0 <= k < |config.equipmentList| =>
          EquipmentView(config.equipmentList[k], EquipmentStatusOf(entries, config.equipmentList[k], now).status,
                        EquipmentStatusOf(entries, config.equipmentList[k], now).statusText))
    }

    /** generateInspectionAlerts: one alert per status entry that is due or
        due within three days, in key order. */
    method GenerateInspectionAlerts(now: int) returns (alerts: seq<Alert>)
      ensures alerts == FilterMap(equipmentStatus, AlertOf(now))
    {
      var alertFor := AlertOf(now);
      alerts := [];
      var i := 0;
      while i < |equipmentStatus|
        invariant 0 <= i <= |equipmentStatus|
        invariant alerts == FilterMap(equipmentStatus[..i], alertFor)
      {
        FilterMapStep(equipmentStatus, i, alertFor);
        var alert := alertFor(equipmentStatus[i]);
        if alert.Some? {
          alerts := alerts + [alert.value];
        }
        i := i + 1;
      }
      assert equipmentStatus[..i] == equipmentStatus;
    }

    /** generateInspectionSchedule: the entries due within the window, as
        schedule entries sorted by scheduled date. */
    method GenerateInspectionSchedule(now: int, days: int) returns (schedule: seq<ScheduleEntry>)
      ensures SortedByDate(schedule)
      ensures multiset(schedule) == multiset(FilterMap(equipmentStatus, ScheduleOf(now, WindowEnd(now, days))))
    {
      var endDate := WindowEnd(now, days);
      var scheduleFor := ScheduleOf(now, endDate);
      var pending: seq<ScheduleEntry> := [];
      var i := 0;
      while i < |equipmentStatus|
        invariant 0 <= i <= |equipmentStatus|
        invariant pending == FilterMap(equipmentStatus[..i], scheduleFor)
      {
        FilterMapStep(equipmentStatus, i, scheduleFor);
        var entry := scheduleFor(equipmentStatus[i]);
        if entry.Some? {
          pending := pending + [entry.value];
        }
        i := i + 1;
      }
      assert equipmentStatus[..i] == equipmentStatus;
      schedule := SortByDate(pending);
      SortByDateSorted(pending);
    }
  }

  /** The alerts list exactly the due and nearly-due equipment: an alert is
      raised for a status entry iff at most three whole days are left. */
  lemma AlertsComplete(entries: seq<StatusEntry>, now: int, a: Alert)
    ensures a in FilterMap(entries, AlertOf(now)) <==>
              exists k :: 0 <= k < |entries| && AlertFor(now, entries[k]) == Some(a)
    ensures forall k :: 0 <= k < |entries| && DaysBetween(now, entries[k].nextCheck) <= 3 ==>
              AlertFor(now, entries[k]).value in FilterMap(entries, AlertOf(now))
  {
    FilterMapMembership(entries, AlertOf(now), a);
    forall k | 0 <= k < |entries| && DaysBetween(now, entries[k].nextCheck) <= 3
      ensures AlertFor(now, entries[k]).value in FilterMap(entries, AlertOf(now))
    {
      FilterMapMembership(entries, AlertOf(now), AlertFor(now, entries[k]).value);
    }
  }

  /** The schedule holds an entry for a status entry exactly when its next
      check falls within the window. */
  lemma ScheduleWindow(entries: seq<StatusEntry>, now: int, days: int, x: ScheduleEntry)
    ensures x in FilterMap(entries, ScheduleOf(now, WindowEnd(now, days))) <==>
              exists k :: 0 <= k < |entries| && entries[k].nextCheck <= WindowEnd(now, days)
                          && ScheduleFor(now, WindowEnd(now, days), entries[k]) == Some(x)
  {
    FilterMapMembership(entries, ScheduleOf(now, WindowEnd(now, days)), x);
  }

  // ---------------------------------------------------------------------
  // Validation of a submitted inspection

  /** One result row; "" stands for a missing (falsy) item or result. */
  datatype ResultEntry = ResultEntry(item: string, result: string)

  /** The fields validateInspectionData reads; "" stands for a missing
      value, and `results` is None when the list itself is missing. */
  datatype Submission = Submission(inspectionType: string, equipment: string, inspector: string,
                                   results: Option<seq<ResultEntry>>)

  const MsgNoType: string := "점검 유형을 선택해주세요."
  const MsgNoEquipment: string := "장비를 선택해주세요."
  const MsgNoInspector: string := "점검자 이름을 입력해주세요."
  const MsgNoResults: string := "점검 결과를 입력해주세요."

  /** The message for the result at 0-based `index` that has no item. */
  function MissingItemMsg(index: nat): string
  {
    NatToString(index + 1) + "번째 점검 항목의 이름이 없습니다."
  }

  /** The message for a result whose value is missing. */
  function MissingResultMsg(item: string): string
  {
    item + "의 점검 결과를 선택해주세요."
  }

  /** The messages one result row contributes: the missing item first,
      then the missing value. */
  function RowErrors(r: ResultEntry, index: nat): (errors: seq<string>)
    ensures errors == [] <==> r.item != "" && r.result != ""
    ensures |errors| == (if r.item == "" then 1 else 0) + (if r.result == "" then 1 else 0)
  {
    (if r.item == "" then [MissingItemMsg(index)] else []) + (if r.result == "" then [MissingResultMsg(r.item)] else [])
  }

  /** The messages of the first `n` rows, in row order. */
  function ResultErrors(rs: seq<ResultEntry>, n: nat): seq<string>
    requires n <= |rs|
  {
    if n == 0 then [] else ResultErrors(rs, n - 1) + RowErrors(rs[n - 1], n - 1)
  }

  /** The messages about the fields of the submission, before any row. */
  function FieldErrors(d: Submission): seq<string>
  {
    (if d.inspectionType == "" then [MsgNoType] else [])
    + (if d.equipment == "" then [MsgNoEquipment] else [])
    + (if Trim(d.inspector) == "" then [MsgNoInspector] else [])
  }

  /** The error list validateInspectionData returns. */
  function ValidationErrors(d: Submission): seq<string>
  {
    FieldErrors(d)
    + match d.results
      case None => [MsgNoResults]
      case Some(rs) => if |rs| == 0 then [MsgNoResults] else ResultErrors(rs, |rs|)
  }

  /** The pass of validateInspectionData over a non-empty result list. */
  method ValidateResults(rs: seq<ResultEntry>) returns (errors: seq<string>)
    ensures errors == ResultErrors(rs, |rs|)
  {
    errors := [];
    var i := 0;
    while i < |rs|
      invariant 0 <= i <= |rs|
      invariant errors == ResultErrors(rs, i)
    {
      if rs[i].item == "" {
        errors := errors + [MissingItemMsg(i)];
      }
      if rs[i].result == "" {
        errors := errors + [MissingResultMsg(rs[i].item)];
      }
      i := i + 1;
    }
  }

  /** validateInspectionData: the field checks, then one pass over the
      results. */
  method ValidateInspectionData(d: Submission) returns (errors: seq<string>)
    ensures errors == ValidationErrors(d)
  {
    errors := [];
    if d.inspectionType == "" {
      errors := errors + [MsgNoType];
    }
    if d.equipment == "" {
      errors := errors + [MsgNoEquipment];
    }
    if Trim(d.inspector) == "" {
      errors := errors + [MsgNoInspector];
    }
    assert errors == FieldErrors(d);
    if d.results.None? || |d.results.value| == 0 {
      errors := errors + [MsgNoResults];
    } else {
      var rowErrors := ValidateResults(d.results.value);
      errors := errors + rowErrors;
    }
  }

  /** The rows raise no message exactly when every row has an item and a
      result. */
  lemma {:induction false} ResultErrorsEmpty(rs: seq<ResultEntry>, n: nat)
    requires n <= |rs|
    ensures ResultErrors(rs, n) == [] <==> forall k :: 0 <= k < n ==> rs[k].item != "" && rs[k].result != ""
  {
    if n > 0 {
      ResultErrorsEmpty(rs, n - 1);
    }
  }

  /** A submission passes validation exactly when it has a type, an
      equipment, a non-blank inspector and a non-empty result list whose
      every row has an item and a result. */
  lemma ValidIff(d: Submission)
    ensures ValidationErrors(d) == [] <==>
              && d.inspectionType != "" && d.equipment != "" && Trim(d.inspector) != ""
              && d.results.Some? && |d.results.value| > 0
              && forall k :: 0 <= k < |d.results.value| ==> d.results.value[k].item != "" && d.results.value[k].result != ""
  {
    if d.results.Some? {
      ResultErrorsEmpty(d.results.value, |d.results.value|);
    }
  }

  function ItemMissing(r: ResultEntry): bool
  {
    r.item == ""
  }

  function ResultMissing(r: ResultEntry): bool
  {
    r.result == ""
  }

  /** One message per row without an item plus one per row without a
      result. */
  lemma {:induction false} ResultErrorsCount(rs: seq<ResultEntry>, n: nat)
    requires n <= |rs|
    ensures |ResultErrors(rs, n)| == |Filter(rs[..n], ItemMissing)| + |Filter(rs[..n], ResultMissing)|
  {
    if n > 0 {
      ResultErrorsCount(rs, n - 1);
      assert rs[..n] == rs[..n - 1] + [rs[n - 1]];
      FilterAppend(rs[..n - 1], [rs[n - 1]], ItemMissing);
      FilterAppend(rs[..n - 1], [rs[n - 1]], ResultMissing);
    }
  }

  /** The messages come in row order: those of the first m rows are a
      prefix of those of the first n. */
  lemma {:induction false} ResultErrorsInOrder(rs: seq<ResultEntry>, m: nat, n: nat)
    requires m <= n <= |rs|
    ensures ResultErrors(rs, m) <= ResultErrors(rs, n)
    decreases n - m
  {
    if m < n {
      ResultErrorsInOrder(rs, m, n - 1);
    }
  }

  // ---------------------------------------------------------------------
  // Summary of one inspection

  const ResultNormal: string := "정상"
  const ResultAbnormal: string := "이상"
  const ResultNeedCheck: string := "점검필요"
  const ResultNotApplicable: string := "N/A"

  datatype SummaryStatus = SummaryAbnormal | SummaryWarning | SummaryNormal

  datatype Summary = Summary(total: nat, normal: nat, abnormal: nat, needCheck: nat, na: nat, status: SummaryStatus)

  function ResultIs(value: string): ResultEntry -> bool
  {
    (r: ResultEntry) => r.result == value
  }

  /** generateInspectionSummary. */
  function GenerateInspectionSummary(results: seq<ResultEntry>): (s: Summary)
    ensures s.total == |results|
  {
    var normal := |Filter(results, ResultIs(ResultNormal))|;
    var abnormal := |Filter(results, ResultIs(ResultAbnormal))|;
    var needCheck := |Filter(results, ResultIs(ResultNeedCheck))|;
    var na := |Filter(results, ResultIs(ResultNotApplicable))|;
    Summary(|results|, normal, abnormal, needCheck, na,
            if abnormal > 0 then SummaryAbnormal else if needCheck > 0 then SummaryWarning else SummaryNormal)
  }

  function Unrecognised(r: ResultEntry): bool
  {
    r.result != ResultNormal && r.result != ResultAbnormal && r.result != ResultNeedCheck && r.result != ResultNotApplicable
  }

  /** Each result falls in exactly one count or in none of the four, so the
      four counts plus the unrecognised results make up the total. */
  lemma {:induction false} SummaryCountsPartition(results: seq<ResultEntry>)
    ensures var s := GenerateInspectionSummary(results);
            s.normal + s.abnormal + s.needCheck + s.na + |Filter(results, Unrecognised)| == s.total
  {
    if |results| > 0 {
      SummaryCountsPartition(results[1..]);
    }
  }

  /** The status precedence: abnormal as soon as one result is "이상",
      otherwise warning as soon as one is "점검필요", otherwise normal. */
  lemma SummaryStatusPrecedence(results: seq<ResultEntry>)
    ensures var s := GenerateInspectionSummary(results).status;
            && (s == SummaryAbnormal <==> exists k :: 0 <= k < |results| && results[k].result == ResultAbnormal)
            && (s == SummaryWarning <==>
                  (forall k :: 0 <= k < |results| ==> results[k].result != ResultAbnormal)
                  && exists k :: 0 <= k < |results| && results[k].result == ResultNeedCheck)
  {
    var abnormal := Filter(results, ResultIs(ResultAbnormal));
    var needCheck := Filter(results, ResultIs(ResultNeedCheck));
    if exists k :: 0 <= k < |results| && results[k].result == ResultAbnormal {
      var k :| 0 <= k < |results| && results[k].result == ResultAbnormal;
      assert results[k] in abnormal;
    }
    if |abnormal| > 0 {
      assert abnormal[0] in results;
    }
    if exists k :: 0 <= k < |results| && results[k].result == ResultNeedCheck {
      var k :| 0 <= k < |results| && results[k].result == ResultNeedCheck;
      assert results[k] in needCheck;
    }
    if |needCheck| > 0 {
      assert needCheck[0] in results;
    }
  }

  // ---------------------------------------------------------------------
  // Statistics over a history

  datatype HistoryRecord = HistoryRecord(inspectionType: string, equipment: string, inspector: string)

  /** The statistics object; `recentTrends` is always empty and not kept. */
  datatype Statistics = Statistics(totalInspections: nat, byType: map<string, nat>,
                                   byEquipment: map<string, nat>, byInspector: map<string, nat>)

  /** `if (!m[k]) m[k] = 0; m[k]++`. */
  function Bump(m: map<string, nat>, k: string): map<string, nat>
  {
    m[k := (if k in m then m[k] else 0) + 1]
  }

  /** The counter object after counting every key of `keys` in turn. */
  function Tally(keys: seq<string>): map<string, nat>
    decreases |keys|
  {
    if |keys| == 0 then map[] else Bump(Tally(keys[..|keys| - 1]), keys[|keys| - 1])
  }

  function TypesOf(h: seq<HistoryRecord>): (r: seq<string>)
    ensures |r| == |h| && forall k :: 0 <= k < |h| ==> r[k] == h[k].inspectionType
  {
    seq(|h|, k requires 0 <= k < |h| => h[k].inspectionType)
  }

  function EquipmentOf(h: seq<HistoryRecord>): (r: seq<string>)
    ensures |r| == |h| && forall k :: 0 <= k < |h| ==> r[k] == h[k].equipment
  {
    seq(|h|, k requires 0 <= k < |h| => h[k].equipment)
  }

  function InspectorsOf(h: seq<HistoryRecord>): (r: seq<string>)
    ensures |r| == |h| && forall k :: 0 <= k < |h| ==> r[k] == h[k].inspector
  {
    seq(|h|, k requires 0 <= k < |h| => h[k].inspector)
  }

  function StatisticsOf(h: seq<HistoryRecord>): Statistics
  {
    Statistics(|h|, Tally(TypesOf(h)), Tally(EquipmentOf(h)), Tally(InspectorsOf(h)))
  }

  /** generateInspectionStatistics: one pass over the history bumping the
      three counter objects. */
  method GenerateInspectionStatistics(historyData: seq<HistoryRecord>) returns (stats: Statistics)
    ensures stats == StatisticsOf(historyData)
  {
    var byType: map<string, nat> := map[];
    var byEquipment: map<string, nat> := map[];
    var byInspector: map<string, nat> := map[];
    var i := 0;
    while i < |historyData|
      invariant 0 <= i <= |historyData|
      invariant byType == Tally(TypesOf(historyData[..i]))
      invariant byEquipment == Tally(EquipmentOf(historyData[..i]))
      invariant byInspector == Tally(InspectorsOf(historyData[..i]))
    {
      var inspection := historyData[i];
      assert TypesOf(historyData[..i + 1])[..i] == TypesOf(historyData[..i]);
      assert EquipmentOf(historyData[..i + 1])[..i] == EquipmentOf(historyData[..i]);
      assert InspectorsOf(historyData[..i + 1])[..i] == InspectorsOf(historyData[..i]);
      byType := Bump(byType, inspection.inspectionType);
      byEquipment := Bump(byEquipment, inspection.equipment);
      byInspector := Bump(byInspector, inspection.inspector);
      i := i + 1;
    }
    assert historyData[..i] == historyData;
    stats := Statistics(|historyData|, byType, byEquipment, byInspector);
  }

  /** Each key's counter is the number of its occurrences, and only keys
      that occur have one. */
  lemma {:induction false} TallyCounts(keys: seq<string>, k: string)
    ensures k in Tally(keys) <==> k in keys
    ensures k in Tally(keys) ==> Tally(keys)[k] == multiset(keys)[k]
    decreases |keys|
  {
    if |keys| > 0 {
      var init := keys[..|keys| - 1];
      TallyCounts(init, k);
      assert keys == init + [keys[|keys| - 1]];
    }
  }

  lemma MapRemoveSize(m: map<string, nat>, k: string)
    requires k in m
    ensures |m - {k}| == |m| - 1
  {
    assert (m - {k}).Keys == m.Keys - {k};
    assert |m.Keys - {k}| == |m.Keys| - 1;
  }

  /** Some key of a non-empty counter object. */
  ghost function AnyKey(m: map<string, nat>): (k: string)
    requires |m| > 0
    ensures k in m
  {
    var k :| k in m; k
  }

  /** The sum of the counters of a counter object. */
  ghost function MapSum(m: map<string, nat>): nat
    decreases |m|
  {
    if |m| == 0 then 0
    else
      var k := AnyKey(m);
      MapRemoveSize(m, k);
      m[k] + MapSum(m - {k})
  }

  lemma RemoveCommutes(m: map<string, nat>, j: string, k: string)
    ensures m - {j} - {k} == m - {k} - {j}
  {
  }

  /** The sum does not depend on which key is taken first. */
  lemma {:induction false} MapSumRemove(m: map<string, nat>, k: string)
    requires k in m
    ensures MapSum(m) == m[k] + MapSum(m - {k})
    decreases |m|
  {
    MapRemoveSize(m, k);
    var j := AnyKey(m);
    if j != k {
      MapRemoveSize(m, j);
      MapSumRemove(m - {j}, k);
      MapSumRemove(m - {k}, j);
      RemoveCommutes(m, j, k);
    }
  }

  /** Bumping touches only the bumped counter. */
  lemma BumpRest(m: map<string, nat>, k: string)
    ensures Bump(m, k) - {k} == m - {k}
    ensures k !in m ==> m - {k} == m
  {
  }

  /** Bumping a counter adds one to the sum. */
  lemma MapSumBump(m: map<string, nat>, k: string)
    ensures MapSum(Bump(m, k)) == MapSum(m) + 1
  {
    BumpRest(m, k);
    MapSumRemove(Bump(m, k), k);
    if k in m {
      MapSumRemove(m, k);
    }
  }

  /** The counters of a tally add up to the number of keys counted. */
  lemma {:induction false} TallySum(keys: seq<string>)
    ensures MapSum(Tally(keys)) == |keys|
    decreases |keys|
  {
    if |keys| > 0 {
      TallySum(keys[..|keys| - 1]);
      MapSumBump(Tally(keys[..|keys| - 1]), keys[|keys| - 1]);
    }
  }

  /** totalInspections is the history length, and the counters by type, by
      equipment and by inspector each add up to it. */
  lemma StatisticsSumToTotal(h: seq<HistoryRecord>)
    ensures var stats := StatisticsOf(h);
            && stats.totalInspections == |h|
            && MapSum(stats.byType) == |h|
            && MapSum(stats.byEquipment) == |h|
            && MapSum(stats.byInspector) == |h|
  {
    TallySum(TypesOf(h));
    TallySum(EquipmentOf(h));
    TallySum(InspectorsOf(h));
  }
}
