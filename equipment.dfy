/** The capacity- and uniqueness-checked lists of js/equipment.js:
    InspectionItemsManager (item names per inspection type, at most 50) and
    EquipmentManager (equipment entries per inspection type, at most 100).

    Both managers start from a table in which all six inspection types point
    at ONE shared array. The model keeps that: a table maps a type to a list
    object, the six initial entries hold the same object, and a change made
    through one type is seen through every type that shares the object. */
module Equipment {
  import opened Seqs
  import Alarm

  const MaxItems: nat := 50
  const MaxEquipment: nat := 100

  /** The initial item names every type starts with. */
  const DefaultItems: seq<string> := ["일반점검", "정기점검", "외관확인", "소음확인"]

  /** The thrown errors: list full, duplicate name, unknown type, absent
      name. */
  datatype ListError = LimitReached(max: nat) | AlreadyExists | TypeNotFound | NotFound

  datatype Outcome<T> = Ok(value: T) | Err(error: ListError)

  // ---------------------------------------------------------------------
  // Inspection items

  /** What addInspectionItem does to one list. */
  function AddedItem(items: seq<string>, name: string): (r: Outcome<seq<string>>)
    ensures r.Err? <==> |items| >= MaxItems || name in items
    ensures |items| >= MaxItems ==> r == Err(LimitReached(MaxItems))
    ensures r.Ok? ==> |r.value| == |items| + 1 && r.value[..|items|] == items && r.value[|items|] == name
  {
    if |items| >= MaxItems then Err(LimitReached(MaxItems))
    else if name in items then Err(AlreadyExists)
    else Ok(items + [name])
  }

  /** What deleteInspectionItem does to the list of a known type. */
  function DeletedItem(items: seq<string>, name: string): (r: Outcome<seq<string>>)
    ensures r.Err? <==> name !in items
    ensures r.Err? ==> r.error == NotFound
    ensures r.Ok? ==> multiset(r.value) == multiset(items) - multiset{name}
    ensures r.Ok? ==> exists k :: 0 <= k < |items| && items[k] == name && name !in items[..k] && r.value == RemoveAt(items, k)
  {
    if name !in items then Err(NotFound)
    else
      RemoveFirstMultiset(items, name);
      var k := IndexOf(items, name);
      assert items[k] == name && name !in items[..k];
      Ok(RemoveFirst(items, name))
  }

  /** The list invariant the two operations keep: at most 50 names, none
      twice. */
  predicate ItemListInvariant(items: seq<string>)
  {
    |items| <= MaxItems && NoDup(items)
  }

  lemma ItemListInvariantPreserved(items: seq<string>, name: string)
    requires ItemListInvariant(items)
    ensures AddedItem(items, name).Ok? ==> ItemListInvariant(AddedItem(items, name).value)
    ensures DeletedItem(items, name).Ok? ==>
              ItemListInvariant(DeletedItem(items, name).value) && name !in DeletedItem(items, name).value
  {
    if name in items {
      RemoveFirstNoDup(items, name);
    }
  }

  /** Adding a name and deleting it again restores the list. */
  lemma AddThenDeleteItem(items: seq<string>, name: string)
    requires AddedItem(items, name).Ok?
    ensures DeletedItem(AddedItem(items, name).value, name) == Ok(items)
  {
    var added := items + [name];
    assert AddedItem(items, name).value == added;
    assert forall k :: 0 <= k < |items| ==> added[k] != name;
    var i := IndexOf(added, name);
    assert i == |items|;
    assert RemoveFirst(added, name) == added[..i] + added[i + 1..] == items;
  }

  /** A JavaScript array of item names. It is an object so that several
      table entries can hold the same one. */
  class ItemList {
    var names: seq<string>

    constructor(initial: seq<string>)
      ensures names == initial
    {
      names := initial;
    }
  }

  /** InspectionItemsManager. */
  class InspectionItemsManager {
    var table: map<string, ItemList>

    /** loadInspectionItems: all six types share one array. */
    constructor()
      ensures table.Keys == set t | t in Alarm.InspectionTypes
      ensures forall t :: t in table ==> table[t].names == DefaultItems
      ensures forall t, u :: t in table && u in table ==> table[t] == table[u]
      ensures fresh(table.Values)
    {
      var shared := new ItemList(DefaultItems);
      table := map t | t in Alarm.InspectionTypes :: shared;
    }

    /** getInspectionItems: the type's list, [] for a type never seen. */
    function Items(t: string): (r: seq<string>)
      reads this, table.Values
      ensures t !in table ==> r == []
    {
      if t in table then table[t].names else []
    }

    /** addInspectionItem. A type without a list first gets a new empty one
        (on every path); then the add fails at 50 names or on a duplicate,
        and otherwise appends the name. Every type sharing the list sees the
        result; no other list changes. */
    method AddInspectionItem(t: string, name: string) returns (r: Outcome<bool>)
      modifies this, table.Values
      ensures t in table
      ensures old(t in table) ==> table == old(table)
      ensures old(t !in table) ==> fresh(table[t]) && table == old(table)[t := table[t]]
      ensures r.Ok? <==> AddedItem(old(Items(t)), name).Ok?
      ensures r.Err? ==> r.error == AddedItem(old(Items(t)), name).error && Items(t) == old(Items(t))
      ensures r.Ok? ==> Items(t) == AddedItem(old(Items(t)), name).value
      ensures forall u :: u in old(table) && old(t in table) && old(table[u]) == old(table[t]) ==> Items(u) == Items(t)
      ensures forall l :: l in old(table.Values) && l != table[t] ==> l.names == old(l.names)
    {
      if t !in table {
        var created := new ItemList([]);
        table := table[t := created];
      }
      var list := table[t];
      var outcome := AddedItem(list.names, name);
      if outcome.Ok? {
        list.names := outcome.value;
        r := Ok(true);
      } else {
        r := Err(outcome.error);
      }
    }

    /** deleteInspectionItem: fails for a type without a list or an absent
        name, otherwise removes the first occurrence from the (shared) list. */
    method DeleteInspectionItem(t: string, name: string) returns (r: Outcome<bool>)
      modifies table.Values
      ensures t !in table ==> r == Err(TypeNotFound)
      ensures t in table ==> (r.Ok? <==> DeletedItem(old(Items(t)), name).Ok?)
      ensures t in table && r.Err? ==> r.error == NotFound && Items(t) == old(Items(t))
      ensures r.Ok? ==> Items(t) == DeletedItem(old(Items(t)), name).value
      ensures forall u :: u in table && t in table && table[u] == table[t] ==> Items(u) == Items(t)
      ensures forall l :: l in table.Values && (t !in table || l != table[t]) ==> l.names == old(l.names)
    {
      if t !in table {
        return Err(TypeNotFound);
      }
      var list := table[t];
      var outcome := DeletedItem(list.names, name);
      if outcome.Ok? {
        list.names := outcome.value;
        r := Ok(true);
      } else {
        r := Err(outcome.error);
      }
    }
  }

  /** The shared initial array in action: an item added under the daily
      type shows up under the weekly type as well. */
  method AddUnderDailyShowsUnderWeekly() returns (weekly: seq<string>)
    ensures weekly == DefaultItems + ["누유점검"]
  {
    var m := new InspectionItemsManager();
    assert Alarm.Weekly in Alarm.InspectionTypes && Alarm.Daily in Alarm.InspectionTypes;
    var r := m.AddInspectionItem(Alarm.Daily, "누유점검");
    weekly := m.Items(Alarm.Weekly);
  }

  // ---------------------------------------------------------------------
  // Equipment

  /** One equipment entry of a type's list. */
  datatype EquipmentEntry = EquipmentEntry(name: string, status: string, statusText: string)

  /** getStatusText (EquipmentManager). */
  function StatusText(status: string): (text: string)
    ensures status == "normal" <==> text == "정상"
    ensures text == "알 수 없음" <==> status !in {"normal", "warning", "alarm", "maintenance"}
  {
    if status == "normal" then "정상"
    else if status == "warning" then "점검필요"
    else if status == "alarm" then "알람"
    else if status == "maintenance" then "정비중"
    else "알 수 없음"
  }

  function Names(es: seq<EquipmentEntry>): (r: seq<string>)
    ensures |r| == |es|
    ensures forall k :: 0 <= k < |es| ==> r[k] == es[k].name
  {
    seq(|es|, k requires 0 <= k < |es| => es[k].name)
  }

  /** The hard-coded equipment of each team sheet; an unknown sheet gets the
      1-A list. */
  function SheetEquipmentNames(sheet: string): (names: seq<string>)
    ensures 5 <= |names| <= 14
  {
    if sheet == "1-B" then
      ["진공펌프", "A/C Tower", "Oven", "긴급배기장치", "맨틀", "교반기", "칠러", "퓨리파이시스템"]
    else if sheet == "1-C" then
      ["진공펌프", "글러브박스", "클린룸 공조설비", "초음파 세척기", "자동 세정설비", "자동 충진설비",
       "자동 퍼지설비", "클린오븐", "제품 출하 차량"]
    else if sheet == "1-D" then
      ["진공펌프", "글러브박스", "클린룸 공조설비", "GC", "NMR", "ICP", "IC", "KF", "점도계", "APHA"]
    else if sheet == "1-E" then
      ["진공펌프", "글러브박스", "맨틀", "교반기", "칠러"]
    else
      ["진공펌프", "A/C Tower", "스크러바", "자동 배기장치", "합성 반응기", "정제 반응기",
       "Feeding Tank", "정제수 제조설비", "냉각수 시스템", "온수 시스템", "압축공기 시스템",
       "상활실 및 전기", "방화셔터", "승강기"]
  }

  /** The sheet's list, every entry tagged normal / "정상". */
  function SheetEquipment(sheet: string): (r: seq<EquipmentEntry>)
    ensures Names(r) == SheetEquipmentNames(sheet)
    ensures forall k :: 0 <= k < |r| ==> r[k].status == "normal" && r[k].statusText == "정상"
  {
    var names := SheetEquipmentNames(sheet);
    seq(|names|, k requires 0 <= k < |names| => EquipmentEntry(names[k], "normal", "정상"))
  }

  /** What addEquipment does to one list. */
  function AddedEquipment(es: seq<EquipmentEntry>, name: string, status: string): (r: Outcome<seq<EquipmentEntry>>)
    ensures r.Err? <==> |es| >= MaxEquipment || name in Names(es)
    ensures |es| >= MaxEquipment ==> r == Err(LimitReached(MaxEquipment))
    ensures r.Ok? ==> r.value == es + [EquipmentEntry(name, status, StatusText(status))]
  {
    if |es| >= MaxEquipment then Err(LimitReached(MaxEquipment))
    else if name in Names(es) then Err(AlreadyExists)
    else Ok(es + [EquipmentEntry(name, status, StatusText(status))])
  }

  /** What deleteEquipment does to the list of a known type: remove the
      first entry with that name. */
  function DeletedEquipment(es: seq<EquipmentEntry>, name: string): (r: Outcome<seq<EquipmentEntry>>)
    ensures r.Err? <==> name !in Names(es)
    ensures r.Err? ==> r.error == NotFound
    ensures r.Ok? ==> exists k :: 0 <= k < |es| && es[k].name == name && name !in Names(es[..k]) && r.value == RemoveAt(es, k)
  {
    var k := IndexOf(Names(es), name);
    if k < 0 then Err(NotFound)
    else
      assert Names(es[..k]) == Names(es)[..k];
      Ok(RemoveAt(es, k))
  }

  /** The list invariant of EquipmentManager: at most 100 entries, no name
      twice. */
  predicate EquipmentListInvariant(es: seq<EquipmentEntry>)
  {
    |es| <= MaxEquipment && NoDup(Names(es))
  }

  lemma NamesAppend(es: seq<EquipmentEntry>, e: EquipmentEntry)
    ensures Names(es + [e]) == Names(es) + [e.name]
  {
  }

  lemma NamesRemoveAt(es: seq<EquipmentEntry>, k: nat)
    requires k < |es|
    ensures Names(RemoveAt(es, k)) == RemoveAt(Names(es), k)
  {
  }

  lemma AddedEquipmentInvariant(es: seq<EquipmentEntry>, name: string, status: string)
    requires EquipmentListInvariant(es)
    ensures AddedEquipment(es, name, status).Ok? ==> EquipmentListInvariant(AddedEquipment(es, name, status).value)
  {
    if AddedEquipment(es, name, status).Ok? {
      NamesAppend(es, EquipmentEntry(name, status, StatusText(status)));
      AppendNoDup(Names(es), name);
    }
  }

  lemma DeletedEquipmentInvariant(es: seq<EquipmentEntry>, name: string)
    requires EquipmentListInvariant(es)
    ensures DeletedEquipment(es, name).Ok? ==>
              EquipmentListInvariant(DeletedEquipment(es, name).value) && name !in Names(DeletedEquipment(es, name).value)
  {
    var k := IndexOf(Names(es), name);
    if k >= 0 {
      assert DeletedEquipment(es, name).value == RemoveAt(es, k);
      NamesRemoveAt(es, k);
      assert RemoveFirst(Names(es), name) == RemoveAt(Names(es), k);
      RemoveFirstNoDup(Names(es), name);
    }
  }

  /** Every sheet's initial list already satisfies the invariant. */
  lemma SheetEquipmentInvariant(sheet: string)
    ensures EquipmentListInvariant(SheetEquipment(sheet))
  {
    var names := SheetEquipmentNames(sheet);
    assert Names(SheetEquipment(sheet)) == names;
    if sheet == "1-B" {
      assert NoDup(names);
    } else if sheet == "1-C" {
      assert NoDup(names);
    } else if sheet == "1-D" {
      assert NoDup(names);
    } else if sheet == "1-E" {
      assert NoDup(names);
    } else {
      assert NoDup(names);
    }
  }

  /** A JavaScript array of equipment entries, shared like ItemList. */
  class EquipmentList {
    var entries: seq<EquipmentEntry>

    constructor(initial: seq<EquipmentEntry>)
      ensures entries == initial
    {
      entries := initial;
    }
  }

  /** EquipmentManager. */
  class EquipmentManager {
    var table: map<string, EquipmentList>

    /** loadEquipmentData for the current sheet (the caller resolves an
        unset sheet to 1-A): one array shared by all six types. */
    constructor(currentSheet: string)
      ensures table.Keys == set t | t in Alarm.InspectionTypes
      ensures forall t :: t in table ==> table[t].entries == SheetEquipment(currentSheet)
      ensures forall t, u :: t in table && u in table ==> table[t] == table[u]
      ensures fresh(table.Values)
    {
      var shared := new EquipmentList(SheetEquipment(currentSheet));
      table := map t | t in Alarm.InspectionTypes :: shared;
    }

    /** getEquipmentByType: [] for a type never seen. */
    function EquipmentByType(t: string): (r: seq<EquipmentEntry>)
      reads this, table.Values
      ensures t !in table ==> r == []
    {
      if t in table then table[t].entries else []
    }

    /** addEquipment: a missing type first gets a new list; the add fails at
        100 entries or on a duplicate name, else appends
        {name, status, statusText} and returns the new entry. */
    method AddEquipment(t: string, name: string, status: string) returns (r: Outcome<EquipmentEntry>)
      modifies this, table.Values
      ensures t in table
      ensures old(t in table) ==> table == old(table)
      ensures old(t !in table) ==> fresh(table[t]) && table == old(table)[t := table[t]]
      ensures r.Ok? <==> AddedEquipment(old(EquipmentByType(t)), name, status).Ok?
      ensures r.Ok? ==> r.value == EquipmentEntry(name, status, StatusText(status))
      ensures r.Ok? ==> EquipmentByType(t) == AddedEquipment(old(EquipmentByType(t)), name, status).value
      ensures r.Err? ==> r.error == AddedEquipment(old(EquipmentByType(t)), name, status).error
      ensures r.Err? ==> EquipmentByType(t) == old(EquipmentByType(t))
      ensures forall u :: u in old(table) && old(t in table) && old(table[u]) == old(table[t]) ==> EquipmentByType(u) == EquipmentByType(t)
      ensures forall l :: l in old(table.Values) && l != table[t] ==> l.entries == old(l.entries)
    {
      if t !in table {
        var created := new EquipmentList([]);
        table := table[t := created];
      }
      var list := table[t];
      var outcome := AddedEquipment(list.entries, name, status);
      if outcome.Ok? {
        list.entries := outcome.value;
        r := Ok(EquipmentEntry(name, status, StatusText(status)));
      } else {
        r := Err(outcome.error);
      }
    }

    /** deleteEquipment: fails for a type without a list or an absent name,
        otherwise removes the first entry with that name. */
    method DeleteEquipment(t: string, name: string) returns (r: Outcome<bool>)
      modifies table.Values
      ensures t !in table ==> r == Err(TypeNotFound)
      ensures t in table ==> (r.Ok? <==> DeletedEquipment(old(EquipmentByType(t)), name).Ok?)
      ensures t in table && r.Err? ==> r.error == NotFound && EquipmentByType(t) == old(EquipmentByType(t))
      ensures r.Ok? ==> EquipmentByType(t) == DeletedEquipment(old(EquipmentByType(t)), name).value
      ensures forall u :: u in table && t in table && table[u] == table[t] ==> EquipmentByType(u) == EquipmentByType(t)
      ensures forall l :: l in table.Values && (t !in table || l != table[t]) ==> l.entries == old(l.entries)
    {
      if t !in table {
        return Err(TypeNotFound);
      }
      var list := table[t];
      var outcome := DeletedEquipment(list.entries, name);
      if outcome.Ok? {
        list.entries := outcome.value;
        r := Ok(true);
      } else {
        r := Err(outcome.error);
      }
    }
  }
}
