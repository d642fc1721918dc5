/** app.js: the EGChemApp class of the older front end. Its state is the
    chosen inspection type and equipment, the current step, the fields of
    the inspection being filled in, and the set of checklist items already
    marked completed. Submission validates the fields in a fixed order and
    builds the record handed to the connector. */
module LegacyApp {
  import opened Seqs
  import Checklist
  import InspectionUtils
  import Sheets

  /** One equipment entry of the built-in per-type table. */
  datatype LegacyEquipment = LegacyEquipment(name: string, status: string, statusText: string)

  function Normal(name: string): LegacyEquipment { LegacyEquipment(name, "normal", "정상") }
  function NeedsCheck(name: string): LegacyEquipment { LegacyEquipment(name, "warning", "점검필요") }
  function Alarmed(name: string): LegacyEquipment { LegacyEquipment(name, "alarm", "알람") }

  /** getEquipmentForType: the built-in equipment of a type, [] for an
      unknown type. */
  function GetEquipmentForType(t: string): seq<LegacyEquipment>
  {
    if t == "일일점검" then [Normal("VP-001"), NeedsCheck("VP-002")]
    else if t == "주간점검" then [Normal("VP-001"), NeedsCheck("VP-002"), Normal("VP-003"), Alarmed("VP-004")]
    else if t == "월간점검" then [Normal("VP-001"), NeedsCheck("VP-002"), Normal("VP-003")]
    else if t == "분기점검" || t == "반기점검" || t == "연간점검" then [Normal("VP-001")]
    else []
  }

  /** getInspectionItemsForType: the built-in items of a type, [] for an
      unknown type. */
  function GetInspectionItemsForType(t: string): seq<string>
  {
    if t == "일일점검" then ["오일교체", "누유점검", "모터점검", "외부수리"]
    else if t == "주간점검" then ["전체점검", "정밀점검", "교체점검", "예방정비"]
    else if t == "월간점검" then ["종합점검", "성능점검", "안전점검", "정기교체"]
    else if t == "분기점검" then ["전면점검", "부품교체", "성능측정", "안전확인"]
    else if t == "반기점검" then ["대점검", "주요부품교체", "성능개선", "안전강화"]
    else if t == "연간점검" then ["오버홀", "시설개선", "성능업그레이드", "안전시설점검"]
    else []
  }

  function EquipmentNames(es: seq<LegacyEquipment>): (names: seq<string>)
    ensures |names| == |es| && forall k :: 0 <= k < |es| ==> names[k] == es[k].name
  {
    seq(|es|, k requires 0 <= k < |es| => es[k].name)
  }

  /** The older front end offers the same equipment names and the same
      checklist items per type as the configuration table of inspection.js,
      and nothing for a type that table does not know. */
  lemma TablesAgree(t: string)
    ensures InspectionUtils.TypeConfigOf(t).None? ==> GetEquipmentForType(t) == [] && GetInspectionItemsForType(t) == []
    ensures InspectionUtils.TypeConfigOf(t).Some? ==>
              && EquipmentNames(GetEquipmentForType(t)) == InspectionUtils.TypeConfigOf(t).value.equipmentList
              && GetInspectionItemsForType(t) == InspectionUtils.TypeConfigOf(t).value.inspectionItems
  {
  }

  /** Every built-in entry carries the label of its status. */
  lemma EquipmentLabels(t: string, k: nat)
    requires k < |GetEquipmentForType(t)|
    ensures var e := GetEquipmentForType(t)[k];
            && (e.status == "normal" <==> e.statusText == "정상")
            && (e.status == "warning" <==> e.statusText == "점검필요")
            && (e.status == "alarm" <==> e.statusText == "알람")
  {
  }

  // ---------------------------------------------------------------------
  // The checklist

  /** The checklist state: the items whose row is marked completed, and the
      recorded results. */
  datatype ItemState = ItemState(completed: set<string>, inspections: seq<Checklist.CheckResult>)

  /** Every row marked completed has a recorded result, and no item is
      recorded twice. */
  predicate ItemStateValid(s: ItemState)
  {
    Checklist.UniqueItems(s.inspections) && forall item :: item in s.completed ==> Checklist.HasItem(s.inspections, item)
  }

  /** Clicking a checklist row (loadInspectionItems): a row already marked
      completed is ignored; otherwise it is marked and its result upserted
      as completed. */
  function CompleteItemSpec(s: ItemState, item: string): ItemState
  {
    if item in s.completed then s
    else ItemState(s.completed + {item}, Checklist.Upsert(s.inspections, item, Checklist.Completed))
  }

  /** Choosing an option of a row (showInspectionForm): the result is
      upserted by item name. */
  function ChooseOptionSpec(s: ItemState, item: string, result: string): ItemState
  {
    ItemState(s.completed, Checklist.Upsert(s.inspections, item, result))
  }

  /** An upsert never loses an item that had a result. */
  lemma UpsertKeepsItems(rs: seq<Checklist.CheckResult>, item: string, result: string, other: string)
    requires Checklist.HasItem(rs, other)
    ensures Checklist.HasItem(Checklist.Upsert(rs, item, result), other)
  {
    var r := Checklist.Upsert(rs, item, result);
    var k :| 0 <= k < |rs| && rs[k].item == other;
    if !Checklist.HasItem(rs, item) {
      assert r[k] == rs[k];
    } else {
      assert r[k].item == other;
    }
  }

  lemma UpsertHasItem(rs: seq<Checklist.CheckResult>, item: string, result: string)
    ensures Checklist.HasItem(Checklist.Upsert(rs, item, result), item)
  {
    var r := Checklist.Upsert(rs, item, result);
    if !Checklist.HasItem(rs, item) {
      assert r[|rs|].item == item;
    } else {
      var k :| 0 <= k < |rs| && rs[k].item == item;
      assert r[k].item == item;
    }
  }

  /** Both clicks keep the checklist state valid. */
  lemma ClicksPreserveValid(s: ItemState, item: string, result: string)
    requires ItemStateValid(s)
    ensures ItemStateValid(CompleteItemSpec(s, item))
    ensures ItemStateValid(ChooseOptionSpec(s, item, result))
  {
    Checklist.UpsertContents(s.inspections, item, Checklist.Completed, Checklist.CheckResult(item, Checklist.Completed));
    Checklist.UpsertContents(s.inspections, item, result, Checklist.CheckResult(item, result));
    UpsertHasItem(s.inspections, item, Checklist.Completed);
    forall other | other in s.completed
      ensures Checklist.HasItem(Checklist.Upsert(s.inspections, item, Checklist.Completed), other)
      ensures Checklist.HasItem(Checklist.Upsert(s.inspections, item, result), other)
    {
      UpsertKeepsItems(s.inspections, item, Checklist.Completed, other);
      UpsertKeepsItems(s.inspections, item, result, other);
    }
  }

  /** Clicking a row a second time changes nothing. */
  lemma CompleteItemIdempotent(s: ItemState, item: string)
    ensures CompleteItemSpec(CompleteItemSpec(s, item), item) == CompleteItemSpec(s, item)
  {
  }

  /** A completed row records exactly "점검완료" for its item. */
  lemma CompleteItemRecords(s: ItemState, item: string)
    requires ItemStateValid(s)
    requires item !in s.completed
    ensures Checklist.CheckResult(item, Checklist.Completed) in CompleteItemSpec(s, item).inspections
  {
    Checklist.UpsertContents(s.inspections, item, Checklist.Completed, Checklist.CheckResult(item, Checklist.Completed));
  }

  /** The last chosen option wins and is recorded once. */
  lemma LastChoiceWins(s: ItemState, item: string, a: string, b: string)
    ensures ChooseOptionSpec(ChooseOptionSpec(s, item, a), item, b) == ChooseOptionSpec(s, item, b)
  {
    Checklist.UpsertTwice(s.inspections, item, a, b);
  }

  // ---------------------------------------------------------------------
  // Submission

  const MsgNoInspector: string := "점검자 이름을 입력해주세요."
  const MsgNoLocation: string := "설치위치를 선택해주세요."
  const MsgNoEquipment: string := "장비를 선택해주세요."
  const MsgNoInspections: string := "점검 내용을 선택해주세요."

  /** The record handed to the connector (the clock fields are left out). */
  datatype LegacyRecord = LegacyRecord(team: string, inspectionType: string, equipment: string, location: string,
                                       inspector: string, inspections: string, notes: string)

  datatype SubmitOutcome = Rejected(message: string) | Submitted(record: LegacyRecord)

  /** What submitInspection does once the step data is saved: the first
      failing check rejects with its message; otherwise the record is
      built. "" stands for a missing type, inspector or location. */
  function SubmitSpec(inspectionType: string, equipment: Option<LegacyEquipment>, inspector: string, location: string,
                      inspections: seq<Checklist.CheckResult>, notes: string): SubmitOutcome
  {
    if inspector == "" then Rejected(MsgNoInspector)
    else if location == "" then Rejected(MsgNoLocation)
    else if equipment.None? then Rejected(MsgNoEquipment)
    else if |inspections| == 0 then Rejected(MsgNoInspections)
    else Submitted(LegacyRecord(inspectionType, inspectionType, equipment.value.name, location, inspector,
                                Checklist.CheckContentOf(inspections), notes))
  }

  /** The checks run in the order inspector, location, equipment,
      inspections: each message is given exactly when its check is the
      first to fail, and the record is built exactly when all pass. */
  lemma SubmitValidationOrder(inspectionType: string, equipment: Option<LegacyEquipment>, inspector: string,
                              location: string, inspections: seq<Checklist.CheckResult>, notes: string)
    ensures var o := SubmitSpec(inspectionType, equipment, inspector, location, inspections, notes);
            && (o == Rejected(MsgNoInspector) <==> inspector == "")
            && (o == Rejected(MsgNoLocation) <==> inspector != "" && location == "")
            && (o == Rejected(MsgNoEquipment) <==> inspector != "" && location != "" && equipment.None?)
            && (o == Rejected(MsgNoInspections) <==>
                  inspector != "" && location != "" && equipment.Some? && |inspections| == 0)
            && (o.Submitted? <==> inspector != "" && location != "" && equipment.Some? && |inspections| > 0)
  {
  }

  /** The submitted check content names every item with its result, in
      order, when no item or result contains a separator. */
  lemma SubmittedContentReadsBack(inspectionType: string, equipment: Option<LegacyEquipment>, inspector: string,
                                  location: string, inspections: seq<Checklist.CheckResult>, notes: string)
    requires SubmitSpec(inspectionType, equipment, inspector, location, inspections, notes).Submitted?
    requires forall k :: 0 <= k < |inspections| ==>
               Sheets.Separable(inspections[k].item) && Sheets.Separable(inspections[k].result)
    ensures var content := SubmitSpec(inspectionType, equipment, inspector, location, inspections, notes).record.inspections;
            var pieces := SplitOn(content, Sheets.ListSep);
            |pieces| == |inspections| &&
            forall k :: 0 <= k < |inspections| ==> SplitOn(pieces[k], Sheets.PairSep) == [inspections[k].item, inspections[k].result]
  {
    Checklist.CheckContentReadsBack(inspections);
  }

  /** The application object. "" stands for a null type or step. */
  class EGChemApp {
    var currentInspectionType: string
    var currentEquipment: Option<LegacyEquipment>
    var currentStep: string
    var inspector: string
    var location: string
    var notes: string
    var inspections: seq<Checklist.CheckResult>
    var completedItems: set<string>

    predicate Valid()
      reads this
    {
      ItemStateValid(ItemState(completedItems, inspections))
    }

    constructor()
      ensures Valid()
      ensures currentInspectionType == "" && currentEquipment.None? && currentStep == ""
      ensures inspector == "" && location == "" && notes == "" && inspections == [] && completedItems == {}
    {
      currentInspectionType := "";
      currentEquipment := None;
      currentStep := "";
      inspector := "";
      location := "";
      notes := "";
      inspections := [];
      completedItems := {};
    }

    /** selectInspectionType. */
    method SelectInspectionType(t: string)
      modifies this
      ensures currentInspectionType == t
      ensures currentEquipment == old(currentEquipment) && currentStep == old(currentStep)
      ensures inspector == old(inspector) && location == old(location) && notes == old(notes)
      ensures inspections == old(inspections) && completedItems == old(completedItems)
    {
      currentInspectionType := t;
    }

    /** selectEquipment: remember the equipment and open the first step. */
    method SelectEquipment(e: LegacyEquipment)
      modifies this
      ensures currentEquipment == Some(e) && currentStep == "inspector"
      ensures currentInspectionType == old(currentInspectionType)
      ensures inspector == old(inspector) && location == old(location) && notes == old(notes)
      ensures inspections == old(inspections) && completedItems == old(completedItems)
    {
      currentEquipment := Some(e);
      currentStep := "inspector";
    }

    /** selectLocation. */
    method SelectLocation(loc: string)
      modifies this
      ensures location == loc
      ensures currentInspectionType == old(currentInspectionType) && currentEquipment == old(currentEquipment)
      ensures currentStep == old(currentStep) && inspector == old(inspector) && notes == old(notes)
      ensures inspections == old(inspections) && completedItems == old(completedItems)
    {
      location := loc;
    }

    /** saveCurrentStepData: on the inspector step keep the trimmed name
        typed in, on the notes step the trimmed notes; other steps save
        nothing. */
    method SaveCurrentStepData(inspectorInput: string, notesInput: string)
      modifies this
      ensures inspector == (if old(currentStep) == "inspector" then Trim(inspectorInput) else old(inspector))
      ensures notes == (if old(currentStep) == "notes" then Trim(notesInput) else old(notes))
      ensures currentInspectionType == old(currentInspectionType) && currentEquipment == old(currentEquipment)
      ensures currentStep == old(currentStep) && location == old(location)
      ensures inspections == old(inspections) && completedItems == old(completedItems)
    {
      if currentStep == "inspector" {
        inspector := Trim(inspectorInput);
      } else if currentStep == "notes" {
        notes := Trim(notesInput);
      }
    }

    /** The click handler of a checklist row in loadInspectionItems. */
    method CompleteItem(item: string)
      requires Valid()
      modifies this
      ensures Valid()
      ensures ItemState(completedItems, inspections) == CompleteItemSpec(ItemState(old(completedItems), old(inspections)), item)
      ensures currentInspectionType == old(currentInspectionType) && currentEquipment == old(currentEquipment)
      ensures currentStep == old(currentStep) && inspector == old(inspector)
      ensures location == old(location) && notes == old(notes)
    {
      ClicksPreserveValid(ItemState(completedItems, inspections), item, Checklist.Completed);
      if item in completedItems {
        return;
      }
      completedItems := completedItems + {item};
      var i := FindFirst(inspections, Checklist.ItemIs(item));
      if i >= 0 {
        inspections := inspections[i := inspections[i].(result := Checklist.Completed)];
      } else {
        inspections := inspections + [Checklist.CheckResult(item, Checklist.Completed)];
      }
    }

    /** The click handler of an option button in showInspectionForm. */
    method ChooseOption(item: string, result: string)
      requires Valid()
      modifies this
      ensures Valid()
      ensures ItemState(completedItems, inspections) == ChooseOptionSpec(ItemState(old(completedItems), old(inspections)), item, result)
      ensures currentInspectionType == old(currentInspectionType) && currentEquipment == old(currentEquipment)
      ensures currentStep == old(currentStep) && inspector == old(inspector)
      ensures location == old(location) && notes == old(notes)
    {
      ClicksPreserveValid(ItemState(completedItems, inspections), item, result);
      var i := FindFirst(inspections, Checklist.ItemIs(item));
      if i >= 0 {
        inspections := inspections[i := inspections[i].(result := result)];
      } else {
        inspections := inspections + [Checklist.CheckResult(item, result)];
      }
    }

    /** submitInspection: save the current step, then validate and build
        the record. The connector call and its alerts are not modelled. */
    method SubmitInspection(inspectorInput: string, notesInput: string) returns (outcome: SubmitOutcome)
      modifies this
      ensures inspector == (if old(currentStep) == "inspector" then Trim(inspectorInput) else old(inspector))
      ensures notes == (if old(currentStep) == "notes" then Trim(notesInput) else old(notes))
      ensures outcome == SubmitSpec(currentInspectionType, currentEquipment, inspector, location, inspections, notes)
      ensures currentInspectionType == old(currentInspectionType) && currentEquipment == old(currentEquipment)
      ensures currentStep == old(currentStep) && location == old(location)
      ensures inspections == old(inspections) && completedItems == old(completedItems)
    {
      SaveCurrentStepData(inspectorInput, notesInput);
      if inspector == "" {
        return Rejected(MsgNoInspector);
      }
      if location == "" {
        return Rejected(MsgNoLocation);
      }
      if currentEquipment.None? {
        return Rejected(MsgNoEquipment);
      }
      if |inspections| == 0 {
        return Rejected(MsgNoInspections);
      }
      var content := Checklist.CheckContentOf(inspections);
      outcome := Submitted(LegacyRecord(currentInspectionType, currentInspectionType, currentEquipment.value.name,
                                        location, inspector, content, notes));
    }
  }
}
