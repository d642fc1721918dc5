/** The result list of an inspection being filled in: one `{item, result}`
    entry per checked item. Both front ends keep it with the same moves, an
    upsert by item name (find, then overwrite the result or push) and a
    removal by item name (findIndex, then splice); js/app.js also keeps
    one free-text entry whose item starts with "기타: ". */
module Checklist {
  import opened Seqs
  import Sheets

  /** The result recorded when an item is ticked. */
  const Completed: string := "점검완료"

  /** The prefix of the free-text ("other") entry. */
  const OtherPrefix: string := "기타: "

  datatype CheckResult = CheckResult(item: string, result: string)

  function ItemIs(item: string): CheckResult -> bool
  {
    (r: CheckResult) => r.item == item
  }

  /** No item name occurs twice. */
  predicate UniqueItems(rs: seq<CheckResult>)
  {
    forall i, j :: 0 <= i < j < |rs| ==> rs[i].item != rs[j].item
  }

  predicate HasItem(rs: seq<CheckResult>, item: string)
  {
    exists k :: 0 <= k < |rs| && rs[k].item == item
  }

  /** Record `result` for `item`: overwrite the first entry for the item in
      place, or push a new entry. */
  function Upsert(rs: seq<CheckResult>, item: string, result: string): (r: seq<CheckResult>)
    ensures HasItem(rs, item) ==> |r| == |rs|
    ensures HasItem(rs, item) ==>
              exists k :: 0 <= k < |rs| && rs[k].item == item && (forall j :: 0 <= j < k ==> rs[j].item != item)
                          && r == rs[k := CheckResult(item, result)]
    ensures !HasItem(rs, item) ==> r == rs + [CheckResult(item, result)]
  {
    var i := FindFirst(rs, ItemIs(item));
    if i < 0 then rs + [CheckResult(item, result)] else rs[i := rs[i].(result := result)]
  }

  /** Remove the first entry for `item`, if any. */
  function RemoveItem(rs: seq<CheckResult>, item: string): (r: seq<CheckResult>)
    ensures !HasItem(rs, item) ==> r == rs
    ensures HasItem(rs, item) ==> |r| == |rs| - 1
    ensures HasItem(rs, item) ==>
              exists k :: 0 <= k < |rs| && rs[k].item == item && (forall j :: 0 <= j < k ==> rs[j].item != item)
                          && r == RemoveAt(rs, k)
  {
    var i := FindFirst(rs, ItemIs(item));
    if i < 0 then rs
    else
      assert rs[i].item == item;
      assert forall j :: 0 <= j < i ==> rs[j].item != item by {
        forall j | 0 <= j < i ensures rs[j].item != item {
          assert !ItemIs(item)(rs[j]);
        }
      }
      RemoveAt(rs, i)
  }

  /** After an upsert the item holds exactly the new result, every other
      item keeps its entry, and item names stay unique. */
  lemma UpsertContents(rs: seq<CheckResult>, item: string, result: string, c: CheckResult)
    requires UniqueItems(rs)
    ensures UniqueItems(Upsert(rs, item, result))
    ensures c in Upsert(rs, item, result) <==> c == CheckResult(item, result) || (c in rs && c.item != item)
  {
    var i := FindFirst(rs, ItemIs(item));
    var r := Upsert(rs, item, result);
    if i >= 0 {
      assert r[i] == CheckResult(item, result);
      if c in rs && c.item != item {
        var k :| 0 <= k < |rs| && rs[k] == c;
        assert r[k] == c;
      }
      if c in r && c != CheckResult(item, result) {
        var k :| 0 <= k < |r| && r[k] == c;
        assert k != i;
      }
    }
  }

  /** After a removal no entry for the item is left (item names being
      unique) and every other entry is kept, in order. */
  lemma RemoveItemContents(rs: seq<CheckResult>, item: string, c: CheckResult)
    requires UniqueItems(rs)
    ensures UniqueItems(RemoveItem(rs, item))
    ensures c in RemoveItem(rs, item) <==> c in rs && c.item != item
  {
    var i := FindFirst(rs, ItemIs(item));
    if i >= 0 {
      var r := RemoveAt(rs, i);
      forall a, b | 0 <= a < b < |r| ensures r[a].item != r[b].item {
        var a' := if a < i then a else a + 1;
        var b' := if b < i then b else b + 1;
        assert r[a] == rs[a'] && r[b] == rs[b'];
      }
      if c in rs && c.item != item {
        var k :| 0 <= k < |rs| && rs[k] == c;
        assert k != i;
        assert r[if k < i then k else k - 1] == c;
      }
      if c in r {
        var k :| 0 <= k < |r| && r[k] == c;
        var k' := if k < i then k else k + 1;
        assert rs[k'] == c && k' != i;
      }
    }
  }

  /** The last chosen result wins: a second upsert of the same item
      overrides the first and adds nothing. */
  lemma UpsertTwice(rs: seq<CheckResult>, item: string, a: string, b: string)
    ensures Upsert(Upsert(rs, item, a), item, b) == Upsert(rs, item, b)
  {
    var i := FindFirst(rs, ItemIs(item));
    var once := Upsert(rs, item, a);
    if i < 0 {
      assert once[|rs|].item == item;
      assert FindFirst(once, ItemIs(item)) == |rs|;
    } else {
      FindFirstAt(once, ItemIs(item), i);
    }
  }

  /** Ticking a new item and unticking it again restores the list. */
  lemma UpsertThenRemove(rs: seq<CheckResult>, item: string, result: string)
    requires !HasItem(rs, item)
    ensures RemoveItem(Upsert(rs, item, result), item) == rs
  {
    var once := rs + [CheckResult(item, result)];
    assert once[|rs|].item == item;
    assert FindFirst(once, ItemIs(item)) == |rs|;
    assert once[..|rs|] == rs;
  }

  // ---------------------------------------------------------------------
  // The free-text ("other") entry

  predicate IsOther(r: CheckResult)
  {
    StartsWith(r.item, OtherPrefix)
  }

  /** The number of entries whose item starts with the other prefix. */
  function OtherCount(rs: seq<CheckResult>): nat
  {
    |Filter(rs, IsOther)|
  }

  /** confirmOtherItem: blank input is rejected (None). Otherwise the first
      other entry is rewritten to "기타: <input>" ticked, or one is pushed. */
  function ConfirmOther(rs: seq<CheckResult>, input: string): (r: Option<seq<CheckResult>>)
    ensures r.None? <==> Trim(input) == ""
    ensures r.Some? ==> CheckResult(OtherPrefix + Trim(input), Completed) in r.value
    ensures r.Some? && (forall k :: 0 <= k < |rs| ==> !IsOther(rs[k])) ==>
              r.value == rs + [CheckResult(OtherPrefix + Trim(input), Completed)]
    ensures r.Some? && (exists k :: 0 <= k < |rs| && IsOther(rs[k])) ==>
              exists k :: 0 <= k < |rs| && IsOther(rs[k]) && (forall j :: 0 <= j < k ==> !IsOther(rs[j]))
                          && r.value == rs[k := CheckResult(OtherPrefix + Trim(input), Completed)]
  {
    var custom := Trim(input);
    if custom == "" then None
    else
      var entry := CheckResult(OtherPrefix + custom, Completed);
      var i := FindFirst(rs, IsOther);
      if i < 0 then
        assert (rs + [entry])[|rs|] == entry;
        Some(rs + [entry])
      else
        assert rs[i := entry][i] == entry;
        Some(rs[i := entry])
  }

  /** Deselecting the other entry removes the first one, if any. */
  function DeselectOther(rs: seq<CheckResult>): seq<CheckResult>
  {
    var i := FindFirst(rs, IsOther);
    if i < 0 then rs else RemoveAt(rs, i)
  }

  /** Blank input means whitespace only. */
  lemma ConfirmOtherRejectsBlank(rs: seq<CheckResult>, input: string)
    ensures ConfirmOther(rs, input).None? <==> forall k :: 0 <= k < |input| ==> IsJsSpace(input[k])
  {
    TrimEmptyIffBlank(input);
  }

  lemma OtherEntryIsOther(custom: string)
    ensures IsOther(CheckResult(OtherPrefix + custom, Completed))
  {
    assert (OtherPrefix + custom)[..|OtherPrefix|] == OtherPrefix;
  }

  /** A confirmed other entry leaves exactly one other entry when there was
      at most one before. */
  lemma ConfirmOtherKeepsOne(rs: seq<CheckResult>, input: string)
    requires OtherCount(rs) <= 1
    requires ConfirmOther(rs, input).Some?
    ensures OtherCount(ConfirmOther(rs, input).value) == 1
  {
    var custom := Trim(input);
    var entry := CheckResult(OtherPrefix + custom, Completed);
    OtherEntryIsOther(custom);
    var i := FindFirst(rs, IsOther);
    if i < 0 {
      FilterAppend(rs, [entry], IsOther);
      FilterNone(rs, IsOther);
    } else {
      FilterCountUpdate(rs, i, entry, IsOther);
      assert rs[i] in Filter(rs, IsOther);
    }
  }

  /** Deselecting the other entry leaves none when there was at most one. */
  lemma DeselectOtherLeavesNone(rs: seq<CheckResult>)
    requires OtherCount(rs) <= 1
    ensures OtherCount(DeselectOther(rs)) == 0
  {
    var i := FindFirst(rs, IsOther);
    if i >= 0 {
      FilterCountRemoveAt(rs, i, IsOther);
      assert rs[i] in Filter(rs, IsOther);
    } else {
      FilterNone(rs, IsOther);
    }
  }

  /** Ticking or unticking an ordinary item (one whose name does not start
      with the prefix) never adds an other entry. */
  lemma OrdinaryTogglesKeepOtherCount(rs: seq<CheckResult>, item: string, result: string)
    requires !StartsWith(item, OtherPrefix)
    ensures OtherCount(Upsert(rs, item, result)) == OtherCount(rs)
    ensures OtherCount(RemoveItem(rs, item)) == OtherCount(rs)
  {
    var i := FindFirst(rs, ItemIs(item));
    if i < 0 {
      FilterAppend(rs, [CheckResult(item, result)], IsOther);
    } else {
      FilterCountUpdate(rs, i, rs[i].(result := result), IsOther);
      FilterCountRemoveAt(rs, i, IsOther);
    }
  }

  // ---------------------------------------------------------------------
  // The submitted check content

  /** The results as the `{item, result}` objects handed to the connector. */
  function AsCheckEntries(rs: seq<CheckResult>): (es: seq<Sheets.CheckEntry>)
    ensures |es| == |rs|
    ensures forall k :: 0 <= k < |rs| ==> es[k] == Sheets.Pair(rs[k].item, rs[k].result)
  {
    seq(|rs|, k requires 0 <= k < |rs| => Sheets.Pair(rs[k].item, rs[k].result))
  }

  /** The check-content text: "item: result" per entry, joined by ", ". */
  function CheckContentOf(rs: seq<CheckResult>): string
  {
    Sheets.CheckContent(Sheets.List(AsCheckEntries(rs)))
  }

  /** The check content names every item with its result, in order: split
      at ", " and then at ": " it gives back the list, when no item or
      result contains a separator. */
  lemma CheckContentReadsBack(rs: seq<CheckResult>)
    requires |rs| >= 1
    requires forall k :: 0 <= k < |rs| ==> Sheets.Separable(rs[k].item) && Sheets.Separable(rs[k].result)
    ensures var pieces := SplitOn(CheckContentOf(rs), Sheets.ListSep);
            |pieces| == |rs| &&
            forall k :: 0 <= k < |rs| ==> SplitOn(pieces[k], Sheets.PairSep) == [rs[k].item, rs[k].result]
  {
    Sheets.CheckContentRoundTrip(AsCheckEntries(rs));
  }
}
