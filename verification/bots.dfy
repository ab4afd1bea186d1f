/**
 * The local bot registry: the list `bots_list.all` of bot objects, each
 * built from a decoded bot record by laying its fields over a set of
 * defaults. Bots are found, removed and replaced by their 'number'
 * attribute, compared with Python's `==`.
 */
module Bots {
  import opened Common
  import opened Values

  /** The attributes every bot object starts with, before the record's fields are laid over them. */
  const Defaults: Record := map[
    "number" := JStr(""),
    "name" := JStr(""),
    "broker_connection" := JObj(map[]),
    "is_paper" := JBool(false),
    "status" := JStr(""),
    "can_enable" := JBool(true),
    "can_disable" := JBool(true),
    "symbol" := JStr(""),
    "type" := JStr(""),
    "notes" := JStr(""),
    "last_active_at" := JStr(""),
    "disabled_at" := JStr(""),
    "entry_condition" := JObj(map[]),
    "exit_condition" := JObj(map[]),
    "adjustments" := JArr([]),
    "notifications" := JArr([]),
    "variables" := JArr([])]

  /** A bot object: its attributes, which always include every default one. */
  type Bot = attrs: Record | Defaults.Keys <= attrs.Keys witness Defaults

  /** `bot_obj(bot_dict)`: the defaults, overridden by every field of the record. */
  function MakeBot(d: Record): (b: Bot)
    ensures b.Keys == Defaults.Keys + d.Keys
    ensures forall k :: k in d ==> b[k] == d[k]
    ensures forall k :: k in Defaults && k !in d ==> b[k] == Defaults[k]
  {
    Defaults + d
  }

  function Number(b: Bot): Json {
    assert "number" in Defaults;
    b["number"]
  }

  function Status(b: Bot): Json {
    assert "status" in Defaults;
    b["status"]
  }

  function Variables(b: Bot): Json {
    assert "variables" in Defaults;
    b["variables"]
  }

  function EntryCondition(b: Bot): Json {
    assert "entry_condition" in Defaults;
    b["entry_condition"]
  }

  predicate HasNumber(b: Bot, n: Json) {
    PyEq(Number(b), n)
  }

  /** No two bots of the list have equal numbers. */
  predicate Distinct(bots: seq<Bot>) {
    forall i, j :: 0 <= i < j < |bots| ==> !PyEq(Number(bots[i]), Number(bots[j]))
  }

  /** The index of the first bot numbered `n`, or `|bots|` when there is none. */
  function FirstWith(bots: seq<Bot>, n: Json): (i: nat)
    ensures i <= |bots|
    ensures i < |bots| ==> HasNumber(bots[i], n)
    ensures forall j :: 0 <= j < i ==> !HasNumber(bots[j], n)
  {
    if bots == [] then 0
    else if HasNumber(bots[0], n) then 0
    else 1 + FirstWith(bots[1..], n)
  }

  // ------------------------------------------------------------- lookup

  datatype Lookup = Found(bot: Bot) | NotFound(warning: string)

  /** `bots(bot_number)`: the first bot with that number, or a warning and `None`. */
  function Find(bots: seq<Bot>, botNumber: string): (r: Lookup)
    ensures r.Found? <==> exists i :: 0 <= i < |bots| && HasNumber(bots[i], JStr(botNumber))
    ensures r.Found? ==> exists i :: 0 <= i < |bots| && r.bot == bots[i] && HasNumber(bots[i], JStr(botNumber))
                                     && forall j :: 0 <= j < i ==> !HasNumber(bots[j], JStr(botNumber))
    ensures r.NotFound? ==> r.warning == "Bot Number: " + botNumber + " not found!"
  {
    var i := FirstWith(bots, JStr(botNumber));
    if i < |bots| then Found(bots[i]) else NotFound("Bot Number: " + botNumber + " not found!")
  }

  // ---------------------------------------------------- add and remove

  /** `remove_bot_from_list(n)`: delete the first bot numbered `n`, if any. */
  function Remove(bots: seq<Bot>, n: Json): (r: seq<Bot>)
    ensures FirstWith(bots, n) == |bots| ==> r == bots
    ensures FirstWith(bots, n) < |bots| ==>
      r == bots[..FirstWith(bots, n)] + bots[FirstWith(bots, n) + 1..]
  {
    if bots == [] then []
    else if HasNumber(bots[0], n) then bots[1..]
    else
      var rest := Remove(bots[1..], n);
      assert FirstWith(bots, n) == 1 + FirstWith(bots[1..], n);
      if FirstWith(bots[1..], n) < |bots[1..]| then
        DeletedBehindHead(bots, FirstWith(bots[1..], n));
        [bots[0]] + rest
      else
        [bots[0]] + rest
  }

  datatype Added =
    | Appended(bots: seq<Bot>)   // the record replaced any bot with its number, at the end
    | EmptyRecord                // `{}`: warned about, the list is unchanged
    | MissingNumber              // `bot_json['number']` raised KeyError, the list is unchanged

  /** `add_bot_to_list(bot_dict)`. */
  function Add(bots: seq<Bot>, d: Record): (r: Added)
    ensures r.EmptyRecord? <==> d == map[]
    ensures r.MissingNumber? <==> d != map[] && "number" !in d
    ensures r.Appended? ==>
      && |r.bots| >= 1
      && r.bots[|r.bots| - 1] == MakeBot(d)
      && r.bots[..|r.bots| - 1] == Remove(bots, d["number"])
  {
    if d == map[] then EmptyRecord
    else if "number" !in d then MissingNumber
    else Appended(Remove(bots, d["number"]) + [MakeBot(d)])
  }

  /** The result of rebuilding the list: the bots, and whether a record without a number stopped it. */
  datatype Rebuilt = Rebuilt(bots: seq<Bot>, failed: bool)

  /** The comprehension of `update_all_bots`, continuing from the list `acc`. */
  function AddAll(acc: seq<Bot>, records: seq<Record>): (r: Rebuilt)
    decreases |records|
  {
    if records == [] then Rebuilt(acc, false)
    else
      match Add(acc, records[0])
      case EmptyRecord => AddAll(acc, records[1..])
      case MissingNumber => Rebuilt(acc, true)
      case Appended(next) => AddAll(next, records[1..])
  }

  /** `update_all_bots`: clear the list, then add every fetched record in order. */
  function UpdateAllBots(fetched: seq<Record>): (r: Rebuilt)
    ensures Distinct(r.bots)
    ensures !r.failed <==> forall i :: 0 <= i < |fetched| ==> fetched[i] == map[] || "number" in fetched[i]
    ensures !r.failed ==> forall b :: b in r.bots <==> BuiltFromLast(fetched, b)
  {
    AddAllDistinct([], fetched);
    AddAllFails([], fetched);
    AddAllContents([], fetched);
    AddAll([], fetched)
  }

  /** Record `i` carries a number that no later record repeats. */
  predicate LastOfItsNumber(records: seq<Record>, i: int)
    requires 0 <= i < |records|
  {
    && "number" in records[i]
    && forall j :: i < j < |records| && "number" in records[j] ==> !PyEq(records[j]["number"], records[i]["number"])
  }

  // ------------------------------------------------- status filters

  datatype Filtered = Filtered(bots: seq<Bot>) | StatusNotText   // `.lower()` on a non-string raised

  /** `[bot for bot in bots if bot.status.lower() == literal]`. */
  function StatusFilter(bots: seq<Bot>, literal: string): (r: Filtered)
    ensures r.Filtered? <==> forall i :: 0 <= i < |bots| ==> Status(bots[i]).JStr?
    ensures r.Filtered? ==> forall b :: b in r.bots <==> b in bots && Lower(Status(b).s) == literal
    ensures r.Filtered? ==> |r.bots| <= |bots|
  {
    if bots == [] then Filtered([])
    else if !Status(bots[0]).JStr? then StatusNotText
    else
      match StatusFilter(bots[1..], literal)
      case StatusNotText => StatusNotText
      case Filtered(rest) =>
        if Lower(Status(bots[0]).s) == literal then Filtered([bots[0]] + rest) else Filtered(rest)
  }

  function IsEnabled(bots: seq<Bot>): (r: Filtered)
    ensures r.Filtered? <==> forall i :: 0 <= i < |bots| ==> Status(bots[i]).JStr?
    ensures r.Filtered? ==> forall b :: b in r.bots <==> b in bots && Lower(Status(b).s) == "enabled"
  {
    StatusFilter(bots, "enabled")
  }

  function IsDisabled(bots: seq<Bot>): (r: Filtered)
    ensures r.Filtered? <==> forall i :: 0 <= i < |bots| ==> Status(bots[i]).JStr?
    ensures r.Filtered? ==> forall b :: b in r.bots <==> b in bots && Lower(Status(b).s) == "disabled"
  {
    StatusFilter(bots, "disabled")
  }

  function IsDisabledOnClose(bots: seq<Bot>): (r: Filtered)
    ensures r.Filtered? <==> forall i :: 0 <= i < |bots| ==> Status(bots[i]).JStr?
    ensures r.Filtered? ==> forall b :: b in r.bots <==> b in bots && Lower(Status(b).s) == "disabled on close"
  {
    StatusFilter(bots, "disabled on close")
  }

  // ------------------------------------------------------- variables

  /** A variable list the loops of this module can walk: a list of dicts that all have a 'number'. */
  predicate VariableList(j: Json) {
    j.JArr? && forall k :: 0 <= k < |j.items| ==> j.items[k].JObj? && "number" in j.items[k].fields
  }

  function VarNumber(v: Json): Json
    requires v.JObj? && "number" in v.fields
  {
    v.fields["number"]
  }

  /** Every entry numbered like `v` becomes `v`. */
  function ReplaceEntries(entries: seq<Json>, v: Record): (r: seq<Json>)
    requires "number" in v
    requires forall k :: 0 <= k < |entries| ==> entries[k].JObj? && "number" in entries[k].fields
    ensures |r| == |entries|
    ensures forall k :: 0 <= k < |entries| ==>
      r[k] == (if PyEq(VarNumber(entries[k]), v["number"]) then JObj(v) else entries[k])
  {
    if entries == [] then []
    else [if PyEq(VarNumber(entries[0]), v["number"]) then JObj(v) else entries[0]] + ReplaceEntries(entries[1..], v)
  }

  predicate AllVariableLists(bots: seq<Bot>) {
    forall i :: 0 <= i < |bots| ==> VariableList(Variables(bots[i]))
  }

  /** One fetched variable merged into one bot's variable list; every other field is kept. */
  function MergeInto(b: Bot, v: Record): (r: Bot)
    requires "number" in v
    requires VariableList(Variables(b))
    ensures VariableList(Variables(r))
    ensures r.Keys == b.Keys
    ensures forall k :: k in b && k != "variables" ==> r[k] == b[k]
    ensures Variables(r) == JArr(ReplaceEntries(Variables(b).items, v))
  {
    b["variables" := JArr(ReplaceEntries(Variables(b).items, v))]
  }

  /** One fetched variable merged into every bot. */
  function MergeVariable(bots: seq<Bot>, v: Record): (r: seq<Bot>)
    requires "number" in v
    requires AllVariableLists(bots)
    ensures |r| == |bots|
    ensures forall i :: 0 <= i < |bots| ==> r[i] == MergeInto(bots[i], v)
    ensures AllVariableLists(r)
  {
    if bots == [] then []
    else [MergeInto(bots[0], v)] + MergeVariable(bots[1..], v)
  }

  /** The fetched variables merged in the order they were fetched. */
  function MergeAll(bots: seq<Bot>, fetched: seq<Record>): (r: seq<Bot>)
    requires forall j :: 0 <= j < |fetched| ==> "number" in fetched[j]
    requires AllVariableLists(bots)
    ensures |r| == |bots|
    ensures AllVariableLists(r)
    ensures forall i :: 0 <= i < |bots| ==> r[i].Keys == bots[i].Keys
    ensures forall i, k :: 0 <= i < |bots| && k in bots[i] && k != "variables" ==> r[i][k] == bots[i][k]
    ensures forall i :: 0 <= i < |bots| ==> |Variables(r[i]).items| == |Variables(bots[i]).items|
    decreases |fetched|
  {
    if fetched == [] then bots else MergeAll(MergeVariable(bots, fetched[0]), fetched[1..])
  }

  /** `get_all_bot_variables`: the bots after the merge, and the fetched list, returned as it came. */
  function GetAllBotVariables(bots: seq<Bot>, fetched: seq<Record>): (r: (seq<Bot>, seq<Record>))
    requires forall j :: 0 <= j < |fetched| ==> "number" in fetched[j]
    requires AllVariableLists(bots)
    ensures r.1 == fetched
    ensures |r.0| == |bots|
    ensures AllVariableLists(r.0)
    ensures forall i :: 0 <= i < |bots| ==> r.0[i].Keys == bots[i].Keys
    ensures forall i, k :: 0 <= i < |bots| && k in bots[i] && k != "variables" ==> r.0[i][k] == bots[i][k]
    ensures forall i :: 0 <= i < |bots| ==> |Variables(r.0[i]).items| == |Variables(bots[i]).items|
    ensures forall i, k :: 0 <= i < |bots| && 0 <= k < |Variables(bots[i]).items| ==>
      Variables(r.0[i]).items[k] == Merged(Variables(bots[i]).items[k], fetched)
  {
    MergeAllSpec(bots, fetched);
    (MergeAll(bots, fetched), fetched)
  }

  /** The entry after the merge: the last fetched variable with its number, or itself. */
  function Merged(entry: Json, fetched: seq<Record>): Json
    requires entry.JObj? && "number" in entry.fields
    requires forall j :: 0 <= j < |fetched| ==> "number" in fetched[j]
  {
    var j := LastMatch(fetched, VarNumber(entry));
    if j < 0 then entry else JObj(fetched[j])
  }

  /** The index of the last fetched variable numbered `n`, or -1. */
  function LastMatch(fetched: seq<Record>, n: Json): (j: int)
    requires forall j :: 0 <= j < |fetched| ==> "number" in fetched[j]
    ensures -1 <= j < |fetched|
    ensures j >= 0 ==> PyEq(fetched[j]["number"], n)
    ensures forall k :: j < k < |fetched| ==> !PyEq(fetched[k]["number"], n)
    decreases |fetched|
  {
    if fetched == [] then -1
    else
      var later := LastMatch(fetched[1..], n);
      if later >= 0 then later + 1
      else if PyEq(fetched[0]["number"], n) then 0
      else -1
  }

  // ------------------------------------------------ set_bot_variables

  datatype VariableUpdate =
    | Requested(variableNumber: string, name: string, value: string)   // the endpoint is called once
    | MissingArgument                                                   // warned: an argument is ''
    | UnknownVariable                                                   // warned: no such variable number

  /** `bot_obj.set_bot_variables`: the endpoint is called only for a known variable and three non-empty arguments. */
  function SetVariable(b: Bot, variableNumber: string, name: string, value: string): (r: VariableUpdate)
    requires VariableList(Variables(b))
    ensures r.Requested? <==>
      && variableNumber != "" && name != "" && value != ""
      && exists k :: 0 <= k < |Variables(b).items| && PyEq(VarNumber(Variables(b).items[k]), JStr(variableNumber))
    ensures r.Requested? ==> r == Requested(variableNumber, name, value)
    ensures r.MissingArgument? <==> variableNumber == "" || name == "" || value == ""
  {
    if variableNumber == "" || name == "" || value == "" then MissingArgument
    else if KnownVariable(Variables(b).items, variableNumber) then Requested(variableNumber, name, value)
    else UnknownVariable
  }

  /** The loop over `self.variables`, which stops at the first entry with the number. */
  function KnownVariable(entries: seq<Json>, variableNumber: string): (found: bool)
    requires forall k :: 0 <= k < |entries| ==> entries[k].JObj? && "number" in entries[k].fields
    ensures found <==> exists k :: 0 <= k < |entries| && PyEq(VarNumber(entries[k]), JStr(variableNumber))
  {
    if entries == [] then false
    else if PyEq(VarNumber(entries[0]), JStr(variableNumber)) then true
    else KnownVariable(entries[1..], variableNumber)
  }

  // ------------------------------------------------------------ proofs

  /** No record of the list carries a number equal to `n`. */
  predicate NoRecordNumbered(records: seq<Record>, n: Json) {
    forall j :: 0 <= j < |records| && "number" in records[j] ==> !PyEq(records[j]["number"], n)
  }

  lemma RemoveFacts(bots: seq<Bot>, n: Json)
    ensures forall b :: b in Remove(bots, n) ==> b in bots
    ensures forall b :: b in bots && !HasNumber(b, n) ==> b in Remove(bots, n)
    ensures Distinct(bots) ==> Distinct(Remove(bots, n))
    ensures Distinct(bots) ==> forall b :: b in Remove(bots, n) ==> !HasNumber(b, n)
  {
    var i := FirstWith(bots, n);
    if i < |bots| {
      RemoveSubset(bots, n, i);
      RemoveKeeps(bots, n, i);
      if Distinct(bots) {
        RemoveDistinct(bots, n, i);
        RemoveClears(bots, n, i);
      }
    }
  }

  lemma RemoveSubset(bots: seq<Bot>, n: Json, i: nat)
    requires i == FirstWith(bots, n) < |bots|
    ensures forall b :: b in Remove(bots, n) ==> b in bots
  {
    DeletedMembers(bots, i);
  }

  lemma RemoveKeeps(bots: seq<Bot>, n: Json, i: nat)
    requires i == FirstWith(bots, n) < |bots|
    ensures forall b :: b in bots && !HasNumber(b, n) ==> b in Remove(bots, n)
  {
    DeletedMembers(bots, i);
  }

  lemma RemoveDistinct(bots: seq<Bot>, n: Json, i: nat)
    requires i == FirstWith(bots, n) < |bots|
    requires Distinct(bots)
    ensures Distinct(Remove(bots, n))
  {
    var r := Remove(bots, n);
    forall p, q | 0 <= p < q < |r|
      ensures !PyEq(Number(r[p]), Number(r[q]))
    {
      DeletedAt(bots, i, p);
      DeletedAt(bots, i, q);
    }
  }

  lemma RemoveClears(bots: seq<Bot>, n: Json, i: nat)
    requires i == FirstWith(bots, n) < |bots|
    requires Distinct(bots)
    ensures forall b :: b in Remove(bots, n) ==> !HasNumber(b, n)
  {
    var r := Remove(bots, n);
    forall p | 0 <= p < |r|
      ensures !HasNumber(r[p], n)
    {
      DeletedAt(bots, i, p);
    }
  }

  lemma AddKeepsDistinct(bots: seq<Bot>, d: Record)
    requires Distinct(bots)
    ensures Add(bots, d).Appended? ==> Distinct(Add(bots, d).bots)
  {
    if d != map[] && "number" in d {
      var rest := Remove(bots, d["number"]);
      RemoveFacts(bots, d["number"]);
      var r := rest + [MakeBot(d)];
      assert Number(MakeBot(d)) == d["number"];
      forall p, q | 0 <= p < q < |r|
        ensures !PyEq(Number(r[p]), Number(r[q]))
      {
        if q == |r| - 1 {
          assert r[p] in rest;
        }
      }
    }
  }

  lemma {:induction false} AddAllDistinct(acc: seq<Bot>, records: seq<Record>)
    requires Distinct(acc)
    ensures Distinct(AddAll(acc, records).bots)
    decreases |records|
  {
    if records != [] {
      AddKeepsDistinct(acc, records[0]);
      match Add(acc, records[0])
      case EmptyRecord => AddAllDistinct(acc, records[1..]);
      case MissingNumber =>
      case Appended(next) => AddAllDistinct(next, records[1..]);
    }
  }

  lemma {:induction false} AddAllFails(acc: seq<Bot>, records: seq<Record>)
    ensures AddAll(acc, records).failed <==> SomeNumberless(records)
    decreases |records|
  {
    if records != [] {
      SomeNumberlessCons(records);
      match Add(acc, records[0])
      case EmptyRecord => AddAllFails(acc, records[1..]);
      case MissingNumber =>
      case Appended(next) => AddAllFails(next, records[1..]);
    }
  }

  /** Some record is neither empty nor numbered: adding it raises KeyError. */
  predicate SomeNumberless(records: seq<Record>) {
    exists i :: 0 <= i < |records| && records[i] != map[] && "number" !in records[i]
  }

  lemma SomeNumberlessCons(records: seq<Record>)
    requires records != []
    ensures SomeNumberless(records) <==>
      (records[0] != map[] && "number" !in records[0]) || SomeNumberless(records[1..])
  {
    if SomeNumberless(records[1..]) {
      var i :| 0 <= i < |records[1..]| && records[1..][i] != map[] && "number" !in records[1..][i];
      assert records[i + 1] == records[1..][i];
    }
    if SomeNumberless(records) {
      var i :| 0 <= i < |records| && records[i] != map[] && "number" !in records[i];
      if i > 0 { assert records[1..][i - 1] == records[i]; }
    }
  }

  /** Some record of the list is the last with its number and builds `b`. */
  predicate BuiltFromLast(records: seq<Record>, b: Bot) {
    exists i :: 0 <= i < |records| && LastOfItsNumber(records, i) && b == MakeBot(records[i])
  }

  /**
   * What a rebuild that did not fail holds: the bots of `acc` whose number
   * no record repeats, and the bot of every record that is the last with
   * its number.
   */
  lemma {:induction false} AddAllContents(acc: seq<Bot>, records: seq<Record>)
    requires Distinct(acc)
    ensures !AddAll(acc, records).failed ==>
      forall b :: b in AddAll(acc, records).bots <==>
        (b in acc && NoRecordNumbered(records, Number(b))) || BuiltFromLast(records, b)
    decreases |records|
  {
    if records == [] {
      return;
    }
    var d := records[0];
    var rest := records[1..];
    match Add(acc, d)
    case MissingNumber =>
    case EmptyRecord =>
      AddAllContents(acc, rest);
      forall b
        ensures (b in acc && NoRecordNumbered(rest, Number(b))) || BuiltFromLast(rest, b) <==>
          (b in acc && NoRecordNumbered(records, Number(b))) || BuiltFromLast(records, b)
      {
        SkipNumberless(records, Number(b));
        BuiltFromLastShift(records, b);
      }
    case Appended(next) =>
      AddKeepsDistinct(acc, d);
      AddAllContents(next, rest);
      forall b
        ensures (b in next && NoRecordNumbered(rest, Number(b))) || BuiltFromLast(rest, b) <==>
          (b in acc && NoRecordNumbered(records, Number(b))) || BuiltFromLast(records, b)
      {
        AppendedStep(acc, records, b);
        BuiltFromLastShift(records, b);
      }
  }

  /** A record without a number changes nothing about which numbers the list carries. */
  lemma SkipNumberless(records: seq<Record>, n: Json)
    requires records != [] && "number" !in records[0]
    ensures NoRecordNumbered(records, n) <==> NoRecordNumbered(records[1..], n)
  {
    assert forall j :: 0 <= j < |records[1..]| ==> records[1..][j] == records[j + 1];
  }

  /** Building from a last record of the list is building from the first, when it is last, or from one of the tail. */
  lemma BuiltFromLastShift(records: seq<Record>, b: Bot)
    requires records != []
    ensures BuiltFromLast(records, b) <==>
      (LastOfItsNumber(records, 0) && b == MakeBot(records[0])) || BuiltFromLast(records[1..], b)
  {
    var rest := records[1..];
    LastShift(records);
    if BuiltFromLast(records, b) {
      var i :| 0 <= i < |records| && LastOfItsNumber(records, i) && b == MakeBot(records[i]);
      if i > 0 {
        assert rest[i - 1] == records[i];
      }
    }
    if BuiltFromLast(rest, b) {
      var i :| 0 <= i < |rest| && LastOfItsNumber(rest, i) && b == MakeBot(rest[i]);
      assert rest[i] == records[i + 1];
    }
  }

  /** The list after adding the first record, restricted to numbers the tail does not carry. */
  lemma AppendedStep(acc: seq<Bot>, records: seq<Record>, b: Bot)
    requires Distinct(acc)
    requires records != [] && Add(acc, records[0]).Appended?
    ensures (b in Add(acc, records[0]).bots && NoRecordNumbered(records[1..], Number(b))) <==>
      (b in acc && NoRecordNumbered(records, Number(b))) || (LastOfItsNumber(records, 0) && b == MakeBot(records[0]))
  {
    if b in Add(acc, records[0]).bots && NoRecordNumbered(records[1..], Number(b)) {
      AppendedKept(acc, records, b);
    }
    if b in acc && NoRecordNumbered(records, Number(b)) {
      AppendedFromAcc(acc, records, b);
    }
    if LastOfItsNumber(records, 0) && b == MakeBot(records[0]) {
      AppendedMade(acc, records, b);
    }
  }

  /** A bot kept after the step came from `acc` with an unrepeated number, or is the new bot. */
  lemma AppendedKept(acc: seq<Bot>, records: seq<Record>, b: Bot)
    requires Distinct(acc)
    requires records != [] && Add(acc, records[0]).Appended?
    requires b in Add(acc, records[0]).bots && NoRecordNumbered(records[1..], Number(b))
    ensures (b in acc && NoRecordNumbered(records, Number(b))) || (LastOfItsNumber(records, 0) && b == MakeBot(records[0]))
  {
    var d := records[0];
    var n := d["number"];
    var next := Add(acc, d).bots;
    assert next == Remove(acc, n) + [MakeBot(d)];
    if b != MakeBot(d) {
      assert b in Remove(acc, n);
      RemoveFacts(acc, n);
      assert !HasNumber(b, n);
      NoRecordNumberedCons(records, Number(b));
    } else {
      assert Number(MakeBot(d)) == n;
      NoRecordNumberedCons(records, Number(b));
    }
  }

  /** A bot of `acc` whose number no record carries survives the step. */
  lemma AppendedFromAcc(acc: seq<Bot>, records: seq<Record>, b: Bot)
    requires records != [] && Add(acc, records[0]).Appended?
    requires b in acc && NoRecordNumbered(records, Number(b))
    ensures b in Add(acc, records[0]).bots && NoRecordNumbered(records[1..], Number(b))
  {
    var n := records[0]["number"];
    assert !PyEq(n, Number(b));
    RemoveFacts(acc, n);
    assert b in Remove(acc, n);
    NoRecordNumberedCons(records, Number(b));
  }

  /** The new bot survives when no later record repeats its number. */
  lemma AppendedMade(acc: seq<Bot>, records: seq<Record>, b: Bot)
    requires records != [] && Add(acc, records[0]).Appended?
    requires LastOfItsNumber(records, 0) && b == MakeBot(records[0])
    ensures b in Add(acc, records[0]).bots && NoRecordNumbered(records[1..], Number(b))
  {
    var d := records[0];
    assert Number(MakeBot(d)) == d["number"];
    var next := Add(acc, d).bots;
    assert next[|next| - 1] == b;
    NoRecordNumberedCons(records, Number(b));
  }

  /** No record carries `n` exactly when the first does not and no later one does. */
  lemma NoRecordNumberedCons(records: seq<Record>, n: Json)
    requires records != []
    ensures NoRecordNumbered(records, n) <==>
      ("number" in records[0] ==> !PyEq(records[0]["number"], n)) && NoRecordNumbered(records[1..], n)
  {
    assert forall j :: 0 <= j < |records[1..]| ==> records[1..][j] == records[j + 1];
  }

  /** Record `i + 1` is last with its number in the list exactly when it is so in the tail. */
  lemma LastShift(records: seq<Record>)
    requires records != []
    ensures forall i :: 0 <= i < |records| - 1 ==>
      (LastOfItsNumber(records, i + 1) <==> LastOfItsNumber(records[1..], i))
  {
    forall i | 0 <= i < |records| - 1
      ensures LastOfItsNumber(records, i + 1) <==> LastOfItsNumber(records[1..], i)
    {
      var rest := records[1..];
      assert rest[i] == records[i + 1];
      if LastOfItsNumber(rest, i) {
        forall j | i + 1 < j < |records| && "number" in records[j]
          ensures !PyEq(records[j]["number"], records[i + 1]["number"])
        {
          assert records[j] == rest[j - 1];
        }
      }
      if LastOfItsNumber(records, i + 1) {
        forall j | i < j < |rest| && "number" in rest[j]
          ensures !PyEq(rest[j]["number"], rest[i]["number"])
        {
          assert rest[j] == records[j + 1];
        }
      }
    }
  }

  /** `LastMatch` only sees a number up to Python's `==`. */
  lemma {:induction false} LastMatchCongruent(fetched: seq<Record>, n: Json, m: Json)
    requires forall j :: 0 <= j < |fetched| ==> "number" in fetched[j]
    requires PyEq(n, m)
    ensures LastMatch(fetched, n) == LastMatch(fetched, m)
    decreases |fetched|
  {
    if fetched != [] {
      LastMatchCongruent(fetched[1..], n, m);
    }
  }

  /** Merging fetched variables one by one leaves each entry equal to the last fetched one with its number. */
  lemma {:induction false} MergeAllSpec(bots: seq<Bot>, fetched: seq<Record>)
    requires forall j :: 0 <= j < |fetched| ==> "number" in fetched[j]
    requires AllVariableLists(bots)
    ensures forall i :: 0 <= i < |bots| ==>
      |Variables(MergeAll(bots, fetched)[i]).items| == |Variables(bots[i]).items|
    ensures forall i, k :: 0 <= i < |bots| && 0 <= k < |Variables(bots[i]).items| ==>
      Variables(MergeAll(bots, fetched)[i]).items[k] == Merged(Variables(bots[i]).items[k], fetched)
    decreases |fetched|
  {
    if fetched == [] {
      return;
    }
    var v := fetched[0];
    var rest := fetched[1..];
    var mid := MergeVariable(bots, v);
    MergeAllSpec(mid, rest);
    assert MergeAll(bots, fetched) == MergeAll(mid, rest);
    forall i, k | 0 <= i < |bots| && 0 <= k < |Variables(bots[i]).items|
      ensures Variables(MergeAll(bots, fetched)[i]).items[k] == Merged(Variables(bots[i]).items[k], fetched)
    {
      var e := Variables(bots[i]).items[k];
      assert Variables(mid[i]).items[k] == if PyEq(VarNumber(e), v["number"]) then JObj(v) else e;
      MergedStep(e, fetched);
    }
  }

  /** Merging the first fetched variable into an entry, then the rest, is merging them all. */
  lemma MergedStep(e: Json, fetched: seq<Record>)
    requires fetched != [] && forall j :: 0 <= j < |fetched| ==> "number" in fetched[j]
    requires e.JObj? && "number" in e.fields
    ensures var e' := if PyEq(VarNumber(e), fetched[0]["number"]) then JObj(fetched[0]) else e;
      e'.JObj? && "number" in e'.fields && Merged(e', fetched[1..]) == Merged(e, fetched)
  {
    var e' := if PyEq(VarNumber(e), fetched[0]["number"]) then JObj(fetched[0]) else e;
    assert PyEq(VarNumber(e'), VarNumber(e));
    LastMatchCongruent(fetched[1..], VarNumber(e'), VarNumber(e));
  }

  /** A filter of one bot keeps it exactly when its lowercased status is the literal. */
  lemma StatusFilterOne(b: Bot, literal: string)
    requires Status(b).JStr?
    ensures StatusFilter([b], literal) == Filtered(if Lower(Status(b).s) == literal then [b] else [])
  {
    assert [b][1..] == [];
  }

  /** The filter of a concatenation is the concatenation of the filters: the kept bots stay in list order. */
  lemma {:induction false} StatusFilterAppend(a: seq<Bot>, b: seq<Bot>, literal: string)
    requires StatusFilter(a, literal).Filtered? && StatusFilter(b, literal).Filtered?
    ensures StatusFilter(a + b, literal) == Filtered(StatusFilter(a, literal).bots + StatusFilter(b, literal).bots)
    decreases |a|
  {
    var fb := StatusFilter(b, literal).bots;
    if a == [] {
      assert a + b == b;
      assert [] + fb == fb;
    } else {
      var ab := a + b;
      assert ab[1..] == a[1..] + b;
      StatusFilterAppend(a[1..], b, literal);
      var tail := StatusFilter(a[1..], literal).bots;
      StatusFilterHead(a, literal);
      StatusFilterHead(ab, literal);
      assert [a[0]] + (tail + fb) == ([a[0]] + tail) + fb;
    }
  }

  /** One step of the filter: the head is kept or dropped, the tail is filtered. */
  lemma StatusFilterHead(bots: seq<Bot>, literal: string)
    requires bots != [] && StatusFilter(bots, literal).Filtered?
    ensures StatusFilter(bots[1..], literal).Filtered?
    ensures StatusFilter(bots, literal).bots ==
      (if Lower(Status(bots[0]).s) == literal then [bots[0]] else []) + StatusFilter(bots[1..], literal).bots
  {
  }
}
