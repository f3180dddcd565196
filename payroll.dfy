/** The fee editing on the payroll page, pages/admin/payroll.tsx: typing a
    lease or mission fee into a row, and the payload the save button posts
    to the fee-update endpoint. */
module Payroll {
  import opened Outcomes
  import opened NumberText
  import opened JsonValues
  import opened Accounts
  import opened FeeUpdates

  /** One row of the payroll table, with the fields of the page's data
      (lines 9-11). */
  datatype PayrollItem = PayrollItem(
    id: int,
    licenseId: string,
    name: string,
    totalOrders: int,
    settlementAmount: int,
    supportFund: int,
    deduction: int,
    totalSettlement: int,
    employmentInsurance: int,
    industrialInsurance: int,
    hourlyInsurance: int,
    retroactiveInsurance: int,
    actualPayout: int,
    leaseFee: int,
    missionFee: int)

  datatype FeeType = LeaseFee | MissionFee

  /** `{ ...item, [feeType]: value }`. */
  function WithFee(item: PayrollItem, feeType: FeeType, value: int): PayrollItem {
    match feeType
    case LeaseFee => item.(leaseFee := value)
    case MissionFee => item.(missionFee := value)
  }

  function FeeOf(item: PayrollItem, feeType: FeeType): int {
    match feeType
    case LeaseFee => item.leaseFee
    case MissionFee => item.missionFee
  }

  /** `handleFeeChange` (lines 25-32): the list after typing `value` into
      the `feeType` cell of the row with this id. A matched row gets the
      typed number in the named fee and keeps the other fee and every other
      field; every other row is the same as before. */
  function FeeChanged(items: seq<PayrollItem>, id: int, feeType: FeeType, value: string): (r: seq<PayrollItem>)
    ensures |r| == |items|
    ensures forall i :: 0 <= i < |items| ==>
      && (items[i].id != id ==> r[i] == items[i])
      && (items[i].id == id ==>
            && FeeOf(r[i], feeType) == ParseIntOrZero(value)
            && (forall other: FeeType :: other != feeType ==> FeeOf(r[i], other) == FeeOf(items[i], other))
            && r[i].(leaseFee := 0, missionFee := 0) == items[i].(leaseFee := 0, missionFee := 0))
  {
    var fee := ParseIntOrZero(value);
    seq(|items|, i requires 0 <= i < |items| => if items[i].id == id then WithFee(items[i], feeType, fee) else items[i])
  }

  /** With no row of that id the list is unchanged. */
  lemma FeeChangedWithoutMatch(items: seq<PayrollItem>, id: int, feeType: FeeType, value: string)
    requires forall i :: 0 <= i < |items| ==> items[i].id != id
    ensures FeeChanged(items, id, feeType, value) == items
  {
    var r := FeeChanged(items, id, feeType, value);
    assert forall i :: 0 <= i < |items| ==> r[i] == items[i];
  }

  /** Typing the same value twice gives the list typing it once gives. */
  lemma FeeChangedIdempotent(items: seq<PayrollItem>, id: int, feeType: FeeType, value: string)
    ensures var once := FeeChanged(items, id, feeType, value);
      FeeChanged(once, id, feeType, value) == once
  {
    var once := FeeChanged(items, id, feeType, value);
    var twice := FeeChanged(once, id, feeType, value);
    forall i | 0 <= i < |items|
      ensures twice[i] == once[i]
    {
      if items[i].id == id {
        assert once[i].id == id;
      }
    }
  }

  /** The number written into the row: the decimal text of an integer,
      possibly followed by other characters, reads as that integer, and
      text with no digits (the empty field included) as 0. */
  lemma TypedFeeValue(items: seq<PayrollItem>, i: nat, feeType: FeeType, n: int, rest: string, blank: string)
    requires i < |items|
    requires -MaxSafeMagnitude <= n <= MaxSafeMagnitude
    requires rest == [] || !IsDigit(rest[0])
    requires forall j :: 0 <= j < |blank| ==> !IsDigit(blank[j])
    ensures FeeOf(FeeChanged(items, items[i].id, feeType, IntToDecimal(n) + rest)[i], feeType) == n
    ensures FeeOf(FeeChanged(items, items[i].id, feeType, blank)[i], feeType) == 0
  {
    ParseIntReadsDecimal(n, rest);
    ParseIntWithoutDigits(blank);
  }

  /** One entry of the save payload (lines 40-44). */
  function PayloadEntry(item: PayrollItem): Json {
    JObj([("id", JNum(item.id)), ("lease_fee", JNum(item.leaseFee)), ("mission_fee", JNum(item.missionFee))])
  }

  lemma PayloadEntryFields(item: PayrollItem)
    ensures Get(PayloadEntry(item), "id") == Some(JNum(item.id))
    ensures Get(PayloadEntry(item), "lease_fee") == Some(JNum(item.leaseFee))
    ensures Get(PayloadEntry(item), "mission_fee") == Some(JNum(item.missionFee))
  {
    var m := PayloadEntry(item).members;
    assert m[1..] == [("lease_fee", JNum(item.leaseFee)), ("mission_fee", JNum(item.missionFee))];
    assert m[1..][1..] == [("mission_fee", JNum(item.missionFee))];
    assert "id" != "lease_fee" && "id" != "mission_fee" && "lease_fee" != "mission_fee";
    assert Lookup(m, "lease_fee") == Lookup(m[1..], "lease_fee");
    assert Lookup(m, "mission_fee") == Lookup(m[1..], "mission_fee") == Lookup(m[1..][1..], "mission_fee");
  }

  /** `updates` in `handleSave`. */
  function SavePayload(items: seq<PayrollItem>): (r: seq<Json>)
    ensures |r| == |items|
  {
    seq(|items|, i requires 0 <= i < |items| => PayloadEntry(items[i]))
  }

  /** The request body `JSON.stringify({ updates })` (line 52). */
  function SaveBody(items: seq<PayrollItem>): Json {
    JObj([("updates", JArr(SavePayload(items)))])
  }

  /** Each payload entry reads back, through the endpoint's projection, as
      the row's id and its two fees, and nothing else. */
  lemma PayloadProjects(items: seq<PayrollItem>)
    ensures ProjectAll(SavePayload(items)).Some?
    ensures var updates := ProjectAll(SavePayload(items)).value;
      forall j :: 0 <= j < |items| ==>
        updates[j] == FeeUpdate(Some(JNum(items[j].id)), Some(JNum(items[j].leaseFee)), Some(JNum(items[j].missionFee)))
  {
    var payload := SavePayload(items);
    assert forall j :: 0 <= j < |payload| ==> !payload[j].JNull?;
    var updates := ProjectAll(payload).value;
    forall j | 0 <= j < |items|
      ensures updates[j] == FeeUpdate(Some(JNum(items[j].id)), Some(JNum(items[j].leaseFee)), Some(JNum(items[j].missionFee)))
    {
      PayloadEntryFields(items[j]);
      assert Project(payload[j]) == Some(updates[j]);
    }
  }

  /** The row writes a saved page asks for. */
  function SaveWrites(items: seq<PayrollItem>): (r: seq<FeeWrite>)
    ensures |r| == |items|
  {
    seq(|items|, i requires 0 <= i < |items| => FeeWrite(items[i].id, Some(items[i].leaseFee), Some(items[i].missionFee)))
  }

  lemma SaveAdmitted(items: seq<PayrollItem>, session: Session, profile: Profile)
    requires items != []
    requires profile.role == Admin && HasTenant(profile)
    ensures AdmitFees(FeeRequest("POST", Some(session), Some(profile), SaveBody(items))) == Success(SavePayload(items))
  {
  }

  /** The projected payload as the updates the store receives. */
  function SaveUpdates(items: seq<PayrollItem>): (r: seq<FeeUpdate>)
    ensures |r| == |items|
  {
    seq(|items|, i requires 0 <= i < |items| => FeeUpdate(Some(JNum(items[i].id)), Some(JNum(items[i].leaseFee)), Some(JNum(items[i].missionFee))))
  }

  lemma SaveWritesAccepted(items: seq<PayrollItem>, table: SettlementTable)
    requires forall i, j :: 0 <= i < j < |items| ==> items[i].id != items[j].id
    requires forall j :: 0 <= j < |items| ==> items[j].id in table
    ensures Batch(SaveUpdates(items), table) == Some(SaveWrites(items))
  {
    var updates := SaveUpdates(items);
    var writes := SaveWrites(items);
    assert forall j :: 0 <= j < |updates| ==> WriteOf(updates[j], table) == Some(writes[j]);
    BatchAcceptedIff(updates, table);
    var batch := Batch(updates, table).value;
    assert batch == writes;
  }

  lemma SaveBatch(items: seq<PayrollItem>, table: SettlementTable)
    requires forall i, j :: 0 <= i < j < |items| ==> items[i].id != items[j].id
    requires forall j :: 0 <= j < |items| ==> items[j].id in table
    ensures ProjectAll(SavePayload(items)) == Some(SaveUpdates(items))
    ensures Batch(SaveUpdates(items), table) == Some(SaveWrites(items))
  {
    PayloadProjects(items);
    assert ProjectAll(SavePayload(items)).value == SaveUpdates(items);
    SaveWritesAccepted(items, table);
  }

  /** Saving the page: when an admin with a tenant posts the payload of a
      non-empty list whose ids are distinct rows of the table, and the store
      does not fail, every row gets the fees shown on the page. */
  lemma SaveRoundTrip(items: seq<PayrollItem>, session: Session, profile: Profile, env: FeeEnvironment, table: SettlementTable)
    requires items != []
    requires profile.role == Admin && HasTenant(profile)
    requires forall i, j :: 0 <= i < j < |items| ==> items[i].id != items[j].id
    requires forall j :: 0 <= j < |items| ==> items[j].id in table
    requires !env.storeFails
    ensures var handled := UpdateFees(FeeRequest("POST", Some(session), Some(profile), SaveBody(items)), env, table);
      && handled.reply == FeesUpdated
      && handled.table.Keys == table.Keys
      && forall j :: 0 <= j < |items| ==>
           handled.table[items[j].id] == table[items[j].id].(leaseFee := Some(items[j].leaseFee), missionFee := Some(items[j].missionFee))
  {
    var req := FeeRequest("POST", Some(session), Some(profile), SaveBody(items));
    var writes := SaveWrites(items);
    assert UpdateFees(req, env, table) == FeeHandled(FeesUpdated, Upserted(table, writes)) by {
      SaveAdmitted(items, session, profile);
      SaveBatch(items, table);
    }
    UpsertedRows(table, writes);
    forall j | 0 <= j < |items|
      ensures Upserted(table, writes)[items[j].id]
              == table[items[j].id].(leaseFee := Some(items[j].leaseFee), missionFee := Some(items[j].missionFee))
    {
      assert writes[j].id == items[j].id;
    }
  }

  /** Saving an empty page is refused with 400 and writes nothing. */
  lemma EmptySaveRefused(session: Session, profile: Profile, env: FeeEnvironment, table: SettlementTable)
    requires profile.role == Admin && HasTenant(profile)
    ensures var handled := UpdateFees(FeeRequest("POST", Some(session), Some(profile), SaveBody([])), env, table);
      HttpStatus(handled.reply) == 400 && handled.table == table
  {
    assert SavePayload([]) == [];
  }

  /** After a fee is typed, the payload carries the typed number for that
      row. */
  lemma SaveAfterChange(items: seq<PayrollItem>, i: nat, feeType: FeeType, value: string)
    requires i < |items|
    ensures var entry := SavePayload(FeeChanged(items, items[i].id, feeType, value))[i];
      Get(entry, if feeType == LeaseFee then "lease_fee" else "mission_fee") == Some(JNum(ParseIntOrZero(value)))
  {
    PayloadEntryFields(FeeChanged(items, items[i].id, feeType, value)[i]);
  }
}
