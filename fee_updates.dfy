/** The fee-update endpoint, pages/api/update-fees.ts: an admin posts
    `{ updates: [{ id, lease_fee, mission_fee }, ...] }` and the handler
    upserts those three columns into `official_settlements`, keyed by id,
    with no filter on the caller's tenant. */
module FeeUpdates {
  import opened Outcomes
  import opened JsonValues
  import opened Accounts

  /** A row of `official_settlements` (lib/types/database.types.ts:39-58):
      the two fee columns the endpoint writes, the keys it does not, and the
      remaining amount columns by name. */
  datatype SettlementRow = SettlementRow(
    riderPlatformId: string,
    riderName: Option<string>,
    tenantId: string,
    uploadId: string,
    leaseFee: Option<int>,
    missionFee: Option<int>,
    amounts: map<string, Option<int>>)

  type SettlementTable = map<int, SettlementRow>

  datatype FeeRequest = FeeRequest(
    httpMethod: string,
    session: Option<Session>,
    profile: Option<Profile>,   // None: no `profiles` row came back
    body: Json)                 // `req.body` as parsed JSON

  /** The store's answer when it accepts a batch is given by the batch
      itself; `storeFails` stands for every other reason it has to refuse,
      and `storeMessage` for the message it gives when it refuses. */
  datatype FeeEnvironment = FeeEnvironment(storeFails: bool, storeMessage: string)

  datatype FeeError =
    | MethodNotAllowed
    | Unauthorized
    | Forbidden
    | BodyUnreadable            // `req.body` is null: reading `.updates` throws
    | InvalidUpdates
    | ItemUnreadable            // an item is null: reading `.id` throws
    | StoreRejected(message: string)

  function StatusCode(e: FeeError): int {
    match e
    case MethodNotAllowed => 405
    case Unauthorized => 401
    case Forbidden => 403
    case InvalidUpdates => 400
    case _ => 500
  }

  datatype FeeReply = FeesUpdated | FeesRejected(error: FeeError)

  function HttpStatus(reply: FeeReply): int {
    if reply.FeesUpdated? then 200 else StatusCode(reply.error)
  }

  /** Lines 12-38: method, session, an `ADMIN` profile with a tenant, and a
      non-empty `updates` array. */
  function AdmitFees(req: FeeRequest): Result<seq<Json>, FeeError> {
    if req.httpMethod != "POST" then Failure(MethodNotAllowed)
    else if req.session.None? then Failure(Unauthorized)
    else if req.profile.None? || req.profile.value.role != Admin || !HasTenant(req.profile.value) then Failure(Forbidden)
    else if req.body.JNull? then Failure(BodyUnreadable)
    else
      var updates := Get(req.body, "updates");
      if updates.None? || !Truthy(updates.value) || !updates.value.JArr? || updates.value.items == [] then Failure(InvalidUpdates)
      else Success(updates.value.items)
  }

  /** An item projected to the three properties the handler reads;
      `None` in a field is `undefined`. */
  datatype FeeUpdate = FeeUpdate(id: Option<Json>, leaseFee: Option<Json>, missionFee: Option<Json>)

  /** Lines 46-50 for one item: `None` when the item is null, since reading a
      property of null throws. */
  function Project(item: Json): Option<FeeUpdate> {
    if item.JNull? then None
    else Some(FeeUpdate(Get(item, "id"), Get(item, "lease_fee"), Get(item, "mission_fee")))
  }

  /** `updates.map(...)` (lines 46-50): `None` when some item throws. */
  function ProjectAll(items: seq<Json>): (r: Option<seq<FeeUpdate>>)
    ensures r.Some? ==> |r.value| == |items| && forall j :: 0 <= j < |items| ==> Project(items[j]) == Some(r.value[j])
    ensures r.None? ==> exists j :: 0 <= j < |items| && items[j].JNull?
    decreases |items|
  {
    if items == [] then Some([])
    else
      match (ProjectAll(items[..|items| - 1]), Project(items[|items| - 1]))
      case (Some(init), Some(last)) => Some(init + [last])
      case _ => None
  }

  /** One row write the store performs: an existing id and the two fees. */
  datatype FeeWrite = FeeWrite(id: int, leaseFee: Option<int>, missionFee: Option<int>)

  /** A fee value as the column receives it: `undefined` and null become
      NULL, an integer is kept, anything else is refused. */
  function FeeValue(v: Option<Json>): Option<Option<int>> {
    match v
    case None => Some(None)
    case Some(JNull) => Some(None)
    case Some(JNum(n)) => Some(Some(n))
    case Some(_) => None
  }

  /** The write the store makes for one update. The store is assumed to
      accept an update only for a numeric id that names an existing row,
      with fees that are integers or `null`. */
  function WriteOf(u: FeeUpdate, table: SettlementTable): Option<FeeWrite> {
    if u.id.Some? && u.id.value.JNum? && u.id.value.n in table
       && FeeValue(u.leaseFee).Some? && FeeValue(u.missionFee).Some?
    then Some(FeeWrite(u.id.value.n, FeeValue(u.leaseFee).value, FeeValue(u.missionFee).value))
    else None
  }

  predicate DistinctIds(writes: seq<FeeWrite>) {
    forall i, j :: 0 <= i < j < |writes| ==> writes[i].id != writes[j].id
  }

  /** The batch the store accepts: every update writable and no id twice
      (an ON CONFLICT update may not touch a row twice); one bad item
      refuses the whole statement. */
  function Batch(updates: seq<FeeUpdate>, table: SettlementTable): (r: Option<seq<FeeWrite>>)
    ensures r.Some? ==> |r.value| == |updates| && DistinctIds(r.value)
    ensures r.Some? ==> forall j :: 0 <= j < |updates| ==> WriteOf(updates[j], table) == Some(r.value[j])
    decreases |updates|
  {
    if updates == [] then Some([])
    else
      var init := Batch(updates[..|updates| - 1], table);
      var last := WriteOf(updates[|updates| - 1], table);
      if init.Some? && last.Some? && forall j :: 0 <= j < |init.value| ==> init.value[j].id != last.value.id
      then Some(init.value + [last.value])
      else None
  }

  function WithFees(row: SettlementRow, w: FeeWrite): SettlementRow {
    row.(leaseFee := w.leaseFee, missionFee := w.missionFee)
  }

  /** The table after the upsert on conflict `id`. */
  function Upserted(table: SettlementTable, writes: seq<FeeWrite>): SettlementTable
    decreases |writes|
  {
    if writes == [] then table
    else
      var before := Upserted(table, writes[..|writes| - 1]);
      var w := writes[|writes| - 1];
      if w.id in before then before[w.id := WithFees(before[w.id], w)] else before
  }

  datatype FeeHandled = FeeHandled(reply: FeeReply, table: SettlementTable)

  /** One run of the handler: its reply and the table afterwards. */
  function UpdateFees(req: FeeRequest, env: FeeEnvironment, table: SettlementTable): FeeHandled {
    match AdmitFees(req)
    case Failure(e) => FeeHandled(FeesRejected(e), table)
    case Success(items) =>
      match ProjectAll(items)
      case None => FeeHandled(FeesRejected(ItemUnreadable), table)
      case Some(updates) =>
        var batch := Batch(updates, table);
        if batch.None? || env.storeFails then FeeHandled(FeesRejected(StoreRejected(env.storeMessage)), table)
        else FeeHandled(FeesUpdated, Upserted(table, batch.value))
  }

  class FeeStore {
    var rows: SettlementTable

    constructor (rows: SettlementTable)
      ensures this.rows == rows
    {
      this.rows := rows;
    }

    /** `handler`: the guards, the projection and the upsert. */
    method HandleUpdateFees(req: FeeRequest, env: FeeEnvironment) returns (reply: FeeReply)
      modifies this
      ensures reply == UpdateFees(req, env, old(rows)).reply
      ensures rows == UpdateFees(req, env, old(rows)).table
    {
      var admitted := AdmitFees(req);
      if admitted.Failure? {
        return FeesRejected(admitted.error);
      }
      var updates := ProjectAll(admitted.value);
      if updates.None? {
        return FeesRejected(ItemUnreadable);
      }
      var batch := Batch(updates.value, rows);
      if batch.None? || env.storeFails {
        return FeesRejected(StoreRejected(env.storeMessage));
      }
      rows := Upserted(rows, batch.value);
      reply := FeesUpdated;
    }
  }

  /** Each write changes the fees of its own row and nothing else, every
      other row is untouched, and no row appears or disappears. */
  lemma {:induction false} UpsertedRows(table: SettlementTable, writes: seq<FeeWrite>)
    requires DistinctIds(writes)
    requires forall j :: 0 <= j < |writes| ==> writes[j].id in table
    ensures Upserted(table, writes).Keys == table.Keys
    ensures forall j :: 0 <= j < |writes| ==>
      Upserted(table, writes)[writes[j].id] == WithFees(table[writes[j].id], writes[j])
    ensures forall k :: k in table && (forall j :: 0 <= j < |writes| ==> writes[j].id != k) ==>
      Upserted(table, writes)[k] == table[k]
    decreases |writes|
  {
    if writes != [] {
      var init := writes[..|writes| - 1];
      UpsertedRows(table, init);
      var w := writes[|writes| - 1];
      var after := Upserted(table, writes);
      forall j | 0 <= j < |writes|
        ensures after[writes[j].id] == WithFees(table[writes[j].id], writes[j])
      {
        if j < |init| {
          assert init[j] == writes[j];
          assert writes[j].id != w.id;
        }
      }
      forall k | k in table && (forall j :: 0 <= j < |writes| ==> writes[j].id != k)
        ensures after[k] == table[k]
      {
        forall j | 0 <= j < |init|
          ensures init[j].id != k
        {
          assert init[j] == writes[j];
        }
        assert writes[|writes| - 1].id != k;
      }
    }
  }

  /** Sending the same updates again leaves the table as the first time. */
  lemma UpsertIdempotent(table: SettlementTable, writes: seq<FeeWrite>)
    requires DistinctIds(writes)
    requires forall j :: 0 <= j < |writes| ==> writes[j].id in table
    ensures Upserted(Upserted(table, writes), writes) == Upserted(table, writes)
  {
    var once := Upserted(table, writes);
    UpsertedRows(table, writes);
    UpsertedRows(once, writes);
    var twice := Upserted(once, writes);
    forall k | k in table
      ensures twice[k] == once[k]
    {
      if j :| 0 <= j < |writes| && writes[j].id == k {
        assert twice[k] == WithFees(once[k], writes[j]);
      }
    }
  }

  /** Sending the same request twice leaves the table and the reply as
      sending it once: a refusal changes nothing, and an accepted batch is
      accepted again and rewrites the same fees. */
  lemma UpdateFeesIdempotent(req: FeeRequest, env: FeeEnvironment, table: SettlementTable)
    ensures var once := UpdateFees(req, env, table);
      UpdateFees(req, env, once.table) == once
  {
    var once := UpdateFees(req, env, table);
    if once.reply.FeesUpdated? {
      var updates := ProjectAll(AdmitFees(req).value).value;
      var writes := Batch(updates, table).value;
      assert forall j :: 0 <= j < |writes| ==> WriteOf(updates[j], table) == Some(writes[j]);
      UpsertedRows(table, writes);
      BatchSeesOnlyIds(updates, once.table, table);
      UpsertIdempotent(table, writes);
    }
  }

  /** Only the keys of the table matter to the store's decision. */
  lemma {:induction false} BatchSeesOnlyIds(updates: seq<FeeUpdate>, table: SettlementTable, other: SettlementTable)
    requires table.Keys == other.Keys
    ensures Batch(updates, table) == Batch(updates, other)
    decreases |updates|
  {
    if updates != [] {
      BatchSeesOnlyIds(updates[..|updates| - 1], table, other);
      assert WriteOf(updates[|updates| - 1], table) == WriteOf(updates[|updates| - 1], other);
    }
  }

  /** The batch the store accepts is exactly the updates, each naming a row
      of the table, with distinct ids. */
  lemma {:induction false} BatchAcceptedIff(updates: seq<FeeUpdate>, table: SettlementTable)
    ensures Batch(updates, table).Some? <==>
      (forall j :: 0 <= j < |updates| ==> WriteOf(updates[j], table).Some?)
      && (forall i, j :: 0 <= i < j < |updates| ==> WriteOf(updates[i], table).value.id != WriteOf(updates[j], table).value.id)
    decreases |updates|
  {
    if updates != [] {
      var init := updates[..|updates| - 1];
      BatchAcceptedIff(init, table);
      var last := updates[|updates| - 1];
      if Batch(updates, table).None? && (forall j :: 0 <= j < |updates| ==> WriteOf(updates[j], table).Some?) {
        assert forall j :: 0 <= j < |init| ==> init[j] == updates[j];
        if Batch(init, table).None? {
          var i, j :| 0 <= i < j < |init| && WriteOf(init[i], table).value.id == WriteOf(init[j], table).value.id;
          assert WriteOf(updates[i], table).value.id == WriteOf(updates[j], table).value.id;
        } else {
          var ws := Batch(init, table).value;
          var j :| 0 <= j < |ws| && ws[j].id == WriteOf(last, table).value.id;
          assert WriteOf(updates[j], table).value.id == WriteOf(updates[|updates| - 1], table).value.id;
        }
      }
      if Batch(updates, table).Some? {
        var ws := Batch(updates, table).value;
        forall i, j | 0 <= i < j < |updates|
          ensures WriteOf(updates[i], table).value.id != WriteOf(updates[j], table).value.id
        {
          assert ws[i].id != ws[j].id;
        }
      }
    }
  }

  /** A 200 writes each named row's two fees and nothing else; any other
      reply leaves the table as it was. */
  lemma FeeUpdateEffect(req: FeeRequest, env: FeeEnvironment, table: SettlementTable)
    ensures var handled := UpdateFees(req, env, table);
      && (handled.reply.FeesRejected? ==> handled.table == table)
      && (handled.reply.FeesUpdated? ==>
            var writes := Batch(ProjectAll(AdmitFees(req).value).value, table).value;
            && |writes| > 0
            && handled.table.Keys == table.Keys
            && (forall j :: 0 <= j < |writes| ==>
                  handled.table[writes[j].id] == WithFees(table[writes[j].id], writes[j]))
            && (forall k :: k in table && (forall j :: 0 <= j < |writes| ==> writes[j].id != k) ==>
                  handled.table[k] == table[k]))
  {
    var handled := UpdateFees(req, env, table);
    if handled.reply.FeesUpdated? {
      var writes := Batch(ProjectAll(AdmitFees(req).value).value, table).value;
      assert forall j :: 0 <= j < |writes| ==> WriteOf(ProjectAll(AdmitFees(req).value).value[j], table) == Some(writes[j]);
      UpsertedRows(table, writes);
    }
  }

  /** The guards: 405 before anything else, then 401, then 403 for anyone
      but an `ADMIN` with a tenant (a super admin included), then 400 for an
      absent, non-array or empty `updates`. */
  lemma FeeGuards(req: FeeRequest, env: FeeEnvironment, table: SettlementTable)
    ensures var status := HttpStatus(UpdateFees(req, env, table).reply);
      && (status == 405 <==> req.httpMethod != "POST")
      && (status == 401 <==> req.httpMethod == "POST" && req.session.None?)
      && (status == 403 <==> req.httpMethod == "POST" && req.session.Some?
                             && (req.profile.None? || req.profile.value.role != Admin || !HasTenant(req.profile.value)))
      && (status == 400 <==>
            req.httpMethod == "POST" && req.session.Some? && req.profile.Some?
            && req.profile.value.role == Admin && HasTenant(req.profile.value) && !req.body.JNull?
            && (var u := Get(req.body, "updates"); u.None? || !u.value.JArr? || u.value.items == []))
      && (status == 500 <==>
            req.httpMethod == "POST" && req.session.Some? && req.profile.Some?
            && req.profile.value.role == Admin && HasTenant(req.profile.value)
            && (req.body.JNull?
                || (var u := Get(req.body, "updates");
                    u.Some? && u.value.JArr? && u.value.items != []
                    && (ProjectAll(u.value.items).None?
                        || Batch(ProjectAll(u.value.items).value, table).None? || env.storeFails))))
  {
  }

  /** The store's decision and the reply ignore which tenant a row belongs
      to: an admin can change the fees of another tenant's rows. */
  lemma TenantIgnored(req: FeeRequest, env: FeeEnvironment, table: SettlementTable, k: int, tenant: string)
    requires k in table
    ensures var other := table[k := table[k].(tenantId := tenant)];
      UpdateFees(req, env, other).reply == UpdateFees(req, env, table).reply
  {
    var other := table[k := table[k].(tenantId := tenant)];
    assert other.Keys == table.Keys;
    if AdmitFees(req).Success? && ProjectAll(AdmitFees(req).value).Some? {
      BatchSeesOnlyIds(ProjectAll(AdmitFees(req).value).value, table, other);
    }
  }

  /** Properties beyond `id`, `lease_fee` and `mission_fee` do not reach the
      store. */
  lemma ProjectionDropsExtras(members: seq<(string, Json)>, extra: seq<(string, Json)>)
    requires forall i :: 0 <= i < |extra| ==> extra[i].0 !in {"id", "lease_fee", "mission_fee"}
    ensures Project(JObj(members + extra)) == Project(JObj(members))
  {
    LookupSkipsSuffix(members, extra, "id");
    LookupSkipsSuffix(members, extra, "lease_fee");
    LookupSkipsSuffix(members, extra, "mission_fee");
  }

  lemma LookupSkipsSuffix(members: seq<(string, Json)>, extra: seq<(string, Json)>, key: string)
    requires forall i :: 0 <= i < |extra| ==> extra[i].0 != key
    ensures Lookup(members + extra, key) == Lookup(members, key)
  {
    var all := members + extra;
    if Lookup(members, key).Some? {
      var i :| 0 <= i < |members| && members[i] == (key, Lookup(members, key).value)
               && forall j :: 0 <= j < i ==> members[j].0 != key;
      assert all[i] == members[i];
      var r := Lookup(all, key);
      var i' :| 0 <= i' < |all| && all[i'] == (key, r.value) && forall j :: 0 <= j < i' ==> all[j].0 != key;
      assert all[i] == members[i];
      assert i' == i;
    } else {
      assert forall i :: 0 <= i < |all| ==> all[i].0 != key by {
        forall i | 0 <= i < |all|
          ensures all[i].0 != key
        {
          if i >= |members| {
            assert all[i] == extra[i - |members|];
          }
        }
      }
    }
  }
}
