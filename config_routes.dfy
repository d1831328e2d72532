/** The tournament-config route handlers: the `PUT` shared by
    `/api/admin/set-config`, `/api/config` and `/debug/api/tournament-config`
    (required-field check, then an upsert at id 1), the `GET` of
    `/api/config`, the get-or-create of `INIT` and `/api/admin/init-database`
    ('Astar Cup' defaults, no explicit id), and the get-or-create `GET` of
    the debug route ('AstarCup' defaults at id 1). */
module ConfigRoutes {
  import opened Js
  import opened Http
  import opened ConfigStore

  /** The fields a `PUT` body must carry, in the order they are checked. */
  const RequiredFields: seq<string> :=
    ["tournament_name", "max_pp_for_registration", "min_pp_for_registration",
     "current_seasonal", "current_category", "canRegister"]

  const UpdateFailed := "更新配置失败"
  const ReadFailed := "获取配置失败"
  const InitFailed := "初始化配置失败"

  function MissingFieldMessage(field: string): string
  {
    "缺少必要字段: " + field
  }

  /** A route's reply and the table after it. */
  datatype Handled = Handled(reply: Reply, table: Table)

  // ---------------------------------------------------------------------
  // Required-field validation

  /** The position of the first of `fields` that reads as `undefined` on
      `data`, or `|fields|` when none does. A field that is present counts
      whatever its value, null, false and 0 included. */
  function FirstMissing(data: Json, fields: seq<string>): (i: nat)
    requires !data.JNull?
    ensures i <= |fields|
    ensures forall j :: 0 <= j < i ==> Prop(data, fields[j]).Some?
    ensures i < |fields| ==> Prop(data, fields[i]).None?
    decreases |fields|
  {
    if fields == [] || Prop(data, fields[0]).None? then 0
    else 1 + FirstMissing(data, fields[1..])
  }

  /** The required field a `PUT` body lacks first, if any. */
  function MissingField(data: Json): (f: Option<string>)
    requires !data.JNull?
  {
    var i := FirstMissing(data, RequiredFields);
    if i < |RequiredFields| then Some(RequiredFields[i]) else None
  }

  /** The answer of the check is complete and ordered: no field reported
      means all six are present; a reported field is missing and every
      field before it is present. */
  lemma MissingFieldMeaning(data: Json)
    requires !data.JNull?
    ensures MissingField(data).None? <==> forall j :: 0 <= j < |RequiredFields| ==> Prop(data, RequiredFields[j]).Some?
    ensures MissingField(data).Some? ==>
      exists i :: 0 <= i < |RequiredFields| && RequiredFields[i] == MissingField(data).value
        && Prop(data, RequiredFields[i]).None?
        && forall j :: 0 <= j < i ==> Prop(data, RequiredFields[j]).Some?
    ensures MissingField(data).None? ==> data.JObj?
  {
    var i := FirstMissing(data, RequiredFields);
    if i == |RequiredFields| {
      assert Prop(data, RequiredFields[0]).Some?;
    }
  }

  /** Only presence is checked: a body whose six fields are all null passes. */
  lemma NullFieldsPass()
    ensures MissingField(JObj(map f | f in RequiredFields :: JNull)).None?
  {
    var data := JObj(map f | f in RequiredFields :: JNull);
    MissingFieldMeaning(data);
    forall j | 0 <= j < |RequiredFields|
      ensures Prop(data, RequiredFields[j]).Some?
    {
      assert RequiredFields[j] in RequiredFields;
    }
  }

  /** The handlers' `for` loop over the required fields, returning at the
      first that is `undefined`. */
  method CheckRequired(data: Json) returns (missing: Option<string>)
    requires !data.JNull?
    ensures missing == MissingField(data)
  {
    for k := 0 to |RequiredFields|
      invariant FirstMissing(data, RequiredFields[k..]) + k == FirstMissing(data, RequiredFields)
    {
      if Prop(data, RequiredFields[k]).None? {
        return Some(RequiredFields[k]);
      }
      assert RequiredFields[k..][1..] == RequiredFields[k + 1..];
    }
    return None;
  }

  // ---------------------------------------------------------------------
  // PUT (set-config, config/routes.ts, debug tournament-config)

  /** The object spread `...data` of a body that passed the check. */
  function Fields(data: Json): map<string, Json>
  {
    if data.JObj? then data.fields else map[]
  }

  /** `PUT`: a body that does not parse or is null is 500; a missing field
      is 400 naming the first one; otherwise the body is upserted at id 1
      (`update: data`, `create: {id: 1, ...data}`) and the stored row is
      the reply, 500 when the store fails. */
  function Put(t: Table, body: Option<Json>): (h: Handled)
    ensures h.reply.cookie.Keep?
    ensures h.reply.status != 200 ==> h.table == t
    ensures body.None? || body == Some(JNull) ==> h == Handled(ErrorReply(500, UpdateFailed), t)
    ensures body.Some? && !body.value.JNull? && MissingField(body.value).None? && !t.online ==>
      h == Handled(ErrorReply(500, UpdateFailed), t)
    ensures h.reply.status == 400 <==>
      body.Some? && !body.value.JNull? && MissingField(body.value).Some?
    ensures h.reply.status !in {200, 400} ==> h.reply == ErrorReply(500, UpdateFailed)
  {
    match body
    case None => Handled(ErrorReply(500, UpdateFailed), t)
    case Some(data) =>
      if data.JNull? then Handled(ErrorReply(500, UpdateFailed), t)
      else
        match MissingField(data)
        case Some(field) => Handled(ErrorReply(400, MissingFieldMessage(field)), t)
        case None =>
          var s := Upsert(t, 1, Fields(data), map["id" := JNum(1.0)] + Fields(data));
          match s.result
          case Err(_) => Handled(ErrorReply(500, UpdateFailed), s.table)
          case Ok(row) => Handled(Reply(200, JObj(row), Keep), s.table)
  }

  /** A body that fails the check is answered 400 with the first missing
      field and writes nothing. */
  lemma PutRejectsIncomplete(t: Table, data: Json)
    requires !data.JNull? && MissingField(data).Some?
    ensures Put(t, Some(data)) == Handled(ErrorReply(400, MissingFieldMessage(MissingField(data).value)), t)
  {
  }

  /** With a row 1, a complete body without an `id` is merged into it;
      nothing else changes. */
  lemma PutMergesIntoRowOne(t: Table, fields: map<string, Json>)
    requires t.online && 1 in t.rows
    requires "id" !in fields && MissingField(JObj(fields)).None?
    ensures Put(t, Some(JObj(fields))) ==
      Handled(Reply(200, JObj(t.rows[1] + fields), Keep), t.(rows := t.rows[1 := t.rows[1] + fields]))
  {
  }

  /** Without a row 1, a complete body without an `id` is created as row
      1, whatever the counter, because `{id: 1, ...data}` supplies the id. */
  lemma PutCreatesRowOne(t: Table, fields: map<string, Json>)
    requires t.online && 1 !in t.rows
    requires "id" !in fields && MissingField(JObj(fields)).None?
    ensures var h := Put(t, Some(JObj(fields)));
      && h.reply == Reply(200, JObj(fields["id" := JNum(1.0)]), Keep)
      && h.table.rows == t.rows[1 := fields["id" := JNum(1.0)]]
  {
    var create := map["id" := JNum(1.0)] + fields;
    assert create == fields["id" := JNum(1.0)];
    assert IdValue(JNum(1.0)) == Some(1);
  }

  /** A complete body without an `id` lands on row 1: merged into the
      existing row, or stored with id 1 when there was none; every other
      row stays as it was, and the reply is the stored row. */
  lemma PutWritesRowOne(t: Table, fields: map<string, Json>)
    requires Valid(t) && t.online
    requires "id" !in fields && MissingField(JObj(fields)).None?
    ensures var h := Put(t, Some(JObj(fields)));
      && h.reply.status == 200 && 1 in h.table.rows
      && h.table.rows[1] == (if 1 in t.rows then t.rows[1] + fields else fields["id" := JNum(1.0)])
      && h.reply.body == JObj(h.table.rows[1])
      && (forall k :: k in t.rows && k != 1 ==> k in h.table.rows && h.table.rows[k] == t.rows[k])
      && h.table.rows.Keys == t.rows.Keys + {1}
  {
    if 1 in t.rows {
      PutMergesIntoRowOne(t, fields);
    } else {
      PutCreatesRowOne(t, fields);
    }
  }

  /** The body's own `id` wins over the 1 of `{id: 1, ...data}`: without a
      row 1, a complete body carrying a free integral id `k` creates row
      `k` holding exactly the body, and row 1 is still missing afterwards
      unless `k` is 1. */
  lemma PutHonoursBodyId(t: Table, fields: map<string, Json>, k: int)
    requires t.online && 1 !in t.rows && k !in t.rows
    requires "id" in fields && fields["id"] == JNum(k as real) && MissingField(JObj(fields)).None?
    ensures var h := Put(t, Some(JObj(fields)));
      && h.reply == Reply(200, JObj(fields), Keep)
      && h.table.rows == t.rows[k := fields]
      && (k != 1 ==> 1 !in h.table.rows)
  {
    var create := map["id" := JNum(1.0)] + fields;
    assert create == fields;
    assert IdValue(JNum(k as real)) == Some(k);
  }

  /** With a row 1, a complete body carrying a free integral id `k` moves
      row 1, merged with the body, to `k`. */
  lemma PutMovesRowOne(t: Table, fields: map<string, Json>, k: int)
    requires t.online && 1 in t.rows && k !in t.rows
    requires "id" in fields && fields["id"] == JNum(k as real) && MissingField(JObj(fields)).None?
    ensures var h := Put(t, Some(JObj(fields)));
      && h.reply == Reply(200, JObj(t.rows[1] + fields), Keep)
      && h.table.rows == (t.rows - {1})[k := t.rows[1] + fields]
      && 1 !in h.table.rows
  {
    assert IdValue(JNum(k as real)) == Some(k);
  }

  /** A body id moves the auto-increment counter: on a fresh table, a
      complete `PUT` carrying id 5 stores row 5, so a following `INIT`
      creates row 6 and row 1 stays missing. */
  lemma BodyIdThenInit(fields: map<string, Json>)
    requires "id" in fields && fields["id"] == JNum(5.0) && MissingField(JObj(fields)).None?
    ensures var t1 := Put(Table(map[], 1, true), Some(JObj(fields))).table;
      && t1.rows.Keys == {5}
      && Init(t1).table.rows.Keys == {5, 6}
      && Init(t1).reply == Reply(200, JObj(InitDefaults()["id" := JNum(6.0)]), Keep)
  {
    var t := Table(map[], 1, true);
    PutHonoursBodyId(t, fields, 5);
    var t1 := Put(t, Some(JObj(fields))).table;
    assert IdValue(JNum(5.0)) == Some(5);
    assert t1.nextId == 6;
    assert "id" !in InitDefaults();
  }

  /** `PUT` writes only through the upsert at id 1: any write keeps
      `Valid`. */
  lemma PutKeepsValid(t: Table, body: Option<Json>)
    requires Valid(t)
    ensures Valid(Put(t, body).table)
  {
    if body.Some? && !body.value.JNull? && MissingField(body.value).None? && t.online {
      var data := body.value;
      if 1 in t.rows {
        UpdateKeepsValid(t, 1, Fields(data));
      } else {
        CreateKeepsValid(t, map["id" := JNum(1.0)] + Fields(data));
      }
    }
  }

  /** The `PUT` handler on the shared table. */
  method PutConfig(store: ConfigTable, body: Option<Json>) returns (reply: Reply)
    modifies store
    ensures Handled(reply, store.State()) == Put(old(store.State()), body)
  {
    if body.None? || body.value.JNull? {
      return ErrorReply(500, UpdateFailed);
    }
    var data := body.value;
    var missing := CheckRequired(data);
    if missing.Some? {
      return ErrorReply(400, MissingFieldMessage(missing.value));
    }
    var config := store.UpsertRow(1, Fields(data), map["id" := JNum(1.0)] + Fields(data));
    match config
    case Err(_) =>
      reply := ErrorReply(500, UpdateFailed);
    case Ok(row) =>
      reply := Reply(200, JObj(row), Keep);
  }

  // ---------------------------------------------------------------------
  // GET of config/routes.ts

  /** `GET`: the row at id 1, `null` when there is none, 500 when the store
      fails. */
  function Get(t: Table): (r: Reply)
    ensures r.status == 200 <==> t.online
    ensures t.online && 1 in t.rows ==> r.body == JObj(t.rows[1])
    ensures t.online && 1 !in t.rows ==> r.body == JNull
    ensures !t.online ==> r == ErrorReply(500, ReadFailed)
  {
    match Find(t, 1)
    case Err(_) => ErrorReply(500, ReadFailed)
    case Ok(None) => Reply(200, JNull, Keep)
    case Ok(Some(row)) => Reply(200, JObj(row), Keep)
  }

  /** The `GET` handler; it only reads. */
  method GetConfig(store: ConfigTable) returns (reply: Reply)
    ensures reply == Get(store.State())
  {
    var config := store.FindUnique(1);
    match config
    case Err(_) =>
      reply := ErrorReply(500, ReadFailed);
    case Ok(None) =>
      reply := Reply(200, JNull, Keep);
    case Ok(Some(row)) =>
      reply := Reply(200, JObj(row), Keep);
  }

  // ---------------------------------------------------------------------
  // Get-or-create: INIT and init-database (no explicit id), debug GET (id 1)

  function InitDefaults(): Row
  {
    map["tournament_name" := JStr("Astar Cup"), "max_pp_for_registration" := JNum(1000.0),
        "min_pp_for_registration" := JNum(0.0), "current_seasonal" := JStr("S1"),
        "current_category" := JStr("QUA"), "canRegister" := JBool(false)]
  }

  function DebugDefaults(): Row
  {
    map["id" := JNum(1.0), "tournament_name" := JStr("AstarCup"), "max_pp_for_registration" := JNum(0.0),
        "min_pp_for_registration" := JNum(0.0), "current_seasonal" := JStr("S1"),
        "current_category" := JStr("QUA"), "canRegister" := JBool(false)]
  }

  /** Find row 1; when it is missing, create `defaults`; answer with the
      row found or created, or 500 with `failure`. */
  function GetOrCreate(t: Table, defaults: Row, failure: string): (h: Handled)
    ensures h.reply.cookie.Keep?
    ensures h.reply.status != 200 ==> h.reply == ErrorReply(500, failure) && h.table == t
    ensures !t.online ==> h == Handled(ErrorReply(500, failure), t)
    ensures t.online && 1 !in t.rows && Create(t, defaults).result.Err? ==> h == Handled(ErrorReply(500, failure), t)
    ensures t.online && 1 in t.rows ==> h == Handled(Reply(200, JObj(t.rows[1]), Keep), t)
    ensures t.online && 1 !in t.rows ==>
      var s := Create(t, defaults);
      && h.table == s.table
      && (s.result.Ok? ==> h.reply == Reply(200, JObj(s.result.value), Keep))
  {
    match Find(t, 1)
    case Err(_) => Handled(ErrorReply(500, failure), t)
    case Ok(Some(row)) => Handled(Reply(200, JObj(row), Keep), t)
    case Ok(None) =>
      var s := Create(t, defaults);
      match s.result
      case Err(_) => Handled(ErrorReply(500, failure), t)
      case Ok(row) => Handled(Reply(200, JObj(row), Keep), s.table)
  }

  /** `INIT` of config/routes.ts and `GET` of init-database. */
  function Init(t: Table): Handled
  {
    GetOrCreate(t, InitDefaults(), InitFailed)
  }

  /** `GET` of the debug tournament-config route. */
  function DebugGet(t: Table): Handled
  {
    GetOrCreate(t, DebugDefaults(), ReadFailed)
  }

  /** The get-or-create handlers: `let config` is the row found, replaced by
      the row created when there was none. */
  method GetOrCreateConfig(store: ConfigTable, defaults: Row, failure: string) returns (reply: Reply)
    modifies store
    ensures Handled(reply, store.State()) == GetOrCreate(old(store.State()), defaults, failure)
  {
    var found := store.FindUnique(1);
    if found.Err? {
      return ErrorReply(500, failure);
    }
    var config := found.value;
    if config.None? {
      var created := store.CreateRow(defaults);
      if created.Err? {
        return ErrorReply(500, failure);
      }
      config := Some(created.value);
    }
    reply := Reply(200, JObj(config.value), Keep);
  }

  method InitConfig(store: ConfigTable) returns (reply: Reply)
    modifies store
    ensures Handled(reply, store.State()) == Init(old(store.State()))
  {
    reply := GetOrCreateConfig(store, InitDefaults(), InitFailed);
  }

  method DebugGetConfig(store: ConfigTable) returns (reply: Reply)
    modifies store
    ensures Handled(reply, store.State()) == DebugGet(old(store.State()))
  {
    reply := GetOrCreateConfig(store, DebugDefaults(), ReadFailed);
  }

  /** When row 1 exists, `INIT` returns it and writes nothing. */
  lemma InitKeepsExisting(t: Table)
    requires t.online && 1 in t.rows
    ensures Init(t) == Handled(Reply(200, JObj(t.rows[1]), Keep), t)
  {
  }

  /** Without row 1, `INIT` creates the 'Astar Cup' defaults under the
      table's next auto-increment id, which is not necessarily 1. */
  lemma InitCreatesDefaults(t: Table)
    requires t.online && 1 !in t.rows && t.nextId !in t.rows
    ensures var h := Init(t);
      && h.reply == Reply(200, JObj(InitDefaults()["id" := JNum(t.nextId as real)]), Keep)
      && h.table.rows == t.rows[t.nextId := InitDefaults()["id" := JNum(t.nextId as real)]]
  {
  }

  /** So when the sequence is not at 1, `INIT` leaves row 1 missing: the
      `GET` that follows still answers null, and a second `INIT` creates
      yet another row. */
  lemma InitAwayFromRowOne(t: Table)
    requires t.online && 1 !in t.rows && t.nextId != 1
    requires t.nextId !in t.rows && t.nextId + 1 !in t.rows
    ensures var t1 := Init(t).table;
      && Get(t1).body == JNull
      && |Init(t1).table.rows| == |t.rows| + 2
  {
    var row := InitDefaults()["id" := JNum(t.nextId as real)];
    var t1 := Init(t).table;
    assert t1.rows == t.rows[t.nextId := row];
    assert t1.nextId == t.nextId + 1;
    var row2 := InitDefaults()["id" := JNum((t.nextId + 1) as real)];
    assert Init(t1).table.rows == t1.rows[t.nextId + 1 := row2];
  }

  /** On a fresh table `INIT` creates row 1, and a second `INIT` writes
      nothing and answers the same row. */
  method InitTwiceOnFreshTable() returns (first: Reply, second: Reply)
    ensures first == second && first.status == 200
    ensures first.body == JObj(InitDefaults()["id" := JNum(1.0)])
  {
    var store := new ConfigTable(true);
    first := InitConfig(store);
    assert 1 in store.rows;
    second := InitConfig(store);
  }

  /** The debug `GET` creates row 1 at most once: after a first answer of
      200, a second `GET` writes nothing and answers the same row. */
  lemma DebugGetIdempotent(t: Table)
    requires DebugGet(t).reply.status == 200
    ensures var t1 := DebugGet(t).table;
      && DebugGet(t1) == Handled(DebugGet(t).reply, t1)
  {
    assert IdValue(JNum(1.0)) == Some(1);
  }
}
