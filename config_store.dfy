/** The `tournamentConfig` table as the config routes use it through Prisma:
    rows keyed by their integer `id`, `findUnique`, `create`, `update` and
    `upsert`. A create without an `id` takes the table's next
    auto-increment value; an `id` in the data is honoured, and on update it
    moves the row. Every call fails while the database is unreachable. */
module ConfigStore {
  import opened Js
  import opened Http

  /** One stored row: its columns by name, `id` among them. */
  type Row = map<string, Json>

  /** The table's contents, its next auto-increment value, and whether the
      database can be reached. */
  datatype Table = Table(rows: map<int, Row>, nextId: int, online: bool)

  /** A store call's result and the table after it. */
  datatype Step<T> = Step(result: Result<T>, table: Table)

  const Unreachable := "Can't reach database server"
  const UniqueViolation := "Unique constraint failed on the fields: (`id`)"
  const NotFound := "Record to update not found."
  const InvalidId := "Argument `id`: Invalid value provided. Expected Int."

  /** Every row stores its own key as its `id` column. */
  ghost predicate Valid(t: Table)
  {
    forall k :: k in t.rows ==> "id" in t.rows[k] && t.rows[k]["id"] == JNum(k as real)
  }

  /** The integer an `id` value denotes, when it is an integral number. */
  function IdValue(v: Json): (k: Option<int>)
    ensures k.Some? ==> v == JNum(k.value as real)
    ensures v.JNum? && v.n == v.n.Floor as real ==> k == Some(v.n.Floor)
  {
    if v.JNum? && v.n == v.n.Floor as real then Some(v.n.Floor) else None
  }

  /** The key a write lands on: the data's `id` when it has one (None when
      that is not an integer), `fallback` otherwise. */
  function KeyOf(data: Row, fallback: int): Option<int>
  {
    if "id" in data then IdValue(data["id"]) else Some(fallback)
  }

  /** `findUnique({where: {id}})`. */
  function Find(t: Table, id: int): (r: Result<Option<Row>>)
    ensures !t.online <==> r.Err?
    ensures r.Ok? ==> (r.value.Some? <==> id in t.rows)
    ensures r.Ok? && r.value.Some? ==> r.value.value == t.rows[id]
  {
    if !t.online then Err(Unreachable)
    else if id in t.rows then Ok(Some(t.rows[id]))
    else Ok(None)
  }

  /** `create({data})`: the key is the data's `id`, or the next
      auto-increment value when it has none; a taken key fails and writes
      nothing. As in InnoDB, a stored key at or past the counter moves the
      counter just beyond it. */
  function Create(t: Table, data: Row): (s: Step<Row>)
    ensures s.result.Err? ==> s.table == t
    ensures !t.online ==> s.result.Err?
    ensures s.result.Ok? ==> KeyOf(data, t.nextId).Some?
    ensures s.result.Ok? ==>
      var k := KeyOf(data, t.nextId).value;
      && k !in t.rows
      && s.result.value == data["id" := JNum(k as real)]
      && s.table.rows == t.rows[k := s.result.value]
      && s.table.nextId == (if k < t.nextId then t.nextId else k + 1)
      && s.table.online
    ensures t.online && "id" !in data && t.nextId !in t.rows ==> s.result.Ok?
    ensures t.online && "id" in data && IdValue(data["id"]).Some? ==>
      (s.result.Ok? <==> IdValue(data["id"]).value !in t.rows)
  {
    if !t.online then Step(Err(Unreachable), t)
    else if "id" in data then
      match IdValue(data["id"])
      case None => Step(Err(InvalidId), t)
      case Some(k) =>
        if k in t.rows then Step(Err(UniqueViolation), t)
        else Step(Ok(data), t.(rows := t.rows[k := data], nextId := if k < t.nextId then t.nextId else k + 1))
    else
      var k := t.nextId;
      if k in t.rows then Step(Err(UniqueViolation), t)
      else
        var row := data["id" := JNum(k as real)];
        Step(Ok(row), t.(rows := t.rows[k := row], nextId := k + 1))
  }

  /** `update({where: {id}, data})`: the row's columns overwritten by the
      data's; a missing row fails; an `id` in the data re-keys the row. */
  function Update(t: Table, id: int, data: Row): (s: Step<Row>)
    ensures s.result.Err? ==> s.table == t
    ensures s.result.Ok? ==> t.online && id in t.rows
    ensures s.result.Ok? ==> KeyOf(data, id).Some?
    ensures s.result.Ok? ==>
      var k := KeyOf(data, id).value;
      && s.result.value == t.rows[id] + data
      && (k == id || k !in t.rows)
      && s.table == t.(rows := (t.rows - {id})[k := t.rows[id] + data])
    ensures t.online && id in t.rows && "id" !in data ==> s.result.Ok?
  {
    if !t.online then Step(Err(Unreachable), t)
    else if id !in t.rows then Step(Err(NotFound), t)
    else
      var row := t.rows[id] + data;
      if "id" !in data then
        assert (t.rows - {id})[id := row] == t.rows[id := row];
        Step(Ok(row), t.(rows := t.rows[id := row]))
      else
        match IdValue(data["id"])
        case None => Step(Err(InvalidId), t)
        case Some(k) =>
          if k != id && k in t.rows then Step(Err(UniqueViolation), t)
          else Step(Ok(row), t.(rows := (t.rows - {id})[k := row]))
  }

  /** `upsert({where: {id}, update, create})`: update when the row exists,
      create otherwise. */
  function Upsert(t: Table, id: int, update: Row, create: Row): (s: Step<Row>)
    ensures !t.online ==> s == Step(Err(Unreachable), t)
    ensures t.online && id in t.rows ==> s == Update(t, id, update)
    ensures t.online && id !in t.rows ==> s == Create(t, create)
  {
    if !t.online then Step(Err(Unreachable), t)
    else if id in t.rows then Update(t, id, update)
    else Create(t, create)
  }

  /** Create keeps every row stored under its own id. */
  lemma CreateKeepsValid(t: Table, data: Row)
    requires Valid(t)
    ensures Valid(Create(t, data).table)
  {
    var s := Create(t, data);
    if s.result.Ok? {
      var k := KeyOf(data, t.nextId).value;
      assert s.table.rows[k]["id"] == JNum(k as real);
    }
  }

  /** So does update, also when it moves the row to a new id. */
  lemma UpdateKeepsValid(t: Table, id: int, data: Row)
    requires Valid(t)
    ensures Valid(Update(t, id, data).table)
  {
    var s := Update(t, id, data);
    if s.result.Ok? {
      var k := KeyOf(data, id).value;
      assert s.table.rows[k]["id"] == JNum(k as real) by {
        if "id" !in data {
          assert t.rows[id]["id"] == JNum(id as real);
        }
      }
      forall j | j in s.table.rows
        ensures "id" in s.table.rows[j] && s.table.rows[j]["id"] == JNum(j as real)
      {
        if j != k {
          assert j in t.rows && s.table.rows[j] == t.rows[j];
        }
      }
    }
  }

  /** A created row is found afterwards under the key it reports. */
  lemma CreateThenFind(t: Table, data: Row)
    requires Valid(t)
    requires Create(t, data).result.Ok?
    ensures var s := Create(t, data);
      && IdValue(s.result.value["id"]).Some?
      && Find(s.table, IdValue(s.result.value["id"]).value) == Ok(Some(s.result.value))
  {
  }

  /** The table object the routes share. */
  class ConfigTable {
    var rows: map<int, Row>
    var nextId: int
    var online: bool

    function State(): Table
      reads this
    {
      Table(rows, nextId, online)
    }

    constructor (online: bool)
      ensures State() == Table(map[], 1, online)
    {
      rows := map[];
      nextId := 1;
      this.online := online;
    }

    method FindUnique(id: int) returns (r: Result<Option<Row>>)
      ensures r == Find(State(), id)
    {
      if !online {
        return Err(Unreachable);
      }
      if id in rows {
        return Ok(Some(rows[id]));
      }
      return Ok(None);
    }

    method CreateRow(data: Row) returns (r: Result<Row>)
      modifies this
      ensures Step(r, State()) == Create(old(State()), data)
    {
      var s := Create(State(), data);
      r := s.result;
      rows, nextId := s.table.rows, s.table.nextId;
    }

    method UpdateRow(id: int, data: Row) returns (r: Result<Row>)
      modifies this
      ensures Step(r, State()) == Update(old(State()), id, data)
    {
      var s := Update(State(), id, data);
      r := s.result;
      rows := s.table.rows;
    }

    /** Looks the row up, then updates or creates it. */
    method UpsertRow(id: int, update: Row, create: Row) returns (r: Result<Row>)
      modifies this
      ensures Step(r, State()) == Upsert(old(State()), id, update, create)
    {
      var found := FindUnique(id);
      match found
      case Err(message) =>
        r := Err(message);
      case Ok(Some(_)) =>
        r := UpdateRow(id, update);
      case Ok(None) =>
        r := CreateRow(create);
    }
  }
}
