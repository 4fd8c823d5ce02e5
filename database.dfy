/**
 * The three GLAuth tables the charm touches (`users`, `ldapgroups`, `capabilities`) and
 * the `Operation` context manager: a session opened on the database, `select` for the
 * first row matching some criteria, `add` to stage a row, and an exit that commits on a
 * clean exit and rolls back when an exception is propagating.
 *
 * The session sees its own staged rows (the ORM flushes them before a query); the
 * database sees them only after a successful commit. Unique user and group names are
 * checked at commit only: a commit that would give two users or two groups the same
 * name is refused with an integrity error.
 */
module Database {
  import opened Wrappers

  /** The id of a row the database has not stored yet; stored rows get ids from 1. */
  const Transient: nat := 0

  /** A row of one of the three tables, with the column names of the ORM classes. */
  datatype Row =
    | UserRow(id: nat, name: string, uidNumber: int, gidNumber: int, passwordSha256: string, passwordBcrypt: string)
    | GroupRow(id: nat, name: string, gidNumber: int)
    | CapabilityRow(id: nat, userId: int, action: string, objectName: string)

  datatype Table = Users | Groups | Capabilities

  /** The table a row belongs to. */
  function TableOf(row: Row): Table
  {
    match row
    case UserRow(_, _, _, _, _, _) => Users
    case GroupRow(_, _, _) => Groups
    case CapabilityRow(_, _, _, _) => Capabilities
  }

  datatype Tables = Tables(users: seq<Row>, groups: seq<Row>, capabilities: seq<Row>) {
    function Get(t: Table): seq<Row>
    {
      match t
      case Users => users
      case Groups => groups
      case Capabilities => capabilities
    }

    function Set(t: Table, rows: seq<Row>): (r: Tables)
      ensures r.Get(t) == rows
      ensures forall u :: u != t ==> r.Get(u) == Get(u)
    {
      match t
      case Users => this.(users := rows)
      case Groups => this.(groups := rows)
      case Capabilities => this.(capabilities := rows)
    }
  }

  /** `User(name=..., uid_number=..., gid_number=..., password_sha256=...)`: omitted hashes take the column default `""`. */
  function NewUser(name: string, uidNumber: int, gidNumber: int, passwordSha256: Option<string>): (u: Row)
    ensures u.UserRow? && u.id == Transient && u.name == name
    ensures u.uidNumber == uidNumber && u.gidNumber == gidNumber
    ensures passwordSha256.None? ==> u.passwordSha256 == ""
    ensures passwordSha256.Some? ==> u.passwordSha256 == passwordSha256.value
    ensures u.passwordBcrypt == ""
  {
    UserRow(Transient, name, uidNumber, gidNumber, passwordSha256.GetOr(""), "")
  }

  /** `Group(name=..., gid_number=...)`. */
  function NewGroup(name: string, gidNumber: int): Row
  {
    GroupRow(Transient, name, gidNumber)
  }

  /** `Capability(user_id=...)`: the action defaults to `"search"` and the object (field `objectName`, column `object`) to `"*"`. */
  function NewCapability(userId: int): (c: Row)
    ensures c.CapabilityRow? && c.id == Transient && c.userId == userId
    ensures c.action == "search" && c.objectName == "*"
  {
    CapabilityRow(Transient, userId, "search", "*")
  }

  /** The column comparisons the charm filters on: `X.name == n` and `Capability.user_id == u`. */
  datatype Criterion = NameIs(name: string) | UserIdIs(userId: int)

  predicate Matches(row: Row, c: Criterion)
  {
    match c
    case NameIs(n) => (row.UserRow? || row.GroupRow?) && row.name == n
    case UserIdIs(u) => row.CapabilityRow? && row.userId == u
  }

  /** `filter(*criteria)` keeps a row that satisfies every criterion. */
  predicate MatchesAll(row: Row, criteria: seq<Criterion>)
  {
    forall k :: 0 <= k < |criteria| ==> Matches(row, criteria[k])
  }

  /** Some row of `rows` satisfies the criteria. */
  predicate AnyMatch(rows: seq<Row>, criteria: seq<Criterion>)
  {
    exists i :: 0 <= i < |rows| && MatchesAll(rows[i], criteria)
  }

  /** A `name == n` filter keeps exactly the user and group rows named `n`. */
  lemma MatchesName(row: Row, name: string)
    ensures MatchesAll(row, [NameIs(name)]) <==> NameOf(row) == Some(name)
  {
    assert [NameIs(name)][0] == NameIs(name);
  }

  /** The position of the first row satisfying the criteria. */
  function FirstMatch(rows: seq<Row>, criteria: seq<Criterion>): (r: Option<nat>)
    ensures r.None? <==> !AnyMatch(rows, criteria)
    ensures r.Some? ==> r.value < |rows| && MatchesAll(rows[r.value], criteria)
    ensures r.Some? ==> forall j :: 0 <= j < r.value ==> !MatchesAll(rows[j], criteria)
  {
    if |rows| == 0 then None
    else if MatchesAll(rows[0], criteria) then Some(0)
    else
      match FirstMatch(rows[1..], criteria)
      case None =>
        assert forall i :: 1 <= i < |rows| ==> rows[i] == rows[1..][i - 1];
        None
      case Some(i) => Some(i + 1)
  }

  /** A row appended after rows that all fail the criteria is the first match when it satisfies them. */
  lemma FirstMatchAppend(rows: seq<Row>, row: Row, criteria: seq<Criterion>)
    requires !AnyMatch(rows, criteria) && MatchesAll(row, criteria)
    ensures FirstMatch(rows + [row], criteria) == Some(|rows|)
  {
    var all := rows + [row];
    assert all[|rows|] == row;
    assert forall j :: 0 <= j < |rows| ==> all[j] == rows[j];
  }

  /** The table has a row with this id. */
  predicate HasId(rows: seq<Row>, id: nat)
  {
    exists i :: 0 <= i < |rows| && rows[i].id == id
  }

  /** An id larger than every id in the table: the next autoincrement value. */
  function NextId(rows: seq<Row>): (n: nat)
    ensures n > Transient
    ensures forall i :: 0 <= i < |rows| ==> rows[i].id < n
  {
    if |rows| == 0 then 1
    else
      var rest := NextId(rows[1..]);
      assert forall i :: 1 <= i < |rows| ==> rows[i] == rows[1..][i - 1];
      if rows[0].id < rest then rest else rows[0].id + 1
  }

  /** The row with the same id as `row` overwritten by it. */
  function Replace(rows: seq<Row>, row: Row): (r: seq<Row>)
    ensures |r| == |rows|
    ensures forall i :: 0 <= i < |rows| ==> r[i] == if rows[i].id == row.id then row else rows[i]
  {
    seq(|rows|, i requires 0 <= i < |rows| => if rows[i].id == row.id then row else rows[i])
  }

  /**
   * What `session.add(row)` does to a table once flushed: a stored row (its id is in the
   * table) is updated in place, any other row is inserted at the end, taking the next id
   * if it has none.
   */
  function Put(rows: seq<Row>, row: Row): seq<Row>
  {
    if row.id != Transient && HasId(rows, row.id) then Replace(rows, row)
    else rows + [if row.id == Transient then row.(id := NextId(rows)) else row]
  }

  /** The session's view of the tables after staging `row`. */
  function Stage(t: Tables, row: Row): Tables
  {
    t.Set(TableOf(row), Put(t.Get(TableOf(row)), row))
  }

  /** Every row of `rows` belongs to `table`. */
  predicate OfTable(rows: seq<Row>, table: Table)
  {
    forall i :: 0 <= i < |rows| ==> TableOf(rows[i]) == table
  }

  /** Primary keys: every row is stored under an id of its own. */
  predicate KeyedRows(rows: seq<Row>)
  {
    && (forall i :: 0 <= i < |rows| ==> rows[i].id != Transient)
    && (forall i, j :: 0 <= i < j < |rows| ==> rows[i].id != rows[j].id)
  }

  /** The name of a user or group row. */
  function NameOf(row: Row): Option<string>
  {
    if row.UserRow? || row.GroupRow? then Some(row.name) else None
  }

  /** A `unique=True` name column: no two rows share a name. */
  predicate UniqueNames(rows: seq<Row>)
  {
    forall i, j :: 0 <= i < j < |rows| ==> NameOf(rows[i]) != NameOf(rows[j])
  }

  /** The shape every view of the tables has: rows in their own table, under distinct ids. */
  predicate Consistent(t: Tables)
  {
    && OfTable(t.users, Users) && OfTable(t.groups, Groups) && OfTable(t.capabilities, Capabilities)
    && KeyedRows(t.users) && KeyedRows(t.groups) && KeyedRows(t.capabilities)
  }

  /** The unique constraints of `users.name` and `ldapgroups.name`, enforced on commit. */
  predicate Constraints(t: Tables)
  {
    UniqueNames(t.users) && UniqueNames(t.groups)
  }

  /** Staging keeps the rows in their tables and the ids distinct, whatever is staged. */
  lemma StageConsistent(t: Tables, row: Row)
    requires Consistent(t)
    ensures Consistent(Stage(t, row))
  {
    var table := TableOf(row);
    var rows := t.Get(table);
    assert OfTable(rows, table) && KeyedRows(rows);
    var rows' := Put(rows, row);
    if row.id != Transient && HasId(rows, row.id) {
      assert OfTable(rows', table);
      assert forall i :: 0 <= i < |rows| ==> rows'[i].id == rows[i].id;
    } else {
      var added := if row.id == Transient then row.(id := NextId(rows)) else row;
      assert rows' == rows + [added];
      assert forall i :: 0 <= i < |rows| ==> rows[i].id != added.id;
    }
    assert OfTable(rows', table) && KeyedRows(rows');
  }

  /** Staging a new row appends it, with a fresh id, and keeps every stored row as it was. */
  lemma StageInserts(t: Tables, row: Row)
    requires Consistent(t) && row.id == Transient
    ensures Stage(t, row).Get(TableOf(row)) == t.Get(TableOf(row)) + [row.(id := NextId(t.Get(TableOf(row))))]
    ensures forall u :: u != TableOf(row) ==> Stage(t, row).Get(u) == t.Get(u)
  {
  }

  /** Staging a changed copy of a stored row overwrites exactly that row. */
  lemma StageUpdates(t: Tables, i: nat, row: Row)
    requires Consistent(t)
    requires i < |t.Get(TableOf(row))| && t.Get(TableOf(row))[i].id == row.id
    ensures |Stage(t, row).Get(TableOf(row))| == |t.Get(TableOf(row))|
    ensures Stage(t, row).Get(TableOf(row)) == t.Get(TableOf(row))[i := row]
    ensures forall u :: u != TableOf(row) ==> Stage(t, row).Get(u) == t.Get(u)
  {
    var rows := t.Get(TableOf(row));
    assert KeyedRows(rows);
    assert HasId(rows, row.id);
    assert Put(rows, row) == Replace(rows, row);
    assert Replace(rows, row) == rows[i := row];
  }

  /** The database itself: the committed contents of the tables. */
  class Store {
    var tables: Tables

    ghost predicate Valid()
      reads this
    {
      Consistent(tables) && Constraints(tables)
    }

    constructor (tables: Tables)
      requires Consistent(tables) && Constraints(tables)
      ensures Valid() && this.tables == tables
    {
      this.tables := tables;
    }
  }

  datatype DbError = IntegrityError

  /** `with Operation(dsn) as op:` — one session on the database. */
  class Operation {
    const store: Store
    /** The session's view: the committed tables plus what has been staged. */
    var work: Tables
    /** The session has not been closed. */
    var active: bool

    ghost predicate Valid()
      reads this, store
    {
      store.Valid() && Consistent(work)
    }

    /** `__enter__`: open a session; it starts from the committed tables. */
    constructor Enter(store: Store)
      requires store.Valid()
      ensures Valid() && this.store == store && work == store.tables && active
    {
      this.store := store;
      work := store.tables;
      active := true;
    }

    /** `select(table, *criteria)`: the first row of the table satisfying all criteria, or none. */
    method Select(table: Table, criteria: seq<Criterion>) returns (r: Option<Row>)
      ensures r.None? <==> !AnyMatch(work.Get(table), criteria)
      ensures r.Some? ==> exists i :: (0 <= i < |work.Get(table)| && work.Get(table)[i] == r.value
        && MatchesAll(r.value, criteria)
        && forall j :: 0 <= j < i ==> !MatchesAll(work.Get(table)[j], criteria))
    {
      var i := FirstMatch(work.Get(table), criteria);
      r := if i.Some? then Some(work.Get(table)[i.value]) else None;
    }

    /** `add(entity)`: stage a row in the session; the database does not see it yet. */
    method Add(row: Row)
      requires Valid()
      modifies this
      ensures Valid()
      ensures work == Stage(old(work), row)
      ensures active == old(active) && store.tables == old(store.tables)
    {
      StageConsistent(work, row);
      work := Stage(work, row);
    }

    /**
     * `__exit__`: with an exception propagating (`raised`), roll back and close; otherwise
     * commit and close. A commit that breaks a unique constraint fails with an integrity
     * error, the database keeps its contents and the session is not closed.
     */
    method Exit(raised: bool) returns (err: Option<DbError>)
      requires Valid()
      modifies this, store
      ensures Valid()
      ensures raised ==> err.None? && store.tables == old(store.tables) && work == store.tables && !active
      ensures !raised && Constraints(old(work)) ==>
        err.None? && store.tables == old(work) && work == old(work) && !active
      ensures !raised && !Constraints(old(work)) ==>
        err == Some(IntegrityError) && store.tables == old(store.tables) && work == old(work) && active == old(active)
    {
      err := None;
      if raised {
        work := store.tables;
      } else if Constraints(work) {
        store.tables := work;
      } else {
        err := Some(IntegrityError);
        return;
      }
      active := false;
    }
  }
}
