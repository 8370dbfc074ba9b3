/** The generated queries of the `assignments` table (database/assignments.sql.go), run
    against an in-memory table. The page query has no `order by`, so PostgreSQL promises no
    row order; this model fixes one: rows stay in insertion order and an update keeps a
    row in its place. */
module AssignmentStore {
  import opened Wrappers
  import opened GoInt
  import opened Errors
  import opened Models
  import Database

  /** PostgreSQL's error for a value outside the `integer` type. */
  const IntegerOutOfRange: Error := Opaque("*pgconn.PgError", "ERROR: integer out of range (SQLSTATE 22003)")
  /** PostgreSQL's error for a `serial` sequence that has run out. */
  const SequenceExhausted: Error :=
    Opaque("*pgconn.PgError", "ERROR: nextval: reached maximum value of sequence \"assignments_id_seq\" (2147483647) (SQLSTATE 2200H)")
  const NegativeLimit: Error := Opaque("*pgconn.PgError", "ERROR: LIMIT must not be negative (SQLSTATE 2201W)")
  const NegativeOffset: Error := Opaque("*pgconn.PgError", "ERROR: OFFSET must not be negative (SQLSTATE 2201X)")

  const MaxInt32: int := 0x7FFF_FFFF

  /** `max("order")` over the table, with the `case` that turns an empty table's null into 0. */
  function MaxOrder(rows: seq<Assignment>): (m: int)
    ensures -0x8000_0000 <= m <= MaxInt32
    decreases |rows|
  {
    if rows == [] then 0
    else
      var m := MaxOrder(rows[..|rows| - 1]);
      var o := rows[|rows| - 1].order as int;
      if |rows| == 1 || o > m then o else m
  }

  /** `MaxOrder` is the largest order in a non-empty table, and 0 for an empty one. */
  lemma {:induction false} MaxOrderIsMax(rows: seq<Assignment>)
    ensures forall i :: 0 <= i < |rows| ==> rows[i].order <= MaxOrder(rows)
    ensures rows != [] ==> exists i :: 0 <= i < |rows| && rows[i].order == MaxOrder(rows)
    ensures rows == [] ==> MaxOrder(rows) == 0
    decreases |rows|
  {
    if |rows| > 1 {
      var init := rows[..|rows| - 1];
      var last := |rows| - 1;
      MaxOrderIsMax(init);
      assert MaxOrder(rows) == if rows[last].order as int > MaxOrder(init) then rows[last].order as int else MaxOrder(init);
      forall i | 0 <= i < |rows| ensures rows[i].order <= MaxOrder(rows) {
        if i < last {
          assert rows[i] == init[i];
        }
      }
      if rows[last].order as int <= MaxOrder(init) {
        var j :| 0 <= j < |init| && init[j].order == MaxOrder(init);
        assert rows[j] == init[j];
      } else {
        assert rows[last].order == MaxOrder(rows);
      }
    } else if |rows| == 1 {
      assert rows[0].order == MaxOrder(rows);
    }
  }

  /** The order the `case` expression of the update leaves: the new value when the type
      parameter is non-null, else the current order. */
  function UpdatedOrder(typeParam: Option<string>, order: Int32, current: Int32): Int32 {
    if typeParam.Some? then order else current
  }

  /** A row after the update statement: name and type overwritten, order per the `case`,
      id and timestamps kept. */
  function UpdatedRow(row: Assignment, name: string, typ: string, order: Int32): (r: Assignment)
  {
    row.(name := name, typ := typ, order := UpdatedOrder(Some(typ), order, row.order))
  }

  /** The rows `limit $1 offset $2` returns, or the error PostgreSQL raises for a negative
      offset (checked first) or limit. */
  function PageSlice(rows: seq<Assignment>, limit: Int32, offset: Int32): Result<seq<Assignment>, Error> {
    if offset < 0 then Err(NegativeOffset)
    else if limit < 0 then Err(NegativeLimit)
    else
      var start := if offset as int <= |rows| then offset as int else |rows|;
      var end := if offset as int + limit as int <= |rows| then offset as int + limit as int else |rows|;
      Ok(rows[start..end])
  }

  function Clamp(i: int, n: nat): nat {
    if i < 0 then 0 else if i <= n then i else n
  }

  /** Two consecutive pages of the same size, read from one table, are the rows of one
      window twice their size: pages neither overlap nor leave gaps. */
  lemma ConsecutivePages(rows: seq<Assignment>, p: Int64, s: Int64)
    requires 0 <= p && 0 < s && p * s + 2 * s < 0x8000_0000
    ensures var w := Database.PageWindow(p, s); var w1 := Database.PageWindow(p + 1, s);
      var n := |rows|;
      PageSlice(rows, w.limit, w.offset).Ok? && PageSlice(rows, w1.limit, w1.offset).Ok? &&
      PageSlice(rows, w.limit, w.offset).value + PageSlice(rows, w1.limit, w1.offset).value
        == rows[Clamp(w.offset as int, n)..Clamp(w.offset as int + 2 * s, n)]
  {
    Database.AdjacentWindows(p, s);
    var w := Database.PageWindow(p, s);
    SlicesAdjacent(rows, w.offset as int, s as int);
  }

  lemma SlicesAdjacent(rows: seq<Assignment>, start: nat, size: nat)
    requires start + 2 * size < 0x8000_0000
    ensures PageSlice(rows, size as Int32, start as Int32).Ok?
    ensures PageSlice(rows, size as Int32, (start + size) as Int32).Ok?
    ensures PageSlice(rows, size as Int32, start as Int32).value
          + PageSlice(rows, size as Int32, (start + size) as Int32).value
         == rows[Clamp(start, |rows|)..Clamp(start + 2 * size, |rows|)]
  {
    var a := Clamp(start, |rows|);
    var b := Clamp(start + size, |rows|);
    var c := Clamp(start + 2 * size, |rows|);
    assert rows[a..b] + rows[b..c] == rows[a..c];
  }

  class AssignmentTable {
    /** The table's rows. */
    var rows: seq<Assignment>
    /** The next value of the `serial` sequence behind `id`. */
    var nextId: int

    /** Ids are positive, unique, and below the sequence's next value. */
    ghost predicate Valid()
      reads this
    {
      && 1 <= nextId
      && (forall i :: 0 <= i < |rows| ==> 0 < rows[i].id < nextId)
      && (forall i, j :: 0 <= i < j < |rows| ==> rows[i].id != rows[j].id)
    }

    /** An empty table whose sequence starts at 1. */
    constructor ()
      ensures Valid() && rows == [] && nextId == 1
    {
      rows := [];
      nextId := 1;
    }

    /** `GetAssignment`: the row with the given id, or the zero row with `pgx.ErrNoRows`. */
    method GetAssignment(id: Int32) returns (a: Assignment, err: Option<Error>)
      requires Valid()
      ensures err.None? <==> exists i :: 0 <= i < |rows| && rows[i].id == id
      ensures err.None? ==> a in rows && a.id == id
      ensures err.Some? ==> err.value == Database.ErrNotFound && a == ZeroAssignment
    {
      var i := 0;
      while i < |rows|
        invariant 0 <= i <= |rows|
        invariant forall k :: 0 <= k < i ==> rows[k].id != id
      {
        if rows[i].id == id {
          return rows[i], None;
        }
        i := i + 1;
      }
      return ZeroAssignment, Some(Database.ErrNotFound);
    }

    /** The `max_order` subquery: the largest order, 0 on an empty table. */
    method MaxOrderQuery() returns (m: int)
      ensures m == MaxOrder(rows)
    {
      m := 0;
      var i := 0;
      while i < |rows|
        invariant 0 <= i <= |rows|
        invariant m == MaxOrder(rows[..i])
      {
        assert rows[..i + 1][..i] == rows[..i];
        if i == 0 || rows[i].order as int > m {
          m := rows[i].order as int;
        }
        i := i + 1;
      }
      assert rows[..i] == rows;
    }

    /** `InsertAssignment`: appends a row with the given name and type, order one more than
      the largest (1 on an empty table) and both timestamps `now`, and returns its id.
      The `id` column's default `nextval` comes before the `max_order` subquery in the row
      being inserted, and PostgreSQL evaluates that init-plan only when it reaches it: an
      exhausted sequence is the error reported first and takes no value, while an order
      beyond `int32` fails after `nextval` has taken one, which is never given back. */
    method InsertAssignment(name: string, typ: string, now: Instant) returns (id: Int32, err: Option<Error>)
      requires Valid()
      modifies this
      ensures Valid()
      ensures err.Some? <==> MaxOrder(old(rows)) + 1 > MaxInt32 || old(nextId) > MaxInt32
      ensures err.None? ==>
        && id as int == old(nextId) && nextId == old(nextId) + 1
        && rows == old(rows) + [Assignment(id, name, (MaxOrder(old(rows)) + 1) as Int32, now, now, typ)]
      ensures old(nextId) > MaxInt32 ==> err == Some(SequenceExhausted) && nextId == old(nextId)
      ensures old(nextId) <= MaxInt32 && MaxOrder(old(rows)) + 1 > MaxInt32 ==>
        err == Some(IntegerOutOfRange) && nextId == old(nextId) + 1
      ensures err.Some? ==> id == 0 && rows == old(rows)
    {
      if nextId > MaxInt32 {
        return 0, Some(SequenceExhausted);
      }
      var taken := nextId;
      nextId := nextId + 1;
      var m := MaxOrderQuery();
      MaxOrderIsMax(rows);
      if m + 1 > MaxInt32 {
        return 0, Some(IntegerOutOfRange);
      }
      id := taken as Int32;
      rows := rows + [Assignment(id, name, (m + 1) as Int32, now, now, typ)];
      err := None;
    }

    /** `UpdateAssignment`: the row with the given id gets the new name, type and (the type
      parameter being a Go string, never null) order; every other row is untouched. */
    method UpdateAssignment(id: Int32, name: string, typ: string, order: Int32)
      requires Valid()
      modifies this
      ensures Valid() && nextId == old(nextId) && |rows| == |old(rows)|
      ensures forall i :: 0 <= i < |rows| ==>
        rows[i] == (if old(rows)[i].id == id then UpdatedRow(old(rows)[i], name, typ, order) else old(rows)[i])
    {
      var updated: seq<Assignment> := [];
      var i := 0;
      while i < |rows|
        invariant 0 <= i <= |rows| && |updated| == i
        invariant forall k :: 0 <= k < i ==>
          updated[k] == (if rows[k].id == id then UpdatedRow(rows[k], name, typ, order) else rows[k])
      {
        var row := rows[i];
        if row.id == id {
          row := UpdatedRow(row, name, typ, order);
        }
        updated := updated + [row];
        i := i + 1;
      }
      rows := updated;
    }

    /** `getAssignmentsPage`: at most `limit` rows after skipping `offset` of them, as a
      non-nil (possibly empty) list; a negative offset or limit is an error and no list. */
    method GetAssignmentsPage(limit: Int32, offset: Int32) returns (r: Result<seq<Assignment>, Error>)
      ensures r == PageSlice(rows, limit, offset)
    {
      if offset < 0 {
        return Err(NegativeOffset);
      }
      if limit < 0 {
        return Err(NegativeLimit);
      }
      var start := if offset as int <= |rows| then offset as int else |rows|;
      var end := if offset as int + limit as int <= |rows| then offset as int + limit as int else |rows|;
      var items: seq<Assignment> := [];
      var i := start;
      while i < end
        invariant start <= i <= end
        invariant items == rows[start..i]
      {
        items := items + [rows[i]];
        i := i + 1;
      }
      return Ok(items);
    }
  }

  /** The order the `case` keeps is reachable only through a null type, which the Go
      parameters of this revision cannot send: every matching row takes the new order. */
  lemma UpdateAlwaysSetsOrder(row: Assignment, name: string, typ: string, order: Int32)
    ensures UpdatedRow(row, name, typ, order).order == order
    ensures UpdatedOrder(None, order, row.order) == row.order
  {
  }
}
