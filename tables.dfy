/** An append-only database table as the handlers use it: `ctx.db.insert`
    appends a document, and `query(...).order("desc").collect()` lists the
    documents newest first. Wall-clock time is replaced by a counter that every
    insert advances, so insertion order and timestamp order coincide. */
module Tables {

  /** A stored document with the timestamp taken when it was inserted
      (createdAt, submittedAt or selectedAt, depending on the table). */
  datatype Stamped<+T> = Stamped(doc: T, at: nat)

  /** Timestamps strictly increase in insertion order. */
  ghost predicate Ascending<T>(rows: seq<Stamped<T>>)
  {
    forall i, j :: 0 <= i < j < |rows| ==> rows[i].at < rows[j].at
  }

  /** The rows in reverse insertion order: the result of `order("desc")`. */
  function NewestFirst<T>(rows: seq<Stamped<T>>): (r: seq<Stamped<T>>)
    ensures |r| == |rows|
    ensures forall k :: 0 <= k < |r| ==> r[k] == rows[|rows| - 1 - k]
    decreases |rows|
  {
    if rows == [] then [] else NewestFirst(rows[1..]) + [rows[0]]
  }

  /** Listing newest first turns increasing timestamps into strictly decreasing ones. */
  lemma NewestFirstDescending<T>(rows: seq<Stamped<T>>)
    requires Ascending(rows)
    ensures forall i, j :: 0 <= i < j < |NewestFirst(rows)| ==> NewestFirst(rows)[i].at > NewestFirst(rows)[j].at
  {
    var r := NewestFirst(rows);
    forall i, j | 0 <= i < j < |r|
      ensures r[i].at > r[j].at
    {
      assert r[i] == rows[|rows| - 1 - i] && r[j] == rows[|rows| - 1 - j];
    }
  }

  class Table<T> {
    /** Every document ever inserted, oldest first. */
    var rows: seq<Stamped<T>>
    /** The timestamp the next insert will receive. */
    var clock: nat

    ghost predicate Valid()
      reads this
    {
      && Ascending(rows)
      && forall i :: 0 <= i < |rows| ==> rows[i].at < clock
    }

    constructor ()
      ensures Valid() && rows == [] && clock == 0
    {
      rows := [];
      clock := 0;
    }

    /** `ctx.db.insert`: appends one document stamped with the current time;
        the documents already stored are untouched. */
    method Insert(doc: T)
      requires Valid()
      modifies this
      ensures Valid()
      ensures rows == old(rows) + [Stamped(doc, old(clock))]
      ensures clock > old(clock)
    {
      rows := rows + [Stamped(doc, clock)];
      clock := clock + 1;
    }

    /** `query(...).order("desc").collect()`: every document, newest first,
        with strictly decreasing timestamps. Reads the table only. */
    method Collect() returns (list: seq<Stamped<T>>)
      requires Valid()
      ensures |list| == |rows|
      ensures forall k :: 0 <= k < |list| ==> list[k] == rows[|rows| - 1 - k]
      ensures forall i, j :: 0 <= i < j < |list| ==> list[i].at > list[j].at
    {
      list := NewestFirst(rows);
      NewestFirstDescending(rows);
    }
  }
}
