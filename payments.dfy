/** The `payments` table and its three endpoints: an internal mutation that
    records a payment, a newest-first listing, and a lookup by checkout
    session id. Nothing enforces one row per session. */
module Payments {
  import opened Js
  import opened Tables

  /** A payments row without its createdAt stamp. `amount` is the charged
      total in cents, an integer by construction (it comes from the processor). */
  datatype Payment = Payment(
    sessionId: string,
    customerEmail: string,
    serviceName: string,
    amount: int,
    paymentStatus: string)

  /** `recordPayment`: appends exactly one row carrying the arguments and a
      fresh createdAt; rows already stored are unchanged. */
  method RecordPayment(payments: Table<Payment>, sessionId: string, customerEmail: string,
                       serviceName: string, amount: int, paymentStatus: string)
    requires payments.Valid()
    modifies payments
    ensures payments.Valid()
    ensures payments.rows == old(payments.rows)
              + [Stamped(Payment(sessionId, customerEmail, serviceName, amount, paymentStatus), old(payments.clock))]
  {
    payments.Insert(Payment(sessionId, customerEmail, serviceName, amount, paymentStatus));
  }

  /** `getPayments`: every row, newest first. Reads the table only. */
  method GetPayments(payments: Table<Payment>) returns (list: seq<Stamped<Payment>>)
    requires payments.Valid()
    ensures |list| == |payments.rows|
    ensures forall k :: 0 <= k < |list| ==> list[k] == payments.rows[|payments.rows| - 1 - k]
    ensures forall i, j :: 0 <= i < j < |list| ==> list[i].at > list[j].at
  {
    list := payments.Collect();
  }

  /** The row `filter(sessionId == s).first()` yields: the earliest inserted
      row with that session id, or none. */
  function FirstBySession(rows: seq<Stamped<Payment>>, sessionId: string): (r: Option<Stamped<Payment>>)
    ensures r.None? <==> forall i :: 0 <= i < |rows| ==> rows[i].doc.sessionId != sessionId
    ensures r.Some? ==> exists k :: 0 <= k < |rows| && rows[k] == r.value && r.value.doc.sessionId == sessionId
                                    && forall j :: 0 <= j < k ==> rows[j].doc.sessionId != sessionId
    decreases |rows|
  {
    if rows == [] then None
    else if rows[0].doc.sessionId == sessionId then Some(rows[0])
    else
      var r := FirstBySession(rows[1..], sessionId);
      assert r.Some? ==> exists k :: 0 <= k < |rows[1..]| && rows[1..][k] == r.value && rows[k + 1] == r.value;
      r
  }

  /** `getPaymentBySession`: the first row with the session id, or none. Reads the table only. */
  method GetPaymentBySession(payments: Table<Payment>, sessionId: string) returns (r: Option<Stamped<Payment>>)
    ensures r.None? <==> forall i :: 0 <= i < |payments.rows| ==> payments.rows[i].doc.sessionId != sessionId
    ensures r.Some? ==> exists k :: 0 <= k < |payments.rows| && payments.rows[k] == r.value
                                    && r.value.doc.sessionId == sessionId
                                    && forall j :: 0 <= j < k ==> payments.rows[j].doc.sessionId != sessionId
  {
    r := FirstBySession(payments.rows, sessionId);
  }

  /** After recording a payment for session s, looking s up finds a row for s:
      the new row itself when s was not yet present, and otherwise the
      earlier row, unchanged. */
  lemma {:induction false} LookupAfterRecord(rows: seq<Stamped<Payment>>, row: Stamped<Payment>)
    ensures FirstBySession(rows + [row], row.doc.sessionId).Some?
    ensures FirstBySession(rows + [row], row.doc.sessionId).value.doc.sessionId == row.doc.sessionId
    ensures FirstBySession(rows, row.doc.sessionId).None? ==>
              FirstBySession(rows + [row], row.doc.sessionId) == Some(row)
    ensures FirstBySession(rows, row.doc.sessionId).Some? ==>
              FirstBySession(rows + [row], row.doc.sessionId) == FirstBySession(rows, row.doc.sessionId)
    decreases |rows|
  {
    var s := row.doc.sessionId;
    if rows == [] {
      assert rows + [row] == [row];
    } else {
      assert (rows + [row])[0] == rows[0];
      assert (rows + [row])[1..] == rows[1..] + [row];
      LookupAfterRecord(rows[1..], row);
    }
  }

  /** The number of rows carrying a session id. */
  function CountSession(rows: seq<Stamped<Payment>>, sessionId: string): nat
    decreases |rows|
  {
    if rows == [] then 0
    else (if rows[0].doc.sessionId == sessionId then 1 else 0) + CountSession(rows[1..], sessionId)
  }

  lemma {:induction false} CountSessionAppend(a: seq<Stamped<Payment>>, b: seq<Stamped<Payment>>, sessionId: string)
    ensures CountSession(a + b, sessionId) == CountSession(a, sessionId) + CountSession(b, sessionId)
    decreases |a|
  {
    if a == [] {
      assert a + b == b;
    } else {
      assert (a + b)[0] == a[0];
      assert (a + b)[1..] == a[1..] + b;
      CountSessionAppend(a[1..], b, sessionId);
    }
  }

  /** No uniqueness: recording the same session id twice leaves two more rows for it. */
  lemma DuplicateSessionKept(rows: seq<Stamped<Payment>>, first: Stamped<Payment>, second: Stamped<Payment>)
    requires first.doc.sessionId == second.doc.sessionId
    ensures CountSession(rows + [first] + [second], first.doc.sessionId)
            == CountSession(rows, first.doc.sessionId) + 2
  {
    var s := first.doc.sessionId;
    CountSessionAppend(rows, [first], s);
    CountSessionAppend(rows + [first], [second], s);
    assert CountSession([first], s) == 1 by {
      assert [first][1..] == [];
    }
    assert CountSession([second], s) == 1 by {
      assert [second][1..] == [];
    }
  }
}
