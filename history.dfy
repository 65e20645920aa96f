/**
 * The payment history as an ordered sequence of records: `create_payment`
 * appends to it and the `charge:confirmed` webhook marks the first record
 * with the charge's id as completed.
 */
module History {
  import opened Payments

  /** The field updates of one confirmation, whatever the record's status was. */
  function MarkCompleted(r: PaymentRecord, now: real): (c: PaymentRecord)
    ensures c.status == Completed && c.completedAt == Some(now)
    ensures c.(status := r.status, completedAt := r.completedAt) == r
  {
    r.(status := Completed, completedAt := Some(now))
  }

  /** The position of the first record with `id`, or |h| when there is none. */
  function FirstIndex(h: seq<PaymentRecord>, id: string): (k: nat)
    ensures k <= |h|
    ensures k < |h| ==> h[k].id == id
    ensures forall j :: 0 <= j < k ==> h[j].id != id
  {
    if h == [] then 0
    else if h[0].id == id then 0
    else 1 + FirstIndex(h[1..], id)
  }

  /** The history after a confirmation of charge `id` at instant `now`. */
  function Confirm(h: seq<PaymentRecord>, id: string, now: real): (r: seq<PaymentRecord>)
    ensures |r| == |h|
  {
    if h == [] then []
    else if h[0].id == id then [MarkCompleted(h[0], now)] + h[1..]
    else [h[0]] + Confirm(h[1..], id, now)
  }

  /**
   * A confirmation keeps the length and order of the history and changes only
   * the first record with the charge's id.
   */
  lemma {:induction false} ConfirmChangesFirstMatchOnly(h: seq<PaymentRecord>, id: string, now: real)
    ensures |Confirm(h, id, now)| == |h|
    ensures forall j :: 0 <= j < |h| ==>
      Confirm(h, id, now)[j] == if j == FirstIndex(h, id) then MarkCompleted(h[j], now) else h[j]
  {
    if h != [] && h[0].id != id {
      ConfirmChangesFirstMatchOnly(h[1..], id, now);
      var c := Confirm(h, id, now);
      forall j | 0 <= j < |h|
        ensures c[j] == if j == FirstIndex(h, id) then MarkCompleted(h[j], now) else h[j]
      {
        if j > 0 {
          assert c[j] == Confirm(h[1..], id, now)[j - 1];
        }
      }
    }
  }

  /** A confirmation for a charge id that no record has changes nothing. */
  lemma UnknownChargeLeavesHistory(h: seq<PaymentRecord>, id: string, now: real)
    requires forall j :: 0 <= j < |h| ==> h[j].id != id
    ensures Confirm(h, id, now) == h
  {
    ConfirmChangesFirstMatchOnly(h, id, now);
  }

  /** Confirmations leave every id where it was. */
  lemma {:induction false} ConfirmKeepsIds(h: seq<PaymentRecord>, id: string, now: real)
    ensures |Confirm(h, id, now)| == |h|
    ensures forall j :: 0 <= j < |h| ==> Confirm(h, id, now)[j].id == h[j].id
  {
    ConfirmChangesFirstMatchOnly(h, id, now);
  }

  /**
   * A repeated confirmation is not idempotent: it stamps the same record
   * again, so the history ends up as if only the last one had happened.
   */
  lemma {:induction false} ReconfirmRestamps(h: seq<PaymentRecord>, id: string, t1: real, t2: real)
    ensures Confirm(Confirm(h, id, t1), id, t2) == Confirm(h, id, t2)
  {
    if h != [] && h[0].id != id {
      ReconfirmRestamps(h[1..], id, t1, t2);
    }
  }

  /**
   * So a second confirmation at a different instant changes a history that
   * holds the charge.
   */
  lemma ReconfirmIsNotIdempotent(h: seq<PaymentRecord>, id: string, t1: real, t2: real)
    requires FirstIndex(h, id) < |h|
    requires t1 != t2
    ensures Confirm(Confirm(h, id, t1), id, t2) != Confirm(h, id, t1)
  {
    var k := FirstIndex(h, id);
    ReconfirmRestamps(h, id, t1, t2);
    ConfirmChangesFirstMatchOnly(h, id, t1);
    ConfirmChangesFirstMatchOnly(h, id, t2);
    assert Confirm(h, id, t2)[k].completedAt != Confirm(h, id, t1)[k].completedAt;
  }

  /** A record created with a fresh id is the one a later confirmation completes. */
  lemma {:induction false} ConfirmAfterAppend(h: seq<PaymentRecord>, r: PaymentRecord, now: real)
    requires forall j :: 0 <= j < |h| ==> h[j].id != r.id
    ensures Confirm(h + [r], r.id, now) == h + [MarkCompleted(r, now)]
  {
    if h == [] {
      assert [r][1..] == [];
    } else {
      assert (h + [r])[1..] == h[1..] + [r];
      ConfirmAfterAppend(h[1..], r, now);
    }
  }

  /**
   * Appending does not check for duplicate ids: when an older record has the
   * same id, confirmations reach that one and the new record stays as it was.
   */
  lemma {:induction false} DuplicateIdShadowsAppended(h: seq<PaymentRecord>, r: PaymentRecord, now: real)
    requires FirstIndex(h, r.id) < |h|
    ensures Confirm(h + [r], r.id, now) == Confirm(h, r.id, now) + [r]
  {
    assert (h + [r])[1..] == h[1..] + [r];
    if h[0].id != r.id {
      DuplicateIdShadowsAppended(h[1..], r, now);
    }
  }
}
