/** Payment rows: one collection per booking, settled by the gateway, released by the release gate. */
module Payments {
  import opened Wrappers
  import opened Custody
  import opened ReleaseGate

  datatype PayStatus = Pending | Paid | Failed
  datatype PayoutStatus = Held | Released

  datatype Payment = Payment(
    bookingId: BookingId, amountInr: nat, status: PayStatus, payout: PayoutStatus, orderId: nat)

  datatype PayError =
    | BookingNotFound | PaymentAlreadyExists | OrderIdTaken
    | BadWebhookSignature | NoOrderId | BadInternalSignature | ChainSaysNotReleasable

  datatype GatewayEvent = Captured | PaymentFailed | Other
  datatype GatewayBody = GatewayBody(event: GatewayEvent, orderId: Option<nat>)

  /** The first 14 of a UUID's 32 hex digits. */
  function OrderOf(b: BookingId): nat {
    b / 0x100_00000000_00000000
  }

  // ---------------------------------------------------------------- row updates

  function OnCaptured(p: Payment, orderId: nat): Payment {
    if p.orderId == orderId && p.status == Pending then p.(status := Paid) else p
  }

  function OnFailed(p: Payment, orderId: nat): Payment {
    if p.orderId == orderId && p.status == Pending then p.(status := Failed) else p
  }

  function OnRelease(p: Payment, bookingId: BookingId): Payment {
    if p.bookingId == bookingId && p.status == Paid && p.payout == Held then p.(payout := Released) else p
  }

  function Update(rows: seq<Payment>, f: Payment -> Payment): (after: seq<Payment>)
    ensures |after| == |rows|
    ensures forall i :: 0 <= i < |rows| ==> after[i] == f(rows[i])
  {
    seq(|rows|, i requires 0 <= i < |rows| => f(rows[i]))
  }

  function Settle(rows: seq<Payment>, body: GatewayBody): seq<Payment> {
    if body.orderId.None? then rows
    else
      match body.event
      case Captured => Update(rows, p => OnCaptured(p, body.orderId.value))
      case PaymentFailed => Update(rows, p => OnFailed(p, body.orderId.value))
      case Other => rows
  }

  function Release(rows: seq<Payment>, bookingId: BookingId): seq<Payment> {
    Update(rows, p => OnRelease(p, bookingId))
  }

  function Collect(rows: seq<Payment>, bookings: set<BookingId>, b: BookingId, amountInr: nat): Result<seq<Payment>, PayError> {
    if b !in bookings then Err(BookingNotFound)
    else if exists i :: 0 <= i < |rows| && rows[i].bookingId == b && rows[i].status != Failed then Err(PaymentAlreadyExists)
    else if exists i :: 0 <= i < |rows| && rows[i].orderId == OrderOf(b) then Err(OrderIdTaken)
    else Ok(rows + [Payment(b, amountInr, Pending, Held, OrderOf(b))])
  }

  // ---------------------------------------------------------------- what rows keep

  ghost predicate RowsValid(rows: seq<Payment>) {
    && (forall i :: 0 <= i < |rows| ==> rows[i].orderId == OrderOf(rows[i].bookingId))
    && (forall i :: 0 <= i < |rows| && rows[i].payout == Released ==> rows[i].status == Paid)
    && (forall i, j :: 0 <= i < j < |rows| ==> rows[i].orderId != rows[j].orderId)
  }

  /** A row never leaves PAID, FAILED or RELEASED. */
  predicate RowFollows(p: Payment, q: Payment) {
    && q.bookingId == p.bookingId && q.amountInr == p.amountInr && q.orderId == p.orderId
    && (p.status != Pending ==> q.status == p.status)
    && (p.payout == Released ==> q.payout == Released)
  }

  ghost predicate RowsFollow(rows: seq<Payment>, later: seq<Payment>) {
    |rows| <= |later| && forall i :: 0 <= i < |rows| ==> RowFollows(rows[i], later[i])
  }

  lemma RowsFollowTransitive(a: seq<Payment>, b: seq<Payment>, c: seq<Payment>)
    requires RowsFollow(a, b) && RowsFollow(b, c)
    ensures RowsFollow(a, c)
  {
  }

  lemma SettleKeeps(rows: seq<Payment>, body: GatewayBody)
    requires RowsValid(rows)
    ensures RowsValid(Settle(rows, body)) && RowsFollow(rows, Settle(rows, body))
    ensures forall i :: 0 <= i < |rows| ==> Settle(rows, body)[i].payout == rows[i].payout
  {
  }

  /** A gateway notice settles the one pending row of its order, if there is one: a capture
      pays it, a failure fails it, and every other row stays as it is. */
  lemma SettlesOneRow(rows: seq<Payment>, body: GatewayBody, i: nat)
    requires RowsValid(rows) && i < |rows|
    ensures var after := Settle(rows, body);
            var hit := body.orderId == Some(rows[i].orderId) && rows[i].status == Pending && body.event != Other;
            && (hit <==> after[i] != rows[i])
            && (hit ==> after[i] == rows[i].(status := if body.event == Captured then Paid else Failed))
            && (hit ==> after == rows[i := after[i]])
  {
    var after := Settle(rows, body);
    if body.orderId == Some(rows[i].orderId) {
      forall j | 0 <= j < |rows| && j != i ensures after[j] == rows[j] {
        assert rows[j].orderId != rows[i].orderId;
      }
    }
  }

  lemma ReleaseKeeps(rows: seq<Payment>, b: BookingId)
    requires RowsValid(rows)
    ensures RowsValid(Release(rows, b)) && RowsFollow(rows, Release(rows, b))
    ensures forall i :: 0 <= i < |rows| && rows[i].bookingId != b ==> Release(rows, b)[i] == rows[i]
  {
  }

  lemma CollectKeeps(rows: seq<Payment>, bookings: set<BookingId>, b: BookingId, amountInr: nat)
    requires RowsValid(rows) && Collect(rows, bookings, b, amountInr).Ok?
    ensures RowsValid(Collect(rows, bookings, b, amountInr).value)
    ensures RowsFollow(rows, Collect(rows, bookings, b, amountInr).value)
  {
  }

  /** A collection can be opened exactly when the booking exists and no row, of any status,
      holds its order id: the duplicate check decides only which error is reported. */
  lemma CollectExactly(rows: seq<Payment>, bookings: set<BookingId>, b: BookingId, amountInr: nat)
    requires RowsValid(rows)
    ensures Collect(rows, bookings, b, amountInr).Ok? <==>
              b in bookings && forall i :: 0 <= i < |rows| ==> rows[i].orderId != OrderOf(b)
    ensures Collect(rows, bookings, b, amountInr).Ok? ==>
              && |Collect(rows, bookings, b, amountInr).value| == |rows| + 1
              && rows <= Collect(rows, bookings, b, amountInr).value
              && var p := Collect(rows, bookings, b, amountInr).value[|rows|];
                 p.bookingId == b && p.amountInr == amountInr && p.status == Pending && p.payout == Held
  {
    if i :| 0 <= i < |rows| && rows[i].bookingId == b {
      assert rows[i].orderId == OrderOf(b);
    }
  }

  /** A failed collection can never be retried: its order id stays taken for good. */
  lemma FailedIsFinal(rows: seq<Payment>, later: seq<Payment>, bookings: set<BookingId>, i: nat, amountInr: nat)
    requires RowsValid(rows) && i < |rows| && rows[i].status == Failed
    requires RowsValid(later) && RowsFollow(rows, later)
    ensures later[i].status == Failed && Collect(later, bookings, rows[i].bookingId, amountInr).Err?
  {
    assert RowFollows(rows[i], later[i]);
    CollectExactly(later, bookings, rows[i].bookingId, amountInr);
  }

  /** A release pays out exactly the booking's PAID and HELD rows; where there is none, the
      handler answers released although nothing was paid out. */
  lemma ReleaseTakesEffect(rows: seq<Payment>, b: BookingId)
    ensures Release(rows, b) != rows <==>
              exists i :: 0 <= i < |rows| && rows[i].bookingId == b && rows[i].status == Paid && rows[i].payout == Held
    ensures forall i :: 0 <= i < |rows| ==>
              Release(rows, b)[i] ==
              if rows[i].bookingId == b && rows[i].status == Paid && rows[i].payout == Held
              then rows[i].(payout := Released) else rows[i]
  {
    if i :| 0 <= i < |rows| && rows[i].bookingId == b && rows[i].status == Paid && rows[i].payout == Held {
      assert Release(rows, b)[i] != rows[i];
    } else {
      assert Release(rows, b) == rows;
    }
  }

  // ---------------------------------------------------------------- the service

  class PaymentsService {
    const chain: CustodyManifest
    /** HMAC-SHA256 of a body under the gateway's and under the internal secret. */
    const gatewayMac: GatewayBody -> nat
    const internalMac: Body -> nat
    var bookings: set<BookingId>
    var rows: seq<Payment>

    constructor (chain: CustodyManifest, gatewayMac: GatewayBody -> nat, internalMac: Body -> nat, bookings: set<BookingId>)
      ensures rows == [] && this.bookings == bookings && this.chain == chain
      ensures this.gatewayMac == gatewayMac && this.internalMac == internalMac
    {
      this.chain, this.gatewayMac, this.internalMac, this.bookings, rows := chain, gatewayMac, internalMac, bookings, [];
    }

    method CreateCollection(bookingId: BookingId, amountInr: nat) returns (r: Result<Payment, PayError>)
      modifies this`rows
      ensures match Collect(old(rows), bookings, bookingId, amountInr)
              case Ok(after) => rows == after && r == Ok(after[|after| - 1])
              case Err(e) => rows == old(rows) && r == Err(e)
    {
      if bookingId !in bookings { return Err(BookingNotFound); }
      if exists i :: 0 <= i < |rows| && rows[i].bookingId == bookingId && rows[i].status != Failed {
        return Err(PaymentAlreadyExists);
      }
      var orderId := OrderOf(bookingId);
      if exists i :: 0 <= i < |rows| && rows[i].orderId == orderId { return Err(OrderIdTaken); }
      var p := Payment(bookingId, amountInr, Pending, Held, orderId);
      rows := rows + [p];
      return Ok(p);
    }

    /** Only a body signed with the gateway's secret changes a row, and only from PENDING. */
    method HandleGatewayWebhook(signature: nat, body: GatewayBody) returns (r: Result<(), PayError>)
      modifies this`rows
      ensures rows == if signature == gatewayMac(body) then Settle(old(rows), body) else old(rows)
      ensures r == (if signature != gatewayMac(body) then Err(BadWebhookSignature)
                    else if body.orderId.None? then Err(NoOrderId) else Ok(()))
    {
      if signature != gatewayMac(body) { return Err(BadWebhookSignature); }
      if body.orderId.None? { return Err(NoOrderId); }
      var orderId := body.orderId.value;
      if body.event == Captured {
        UpdateRows(p => OnCaptured(p, orderId));
      } else if body.event == PaymentFailed {
        UpdateRows(p => OnFailed(p, orderId));
      }
      return Ok(());
    }

    /** An UPDATE over the table, row by row. */
    method UpdateRows(f: Payment -> Payment)
      modifies this`rows
      ensures rows == Update(old(rows), f)
    {
      for i := 0 to |rows|
        invariant |rows| == |old(rows)|
        invariant forall k :: 0 <= k < |rows| ==> rows[k] == if k < i then f(old(rows)[k]) else old(rows)[k]
      {
        rows := rows[i := f(rows[i])];
      }
    }

    /** Nothing is paid out unless the signature checks out and the chain itself agrees. */
    method HandleReleaseGate(signature: nat, body: Body) returns (r: Result<(), PayError>)
      modifies this`rows
      ensures rows == if signature == internalMac(body) && Releasable(chain.View(), body.manifestId)
                      then Release(old(rows), body.bookingId) else old(rows)
      ensures r == (if signature != internalMac(body) then Err(BadInternalSignature)
                    else if !Releasable(chain.View(), body.manifestId) then Err(ChainSaysNotReleasable) else Ok(()))
    {
      if signature != internalMac(body) { return Err(BadInternalSignature); }
      var releasable := chain.IsReleasable(body.manifestId);
      if !releasable { return Err(ChainSaysNotReleasable); }
      UpdateRows(p => OnRelease(p, body.bookingId));
      return Ok(());
    }
  }
}
