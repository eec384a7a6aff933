/**
 * Escrow and CustodyManifest executed together, with the recipient of every payment an
 * adversary: a finite script of further contract calls, each able to pay out and call
 * back again, ending by accepting the money or failing. A failed call rolls back, and the
 * log records the joint state at every call boundary, rolled back or not.
 */
module EscrowModel {
  import opened Wrappers
  import opened ByteStrings
  import Custody

  datatype DepositStatus = Funded | Released | Refunded

  /** A stored deposit. An id without one has the contract's status None. */
  datatype Deposit = Deposit(payer: Address, payee: Address, amount: Word, status: DepositStatus, fundedAt: UInt64)

  datatype Route = ByRelease | ByDispute

  /** Money the escrow has sent, or owes in a call still in progress. */
  datatype Share = Share(id: Word, to: Address, amount: nat, route: Route)

  /** `received` and `sent` record the ether that came in and went out. */
  datatype Escrow = Escrow(
    owner: Address, arbiter: Address, deposits: map<Word, Deposit>,
    balance: nat, received: nat, sent: seq<Share>)

  datatype World = World(custody: Custody.State, escrow: Escrow)

  datatype Error =
    | NotOwner | NotArbiter | ZeroAmount | ZeroAddress | AlreadyFunded | NotFunded
    | NotReleasable | NotDisputeState | TransferFailed | InCustodyContract(e: Custody.Error)

  datatype Op =
    | Fund(id: Word, payee: Address, value: Word)
    | Release(id: Word, onPay: Script)
    | ResolveDispute(id: Word, splitToPayee: Word, onPayee: Script, onPayer: Script)
    | SetArbiter(newArbiter: Address)
    | TransferOwnership(newOwner: Address)
    | InCustody(call: Custody.Op)

  datatype Call = Call(sender: Address, now: nat, op: Op)

  /** What a payment recipient does with control: any calls, then accept or fail. */
  datatype Script = Stop(accepts: bool) | Do(call: Call, rest: Script)

  /** The joint state at a call boundary, and the shares still owed by enclosing calls. */
  datatype Boundary = Boundary(world: World, pending: seq<Share>)

  datatype Outcome = Outcome(world: World, result: Result<(), Error>, log: seq<Boundary>)

  function WithDeposits(w: World, deposits: map<Word, Deposit>): World {
    w.(escrow := w.escrow.(deposits := deposits))
  }

  function Close(w: World, id: Word, status: DepositStatus): World
    requires id in w.escrow.deposits
  {
    WithDeposits(w, w.escrow.deposits[id := w.escrow.deposits[id].(status := status)])
  }

  /** The state after handing `share` over, before the recipient runs. */
  function Paid(w: World, share: Share): World
    requires share.amount <= w.escrow.balance
  {
    w.(escrow := w.escrow.(balance := w.escrow.balance - share.amount, sent := w.escrow.sent + [share]))
  }

  predicate IsFunded(w: World, id: Word) {
    id in w.escrow.deposits && w.escrow.deposits[id].status == Funded
  }

  predicate InDispute(s: Custody.State, id: Word) {
    id in s.manifests && (s.manifests[id].status == Custody.Short || s.manifests[id].status == Custody.Disputed)
  }

  function PayeeShare(id: Word, d: Deposit, split: nat): seq<Share> {
    if split > 0 then [Share(id, d.payee, split, ByDispute)] else []
  }

  function PayerShare(id: Word, d: Deposit, split: nat): seq<Share>
    requires split <= d.amount
  {
    if split < d.amount then [Share(id, d.payer, d.amount - split, ByDispute)] else []
  }

  // ---------------------------------------------------------------- execution

  /** One contract call. On an error the world is the one before the call. */
  function Exec(c: Custody.Crypto, w: World, pending: seq<Share>, call: Call): Outcome
    decreases call, 1
  {
    match call.op
    case Fund(id, payee, value) =>
      if value == 0 then Outcome(w, Err(ZeroAmount), [])
      else if payee == ZERO_ADDRESS then Outcome(w, Err(ZeroAddress), [])
      else if id in w.escrow.deposits then Outcome(w, Err(AlreadyFunded), [])
      else Outcome(Funding(w, id, Deposit(call.sender, payee, value, Funded, call.now % TWO_64)), Ok(()), [])
    case Release(id, onPay) =>
      if !IsFunded(w, id) then Outcome(w, Err(NotFunded), [])
      else if !Custody.Releasable(w.custody, id) then Outcome(w, Err(NotReleasable), [])
      else
        var d := w.escrow.deposits[id];
        var pay := Send(c, Close(w, id, Released), pending, Share(id, d.payee, d.amount, ByRelease), onPay);
        if pay.result.Ok? then pay else Outcome(w, Err(TransferFailed), pay.log)
    case ResolveDispute(id, split, onPayee, onPayer) =>
      if call.sender != w.escrow.arbiter then Outcome(w, Err(NotArbiter), [])
      else if !IsFunded(w, id) then Outcome(w, Err(NotFunded), [])
      else if !InDispute(w.custody, id) then Outcome(w, Err(NotDisputeState), [])
      else if split > w.escrow.deposits[id].amount then Outcome(w, Err(ZeroAmount), [])
      else
        var paid := PayBoth(c, Close(w, id, Refunded), pending, call, w.escrow.deposits[id]);
        if paid.result.Ok? then Outcome(paid.world, Ok(()), paid.log) else Outcome(w, Err(TransferFailed), paid.log)
    case SetArbiter(a) =>
      if call.sender != w.escrow.owner then Outcome(w, Err(NotOwner), [])
      else if a == ZERO_ADDRESS then Outcome(w, Err(ZeroAddress), [])
      else Outcome(w.(escrow := w.escrow.(arbiter := a)), Ok(()), [])
    case TransferOwnership(o) =>
      if call.sender != w.escrow.owner then Outcome(w, Err(NotOwner), [])
      else Outcome(w.(escrow := w.escrow.(owner := o)), Ok(()), [])
    case InCustody(op) =>
      match Custody.Apply(c, w.custody, Custody.Call(call.sender, call.now, op))
      case Ok(s) => Outcome(w.(custody := s), Ok(()), [])
      case Err(e) => Outcome(w, Err(InCustodyContract(e)), [])
  }

  /** The two payments of a split, with control handed over in between. */
  function PayBoth(c: Custody.Crypto, w: World, pending: seq<Share>, call: Call, d: Deposit): Outcome
    requires call.op.ResolveDispute? && call.op.splitToPayee <= d.amount
    decreases call, 0
  {
    var ResolveDispute(id, split, onPayee, onPayer) := call.op;
    var first := SendAll(c, w, PayerShare(id, d, split) + pending, PayeeShare(id, d, split), onPayee);
    if first.result.Err? then first
    else
      var second := SendAll(c, first.world, pending, PayerShare(id, d, split), onPayer);
      Outcome(second.world, second.result, first.log + second.log)
  }

  function Funding(w: World, id: Word, d: Deposit): World {
    w.(escrow := w.escrow.(deposits := w.escrow.deposits[id := d],
                           balance := w.escrow.balance + d.amount,
                           received := w.escrow.received + d.amount))
  }

  /** `to.call{value: amount}("")`: fails for lack of balance or if the recipient fails. */
  function Send(c: Custody.Crypto, w: World, pending: seq<Share>, share: Share, script: Script): Outcome
    decreases script, 1
  {
    if w.escrow.balance < share.amount then Outcome(w, Err(TransferFailed), [])
    else
      var entered := Paid(w, share);
      var r := RunScript(c, entered, pending, script);
      var log := [Boundary(entered, pending)] + r.log;
      if r.result.Ok? then Outcome(r.world, Ok(()), log + [Boundary(r.world, pending)])
      else Outcome(w, Err(TransferFailed), log + [Boundary(w, [share] + pending)])
  }

  /** Sends at most one share; the contract skips a zero amount. */
  function SendAll(c: Custody.Crypto, w: World, pending: seq<Share>, shares: seq<Share>, script: Script): Outcome
    requires |shares| <= 1
    decreases script, 2
  {
    if |shares| == 0 then Outcome(w, Ok(()), []) else Send(c, w, pending, shares[0], script)
  }

  function RunScript(c: Custody.Crypto, w: World, pending: seq<Share>, script: Script): Outcome
    decreases script, 0
  {
    match script
    case Stop(accepts) => Outcome(w, if accepts then Ok(()) else Err(TransferFailed), [])
    case Do(call, rest) =>
      var o := Exec(c, w, pending, call);
      var r := RunScript(c, o.world, pending, rest);
      Outcome(r.world, r.result, o.log + [Boundary(o.world, pending)] + r.log)
  }

  /** A run of top-level transactions and every boundary it passes. */
  function RunTxs(c: Custody.Crypto, w: World, txs: seq<Call>): World {
    if |txs| == 0 then w else Exec(c, RunTxs(c, w, txs[..|txs| - 1]), [], txs[|txs| - 1]).world
  }

  function Boundaries(c: Custody.Crypto, w: World, txs: seq<Call>): seq<Boundary> {
    if |txs| == 0 then [Boundary(w, [])]
    else
      var o := Exec(c, RunTxs(c, w, txs[..|txs| - 1]), [], txs[|txs| - 1]);
      Boundaries(c, w, txs[..|txs| - 1]) + o.log + [Boundary(o.world, [])]
  }

  function Genesis(deployer: Address, arbiter: Address): World {
    World(Custody.Genesis(deployer), Escrow(deployer, arbiter, map[], 0, 0, []))
  }
}
