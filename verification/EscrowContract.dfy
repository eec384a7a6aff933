/**
 * The Escrow contract as an object beside the custody contract it reads. Methods check,
 * update fields and hand control to the recipient mid-way, as the source does; a failed
 * payment rolls both contracts back. Each method is the corresponding step of EscrowModel.
 */
module EscrowContract {
  import opened Wrappers
  import opened ByteStrings
  import opened EscrowModel
  import Custody

  class EscrowObject {
    const custody: Custody.CustodyManifest
    var owner: Address
    var arbiter: Address
    var deposits: map<Word, Deposit>
    var balance: nat
    var received: nat
    var sent: seq<Share>

    ghost function View(): World
      reads this, custody
    {
      World(custody.View(), Escrow(owner, arbiter, deposits, balance, received, sent))
    }

    constructor (custody: Custody.CustodyManifest, deployer: Address, arbiter: Address)
      requires arbiter != ZERO_ADDRESS
      ensures View() == World(custody.View(), Escrow(deployer, arbiter, map[], 0, 0, []))
      ensures this.custody == custody
    {
      this.custody := custody;
      owner, this.arbiter := deployer, arbiter;
      deposits, balance, received, sent := map[], 0, 0, [];
    }

    method Snapshot() returns (w: World)
      ensures w == View()
    {
      var c := custody.Snapshot();
      w := World(c, Escrow(owner, arbiter, deposits, balance, received, sent));
    }

    /** What a revert does to both contracts. */
    method Restore(w: World)
      modifies this, custody
      ensures View() == w
    {
      custody.Restore(w.custody);
      owner, arbiter := w.escrow.owner, w.escrow.arbiter;
      deposits, balance := w.escrow.deposits, w.escrow.balance;
      received, sent := w.escrow.received, w.escrow.sent;
    }

    method Fund(sender: Address, now: nat, id: Word, payee: Address, value: Word, ghost pending: seq<Share>)
      returns (r: Result<(), Error>)
      modifies this
      ensures Performs(custody.crypto, old(View()), pending, Call(sender, now, Op.Fund(id, payee, value)), View(), r)
    {
      if value == 0 { return Err(ZeroAmount); }
      if payee == ZERO_ADDRESS { return Err(ZeroAddress); }
      if id in deposits { return Err(AlreadyFunded); }
      deposits := deposits[id := Deposit(sender, payee, value, Funded, now % TWO_64)];
      balance, received := balance + value, received + value;
      return Ok(());
    }

    method Release(sender: Address, now: nat, id: Word, onPay: Script, ghost pending: seq<Share>)
      returns (r: Result<(), Error>)
      modifies this, custody
      ensures Performs(custody.crypto, old(View()), pending, Call(sender, now, Op.Release(id, onPay)), View(), r)
      decreases onPay, 3
    {
      if id !in deposits || deposits[id].status != Funded { return Err(NotFunded); }
      var releasable := custody.IsReleasable(id);
      if !releasable { return Err(NotReleasable); }
      var d := deposits[id];
      var before := Snapshot();
      deposits := deposits[id := d.(status := Released)];
      assert View() == Close(before, id, Released);
      var ok := Pay(Share(id, d.payee, d.amount, ByRelease), onPay, pending);
      if !ok {
        Restore(before);
        return Err(TransferFailed);
      }
      return Ok(());
    }

    method ResolveDispute(sender: Address, now: nat, id: Word, splitToPayee: Word, onPayee: Script, onPayer: Script,
                          ghost pending: seq<Share>)
      returns (r: Result<(), Error>)
      modifies this, custody
      ensures Performs(custody.crypto, old(View()), pending,
                       Call(sender, now, Op.ResolveDispute(id, splitToPayee, onPayee, onPayer)), View(), r)
      decreases Op.ResolveDispute(id, splitToPayee, onPayee, onPayer), 3
    {
      if sender != arbiter { return Err(NotArbiter); }
      if id !in deposits || deposits[id].status != Funded { return Err(NotFunded); }
      if id !in custody.manifests
         || (custody.manifests[id].status != Custody.Short && custody.manifests[id].status != Custody.Disputed) {
        return Err(NotDisputeState);
      }
      var d := deposits[id];
      if splitToPayee > d.amount { return Err(ZeroAmount); }
      var before := Snapshot();
      deposits := deposits[id := d.(status := Refunded)];
      assert View() == Close(before, id, Refunded);
      var ok := PayBoth(Call(sender, now, Op.ResolveDispute(id, splitToPayee, onPayee, onPayer)), d, pending);
      if !ok {
        Restore(before);
        return Err(TransferFailed);
      }
      return Ok(());
    }

    /** The two payments of a split. A failure leaves the rollback to the caller. */
    method PayBoth(call: Call, d: Deposit, ghost pending: seq<Share>) returns (ok: bool)
      requires call.op.ResolveDispute? && call.op.splitToPayee <= d.amount
      modifies this, custody
      ensures var o := EscrowModel.PayBoth(custody.crypto, old(View()), pending, call, d);
              ok == o.result.Ok? && (ok ==> View() == o.world)
      decreases call.op, 2
    {
      var ResolveDispute(id, split, onPayee, onPayer) := call.op;
      ok := PayPart(Share(id, d.payee, split, ByDispute), onPayee, PayerShare(id, d, split) + pending);
      if ok {
        ok := PayPart(Share(id, d.payer, d.amount - split, ByDispute), onPayer, pending);
      }
    }

    /** One part of a split; a zero amount is skipped. */
    method PayPart(share: Share, script: Script, ghost pending: seq<Share>) returns (ok: bool)
      modifies this, custody
      ensures var o := SendAll(custody.crypto, old(View()), pending, if share.amount > 0 then [share] else [], script);
              View() == o.world && ok == o.result.Ok?
      decreases script, 2
    {
      ok := true;
      if share.amount > 0 {
        ok := Pay(share, script, pending);
      }
    }

    /** A low-level call with value: the money moves, the recipient runs, and if it fails
        everything it did is undone. */
    method Pay(share: Share, script: Script, ghost pending: seq<Share>) returns (ok: bool)
      modifies this, custody
      ensures var o := Send(custody.crypto, old(View()), pending, share, script);
              View() == o.world && ok == o.result.Ok?
      decreases script, 1
    {
      if balance < share.amount { return false; }
      var before := Snapshot();
      balance, sent := balance - share.amount, sent + [share];
      assert View() == Paid(before, share);
      ok := RunRecipient(script, pending);
      if !ok {
        Restore(before);
      }
    }

    method RunRecipient(script: Script, ghost pending: seq<Share>) returns (ok: bool)
      modifies this, custody
      ensures var o := RunScript(custody.crypto, old(View()), pending, script);
              View() == o.world && ok == o.result.Ok?
      decreases script, 0
    {
      match script
      case Stop(accepts) => ok := accepts;
      case Do(call, rest) =>
        var _ := Execute(call, pending);
        ok := RunRecipient(rest, pending);
    }

    method Execute(call: Call, ghost pending: seq<Share>) returns (r: Result<(), Error>)
      modifies this, custody
      ensures Performs(custody.crypto, old(View()), pending, call, View(), r)
      decreases call, 4
    {
      var sender, now := call.sender, call.now;
      match call.op
      case Fund(id, payee, value) => r := Fund(sender, now, id, payee, value, pending);
      case Release(id, onPay) => r := Release(sender, now, id, onPay, pending);
      case ResolveDispute(id, split, onPayee, onPayer) =>
        r := ResolveDispute(sender, now, id, split, onPayee, onPayer, pending);
      case SetArbiter(a) =>
        if sender != owner { return Err(NotOwner); }
        if a == ZERO_ADDRESS { return Err(ZeroAddress); }
        arbiter := a;
        r := Ok(());
      case TransferOwnership(o) =>
        if sender != owner { return Err(NotOwner); }
        owner := o;
        r := Ok(());
      case InCustody(op) =>
        var x := custody.Execute(Custody.Call(sender, now, op));
        r := if x.Ok? then Ok(()) else Err(InCustodyContract(x.error));
    }
  }

  /** `after` and `r` are the new joint state and the outcome of `call`. */
  ghost predicate Performs(c: Custody.Crypto, before: World, pending: seq<Share>, call: Call,
                           after: World, r: Result<(), Error>)
  {
    var o := Exec(c, before, pending, call);
    after == o.world && r == o.result
  }
}
