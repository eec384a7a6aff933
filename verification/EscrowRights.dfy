/**
 * Who is paid by the escrow, how much, and on whose word: the exact payments of a release and of
 * a split under any callbacks, and the callers without whom nothing of the kind can happen.
 */
module EscrowRights {
  import opened Wrappers
  import opened ByteStrings
  import opened Seqs
  import opened EscrowModel
  import opened EscrowSafety
  import Custody

  // ---------------------------------------------------------------- exact payments

  lemma SharesOfOne(share: Share)
    ensures SharesOf([share], share.id) == [share]
  {
    assert [share][1..] == [];
  }

  /** A payment that goes through adds its one share, whatever the recipient does. */
  lemma SendAddsOne(c: Custody.Crypto, w: World, pending: seq<Share>, share: Share, script: Script)
    requires Safe(w, [share] + pending) && IsClosed(w, share.id)
    requires Send(c, w, pending, share, script).result.Ok?
    ensures var o := Send(c, w, pending, share, script);
            && SharesOf(o.world.escrow.sent, share.id) == SharesOf(w.escrow.sent, share.id) + [share]
            && Safe(o.world, pending) && IsClosed(o.world, share.id)
  {
    PaidKeepsSafe(w, pending, share);
    var entered := Paid(w, share);
    RunSafe(c, entered, pending, script);
    ClosedGetsNothing(entered, RunScript(c, entered, pending, script).world, pending, share.id);
    SharesOfConcat(w.escrow.sent, [share], share.id);
    SharesOfOne(share);
  }

  lemma SendAllAdds(c: Custody.Crypto, w: World, pending: seq<Share>, shares: seq<Share>, script: Script, id: Word)
    requires |shares| <= 1 && Safe(w, shares + pending) && IsClosed(w, id) && forall s :: s in shares ==> s.id == id
    requires SendAll(c, w, pending, shares, script).result.Ok?
    ensures var o := SendAll(c, w, pending, shares, script);
            && SharesOf(o.world.escrow.sent, id) == SharesOf(w.escrow.sent, id) + shares
            && Safe(o.world, pending) && IsClosed(o.world, id)
  {
    if |shares| == 0 {
      assert shares + pending == pending;
      AppendEmpty(SharesOf(w.escrow.sent, id));
    } else {
      assert shares == [shares[0]];
      assert shares[0] in shares;
      SendAddsOne(c, w, pending, shares[0], script);
    }
  }

  lemma FundedGotNothing(w: World, pending: seq<Share>, id: Word)
    requires Safe(w, pending) && IsFunded(w, id)
    ensures SharesOf(w.escrow.sent, id) == []
  {
    PaymentsMatchDeposit(w, pending, id);
    SharesArePositive(w, pending, id);
    PositiveShares(SharesOf(w.escrow.sent, id));
  }

  lemma BothAdd(c: Custody.Crypto, w: World, pending: seq<Share>, call: Call, d: Deposit)
    requires call.op.ResolveDispute? && call.op.splitToPayee <= d.amount && IsClosed(w, call.op.id)
    requires var id, split := call.op.id, call.op.splitToPayee;
             Safe(w, PayeeShare(id, d, split) + (PayerShare(id, d, split) + pending))
    requires PayBoth(c, w, pending, call, d).result.Ok?
    ensures var id, split := call.op.id, call.op.splitToPayee;
            SharesOf(PayBoth(c, w, pending, call, d).world.escrow.sent, id)
            == SharesOf(w.escrow.sent, id) + PayeeShare(id, d, split) + PayerShare(id, d, split)
  {
    var ResolveDispute(id, split, onPayee, onPayer) := call.op;
    SendAllAdds(c, w, PayerShare(id, d, split) + pending, PayeeShare(id, d, split), onPayee, id);
    var first := SendAll(c, w, PayerShare(id, d, split) + pending, PayeeShare(id, d, split), onPayee);
    SendAllAdds(c, first.world, pending, PayerShare(id, d, split), onPayer, id);
  }

  /** A split that goes through, whatever both recipients do in between, was asked for by the
      arbiter of that moment for a funded deposit of a short or disputed manifest, and the
      payments made for the deposit are then exactly these: the stated part to its payee, the
      rest to its payer, nothing where that is zero. */
  lemma SplitPaysExactly(c: Custody.Crypto, w: World, pending: seq<Share>, call: Call)
    requires Safe(w, pending) && call.op.ResolveDispute?
    requires Exec(c, w, pending, call).result.Ok?
    ensures var ResolveDispute(id, split, _, _) := call.op;
            && call.sender == w.escrow.arbiter
            && id in w.escrow.deposits && w.escrow.deposits[id].status == Funded
            && id in w.custody.manifests
            && (w.custody.manifests[id].status == Custody.Short || w.custody.manifests[id].status == Custody.Disputed)
            && split <= w.escrow.deposits[id].amount
            && var d := w.escrow.deposits[id];
            && SharesOf(Exec(c, w, pending, call).world.escrow.sent, id)
               == (if split > 0 then [Share(id, d.payee, split, ByDispute)] else [])
                  + (if d.amount - split > 0 then [Share(id, d.payer, d.amount - split, ByDispute)] else [])
  {
    var id, split := call.op.id, call.op.splitToPayee;
    var d := w.escrow.deposits[id];
    FundedGotNothing(w, pending, id);
    DisputeOpens(w, pending, id, split);
    BothAdd(c, Close(w, id, Refunded), pending, call, d);
    SplitWritten(id, d, split);
  }

  /** The two parts written out. */
  lemma SplitWritten(id: Word, d: Deposit, split: nat)
    requires split <= d.amount
    ensures [] + PayeeShare(id, d, split) + PayerShare(id, d, split)
            == (if split > 0 then [Share(id, d.payee, split, ByDispute)] else [])
               + (if d.amount - split > 0 then [Share(id, d.payer, d.amount - split, ByDispute)] else [])
  {
    AppendEmpty(PayeeShare(id, d, split));
  }

  /** A part of zero asks nobody, and a refused part undoes everything: each recipient answers
      for its own part only. */
  lemma EachAnswersForItsPart(c: Custody.Crypto, w: World, pending: seq<Share>, call: Call, other: Script)
    requires call.op.ResolveDispute? && IsFunded(w, call.op.id)
    ensures var amount := w.escrow.deposits[call.op.id].amount;
            && (call.op.splitToPayee == 0 ==>
                  Exec(c, w, pending, call.(op := call.op.(onPayee := other))) == Exec(c, w, pending, call))
            && (call.op.splitToPayee == amount ==>
                  Exec(c, w, pending, call.(op := call.op.(onPayer := other))) == Exec(c, w, pending, call))
            && (0 < call.op.splitToPayee && call.op.onPayee == Stop(false) ==>
                  Exec(c, w, pending, call).result.Err? && Exec(c, w, pending, call).world == w)
            && (call.op.splitToPayee < amount && call.op.onPayer == Stop(false) ==>
                  Exec(c, w, pending, call).result.Err? && Exec(c, w, pending, call).world == w)
  {
    var d, split := w.escrow.deposits[call.op.id], call.op.splitToPayee;
    if split <= d.amount {
      PartsAnswer(c, Close(w, call.op.id, Refunded), pending, call, d, other);
    }
  }

  lemma PartsAnswer(c: Custody.Crypto, w: World, pending: seq<Share>, call: Call, d: Deposit, other: Script)
    requires call.op.ResolveDispute? && call.op.splitToPayee <= d.amount
    ensures call.op.splitToPayee == 0 ==>
              PayBoth(c, w, pending, call.(op := call.op.(onPayee := other)), d) == PayBoth(c, w, pending, call, d)
    ensures call.op.splitToPayee == d.amount ==>
              PayBoth(c, w, pending, call.(op := call.op.(onPayer := other)), d) == PayBoth(c, w, pending, call, d)
    ensures (0 < call.op.splitToPayee && call.op.onPayee == Stop(false))
            || (call.op.splitToPayee < d.amount && call.op.onPayer == Stop(false)) ==>
              PayBoth(c, w, pending, call, d).result.Err?
  {
    var ResolveDispute(id, split, onPayee, onPayer) := call.op;
    var first := SendAll(c, w, PayerShare(id, d, split) + pending, PayeeShare(id, d, split), onPayee);
    if 0 < split {
      Refused(c, w, PayerShare(id, d, split) + pending, Share(id, d.payee, split, ByDispute));
    }
    if split < d.amount {
      Refused(c, first.world, pending, Share(id, d.payer, d.amount - split, ByDispute));
    }
  }

  lemma Refused(c: Custody.Crypto, w: World, pending: seq<Share>, share: Share)
    ensures Send(c, w, pending, share, Stop(false)).result.Err?
  {
  }

  /** The ether an address has been sent for one manifest. */
  function ReceivedBy(shares: seq<Share>, a: Address): nat {
    if |shares| == 0 then 0 else (if shares[0].to == a then shares[0].amount else 0) + ReceivedBy(shares[1..], a)
  }

  /** So of two different parties the payee has received the stated part and the payer the rest. */
  lemma SplitReceived(c: Custody.Crypto, w: World, pending: seq<Share>, call: Call)
    requires Safe(w, pending) && call.op.ResolveDispute? && Exec(c, w, pending, call).result.Ok?
    requires call.op.id in w.escrow.deposits
             && w.escrow.deposits[call.op.id].payee != w.escrow.deposits[call.op.id].payer
    ensures var ResolveDispute(id, split, _, _) := call.op;
            var d, shares := w.escrow.deposits[id], SharesOf(Exec(c, w, pending, call).world.escrow.sent, id);
            ReceivedBy(shares, d.payee) == split && ReceivedBy(shares, d.payer) + split == d.amount
  {
    SplitPaysExactly(c, w, pending, call);
    var id, split := call.op.id, call.op.splitToPayee;
    var d := w.escrow.deposits[id];
    var first := if split > 0 then [Share(id, d.payee, split, ByDispute)] else [];
    var second := if d.amount - split > 0 then [Share(id, d.payer, d.amount - split, ByDispute)] else [];
    TwoReceived(first, second, d.payee);
    TwoReceived(first, second, d.payer);
  }

  lemma TwoReceived(first: seq<Share>, second: seq<Share>, a: Address)
    requires |first| <= 1 && |second| <= 1
    ensures ReceivedBy(first + second, a)
            == (if |first| == 1 && first[0].to == a then first[0].amount else 0)
               + (if |second| == 1 && second[0].to == a then second[0].amount else 0)
  {
    assert |second| == 1 ==> second[1..] == [];
    if |first| == 0 {
      assert first + second == second;
    } else {
      assert (first + second)[1..] == second;
    }
  }

  /** A release that goes through was for a funded deposit of a manifest delivered in full, and
      has paid the whole deposit to its payee, once, whoever called. */
  lemma ReleasePaysExactly(c: Custody.Crypto, w: World, pending: seq<Share>, call: Call)
    requires Safe(w, pending) && call.op.Release?
    requires Exec(c, w, pending, call).result.Ok?
    ensures var id := call.op.id;
            && id in w.escrow.deposits && w.escrow.deposits[id].status == Funded
            && id in w.custody.manifests && w.custody.manifests[id].status == Custody.Delivered
            && w.custody.manifests[id].deliveredCount == w.custody.manifests[id].pieceCount
            && var d := w.escrow.deposits[id];
            SharesOf(Exec(c, w, pending, call).world.escrow.sent, id) == [Share(id, d.payee, d.amount, ByRelease)]
  {
    var Release(id, onPay) := call.op;
    var d := w.escrow.deposits[id];
    FundedGotNothing(w, pending, id);
    ReleaseOpens(w, pending, id);
    SendAddsOne(c, Close(w, id, Released), pending, Share(id, d.payee, d.amount, ByRelease), onPay);
  }

  /** A deposit is made exactly with some ether, for a real payee, once per manifest; it names
      the sender as payer and is held by the contract. */
  lemma FundedIff(c: Custody.Crypto, w: World, pending: seq<Share>, call: Call)
    requires call.op.Fund?
    ensures var Fund(id, payee, value) := call.op;
            var o := Exec(c, w, pending, call);
            && (o.result.Ok? <==> value > 0 && payee != 0 && id !in w.escrow.deposits)
            && (o.result.Ok? ==>
                  && id in o.world.escrow.deposits
                  && o.world.escrow.deposits[id]
                     == Deposit(call.sender, payee, value, Funded, call.now % 0x1_0000_0000_0000_0000)
                  && o.world.escrow.balance == w.escrow.balance + value
                  && o.world.escrow.sent == w.escrow.sent)
            && (o.result.Err? ==> o.world == w)
  {
  }

  /** The arbiter is set exactly by the owner, to a real address; the owner hands over to anyone. */
  lemma AdministeredIff(c: Custody.Crypto, w: World, pending: seq<Share>, call: Call)
    requires call.op.SetArbiter? || call.op.TransferOwnership?
    ensures var o := Exec(c, w, pending, call);
            && (o.result.Ok? <==> call.sender == w.escrow.owner && (call.op.SetArbiter? ==> call.op.newArbiter != 0))
            && (o.result.Ok? ==>
                  && o.world.escrow.arbiter == (if call.op.SetArbiter? then call.op.newArbiter else w.escrow.arbiter)
                  && o.world.escrow.owner == (if call.op.SetArbiter? then w.escrow.owner else call.op.newOwner))
  {
  }

  // ---------------------------------------------------------------- on whose word

  /** Everyone who sends a call anywhere in this one, callbacks of callbacks included. */
  function Senders(call: Call): set<Address>
    decreases call, 0
  {
    {call.sender} +
    match call.op
    case Release(_, onPay) => SendersIn(onPay)
    case ResolveDispute(_, _, onPayee, onPayer) => SendersIn(onPayee) + SendersIn(onPayer)
    case _ => {}
  }

  function SendersIn(script: Script): set<Address>
    decreases script, 0
  {
    match script
    case Stop(_) => {}
    case Do(call, rest) => Senders(call) + SendersIn(rest)
  }

  /** What only those three can change: who they are, and which deposits are split. */
  ghost predicate SameRule(w: World, w': World) {
    && w'.escrow.owner == w.escrow.owner && w'.escrow.arbiter == w.escrow.arbiter
    && (forall id :: id in w'.escrow.deposits && w'.escrow.deposits[id].status == Refunded ==>
          id in w.escrow.deposits && w.escrow.deposits[id].status == Refunded)
  }

  /** What only the custody contract's owner and platforms can change. */
  ghost predicate SameCustody(w: World, w': World) {
    w'.custody == w.custody
  }

  lemma {:induction false} CallNeedsAuthority(c: Custody.Crypto, w: World, pending: seq<Share>, call: Call)
    ensures w.escrow.owner !in Senders(call) && w.escrow.arbiter !in Senders(call) ==>
              SameRule(w, Exec(c, w, pending, call).world)
    ensures w.custody.owner !in Senders(call) && w.custody.platforms !! Senders(call) ==>
              SameCustody(w, Exec(c, w, pending, call).world)
    decreases call, 2
  {
    match call.op
    case Release(id, onPay) =>
      if IsFunded(w, id) && Custody.Releasable(w.custody, id) {
        var d := w.escrow.deposits[id];
        SendNeedsAuthority(c, Close(w, id, Released), pending, Share(id, d.payee, d.amount, ByRelease), onPay);
      }
    case ResolveDispute(id, split, onPayee, onPayer) => SplitNeedsAuthority(c, w, pending, call);
    case InCustody(op) => CustodyNeedsAuthority(c, w, pending, call);
    case _ =>
  }

  lemma CustodyNeedsAuthority(c: Custody.Crypto, w: World, pending: seq<Share>, call: Call)
    requires call.op.InCustody?
    ensures call.sender != w.custody.owner && call.sender !in w.custody.platforms ==>
              SameCustody(w, Exec(c, w, pending, call).world)
    ensures SameRule(w, Exec(c, w, pending, call).world)
  {
  }

  lemma {:induction false} SplitNeedsAuthority(c: Custody.Crypto, w: World, pending: seq<Share>, call: Call)
    requires call.op.ResolveDispute?
    ensures w.escrow.owner !in Senders(call) && w.escrow.arbiter !in Senders(call) ==>
              SameRule(w, Exec(c, w, pending, call).world)
    ensures w.custody.owner !in Senders(call) && w.custody.platforms !! Senders(call) ==>
              SameCustody(w, Exec(c, w, pending, call).world)
    decreases call, 1
  {
    var id, split := call.op.id, call.op.splitToPayee;
    if call.sender == w.escrow.arbiter && IsFunded(w, id) && InDispute(w.custody, id)
       && split <= w.escrow.deposits[id].amount {
      BothNeedAuthority(c, Close(w, id, Refunded), pending, call, w.escrow.deposits[id]);
    }
  }

  lemma {:induction false} BothNeedAuthority(c: Custody.Crypto, w: World, pending: seq<Share>, call: Call, d: Deposit)
    requires call.op.ResolveDispute? && call.op.splitToPayee <= d.amount
    ensures w.custody.owner !in Senders(call) && w.custody.platforms !! Senders(call) ==>
              SameCustody(w, PayBoth(c, w, pending, call, d).world)
    decreases call, 0
  {
    var ResolveDispute(id, split, onPayee, onPayer) := call.op;
    var payee, payer := PayeeShare(id, d, split), PayerShare(id, d, split);
    if |payee| > 0 {
      SendNeedsAuthority(c, w, payer + pending, payee[0], onPayee);
    }
    var first := SendAll(c, w, payer + pending, payee, onPayee);
    if first.result.Ok? && |payer| > 0 {
      SendNeedsAuthority(c, first.world, pending, payer[0], onPayer);
    }
  }

  lemma {:induction false} SendNeedsAuthority(c: Custody.Crypto, w: World, pending: seq<Share>, share: Share, script: Script)
    ensures w.escrow.owner !in SendersIn(script) && w.escrow.arbiter !in SendersIn(script) ==>
              SameRule(w, Send(c, w, pending, share, script).world)
    ensures w.custody.owner !in SendersIn(script) && w.custody.platforms !! SendersIn(script) ==>
              SameCustody(w, Send(c, w, pending, share, script).world)
    decreases script, 1
  {
    if share.amount <= w.escrow.balance {
      ScriptNeedsAuthority(c, Paid(w, share), pending, script);
    }
  }

  lemma {:induction false} ScriptNeedsAuthority(c: Custody.Crypto, w: World, pending: seq<Share>, script: Script)
    ensures w.escrow.owner !in SendersIn(script) && w.escrow.arbiter !in SendersIn(script) ==>
              SameRule(w, RunScript(c, w, pending, script).world)
    ensures w.custody.owner !in SendersIn(script) && w.custody.platforms !! SendersIn(script) ==>
              SameCustody(w, RunScript(c, w, pending, script).world)
    decreases script, 0
  {
    match script
    case Stop(_) =>
    case Do(call, rest) =>
      CallNeedsAuthority(c, w, pending, call);
      ScriptNeedsAuthority(c, Exec(c, w, pending, call).world, pending, rest);
  }

  /** Over any run of transactions with any callbacks: without the owner and the arbiter nobody
      splits a deposit or changes who they are, and without the custody contract's owner and
      platforms no manifest and no right there changes. */
  lemma {:induction false} RunNeedsAuthority(c: Custody.Crypto, w: World, txs: seq<Call>)
    ensures (forall tx :: tx in txs ==> w.escrow.owner !in Senders(tx) && w.escrow.arbiter !in Senders(tx)) ==>
              SameRule(w, RunTxs(c, w, txs))
    ensures (forall tx :: tx in txs ==> w.custody.owner !in Senders(tx) && w.custody.platforms !! Senders(tx)) ==>
              SameCustody(w, RunTxs(c, w, txs))
  {
    if |txs| > 0 {
      var init, last := txs[..|txs| - 1], txs[|txs| - 1];
      assert txs == init + [last];
      RunNeedsAuthority(c, w, init);
      CallNeedsAuthority(c, RunTxs(c, w, init), [], last);
    }
  }
}
