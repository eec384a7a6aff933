/**
 * Solvency and exactly-once payment of the escrow at every call boundary of every run,
 * under re-entrant recipients.
 */
module EscrowSafety {
  import opened ByteStrings
  import opened EscrowModel
  import opened Seqs
  import Custody

  // ---------------------------------------------------------------- sums

  function Total(shares: seq<Share>): nat {
    if |shares| == 0 then 0 else shares[0].amount + Total(shares[1..])
  }

  function SharesOf(shares: seq<Share>, id: Word): seq<Share> {
    if |shares| == 0 then []
    else if shares[0].id == id then [shares[0]] + SharesOf(shares[1..], id)
    else SharesOf(shares[1..], id)
  }

  lemma {:induction false} TotalConcat(a: seq<Share>, b: seq<Share>)
    ensures Total(a + b) == Total(a) + Total(b)
  {
    if |a| == 0 {
      assert a + b == b;
    } else {
      TotalConcat(a[1..], b);
      assert (a + b)[0] == a[0] && (a + b)[1..] == a[1..] + b;
    }
  }

  lemma {:induction false} SharesOfConcat(a: seq<Share>, b: seq<Share>, id: Word)
    ensures SharesOf(a + b, id) == SharesOf(a, id) + SharesOf(b, id)
  {
    if |a| == 0 {
      assert a + b == b;
    } else {
      SharesOfConcat(a[1..], b, id);
      assert (a + b)[0] == a[0] && (a + b)[1..] == a[1..] + b;
      AppendAssoc([a[0]], SharesOf(a[1..], id), SharesOf(b, id));
    }
  }

  function FundedAmount(d: Deposit): nat {
    if d.status == Funded then d.amount else 0
  }

  ghost function AnyKey(m: map<Word, Deposit>): (id: Word)
    requires |m| > 0
    ensures id in m
  {
    var id :| id in m;
    id
  }

  /** The deposits still owed to someone. */
  ghost function FundedTotal(m: map<Word, Deposit>): nat {
    if |m| == 0 then 0 else FundedAmount(m[AnyKey(m)]) + FundedTotal(m - {AnyKey(m)})
  }

  lemma {:induction false} FundedTotalRemove(m: map<Word, Deposit>, id: Word)
    requires id in m
    ensures FundedTotal(m) == FundedAmount(m[id]) + FundedTotal(m - {id})
    decreases |m|
  {
    var k := AnyKey(m);
    if k != id {
      FundedTotalRemove(m - {k}, id);
      FundedTotalRemove(m - {id}, k);
      RemoveTwo(m, k, id);
    }
  }

  lemma RemoveTwo(m: map<Word, Deposit>, j: Word, k: Word)
    ensures m - {j} - {k} == m - {k} - {j}
  {
  }

  lemma FundedTotalUpdate(m: map<Word, Deposit>, id: Word, d: Deposit)
    ensures FundedTotal(m[id := d])
            == FundedTotal(m) + FundedAmount(d) - (if id in m then FundedAmount(m[id]) else 0)
  {
    FundedTotalRemove(m[id := d], id);
    if id in m {
      FundedTotalRemove(m, id);
      assert m[id := d] - {id} == m - {id};
    } else {
      assert m[id := d] - {id} == m;
    }
  }

  // ---------------------------------------------------------------- the invariant

  function DisputeShares(id: Word, d: Deposit, split: nat): seq<Share>
    requires split <= d.amount
  {
    PayeeShare(id, d, split) + PayerShare(id, d, split)
  }

  /** The payments, made or owed, that a deposit's status calls for: none while it is
      funded, one to the payee when released, the two parts of a split when refunded. */
  ghost predicate Settled(m: map<Word, Deposit>, id: Word, shares: seq<Share>) {
    if id !in m || m[id].status == Funded then shares == []
    else if m[id].status == Released then shares == [Share(id, m[id].payee, m[id].amount, ByRelease)]
    else exists split: nat :: split <= m[id].amount && shares == DisputeShares(id, m[id], split)
  }

  /** Why a deposit may be closed: released only against a fully counted, fully signed
      delivery, split only for a short or disputed one. */
  predicate Justified(s: Custody.State, id: Word, status: DepositStatus) {
    status != Funded ==>
      && id in s.manifests
      && (status == Released ==>
            var m := s.manifests[id];
            && m.loaderSigned && m.driverSigned && m.receiverSigned && m.deliveredCount == m.pieceCount
            && (m.status == Custody.Delivered || m.status == Custody.Disputed))
      && (status == Refunded ==> InDispute(s, id))
  }

  ghost predicate Solvent(w: World, pending: seq<Share>) {
    && w.escrow.balance + Total(w.escrow.sent) == w.escrow.received
    && w.escrow.balance == FundedTotal(w.escrow.deposits) + Total(pending)
  }

  ghost predicate AllSettled(w: World, pending: seq<Share>) {
    forall id :: Settled(w.escrow.deposits, id, SharesOf(w.escrow.sent + pending, id))
  }

  ghost predicate AllJustified(w: World) {
    && Custody.AllConsistent(w.custody)
    && w.escrow.arbiter != ZERO_ADDRESS
    && forall id :: id in w.escrow.deposits ==>
         && w.escrow.deposits[id].amount > 0 && w.escrow.deposits[id].payee != ZERO_ADDRESS
         && Justified(w.custody, id, w.escrow.deposits[id].status)
  }

  ghost predicate Safe(w: World, pending: seq<Share>) {
    Solvent(w, pending) && AllSettled(w, pending) && AllJustified(w)
  }

  predicate SameTerms(d: Deposit, d': Deposit) {
    d'.payer == d.payer && d'.payee == d.payee && d'.amount == d.amount && d'.fundedAt == d.fundedAt
  }

  /** Nothing is forgotten: deposits keep their terms, a closed one never changes, money
      sent stays sent, manifests evolve as the custody contract allows. */
  ghost predicate Advances(w: World, w': World) {
    && Custody.Evolved(w.custody, w'.custody)
    && w.escrow.sent <= w'.escrow.sent
    && forall id :: id in w.escrow.deposits ==>
         && id in w'.escrow.deposits
         && SameTerms(w.escrow.deposits[id], w'.escrow.deposits[id])
         && (w.escrow.deposits[id].status != Funded ==> w'.escrow.deposits[id] == w.escrow.deposits[id])
  }

  lemma AdvancesReflexive(w: World)
    ensures Advances(w, w)
  {
  }

  lemma AdvancesTransitive(w: World, w': World, w'': World)
    requires Advances(w, w') && Advances(w', w'')
    ensures Advances(w, w'')
  {
    forall id | id in w.custody.manifests
      ensures id in w''.custody.manifests && Custody.Follows(w.custody.manifests[id], w''.custody.manifests[id])
    {
      Custody.FollowsTransitive(w.custody.manifests[id], w'.custody.manifests[id], w''.custody.manifests[id]);
    }
  }

  // ---------------------------------------------------------------- one step at a time

  /** Closing a funded deposit turns its amount into the shares now owed. */
  lemma CloseKeepsSolvent(w: World, pending: seq<Share>, id: Word, status: DepositStatus, owed: seq<Share>)
    requires Solvent(w, pending) && IsFunded(w, id) && status != Funded
    requires Total(owed) == w.escrow.deposits[id].amount
    ensures Solvent(Close(w, id, status), owed + pending)
  {
    FundedTotalUpdate(w.escrow.deposits, id, w.escrow.deposits[id].(status := status));
    TotalConcat(owed, pending);
  }

  lemma {:induction false} ForeignShares(shares: seq<Share>, id: Word, other: Word)
    requires forall s :: s in shares ==> s.id == id
    requires other != id
    ensures SharesOf(shares, other) == [] && SharesOf(shares, id) == shares
  {
    if |shares| > 0 {
      assert shares[0] in shares;
      ForeignShares(shares[1..], id, other);
      assert shares == [shares[0]] + shares[1..];
    }
  }

  lemma CloseKeepsSettled(w: World, pending: seq<Share>, id: Word, status: DepositStatus, owed: seq<Share>)
    requires AllSettled(w, pending) && IsFunded(w, id)
    requires forall s :: s in owed ==> s.id == id
    requires Settled(Close(w, id, status).escrow.deposits, id, owed)
    ensures AllSettled(Close(w, id, status), owed + pending)
  {
    var w' := Close(w, id, status);
    forall k ensures Settled(w'.escrow.deposits, k, SharesOf(w'.escrow.sent + (owed + pending), k)) {
      assert Settled(w.escrow.deposits, k, SharesOf(w.escrow.sent + pending, k));
      SharesOfConcat(w.escrow.sent, pending, k);
      SharesOfConcat(w.escrow.sent, owed + pending, k);
      SharesOfConcat(owed, pending, k);
      if k == id {
        ForeignShares(owed, id, if id == 0 then 1 else 0);
        AppendEmpty(owed);
      } else {
        ForeignShares(owed, id, k);
      }
    }
  }

  /** Handing over the front share moves it from owed to sent and changes nothing else. */
  lemma PaidKeepsSafe(w: World, pending: seq<Share>, share: Share)
    requires Safe(w, [share] + pending)
    ensures share.amount <= w.escrow.balance
    ensures Safe(Paid(w, share), pending)
  {
    TotalConcat([share], pending);
    assert [share][1..] == [];
    TotalConcat(w.escrow.sent, [share]);
    AppendAssoc(w.escrow.sent, [share], pending);
    var w' := Paid(w, share);
    forall id ensures Settled(w'.escrow.deposits, id, SharesOf(w'.escrow.sent + pending, id)) {
      assert Settled(w.escrow.deposits, id, SharesOf(w.escrow.sent + ([share] + pending), id));
    }
  }

  lemma FundingKeepsSafe(w: World, pending: seq<Share>, id: Word, d: Deposit)
    requires Safe(w, pending) && id !in w.escrow.deposits
    requires d.status == Funded && d.amount > 0 && d.payee != ZERO_ADDRESS
    ensures Safe(Funding(w, id, d), pending) && Advances(w, Funding(w, id, d))
  {
    FundedTotalUpdate(w.escrow.deposits, id, d);
    FundingKeepsSettled(w, pending, id, d);
    FundingKeepsJustified(w, id, d);
  }

  lemma FundingKeepsSettled(w: World, pending: seq<Share>, id: Word, d: Deposit)
    requires AllSettled(w, pending) && id !in w.escrow.deposits && d.status == Funded
    ensures AllSettled(Funding(w, id, d), pending)
  {
    var w' := Funding(w, id, d);
    forall k ensures Settled(w'.escrow.deposits, k, SharesOf(w'.escrow.sent + pending, k)) {
      assert Settled(w.escrow.deposits, k, SharesOf(w.escrow.sent + pending, k));
    }
  }

  lemma FundingKeepsJustified(w: World, id: Word, d: Deposit)
    requires AllJustified(w) && id !in w.escrow.deposits
    requires d.status == Funded && d.amount > 0 && d.payee != ZERO_ADDRESS
    ensures AllJustified(Funding(w, id, d)) && Advances(w, Funding(w, id, d))
  {
  }

  lemma CustodyKeepsSafe(c: Custody.Crypto, w: World, pending: seq<Share>, call: Custody.Call)
    requires Safe(w, pending)
    ensures var w' := w.(custody := Custody.Step(c, w.custody, call));
            Safe(w', pending) && Advances(w, w')
  {
    Custody.StepKeepsConsistent(c, w.custody, call);
    var s' := Custody.Step(c, w.custody, call);
    forall id | id in w.escrow.deposits ensures Justified(s', id, w.escrow.deposits[id].status) {
      JustifiedStays(w.custody, s', id, w.escrow.deposits[id].status);
    }
    var w' := w.(custody := s');
    forall id ensures Settled(w'.escrow.deposits, id, SharesOf(w'.escrow.sent + pending, id)) {
      assert Settled(w.escrow.deposits, id, SharesOf(w.escrow.sent + pending, id));
    }
  }

  lemma JustifiedStays(s: Custody.State, s': Custody.State, id: Word, status: DepositStatus)
    requires Justified(s, id, status) && Custody.AllConsistent(s) && Custody.AllConsistent(s')
    requires Custody.Evolved(s, s')
    ensures Justified(s', id, status)
  {
    if status != Funded {
      assert Custody.Follows(s.manifests[id], s'.manifests[id]);
      assert Custody.Consistent(s'.manifests[id]);
    }
  }

  lemma ReleaseOpens(w: World, pending: seq<Share>, id: Word)
    requires Safe(w, pending) && IsFunded(w, id) && Custody.Releasable(w.custody, id)
    ensures var d := w.escrow.deposits[id];
            var w' := Close(w, id, Released);
            Safe(w', [Share(id, d.payee, d.amount, ByRelease)] + pending) && Advances(w, w')
  {
    var d := w.escrow.deposits[id];
    var owed := [Share(id, d.payee, d.amount, ByRelease)];
    assert owed[1..] == [];
    CloseKeepsSolvent(w, pending, id, Released, owed);
    CloseKeepsSettled(w, pending, id, Released, owed);
    assert Custody.Consistent(w.custody.manifests[id]);
  }

  lemma DisputeTotal(id: Word, d: Deposit, split: nat)
    requires split <= d.amount
    ensures Total(DisputeShares(id, d, split)) == d.amount
    ensures forall s :: s in DisputeShares(id, d, split) ==> s.id == id
  {
    TotalConcat(PayeeShare(id, d, split), PayerShare(id, d, split));
    OneShare(PayeeShare(id, d, split));
    OneShare(PayerShare(id, d, split));
  }

  lemma OneShare(shares: seq<Share>)
    requires |shares| <= 1
    ensures Total(shares) == if |shares| == 0 then 0 else shares[0].amount
  {
  }

  lemma DisputeOpens(w: World, pending: seq<Share>, id: Word, split: nat)
    requires Safe(w, pending) && IsFunded(w, id) && InDispute(w.custody, id)
    requires split <= w.escrow.deposits[id].amount
    ensures var d := w.escrow.deposits[id];
            var w' := Close(w, id, Refunded);
            Safe(w', PayeeShare(id, d, split) + (PayerShare(id, d, split) + pending)) && Advances(w, w')
  {
    var d := w.escrow.deposits[id];
    var owed := DisputeShares(id, d, split);
    var w' := Close(w, id, Refunded);
    DisputeTotal(id, d, split);
    assert DisputeShares(id, w'.escrow.deposits[id], split) == owed;
    CloseKeepsSolvent(w, pending, id, Refunded, owed);
    CloseKeepsSettled(w, pending, id, Refunded, owed);
    AppendAssoc(PayeeShare(id, d, split), PayerShare(id, d, split), pending);
  }

  // ---------------------------------------------------------------- under re-entrancy

  ghost predicate LogSafe(log: seq<Boundary>) {
    forall b :: b in log ==> Safe(b.world, b.pending)
  }

  lemma {:induction false} ExecSafe(c: Custody.Crypto, w: World, pending: seq<Share>, call: Call)
    requires Safe(w, pending)
    ensures var o := Exec(c, w, pending, call);
            Safe(o.world, pending) && Advances(w, o.world) && LogSafe(o.log)
    decreases call, 3
  {
    AdvancesReflexive(w);
    match call.op
    case Fund(id, payee, value) =>
      if value != 0 && payee != ZERO_ADDRESS && id !in w.escrow.deposits {
        FundingKeepsSafe(w, pending, id, Deposit(call.sender, payee, value, Funded, call.now % TWO_64));
      }
    case Release(id, onPay) => ReleaseSafe(c, w, pending, id, onPay, call);
    case ResolveDispute(id, split, onPayee, onPayer) => ResolveSafe(c, w, pending, call);
    case SetArbiter(a) => AdminSafe(w, Exec(c, w, pending, call).world, pending);
    case TransferOwnership(o) => AdminSafe(w, Exec(c, w, pending, call).world, pending);
    case InCustody(op) => CustodyKeepsSafe(c, w, pending, Custody.Call(call.sender, call.now, op));
  }

  lemma AdminSafe(w: World, w': World, pending: seq<Share>)
    requires Safe(w, pending)
    requires w' == w.(escrow := w.escrow.(owner := w'.escrow.owner, arbiter := w'.escrow.arbiter))
    requires w'.escrow.arbiter != ZERO_ADDRESS
    ensures Safe(w', pending) && Advances(w, w')
  {
    forall id ensures Settled(w'.escrow.deposits, id, SharesOf(w'.escrow.sent + pending, id)) {
      assert Settled(w.escrow.deposits, id, SharesOf(w.escrow.sent + pending, id));
    }
  }

  lemma {:induction false} ReleaseSafe(
      c: Custody.Crypto, w: World, pending: seq<Share>, id: Word, onPay: Script, call: Call)
    requires Safe(w, pending) && call.op == Release(id, onPay)
    ensures var o := Exec(c, w, pending, call);
            Safe(o.world, pending) && Advances(w, o.world) && LogSafe(o.log)
    decreases call, 0
  {
    AdvancesReflexive(w);
    if IsFunded(w, id) && Custody.Releasable(w.custody, id) {
      var d := w.escrow.deposits[id];
      var w1 := Close(w, id, Released);
      ReleaseOpens(w, pending, id);
      SendSafe(c, w1, pending, Share(id, d.payee, d.amount, ByRelease), onPay);
      AdvancesTransitive(w, w1, Send(c, w1, pending, Share(id, d.payee, d.amount, ByRelease), onPay).world);
    }
  }

  lemma {:induction false} ResolveSafe(c: Custody.Crypto, w: World, pending: seq<Share>, call: Call)
    requires Safe(w, pending) && call.op.ResolveDispute?
    ensures var o := Exec(c, w, pending, call);
            Safe(o.world, pending) && Advances(w, o.world) && LogSafe(o.log)
    decreases call, 2
  {
    AdvancesReflexive(w);
    var id, split := call.op.id, call.op.splitToPayee;
    if IsFunded(w, id) && InDispute(w.custody, id) && split <= w.escrow.deposits[id].amount {
      SplitSafe(c, w, pending, call);
    }
  }

  lemma {:induction false} SplitSafe(c: Custody.Crypto, w: World, pending: seq<Share>, call: Call)
    requires Safe(w, pending) && call.op.ResolveDispute? && IsFunded(w, call.op.id) && InDispute(w.custody, call.op.id)
    requires call.op.splitToPayee <= w.escrow.deposits[call.op.id].amount
    ensures var o := PayBoth(c, Close(w, call.op.id, Refunded), pending, call, w.escrow.deposits[call.op.id]);
            && (o.result.Ok? ==> Safe(o.world, pending))
            && Advances(w, o.world) && LogSafe(o.log)
    decreases call, 1
  {
    var id, d := call.op.id, w.escrow.deposits[call.op.id];
    var w1 := Close(w, id, Refunded);
    DisputeOpens(w, pending, id, call.op.splitToPayee);
    BothSafe(c, w1, pending, call, d);
    AdvancesTransitive(w, w1, PayBoth(c, w1, pending, call, d).world);
  }

  /** A split's two payments: safe inside, and afterwards nothing of it is owed. */
  lemma {:induction false} BothSafe(c: Custody.Crypto, w: World, pending: seq<Share>, call: Call, d: Deposit)
    requires call.op.ResolveDispute? && call.op.splitToPayee <= d.amount
    requires var id, split := call.op.id, call.op.splitToPayee;
             Safe(w, PayeeShare(id, d, split) + (PayerShare(id, d, split) + pending))
    ensures var o := PayBoth(c, w, pending, call, d);
            && (o.result.Ok? ==> Safe(o.world, pending))
            && Advances(w, o.world) && LogSafe(o.log)
    decreases call, 0
  {
    var ResolveDispute(id, split, onPayee, onPayer) := call.op;
    SendAllSafe(c, w, PayerShare(id, d, split) + pending, PayeeShare(id, d, split), onPayee);
    var first := SendAll(c, w, PayerShare(id, d, split) + pending, PayeeShare(id, d, split), onPayee);
    if first.result.Ok? {
      SendAllSafe(c, first.world, pending, PayerShare(id, d, split), onPayer);
      AdvancesTransitive(w, first.world, SendAll(c, first.world, pending, PayerShare(id, d, split), onPayer).world);
    }
  }

  /** A payment attempt: safe inside, and afterwards the share is either sent or owed. */
  lemma {:induction false} SendSafe(c: Custody.Crypto, w: World, pending: seq<Share>, share: Share, script: Script)
    requires Safe(w, [share] + pending)
    ensures var o := Send(c, w, pending, share, script);
            && (o.result.Ok? ==> Safe(o.world, pending))
            && (o.result.Err? ==> o.world == w)
            && Advances(w, o.world) && LogSafe(o.log)
    decreases script, 1
  {
    AdvancesReflexive(w);
    PaidKeepsSafe(w, pending, share);
    var entered := Paid(w, share);
    RunSafe(c, entered, pending, script);
    AdvancesTransitive(w, entered, RunScript(c, entered, pending, script).world);
  }

  lemma {:induction false} SendAllSafe(
      c: Custody.Crypto, w: World, pending: seq<Share>, shares: seq<Share>, script: Script)
    requires |shares| <= 1 && Safe(w, shares + pending)
    ensures var o := SendAll(c, w, pending, shares, script);
            && (o.result.Ok? ==> Safe(o.world, pending))
            && Advances(w, o.world) && LogSafe(o.log)
    decreases script, 2
  {
    AdvancesReflexive(w);
    if |shares| == 0 {
      assert shares + pending == pending;
    } else {
      assert shares == [shares[0]];
      SendSafe(c, w, pending, shares[0], script);
    }
  }

  lemma {:induction false} RunSafe(c: Custody.Crypto, w: World, pending: seq<Share>, script: Script)
    requires Safe(w, pending)
    ensures var o := RunScript(c, w, pending, script);
            Safe(o.world, pending) && Advances(w, o.world) && LogSafe(o.log)
    decreases script, 0
  {
    match script
    case Stop(_) => AdvancesReflexive(w);
    case Do(call, rest) =>
      ExecSafe(c, w, pending, call);
      var o := Exec(c, w, pending, call);
      RunSafe(c, o.world, pending, rest);
      AdvancesTransitive(w, o.world, RunScript(c, o.world, pending, rest).world);
  }

  // ---------------------------------------------------------------- main results

  lemma GenesisSafe(deployer: Address, arbiter: Address)
    requires arbiter != ZERO_ADDRESS
    ensures Safe(Genesis(deployer, arbiter), [])
  {
  }

  /** No boundary is left out: a payment logs the moment the recipient gets control and the moment
      it gives it back, a script the moment after each of its calls and everything inside them. */
  lemma EveryBoundaryIsLogged(c: Custody.Crypto, w: World, pending: seq<Share>, share: Share, script: Script)
    ensures var o := Send(c, w, pending, share, script);
            share.amount <= w.escrow.balance ==>
              && Boundary(Paid(w, share), pending) in o.log
              && (forall b :: b in RunScript(c, Paid(w, share), pending, script).log ==> b in o.log)
              && (Boundary(o.world, pending) in o.log || (o.result.Err? && Boundary(w, [share] + pending) in o.log))
    ensures script.Do? ==>
              var o := Exec(c, w, pending, script.call);
              var r := RunScript(c, w, pending, script);
              && (forall b :: b in o.log ==> b in r.log) && Boundary(o.world, pending) in r.log
              && (forall b :: b in RunScript(c, o.world, pending, script.rest).log ==> b in r.log)
  {
  }

  /** A run ends with the moment after its last transaction. */
  lemma EndIsLogged(c: Custody.Crypto, w: World, txs: seq<Call>)
    ensures Boundary(RunTxs(c, w, txs), []) in Boundaries(c, w, txs)
  {
  }

  lemma LastIsLogged(c: Custody.Crypto, w: World, init: seq<Call>, last: Call, b: Boundary)
    ensures b in Boundaries(c, w, init) || b in Exec(c, RunTxs(c, w, init), [], last).log ==>
              b in Boundaries(c, w, init + [last])
  {
    assert (init + [last])[..|init|] == init;
  }

  lemma {:induction false} PrefixIsLogged(c: Custody.Crypto, w: World, txs: seq<Call>, k: nat, b: Boundary)
    requires k <= |txs| && b in Boundaries(c, w, txs[..k])
    ensures b in Boundaries(c, w, txs)
  {
    if k == |txs| {
      TakeAll(txs);
    } else {
      var n := |txs| - 1;
      TakeOfTake(txs, n, k);
      PrefixIsLogged(c, w, txs[..n], k, b);
      LastIsLogged(c, w, txs[..n], txs[n], b);
      TakeMore(txs, n);
      TakeAll(txs);
    }
  }

  /** And a run logs the moment before each of its transactions, everything inside it, and the
      moment after the last. */
  lemma EveryTransactionIsLogged(c: Custody.Crypto, w: World, txs: seq<Call>, k: nat, b: Boundary)
    requires k < |txs|
    requires b == Boundary(RunTxs(c, w, txs[..k]), []) || b in Exec(c, RunTxs(c, w, txs[..k]), [], txs[k]).log
             || b == Boundary(RunTxs(c, w, txs), [])
    ensures b in Boundaries(c, w, txs)
  {
    EndIsLogged(c, w, txs[..k]);
    EndIsLogged(c, w, txs);
    TakeMore(txs, k);
    LastIsLogged(c, w, txs[..k], txs[k], b);
    if b != Boundary(RunTxs(c, w, txs), []) {
      PrefixIsLogged(c, w, txs, k + 1, b);
    }
  }

  /** Any run of transactions, whatever the recipients do, is safe at every call boundary. */
  lemma {:induction false} EveryBoundarySafe(c: Custody.Crypto, w: World, txs: seq<Call>)
    requires Safe(w, [])
    ensures LogSafe(Boundaries(c, w, txs))
    ensures Safe(RunTxs(c, w, txs), []) && Advances(w, RunTxs(c, w, txs))
  {
    AdvancesReflexive(w);
    if |txs| > 0 {
      var init := txs[..|txs| - 1];
      EveryBoundarySafe(c, w, init);
      ExecSafe(c, RunTxs(c, w, init), [], txs[|txs| - 1]);
      AdvancesTransitive(w, RunTxs(c, w, init), RunTxs(c, w, txs));
    }
  }

  /** In particular from deployment on. */
  lemma EveryBoundarySafeFromDeployment(c: Custody.Crypto, deployer: Address, arbiter: Address, txs: seq<Call>)
    requires arbiter != ZERO_ADDRESS
    ensures LogSafe(Boundaries(c, Genesis(deployer, arbiter), txs))
    ensures Safe(RunTxs(c, Genesis(deployer, arbiter), txs), [])
  {
    GenesisSafe(deployer, arbiter);
    EveryBoundarySafe(c, Genesis(deployer, arbiter), txs);
  }

  lemma SettledMeans(m: map<Word, Deposit>, id: Word, shares: seq<Share>)
    requires Settled(m, id, shares)
    ensures Total(shares) == if id in m && m[id].status != Funded then m[id].amount else 0
    ensures forall s :: s in shares ==>
              id in m && m[id].status == (if s.route == ByRelease then Released else Refunded)
              && (s.to == m[id].payee || (s.route == ByDispute && s.to == m[id].payer))
  {
    if id in m && m[id].status == Refunded {
      var split: nat :| split <= m[id].amount && shares == DisputeShares(id, m[id], split);
      DisputeTotal(id, m[id], split);
    } else {
      OneShare(shares);
    }
  }

  /** What safety means for one deposit: payments made and owed add up to its amount once
      closed and to nothing before, and they all stem from one operation. */
  lemma PaymentsMatchDeposit(w: World, pending: seq<Share>, id: Word)
    requires Safe(w, pending)
    ensures Total(SharesOf(w.escrow.sent, id)) + Total(SharesOf(pending, id))
            == if id in w.escrow.deposits && w.escrow.deposits[id].status != Funded
               then w.escrow.deposits[id].amount else 0
    ensures forall s :: s in SharesOf(w.escrow.sent, id) + SharesOf(pending, id) ==>
              id in w.escrow.deposits
              && w.escrow.deposits[id].status == (if s.route == ByRelease then Released else Refunded)
              && (s.to == w.escrow.deposits[id].payee || (s.route == ByDispute && s.to == w.escrow.deposits[id].payer))
  {
    var m := w.escrow.deposits;
    SharesOfConcat(w.escrow.sent, pending, id);
    TotalConcat(SharesOf(w.escrow.sent, id), SharesOf(pending, id));
    SettledMeans(m, id, SharesOf(w.escrow.sent + pending, id));
  }

  lemma {:induction false} PositiveShares(shares: seq<Share>)
    requires forall s :: s in shares ==> s.amount > 0
    ensures Total(shares) == 0 ==> shares == []
  {
  }

  lemma SharesArePositive(w: World, pending: seq<Share>, id: Word)
    requires Safe(w, pending)
    ensures forall s :: s in SharesOf(w.escrow.sent, id) ==> s.amount > 0
  {
    SharesOfConcat(w.escrow.sent, pending, id);
    var m, shares := w.escrow.deposits, SharesOf(w.escrow.sent + pending, id);
    assert Settled(m, id, shares);
    forall s | s in SharesOf(w.escrow.sent, id) ensures s.amount > 0 {
      assert s in shares;
    }
  }

  /** Between two safe moments nothing more is sent for a closed deposit, if as much is owed. */
  lemma ClosedGetsNothing(w: World, w': World, pending: seq<Share>, id: Word)
    requires Safe(w, pending) && Safe(w', pending) && Advances(w, w') && IsClosed(w, id)
    ensures SharesOf(w'.escrow.sent, id) == SharesOf(w.escrow.sent, id) && IsClosed(w', id)
  {
    PaymentsMatchDeposit(w, pending, id);
    PaymentsMatchDeposit(w', pending, id);
    SharesArePositive(w', pending, id);
    var extra := w'.escrow.sent[|w.escrow.sent|..];
    assert w'.escrow.sent == w.escrow.sent + extra;
    SharesOfConcat(w.escrow.sent, extra, id);
    TotalConcat(SharesOf(w.escrow.sent, id), SharesOf(extra, id));
    PositiveShares(SharesOf(extra, id));
    AppendEmpty(SharesOf(w.escrow.sent, id));
  }

  /** Exactly once: after a deposit is closed no call, however it re-enters, moves any more
      money for it or changes it. */
  lemma NothingMoreIsPaid(c: Custody.Crypto, w: World, pending: seq<Share>, call: Call, id: Word)
    requires Safe(w, pending) && IsClosed(w, id)
    ensures var w' := Exec(c, w, pending, call).world;
            && SharesOf(w'.escrow.sent, id) == SharesOf(w.escrow.sent, id)
            && id in w'.escrow.deposits && w'.escrow.deposits[id] == w.escrow.deposits[id]
  {
    ExecSafe(c, w, pending, call);
    ClosedGetsNothing(w, Exec(c, w, pending, call).world, pending, id);
  }

  // ---------------------------------------------------------------- no deposit is stuck

  /** Calls that close a funded deposit when platform and arbiter act and recipients accept. */
  function ClosingCalls(w: World, id: Word, platform: Address, split: Word): seq<Call> {
    var accept := Stop(true);
    var resolve := Call(w.escrow.arbiter, 0, ResolveDispute(id, split, accept, accept));
    var dispute := Call(platform, 0, InCustody(Custody.MarkDisputed(id)));
    if Custody.Releasable(w.custody, id) then [Call(platform, 0, Release(id, accept))]
    else if InDispute(w.custody, id) then [resolve]
    else if id in w.custody.manifests then [dispute, resolve]
    else [Call(platform, 0, InCustody(Custody.CreateManifest(id, 0, 1, platform, platform, platform))), dispute, resolve]
  }

  predicate IsClosed(w: World, id: Word) {
    id in w.escrow.deposits && w.escrow.deposits[id].status != Funded
  }

  lemma SendAccepts(c: Custody.Crypto, w: World, pending: seq<Share>, shares: seq<Share>)
    requires |shares| <= 1 && Safe(w, shares + pending)
    ensures SendAll(c, w, pending, shares, Stop(true)).result.Ok?
  {
    if |shares| == 1 {
      assert shares == [shares[0]];
      PaidKeepsSafe(w, pending, shares[0]);
    }
  }

  lemma ReleaseCloses(c: Custody.Crypto, w: World, id: Word, sender: Address)
    requires Safe(w, []) && IsFunded(w, id) && Custody.Releasable(w.custody, id)
    ensures var o := Exec(c, w, [], Call(sender, 0, Release(id, Stop(true))));
            o.result.Ok? && IsClosed(o.world, id)
  {
    var d := w.escrow.deposits[id];
    var share := Share(id, d.payee, d.amount, ByRelease);
    ReleaseOpens(w, [], id);
    assert [share] + [] == [share];
    SendAccepts(c, Close(w, id, Released), [], [share]);
  }

  /** Both halves of a split are accepted, and the deposit stays closed. */
  lemma SplitIsAccepted(c: Custody.Crypto, w: World, payee: seq<Share>, payer: seq<Share>, id: Word)
    requires |payee| <= 1 && |payer| <= 1 && Safe(w, payee + (payer + [])) && IsClosed(w, id)
    ensures var first := SendAll(c, w, payer + [], payee, Stop(true));
            first.result.Ok? &&
            var second := SendAll(c, first.world, [], payer, Stop(true));
            second.result.Ok? && IsClosed(second.world, id)
  {
    SendAccepts(c, w, payer + [], payee);
    SendAllSafe(c, w, payer + [], payee, Stop(true));
    var first := SendAll(c, w, payer + [], payee, Stop(true));
    SendAccepts(c, first.world, [], payer);
    SendAllSafe(c, first.world, [], payer, Stop(true));
    AdvancesTransitive(w, first.world, SendAll(c, first.world, [], payer, Stop(true)).world);
  }

  lemma ResolveCloses(c: Custody.Crypto, w: World, id: Word, split: Word)
    requires Safe(w, []) && IsFunded(w, id) && InDispute(w.custody, id)
    requires split <= w.escrow.deposits[id].amount
    ensures var o := Exec(c, w, [], Call(w.escrow.arbiter, 0, ResolveDispute(id, split, Stop(true), Stop(true))));
            o.result.Ok? && IsClosed(o.world, id)
  {
    var d := w.escrow.deposits[id];
    DisputeOpens(w, [], id, split);
    SplitIsAccepted(c, Close(w, id, Refunded), PayeeShare(id, d, split), PayerShare(id, d, split), id);
  }

  lemma DisputedCall(c: Custody.Crypto, w: World, id: Word, platform: Address)
    requires platform in w.custody.platforms && id in w.custody.manifests
    ensures var w' := Exec(c, w, [], Call(platform, 0, InCustody(Custody.MarkDisputed(id)))).world;
            && w'.escrow == w.escrow && InDispute(w'.custody, id)
            && w'.custody.platforms == w.custody.platforms
  {
  }

  lemma CreatedCall(c: Custody.Crypto, w: World, id: Word, platform: Address)
    requires platform in w.custody.platforms && platform != ZERO_ADDRESS && id !in w.custody.manifests
    ensures var w' := Exec(c, w, [], Call(platform, 0,
                             InCustody(Custody.CreateManifest(id, 0, 1, platform, platform, platform)))).world;
            && w'.escrow == w.escrow && id in w'.custody.manifests
            && w'.custody.platforms == w.custody.platforms
  {
  }

  lemma RunOne(c: Custody.Crypto, w: World, a: Call)
    ensures RunTxs(c, w, [a]) == Exec(c, w, [], a).world
  {
    assert [a][..0] == [];
  }

  lemma RunThen(c: Custody.Crypto, w: World, txs: seq<Call>, a: Call)
    ensures RunTxs(c, w, txs + [a]) == Exec(c, RunTxs(c, w, txs), [], a).world
  {
    assert (txs + [a])[..|txs|] == txs;
  }

  /** From every safe joint state a funded deposit can be closed within three calls. */
  lemma NoDepositIsStuck(c: Custody.Crypto, w: World, id: Word, platform: Address, split: Word)
    requires Safe(w, []) && IsFunded(w, id)
    requires platform in w.custody.platforms && platform != ZERO_ADDRESS
    requires split <= w.escrow.deposits[id].amount
    ensures |ClosingCalls(w, id, platform, split)| <= 3
    ensures IsClosed(RunTxs(c, w, ClosingCalls(w, id, platform, split)), id)
  {
    var resolve := Call(w.escrow.arbiter, 0, ResolveDispute(id, split, Stop(true), Stop(true)));
    var dispute := Call(platform, 0, InCustody(Custody.MarkDisputed(id)));
    if Custody.Releasable(w.custody, id) {
      RunOne(c, w, Call(platform, 0, Release(id, Stop(true))));
      ReleaseCloses(c, w, id, platform);
    } else if InDispute(w.custody, id) {
      RunOne(c, w, resolve);
      ResolveCloses(c, w, id, split);
    } else if id in w.custody.manifests {
      DisputeThenResolve(c, w, [], w, id, platform, split);
      assert [] + [dispute] + [resolve] == [dispute, resolve];
    } else {
      var create := Call(platform, 0, InCustody(Custody.CreateManifest(id, 0, 1, platform, platform, platform)));
      RunOne(c, w, create);
      CreatedCall(c, w, id, platform);
      ExecSafe(c, w, [], create);
      DisputeThenResolve(c, w, [create], RunTxs(c, w, [create]), id, platform, split);
      assert [create] + [dispute] + [resolve] == [create, dispute, resolve];
    }
  }

  lemma DisputeThenResolve(c: Custody.Crypto, w: World, txs: seq<Call>, v: World, id: Word, platform: Address, split: Word)
    requires v == RunTxs(c, w, txs) && v.escrow == w.escrow
    requires Safe(v, []) && IsFunded(v, id) && id in v.custody.manifests
    requires platform in v.custody.platforms && split <= v.escrow.deposits[id].amount
    ensures var resolve := Call(w.escrow.arbiter, 0, ResolveDispute(id, split, Stop(true), Stop(true)));
            var dispute := Call(platform, 0, InCustody(Custody.MarkDisputed(id)));
            IsClosed(RunTxs(c, w, txs + [dispute] + [resolve]), id)
  {
    var resolve := Call(w.escrow.arbiter, 0, ResolveDispute(id, split, Stop(true), Stop(true)));
    var dispute := Call(platform, 0, InCustody(Custody.MarkDisputed(id)));
    DisputedCall(c, v, id, platform);
    ExecSafe(c, v, [], dispute);
    RunThen(c, w, txs, dispute);
    RunThen(c, w, txs + [dispute], resolve);
    ResolveCloses(c, RunTxs(c, w, txs + [dispute]), id, split);
  }
}
