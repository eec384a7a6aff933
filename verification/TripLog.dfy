/** TripLogAnchor: time-ordered Merkle roots per trip, and on-chain ping verification. */
module TripLog {
  import opened Wrappers
  import opened ByteStrings
  import opened Merkle

  datatype Batch = Batch(root: Bytes32, fromTs: UInt64, toTs: UInt64, anchoredAt: UInt64)

  datatype Error = NotOwner | NotAnchorer | ZeroRoot | BadTimeRange | TimeOverlap

  type TripBatches = map<Word, seq<Batch>>

  datatype State = State(owner: Address, anchorers: set<Address>, batches: TripBatches)

  datatype Op =
    | TransferOwnership(newOwner: Address)
    | SetAnchorer(anchorer: Address, allowed: bool)
    | AnchorBatch(tripId: Word, root: Bytes32, fromTs: UInt64, toTs: UInt64)

  datatype Call = Call(sender: Address, now: nat, op: Op)

  function BatchesOf(m: TripBatches, tripId: Word): seq<Batch> {
    if tripId in m then m[tripId] else []
  }

  /** What one accepted anchor does to a trip's list, or why it reverts. */
  function Append(list: seq<Batch>, root: Bytes32, fromTs: UInt64, toTs: UInt64, now: nat)
    : Result<seq<Batch>, Error>
  {
    if root == ZERO32 then Err(ZeroRoot)
    else if toTs < fromTs then Err(BadTimeRange)
    else if |list| > 0 && fromTs <= list[|list| - 1].toTs then Err(TimeOverlap)
    else Ok(list + [Batch(root, fromTs, toTs, now % TWO_64)])
  }

  function Apply(s: State, c: Call): Result<State, Error> {
    match c.op
    case TransferOwnership(o) =>
      if c.sender != s.owner then Err(NotOwner) else Ok(s.(owner := o))
    case SetAnchorer(a, allowed) =>
      if c.sender != s.owner then Err(NotOwner)
      else Ok(s.(anchorers := if allowed then s.anchorers + {a} else s.anchorers - {a}))
    case AnchorBatch(tripId, root, fromTs, toTs) =>
      if c.sender !in s.anchorers then Err(NotAnchorer)
      else
        match Append(BatchesOf(s.batches, tripId), root, fromTs, toTs, c.now)
        case Err(e) => Err(e)
        case Ok(list) => Ok(s.(batches := s.batches[tripId := list]))
  }

  /** A reverted call leaves the state alone. */
  function Step(s: State, c: Call): State {
    var r := Apply(s, c);
    if r.Ok? then r.value else s
  }

  function Run(s: State, calls: seq<Call>): State {
    if |calls| == 0 then s else Step(Run(s, calls[..|calls| - 1]), calls[|calls| - 1])
  }

  /** verifyPing's verdict; None when the index is out of bounds and the call reverts. */
  function Verdict(h: Hash, m: TripBatches, tripId: Word, index: nat, leaf: Bytes32, proof: seq<Bytes32>)
    : Option<bool>
  {
    if index >= |BatchesOf(m, tripId)| then None
    else Some(Fold(h, leaf, proof) == BatchesOf(m, tripId)[index].root)
  }

  // ---------------------------------------------------------------- invariants

  /** Windows are well-formed, in time order, and pairwise disjoint. */
  ghost predicate Ordered(list: seq<Batch>) {
    && (forall i :: 0 <= i < |list| ==> list[i].fromTs <= list[i].toTs && list[i].root != ZERO32)
    && (forall i, j :: 0 <= i < j < |list| ==> list[i].toTs < list[j].fromTs)
  }

  ghost predicate AllOrdered(m: TripBatches) {
    forall t :: t in m ==> Ordered(m[t])
  }

  lemma AppendKeepsOrder(list: seq<Batch>, root: Bytes32, fromTs: UInt64, toTs: UInt64, now: nat)
    requires Ordered(list) && Append(list, root, fromTs, toTs, now).Ok?
    ensures Ordered(Append(list, root, fromTs, toTs, now).value)
  {
    var after := Append(list, root, fromTs, toTs, now).value;
    var n := |list|;
    forall i, j | 0 <= i < j < |after| ensures after[i].toTs < after[j].fromTs {
      if j == n && i < n - 1 {
        assert list[i].toTs < list[n - 1].fromTs <= list[n - 1].toTs;
      }
    }
  }

  /** In every reachable state every trip's windows are ordered and disjoint. */
  lemma {:induction false} RunKeepsOrder(s: State, calls: seq<Call>)
    requires AllOrdered(s.batches)
    ensures AllOrdered(Run(s, calls).batches)
  {
    if |calls| > 0 {
      RunKeepsOrder(s, calls[..|calls| - 1]);
      var before, c := Run(s, calls[..|calls| - 1]), calls[|calls| - 1];
      if c.op.AnchorBatch? && Apply(before, c).Ok? {
        AppendKeepsOrder(BatchesOf(before.batches, c.op.tripId), c.op.root, c.op.fromTs, c.op.toTs, c.now);
      }
    }
  }

  lemma {:induction false} RunOnlyAppends(s: State, calls: seq<Call>, tripId: Word)
    ensures BatchesOf(s.batches, tripId) <= BatchesOf(Run(s, calls).batches, tripId)
  {
    if |calls| > 0 {
      RunOnlyAppends(s, calls[..|calls| - 1], tripId);
    }
  }

  /** A ping accepted once stays accepted whatever the chain executes afterwards. */
  lemma AcceptedForever(h: Hash, s: State, calls: seq<Call>,
                        tripId: Word, index: nat, leaf: Bytes32, proof: seq<Bytes32>)
    requires Verdict(h, s.batches, tripId, index, leaf, proof) == Some(true)
    ensures Verdict(h, Run(s, calls).batches, tripId, index, leaf, proof) == Some(true)
  {
    RunOnlyAppends(s, calls, tripId);
  }

  // ---------------------------------------------------------------- who anchors, and what

  /** A batch is anchored exactly if an anchorer brings a real root and a window that is not
      reversed and starts after every window of the trip; it goes to the end of the trip's list
      as it is, and no other trip changes. */
  lemma AnchoredIff(s: State, c: Call, other: Word)
    requires c.op.AnchorBatch? && AllOrdered(s.batches) && other != c.op.tripId
    ensures var AnchorBatch(tripId, root, fromTs, toTs) := c.op;
            var list := BatchesOf(s.batches, tripId);
            && (Apply(s, c).Ok? <==>
                  && c.sender in s.anchorers && root != ZERO32 && fromTs <= toTs
                  && forall b :: b in list ==> b.toTs < fromTs)
            && (c.sender !in s.anchorers ==> Apply(s, c) == Err(NotAnchorer))
            && (Apply(s, c).Ok? ==>
                  && BatchesOf(Step(s, c).batches, tripId)
                     == list + [Batch(root, fromTs, toTs, c.now % 0x1_0000_0000_0000_0000)]
                  && BatchesOf(Step(s, c).batches, other) == BatchesOf(s.batches, other))
  {
    var list := BatchesOf(s.batches, c.op.tripId);
    if |list| > 0 {
      assert list[|list| - 1] in list;
      forall i | 0 <= i < |list| ensures list[i].toTs <= list[|list| - 1].toTs {
        assert i < |list| - 1 ==> list[i].toTs < list[|list| - 1].fromTs <= list[|list| - 1].toTs;
      }
    }
  }

  /** Behind every batch a run adds stands a call of someone who was an anchorer then, for that
      trip, root and window. */
  lemma {:induction false} EveryBatchIsAnAnchorers(s: State, calls: seq<Call>, tripId: Word, i: nat) returns (k: nat)
    requires |BatchesOf(s.batches, tripId)| <= i < |BatchesOf(Run(s, calls).batches, tripId)|
    ensures k < |calls| && calls[k].sender in Run(s, calls[..k]).anchorers
    ensures var b := BatchesOf(Run(s, calls).batches, tripId)[i];
            calls[k].op == AnchorBatch(tripId, b.root, b.fromTs, b.toTs)
            && b.anchoredAt == calls[k].now % 0x1_0000_0000_0000_0000
  {
    var n := |calls| - 1;
    var before := Run(s, calls[..n]);
    if i < |BatchesOf(before.batches, tripId)| {
      k := EveryBatchIsAnAnchorers(s, calls[..n], tripId, i);
      assert calls[..n][..k] == calls[..k];
    } else {
      k := n;
    }
  }

  /** And behind every change of the owner or the anchorers a call of the owner at that moment. */
  lemma {:induction false} EveryAdminChangeIsTheOwners(s: State, calls: seq<Call>) returns (k: nat)
    requires Run(s, calls).owner != s.owner || Run(s, calls).anchorers != s.anchorers
    ensures k < |calls| && calls[k].sender == Run(s, calls[..k]).owner
    ensures calls[k].op.TransferOwnership? || calls[k].op.SetAnchorer?
  {
    var n := |calls| - 1;
    var before := Run(s, calls[..n]);
    if before.owner == Run(s, calls).owner && before.anchorers == Run(s, calls).anchorers {
      k := EveryAdminChangeIsTheOwners(s, calls[..n]);
      assert calls[..n][..k] == calls[..k];
    } else {
      k := n;
    }
  }

  // ---------------------------------------------------------------- contract

  class TripLogAnchor {
    const keccak: Hash
    var owner: Address
    var anchorers: set<Address>
    var batches: TripBatches

    ghost function View(): State
      reads this
    {
      State(owner, anchorers, batches)
    }

    constructor (keccak: Hash, deployer: Address)
      ensures View() == State(deployer, {}, map[]) && this.keccak == keccak
    {
      this.keccak := keccak;
      owner := deployer;
      anchorers := {};
      batches := map[];
    }

    method TransferOwnership(sender: Address, newOwner: Address) returns (r: Result<(), Error>)
      modifies this
      ensures forall now :: View() == Step(old(View()), Call(sender, now, Op.TransferOwnership(newOwner)))
      ensures r == if sender == old(owner) then Ok(()) else Err(NotOwner)
    {
      if sender != owner { return Err(NotOwner); }
      owner := newOwner;
      return Ok(());
    }

    method SetAnchorer(sender: Address, anchorer: Address, allowed: bool) returns (r: Result<(), Error>)
      modifies this
      ensures forall now :: View() == Step(old(View()), Call(sender, now, Op.SetAnchorer(anchorer, allowed)))
      ensures r == if sender == old(owner) then Ok(()) else Err(NotOwner)
    {
      if sender != owner { return Err(NotOwner); }
      anchorers := if allowed then anchorers + {anchorer} else anchorers - {anchorer};
      return Ok(());
    }

    /** Appends one batch and returns its index, or reverts without effect. */
    method AnchorBatch(sender: Address, now: nat, tripId: Word, root: Bytes32, fromTs: UInt64, toTs: UInt64)
      returns (r: Result<nat, Error>)
      modifies this
      ensures var c := Call(sender, now, Op.AnchorBatch(tripId, root, fromTs, toTs));
              && View() == Step(old(View()), c)
              && (r.Ok? <==> Apply(old(View()), c).Ok?)
              && (r.Err? ==> Apply(old(View()), c) == Err(r.error))
      ensures r.Ok? ==>
                && r.value == |BatchesOf(old(batches), tripId)|
                && BatchesOf(batches, tripId)
                   == BatchesOf(old(batches), tripId) + [Batch(root, fromTs, toTs, now % TWO_64)]
    {
      if sender !in anchorers { return Err(NotAnchorer); }
      if root == ZERO32 { return Err(ZeroRoot); }
      if toTs < fromTs { return Err(BadTimeRange); }
      var list := BatchesOf(batches, tripId);
      if |list| > 0 && fromTs <= list[|list| - 1].toTs { return Err(TimeOverlap); }
      list := list + [Batch(root, fromTs, toTs, now % TWO_64)];
      batches := batches[tripId := list];
      return Ok(|list| - 1);
    }

    /** The fold loop; the verdict is that of the recursive fold against the anchored root. */
    method VerifyPing(tripId: Word, index: nat, leaf: Bytes32, proof: seq<Bytes32>)
      returns (verdict: Option<bool>)
      ensures verdict == Verdict(keccak, batches, tripId, index, leaf, proof)
    {
      if index >= |BatchesOf(batches, tripId)| { return None; }
      var root := BatchesOf(batches, tripId)[index].root;
      var computed := leaf;
      for i := 0 to |proof|
        invariant computed == Fold(keccak, leaf, proof[..i])
      {
        FoldExtend(keccak, leaf, proof, i);
        var p := proof[i];
        computed := if BigEndian(computed) <= BigEndian(p) then keccak(computed + p) else keccak(p + computed);
      }
      assert proof[..|proof|] == proof;
      return Some(computed == root);
    }
  }
}
