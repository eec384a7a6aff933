/** DocumentRegistry: one registration per file hash, and the list of hashes of each trip. */
module Documents {
  import opened Wrappers
  import opened ByteStrings

  datatype DocType = ManifestDoc | Bilty | Pod | Invoice

  datatype Record = Record(tripId: Word, docType: DocType, submitter: Address, registeredAt: UInt64)

  datatype RegistryError = NotRegistryOwner | NotRegistrar | ZeroHash | AlreadyRegistered

  datatype Registry = Registry(
    owner: Address, registrars: set<Address>, docs: map<Word, Record>, tripDocs: map<Word, seq<Word>>)

  datatype RegistryOp =
    | SetOwner(newOwner: Address)
    | SetRegistrar(registrar: Address, allowed: bool)
    | Register(docHash: Word, tripId: Word, docType: DocType)

  datatype RegistryCall = RegistryCall(sender: Address, now: nat, op: RegistryOp)

  function DocsOf(s: Registry, tripId: Word): seq<Word> {
    if tripId in s.tripDocs then s.tripDocs[tripId] else []
  }

  function Apply(s: Registry, call: RegistryCall): Result<Registry, RegistryError> {
    match call.op
    case SetOwner(o) => if call.sender != s.owner then Err(NotRegistryOwner) else Ok(s.(owner := o))
    case SetRegistrar(r, allowed) =>
      if call.sender != s.owner then Err(NotRegistryOwner)
      else Ok(s.(registrars := if allowed then s.registrars + {r} else s.registrars - {r}))
    case Register(h, t, k) =>
      if call.sender !in s.registrars then Err(NotRegistrar)
      else if h == 0 then Err(ZeroHash)
      else if h in s.docs then Err(AlreadyRegistered)
      else Ok(s.(docs := s.docs[h := Record(t, k, call.sender, call.now % TWO_64)],
                 tripDocs := s.tripDocs[t := DocsOf(s, t) + [h]]))
  }

  function Step(s: Registry, call: RegistryCall): Registry {
    var r := Apply(s, call);
    if r.Ok? then r.value else s
  }

  function Run(s: Registry, calls: seq<RegistryCall>): Registry {
    if |calls| == 0 then s else Step(Run(s, calls[..|calls| - 1]), calls[|calls| - 1])
  }

  function Deployed(owner: Address): Registry {
    Registry(owner, {}, map[], map[])
  }

  /** A hash is in a trip's list exactly when it is registered for that trip. */
  ghost predicate ListsAgree(s: Registry) {
    forall t, h :: h in DocsOf(s, t) <==> h in s.docs && s.docs[h].tripId == t
  }

  ghost predicate ListsDistinct(s: Registry) {
    forall t, i, j :: 0 <= i < j < |DocsOf(s, t)| ==> DocsOf(s, t)[i] != DocsOf(s, t)[j]
  }

  /** The registered hashes are partitioned, without repeats, over the trips' lists. */
  ghost predicate Partitioned(s: Registry) {
    ListsAgree(s) && ListsDistinct(s) && 0 !in s.docs
  }

  lemma StepKeepsPartition(s: Registry, call: RegistryCall)
    requires Partitioned(s)
    ensures Partitioned(Step(s, call))
  {
    var y := Step(s, call);
    if call.op.Register? && Apply(s, call).Ok? {
      var h, t := call.op.docHash, call.op.tripId;
      assert h !in DocsOf(s, t);
      forall u ensures DocsOf(y, u) == if u == t then DocsOf(s, t) + [h] else DocsOf(s, u) {
      }
      forall u, i, j | 0 <= i < j < |DocsOf(y, u)| ensures DocsOf(y, u)[i] != DocsOf(y, u)[j] {
        if u == t && j == |DocsOf(s, t)| {
          assert DocsOf(s, t)[i] in DocsOf(s, t);
        } else {
          assert DocsOf(s, u)[i] != DocsOf(s, u)[j];
        }
      }
    } else {
      assert forall u :: DocsOf(y, u) == DocsOf(s, u);
    }
  }

  /** After any run every registered hash is in exactly one trip list, exactly once, the list
      of its own trip; registrations never change; and lists only grow at the end. */
  lemma {:induction false} RunKeepsPartition(s: Registry, calls: seq<RegistryCall>)
    requires Partitioned(s)
    ensures Partitioned(Run(s, calls))
    ensures forall h :: h in s.docs ==> h in Run(s, calls).docs && Run(s, calls).docs[h] == s.docs[h]
    ensures forall t :: DocsOf(s, t) <= DocsOf(Run(s, calls), t)
  {
    if |calls| > 0 {
      RunKeepsPartition(s, calls[..|calls| - 1]);
      StepKeepsPartition(Run(s, calls[..|calls| - 1]), calls[|calls| - 1]);
    }
  }

  lemma EveryRunIsPartitioned(owner: Address, calls: seq<RegistryCall>)
    ensures Partitioned(Run(Deployed(owner), calls))
  {
    RunKeepsPartition(Deployed(owner), calls);
  }

  /** Financing the same paper twice is refused: once registered, a hash can never be
      registered again, for any trip, by anyone. */
  lemma NeverTwice(s: Registry, calls: seq<RegistryCall>, call: RegistryCall)
    requires Partitioned(s) && call.op.Register? && call.op.docHash in s.docs
    ensures Apply(Run(s, calls), call).Err?
    ensures call.sender in Run(s, calls).registrars && call.op.docHash != 0 ==>
              Apply(Run(s, calls), call) == Err(AlreadyRegistered)
  {
    RunKeepsPartition(s, calls);
  }

  // ---------------------------------------------------------------- who registers

  /** A document is registered exactly if a registrar brings a real, new hash; the record names
      the trip, the kind and the registrar, and the hash goes to the end of that trip's list. */
  lemma RegisteredIff(s: Registry, call: RegistryCall)
    requires call.op.Register?
    ensures var Register(h, t, kind) := call.op;
            && (Apply(s, call).Ok? <==> call.sender in s.registrars && h != 0 && h !in s.docs)
            && (call.sender !in s.registrars ==> Apply(s, call) == Err(NotRegistrar))
            && (Apply(s, call).Ok? ==>
                  && h in Step(s, call).docs
                  && Step(s, call).docs[h] == Record(t, kind, call.sender, call.now % 0x1_0000_0000_0000_0000)
                  && DocsOf(Step(s, call), t) == DocsOf(s, t) + [h])
  {
  }

  /** Behind every record stands a call of its submitter, who was a registrar at that moment. */
  lemma {:induction false} EveryRecordIsARegistrars(owner: Address, calls: seq<RegistryCall>, h: Word) returns (k: nat)
    requires h in Run(Deployed(owner), calls).docs
    ensures k < |calls| && calls[k].sender in Run(Deployed(owner), calls[..k]).registrars
    ensures var r := Run(Deployed(owner), calls).docs[h];
            calls[k].sender == r.submitter && calls[k].op == Register(h, r.tripId, r.docType)
  {
    var n := |calls| - 1;
    if h in Run(Deployed(owner), calls[..n]).docs {
      EveryRunIsPartitioned(owner, calls[..n]);
      k := EveryRecordIsARegistrars(owner, calls[..n], h);
      assert calls[..n][..k] == calls[..k];
    } else {
      k := n;
    }
  }

  /** Behind every change of the owner or the registrars stands a call of the owner then. */
  lemma {:induction false} EveryAdminChangeIsTheOwners(s: Registry, calls: seq<RegistryCall>) returns (k: nat)
    requires Run(s, calls).owner != s.owner || Run(s, calls).registrars != s.registrars
    ensures k < |calls| && calls[k].sender == Run(s, calls[..k]).owner
    ensures calls[k].op.SetOwner? || calls[k].op.SetRegistrar?
  {
    var n := |calls| - 1;
    var before := Run(s, calls[..n]);
    if before.owner == Run(s, calls).owner && before.registrars == Run(s, calls).registrars {
      k := EveryAdminChangeIsTheOwners(s, calls[..n]);
      assert calls[..n][..k] == calls[..k];
    } else {
      k := n;
    }
  }

  class DocumentRegistry {
    var owner: Address
    var registrars: set<Address>
    var docs: map<Word, Record>
    var tripDocs: map<Word, seq<Word>>

    ghost function View(): Registry
      reads this
    {
      Registry(owner, registrars, docs, tripDocs)
    }

    constructor (deployer: Address)
      ensures View() == Deployed(deployer)
    {
      owner, registrars, docs, tripDocs := deployer, {}, map[], map[];
    }

    method TransferOwnership(sender: Address, now: nat, newOwner: Address) returns (r: Result<(), RegistryError>)
      modifies this
      ensures Does(old(View()), RegistryCall(sender, now, SetOwner(newOwner)), View(), r)
    {
      if sender != owner { return Err(NotRegistryOwner); }
      owner := newOwner;
      return Ok(());
    }

    method SetRegistrar(sender: Address, now: nat, registrar: Address, allowed: bool) returns (r: Result<(), RegistryError>)
      modifies this
      ensures Does(old(View()), RegistryCall(sender, now, RegistryOp.SetRegistrar(registrar, allowed)), View(), r)
    {
      if sender != owner { return Err(NotRegistryOwner); }
      registrars := if allowed then registrars + {registrar} else registrars - {registrar};
      return Ok(());
    }

    method RegisterDocument(sender: Address, now: nat, docHash: Word, tripId: Word, docType: DocType)
      returns (r: Result<(), RegistryError>)
      modifies this
      ensures Does(old(View()), RegistryCall(sender, now, Register(docHash, tripId, docType)), View(), r)
    {
      if sender !in registrars { return Err(NotRegistrar); }
      if docHash == 0 { return Err(ZeroHash); }
      if docHash in docs { return Err(AlreadyRegistered); }
      docs := docs[docHash := Record(tripId, docType, sender, now % TWO_64)];
      tripDocs := tripDocs[tripId := (if tripId in tripDocs then tripDocs[tripId] else []) + [docHash]];
      return Ok(());
    }
  }

  ghost predicate Does(before: Registry, call: RegistryCall, after: Registry, r: Result<(), RegistryError>) {
    && after == Step(before, call)
    && (r.Ok? <==> Apply(before, call).Ok?)
    && (r.Err? ==> Apply(before, call) == Err(r.error))
  }
}
