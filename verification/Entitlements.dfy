/**
 * The per-company module map: plan modules, plus granted overrides, minus revoked ones, kept
 * in a cache that every write invalidates. Calls run one at a time.
 */
module Entitlements {
  import opened ModuleCatalog

  type Company = nat

  /** The override rows of one company, one per module: true grants, false revokes. */
  type Overrides = map<Module, bool>

  datatype State = State(plans: map<Company, Plan>, overrides: map<Company, Overrides>, cache: map<Company, set<Module>>)

  function RowsOf(overrides: map<Company, Overrides>, c: Company): Overrides {
    if c in overrides then overrides[c] else map[]
  }

  /** (plan modules and granted overrides) minus revoked overrides. */
  function Effective(p: Plan, rows: Overrides): set<Module> {
    Overlay(PlanModules(p), rows)
  }

  function Overlay(base: set<Module>, rows: Overrides): set<Module> {
    (base + Granted(rows)) - Revoked(rows)
  }

  function Granted(rows: Overrides): set<Module> {
    set m | m in rows && rows[m]
  }

  function Revoked(rows: Overrides): set<Module> {
    set m | m in rows && !rows[m]
  }

  /** A row decides about its module, the plan about all others. */
  lemma OverlayMember(base: set<Module>, rows: Overrides, m: Module)
    ensures m in Overlay(base, rows) <==> if m in rows then rows[m] else m in base
  {
  }

  /** What the store alone says a company has; nothing without a plan. */
  function Entitled(s: State, c: Company): set<Module> {
    if c in s.plans then Effective(s.plans[c], RowsOf(s.overrides, c)) else {}
  }

  // ---------------------------------------------------------------- the service calls

  /** What modulesFor returns, and the state it leaves. */
  function Seen(s: State, c: Company): set<Module> {
    if c in s.cache then s.cache[c] else Entitled(s, c)
  }

  function Look(s: State, c: Company): State {
    if c in s.cache || c !in s.plans then s else s.(cache := s.cache[c := Entitled(s, c)])
  }

  function Invalidate(s: State, c: Company): State {
    s.(cache := s.cache - {c})
  }

  /** One override row per module of `ms`. */
  function Rows(ms: set<Module>, granted: bool): Overrides {
    map m | m in ms :: granted
  }

  function Put(s: State, c: Company, ms: set<Module>, granted: bool): State {
    s.(overrides := s.overrides[c := RowsOf(s.overrides, c) + Rows(ms, granted)])
  }

  function ApplyPlan(s: State, c: Company, p: Plan): State {
    Look(Invalidate(s.(plans := s.plans[c := p]), c), c)
  }

  predicate Blocked(needs: Requires, s: State, c: Company, m: Module) {
    !(needs(m) <= Seen(s, c) + {m})
  }

  function Grant(needs: Requires, s: State, c: Company, m: Module): State {
    if Blocked(needs, s, c, m) then Look(s, c)
    else Look(Invalidate(Put(Look(s, c), c, {m}, true), c), c)
  }

  /** The modules a revocation disables along with m. */
  function AlsoDisabled(needs: Requires, s: State, c: Company, m: Module): set<Module> {
    Orphans(needs, Seen(s, c) - {m})
  }

  function Revoke(needs: Requires, s: State, c: Company, m: Module): State {
    Look(Invalidate(Put(Look(s, c), c, {m} + AlsoDisabled(needs, s, c, m), false), c), c)
  }

  function ClearOverride(s: State, c: Company, m: Module): State {
    Invalidate(s.(overrides := s.overrides[c := RowsOf(s.overrides, c) - {m}]), c)
  }

  datatype Op =
    | DoLook(c: Company)
    | DoApplyPlan(c: Company, p: Plan)
    | DoGrant(c: Company, m: Module)
    | DoRevoke(c: Company, m: Module)
    | DoClear(c: Company, m: Module)

  function Step(needs: Requires, s: State, op: Op): State {
    match op
    case DoLook(c) => Look(s, c)
    case DoApplyPlan(c, p) => ApplyPlan(s, c, p)
    case DoGrant(c, m) => Grant(needs, s, c, m)
    case DoRevoke(c, m) => Revoke(needs, s, c, m)
    case DoClear(c, m) => ClearOverride(s, c, m)
  }

  function Run(needs: Requires, s: State, ops: seq<Op>): State {
    if |ops| == 0 then s else Step(needs, Run(needs, s, ops[..|ops| - 1]), ops[|ops| - 1])
  }

  const EMPTY: State := State(map[], map[], map[])

  // ---------------------------------------------------------------- cache agreement

  /** Every cached entry is what the store says now. */
  ghost predicate Agrees(s: State) {
    forall c :: c in s.cache ==> c in s.plans && s.cache[c] == Entitled(s, c)
  }

  lemma LookKeeps(s: State, c: Company)
    requires Agrees(s)
    ensures Agrees(Look(s, c)) && Seen(s, c) == Entitled(s, c)
    ensures forall d :: Entitled(Look(s, c), d) == Entitled(s, d)
  {
  }

  /** Rewriting one company's plan or rows and dropping its entry leaves all others agreed. */
  lemma RewriteKeeps(s: State, t: State, c: Company)
    requires Agrees(s) && t.cache == s.cache - {c}
    requires forall d :: d != c ==> Entitled(t, d) == Entitled(s, d) && (d in s.plans ==> d in t.plans)
    ensures Agrees(t)
  {
  }

  lemma StepKeepsAgreement(needs: Requires, s: State, op: Op)
    requires Agrees(s)
    ensures Agrees(Step(needs, s, op))
    ensures forall d :: d != op.c ==> Entitled(Step(needs, s, op), d) == Entitled(s, d)
  {
    var c := op.c;
    LookKeeps(s, c);
    match op
    case DoLook(c) =>
    case DoApplyPlan(c, p) =>
      var t := Invalidate(s.(plans := s.plans[c := p]), c);
      RewriteKeeps(s, t, c);
      LookKeeps(t, c);
    case DoGrant(c, m) =>
      var t := Invalidate(Put(Look(s, c), c, {m}, true), c);
      RewriteKeeps(Look(s, c), t, c);
      LookKeeps(t, c);
    case DoRevoke(c, m) =>
      var t := Invalidate(Put(Look(s, c), c, {m} + AlsoDisabled(needs, s, c, m), false), c);
      RewriteKeeps(Look(s, c), t, c);
      LookKeeps(t, c);
    case DoClear(c, m) => RewriteKeeps(s, ClearOverride(s, c, m), c);
  }

  /** After any sequence of calls for any companies, asking the service is asking the store,
      and a call for one company never changes what another has. */
  lemma {:induction false} RunServesTheStore(needs: Requires, ops: seq<Op>, c: Company)
    ensures Agrees(Run(needs, EMPTY, ops))
    ensures Seen(Run(needs, EMPTY, ops), c) == Entitled(Run(needs, EMPTY, ops), c)
    ensures (forall i :: 0 <= i < |ops| ==> ops[i].c != c) ==> Entitled(Run(needs, EMPTY, ops), c) == {}
  {
    if |ops| > 0 {
      var init := ops[..|ops| - 1];
      RunServesTheStore(needs, init, c);
      StepKeepsAgreement(needs, Run(needs, EMPTY, init), ops[|ops| - 1]);
      assert forall i :: 0 <= i < |init| ==> init[i] == ops[i];
    }
  }

  // ---------------------------------------------------------------- coherence

  lemma OverlayAfterPut(base: set<Module>, rows: Overrides, ms: set<Module>)
    ensures Overlay(base, rows + Rows(ms, true)) == Overlay(base, rows) + ms
    ensures Overlay(base, rows + Rows(ms, false)) == Overlay(base, rows) - ms
  {
  }

  /** A grant adds exactly the module, unless the module lacks a prerequisite. */
  lemma EntitledAfterGrant(needs: Requires, s: State, c: Company, m: Module)
    requires Agrees(s) && c in s.plans
    ensures Entitled(Grant(needs, s, c, m), c)
            == if needs(m) <= Entitled(s, c) + {m} then Entitled(s, c) + {m} else Entitled(s, c)
  {
    assert Seen(s, c) == Entitled(s, c);
    OverlayAfterPut(PlanModules(s.plans[c]), RowsOf(s.overrides, c), {m});
  }

  /** So a coherent company stays coherent, whatever it asks for. */
  lemma GrantKeepsCoherence(needs: Requires, s: State, c: Company, m: Module)
    requires Agrees(s) && c in s.plans && Coherent(needs, Entitled(s, c))
    ensures Coherent(needs, Entitled(Grant(needs, s, c, m), c))
  {
    EntitledAfterGrant(needs, s, c, m);
    assert Seen(s, c) == Entitled(s, c);
  }

  /** A revocation removes the module and whatever then lacks a prerequisite, nothing else. */
  lemma EntitledAfterRevoke(needs: Requires, s: State, c: Company, m: Module)
    requires Agrees(s) && c in s.plans
    ensures Entitled(Revoke(needs, s, c, m), c) == Remaining(needs, Entitled(s, c), m)
  {
    var off := {m} + AlsoDisabled(needs, s, c, m);
    OverlayAfterPut(PlanModules(s.plans[c]), RowsOf(s.overrides, c), off);
    assert Seen(s, c) == Entitled(s, c);
    assert Entitled(s, c) - off == Remaining(needs, Entitled(s, c), m);
  }

  /** Module by module: what stays was there, is not the revoked one, and can do without it. */
  lemma LeftAfterRevoke(needs: Requires, s: State, c: Company, m: Module, x: Module)
    requires Agrees(s) && c in s.plans
    ensures x in Entitled(Revoke(needs, s, c, m), c) <==>
              x in Entitled(s, c) && x != m && needs(x) <= Entitled(s, c) - {m}
  {
    EntitledAfterRevoke(needs, s, c, m);
    RemainingMember(needs, Entitled(s, c), m, x);
  }

  lemma RemainingMember(needs: Requires, enabled: set<Module>, m: Module, x: Module)
    ensures x in Remaining(needs, enabled, m) <==> x in enabled && x != m && needs(x) <= enabled - {m}
  {
  }

  /** When a revocation leaves a coherent company coherent, for any prerequisite table. */
  lemma RevokeCoherentIff(needs: Requires, s: State, c: Company, m: Module)
    requires Agrees(s) && c in s.plans && Coherent(needs, Entitled(s, c))
    ensures var after := Entitled(Revoke(needs, s, c, m), c);
            Coherent(needs, after) <==> forall x :: x in after ==> needs(x) !! AlsoDisabled(needs, s, c, m)
  {
    EntitledAfterRevoke(needs, s, c, m);
    RemainingCoherentIff(needs, Entitled(s, c), m);
  }

  /** And under the real one: always, except revoking QR_GOODS from a company that has claims
      evidence, financing or reputation. */
  lemma RevokeUnderModuleRequires(s: State, c: Company, m: Module)
    requires Agrees(s) && c in s.plans && Coherent(ModuleRequires, Entitled(s, c))
    ensures Coherent(ModuleRequires, Entitled(Revoke(ModuleRequires, s, c, m), c)) <==>
              m != QrGoods || Entitled(s, c) !! {ClaimsEvidence, FinancingRails, Reputation}
  {
    EntitledAfterRevoke(ModuleRequires, s, c, m);
    RemainingUnderModuleRequires(Entitled(s, c), m);
  }

  // ---------------------------------------------------------------- the two unchecked calls

  lemma EntitledAfterPlan(s: State, c: Company, p: Plan)
    requires Agrees(s)
    ensures Entitled(ApplyPlan(s, c, p), c) == Effective(p, RowsOf(s.overrides, c))
  {
  }

  lemma EntitledAfterClear(s: State, c: Company, m: Module)
    requires Agrees(s) && c in s.plans
    ensures Entitled(ClearOverride(s, c, m), c) == Effective(s.plans[c], RowsOf(s.overrides, c) - {m})
  {
  }

  /** What a plan and its override rows must meet to be coherent together, given that the plan
      is: whatever is granted finds its needs granted or in the unrevoked plan, and no plan
      module left alone needs a revoked one. */
  ghost predicate OverridesFit(needs: Requires, base: set<Module>, rows: Overrides) {
    && (forall m :: m in rows && rows[m] ==> needs(m) <= Granted(rows) + (base - Revoked(rows)))
    && (forall m :: m in base && m !in rows ==> needs(m) !! Revoked(rows))
  }

  lemma OverlayCoherentIff(needs: Requires, base: set<Module>, rows: Overrides)
    requires Coherent(needs, base)
    ensures Coherent(needs, Overlay(base, rows)) <==> OverridesFit(needs, base, rows)
  {
    var after := Overlay(base, rows);
    assert after == Granted(rows) + (base - Revoked(rows));
    if OverridesFit(needs, base, rows) {
      forall m | m in after ensures needs(m) <= after {
        if m !in rows {
          assert needs(m) <= base && needs(m) !! Revoked(rows);
        }
      }
    }
    if Coherent(needs, after) {
      forall m | m in base && m !in rows ensures needs(m) !! Revoked(rows) {
        assert needs(m) <= after;
      }
    }
  }

  /** A plan change checks nothing. For any prerequisite table and any plan that is coherent by
      itself, the company ends coherent exactly when its override rows fit the new plan. */
  lemma PlanChangeCoherentIff(needs: Requires, s: State, c: Company, p: Plan)
    requires Agrees(s) && Coherent(needs, PlanModules(p))
    ensures Coherent(needs, Entitled(ApplyPlan(s, c, p), c)) <==> OverridesFit(needs, PlanModules(p), RowsOf(s.overrides, c))
  {
    EntitledAfterPlan(s, c, p);
    OverlayCoherentIff(needs, PlanModules(p), RowsOf(s.overrides, c));
  }

  /** Clearing a row switches a revoked plan module back on, a granted extra off, and is
      otherwise without effect. */
  lemma OverlayAfterClear(base: set<Module>, rows: Overrides, m: Module)
    ensures var before := Overlay(base, rows);
            Overlay(base, rows - {m}) ==
            if m in base && m !in before then before + {m} else if m !in base && m in before then before - {m} else before
  {
    forall x ensures x in Overlay(base, rows - {m}) <==> if x == m then x in base else x in Overlay(base, rows) {
      OverlayMember(base, rows, x);
      OverlayMember(base, rows - {m}, x);
    }
  }

  /** Clearing an override checks nothing either. It leaves a coherent company coherent exactly
      when a plan module that comes back finds its needs, or a granted extra that goes is
      needed by nothing that stays; in every other case it changes nothing. */
  lemma ClearCoherentIff(needs: Requires, s: State, c: Company, m: Module)
    requires Agrees(s) && c in s.plans && Coherent(needs, Entitled(s, c))
    ensures var before, inPlan := Entitled(s, c), m in PlanModules(s.plans[c]);
            Coherent(needs, Entitled(ClearOverride(s, c, m), c)) <==>
              && (inPlan && m !in before ==> needs(m) <= before + {m})
              && (!inPlan && m in before ==> forall x :: x in before && x != m ==> m !in needs(x))
  {
    EntitledAfterClear(s, c, m);
    OverlayAfterClear(PlanModules(s.plans[c]), RowsOf(s.overrides, c), m);
    ToggleCoherentIff(needs, Entitled(s, c), m);
  }

  lemma ToggleCoherentIff(needs: Requires, before: set<Module>, m: Module)
    requires Coherent(needs, before)
    ensures Coherent(needs, before + {m}) <==> m in before || needs(m) <= before + {m}
    ensures Coherent(needs, before - {m}) <==> forall x :: x in before && x != m ==> m !in needs(x)
  {
    if forall x :: x in before && x != m ==> m !in needs(x) {
      forall x | x in before - {m} ensures needs(x) <= before - {m} {
        assert needs(x) <= before;
      }
    }
  }

  /** So a downgrade strands a granted module: analytics on top of Starter has no history. */
  lemma DowngradeCanStrand(s: State, c: Company)
    requires Agrees(s) && c in s.plans && s.plans[c] == Standard
    requires RowsOf(s.overrides, c) == map[Analytics := true]
    ensures Coherent(ModuleRequires, Entitled(s, c))
    ensures !Coherent(ModuleRequires, Entitled(ApplyPlan(s, c, Starter), c))
  {
    PlansAreCoherent(Standard);
    PlansAreCoherent(Starter);
    EntitledAfterPlan(s, c, Starter);
    AnalyticsNeedsHistory(STANDARD_MODULES);
    AnalyticsNeedsHistory(STARTER_MODULES);
  }

  lemma AnalyticsNeedsHistory(base: set<Module>)
    requires Coherent(ModuleRequires, base)
    ensures Coherent(ModuleRequires, Overlay(base, map[Analytics := true])) <==> TripHistory in base
  {
    GrantFits(base, Analytics, TripHistory);
    OverlayCoherentIff(ModuleRequires, base, map[Analytics := true]);
  }

  lemma GrantFits(base: set<Module>, m: Module, need: Module)
    requires ModuleRequires(m) == {need} && m != need
    ensures OverridesFit(ModuleRequires, base, map[m := true]) <==> need in base
  {
    assert Granted(map[m := true]) == {m} && Revoked(map[m := true]) == {};
  }

  const LABELS: Overrides := map[QrGoods := true, GoodsVerification := true]

  lemma LabelsFit(base: set<Module>)
    ensures OverridesFit(ModuleRequires, base, LABELS)
    ensures GoodsVerification in Overlay(base, LABELS) && QrGoods in Overlay(base, LABELS)
  {
    assert Granted(LABELS) == {QrGoods, GoodsVerification} && Revoked(LABELS) == {};
    assert ModuleRequires(QrGoods) == {} && ModuleRequires(GoodsVerification) == {QrGoods};
  }

  lemma LabelsStrand(base: set<Module>)
    requires Coherent(ModuleRequires, base) && QrGoods !in base
    ensures Coherent(ModuleRequires, Overlay(base, LABELS))
    ensures !Coherent(ModuleRequires, Overlay(base, LABELS - {QrGoods}))
  {
    LabelsFit(base);
    OverlayCoherentIff(ModuleRequires, base, LABELS);
    OverlayAfterClear(base, LABELS, QrGoods);
    ToggleCoherentIff(ModuleRequires, Overlay(base, LABELS), QrGoods);
    assert QrGoods in ModuleRequires(GoodsVerification);
  }

  /** And clearing the QR_GOODS grant strands goods verification on top of Starter. */
  lemma ClearingCanStrand(s: State, c: Company)
    requires Agrees(s) && c in s.plans && s.plans[c] == Starter && RowsOf(s.overrides, c) == LABELS
    ensures Coherent(ModuleRequires, Entitled(s, c))
    ensures !Coherent(ModuleRequires, Entitled(ClearOverride(s, c, QrGoods), c))
  {
    PlansAreCoherent(Starter);
    EntitledAfterClear(s, c, QrGoods);
    LabelsStrand(STARTER_MODULES);
  }
}
