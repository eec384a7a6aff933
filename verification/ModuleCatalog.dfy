/** The sellable modules, the plans, and which module needs which. */
module ModuleCatalog {

  datatype Module =
    | Core | Fleet | Trips | GpsTracking | TripHistory | Reports | Analytics | Documents | Payments | Support
    | QrGoods | GoodsVerification | CustodyTracking | TheftDetection | GpsAnchoring | Reputation
    | ClaimsEvidence | FinancingRails

  datatype Plan = Starter | Standard | Professional | Enterprise

  const STARTER_MODULES: set<Module> := {Core, Fleet, Trips, GpsTracking, Support}
  const STANDARD_MODULES: set<Module> := STARTER_MODULES + {TripHistory, Reports, Analytics, Documents, Payments}
  const PROFESSIONAL_MODULES: set<Module> := STANDARD_MODULES + {QrGoods, GoodsVerification, CustodyTracking}
  const ENTERPRISE_MODULES: set<Module> :=
    PROFESSIONAL_MODULES + {TheftDetection, GpsAnchoring, Reputation, ClaimsEvidence, FinancingRails}

  function PlanModules(p: Plan): set<Module> {
    match p
    case Starter => STARTER_MODULES
    case Standard => STANDARD_MODULES
    case Professional => PROFESSIONAL_MODULES
    case Enterprise => ENTERPRISE_MODULES
  }

  /** A prerequisite table; theorems hold for every one unless they name the real one. */
  type Requires = Module -> set<Module>

  /** The real table, MODULE_REQUIRES. */
  function ModuleRequires(m: Module): set<Module> {
    match m
    case GoodsVerification => {QrGoods}
    case CustodyTracking => {QrGoods}
    case TheftDetection => {QrGoods, CustodyTracking}
    case GpsAnchoring => {GpsTracking}
    case ClaimsEvidence => {CustodyTracking, Documents}
    case FinancingRails => {Documents, CustodyTracking}
    case Reputation => {CustodyTracking}
    case Analytics => {TripHistory}
    case _ => {}
  }

  /** Every enabled module has what it needs. */
  ghost predicate Coherent(needs: Requires, enabled: set<Module>) {
    forall m :: m in enabled ==> needs(m) <= enabled
  }

  /** The enabled modules that lack a prerequisite. */
  function Orphans(needs: Requires, enabled: set<Module>): set<Module> {
    set m | m in enabled && !(needs(m) <= enabled)
  }

  lemma CoherentMeansNoOrphans(needs: Requires, enabled: set<Module>)
    ensures Coherent(needs, enabled) <==> Orphans(needs, enabled) == {}
  {
    if Orphans(needs, enabled) == {} {
      forall m | m in enabled ensures needs(m) <= enabled {
        assert m !in Orphans(needs, enabled);
      }
    }
  }

  /** What a revocation leaves of an enabled set: the module goes, and what lacks it. */
  function Remaining(needs: Requires, enabled: set<Module>, m: Module): set<Module> {
    enabled - {m} - Orphans(needs, enabled - {m})
  }

  /** That is one round of disabling: for any prerequisite table, a coherent set stays coherent
      exactly when no module that stays needs one that was disabled along. */
  lemma RemainingCoherentIff(needs: Requires, enabled: set<Module>, m: Module)
    requires Coherent(needs, enabled)
    ensures Coherent(needs, Remaining(needs, enabled, m)) <==>
              forall x :: x in Remaining(needs, enabled, m) ==> needs(x) !! Orphans(needs, enabled - {m})
  {
    var after, off := Remaining(needs, enabled, m), Orphans(needs, enabled - {m});
    if forall x :: x in after ==> needs(x) !! off {
      forall x | x in after ensures needs(x) <= after {
        assert x !in off;
      }
    }
  }

  /** Under the real table that is so for every module but one: QR_GOODS, exactly when claims
      evidence, financing or reputation is on, because those need custody tracking, which
      goes only in that same round. */
  lemma RemainingUnderModuleRequires(enabled: set<Module>, m: Module)
    requires Coherent(ModuleRequires, enabled)
    ensures Coherent(ModuleRequires, Remaining(ModuleRequires, enabled, m)) <==>
              m != QrGoods || enabled !! {ClaimsEvidence, FinancingRails, Reputation}
  {
    RemainingCoherentIff(ModuleRequires, enabled, m);
    var after, off := Remaining(ModuleRequires, enabled, m), Orphans(ModuleRequires, enabled - {m});
    forall x | x in off ensures m in ModuleRequires(x) {
      assert ModuleRequires(x) <= enabled;
    }
    if m != QrGoods {
      forall x | x in after ensures ModuleRequires(x) !! off {
        OnlyCustodyIsNeededAndNeeds(x);
      }
    } else if enabled !! {ClaimsEvidence, FinancingRails, Reputation} {
      forall x | x in after ensures ModuleRequires(x) !! off {
        NeedsCustody(x);
        OnlyCustodyIsNeededAndNeeds(x);
      }
    } else {
      var x :| x in enabled * {ClaimsEvidence, FinancingRails, Reputation};
      assert ModuleRequires(x) <= enabled && CustodyTracking in ModuleRequires(x);
      assert ModuleRequires(CustodyTracking) == {QrGoods};
      assert CustodyTracking in off;
      assert x in after;
    }
  }

  /** In the real table the only module that is needed and itself needs something is custody tracking. */
  lemma OnlyCustodyIsNeededAndNeeds(x: Module)
    ensures forall z :: z in ModuleRequires(x) && ModuleRequires(z) != {} ==>
              z == CustodyTracking && ModuleRequires(z) == {QrGoods}
  {
  }

  lemma NeedsCustody(x: Module)
    ensures CustodyTracking in ModuleRequires(x) <==>
              x in {TheftDetection, ClaimsEvidence, FinancingRails, Reputation}
    ensures x == TheftDetection ==> QrGoods in ModuleRequires(x)
  {
  }

  /** The price list: what each plan includes, told from the smallest plan that has it. */
  lemma PlansInclude(p: Plan, m: Module)
    ensures m in PlanModules(p) <==>
              match m
              case Core => true
              case Fleet => true
              case Trips => true
              case GpsTracking => true
              case Support => true
              case TripHistory => p != Starter
              case Reports => p != Starter
              case Analytics => p != Starter
              case Documents => p != Starter
              case Payments => p != Starter
              case QrGoods => p == Professional || p == Enterprise
              case GoodsVerification => p == Professional || p == Enterprise
              case CustodyTracking => p == Professional || p == Enterprise
              case _ => p == Enterprise
  {
  }

  /** The real table, as the promises a coherent company can rely on. */
  lemma CoherentMeans(on: set<Module>)
    ensures Coherent(ModuleRequires, on) <==>
              && (GoodsVerification in on ==> QrGoods in on)
              && (CustodyTracking in on ==> QrGoods in on)
              && (TheftDetection in on ==> QrGoods in on && CustodyTracking in on)
              && (GpsAnchoring in on ==> GpsTracking in on)
              && (ClaimsEvidence in on ==> CustodyTracking in on && Documents in on)
              && (FinancingRails in on ==> CustodyTracking in on && Documents in on)
              && (Reputation in on ==> CustodyTracking in on)
              && (Analytics in on ==> TripHistory in on)
  {
    if Coherent(ModuleRequires, on) {
      forall m | m in on ensures ModuleRequires(m) <= on {
      }
    }
  }

  /** Every plan on the price list works as sold. */
  lemma PlansAreCoherent(p: Plan)
    ensures Coherent(ModuleRequires, PlanModules(p))
  {
  }

  function Elements(list: seq<Module>): set<Module> {
    set m | m in list
  }

  datatype Problem = Problem(mod: Module, lacking: set<Module>)

  /** The problem list names exactly the orphans, each with exactly what it lacks. */
  method MissingPrerequisites(needs: Requires, enabled: seq<Module>) returns (problems: seq<Problem>)
    ensures forall p :: p in problems ==>
              p.mod in Orphans(needs, Elements(enabled)) && p.lacking == needs(p.mod) - Elements(enabled)
    ensures forall m :: m in Orphans(needs, Elements(enabled)) ==> exists p :: p in problems && p.mod == m
    ensures problems == [] <==> Coherent(needs, Elements(enabled))
  {
    var on := Elements(enabled);
    problems := [];
    for i := 0 to |enabled|
      invariant forall p :: p in problems ==> p.mod in Orphans(needs, on) && p.lacking == needs(p.mod) - on
      invariant forall k :: 0 <= k < i && enabled[k] in Orphans(needs, on) ==>
                  exists p :: p in problems && p.mod == enabled[k]
    {
      var missing := needs(enabled[i]) - on;
      ghost var before := problems;
      if missing != {} {
        assert enabled[i] in on;
        problems := problems + [Problem(enabled[i], missing)];
        assert Problem(enabled[i], missing) in problems;
      } else {
        forall n | n in needs(enabled[i]) ensures n in on { assert n !in missing; }
      }
      assert forall p :: p in before ==> p in problems;
    }
    forall m | m in Orphans(needs, on) ensures exists p :: p in problems && p.mod == m {
      var k :| 0 <= k < |enabled| && enabled[k] == m;
    }
    CoherentMeansNoOrphans(needs, on);
    if problems != [] {
      assert problems[0] in problems;
    }
  }
}
