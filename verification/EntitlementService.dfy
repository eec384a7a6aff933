/** The entitlement service: a cache over a store whose override rows come back in any order. */
module EntitlementService {
  import opened Wrappers
  import opened Seqs
  import opened ModuleCatalog
  import opened Entitlements

  datatype Row = Row(mod: Module, granted: bool)

  /** Every row of a company once, in some order. */
  ghost predicate ListsRows(list: seq<Row>, rows: Overrides) {
    && (forall r :: r in list <==> r.mod in rows && rows[r.mod] == r.granted)
    && (forall j, k :: 0 <= j < k < |list| ==> list[j].mod != list[k].mod)
  }

  class EntitlementStore {
    var plans: map<Company, Plan>
    var overrides: map<Company, Overrides>

    constructor ()
      ensures plans == map[] && overrides == map[]
    {
      plans, overrides := map[], map[];
    }

    method OverridesFor(c: Company) returns (list: seq<Row>)
      ensures ListsRows(list, RowsOf(overrides, c))
    {
      var rows := RowsOf(overrides, c);
      var left := rows.Keys;
      list := [];
      while left != {}
        invariant left <= rows.Keys
        invariant forall r :: r in list <==> r.mod in rows.Keys - left && rows[r.mod] == r.granted
        invariant forall j, k :: 0 <= j < k < |list| ==> list[j].mod != list[k].mod
        decreases |left|
      {
        var m :| m in left;
        assert forall j :: 0 <= j < |list| ==> list[j] in list;
        left := left - {m};
        list := list + [Row(m, rows[m])];
      }
    }

    method PutOverride(c: Company, m: Module, granted: bool)
      modifies this`overrides
      ensures overrides == old(overrides)[c := RowsOf(old(overrides), c)[m := granted]]
    {
      overrides := overrides[c := RowsOf(overrides, c)[m := granted]];
    }

    method ClearOverride(c: Company, m: Module)
      modifies this`overrides
      ensures overrides == old(overrides)[c := RowsOf(old(overrides), c) - {m}]
    {
      overrides := overrides[c := RowsOf(overrides, c) - {m}];
    }

    method SetPlan(c: Company, p: Plan)
      modifies this`plans
      ensures plans == old(plans)[c := p]
    {
      plans := plans[c := p];
    }
  }

  /** Plan modules with the rows applied one after the other. */
  function Applied(base: set<Module>, list: seq<Row>): set<Module> {
    if |list| == 0 then base
    else
      var last := list[|list| - 1];
      var before := Applied(base, list[..|list| - 1]);
      if last.granted then before + {last.mod} else before - {last.mod}
  }

  lemma {:induction false} AppliedMember(base: set<Module>, list: seq<Row>, m: Module)
    requires forall j, k :: 0 <= j < k < |list| ==> list[j].mod != list[k].mod
    ensures m in Applied(base, list) <==> Row(m, true) in list || (m in base && Row(m, false) !in list)
  {
    if |list| > 0 {
      var init, last := list[..|list| - 1], list[|list| - 1];
      AppliedMember(base, init, m);
      assert list == init + [last];
      if last.mod == m {
        assert forall g :: Row(m, g) !in init;
      }
    }
  }

  /** Whatever order the rows are read in, the result is the effective set. */
  lemma AnyOrderIsEffective(p: Plan, list: seq<Row>, rows: Overrides)
    requires ListsRows(list, rows)
    ensures Applied(PlanModules(p), list) == Effective(p, rows)
  {
    forall m ensures m in Applied(PlanModules(p), list) <==> m in Effective(p, rows) {
      AppliedMember(PlanModules(p), list, m);
    }
  }

  class Service {
    const store: EntitlementStore
    const needs: Requires
    var cache: map<Company, set<Module>>

    ghost function View(): State
      reads this, store
    {
      State(store.plans, store.overrides, cache)
    }

    constructor (store: EntitlementStore, needs: Requires)
      ensures this.store == store && this.needs == needs && cache == map[]
    {
      this.store, this.needs, cache := store, needs, map[];
    }

    method ModulesFor(c: Company) returns (modules: set<Module>)
      modifies this`cache
      ensures View() == Look(old(View()), c) && modules == Seen(old(View()), c)
    {
      if c in cache { return cache[c]; }
      if c !in store.plans { return {}; }
      var base := PlanModules(store.plans[c]);
      var list := store.OverridesFor(c);
      ghost var start := base;
      for i := 0 to |list|
        invariant base == Applied(start, list[..i])
        invariant cache == old(cache)
      {
        assert list[..i + 1][..i] == list[..i];
        if list[i].granted { base := base + {list[i].mod}; } else { base := base - {list[i].mod}; }
      }
      TakeAll(list);
      AnyOrderIsEffective(store.plans[c], list, RowsOf(store.overrides, c));
      cache := cache[c := base];
      return base;
    }

    method Has(c: Company, m: Module) returns (ok: bool)
      modifies this`cache
      ensures View() == Look(old(View()), c) && (ok <==> m in Seen(old(View()), c))
    {
      var modules := ModulesFor(c);
      ok := m in modules;
    }

    method Invalidate(c: Company)
      modifies this`cache
      ensures cache == old(cache) - {c}
    {
      cache := cache - {c};
    }

    method ApplyPlan(c: Company, p: Plan) returns (modules: set<Module>)
      modifies this`cache, store`plans
      ensures View() == Entitlements.ApplyPlan(old(View()), c, p) && modules == Entitled(View(), c)
    {
      store.SetPlan(c, p);
      Invalidate(c);
      modules := ModulesFor(c);
    }

    /** None reports a missing prerequisite; nothing but the cache is touched then. */
    method Grant(c: Company, m: Module) returns (r: Option<set<Module>>)
      modifies this`cache, store`overrides
      ensures View() == Entitlements.Grant(needs, old(View()), c, m)
      ensures r == if Blocked(needs, old(View()), c, m) then None else Some(Entitled(View(), c))
    {
      var current := ModulesFor(c);
      var proposed := current + {m};
      if !(needs(m) <= proposed) { return None; }
      store.PutOverride(c, m, true);
      PutOne(RowsOf(old(store.overrides), c), m, true);
      Invalidate(c);
      var modules := ModulesFor(c);
      return Some(modules);
    }

    method SwitchOff(c: Company, ms: set<Module>)
      modifies store`overrides
      ensures store.overrides == if ms == {} then old(store.overrides)
                                 else old(store.overrides)[c := RowsOf(old(store.overrides), c) + Rows(ms, false)]
    {
      ghost var rows := RowsOf(store.overrides, c);
      var left, done := ms, {};
      assert rows + Rows({}, false) == rows;
      while left != {}
        modifies store`overrides
        invariant left <= ms && done == ms - left
        invariant RowsOf(store.overrides, c) == rows + Rows(done, false)
        invariant store.overrides == if done == {} then old(store.overrides)
                                     else old(store.overrides)[c := RowsOf(store.overrides, c)]
        decreases |left|
      {
        var x :| x in left;
        store.PutOverride(c, x, false);
        PutMore(rows, done, x);
        left, done := left - {x}, done + {x};
      }
      assert done == ms;
    }

    /** The module and everything that then lacks a prerequisite are switched off. */
    method Revoke(c: Company, m: Module) returns (modules: set<Module>, alsoDisabled: set<Module>)
      modifies this`cache, store`overrides
      ensures View() == Entitlements.Revoke(needs, old(View()), c, m)
      ensures alsoDisabled == AlsoDisabled(needs, old(View()), c, m)
      ensures modules == Entitled(View(), c)
    {
      var current := ModulesFor(c);
      var orphaned := Orphans(needs, current - {m});
      SwitchOff(c, {m} + orphaned);
      Invalidate(c);
      modules := ModulesFor(c);
      return modules, orphaned;
    }

    method ClearOverride(c: Company, m: Module)
      modifies this`cache, store`overrides
      ensures View() == Entitlements.ClearOverride(old(View()), c, m)
    {
      store.ClearOverride(c, m);
      Invalidate(c);
    }
  }

  lemma PutOne(rows: Overrides, m: Module, granted: bool)
    ensures rows[m := granted] == rows + Rows({m}, granted)
  {
  }

  lemma PutMore(rows: Overrides, done: set<Module>, m: Module)
    ensures (rows + Rows(done, false))[m := false] == rows + Rows(done + {m}, false)
  {
  }
}
