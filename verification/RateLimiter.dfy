/** The limiter: what is installed is the plan, or nothing is. */
module RateLimiter {
  import opened Common
  import opened RateLimitPlan
  import opened RateLimitKernel
  import opened RateLimitRules
  import opened RateLimitConverge

  datatype Code = Fine | LogUnavailable | ApplyFailed

  /** How a cleanup ends: nothing of the module's is left, or it fails over something. */
  datatype Sweep = Swept(hooks: set<Dev>) | Unswept(left: Kernel)

  /** What one synchronisation meets outside. */
  datatype Outside = Outside(routes: Option<Routes>, logFails: bool, flows: map<Email, seq<Flow>>, luck: Luck,
      first: Sweep, last: Sweep)

  /** A target of Cloud's as it arrives. */
  datatype Raw = Unusable | Invalid | Decoded(target: Target)

  const NO_WISH := Desired(map[], map[])

  /** What is wanted: nothing without limits, else the plan of the limits. */
  ghost predicate Wished(limits: map<Group, Target>, out: Outside, want: Desired) {
    if limits == map[] then want == NO_WISH
    else
      && out.routes.Some? && Right(limits, out.flows, out.routes.value, want)
      && (Whole(limits, out.flows, out.routes.value, want) || |want.rules| == MAX_FILTERS)
  }

  function NewLimit(limits: map<Group, Target>, g: Group, raw: Raw): Option<Target> {
    match raw
    case Unusable => if g in limits then Some(limits[g]) else None
    case Invalid => None
    case Decoded(target) => if target.mbps > 0 && target.emails != {} then Some(target) else None
  }

  // ------------------------------------------------------------------- drift

  function HooksOn(k: Kernel, d: Dev): set<Place> {
    set p | p in k.filters && p.dev == d
  }

  function RulesOn(b: Book, d: Dev): set<Rule> {
    set key | key in b.filters && key.dev == d
  }

  /** An interface that cannot be read, or does not show as many filters as the book. */
  ghost predicate Drift(b: Book, k: Kernel, unreadable: set<Dev>) {
    exists d :: d in b.clsact && (d in unreadable || |HooksOn(k, d)| != |RulesOn(b, d)|)
  }

  /** A book that is true of the kernel shows no drift by itself. */
  lemma TrueHasNoDrift(b: Book, k: Kernel, d: Dev)
    requires True(b, k)
    ensures |HooksOn(k, d)| == |RulesOn(b, d)|
  {
    assert Mirrors(b.filters, k.filters);
    PlacesApart(b, k);
    SamePlaces(b.filters, RulesOn(b, d));
    forall p
      ensures p in HooksOn(k, d) <==> p in Places(b.filters, RulesOn(b, d))
    {
      if p in HooksOn(k, d) {
        assert k.filters[p].key in RulesOn(b, d);
      }
    }
    assert HooksOn(k, d) == Places(b.filters, RulesOn(b, d));
  }

  ghost predicate Apart(filters: map<Rule, Installed>) {
    forall key, other ::
      key in filters && other in filters && At(key, filters[key].handle) == At(other, filters[other].handle) ==>
        key == other
  }

  lemma PlacesApart(b: Book, k: Kernel)
    requires Mirrors(b.filters, k.filters)
    ensures Apart(b.filters)
  {
    forall key, other | key in b.filters && other in b.filters
        && At(key, b.filters[key].handle) == At(other, b.filters[other].handle)
      ensures key == other
    {
      assert k.filters[At(key, b.filters[key].handle)].key == key;
    }
  }

  function Places(filters: map<Rule, Installed>, keys: set<Rule>): set<Place>
    requires keys <= filters.Keys
  {
    set key | key in keys :: At(key, filters[key].handle)
  }

  lemma PlacesMore(filters: map<Rule, Installed>, keys: set<Rule>, one: Rule)
    requires keys <= filters.Keys && one in keys && Apart(filters)
    ensures Places(filters, keys) == Places(filters, keys - {one}) + {At(one, filters[one].handle)}
    ensures At(one, filters[one].handle) !in Places(filters, keys - {one})
  {
  }

  lemma {:induction false} SamePlaces(filters: map<Rule, Installed>, keys: set<Rule>)
    requires keys <= filters.Keys && Apart(filters)
    ensures |Places(filters, keys)| == |keys|
    decreases keys
  {
    if keys == {} {
      assert Places(filters, keys) == {};
    } else {
      var one :| one in keys;
      PlacesMore(filters, keys, one);
      hide Places, Apart;
      SamePlaces(filters, keys - {one});
    }
  }

  // ---------------------------------------------------------- implementation

  class Limiter {
    const tc: Tc
    var limits: map<Group, Target>
    var clean: bool
    var rules: Rules
    var code: Code

    /** Once clean, the book is true of the kernel. */
    ghost predicate Valid()
      reads this, rules, tc
    {
      clean ==> True(rules.View(), tc.kernel)
    }

    constructor (tc: Tc)
      ensures this.tc == tc && fresh(rules) && Valid() && !clean && limits == map[]
    {
      this.tc := tc;
      limits, clean, code := map[], false, Fine;
      rules := new Rules();
    }

    /** Removes every rule of the module's, whichever process added it. */
    method Cleanup(sweep: Sweep) returns (ok: bool)
      modifies tc
      ensures ok <==> sweep.Swept?
      ensures ok ==> Bare(tc.kernel)
    {
      match sweep
      case Swept(hooks) =>
        tc.kernel := Kernel(tc.kernel.clsact * hooks, map[], map[]);
        ok := true;
      case Unswept(left) =>
        tc.kernel := left;
        ok := false;
    }

    method RemoveAll(sweep: Sweep) returns (ok: bool)
      modifies this`rules, this`clean, tc
      ensures ok == clean == sweep.Swept? && fresh(rules) && Valid()
      ensures ok ==> Bare(tc.kernel) && rules.View() == NOTHING
    {
      rules := new Rules();
      clean := false;
      ok := Cleanup(sweep);
      if ok {
        BareIsTrue(tc.kernel);
        clean := true;
      }
    }

    method Want(out: Outside) returns (want: Desired, code: Code)
      ensures code == (if limits == map[] then Fine
                       else if out.routes.None? || |out.routes.value.v4| + |out.routes.value.v6| == 0 then ApplyFailed
                       else if out.logFails then LogUnavailable else Fine)
      ensures code != ApplyFailed ==> Wished(limits, out, want)
    {
      if |limits| == 0 {
        return NO_WISH, Fine;
      }
      if out.routes.None? || |out.routes.value.v4| + |out.routes.value.v6| == 0 {
        return NO_WISH, ApplyFailed;
      }
      want := Plan(limits, out.flows, out.routes.value);
      code := if out.logFails then LogUnavailable else Fine;
    }

    /** All or nothing: without an error either the kernel has the plan, or nothing of
        the module's is left and the code says so. With an error it is not clean. */
    method Sync(out: Outside) returns (ok: bool, ghost want: Desired)
      requires Valid() && 0 !in limits
      requires clean ==> rules.nextHandle + MAX_FILTERS < HANDLES
      modifies this`rules, this`clean, this`code, rules, tc
      ensures Valid() && (rules == old(rules) || fresh(rules)) && ok == clean
      ensures ok && code != ApplyFailed ==> Wished(limits, out, want) && Converged(rules.View(), tc.kernel, want)
      ensures ok && code == ApplyFailed ==> Bare(tc.kernel)
      ensures !ok ==> code == ApplyFailed
      ensures code == LogUnavailable ==> out.logFails && limits != map[]
      ensures code == Fine && limits != map[] ==> !out.logFails
    {
      want := NO_WISH;
      if !clean {
        ok := RemoveAll(out.first);
        if !ok {
          code := ApplyFailed;
          return;
        }
      }
      ok, want := Follow(out);
    }

    method Follow(out: Outside) returns (ok: bool, ghost want: Desired)
      requires clean && True(rules.View(), tc.kernel) && 0 !in limits
      requires rules.nextHandle + MAX_FILTERS < HANDLES
      modifies this`rules, this`clean, this`code, rules, tc
      ensures Valid() && (rules == old(rules) || fresh(rules)) && ok == clean
      ensures ok && code != ApplyFailed ==> Wished(limits, out, want) && Converged(rules.View(), tc.kernel, want)
      ensures ok && code == ApplyFailed ==> Bare(tc.kernel)
      ensures !ok ==> code == ApplyFailed
      ensures code == LogUnavailable ==> out.logFails && limits != map[]
      ensures code == Fine && limits != map[] ==> !out.logFails
    {
      var wish, reason := Want(out);
      want := wish;
      if reason == ApplyFailed {
        code := reason;
        ok := RemoveAll(out.last);
        return;
      }
      assert |wish.rules| <= MAX_FILTERS && 0 !in wish.rates;
      hide Wished, True;
      var done, batch := rules.Converge(tc, wish, out.luck);
      if !done {
        code := ApplyFailed;
        ok := RemoveAll(out.last);
        return;
      }
      ConvergedTrue(rules.View(), tc.kernel, wish);
      code := reason;
      ok := true;
    }

    method Drifted(unreadable: set<Dev>) returns (drifted: bool)
      ensures drifted <==> Drift(rules.View(), tc.kernel, unreadable)
    {
      var left := rules.clsact;
      while left != {}
        invariant left <= rules.clsact
        invariant forall d :: d in rules.clsact && d !in left ==>
                    d !in unreadable && |HooksOn(tc.kernel, d)| == |RulesOn(rules.View(), d)|
        decreases left
      {
        var d :| d in left;
        if d in unreadable || |HooksOn(tc.kernel, d)| != |RulesOn(rules.View(), d)| {
          return true;
        }
        left := left - {d};
      }
      return false;
    }

    method TakeTargets(targets: map<Group, Raw>) returns (taken: map<Group, Target>)
      ensures forall g :: g in taken <==> g in targets && NewLimit(limits, g, targets[g]).Some?
      ensures forall g :: g in taken ==> Some(taken[g]) == NewLimit(limits, g, targets[g])
    {
      taken := map[];
      var left := targets.Keys;
      while left != {}
        invariant left <= targets.Keys
        invariant forall g :: g in taken <==> g in targets && g !in left && NewLimit(limits, g, targets[g]).Some?
        invariant forall g :: g in taken ==> Some(taken[g]) == NewLimit(limits, g, targets[g])
        decreases left
      {
        var g :| g in left;
        var limit := NewLimit(limits, g, targets[g]);
        if limit.Some? {
          taken := taken[g := limit.value];
        }
        left := left - {g};
      }
    }

    /** Takes all limits at once. Even rules changed by hand end in the plan or in
        nothing, as long as the change shows in a number of filters. */
    method Apply(targets: map<Group, Raw>, out: Outside, unreadable: set<Dev>) returns (codes: map<Group, Code>,
                 ok: bool, ghost want: Desired)
      requires clean ==> True(rules.View(), tc.kernel) || Drift(rules.View(), tc.kernel, unreadable)
      requires 0 !in targets
      requires clean ==> rules.nextHandle + MAX_FILTERS < HANDLES
      modifies this, rules, tc
      ensures Valid() && ok == clean
      ensures forall g :: g in limits <==> g in targets && NewLimit(old(limits), g, targets[g]).Some?
      ensures forall g :: g in limits ==> Some(limits[g]) == NewLimit(old(limits), g, targets[g])
      ensures !ok ==> codes.Keys == targets.Keys && forall g :: g in codes ==> codes[g] == ApplyFailed
      ensures ok && codes == map[] ==>
                (Wished(limits, out, want) && Converged(rules.View(), tc.kernel, want))
                    || (limits == map[] && Bare(tc.kernel))
      ensures ok && (exists g :: g in codes && codes[g] == ApplyFailed) ==> codes.Keys == limits.Keys && Bare(tc.kernel)
      ensures ok && (exists g :: g in codes && codes[g] == LogUnavailable) ==>
                codes.Keys == limits.Keys && Wished(limits, out, want) && Converged(rules.View(), tc.kernel, want)
      ensures forall g :: g in codes ==> codes[g] != Fine
    {
      limits := TakeTargets(targets);
      if clean {
        var drifted := Drifted(unreadable);
        if drifted {
          clean := false;
        }
      }
      hide Wished, Converged, True, Drift;
      ok, want := Sync(out);
      codes := map[];
      if !ok {
        codes := map g | g in targets :: ApplyFailed;
      } else if code != Fine {
        codes := map g | g in limits :: code;
      }
    }
  }

  lemma ConvergedTrue(b: Book, k: Kernel, want: Desired)
    requires Converged(b, k, want)
    ensures True(b, k)
  {
  }

  // -------------------------------------------- the second pass may have work left

  const CROWDED_BOOK := Book({}, map g: Group | 1 <= g < MAX_USERS :: ACTION_BASE + 1 + g,
                             map i: Index | ACTION_BASE + 1 < i <= ACTION_BASE + MAX_USERS :: 5, map[],
                                 {ACTION_BASE + 1}, 0)

  const CROWDED_KERNEL := Kernel({}, map i: Index | ACTION_BASE < i <= ACTION_BASE + MAX_USERS :: Policing(5), map[])

  const CROWDED_WISH := Desired(map g: Group | 1 <= g <= MAX_USERS :: 5, map[])

  /** With as many groups as there are indexes and one index still an orphan's, a pass
      goes through and the next one still has a batch to run. */
  lemma SecondPassWorks(index: map<Group, Index>)
    requires Assigned(CROWDED_BOOK.(orphans := {}), CROWDED_WISH, index)
    ensures Converged(CROWDED_BOOK, CROWDED_KERNEL, CROWDED_WISH)
    ensures !Quiet(CROWDED_BOOK.(orphans := {}), CROWDED_KERNEL, CROWDED_WISH, index)
  {
    CrowdedConverged();
    assert CROWDED_BOOK.orphans - {ACTION_BASE + 1} == {};
    assert MAX_USERS in CROWDED_WISH.rates && MAX_USERS !in CROWDED_BOOK.actions;
    assert ACTION_BASE + 1 in CROWDED_BOOK.orphans * {ACTION_BASE + 1};
    hide Quiet, Converged, Assigned;
    SecondPass(CROWDED_BOOK, CROWDED_KERNEL, CROWDED_WISH, {ACTION_BASE + 1}, index);
  }

  lemma CrowdedConverged()
    ensures Converged(CROWDED_BOOK, CROWDED_KERNEL, CROWDED_WISH)
  {
    hide Policing, Burst;
    forall i | i in CROWDED_KERNEL.actions
      ensures i in CROWDED_BOOK.orphans || Used(CROWDED_BOOK.actions, i)
    {
      if i != ACTION_BASE + 1 {
        assert CROWDED_BOOK.actions[i - ACTION_BASE - 1] == i;
      }
    }
  }
}
