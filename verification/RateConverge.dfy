/** The pass itself: orphans are let go, indexes given out, one batch is run, and
    what was done is written down. */
module RateLimitConverge {
  import opened Common
  import opened RateLimitPlan
  import opened RateLimitKernel
  import opened RateLimitRules

  lemma TrueHooked(b: Book, k: Kernel)
    requires True(b, k)
    ensures b.clsact <= k.clsact
  {
  }

  /** Whether there is nothing to do depends on the book and the hooks alone. */
  lemma QuietHooked(b: Book, x: Kernel, y: Kernel, want: Desired, index: map<Group, Index>)
    requires x.clsact == y.clsact
    ensures Quiet(b, x, want, index) <==> Quiet(b, y, want, index)
  {
  }

  /** An orphan is bound to no filter, so that it can go. */
  lemma ReleaseTrue(b: Book, k: Kernel, i: Index)
    requires True(b, k) && i in b.orphans
    ensures i in k.actions && !Bound(k, i)
    ensures True(b.(orphans := b.orphans - {i}), k.(actions := k.actions - {i}))
  {
    assert !Used(b.actions, i);
    assert forall p :: p in k.filters ==>
             k.filters[p].key in b.filters && k.filters[p].index == b.filters[k.filters[p].key].index;
    hide Policing, OwnIndex;
  }

  /** The indexes taken at the start of a pass, and those kept. */
  ghost predicate Kept(b: Book, want: Desired, index: map<Group, Index>, used: set<Index>, left: set<Group>) {
    && (forall i :: i in used <==> i in b.orphans || exists g :: g in b.actions && g !in left && b.actions[g] == i)
    && (forall g :: g in index <==> g in b.actions && g !in left && g in want.rates)
    && (forall g :: g in index ==> index[g] == b.actions[g])
  }

  method KeepIndexes(b: Book, want: Desired) returns (index: map<Group, Index>, used: set<Index>)
    ensures Kept(b, want, index, used, {})
  {
    index, used := map[], b.orphans;
    var left := b.actions.Keys;
    while left != {}
      invariant left <= b.actions.Keys && Kept(b, want, index, used, left)
      decreases left
    {
      var g :| g in left;
      used := used + {b.actions[g]};
      if g in want.rates {
        index := index[g := b.actions[g]];
      }
      left := left - {g};
    }
  }

  ghost predicate Domain(kept: map<Group, Index>, newcomers: seq<Group>, n: nat, index: map<Group, Index>)
    requires n <= |newcomers|
  {
    && (forall g :: g in index <==> g in kept || g in newcomers[..n])
    && (forall g :: g in kept ==> index[g] == kept[g])
  }

  ghost predicate Climbs(used: set<Index>, newcomers: seq<Group>, n: nat, next: nat, index: map<Group, Index>)
    requires n <= |newcomers|
  {
    && (forall k :: 0 <= k < n ==> newcomers[k] in index && ACTION_BASE < index[newcomers[k]] < ACTION_BASE + next
                                   && index[newcomers[k]] !in used)
    && (forall j, k :: 0 <= j < k < n ==> index[newcomers[j]] < index[newcomers[k]])
  }

  ghost predicate Covered(used: set<Index>, next: nat, index: map<Group, Index>) {
    forall i :: ACTION_BASE < i < ACTION_BASE + next ==> i in used || Used(index, i)
  }

  /** The newcomers before the n-th have the lowest free indexes below the next. */
  ghost predicate Given(kept: map<Group, Index>, used: set<Index>, newcomers: seq<Group>, n: nat, next: nat,
                        index: map<Group, Index>)
    requires n <= |newcomers|
  {
    && 1 <= next <= MAX_USERS + 1
    && Domain(kept, newcomers, n, index) && Climbs(used, newcomers, n, next, index) && Covered(used, next, index)
  }

  lemma CoveredMore(used: set<Index>, next: nat, index: map<Group, Index>, g: Group)
    requires Covered(used, next, index) && g !in index
    ensures Covered(used, next + 1, index[g := ACTION_BASE + next])
  {
    var after := index[g := ACTION_BASE + next];
    forall i | ACTION_BASE < i < ACTION_BASE + next + 1
      ensures i in used || Used(after, i)
    {
      if i == ACTION_BASE + next {
        assert after[g] == i;
      } else if Used(index, i) {
        var h :| h in index && index[h] == i;
        assert after[h] == i;
      }
    }
  }

  lemma ClimbsMore(used: set<Index>, newcomers: seq<Group>, n: nat, next: nat, index: map<Group, Index>)
    requires n < |newcomers| && Climbs(used, newcomers, n, next, index) && 1 <= next
    requires newcomers[n] !in index && ACTION_BASE + next !in used
    ensures Climbs(used, newcomers, n + 1, next + 1, index[newcomers[n] := ACTION_BASE + next])
  {
  }

  lemma DomainMore(kept: map<Group, Index>, newcomers: seq<Group>, n: nat, index: map<Group, Index>, i: Index)
    requires n < |newcomers| && Domain(kept, newcomers, n, index)
    requires Ascending(newcomers) && newcomers[n] !in kept
    ensures newcomers[n] !in index
    ensures Domain(kept, newcomers, n + 1, index[newcomers[n] := i])
  {
  }

  lemma GivenMore(kept: map<Group, Index>, used: set<Index>, newcomers: seq<Group>, n: nat, next: nat,
                  index: map<Group, Index>)
    requires n < |newcomers| && Given(kept, used, newcomers, n, next, index) && next <= MAX_USERS
    requires Ascending(newcomers) && newcomers[n] !in kept && ACTION_BASE + next !in used
    ensures Given(kept, used, newcomers, n + 1, next + 1, index[newcomers[n] := ACTION_BASE + next])
  {
    hide Domain, Climbs, Covered;
    DomainMore(kept, newcomers, n, index, ACTION_BASE + next);
    ClimbsMore(used, newcomers, n, next, index);
    CoveredMore(used, next, index, newcomers[n]);
  }

  lemma GivenSkips(kept: map<Group, Index>, used: set<Index>, newcomers: seq<Group>, n: nat, next: nat,
                   index: map<Group, Index>)
    requires n <= |newcomers| && Given(kept, used, newcomers, n, next, index)
    requires next <= MAX_USERS && ACTION_BASE + next in used
    ensures Given(kept, used, newcomers, n, next + 1, index)
  {
  }

  lemma GivenBound(kept: map<Group, Index>, used: set<Index>, newcomers: seq<Group>, n: nat, next: nat,
                   index: map<Group, Index>)
    requires n <= |newcomers| && Given(kept, used, newcomers, n, next, index)
    ensures next <= MAX_USERS + 1
  {
  }

  method GiveIndexes(kept: map<Group, Index>, used: set<Index>, newcomers: seq<Group>)
    returns (index: map<Group, Index>, ghost n: nat, ghost next: nat)
    requires Ascending(newcomers) && forall k :: 0 <= k < |newcomers| ==> newcomers[k] !in kept
    ensures n <= |newcomers| && Given(kept, used, newcomers, n, next, index)
    ensures n < |newcomers| ==> next > MAX_USERS
  {
    index := kept;
    var at: nat := 1;
    assert Given(kept, used, newcomers, 0, at, index);
    hide Given;
    for k := 0 to |newcomers|
      invariant Given(kept, used, newcomers, k, at, index)
    {
      GivenBound(kept, used, newcomers, k, at, index);
      while at <= MAX_USERS && ACTION_BASE + at in used
        invariant at <= MAX_USERS + 1
        invariant Given(kept, used, newcomers, k, at, index)
      {
        GivenSkips(kept, used, newcomers, k, at, index);
        at := at + 1;
      }
      if at > MAX_USERS {
        return index, k, at;
      }
      GivenMore(kept, used, newcomers, k, at, index);
      index := index[newcomers[k] := ACTION_BASE + at];
      at := at + 1;
    }
    return index, |newcomers|, at;
  }

  lemma GivenAssigned(b: Book, want: Desired, kept: map<Group, Index>, used: set<Index>, newcomers: seq<Group>,
                      n: nat, next: nat,
                      index: map<Group, Index>)
    requires Kept(b, want, kept, used, {}) && Ascending(newcomers)
    requires forall g :: g in newcomers <==> g in want.rates && g !in kept
    requires n <= |newcomers| && Given(kept, used, newcomers, n, next, index) && (n < |newcomers| ==> next > MAX_USERS)
    ensures Assigned(b, want, index)
  {
    UsedOrNot(b, want, kept, used);
    assert forall g :: g in kept ==> g in index && index[g] == kept[g];
    assert forall g :: g in index && g !in kept ==> g in newcomers;
    hide Kept, Free, Used, Given;
    forall g | g in index && g !in kept
      ensures OwnIndex(index[g]) && index[g] !in used
      ensures forall i :: ACTION_BASE < i < index[g] ==> i in used || Used(index, i)
    {
      GivenIndex(kept, used, newcomers, n, next, index, g);
    }
    forall g, h | g in newcomers && h in index && h !in kept && g < h
      ensures g in index && index[g] < index[h]
    {
      GivenInOrder(kept, used, newcomers, n, next, index, g, h);
    }
    forall g, i | g in newcomers && g !in index && OwnIndex(i)
      ensures i in used || Used(index, i)
    {
      GivenAll(kept, used, newcomers, n, next, index, g, i);
    }
    AssignedBy(b, want, kept, used, newcomers, index);
  }

  lemma AssignedBy(b: Book, want: Desired, kept: map<Group, Index>, used: set<Index>, newcomers: seq<Group>,
                   index: map<Group, Index>)
    requires forall i :: i in used <==> !Free(b, i)
    requires forall g :: g in kept <==> g in b.actions && g in want.rates
    requires forall g :: g in kept ==> kept[g] == b.actions[g]
    requires forall g :: g in newcomers <==> g in want.rates && g !in kept
    requires forall g :: g in kept ==> g in index && index[g] == kept[g]
    requires forall g :: g in index && g !in kept ==> g in newcomers
    requires forall g :: g in index && g !in kept ==> OwnIndex(index[g]) && index[g] !in used
    requires forall g, i :: g in index && g !in kept && ACTION_BASE < i < index[g] ==> i in used || Used(index, i)
    requires forall g, h :: g in newcomers && h in index && h !in kept && g < h ==> g in index && index[g] < index[h]
    requires forall g, i :: g in newcomers && g !in index && OwnIndex(i) ==> i in used || Used(index, i)
    ensures Assigned(b, want, index)
  {
    hide Free, Used, OwnIndex;
  }

  lemma GivenIndex(kept: map<Group, Index>, used: set<Index>, newcomers: seq<Group>, n: nat, next: nat,
                   index: map<Group, Index>, g: Group)
    requires n <= |newcomers| && Given(kept, used, newcomers, n, next, index) && g in index && g !in kept
    ensures OwnIndex(index[g]) && index[g] !in used
    ensures forall i :: ACTION_BASE < i < index[g] ==> i in used || Used(index, i)
  {
    var k :| 0 <= k < n && newcomers[k] == g;
  }

  lemma GivenInOrder(kept: map<Group, Index>, used: set<Index>, newcomers: seq<Group>, n: nat, next: nat,
                     index: map<Group, Index>,
                     g: Group, h: Group)
    requires n <= |newcomers| && Given(kept, used, newcomers, n, next, index) && Ascending(newcomers)
    requires g in newcomers && h in index && h !in kept && g < h
    ensures g in index && index[g] < index[h]
  {
    var j :| 0 <= j < |newcomers| && newcomers[j] == g;
    var k :| 0 <= k < n && newcomers[k] == h;
    assert j < k;
  }

  lemma GivenAll(kept: map<Group, Index>, used: set<Index>, newcomers: seq<Group>, n: nat, next: nat,
                 index: map<Group, Index>,
                 g: Group, i: Index)
    requires n <= |newcomers| && Given(kept, used, newcomers, n, next, index) && (n < |newcomers| ==> next > MAX_USERS)
    requires g in newcomers && g !in index && OwnIndex(i)
    ensures i in used || Used(index, i)
  {
    assert newcomers[..|newcomers|] == newcomers;
  }

  lemma UsedOrNot(b: Book, want: Desired, kept: map<Group, Index>, used: set<Index>)
    requires Kept(b, want, kept, used, {})
    ensures forall i :: i in used <==> !Free(b, i)
    ensures forall g :: g in kept <==> g in b.actions && g in want.rates
    ensures forall g :: g in kept ==> kept[g] == b.actions[g]
  {
  }

  /** The batch runs through, and the kernel is then as wanted but for the book. */
  ghost predicate Reaches(k: Kernel, batch: seq<Line>, b: Book, want: Desired, index: map<Group, Index>,
                          added: map<Rule, Installed>,
                          handle: nat) {
    var after := After(k, batch);
    && Runs(k, batch) && Rated(index, after, want)
    && (forall i :: i in k.actions ==> i in after.actions)
    && (forall i :: i in after.actions ==> i in k.actions || Used(index, i))
    && Added(b.filters, want, index, want.rules.Keys, added, b.handle, handle) && b.handle <= handle
    && Mirrors(Staying(b.filters, want, index) + added, after.filters) && after.clsact == k.clsact + Devs(want, index)
  }

  /** The four parts of the batch, one after another. */
  lemma AllParts(k: Kernel, hooks: seq<Line>, polices: seq<Line>, dels: seq<Line>, adds: seq<Line>,
                 b: Book, want: Desired, index: map<Group, Index>, added: map<Rule, Installed>, handle: nat)
    requires Runs(k, hooks) && Hooked(k, After(k, hooks), Devs(want, index))
    requires Prepares(After(k, hooks), polices, b, want, index, index.Keys) && forall g :: g in index ==>
               g in want.rates
    requires Leaves(After(After(k, hooks), polices), dels, Staying(b.filters, want, index))
    requires Leaves(After(After(After(k, hooks), polices), dels), adds, Staying(b.filters, want, index) + added)
    requires Added(b.filters, want, index, want.rules.Keys, added, b.handle, handle) && b.handle <= handle
    ensures Reaches(k, hooks + polices + dels + adds, b, want, index, added, handle)
  {
    hide Staying, Devs, Added, Mirrors, Policing, Runs, After, Used;
    Both(k, hooks, polices);
    Both(k, hooks + polices, dels);
    Both(k, hooks + polices + dels, adds);
  }

  lemma AddableAfter(k: Kernel, filters: map<Rule, Installed>, want: Desired, index: map<Group, Index>)
    requires 0 !in index && Devs(want, index) <= k.clsact && forall g :: g in index ==> index[g] in k.actions
    ensures Addable(k, want, index, filters)
  {
  }

  /** Hooks change nothing the rest of the batch looks at. */
  lemma HookStill(b: Book, k: Kernel, k1: Kernel, want: Desired, index: map<Group, Index>)
    requires True(b, k) && Hooked(k, k1, Devs(want, index)) && Assigned(b, want, index) && 0 !in want.rates
    ensures Policed(b, k1) && Mirrors(b.filters, k1.filters) && Devs(want, index) <= k1.clsact
    ensures Injective(index) && 0 !in index && forall g :: g in index ==> g in want.rates
    ensures b.clsact <= k.clsact && forall key :: key in b.filters ==> b.filters[key].handle <= b.handle
  {
    IndexesOwn(b, want, index);
  }

  lemma PoliceStill(b: Book, k: Kernel, lines: seq<Line>, want: Desired, index: map<Group, Index>)
    requires Prepares(k, lines, b, want, index, index.Keys) && forall g :: g in index ==> g in want.rates
    requires Mirrors(b.filters, k.filters) && Devs(want, index) <= k.clsact
    ensures Mirrors(b.filters, After(k, lines).filters) && Devs(want, index) <= After(k, lines).clsact
    ensures forall g :: g in index ==> index[g] in After(k, lines).actions
  {
  }

  lemma DelStill(k: Kernel, lines: seq<Line>, filters: map<Rule, Installed>, want: Desired, index: map<Group, Index>)
    requires Leaves(k, lines, Staying(filters, want, index)) && 0 !in index
    requires Devs(want, index) <= k.clsact && forall g :: g in index ==> index[g] in k.actions
    ensures Mirrors(Staying(filters, want, index), After(k, lines).filters)
              && Addable(After(k, lines), want, index, filters)
  {
    AddableAfter(After(k, lines), filters, want, index);
  }

  lemma QuietParts(b: Book, k: Kernel, want: Desired, index: map<Group, Index>, added: map<Rule, Installed>,
                   handle: nat,
                   hooks: seq<Line>, polices: seq<Line>, dels: seq<Line>, adds: seq<Line>)
    requires hooks == [] <==> Devs(want, index) <= k.clsact
    requires polices == [] <==> forall g :: g in index ==> Keeps(b, want, index, g)
    requires dels == [] <==> forall key :: key in b.filters ==> Stays(b.filters, want, index, key)
    requires adds == [] <==> added == map[]
    requires Added(b.filters, want, index, want.rules.Keys, added, b.handle, handle)
    ensures hooks + polices + dels + adds == [] <==> Quiet(b, k, want, index)
  {
    hide Devs, Keeps, Stays, Adds, Aim;
  }

  /** What a batch that went through leads to, however it is written down. */
  lemma InstallNow(b: Book, k: Kernel, batch: seq<Line>, want: Desired, index: map<Group, Index>,
                   added: map<Rule, Installed>, handle: nat)
    requires True(b, k) && 0 !in want.rates && Assigned(b, want, index)
               && Reaches(k, batch, b, want, index, added, handle)
    ensures Runs(k, batch) && Injective(index) && forall g :: g in index ==> g in want.rates
    ensures batch == [] ==> After(k, batch) == k
    ensures forall nb :: Recorded(b.(handle := handle), want, index, added, handle, nb) ==>
              Converged(nb, After(k, batch), want)
  {
    IndexesOwn(b, want, index);
    forall nb | Recorded(b.(handle := handle), want, index, added, handle, nb)
      ensures Converged(nb, After(k, batch), want)
    {
      assert Recorded(b, want, index, added, handle, nb);
      ConvergedNow(b, k, After(k, batch), want, index, added, handle, nb);
    }
  }

  class Rules {
    var clsact: set<Dev>
    var actions: map<Group, Index>
    var rates: map<Index, nat>
    var filters: map<Rule, Installed>
    var orphans: set<Index>
    var nextHandle: nat

    function View(): Book
      reads this
    {
      Book(clsact, actions, rates, filters, orphans, nextHandle)
    }

    constructor ()
      ensures View() == NOTHING
    {
      clsact, actions, rates, filters, orphans, nextHandle := {}, map[], map[], map[], {}, 0;
    }

    /** Asks the kernel to let go of every orphan. */
    method Release(tc: Tc, luck: Luck)
      requires True(View(), tc.kernel)
      modifies this`orphans, tc
      ensures True(View(), tc.kernel) && orphans == old(orphans) - luck.released
      ensures tc.kernel == old(tc.kernel).(actions := tc.kernel.actions)
    {
      var left := orphans;
      ghost var k := tc.kernel;
      while left != {}
        invariant left <= orphans && orphans == old(orphans) - (luck.released - left)
        invariant True(View(), tc.kernel) && tc.kernel == k.(actions := tc.kernel.actions)
        decreases left
      {
        var i :| i in left;
        ReleaseTrue(View(), tc.kernel, i);
        hide True;
        var ok := tc.DelAction(i, luck);
        if ok {
          orphans := orphans - {i};
        }
        left := left - {i};
      }
    }

    method Assign(want: Desired) returns (index: map<Group, Index>)
      ensures Assigned(View(), want, index)
    {
      var kept, used := KeepIndexes(View(), want);
      var newcomers := Ordered(want.rates.Keys - kept.Keys);
      ghost var n, next;
      index, n, next := GiveIndexes(kept, used, newcomers);
      GivenAssigned(View(), want, kept, used, newcomers, n, next, index);
    }

    /** The indexes of the groups that lose theirs become orphans. */
    method Orphan(index: map<Group, Index>)
      modifies this`rates, this`orphans
      ensures orphans == old(orphans) + Dropped(actions, index)
    {
      var left := actions.Keys;
      ghost var before := orphans;
      while left != {}
        invariant left <= actions.Keys
        invariant orphans == before + set g | g in actions && g !in left
                    && IndexOf(index, g) != actions[g] :: actions[g]
        decreases left
      {
        var g :| g in left;
        if IndexOf(index, g) != actions[g] {
          orphans := orphans + {actions[g]};
          rates := rates - {actions[g]};
        }
        left := left - {g};
      }
      assert Dropped(actions, index) == set g | g in actions && g !in left
               && IndexOf(index, g) != actions[g] :: actions[g];
    }

    method Rate(want: Desired, index: map<Group, Index>)
      requires Injective(index) && forall g :: g in index ==> g in want.rates
      modifies this`rates
      ensures forall g :: g in index ==> index[g] in rates && rates[index[g]] == want.rates[g]
    {
      var left := index.Keys;
      while left != {}
        invariant left <= index.Keys
        invariant forall g :: g in index && g !in left ==> index[g] in rates && rates[index[g]] == want.rates[g]
        decreases left
      {
        var g :| g in left;
        rates := rates[index[g] := want.rates[g]];
        left := left - {g};
      }
    }

    /** Writes down a batch that went through. */
    method Record(want: Desired, index: map<Group, Index>, devs: set<Dev>, added: map<Rule, Installed>)
      requires devs == Devs(want, index) && Injective(index) && forall g :: g in index ==> g in want.rates
      modifies this`clsact, this`actions, this`rates, this`filters, this`orphans
      ensures Recorded(old(View()), want, index, added, nextHandle, View())
    {
      clsact := clsact + devs;
      filters := (map key | key in filters && Stays(filters, want, index, key) :: filters[key]) + added;
      Orphan(index);
      actions := index;
      Rate(want, index);
    }

    /** The batch from the rules in the book to those wanted, once the hooks are there. */
    method Prepare(ghost k: Kernel, hooks: seq<Line>, want: Desired, index: map<Group, Index>)
      returns (batch: seq<Line>, added: map<Rule, Installed>)
      requires True(View(), k) && 0 !in want.rates && Assigned(View(), want, index)
      requires Runs(k, hooks) && Hooked(k, After(k, hooks), Devs(want, index))
      requires hooks == [] <==> Devs(want, index) <= k.clsact
      requires nextHandle + |want.rules| < HANDLES
      modifies this`nextHandle
      ensures Reaches(k, batch, old(View()), want, index, added, nextHandle)
      ensures batch == [] <==> Quiet(old(View()), k, want, index)
    {
      ghost var b := View();
      HookStill(b, k, After(k, hooks), want, index);
      hide True, Policed, Filtered, Mirrors, OwnActions, OwnIndex, Assigned, Hooked, Prepares, Leaves, Added, Addable,
          Quiet, Reaches,
        Staying, Devs, Keeps, Stays, Runs, After, Injective, Aim, IndexOf, Burst, Policing, Recorded, Converged;
      var polices := ReplaceLines(After(k, hooks), View(), want, index);
      PoliceStill(b, After(k, hooks), polices, want, index);
      ghost var k2 := After(After(k, hooks), polices);
      var dels := DelLines(k2, filters, want, index);
      DelStill(k2, dels, filters, want, index);
      var adds, to;
      adds, added, to := AddLines(After(k2, dels), filters, want, index, nextHandle);
      AllParts(k, hooks, polices, dels, adds, b, want, index, added, to);
      QuietParts(b, k, want, index, added, to, hooks, polices, dels, adds);
      nextHandle := to;
      batch := hooks + polices + dels + adds;
    }

    /** Runs the batch, unless it is empty, and writes it down when it went through.
        The kernel never refuses a line of it. */
    method Install(tc: Tc, hooks: seq<Line>, want: Desired, index: map<Group, Index>, devs: set<Dev>, luck: Luck)
      returns (ok: bool, batch: seq<Line>)
      requires True(View(), tc.kernel) && 0 !in want.rates && Assigned(View(), want, index)
      requires Runs(tc.kernel, hooks) && Hooked(tc.kernel, After(tc.kernel, hooks), Devs(want, index))
      requires hooks == [] <==> Devs(want, index) <= tc.kernel.clsact
      requires nextHandle + |want.rules| < HANDLES && devs == Devs(want, index)
      modifies this, tc
      ensures ok ==> Converged(View(), tc.kernel, want) && actions == index
      ensures batch == [] <==> Quiet(old(View()), old(tc.kernel), want, index)
      ensures ok <==> luck.cut.None? || batch == []
    {
      hide True, Policed, Filtered, Mirrors, Assigned, Quiet, Reaches, Hooked, Runs, After, Devs, Converged, Recorded;
      ghost var b, k := View(), tc.kernel;
      var added;
      batch, added := Prepare(tc.kernel, hooks, want, index);
      ghost var k' := After(k, batch);
      InstallNow(b, k, batch, want, index, added, nextHandle);
      if batch != [] {
        var done, ran := tc.Batch(batch, luck);
        if !done {
          return false, batch;
        }
        assert batch[..ran] == batch;
      }
      Record(want, index, devs, added);
      return true, batch;
    }

    /** The interfaces that get filters. */
    method DevsWanted(want: Desired, index: map<Group, Index>) returns (devs: set<Dev>)
      ensures devs == Devs(want, index)
    {
      devs := set key | key in want.rules && IndexOf(index, want.rules[key]) != 0 :: key.dev;
      assert forall key :: key in want.rules ==> Aim(want, index, key) == IndexOf(index, want.rules[key]);
    }

    /** One pass. It changes the installed rules into those wanted, or it fails; what
        was done of it is then unknown. */
    method Converge(tc: Tc, want: Desired, luck: Luck) returns (ok: bool, batch: seq<Line>)
      requires True(View(), tc.kernel) && 0 !in want.rates
      requires nextHandle + |want.rules| < HANDLES
      modifies this, tc
      ensures ok ==> Converged(View(), tc.kernel, want)
      ensures ok ==> Assigned(old(View()).(orphans := old(orphans) - luck.released), want, actions)
      ensures ok ==>
                (batch == [] <==>
                    Quiet(old(View()).(orphans := old(orphans) - luck.released), old(tc.kernel), want, actions))
      ensures ok ==> luck.cut.None? || batch == []
      ensures luck.cut.None? && luck.unreadable == {} ==> ok
    {
      hide True, Assigned, Quiet, Hooked, Runs, After, Devs, Converged;
      Release(tc, luck);
      var index := Assign(want);
      var devs := DevsWanted(want, index);
      TrueHooked(View(), tc.kernel);
      QuietHooked(View(), old(tc.kernel), tc.kernel, want, index);
      var hooks := HookLines(tc, clsact, devs, luck);
      if hooks.None? {
        return false, [];
      }
      ok, batch := Install(tc, hooks.value, want, index, devs, luck);
    }
  }
}
