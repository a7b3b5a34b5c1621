/** Convergence: the installed rules and the wanted ones, the batch between them,
    and the bookkeeping that follows the kernel. */
module RateLimitRules {
  import opened Common
  import opened RateLimitPlan
  import opened RateLimitKernel

  datatype Installed = Installed(handle: nat, index: Index)

  /** What the module believes it installed. An orphan is an action without
      filters that the kernel still holds. */
  datatype Book = Book(clsact: set<Dev>, actions: map<Group, Index>, rates: map<Index, nat>,
      filters: map<Rule, Installed>,
                       orphans: set<Index>, handle: nat)

  const NOTHING := Book({}, map[], map[], map[], {}, 0)

  /** Filter handles are 32 bits wide. */
  const HANDLES := 0x1_0000_0000

  function NextHandle(handle: nat): (next: nat)
    ensures handle + 1 < HANDLES ==> next == handle + 1
  {
    if handle + 1 == HANDLES then 0 else handle + 1
  }

  function Burst(mbps: nat): nat {
    var tenth := mbps * 1_000_000 / 8 / 10;
    if tenth > 65536 then tenth else 65536
  }

  function Policing(mbps: nat): Police {
    Police(mbps, Burst(mbps))
  }

  function At(key: Rule, handle: nat): Place {
    Place(key.dev, key.remote.six, handle)
  }

  // ------------------------------------------------------ books and the kernel

  /** The filters in the book are those in the kernel, one for each rule. */
  ghost predicate Mirrors(book: map<Rule, Installed>, kernel: map<Place, Filter>) {
    && (forall key :: key in book ==>
          At(key, book[key].handle) in kernel && kernel[At(key, book[key].handle)] == Filter(key, book[key].index))
    && (forall p :: p in kernel ==> kernel[p].key in book && p == At(kernel[p].key, book[kernel[p].key].handle))
  }

  predicate Used(actions: map<Group, Index>, i: Index) {
    exists g :: g in actions && actions[g] == i
  }

  /** No two groups share an index, none has an orphan's, and all are the module's. */
  ghost predicate OwnActions(b: Book) {
    && (forall g, h :: g in b.actions && h in b.actions && b.actions[g] == b.actions[h] ==> g == h)
    && (forall g :: g in b.actions ==> OwnIndex(b.actions[g]) && b.actions[g] !in b.orphans && b.actions[g] in b.rates)
    && (forall i :: i in b.orphans ==> OwnIndex(i))
  }

  /** The actions in the book are those in the kernel, at the rates in the book. */
  ghost predicate Policed(b: Book, k: Kernel) {
    && OwnActions(b)
    && (forall g :: g in b.actions ==>
        b.actions[g] in k.actions && k.actions[b.actions[g]] == Policing(b.rates[b.actions[g]]))
    && (forall i :: i in k.actions <==> i in b.orphans || Used(b.actions, i))
  }

  ghost predicate Filtered(b: Book, k: Kernel) {
    && Mirrors(b.filters, k.filters)
    && (forall key :: key in b.filters ==>
          Used(b.actions, b.filters[key].index) && b.filters[key].handle <= b.handle && key.dev in k.clsact)
  }

  /** The book is true of the kernel. */
  ghost predicate True(b: Book, k: Kernel) {
    b.clsact <= k.clsact && Policed(b, k) && Filtered(b, k)
  }

  ghost predicate Bare(k: Kernel) {
    k.actions == map[] && k.filters == map[]
  }

  lemma BareIsTrue(k: Kernel)
    requires Bare(k)
    ensures True(NOTHING, k)
  {
  }

  // ------------------------------------------------------------------ indexes

  /** Every limited group has the index it had or the lowest free one, newcomers in
      the order of their keys, until none is free. */
  ghost predicate Assigned(b: Book, want: Desired, index: map<Group, Index>) {
    && (forall g :: g in index ==> g in want.rates)
    && (forall g :: g in b.actions && g in want.rates ==> g in index && index[g] == b.actions[g])
    && (forall g :: g in index && g !in b.actions ==> OwnIndex(index[g]) && Free(b, index[g]))
    && (forall g, h :: g in want.rates && h in index && g < h && g !in b.actions && h !in b.actions ==>
        g in index && index[g] < index[h])
    && (forall g, i :: g in index && g !in b.actions && ACTION_BASE < i < index[g] ==> !Free(b, i) || Used(index, i))
    && (forall g, i :: g in want.rates && g !in index && OwnIndex(i) ==> !Free(b, i) || Used(index, i))
  }

  predicate Free(b: Book, i: Index) {
    i !in b.orphans && !Used(b.actions, i)
  }

  function IndexOf(index: map<Group, Index>, g: Group): Index {
    if g in index then index[g] else 0
  }

  function GroupOf(want: Desired, key: Rule): Group {
    if key in want.rules then want.rules[key] else 0
  }

  /** The index a rule's filter must have, 0 for none. */
  function Aim(want: Desired, index: map<Group, Index>, key: Rule): Index {
    IndexOf(index, GroupOf(want, key))
  }

  predicate Stays(filters: map<Rule, Installed>, want: Desired, index: map<Group, Index>, key: Rule) {
    key in filters && filters[key].index == Aim(want, index, key)
  }

  function Staying(filters: map<Rule, Installed>, want: Desired, index: map<Group, Index>): map<Rule, Installed> {
    map key | key in filters && Stays(filters, want, index, key) :: filters[key]
  }

  predicate Adds(filters: map<Rule, Installed>, want: Desired, index: map<Group, Index>, key: Rule) {
    key in want.rules && Aim(want, index, key) != 0 && !Stays(filters, want, index, key)
  }

  predicate Keeps(b: Book, want: Desired, index: map<Group, Index>, g: Group) {
    g in want.rates && g in index && g in b.actions && b.actions[g] == index[g]
    && index[g] in b.rates && b.rates[index[g]] == want.rates[g]
  }

  // --------------------------------------------------------- the batch in parts

  ghost predicate Hooked(k: Kernel, k': Kernel, devs: set<Dev>) {
    k' == k.(clsact := k.clsact + devs)
  }

  method HookLines(tc: Tc, clsact: set<Dev>, devs: set<Dev>, luck: Luck) returns (lines: Option<seq<Line>>)
    requires clsact <= tc.kernel.clsact
    ensures lines.None? <==> exists d :: d in devs && d !in clsact && d in luck.unreadable
    ensures lines.Some? ==> Runs(tc.kernel, lines.value) && Hooked(tc.kernel, After(tc.kernel, lines.value), devs)
    ensures lines.Some? ==> (lines.value == [] <==> devs <= tc.kernel.clsact)
  {
    ghost var k := tc.kernel;
    var batch: seq<Line> := [];
    var left := devs;
    while left != {}
      invariant left <= devs && tc.kernel == k
      invariant forall d :: d in devs && d !in left && d !in clsact ==> d !in luck.unreadable
      invariant Runs(k, batch) && Hooked(k, After(k, batch), devs - left)
      invariant batch == [] <==> devs - left <= k.clsact
      decreases left
    {
      var d :| d in left;
      if d !in clsact {
        var hooked := tc.ShowQdiscs(d, luck);
        if hooked.None? {
          return None;
        }
        if !hooked.value {
          OneMore(k, batch, AddClsact(d));
          batch := batch + [AddClsact(d)];
        }
      }
      left := left - {d};
      assert devs - left == (devs - (left + {d})) + {d};
    }
    return Some(batch);
  }

  ghost predicate Replaced(k: Kernel, k': Kernel, want: Desired, index: map<Group, Index>, groups: set<Group>) {
    && k'.clsact == k.clsact && k'.filters == k.filters
    && (forall g :: g in groups && g in index && g in want.rates ==>
          index[g] in k'.actions && k'.actions[index[g]] == Policing(want.rates[g]))
    && (forall i :: i in k.actions ==> i in k'.actions)
    && (forall i :: i in k'.actions ==> i in k.actions || Used(index, i))
  }

  /** The lines so far run, and put these groups' actions right. */
  ghost predicate Prepares(k: Kernel, lines: seq<Line>, b: Book, want: Desired, index: map<Group, Index>,
                           groups: set<Group>) {
    && Runs(k, lines) && Replaced(k, After(k, lines), want, index, groups)
    && forall g :: Keeps(b, want, index, g) ==>
         b.actions[g] in After(k, lines).actions && After(k, lines).actions[b.actions[g]] == Policing(want.rates[g])
  }

  lemma ReplaceOn(k: Kernel, lines: seq<Line>, b: Book, want: Desired, index: map<Group, Index>, groups: set<Group>,
                  g: Group)
    requires Prepares(k, lines, b, want, index, groups) && g in index && g in want.rates
    requires forall g, h :: g in index && h in index && index[g] == index[h] ==> g == h
    ensures Prepares(k, lines + [ReplaceAction(index[g], Policing(want.rates[g]))], b, want, index, groups + {g})
  {
    OneMore(k, lines, ReplaceAction(index[g], Policing(want.rates[g])));
    hide Runs, After, Policing;
  }

  method ReplaceLines(ghost k: Kernel, b: Book, want: Desired, index: map<Group, Index>) returns (lines: seq<Line>)
    requires Policed(b, k) && forall g :: g in index ==> g in want.rates
    requires forall g, h :: g in index && h in index && index[g] == index[h] ==> g == h
    ensures Prepares(k, lines, b, want, index, index.Keys)
    ensures lines == [] <==> forall g :: g in index ==> Keeps(b, want, index, g)
  {
    lines := [];
    var left := index.Keys;
    assert Prepares(k, lines, b, want, index, index.Keys - left);
    while left != {}
      invariant left <= index.Keys
      invariant Prepares(k, lines, b, want, index, index.Keys - left)
      invariant lines == [] ==> forall g :: g in index && g !in left ==> Keeps(b, want, index, g)
      invariant lines != [] ==> exists g :: g in index && !Keeps(b, want, index, g)
      decreases left
    {
      var g :| g in left;
      var same := g in b.actions && b.actions[g] == index[g] && b.rates[index[g]] == want.rates[g];
      assert same <==> Keeps(b, want, index, g);
      assert index.Keys - (left - {g}) == index.Keys - left + {g};
      if same {
        KeepOn(k, lines, b, want, index, index.Keys - left, g);
      } else {
        ReplaceOn(k, lines, b, want, index, index.Keys - left, g);
        lines := lines + [ReplaceAction(index[g], Policing(want.rates[g]))];
      }
      hide *;
      left := left - {g};
    }
    assert index.Keys - left == index.Keys;
  }

  lemma KeepOn(k: Kernel, lines: seq<Line>, b: Book, want: Desired, index: map<Group, Index>, groups: set<Group>,
               g: Group)
    requires Prepares(k, lines, b, want, index, groups) && Keeps(b, want, index, g)
    ensures Prepares(k, lines, b, want, index, groups + {g})
  {
    hide Runs, After, Policing;
  }

  /** The lines so far run, change filters only, and leave these. */
  ghost predicate Leaves(k: Kernel, lines: seq<Line>, filters: map<Rule, Installed>) {
    && Runs(k, lines) && After(k, lines) == k.(filters := After(k, lines).filters)
    && Mirrors(filters, After(k, lines).filters)
  }

  lemma DelOn(k: Kernel, lines: seq<Line>, filters: map<Rule, Installed>, key: Rule)
    requires Leaves(k, lines, filters) && key in filters
    ensures Leaves(k, lines + [DelFilter(At(key, filters[key].handle))], filters - {key})
  {
    MirrorsLess(filters, After(k, lines).filters, key);
    OneMore(k, lines, DelFilter(At(key, filters[key].handle)));
    hide Mirrors, Runs, After;
  }

  /** What is left of the filters once only these are still to be looked at. */
  ghost function Remaining(filters: map<Rule, Installed>, want: Desired, index: map<Group, Index>,
                           left: set<Rule>): map<Rule, Installed> {
    map key | key in filters && (key in left || Stays(filters, want, index, key)) :: filters[key]
  }

  lemma RemainingEnds(filters: map<Rule, Installed>, want: Desired, index: map<Group, Index>)
    ensures Remaining(filters, want, index, filters.Keys) == filters
    ensures Remaining(filters, want, index, {}) == Staying(filters, want, index)
  {
  }

  lemma RemainingLess(filters: map<Rule, Installed>, want: Desired, index: map<Group, Index>, left: set<Rule>,
                      key: Rule)
    requires key in left && key in filters
    ensures key in Remaining(filters, want, index, left) && Remaining(filters, want, index, left)[key] == filters[key]
    ensures Remaining(filters, want, index, left - {key}) ==
            if Stays(filters, want, index, key) then Remaining(filters, want, index, left)
            else Remaining(filters, want, index, left) - {key}
  {
  }

  method DelLines(ghost k: Kernel, filters: map<Rule, Installed>, want: Desired,
                  index: map<Group, Index>) returns (lines: seq<Line>)
    requires Mirrors(filters, k.filters)
    ensures Leaves(k, lines, Staying(filters, want, index))
    ensures lines == [] <==> forall key :: key in filters ==> Stays(filters, want, index, key)
  {
    lines := [];
    var left := filters.Keys;
    RemainingEnds(filters, want, index);
    assert Leaves(k, lines, filters);
    hide Leaves, Remaining, Staying;
    while left != {}
      invariant left <= filters.Keys
      invariant Leaves(k, lines, Remaining(filters, want, index, left))
      invariant lines == [] <==> forall key :: key in filters && key !in left ==> Stays(filters, want, index, key)
      decreases left
    {
      var key :| key in left;
      RemainingLess(filters, want, index, left, key);
      if IndexOf(index, GroupOf(want, key)) != filters[key].index {
        DelOn(k, lines, Remaining(filters, want, index, left), key);
        lines := lines + [DelFilter(At(key, filters[key].handle))];
      }
      left := left - {key};
    }
  }

  lemma MirrorsLess(book: map<Rule, Installed>, kernel: map<Place, Filter>, key: Rule)
    requires Mirrors(book, kernel) && key in book
    ensures At(key, book[key].handle) in kernel
    ensures Mirrors(book - {key}, kernel - {At(key, book[key].handle)})
  {
    forall p | p in kernel && p != At(key, book[key].handle)
      ensures kernel[p].key in book - {key}
    {
      if kernel[p].key == key {
        assert false;
      }
    }
  }

  lemma MirrorsMore(book: map<Rule, Installed>, kernel: map<Place, Filter>, key: Rule, handle: nat, index: Index)
    requires Mirrors(book, kernel) && key !in book && At(key, handle) !in kernel
    ensures Mirrors(book[key := Installed(handle, index)], kernel[At(key, handle) := Filter(key, index)])
    ensures forall p :: p in kernel ==> kernel[p].key != key
  {
  }

  /** What one new filter needs of the kernel. */
  ghost predicate Addable(k: Kernel, want: Desired, index: map<Group, Index>, filters: map<Rule, Installed>) {
    forall key :: Adds(filters, want, index, key) ==> key.dev in k.clsact && Aim(want, index, key) in k.actions
  }

  ghost predicate Added(filters: map<Rule, Installed>, want: Desired, index: map<Group, Index>, keys: set<Rule>,
                        added: map<Rule, Installed>, from: nat, to: nat) {
    && (forall key :: key in added <==> key in keys && Adds(filters, want, index, key))
    && (forall key :: key in added ==> added[key].index == Aim(want, index, key) && from < added[key].handle <= to)
  }

  lemma AddOn(k: Kernel, lines: seq<Line>, filters: map<Rule, Installed>, key: Rule, handle: nat, index: Index)
    requires Leaves(k, lines, filters) && key !in filters
    requires forall other :: other in filters ==> filters[other].handle < handle
    requires key.dev in k.clsact && index in k.actions
    ensures Leaves(k, lines + [AddFilter(At(key, handle), key, index)], filters[key := Installed(handle, index)])
  {
    MirrorsMore(filters, After(k, lines).filters, key, handle, index);
    OneMore(k, lines, AddFilter(At(key, handle), key, index));
    hide Mirrors, Runs, After;
  }

  lemma AddedMore(filters: map<Rule, Installed>, want: Desired, index: map<Group, Index>, left: set<Rule>, key: Rule,
                  added: map<Rule, Installed>, from: nat, to: nat)
    requires left <= want.rules.Keys && key in left && from <= to
    requires Added(filters, want, index, want.rules.Keys - left, added, from, to)
    requires forall other :: other in filters ==> filters[other].handle <= from
    ensures key !in added && Aim(want, index, key) == IndexOf(index, want.rules[key])
    ensures Adds(filters, want, index, key) <==>
              Aim(want, index, key) != 0 && !(key in filters && filters[key].index == Aim(want, index, key))
    ensures !Adds(filters, want, index, key) ==>
              Added(filters, want, index, want.rules.Keys - (left - {key}), added, from, to)
    ensures Adds(filters, want, index, key) ==> key !in Staying(filters, want, index)
    ensures Adds(filters, want, index, key) ==>
              Added(filters, want, index, want.rules.Keys - (left - {key}),
                    added[key := Installed(to + 1, Aim(want, index, key))], from, to + 1)
    ensures Staying(filters, want, index) + added[key := Installed(to + 1, Aim(want, index, key))]
            == (Staying(filters, want, index) + added)[key := Installed(to + 1, Aim(want, index, key))]
    ensures forall other :: other in Staying(filters, want, index) + added ==>
              (Staying(filters, want, index) + added)[other].handle < to + 1
  {
  }

  lemma AddStep(k: Kernel, lines: seq<Line>, filters: map<Rule, Installed>, want: Desired, index: map<Group, Index>,
                left: set<Rule>,
                key: Rule, added: map<Rule, Installed>, from: nat, to: nat)
    requires left <= want.rules.Keys && key in left && from <= to
    requires Added(filters, want, index, want.rules.Keys - left, added, from, to)
    requires forall other :: other in filters ==> filters[other].handle <= from
    requires Leaves(k, lines, Staying(filters, want, index) + added) && Addable(k, want, index, filters)
    ensures var i := IndexOf(index, GroupOf(want, key));
            && (Adds(filters, want, index, key) <==> i != 0 && !(key in filters && filters[key].index == i))
            && (if Adds(filters, want, index, key)
                then Leaves(k, lines + [AddFilter(At(key, to + 1), key, i)],
                    Staying(filters, want, index) + added[key := Installed(to + 1, i)])
                     && Added(filters, want, index, want.rules.Keys - (left - {key}),
                         added[key := Installed(to + 1, i)], from, to + 1)
                else Added(filters, want, index, want.rules.Keys - (left - {key}), added, from, to))
  {
    AddedMore(filters, want, index, left, key, added, from, to);
    if Adds(filters, want, index, key) {
      hide Leaves, Staying, Added, Stays;
      AddOn(k, lines, Staying(filters, want, index) + added, key, to + 1, IndexOf(index, GroupOf(want, key)));
    }
  }

  lemma AddStart(k: Kernel, filters: map<Rule, Installed>, want: Desired, index: map<Group, Index>, from: nat)
    requires Mirrors(Staying(filters, want, index), k.filters)
    ensures Leaves(k, [], Staying(filters, want, index) + map[])
    ensures Added(filters, want, index, want.rules.Keys - want.rules.Keys, map[], from, from)
  {
    assert Staying(filters, want, index) + map[] == Staying(filters, want, index);
  }

  method AddLines(ghost k: Kernel, filters: map<Rule, Installed>, want: Desired, index: map<Group, Index>, from: nat)
    returns (lines: seq<Line>, added: map<Rule, Installed>, to: nat)
    requires Mirrors(Staying(filters, want, index), k.filters) && Addable(k, want, index, filters)
    requires forall key :: key in filters ==> filters[key].handle <= from
    requires from + |want.rules| < HANDLES
    ensures Leaves(k, lines, Staying(filters, want, index) + added)
    ensures Added(filters, want, index, want.rules.Keys, added, from, to)
    ensures from <= to < HANDLES
    ensures lines == [] <==> added == map[]
  {
    lines, added, to := [], map[], from;
    var left := want.rules.Keys;
    AddStart(k, filters, want, index, from);
    hide *;
    while left != {}
      invariant left <= want.rules.Keys
      invariant Leaves(k, lines, Staying(filters, want, index) + added)
      invariant Added(filters, want, index, want.rules.Keys - left, added, from, to)
      invariant from <= to && to + |left| <= from + |want.rules|
      invariant lines == [] <==> added == map[]
      decreases left
    {
      var key :| key in left;
      AddStep(k, lines, filters, want, index, left, key, added, from, to);
      var i := IndexOf(index, GroupOf(want, key));
      if i != 0 && !(key in filters && filters[key].index == i) {
        to := NextHandle(to);
        lines := lines + [AddFilter(At(key, to), key, i)];
        added := added[key := Installed(to, i)];
        assert key in added;
      }
      left := left - {key};
    }
    assert want.rules.Keys - left == want.rules.Keys;
  }

  // -------------------------------------------------------------- what is reached

  ghost predicate Lone(k: Kernel, p: Place) {
    p in k.filters && forall q :: q in k.filters && k.filters[q].key == k.filters[p].key ==> q == p
  }

  /** Each wanted rule whose group has an index has exactly one filter, bound to that
      index, and there is no other filter. */
  ghost predicate Shown(actions: map<Group, Index>, k: Kernel, want: Desired) {
    && (forall key :: key in want.rules && want.rules[key] in actions ==>
          exists p :: Lone(k, p) && k.filters[p] == Filter(key, actions[want.rules[key]]))
    && (forall p :: p in k.filters ==> k.filters[p].key in want.rules && want.rules[k.filters[p].key] in actions)
  }

  /** Every index polices at the wanted rate of a wanted group. */
  ghost predicate Rated(actions: map<Group, Index>, k: Kernel, want: Desired) {
    forall g :: g in actions ==>
        g in want.rates && actions[g] in k.actions && k.actions[actions[g]] == Policing(want.rates[g])
  }

  /** A wanted group goes without an index only when all of them are taken. */
  ghost predicate Exhausted(actions: map<Group, Index>, k: Kernel, want: Desired) {
    forall g, i :: g in want.rates && g !in actions && OwnIndex(i) ==> i in k.actions
  }

  /** The kernel does what is wanted, and the book is true of it: no action is there
      but the groups' and the orphans. */
  ghost predicate Converged(b: Book, k: Kernel, want: Desired) {
    True(b, k) && Rated(b.actions, k, want) && Shown(b.actions, k, want) && Exhausted(b.actions, k, want)
  }

  /** The indexes of groups that lose theirs. */
  function Dropped(actions: map<Group, Index>, index: map<Group, Index>): set<Index> {
    set g | g in actions && IndexOf(index, g) != actions[g] :: actions[g]
  }

  function Devs(want: Desired, index: map<Group, Index>): set<Dev> {
    set key | key in want.rules && Aim(want, index, key) != 0 :: key.dev
  }

  /** The book once the batch has gone through. */
  ghost predicate Recorded(b: Book, want: Desired, index: map<Group, Index>, added: map<Rule, Installed>, handle: nat,
                           nb: Book) {
    && nb.clsact == b.clsact + Devs(want, index) && nb.actions == index
    && nb.filters == Staying(b.filters, want, index) + added && nb.handle == handle
    && nb.orphans == b.orphans + Dropped(b.actions, index)
    && forall g :: g in index && g in want.rates ==> index[g] in nb.rates && nb.rates[index[g]] == want.rates[g]
  }

  ghost predicate Injective(index: map<Group, Index>) {
    forall g, h :: g in index && h in index && index[g] == index[h] ==> g == h
  }

  lemma IndexesOwn(b: Book, want: Desired, index: map<Group, Index>)
    requires OwnActions(b) && Assigned(b, want, index)
    ensures forall g :: g in index ==> OwnIndex(index[g]) && index[g] != 0 && index[g] !in b.orphans
    ensures forall g :: g in b.actions ==> b.actions[g] != 0
    ensures Injective(index)
  {
    forall g, h | g in index && h in index && g < h
      ensures index[g] != index[h]
    {
    }
  }

  lemma OwnNow(b: Book, want: Desired, index: map<Group, Index>, nb: Book)
    requires OwnActions(b) && Assigned(b, want, index) && nb.actions == index
               && nb.orphans == b.orphans + Dropped(b.actions, index)
    requires forall g :: g in index && g in want.rates ==> index[g] in nb.rates
    ensures OwnActions(nb)
  {
    IndexesOwn(b, want, index);
    hide OwnIndex;
    forall g | g in index
      ensures index[g] !in nb.orphans && index[g] in nb.rates
    {
      if g !in b.actions {
        assert Free(b, index[g]);
      }
    }
  }

  /** An index that is not a group's any more is an orphan's. */
  lemma DroppedOrKept(actions: map<Group, Index>, index: map<Group, Index>, i: Index)
    requires Used(actions, i) && i != 0
    ensures i in Dropped(actions, index) || Used(index, i)
  {
    var g :| g in actions && actions[g] == i;
    assert IndexOf(index, g) == i ==> g in index && index[g] == i;
  }

  /** Every action is a group's or an orphan's, as before. */
  lemma AccountedNow(b: Book, k: Kernel, k': Kernel, index: map<Group, Index>)
    requires forall i :: i in k.actions <==> i in b.orphans || Used(b.actions, i)
    requires forall g :: g in b.actions ==> b.actions[g] != 0
    requires forall g :: g in index ==> index[g] in k'.actions
    requires forall i :: i in k.actions ==> i in k'.actions
    requires forall i :: i in k'.actions ==> i in k.actions || Used(index, i)
    ensures forall i :: i in k'.actions <==> i in b.orphans + Dropped(b.actions, index) || Used(index, i)
  {
    forall i | i in k.actions
      ensures i in b.orphans + Dropped(b.actions, index) || Used(index, i)
    {
      if Used(b.actions, i) {
        DroppedOrKept(b.actions, index, i);
      }
    }
    assert forall i :: i in Dropped(b.actions, index) ==> Used(b.actions, i);
    hide Dropped;
  }

  lemma PolicedNow(b: Book, k: Kernel, k': Kernel, want: Desired, index: map<Group, Index>,
                   added: map<Rule, Installed>, handle: nat, nb: Book)
    requires Policed(b, k) && Assigned(b, want, index) && Recorded(b, want, index, added, handle, nb)
    requires Rated(index, k', want)
    requires forall i :: i in k.actions ==> i in k'.actions
    requires forall i :: i in k'.actions ==> i in k.actions || Used(index, i)
    ensures Policed(nb, k')
  {
    hide Assigned, OwnActions, Dropped;
    IndexesOwn(b, want, index);
    OwnNow(b, want, index, nb);
    AccountedNow(b, k, k', index);
    hide Policing;
  }

  lemma FilteredNow(b: Book, k: Kernel, k': Kernel, want: Desired, index: map<Group, Index>,
                    added: map<Rule, Installed>, handle: nat, nb: Book)
    requires Filtered(b, k) && Recorded(b, want, index, added, handle, nb)
    requires Added(b.filters, want, index, want.rules.Keys, added, b.handle, handle) && b.handle <= handle
    requires Mirrors(nb.filters, k'.filters) && k'.clsact == k.clsact + Devs(want, index)
    requires 0 !in index && forall g :: g in index ==> index[g] != 0
    requires forall g :: g in b.actions ==> b.actions[g] != 0
    ensures Filtered(nb, k')
    ensures forall key :: key in nb.filters ==>
              key in want.rules && want.rules[key] in index && nb.filters[key].index == index[want.rules[key]]
    ensures forall key :: key in want.rules && want.rules[key] in index ==> key in nb.filters
  {
    hide Mirrors;
    forall key | key in nb.filters
      ensures Aim(want, index, key) != 0 && nb.filters[key].index == Aim(want, index, key)
      ensures nb.filters[key].handle <= handle && key.dev in k'.clsact
    {
      if key !in added {
        assert key in b.filters && Stays(b.filters, want, index, key);
        assert Used(b.actions, b.filters[key].index);
      }
    }
  }

  lemma TrueNow(b: Book, k: Kernel, k': Kernel, want: Desired, index: map<Group, Index>, added: map<Rule, Installed>,
                handle: nat, nb: Book)
    requires True(b, k) && 0 !in want.rates && Assigned(b, want, index) && Recorded(b, want, index, added, handle, nb)
    requires Rated(index, k', want)
    requires forall i :: i in k.actions ==> i in k'.actions
    requires forall i :: i in k'.actions ==> i in k.actions || Used(index, i)
    requires Added(b.filters, want, index, want.rules.Keys, added, b.handle, handle) && b.handle <= handle
    requires Mirrors(nb.filters, k'.filters) && k'.clsact == k.clsact + Devs(want, index)
    ensures True(nb, k')
    ensures forall key :: key in nb.filters ==>
              key in want.rules && want.rules[key] in index && nb.filters[key].index == index[want.rules[key]]
    ensures forall key :: key in want.rules && want.rules[key] in index ==> key in nb.filters
  {
    IndexesOwn(b, want, index);
    PolicedNow(b, k, k', want, index, added, handle, nb);
    assert nb.clsact <= k'.clsact;
    hide OwnActions, OwnIndex, Mirrors, Added, Free, Used, Policing, Staying, Dropped, Devs;
    FilteredNow(b, k, k', want, index, added, handle, nb);
    hide Policed, Filtered, Assigned, Recorded;
  }

  lemma ConvergedNow(b: Book, k: Kernel, k': Kernel, want: Desired, index: map<Group, Index>,
                     added: map<Rule, Installed>, handle: nat, nb: Book)
    requires True(b, k) && 0 !in want.rates && Assigned(b, want, index) && Recorded(b, want, index, added, handle, nb)
    requires Rated(index, k', want)
    requires forall i :: i in k.actions ==> i in k'.actions
    requires forall i :: i in k'.actions ==> i in k.actions || Used(index, i)
    requires Added(b.filters, want, index, want.rules.Keys, added, b.handle, handle) && b.handle <= handle
    requires Mirrors(nb.filters, k'.filters) && k'.clsact == k.clsact + Devs(want, index)
    ensures Converged(nb, k', want)
  {
    TrueNow(b, k, k', want, index, added, handle, nb);
    assert nb.actions == index && Policed(b, k);
    TakenNow(b, k, k', want, index);
    hide True, Policed, Filtered, OwnActions, OwnIndex, Mirrors, Added, Free, Used, Policing, Lone, Staying, Dropped,
        Devs, Recorded, Assigned,
      Rated, Exhausted;
    ShownNow(nb, k', want, index);
    hide Shown;
  }

  /** A book that names a filter for each rule wanted, and no other, says so of the
      kernel it mirrors. */
  lemma ShownNow(nb: Book, k: Kernel, want: Desired, index: map<Group, Index>)
    requires Mirrors(nb.filters, k.filters)
    requires forall key :: key in nb.filters ==>
               key in want.rules && want.rules[key] in index && nb.filters[key].index == index[want.rules[key]]
    requires forall key :: key in want.rules && want.rules[key] in index ==> key in nb.filters
    ensures Shown(index, k, want)
  {
    forall key | key in want.rules && want.rules[key] in index
      ensures exists p :: Lone(k, p) && k.filters[p] == Filter(key, index[want.rules[key]])
    {
      var p := At(key, nb.filters[key].handle);
      assert Lone(k, p) && k.filters[p] == Filter(key, index[want.rules[key]]);
    }
  }

  lemma TakenNow(b: Book, k: Kernel, k': Kernel, want: Desired, index: map<Group, Index>)
    requires Policed(b, k) && Assigned(b, want, index)
    requires Rated(index, k', want)
    requires forall i :: i in k.actions ==> i in k'.actions
    ensures Exhausted(index, k', want)
  {
    forall g, i | g in want.rates && g !in index && OwnIndex(i)
      ensures i in k'.actions
    {
      assert !Free(b, i) || Used(index, i);
    }
  }

  // ------------------------------------------------------------- the second pass

  /** Nothing is left to put into a batch. */
  ghost predicate Quiet(b: Book, k: Kernel, want: Desired, index: map<Group, Index>) {
    && Devs(want, index) <= k.clsact
    && (forall g :: g in index ==> Keeps(b, want, index, g))
    && (forall key :: key in b.filters ==> Stays(b.filters, want, index, key))
    && (forall key :: key in want.rules ==> !Adds(b.filters, want, index, key))
  }

  lemma SameIndex(b: Book, want: Desired, index: map<Group, Index>)
    requires Assigned(b, want, index) && forall g :: g in b.actions ==> g in want.rates
    requires forall g :: g in index ==> g in b.actions
    ensures index == b.actions
  {
  }

  lemma QuietWhenSame(b: Book, k: Kernel, want: Desired, orphans: set<Index>)
    requires Converged(b, k, want)
    ensures Quiet(b.(orphans := orphans), k, want, b.actions)
  {
    assert forall g :: g in b.actions ==> OwnIndex(b.actions[g]);
    hide OwnIndex;
    forall g | g in b.actions
      ensures Keeps(b, want, b.actions, g)
    {
      assert Policing(want.rates[g]).rate == Policing(b.rates[b.actions[g]]).rate;
    }
    forall key | key in b.filters
      ensures Stays(b.filters, want, b.actions, key)
    {
      var p := At(key, b.filters[key].handle);
      assert k.filters[p].key == key;
      var q :| Lone(k, q) && k.filters[q] == Filter(key, b.actions[want.rules[key]]);
    }
    forall key | key in want.rules && Aim(want, b.actions, key) != 0
      ensures key in b.filters && Stays(b.filters, want, b.actions, key) && key.dev in k.clsact
    {
      assert want.rules[key] in b.actions;
      var q :| Lone(k, q) && k.filters[q] == Filter(key, b.actions[want.rules[key]]);
    }
  }

  /** After a pass that went through, the next with the same wish has an empty batch
      exactly when every wanted group has an index or the kernel releases no orphan
      in it. */
  lemma SecondPass(b: Book, k: Kernel, want: Desired, released: set<Index>, index: map<Group, Index>)
    requires Converged(b, k, want) && Assigned(b.(orphans := b.orphans - released), want, index)
    ensures Quiet(b.(orphans := b.orphans - released), k, want, index) <==>
              (forall g :: g in want.rates ==> g in b.actions) || b.orphans * released == {}
  {
    var mid := b.(orphans := b.orphans - released);
    if (forall g :: g in want.rates ==> g in b.actions) || b.orphans * released == {} {
      NoNewcomer(b, k, want, released, index);
      SameIndex(mid, want, index);
      QuietWhenSame(b, k, want, mid.orphans);
    } else {
      Newcomer(b, want, released, index);
    }
  }

  lemma AllTaken(b: Book, k: Kernel, want: Desired, g: Group)
    requires Converged(b, k, want) && g in want.rates && g !in b.actions
    ensures forall i :: OwnIndex(i) ==> !Free(b, i)
  {
    assert forall i :: OwnIndex(i) ==> i in k.actions;
  }

  lemma NoNewcomer(b: Book, k: Kernel, want: Desired, released: set<Index>, index: map<Group, Index>)
    requires Converged(b, k, want) && Assigned(b.(orphans := b.orphans - released), want, index)
    requires (forall g :: g in want.rates ==> g in b.actions) || b.orphans * released == {}
    ensures forall g :: g in index ==> g in b.actions
  {
    if b.orphans * released == {} {
      assert forall i :: i in b.orphans && i in released ==> i in b.orphans * released;
      assert b.orphans - released == b.orphans;
      forall g | g in index
        ensures g in b.actions
      {
        if g !in b.actions {
          AllTaken(b, k, want, g);
          hide Converged, OwnIndex, Free, Used, Policing;
        }
      }
    }
  }

  lemma OrphanFree(b: Book, released: set<Index>, i: Index)
    requires OwnActions(b) && i in b.orphans && i in released
    ensures OwnIndex(i) && Free(b.(orphans := b.orphans - released), i)
  {
  }

  lemma Newcomer(b: Book, want: Desired, released: set<Index>, index: map<Group, Index>)
    requires OwnActions(b) && Assigned(b.(orphans := b.orphans - released), want, index)
    requires b.orphans * released != {} && exists g :: g in want.rates && g !in b.actions
    ensures exists g :: g in index && !Keeps(b, want, index, g)
  {
    var mid := b.(orphans := b.orphans - released);
    var g :| g in want.rates && g !in b.actions;
    if g in index {
      assert !Keeps(b, want, index, g);
    } else {
      var i :| i in b.orphans * released;
      OrphanFree(b, released, i);
      assert Used(index, i) by {
        hide OwnActions, OwnIndex, Free, Used;
      }
      var h :| h in index && index[h] == i;
      assert Used(b.actions, i) ==> !Free(mid, i);
      assert !Keeps(b, want, index, h) by {
        hide OwnActions, OwnIndex, Free, Assigned;
      }
    }
  }
}
