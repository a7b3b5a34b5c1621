/** The kernel's traffic control as far as the module's own rules go, and a batch
    of commands that may stop at any line. */
module RateLimitKernel {
  import opened Common
  import opened RateLimitPlan

  /** The range of the module's police indexes. */
  const ACTION_BASE: Index := 0xAC00_0000
  const MAX_USERS := 4096

  predicate OwnIndex(i: Index) {
    ACTION_BASE < i <= ACTION_BASE + MAX_USERS
  }

  /** Where a filter hangs: the family decides the priority. */
  datatype Place = Place(dev: Dev, six: bool, handle: nat)

  datatype Filter = Filter(key: Rule, index: Index)

  datatype Police = Police(rate: nat, burst: nat)

  /** The module's own part of the kernel. */
  datatype Kernel = Kernel(clsact: set<Dev>, actions: map<Index, Police>, filters: map<Place, Filter>)

  datatype Line =
    | AddClsact(dev: Dev)
    | ReplaceAction(index: Index, police: Police)
    | DelFilter(place: Place)
    | AddFilter(place: Place, key: Rule, index: Index)

  ghost predicate Bound(k: Kernel, i: Index) {
    exists p :: p in k.filters && k.filters[p].index == i
  }

  /** What the kernel accepts: no hook twice, only filters that are there to delete,
      and a new one only under its own place and match on a hooked interface. */
  ghost predicate Accepts(k: Kernel, line: Line) {
    match line
    case AddClsact(dev) => dev !in k.clsact
    case ReplaceAction(index, police) => true
    case DelFilter(place) => place in k.filters
    case AddFilter(place, key, index) =>
      place.dev in k.clsact && place !in k.filters && index in k.actions && place.dev == key.dev
      && forall p :: p in k.filters ==> k.filters[p].key != key
  }

  function Done(k: Kernel, line: Line): Kernel {
    match line
    case AddClsact(dev) => k.(clsact := k.clsact + {dev})
    case ReplaceAction(index, police) => k.(actions := k.actions[index := police])
    case DelFilter(place) => k.(filters := k.filters - {place})
    case AddFilter(place, key, index) => k.(filters := k.filters[place := Filter(key, index)])
  }

  /** Every line of the batch is accepted in turn. */
  ghost predicate Runs(k: Kernel, batch: seq<Line>)
    decreases |batch|, 0
  {
    batch == [] ||
    (Runs(k, batch[..|batch| - 1]) && Accepts(After(k, batch[..|batch| - 1]), batch[|batch| - 1]))
  }

  function After(k: Kernel, batch: seq<Line>): Kernel
    decreases |batch|, 1
  {
    if batch == [] then k else Done(After(k, batch[..|batch| - 1]), batch[|batch| - 1])
  }

  lemma OneMore(k: Kernel, batch: seq<Line>, line: Line)
    requires Runs(k, batch) && Accepts(After(k, batch), line)
    ensures Runs(k, batch + [line]) && After(k, batch + [line]) == Done(After(k, batch), line)
  {
    assert (batch + [line])[..|batch|] == batch;
  }

  /** One batch after another is one batch. */
  lemma {:induction false} Both(k: Kernel, a: seq<Line>, b: seq<Line>)
    requires Runs(k, a) && Runs(After(k, a), b)
    ensures Runs(k, a + b) && After(k, a + b) == After(After(k, a), b)
  {
    if b == [] {
      assert a + b == a;
    } else {
      var n := |b| - 1;
      Both(k, a, b[..n]);
      assert a + b == (a + b[..n]) + [b[n]];
      OneMore(k, a + b[..n], b[n]);
    }
  }

  /** How the commands of one pass go: which police actions are released when asked,
      which interfaces cannot be read, after how many lines the batch is cut off. */
  datatype Luck = Luck(released: set<Index>, unreadable: set<Dev>, cut: Option<nat>)

  class Tc {
    var kernel: Kernel

    constructor (kernel: Kernel)
      ensures this.kernel == kernel
    {
      this.kernel := kernel;
    }

    /** The kernel keeps an action that a filter is bound to. */
    method DelAction(index: Index, luck: Luck) returns (ok: bool)
      modifies this
      ensures ok <==> index in luck.released && index in old(kernel.actions) && !Bound(old(kernel), index)
      ensures kernel == if ok then old(kernel).(actions := old(kernel).actions - {index}) else old(kernel)
    {
      ok := false;
      if index in luck.released && index in kernel.actions {
        var bound := HasBound(index);
        if !bound {
          kernel := kernel.(actions := kernel.actions - {index});
          ok := true;
        }
      }
    }

    method HasBound(index: Index) returns (bound: bool)
      ensures bound <==> Bound(kernel, index)
    {
      var left := kernel.filters.Keys;
      while left != {}
        invariant left <= kernel.filters.Keys
        invariant forall p :: p in kernel.filters && p !in left ==> kernel.filters[p].index != index
        decreases left
      {
        var p :| p in left;
        if kernel.filters[p].index == index {
          return true;
        }
        left := left - {p};
      }
      return false;
    }

    method ShowQdiscs(dev: Dev, luck: Luck) returns (hooked: Option<bool>)
      ensures hooked == if dev in luck.unreadable then None else Some(dev in kernel.clsact)
    {
      hooked := if dev in luck.unreadable then None else Some(dev in kernel.clsact);
    }

    /** Runs the lines in order and fails when it is cut off, even after the last. */
    method Batch(lines: seq<Line>, luck: Luck) returns (ok: bool, ran: nat)
      requires Runs(kernel, lines)
      modifies this
      ensures ran <= |lines| && kernel == After(old(kernel), lines[..ran])
      ensures ok ==> ran == |lines|
      ensures ok <==> luck.cut.None?
    {
      var stop := if luck.cut.Some? && luck.cut.value < |lines| then luck.cut.value else |lines|;
      ran := 0;
      while ran < stop
        invariant ran <= stop && kernel == After(old(kernel), lines[..ran])
      {
        assert lines[..ran + 1][..ran] == lines[..ran];
        kernel := Done(kernel, lines[ran]);
        ran := ran + 1;
      }
      ok := luck.cut.None?;
    }
  }
}
