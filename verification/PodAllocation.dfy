/** What a pod takes from its node: the sums behind the overview's allocation figures, in 64-bit
    arithmetic, against the phases of pod start-up that KEP-753 (Sidecar Containers, "Resources
    calculation for scheduling and pod admission") speaks of. */
module PodAllocation {
  import opened Wrappers
  import opened Seqs

  const HALF: int := 0x8000_0000_0000_0000
  const WHOLE: int := 2 * HALF

  predicate Fits(x: int) { -HALF <= x < HALF }

  type int64 = x: int | -HALF <= x < HALF

  /** Addition of two int64 values, with wrap-around. */
  function Plus(x: int64, y: int64): int64 {
    if x + y >= HALF then x + y - WHOLE else if x + y < -HALF then x + y + WHOLE else x + y
  }

  lemma PlusAssociates(x: int64, y: int64, z: int64)
    ensures Plus(Plus(x, y), z) == Plus(x, Plus(y, z))
  {
  }

  datatype Component = CpuRequests | CpuLimits | MemoryRequests | MemoryLimits

  datatype Amounts = Amounts(cpuRequests: int64, cpuLimits: int64, memoryRequests: int64, memoryLimits: int64) {
    function Get(c: Component): int64 {
      match c
      case CpuRequests => cpuRequests
      case CpuLimits => cpuLimits
      case MemoryRequests => memoryRequests
      case MemoryLimits => memoryLimits
    }
  }

  const ZERO := Amounts(0, 0, 0, 0)

  /** A resource list after its quantities were read; what is missing or malformed reads as 0. */
  datatype Quantities = Quantities(cpu: int64, memory: int64)

  datatype Resources = Resources(requests: Quantities, limits: Quantities)

  datatype Container = Container(resources: Option<Resources>, restartsAlways: bool)

  /** Entries that are not objects are None. */
  datatype Pod = Pod(containers: seq<Option<Container>>, initContainers: seq<Option<Container>>,
                     overhead: Option<Quantities>)

  function Max(x: int, y: int): (m: int)
    ensures m >= x && m >= y && (m == x || m == y)
    ensures Fits(x) && Fits(y) ==> Fits(m)
  {
    if x < y then y else x
  }

  // ----- the accumulator -----

  class Allocation {
    var cpuRequests: int64
    var cpuLimits: int64
    var memoryRequests: int64
    var memoryLimits: int64

    constructor (start: Amounts)
      ensures Value() == start
    {
      cpuRequests, cpuLimits := start.cpuRequests, start.cpuLimits;
      memoryRequests, memoryLimits := start.memoryRequests, start.memoryLimits;
    }

    function Value(): Amounts
      reads this
    {
      Amounts(cpuRequests, cpuLimits, memoryRequests, memoryLimits)
    }

    method Add(other: Amounts)
      modifies this
      ensures forall c: Component :: Value().Get(c) == Plus(old(Value()).Get(c), other.Get(c))
    {
      cpuRequests := Plus(cpuRequests, other.cpuRequests);
      cpuLimits := Plus(cpuLimits, other.cpuLimits);
      memoryRequests := Plus(memoryRequests, other.memoryRequests);
      memoryLimits := Plus(memoryLimits, other.memoryLimits);
    }

    method RaiseTo(other: Amounts)
      modifies this
      ensures forall c: Component :: Value().Get(c) == Max(old(Value()).Get(c), other.Get(c))
    {
      cpuRequests := if cpuRequests < other.cpuRequests then other.cpuRequests else cpuRequests;
      cpuLimits := if cpuLimits < other.cpuLimits then other.cpuLimits else cpuLimits;
      memoryRequests := if memoryRequests < other.memoryRequests then other.memoryRequests else memoryRequests;
      memoryLimits := if memoryLimits < other.memoryLimits then other.memoryLimits else memoryLimits;
    }
  }

  function ContainerAllocation(k: Container): Amounts {
    match k.resources
    case None => ZERO
    case Some(r) => Amounts(r.requests.cpu, r.limits.cpu, r.requests.memory, r.limits.memory)
  }

  // ----- what runs in each phase -----

  function Present(entries: seq<Option<Container>>): seq<Container> {
    if entries == [] then []
    else
      var last := entries[|entries| - 1];
      Present(entries[..|entries| - 1]) + (if last.Some? then [last.value] else [])
  }

  function Takes(k: Container, c: Component): int64 { ContainerAllocation(k).Get(c) }

  /** What some containers take together, in 64 bits. */
  function Total(ks: seq<Container>, c: Component): int64 {
    if ks == [] then 0 else Plus(Total(ks[..|ks| - 1], c), Takes(ks[|ks| - 1], c))
  }

  function Sidecars(ks: seq<Container>): seq<Container> {
    if ks == [] then []
    else Sidecars(ks[..|ks| - 1]) + (if ks[|ks| - 1].restartsAlways then [ks[|ks| - 1]] else [])
  }

  /** What runs while init container k starts or does its work: it, and the sidecars before it. */
  function Phase(init: seq<Container>, k: nat): seq<Container>
    requires k < |init|
  {
    Sidecars(init[..k]) + [init[k]]
  }

  function SteadyState(pod: Pod): seq<Container> {
    Present(pod.containers) + Sidecars(Present(pod.initContainers))
  }

  /** The highest of 0 and what the init phases take. */
  function InitPeak(init: seq<Container>, c: Component): int64 {
    if init == [] then 0
    else Max(InitPeak(init[..|init| - 1], c), Total(Phase(init, |init| - 1), c))
  }

  function Overhead(pod: Pod, c: Component): int64 {
    if pod.overhead.None? then 0
    else if c == CpuRequests || c == CpuLimits then pod.overhead.value.cpu
    else pod.overhead.value.memory
  }

  function Effective(pod: Pod, c: Component): int64 {
    Plus(Max(Total(SteadyState(pod), c), InitPeak(Present(pod.initContainers), c)), Overhead(pod, c))
  }

  lemma TotalSnoc(ks: seq<Container>, k: Container, c: Component)
    ensures Total(ks + [k], c) == Plus(Total(ks, c), Takes(k, c))
  {
    assert (ks + [k])[..|ks|] == ks;
  }

  lemma {:induction false} TotalAppend(a: seq<Container>, b: seq<Container>, c: Component)
    ensures Total(a + b, c) == Plus(Total(a, c), Total(b, c))
  {
    if b == [] {
      assert a + b == a;
    } else {
      var front, last := b[..|b| - 1], b[|b| - 1];
      FrontLast(b);
      Assoc(a, front, [last]);
      TotalAppend(a, front, c);
      TotalSnoc(a + front, last, c);
      PlusAssociates(Total(a, c), Total(front, c), Takes(last, c));
    }
  }

  lemma SidecarsSnoc(ks: seq<Container>, k: Container)
    ensures Sidecars(ks + [k]) == if k.restartsAlways then Sidecars(ks) + [k] else Sidecars(ks)
  {
    assert (ks + [k])[..|ks|] == ks;
  }

  lemma PresentSnoc(entries: seq<Option<Container>>, i: nat)
    requires i < |entries|
    ensures Present(entries[..i + 1]) == if entries[i].Some? then Present(entries[..i]) + [entries[i].value]
      else Present(entries[..i])
  {
    assert entries[..i + 1][..i] == entries[..i];
  }

  lemma InitPeakSnoc(init: seq<Container>, k: Container, c: Component)
    ensures InitPeak(init + [k], c) == Max(InitPeak(init, c), Plus(Total(Sidecars(init), c), Takes(k, c)))
  {
    var all := init + [k];
    assert all[..|init|] == init && all[|init|] == k;
    TotalSnoc(Sidecars(init), k, c);
  }

  // ----- the computation -----

  ghost predicate Holds(a: Amounts, ks: seq<Container>) {
    forall c: Component :: a.Get(c) == Total(ks, c)
  }

  ghost predicate Peaks(a: Amounts, init: seq<Container>) {
    forall c: Component :: a.Get(c) == InitPeak(init, c)
  }

  lemma HoldsSnoc(a: Amounts, ks: seq<Container>, k: Container, a': Amounts)
    requires Holds(a, ks) && forall c: Component :: a'.Get(c) == Plus(a.Get(c), Takes(k, c))
    ensures Holds(a', ks + [k])
  {
    forall c: Component ensures a'.Get(c) == Total(ks + [k], c) { TotalSnoc(ks, k, c); }
  }

  lemma PeaksSnoc(peak: Amounts, sidecars: Amounts, init: seq<Container>, k: Container, current: Amounts,
                  peak': Amounts)
    requires Peaks(peak, init) && Holds(sidecars, Sidecars(init))
    requires forall c: Component :: current.Get(c) == Plus(sidecars.Get(c), Takes(k, c))
    requires forall c: Component :: peak'.Get(c) == Max(peak.Get(c), current.Get(c))
    ensures Peaks(peak', init + [k])
  {
    forall c: Component ensures peak'.Get(c) == InitPeak(init + [k], c) { InitPeakSnoc(init, k, c); }
  }

  method Steady(entries: seq<Option<Container>>) returns (steady: Allocation)
    ensures fresh(steady) && Holds(steady.Value(), Present(entries))
  {
    steady := new Allocation(ZERO);
    assert Holds(ZERO, []);
    for i := 0 to |entries|
      invariant fresh(steady) && Holds(steady.Value(), Present(entries[..i]))
    {
      PresentSnoc(entries, i);
      if entries[i].Some? {
        ghost var before := steady.Value();
        steady.Add(ContainerAllocation(entries[i].value));
        HoldsSnoc(before, Present(entries[..i]), entries[i].value, steady.Value());
      }
    }
    assert entries[..|entries|] == entries;
  }

  lemma SidecarsHold(a: Amounts, init: seq<Container>, k: Container, a': Amounts)
    requires Holds(a, Sidecars(init))
    requires if k.restartsAlways then forall c: Component :: a'.Get(c) == Plus(a.Get(c), Takes(k, c)) else a' == a
    ensures Holds(a', Sidecars(init + [k]))
  {
    SidecarsSnoc(init, k);
    if k.restartsAlways { HoldsSnoc(a, Sidecars(init), k, a'); }
  }

  /** One init container: a sidecar stays, any other only counts while it runs. */
  method Admit(container: Container, sidecars: Allocation, initPeak: Allocation, ghost init: seq<Container>)
    requires sidecars != initPeak
    requires Holds(sidecars.Value(), Sidecars(init)) && Peaks(initPeak.Value(), init)
    modifies sidecars, initPeak
    ensures Holds(sidecars.Value(), Sidecars(init + [container])) && Peaks(initPeak.Value(), init + [container])
  {
    ghost var active, peak := sidecars.Value(), initPeak.Value();
    var current := new Allocation(ContainerAllocation(container));
    if container.restartsAlways {
      sidecars.Add(current.Value());
      initPeak.RaiseTo(sidecars.Value());
      PeaksSnoc(peak, active, init, container, sidecars.Value(), initPeak.Value());
    } else {
      current.Add(sidecars.Value());
      initPeak.RaiseTo(current.Value());
      PeaksSnoc(peak, active, init, container, current.Value(), initPeak.Value());
    }
    SidecarsHold(active, init, container, sidecars.Value());
  }

  method Startup(entries: seq<Option<Container>>) returns (sidecars: Allocation, initPeak: Allocation)
    ensures fresh(sidecars) && fresh(initPeak)
    ensures Holds(sidecars.Value(), Sidecars(Present(entries))) && Peaks(initPeak.Value(), Present(entries))
  {
    sidecars := new Allocation(ZERO);
    initPeak := new Allocation(ZERO);
    assert Holds(ZERO, []) && Peaks(ZERO, []);
    for i := 0 to |entries|
      invariant fresh(sidecars) && fresh(initPeak) && sidecars != initPeak
      invariant Holds(sidecars.Value(), Sidecars(Present(entries[..i])))
        && Peaks(initPeak.Value(), Present(entries[..i]))
    {
      PresentSnoc(entries, i);
      if entries[i].None? { continue; }
      Admit(entries[i].value, sidecars, initPeak, Present(entries[..i]));
    }
    assert entries[..|entries|] == entries;
  }

  method EffectivePodAllocation(pod: Pod) returns (r: Amounts)
    ensures forall c: Component :: r.Get(c) == Effective(pod, c)
  {
    var steady := Steady(pod.containers);
    var sidecars, initPeak := Startup(pod.initContainers);
    steady.Add(sidecars.Value());
    forall c: Component ensures steady.Value().Get(c) == Total(SteadyState(pod), c) {
      TotalAppend(Present(pod.containers), Sidecars(Present(pod.initContainers)), c);
    }
    steady.RaiseTo(initPeak.Value());
    if pod.overhead.Some? {
      var o := pod.overhead.value;
      steady.Add(Amounts(o.cpu, o.cpu, o.memory, o.memory));
    }
    r := steady.Value();
  }

  // ----- against unbounded sums -----

  function Sum(ks: seq<Container>, c: Component): int {
    if ks == [] then 0 else Sum(ks[..|ks| - 1], c) + Takes(ks[|ks| - 1], c)
  }

  lemma SumSnoc(ks: seq<Container>, k: Container, c: Component)
    ensures Sum(ks + [k], c) == Sum(ks, c) + Takes(k, c)
  {
    assert (ks + [k])[..|ks|] == ks;
  }

  /** The 64-bit total is off by a multiple of 2^64. */
  lemma {:induction false} TotalOff(ks: seq<Container>, c: Component) returns (laps: int)
    ensures Total(ks, c) == Sum(ks, c) + laps * WHOLE
  {
    if ks == [] {
      laps := 0;
    } else {
      var front, last := ks[..|ks| - 1], ks[|ks| - 1];
      laps := TotalOff(front, c);
      var t := Total(front, c) + Takes(last, c);
      laps := if t >= HALF then laps - 1 else if t < -HALF then laps + 1 else laps;
    }
  }

  /** It is right exactly when the sum itself fits, whatever happened on the way. */
  lemma TotalExact(ks: seq<Container>, c: Component)
    ensures Total(ks, c) == Sum(ks, c) <==> Fits(Sum(ks, c))
  {
    var laps := TotalOff(ks, c);
  }

  /** The highest of some start value and what the init phases take. */
  function PhasePeak(init: seq<Container>, start: int, c: Component): int {
    if init == [] then start
    else Max(PhasePeak(init[..|init| - 1], start, c), Sum(Phase(init, |init| - 1), c))
  }

  /** The most the pod's containers take at any one time. */
  function Peak(pod: Pod, c: Component): int {
    PhasePeak(Present(pod.initContainers), Sum(SteadyState(pod), c), c)
  }

  lemma FrontPhases(init: seq<Container>, k: nat)
    requires k < |init| - 1
    ensures Phase(init[..|init| - 1], k) == Phase(init, k)
  {
    assert init[..|init| - 1][..k] == init[..k];
  }

  lemma {:induction false} PhaseBelowPeak(init: seq<Container>, start: int, c: Component, k: nat)
    requires k < |init|
    ensures Sum(Phase(init, k), c) <= PhasePeak(init, start, c)
  {
    if k < |init| - 1 {
      FrontPhases(init, k);
      PhaseBelowPeak(init[..|init| - 1], start, c, k);
    }
  }

  lemma {:induction false} PeakAttained(init: seq<Container>, start: int, c: Component)
    ensures PhasePeak(init, start, c) >= start
    ensures PhasePeak(init, start, c) == start || exists k: nat | k < |init| ::
      Sum(Phase(init, k), c) == PhasePeak(init, start, c)
  {
    if init != [] {
      var front := init[..|init| - 1];
      PeakAttained(front, start, c);
      if PhasePeak(front, start, c) != start {
        var k: nat :| k < |front| && Sum(Phase(front, k), c) == PhasePeak(front, start, c);
        FrontPhases(init, k);
      }
    }
  }

  /** The peak is the greatest, over all start-up phases and the steady state, of what runs then. */
  lemma PeakIsGreatest(pod: Pod, c: Component)
    ensures Sum(SteadyState(pod), c) <= Peak(pod, c)
    ensures forall k: nat | k < |Present(pod.initContainers)| ::
      Sum(Phase(Present(pod.initContainers), k), c) <= Peak(pod, c)
    ensures Peak(pod, c) == Sum(SteadyState(pod), c)
      || exists k: nat | k < |Present(pod.initContainers)| ::
        Sum(Phase(Present(pod.initContainers), k), c) == Peak(pod, c)
  {
    var init, start := Present(pod.initContainers), Sum(SteadyState(pod), c);
    PeakAttained(init, start, c);
    forall k: nat | k < |init| ensures Sum(Phase(init, k), c) <= Peak(pod, c) { PhaseBelowPeak(init, start, c, k); }
  }

  ghost predicate PhasesFit(init: seq<Container>, c: Component) {
    forall k: nat | k < |init| :: Fits(Sum(Phase(init, k), c))
  }

  /** What runs in any phase adds up to a 64-bit number. */
  ghost predicate AllFit(pod: Pod, c: Component) {
    Fits(Sum(SteadyState(pod), c)) && PhasesFit(Present(pod.initContainers), c)
  }

  lemma {:induction false} InitPeakExact(init: seq<Container>, start: int64, c: Component)
    requires PhasesFit(init, c)
    ensures Max(start, InitPeak(init, c)) == Max(0, PhasePeak(init, start, c))
  {
    if init != [] {
      var front := init[..|init| - 1];
      forall k: nat | k < |front| ensures Fits(Sum(Phase(front, k), c)) { FrontPhases(init, k); }
      InitPeakExact(front, start, c);
      TotalExact(Phase(init, |init| - 1), c);
    }
  }

  lemma EffectiveExact(pod: Pod, c: Component)
    requires AllFit(pod, c)
    ensures Fits(Max(0, Peak(pod, c))) && Effective(pod, c) == Plus(Max(0, Peak(pod, c)), Overhead(pod, c))
  {
    TotalExact(SteadyState(pod), c);
    InitPeakExact(Present(pod.initContainers), Sum(SteadyState(pod), c), c);
  }

  /** The figure is the overhead plus the peak exactly when the peak is not negative and the result
      is a 64-bit number. */
  lemma EffectiveIsPeak(pod: Pod, c: Component)
    requires AllFit(pod, c)
    ensures Effective(pod, c) == Peak(pod, c) + Overhead(pod, c) <==>
      Peak(pod, c) >= 0 && Fits(Peak(pod, c) + Overhead(pod, c))
  {
    EffectiveExact(pod, c);
  }

  lemma {:induction false} SumNotNegative(ks: seq<Container>, c: Component)
    requires forall k | k in ks :: Takes(k, c) >= 0
    ensures Sum(ks, c) >= 0
  {
    if ks != [] { SumNotNegative(ks[..|ks| - 1], c); }
  }

  lemma {:induction false} SidecarsAmong(ks: seq<Container>)
    ensures forall k | k in Sidecars(ks) :: k in ks
  {
    if ks != [] { SidecarsAmong(ks[..|ks| - 1]); }
  }

  /** No container takes a negative amount, as Kubernetes demands of every quantity. */
  ghost predicate NotNegative(pod: Pod, c: Component) {
    forall k | k in Present(pod.containers) || k in Present(pod.initContainers) :: Takes(k, c) >= 0
  }

  lemma PeakNotNegative(pod: Pod, c: Component)
    requires NotNegative(pod, c)
    ensures Peak(pod, c) >= 0
    ensures Fits(Peak(pod, c)) <==> AllFit(pod, c)
  {
    var init := Present(pod.initContainers);
    SidecarsAmong(init);
    SumNotNegative(SteadyState(pod), c);
    PeakIsGreatest(pod, c);
    forall k: nat | k < |init| ensures 0 <= Sum(Phase(init, k), c) <= Peak(pod, c) { PhaseNotNegative(init, k, c); }
  }

  lemma PhaseNotNegative(init: seq<Container>, k: nat, c: Component)
    requires k < |init| && forall x | x in init :: Takes(x, c) >= 0
    ensures Sum(Phase(init, k), c) >= 0
  {
    SidecarsAmong(init[..k]);
    SumNotNegative(Phase(init, k), c);
  }

  lemma InitPeakNotNegative(init: seq<Container>, c: Component)
    ensures InitPeak(init, c) >= 0
  {
  }

  /** For containers without negative amounts, whatever the overhead and whatever overflows: the figure is
      overhead plus peak exactly when both the peak and the result are 64-bit numbers. */
  lemma EffectiveOfNotNegative(pod: Pod, c: Component)
    requires NotNegative(pod, c)
    ensures Effective(pod, c) == Peak(pod, c) + Overhead(pod, c) <==>
      Fits(Peak(pod, c)) && Fits(Peak(pod, c) + Overhead(pod, c))
  {
    PeakNotNegative(pod, c);
    InitPeakNotNegative(Present(pod.initContainers), c);
    if Fits(Peak(pod, c)) { EffectiveIsPeak(pod, c); }
  }

  /** With an overhead that is not negative either, exactly when the result is. */
  lemma EffectiveOfQuantities(pod: Pod, c: Component)
    requires NotNegative(pod, c) && Overhead(pod, c) >= 0
    ensures Effective(pod, c) == Peak(pod, c) + Overhead(pod, c) <==> Fits(Peak(pod, c) + Overhead(pod, c))
  {
    PeakNotNegative(pod, c);
    EffectiveOfNotNegative(pod, c);
  }

  // ----- monotone in every quantity -----

  ghost predicate Below(ks: seq<Container>, ls: seq<Container>, c: Component) {
    && |ks| == |ls|
    && forall i | 0 <= i < |ks| ::
      ks[i].restartsAlways == ls[i].restartsAlways && Takes(ks[i], c) <= Takes(ls[i], c)
  }

  ghost predicate PodBelow(p: Pod, q: Pod, c: Component) {
    && Below(Present(p.containers), Present(q.containers), c)
    && Below(Present(p.initContainers), Present(q.initContainers), c)
    && Overhead(p, c) <= Overhead(q, c)
  }

  lemma {:induction false} SumMonotone(ks: seq<Container>, ls: seq<Container>, c: Component)
    requires Below(ks, ls, c)
    ensures Sum(ks, c) <= Sum(ls, c)
  {
    if ks != [] { SumMonotone(ks[..|ks| - 1], ls[..|ls| - 1], c); }
  }

  lemma {:induction false} SidecarsBelow(ks: seq<Container>, ls: seq<Container>, c: Component)
    requires Below(ks, ls, c)
    ensures Below(Sidecars(ks), Sidecars(ls), c)
  {
    if ks != [] { SidecarsBelow(ks[..|ks| - 1], ls[..|ls| - 1], c); }
  }

  lemma {:induction false} PeakMonotone(init: seq<Container>, init': seq<Container>, start: int, start': int,
                                        c: Component)
    requires Below(init, init', c) && start <= start'
    ensures PhasePeak(init, start, c) <= PhasePeak(init', start', c)
  {
    if init != [] {
      var n := |init| - 1;
      PeakMonotone(init[..n], init'[..n], start, start', c);
      SidecarsBelow(init[..n], init'[..n], c);
      SumMonotone(Phase(init, n), Phase(init', n), c);
    }
  }

  lemma BelowNotNegative(ks: seq<Container>, ls: seq<Container>, c: Component)
    requires Below(ks, ls, c) && forall k | k in ks :: Takes(k, c) >= 0
    ensures forall l | l in ls :: Takes(l, c) >= 0
  {
    forall l | l in ls ensures Takes(l, c) >= 0 {
      var i :| 0 <= i < |ls| && ls[i] == l;
      assert Takes(ks[i], c) >= 0;
    }
  }

  lemma PodPeakMonotone(p: Pod, q: Pod, c: Component)
    requires PodBelow(p, q, c)
    ensures Peak(p, c) <= Peak(q, c)
  {
    SidecarsBelow(Present(p.initContainers), Present(q.initContainers), c);
    SumMonotone(SteadyState(p), SteadyState(q), c);
    PeakMonotone(Present(p.initContainers), Present(q.initContainers), Sum(SteadyState(p), c),
                 Sum(SteadyState(q), c), c);
  }

  /** Raising quantities that are not negative never lowers the figure, as long as the higher result is
      a 64-bit number. */
  lemma EffectiveMonotone(p: Pod, q: Pod, c: Component)
    requires PodBelow(p, q, c) && NotNegative(p, c) && Overhead(p, c) >= 0
    requires Fits(Peak(q, c) + Overhead(q, c))
    ensures Effective(p, c) <= Effective(q, c)
  {
    PodPeakMonotone(p, q, c);
    BelowNotNegative(Present(p.containers), Present(q.containers), c);
    BelowNotNegative(Present(p.initContainers), Present(q.initContainers), c);
    PeakNotNegative(p, c);
    EffectiveOfQuantities(p, c);
    EffectiveOfQuantities(q, c);
  }

  // ----- the order of init containers -----

  lemma {:induction false} SameAfter(a: seq<Container>, b: seq<Container>, post: seq<Container>, c: Component)
    requires Sidecars(a) == Sidecars(b) && InitPeak(a, c) == InitPeak(b, c)
    ensures Sidecars(a + post) == Sidecars(b + post) && InitPeak(a + post, c) == InitPeak(b + post, c)
  {
    if post == [] {
      assert a + post == a && b + post == b;
    } else {
      var front, last := post[..|post| - 1], post[|post| - 1];
      FrontLast(post);
      Assoc(a, front, [last]);
      Assoc(b, front, [last]);
      SameAfter(a, b, front, c);
      SidecarsSnoc(a + front, last);
      SidecarsSnoc(b + front, last);
      InitPeakSnoc(a + front, last, c);
      InitPeakSnoc(b + front, last, c);
    }
  }

  lemma TwoOrdinary(pre: seq<Container>, a: Container, b: Container, c: Component)
    requires !a.restartsAlways && !b.restartsAlways
    ensures Sidecars(pre + [a] + [b]) == Sidecars(pre)
    ensures InitPeak(pre + [a] + [b], c)
         == Max(Max(InitPeak(pre, c), Plus(Total(Sidecars(pre), c), Takes(a, c))),
                Plus(Total(Sidecars(pre), c), Takes(b, c)))
  {
    SidecarsSnoc(pre, a);
    SidecarsSnoc(pre + [a], b);
    InitPeakSnoc(pre, a, c);
    InitPeakSnoc(pre + [a], b, c);
  }

  lemma {:induction false} PresentAppend(a: seq<Option<Container>>, b: seq<Option<Container>>)
    ensures Present(a + b) == Present(a) + Present(b)
  {
    if b == [] {
      assert a + b == a;
    } else {
      var front, last := b[..|b| - 1], b[|b| - 1];
      PresentAppend(a, front);
      FrontLast(b);
      Assoc(a, front, [last]);
      PresentLast(a + front, last);
      PresentLast(front, last);
    }
  }

  lemma PresentLast(entries: seq<Option<Container>>, last: Option<Container>)
    ensures Present(entries + [last]) == Present(entries) + (if last.Some? then [last.value] else [])
  {
    assert (entries + [last])[..|entries|] == entries;
  }

  lemma PresentMiddle(pre: seq<Option<Container>>, a: Container, b: Container, post: seq<Option<Container>>)
    ensures Present(pre + [Some(a)] + [Some(b)] + post) == Present(pre) + [a] + [b] + Present(post)
  {
    PresentAppend(pre + [Some(a)] + [Some(b)], post);
    PresentLast(pre + [Some(a)], Some(b));
    PresentLast(pre, Some(a));
  }

  lemma SwapKeepsPeak(pre: seq<Container>, a: Container, b: Container, post: seq<Container>, c: Component)
    requires !a.restartsAlways && !b.restartsAlways
    ensures Sidecars(pre + [a] + [b] + post) == Sidecars(pre + [b] + [a] + post)
    ensures InitPeak(pre + [a] + [b] + post, c) == InitPeak(pre + [b] + [a] + post, c)
  {
    TwoOrdinary(pre, a, b, c);
    TwoOrdinary(pre, b, a, c);
    SameAfter(pre + [a] + [b], pre + [b] + [a], post, c);
  }

  lemma SameInit(p: Pod, q: Pod, c: Component)
    requires p.containers == q.containers && p.overhead == q.overhead
    requires Sidecars(Present(p.initContainers)) == Sidecars(Present(q.initContainers))
    requires InitPeak(Present(p.initContainers), c) == InitPeak(Present(q.initContainers), c)
    ensures Effective(p, c) == Effective(q, c)
  {
  }

  /** Ordinary init containers run one after the other, so neighbours may change places. */
  lemma SwapOrdinary(pod: Pod, pre: seq<Option<Container>>, a: Container, b: Container, post: seq<Option<Container>>,
                     c: Component)
    requires !a.restartsAlways && !b.restartsAlways && pod.initContainers == pre + [Some(a)] + [Some(b)] + post
    ensures Effective(pod, c) == Effective(pod.(initContainers := pre + [Some(b)] + [Some(a)] + post), c)
  {
    PresentMiddle(pre, a, b, post);
    PresentMiddle(pre, b, a, post);
    SwapKeepsPeak(Present(pre), a, b, Present(post), c);
    SameInit(pod, pod.(initContainers := pre + [Some(b)] + [Some(a)] + post), c);
  }

  lemma PhasePeakSnoc(init: seq<Container>, start: int, k: Container, c: Component)
    ensures PhasePeak(init + [k], start, c) == Max(PhasePeak(init, start, c), Sum(Sidecars(init), c) + Takes(k, c))
  {
    var all := init + [k];
    assert all[..|init|] == init && all[|init|] == k;
    SumSnoc(Sidecars(init), k, c);
  }

  lemma NotLessSnoc(a: seq<Container>, b: seq<Container>, k: Container, start: int, c: Component)
    requires Sidecars(a) == Sidecars(b) && PhasePeak(a, start, c) <= PhasePeak(b, start, c)
    ensures Sidecars(a + [k]) == Sidecars(b + [k]) && PhasePeak(a + [k], start, c) <= PhasePeak(b + [k], start, c)
  {
    SidecarsSnoc(a, k);
    SidecarsSnoc(b, k);
    PhasePeakSnoc(a, start, k, c);
    PhasePeakSnoc(b, start, k, c);
  }

  lemma {:induction false} NotLessAfter(a: seq<Container>, b: seq<Container>, post: seq<Container>, start: int,
                                        c: Component)
    requires Sidecars(a) == Sidecars(b) && PhasePeak(a, start, c) <= PhasePeak(b, start, c)
    ensures PhasePeak(a + post, start, c) <= PhasePeak(b + post, start, c)
    ensures Sidecars(a + post) == Sidecars(b + post)
  {
    if post == [] {
      assert a + post == a && b + post == b;
    } else {
      var front, last := post[..|post| - 1], post[|post| - 1];
      NotLessAfter(a, b, front, start, c);
      NotLessSnoc(a + front, b + front, last, start, c);
      FrontLast(post);
      Assoc(a, front, [last]);
      Assoc(b, front, [last]);
    }
  }

  lemma SidecarFirst(pre: seq<Container>, ordinary: Container, sidecar: Container, post: seq<Container>,
                     start: int, c: Component)
    requires !ordinary.restartsAlways && sidecar.restartsAlways && Takes(ordinary, c) >= 0 && Takes(sidecar, c) >= 0
    ensures PhasePeak(pre + [ordinary] + [sidecar] + post, start, c)
         <= PhasePeak(pre + [sidecar] + [ordinary] + post, start, c)
    ensures Sidecars(pre + [ordinary] + [sidecar] + post) == Sidecars(pre + [sidecar] + [ordinary] + post)
  {
    SidecarsSnoc(pre, ordinary);
    SidecarsSnoc(pre + [ordinary], sidecar);
    SidecarsSnoc(pre, sidecar);
    SidecarsSnoc(pre + [sidecar], ordinary);
    SumSnoc(Sidecars(pre), sidecar, c);
    PhasePeakSnoc(pre, start, ordinary, c);
    PhasePeakSnoc(pre + [ordinary], start, sidecar, c);
    PhasePeakSnoc(pre, start, sidecar, c);
    PhasePeakSnoc(pre + [sidecar], start, ordinary, c);
    NotLessAfter(pre + [ordinary] + [sidecar], pre + [sidecar] + [ordinary], post, start, c);
  }

  /** A sidecar moved ahead of its ordinary neighbour runs beside it as well: that never lowers the pod's peak. */
  lemma SidecarEarlierTakesMore(pod: Pod, pre: seq<Option<Container>>, ordinary: Container, sidecar: Container,
                                post: seq<Option<Container>>, c: Component)
    requires !ordinary.restartsAlways && sidecar.restartsAlways && Takes(ordinary, c) >= 0 && Takes(sidecar, c) >= 0
    requires pod.initContainers == pre + [Some(ordinary)] + [Some(sidecar)] + post
    ensures Peak(pod, c) <= Peak(pod.(initContainers := pre + [Some(sidecar)] + [Some(ordinary)] + post), c)
  {
    PresentMiddle(pre, ordinary, sidecar, post);
    PresentMiddle(pre, sidecar, ordinary, post);
    SidecarFirst(Present(pre), ordinary, sidecar, Present(post), Sum(SteadyState(pod), c), c);
  }

  /** One container that asks for -5: the figure is 0. */
  lemma NegativeReadsAsZero() returns (pod: Pod)
    ensures AllFit(pod, CpuRequests) && Effective(pod, CpuRequests) == 0
      && Peak(pod, CpuRequests) + Overhead(pod, CpuRequests) == -5
  {
    var k := Container(Some(Resources(Quantities(-5, 0), Quantities(0, 0))), false);
    pod := Pod([Some(k)], [], None);
    PresentLast([], Some(k));
    assert [] + [Some(k)] == [Some(k)] && [] + [k] == [k];
    assert SteadyState(pod) == [k];
    SumSnoc([], k, CpuRequests);
    EffectiveExact(pod, CpuRequests);
  }

  // ----- who runs when, and what it takes, in plain terms -----

  lemma TakesWhat(k: Container)
    ensures k.resources.None? ==> forall c: Component :: Takes(k, c) == 0
    ensures k.resources.Some? ==>
      && Takes(k, CpuRequests) == k.resources.value.requests.cpu && Takes(k, CpuLimits) == k.resources.value.limits.cpu
      && Takes(k, MemoryRequests) == k.resources.value.requests.memory
      && Takes(k, MemoryLimits) == k.resources.value.limits.memory
  {
  }

  lemma OverheadIs(pod: Pod)
    ensures pod.overhead.None? ==> forall c: Component :: Overhead(pod, c) == 0
    ensures pod.overhead.Some? ==>
      && Overhead(pod, CpuRequests) == Overhead(pod, CpuLimits) == pod.overhead.value.cpu
      && Overhead(pod, MemoryRequests) == Overhead(pod, MemoryLimits) == pod.overhead.value.memory
  {
  }

  /** What the sidecars among some containers take, and the one at `also`, position by position. */
  function TakenBy(ks: seq<Container>, also: int, c: Component): int {
    if ks == [] then 0
    else
      var n := |ks| - 1;
      TakenBy(ks[..n], also, c) + (if ks[n].restartsAlways || n == also then ContainerAllocation(ks[n]).Get(c) else 0)
  }

  lemma {:induction false} SidecarSum(ks: seq<Container>, also: int, c: Component)
    requires also < 0 || also >= |ks|
    ensures Sum(Sidecars(ks), c) == TakenBy(ks, also, c)
  {
    if ks != [] {
      var n := |ks| - 1;
      SidecarSum(ks[..n], also, c);
      if ks[n].restartsAlways {
        SumSnoc(Sidecars(ks[..n]), ks[n], c);
      } else {
        assert Sidecars(ks) == Sidecars(ks[..n]);
      }
    }
  }

  /** While init container k starts or does its work, it runs, and the sidecars before it. */
  lemma PhaseSum(init: seq<Container>, k: nat, c: Component)
    requires k < |init|
    ensures Sum(Phase(init, k), c) == TakenBy(init[..k + 1], k, c)
  {
    SumSnoc(Sidecars(init[..k]), init[k], c);
    SidecarSum(init[..k], k, c);
    assert init[..k + 1][..k] == init[..k];
  }

  /** In the steady state all containers run, and all sidecars. */
  lemma SteadySum(pod: Pod, c: Component)
    ensures Sum(SteadyState(pod), c) == Sum(Present(pod.containers), c) + TakenBy(Present(pod.initContainers), -1, c)
  {
    SumAppend(Present(pod.containers), Sidecars(Present(pod.initContainers)), c);
    SidecarSum(Present(pod.initContainers), -1, c);
  }

  lemma {:induction false} SumAppend(a: seq<Container>, b: seq<Container>, c: Component)
    ensures Sum(a + b, c) == Sum(a, c) + Sum(b, c)
  {
    if b == [] {
      assert a + b == a;
    } else {
      FrontLast(b);
      Assoc(a, b[..|b| - 1], [b[|b| - 1]]);
      SumAppend(a, b[..|b| - 1], c);
      SumSnoc(a + b[..|b| - 1], b[|b| - 1], c);
    }
  }
}
