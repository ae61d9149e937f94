/** Clusters: the payload of the upsert, and the comparison of a Cluster's spec
    with the cluster SKE reports. */
module Clusters {
  import opened Common

  type int32 = x: int | -0x8000_0000 <= x < 0x8000_0000

  /** Go's int32(x) conversion of a 64-bit integer: it keeps the low 32 bits. */
  function Int32(x: int): int32 {
    (x + 0x8000_0000) % 0x1_0000_0000 - 0x8000_0000
  }

  /** A time.Time: seconds since the Unix epoch (negative before 1970),
      nanoseconds, and the offset of its time zone in seconds. */
  datatype Instant = Instant(unix: int, nanos: nat, zone: int)

  datatype PoolSpec = PoolSpec(
    name: string, machineType: string, imageName: string, imageVersion: string, zones: seq<string>,
    minimum: int, maximum: int, volumeSize: int, volumeType: string,
    allowSystemComponents: Option<bool>, labels: map<string, string>)

  datatype MaintenanceSpec = MaintenanceSpec(
    autoUpdateKubernetes: Option<bool>, autoUpdateImage: Option<bool>, start: Instant, end: Instant)

  datatype ClusterSpec = ClusterSpec(
    name: string, kubernetesVersion: string, pools: seq<PoolSpec>, maintenance: Option<MaintenanceSpec>,
    existingName: Option<string>)

  datatype Pool = Pool(
    name: string, machineType: string, imageName: string, imageVersion: string, zones: seq<string>,
    minimum: int32, maximum: int32, volumeSize: int32, volumeType: Option<string>,
    allowSystemComponents: Option<bool>, labels: Option<map<string, string>>)

  datatype Maintenance = Maintenance(
    autoUpdateKubernetes: Option<bool>, autoUpdateImage: Option<bool>, start: Instant, end: Instant)

  datatype ClusterPayload = ClusterPayload(
    kubernetesVersion: string, pools: seq<Pool>, maintenance: Option<Maintenance>)

  datatype ClusterError = ClusterError(code: Option<string>, message: Option<string>)

  datatype ClusterReport = ClusterReport(
    aggregated: Option<string>, hibernated: Option<bool>, podRanges: seq<string>, egressRanges: seq<string>,
    errors: seq<ClusterError>)

  /** The fields of ske.Cluster the controller reads. */
  datatype Cluster = Cluster(
    kubernetesVersion: string, pools: seq<Pool>, maintenance: Option<Maintenance>, report: Option<ClusterReport>)

  // ---- availability zones: equal as multisets

  /** Indexing a Go map: a missing key reads as zero. */
  function CountOf<T(==)>(counts: map<T, int>, v: T): int {
    if v in counts then counts[v] else 0
  }

  /** The source has it for strings; nothing but equality of the elements matters. */
  method StringSlicesEqualUnordered<T(==)>(a: seq<T>, b: seq<T>) returns (equal: bool)
    ensures equal <==> multiset(a) == multiset(b)
  {
    if |a| != |b| {
      assert |multiset(a)| != |multiset(b)|;
      return false;
    }
    var counts: map<T, int> := map[];
    ghost var inA: multiset<T> := multiset{};
    for i := 0 to |a|
      invariant inA == multiset(a[..i])
      invariant forall v :: CountOf(counts, v) == inA[v]
    {
      assert a[..i + 1] == a[..i] + [a[i]];
      counts := counts[a[i] := CountOf(counts, a[i]) + 1];
      inA := inA + multiset{a[i]};
    }
    assert a[..|a|] == a;
    ghost var inB: multiset<T> := multiset{};
    for i := 0 to |b|
      invariant inB == multiset(b[..i])
      invariant forall v :: CountOf(counts, v) + inB[v] == inA[v]
    {
      assert b[..i + 1] == b[..i] + [b[i]];
      counts := counts[b[i] := CountOf(counts, b[i]) - 1];
      inB := inB + multiset{b[i]};
    }
    assert b[..|b|] == b;
    var rest := counts.Keys;
    while rest != {}
      invariant rest <= counts.Keys
      invariant forall v | v !in rest :: CountOf(counts, v) == 0
      decreases |rest|
    {
      var v :| v in rest;
      if counts[v] != 0 {
        assert CountOf(counts, v) != 0;
        return false;
      }
      rest := rest - {v};
    }
    assert forall v :: CountOf(counts, v) == 0;
    equal := true;
  }

  // ---- node pools: compared by name

  /** The compared fields agree. Server-side extras (labels, system components)
      are not compared, and an unset desired volume type accepts any type. */
  predicate PoolAgrees(got: Pool, want: PoolSpec) {
    && got.machineType == want.machineType
    && got.imageName == want.imageName && got.imageVersion == want.imageVersion
    && got.minimum == Int32(want.minimum) && got.maximum == Int32(want.maximum)
    && got.volumeSize == Int32(want.volumeSize)
    && (want.volumeType != "" ==> DerefString(got.volumeType) == want.volumeType)
    && multiset(got.zones) == multiset(want.zones)
  }

  /** What a Go map built from the pools in order holds under a name: the last
      pool of that name. */
  function LastNamed(pools: seq<Pool>, name: string): (r: Option<Pool>)
    ensures r.Some? ==> r.value in pools && r.value.name == name
    ensures r.None? ==> forall p | p in pools :: p.name != name
  {
    if pools == [] then None
    else if pools[|pools| - 1].name == name then Some(pools[|pools| - 1])
    else LastNamed(pools[..|pools| - 1], name)
  }

  predicate NodepoolsMatch(current: seq<Pool>, desired: seq<PoolSpec>) {
    && |current| == |desired|
    && forall i | 0 <= i < |desired| ::
         var got := LastNamed(current, desired[i].name); got.Some? && PoolAgrees(got.value, desired[i])
  }

  predicate DistinctNames(desired: seq<PoolSpec>) {
    forall i, j | 0 <= i < j < |desired| :: desired[i].name != desired[j].name
  }

  ghost predicate IsPermutation(p: seq<nat>, n: nat) {
    && |p| == n
    && (forall i | 0 <= i < n :: p[i] < n)
    && (forall i, j | 0 <= i < j < n :: p[i] != p[j])
    && (forall k | 0 <= k < n :: k in p)
  }

  ghost predicate PairedBy(p: seq<nat>, current: seq<Pool>, desired: seq<PoolSpec>)
    requires |current| == |desired|
  {
    && IsPermutation(p, |current|)
    && forall i | 0 <= i < |desired| :: current[p[i]].name == desired[i].name && PoolAgrees(current[p[i]], desired[i])
  }

  /** The observed pools are the desired ones in some order. */
  ghost predicate Matching(current: seq<Pool>, desired: seq<PoolSpec>) {
    |current| == |desired| && exists p: seq<nat> :: PairedBy(p, current, desired)
  }

  function Range(n: nat): (s: set<nat>)
    ensures forall k :: k in s <==> 0 <= k < n
    ensures |s| == n
  {
    if n == 0 then {} else Range(n - 1) + {n - 1}
  }

  function Elements(p: seq<nat>): (s: set<nat>)
    ensures forall k :: k in s <==> k in p
  {
    set k | k in p
  }

  lemma {:induction false} DistinctElementsCount(p: seq<nat>)
    requires forall i, j | 0 <= i < j < |p| :: p[i] != p[j]
    ensures |Elements(p)| == |p|
  {
    if p != [] {
      var init := p[..|p| - 1];
      DistinctElementsCount(init);
      assert Elements(p) == Elements(init) + {p[|p| - 1]};
    }
  }

  lemma SubsetOfSameSize(a: set<nat>, b: set<nat>)
    requires a <= b && |a| == |b|
    ensures a == b
  {
    assert |b - a| == |b| - |a|;
  }

  /** The pigeonhole principle: distinct numbers below n, n of them, are all
      the numbers below n. */
  lemma Pigeonhole(p: seq<nat>)
    requires forall i | 0 <= i < |p| :: p[i] < |p|
    requires forall i, j | 0 <= i < j < |p| :: p[i] != p[j]
    ensures IsPermutation(p, |p|)
  {
    DistinctElementsCount(p);
    SubsetOfSameSize(Elements(p), Range(|p|));
  }

  /** With distinct desired names the comparison by length and lookup decides
      exactly whether the observed pools are the desired ones in some order. */
  lemma NodepoolsMatchIsMatching(current: seq<Pool>, desired: seq<PoolSpec>)
    requires DistinctNames(desired)
    ensures NodepoolsMatch(current, desired) <==> Matching(current, desired)
  {
    if NodepoolsMatch(current, desired) {
      LookupsPair(current, desired);
    }
    if Matching(current, desired) {
      var p :| PairedBy(p, current, desired);
      PairsAreFound(p, current, desired);
    }
  }

  lemma LookupsPair(current: seq<Pool>, desired: seq<PoolSpec>)
    requires DistinctNames(desired) && NodepoolsMatch(current, desired)
    ensures Matching(current, desired)
  {
    var p := seq(|desired|, i requires 0 <= i < |desired| =>
      IndexOf(current, LastNamed(current, desired[i].name).value));
    forall i, j | 0 <= i < j < |p|
      ensures p[i] != p[j]
    {
      assert current[p[i]].name == desired[i].name && current[p[j]].name == desired[j].name;
    }
    Pigeonhole(p);
    assert PairedBy(p, current, desired);
  }

  function IndexOf(pools: seq<Pool>, pool: Pool): (i: nat)
    requires pool in pools
    ensures i < |pools| && pools[i] == pool
  {
    if pools[0] == pool then 0 else 1 + IndexOf(pools[1..], pool)
  }

  lemma PairsAreFound(p: seq<nat>, current: seq<Pool>, desired: seq<PoolSpec>)
    requires |current| == |desired| && DistinctNames(desired) && PairedBy(p, current, desired)
    ensures NodepoolsMatch(current, desired)
  {
    forall i | 0 <= i < |desired|
      ensures var got := LastNamed(current, desired[i].name); got.Some? && PoolAgrees(got.value, desired[i])
    {
      assert current[p[i]] in current;
      var got := LastNamed(current, desired[i].name).value;
      var k := IndexOf(current, got);
      assert k in p;
      var j :| 0 <= j < |p| && p[j] == k;
      assert desired[j].name == desired[i].name;
    }
  }

  /** A name no desired pool has. */
  function UnusedName(desired: seq<PoolSpec>): (name: string)
    ensures forall i | 0 <= i < |desired| :: |desired[i].name| < |name|
  {
    if desired == [] then "x"
    else
      var rest := UnusedName(desired[1..]);
      var name := rest + desired[0].name + "x";
      assert forall i | 0 <= i < |desired| :: i == 0 || desired[i] == desired[1..][i - 1];
      name
  }

  function BuiltPool(np: PoolSpec): Pool {
    Pool(np.name, np.machineType, np.imageName, np.imageVersion, np.zones,
         Int32(np.minimum), Int32(np.maximum), Int32(np.volumeSize),
         if np.volumeType != "" then Some(np.volumeType) else None,
         np.allowSystemComponents,
         if np.labels != map[] then Some(np.labels) else None)
  }

  function BuiltPools(specs: seq<PoolSpec>): (pools: seq<Pool>)
    ensures |pools| == |specs|
    ensures forall i | 0 <= i < |specs| :: pools[i] == BuiltPool(specs[i])
  {
    seq(|specs|, i requires 0 <= i < |specs| => BuiltPool(specs[i]))
  }

  /** The desired list as built is always a matching of itself. */
  lemma BuiltPoolsMatchThemselves(desired: seq<PoolSpec>)
    ensures Matching(BuiltPools(desired), desired)
  {
    var p: seq<nat> := seq(|desired|, i requires 0 <= i < |desired| => i);
    Pigeonhole(p);
    assert PairedBy(p, BuiltPools(desired), desired);
  }

  /** With a repeated name the comparison is wrong for some observed pools:
      either the repeated entries contradict each other and even the list
      just submitted is reported as drift for ever, or one observed pool
      answers for both and another one may be anything. */
  lemma RepeatedNamesMislead(desired: seq<PoolSpec>, i: nat, j: nat) returns (current: seq<Pool>)
    requires i < j < |desired| && desired[i].name == desired[j].name
    ensures NodepoolsMatch(current, desired) != Matching(current, desired)
  {
    current := BuiltPools(desired);
    BuiltPoolsMatchThemselves(desired);
    if NodepoolsMatch(current, desired) {
      var filler := BuiltPool(desired[i]).(name := UnusedName(desired));
      current := OnePoolForTwo(current, desired, i, j, filler);
    }
  }

  /** Overwriting the earlier of two pools of one name by a pool nobody asked
      for goes unnoticed. */
  lemma OnePoolForTwo(current: seq<Pool>, desired: seq<PoolSpec>, i: nat, j: nat, filler: Pool)
    returns (thinned: seq<Pool>)
    requires i < j < |desired| && desired[i].name == desired[j].name
    requires current == BuiltPools(desired) && NodepoolsMatch(current, desired)
    requires forall k | 0 <= k < |desired| :: desired[k].name != filler.name
    ensures NodepoolsMatch(thinned, desired) && !Matching(thinned, desired)
  {
    thinned := current[i := filler];
    forall k | 0 <= k < |desired|
      ensures LastNamed(thinned, desired[k].name) == LastNamed(current, desired[k].name)
    {
      ReplacingAnEarlierPool(current, i, j, filler, desired[k].name);
    }
    forall p: seq<nat> | PairedBy(p, thinned, desired)
      ensures false
    {
      EveryPoolIsWanted(p, thinned, desired, i);
    }
  }

  lemma EveryPoolIsWanted(p: seq<nat>, current: seq<Pool>, desired: seq<PoolSpec>, i: nat)
    requires |current| == |desired| && PairedBy(p, current, desired) && i < |current|
    ensures exists k | 0 <= k < |desired| :: desired[k].name == current[i].name
  {
    assert i in p;
    var k :| 0 <= k < |p| && p[k] == i;
    assert desired[k].name == current[i].name;
  }

  /** A pool that a later one of the same name hides does not matter to a lookup. */
  lemma {:induction false} ReplacingAnEarlierPool(pools: seq<Pool>, i: nat, j: nat, filler: Pool, name: string)
    requires i < j < |pools| && pools[i].name == pools[j].name && filler.name != name
    ensures LastNamed(pools[i := filler], name) == LastNamed(pools, name)
  {
    var last := |pools| - 1;
    assert pools[i := filler][last] == pools[last];
    if pools[last].name != name {
      if j < last {
        assert pools[i := filler][..last] == pools[..last][i := filler];
        ReplacingAnEarlierPool(pools[..last], i, j, filler, name);
      } else {
        ReplacingAForeignPool(pools, i, filler, name);
      }
    }
  }

  lemma {:induction false} ReplacingAForeignPool(pools: seq<Pool>, i: nat, filler: Pool, name: string)
    requires i < |pools| && pools[i].name != name && filler.name != name
    ensures LastNamed(pools[i := filler], name) == LastNamed(pools, name)
  {
    var last := |pools| - 1;
    if i == last {
      assert pools[i := filler][..last] == pools[..last];
    } else if pools[last].name != name {
      assert pools[i := filler][..last] == pools[..last][i := filler];
      ReplacingAForeignPool(pools[..last], i, filler, name);
    }
  }

  /** The comparison of node pools is right about every observed list exactly
      when the desired names are pairwise distinct. */
  lemma ComparisonIsExactIffNamesDistinct(desired: seq<PoolSpec>)
    ensures (forall current :: NodepoolsMatch(current, desired) <==> Matching(current, desired))
            <==> DistinctNames(desired)
  {
    if DistinctNames(desired) {
      forall current {
        NodepoolsMatchIsMatching(current, desired);
      }
    } else {
      var i, j :| 0 <= i < j < |desired| && desired[i].name == desired[j].name;
      var current := RepeatedNamesMislead(desired, i, j);
    }
  }

  /** The two fields that are submitted but not compared. */
  predicate SameButExtras(a: Pool, b: Pool) {
    a.(labels := b.labels, allowSystemComponents := b.allowSystemComponents) == b
  }

  lemma {:induction false} LookupsAgree(a: seq<Pool>, b: seq<Pool>, name: string)
    requires |a| == |b| && forall i | 0 <= i < |a| :: SameButExtras(a[i], b[i])
    ensures var x, y := LastNamed(a, name), LastNamed(b, name);
            x.Some? == y.Some? && (x.Some? ==> SameButExtras(x.value, y.value))
  {
    if a != [] {
      var last := |a| - 1;
      assert SameButExtras(a[last], b[last]);
      LookupsAgree(a[..last], b[..last], name);
    }
  }

  /** Changes of pool labels and of allowSystemComponents are never seen as
      drift, although the payload carries both. */
  lemma ExtrasAreNotCompared(a: seq<Pool>, b: seq<Pool>, desired: seq<PoolSpec>)
    requires |a| == |b| && forall i | 0 <= i < |a| :: SameButExtras(a[i], b[i])
    ensures NodepoolsMatch(a, desired) <==> NodepoolsMatch(b, desired)
  {
    forall i | 0 <= i < |desired| {
      LookupsAgree(a, b, desired[i].name);
    }
  }

  method NodepoolsEqual(current: seq<Pool>, desired: seq<PoolSpec>) returns (equal: bool)
    ensures equal <==> NodepoolsMatch(current, desired)
  {
    if |current| != |desired| {
      return false;
    }
    var byName: map<string, Pool> := map[];
    for i := 0 to |current|
      invariant forall n :: n in byName <==> LastNamed(current[..i], n).Some?
      invariant forall n | n in byName :: Some(byName[n]) == LastNamed(current[..i], n)
    {
      assert current[..i + 1][..i] == current[..i];
      byName := byName[current[i].name := current[i]];
    }
    assert current[..|current|] == current;
    for i := 0 to |desired|
      invariant forall k | 0 <= k < i ::
                  var got := LastNamed(current, desired[k].name); got.Some? && PoolAgrees(got.value, desired[k])
    {
      var want := desired[i];
      if want.name !in byName {
        return false;
      }
      var got := byName[want.name];
      if got.machineType != want.machineType {
        return false;
      }
      if got.imageName != want.imageName || got.imageVersion != want.imageVersion {
        return false;
      }
      if got.minimum != Int32(want.minimum) || got.maximum != Int32(want.maximum) {
        return false;
      }
      if got.volumeSize != Int32(want.volumeSize) {
        return false;
      }
      if want.volumeType != "" && DerefString(got.volumeType) != want.volumeType {
        return false;
      }
      var zonesEqual := StringSlicesEqualUnordered(got.zones, want.zones);
      if !zonesEqual {
        return false;
      }
    }
    equal := true;
  }

  // ---- maintenance: compared by time of day

  const SECONDS_PER_DAY := 86400

  function ToUTC(t: Instant): Instant {
    t.(zone := 0)
  }

  /** time.Time.Clock: the hour, minute and second of the day, in the instant's
      own zone. The calendar repeats every day, also before 1970. */
  function Clock(t: Instant): (int, int, int) {
    var s := (t.unix + t.zone) % SECONDS_PER_DAY;
    var hour := s / 3600;
    var minute := (s - hour * 3600) / 60;
    (hour, minute, s - hour * 3600 - minute * 60)
  }

  /** The clock shows h:m:s so many seconds after a midnight, on any day. */
  lemma ClockReads(t: Instant, day: int, h: nat, m: nat, s: nat)
    requires h < 24 && m < 60 && s < 60 && t.unix + t.zone == day * 86400 + h * 3600 + m * 60 + s
    ensures Clock(t) == (h, m, s)
  {
    var rest := h * 3600 + m * 60 + s;
    assert (day * SECONDS_PER_DAY + rest) % SECONDS_PER_DAY == rest by {
      var q := (day * SECONDS_PER_DAY + rest) / SECONDS_PER_DAY;
      assert (day - q) * SECONDS_PER_DAY + rest == (day * SECONDS_PER_DAY + rest) % SECONDS_PER_DAY;
    }
  }

  predicate SameTimeOfDay(a: Instant, b: Instant) {
    var ca, cb := Clock(ToUTC(a)), Clock(ToUTC(b));
    ca.0 == cb.0 && ca.1 == cb.1 && ca.2 == cb.2
  }

  /** Both windows show the same time of day exactly when they lie a whole
      number of days apart. */
  lemma SameTimeOfDayIsDayArithmetic(a: Instant, b: Instant)
    ensures SameTimeOfDay(a, b) <==> (a.unix - b.unix) % 86400 == 0
  {
    var x, y := a.unix % SECONDS_PER_DAY, b.unix % SECONDS_PER_DAY;
    var dx, dy := a.unix / SECONDS_PER_DAY, b.unix / SECONDS_PER_DAY;
    assert a.unix - b.unix == (dx - dy) * SECONDS_PER_DAY + (x - y);
    assert SameTimeOfDay(a, b) <==> x == y;
    WholeDays(dx - dy, x - y);
  }

  lemma WholeDays(days: int, rest: int)
    requires -SECONDS_PER_DAY < rest < SECONDS_PER_DAY
    ensures (days * SECONDS_PER_DAY + rest) % SECONDS_PER_DAY == 0 <==> rest == 0
  {
    var m := (days * SECONDS_PER_DAY + rest) % SECONDS_PER_DAY;
    var q := (days * SECONDS_PER_DAY + rest) / SECONDS_PER_DAY;
    assert days * SECONDS_PER_DAY + rest == q * SECONDS_PER_DAY + m;
  }

  predicate MaintenanceEqual(current: Option<Maintenance>, desired: Option<MaintenanceSpec>) {
    if desired.None? then true
    else if current.None? then false
    else if DerefBool(current.value.autoUpdateKubernetes) != DerefBool(desired.value.autoUpdateKubernetes) then false
    else if DerefBool(current.value.autoUpdateImage) != DerefBool(desired.value.autoUpdateImage) then false
    else SameTimeOfDay(current.value.start, desired.value.start) && SameTimeOfDay(current.value.end, desired.value.end)
  }

  /** b is the time of day of a on some other day, in any zone. */
  predicate DayShifted(a: Instant, b: Instant) {
    (b.unix - a.unix) % SECONDS_PER_DAY == 0
  }

  /** Moving any of the four ends of the windows by whole days, or writing
      them in another zone, never changes the verdict. */
  lemma MaintenanceIgnoresDays(current: Maintenance, moved: Maintenance,
                               desired: MaintenanceSpec, movedDesired: MaintenanceSpec)
    requires moved.autoUpdateKubernetes == current.autoUpdateKubernetes
    requires moved.autoUpdateImage == current.autoUpdateImage
    requires DayShifted(current.start, moved.start) && DayShifted(current.end, moved.end)
    requires movedDesired.autoUpdateKubernetes == desired.autoUpdateKubernetes
    requires movedDesired.autoUpdateImage == desired.autoUpdateImage
    requires DayShifted(desired.start, movedDesired.start) && DayShifted(desired.end, movedDesired.end)
    ensures MaintenanceEqual(Some(current), Some(desired)) <==> MaintenanceEqual(Some(moved), Some(movedDesired))
  {
    SameTimeOfDayIsDayArithmetic(moved.start, current.start);
    SameTimeOfDayIsDayArithmetic(moved.end, current.end);
    SameTimeOfDayIsDayArithmetic(movedDesired.start, desired.start);
    SameTimeOfDayIsDayArithmetic(movedDesired.end, desired.end);
  }

  // ---- drift and the upsert that corrects it

  function Drift(spec: ClusterSpec, c: Cluster): Option<ClusterPayload> {
    if c.kubernetesVersion != spec.kubernetesVersion || !NodepoolsMatch(c.pools, spec.pools)
       || !MaintenanceEqual(c.maintenance, spec.maintenance)
    then Some(Payload(spec)) else None
  }

  function Payload(spec: ClusterSpec): ClusterPayload {
    ClusterPayload(
      spec.kubernetesVersion, BuiltPools(spec.pools),
      match spec.maintenance
      case None => None
      case Some(m) => Some(Maintenance(m.autoUpdateKubernetes, m.autoUpdateImage, m.start, m.end)))
  }

  /** SKE keeps the submitted pool: the zones in any order, an unset volume
      type defaulted, other fields free. */
  predicate EchoesPool(sent: Pool, got: Pool) {
    && got.name == sent.name && got.machineType == sent.machineType
    && got.imageName == sent.imageName && got.imageVersion == sent.imageVersion
    && got.minimum == sent.minimum && got.maximum == sent.maximum && got.volumeSize == sent.volumeSize
    && (sent.volumeType.Some? ==> got.volumeType == sent.volumeType)
    && multiset(got.zones) == multiset(sent.zones)
  }

  ghost predicate EchoesPools(sent: seq<Pool>, got: seq<Pool>) {
    && |sent| == |got|
    && exists p: seq<nat> :: IsPermutation(p, |got|) && forall i | 0 <= i < |sent| :: EchoesPool(sent[i], got[p[i]])
  }

  /** An unset flag comes back unset or as false; the window comes back on any day. */
  predicate EchoesMaintenance(sent: Option<Maintenance>, got: Option<Maintenance>) {
    sent.Some? ==>
      && got.Some?
      && DerefBool(got.value.autoUpdateKubernetes) == DerefBool(sent.value.autoUpdateKubernetes)
      && DerefBool(got.value.autoUpdateImage) == DerefBool(sent.value.autoUpdateImage)
      && DayShifted(sent.value.start, got.value.start) && DayShifted(sent.value.end, got.value.end)
  }

  /** What GetCluster shows after an accepted upsert. */
  ghost predicate Echoes(sent: ClusterPayload, c: Cluster) {
    && c.kubernetesVersion == sent.kubernetesVersion
    && EchoesPools(sent.pools, c.pools)
    && EchoesMaintenance(sent.maintenance, c.maintenance)
  }

  /** The upsert is a fixed point: once SKE echoes the submitted payload, no
      drift is left, so one corrective call per spec change is enough. */
  lemma UpsertFixedPoint(spec: ClusterSpec, c: Cluster)
    requires DistinctNames(spec.pools)
    requires Echoes(Payload(spec), c)
    ensures Drift(spec, c).None?
  {
    var sent := Payload(spec);
    var p :|
      && IsPermutation(p, |c.pools|)
      && forall i | 0 <= i < |sent.pools| :: EchoesPool(sent.pools[i], c.pools[p[i]]);
    assert PairedBy(p, c.pools, spec.pools);
    PairsAreFound(p, c.pools, spec.pools);
    if spec.maintenance.Some? {
      var got, want := c.maintenance.value, spec.maintenance.value;
      SameTimeOfDayIsDayArithmetic(got.start, want.start);
      SameTimeOfDayIsDayArithmetic(got.end, want.end);
    }
  }

  /** The converse too, for distinct names: nothing is resubmitted iff the cluster
      is an echo of today's payload, up to order, defaults and days. */
  lemma NoDriftIffEchoed(spec: ClusterSpec, c: Cluster)
    requires DistinctNames(spec.pools)
    ensures Drift(spec, c).None? <==> Echoes(Payload(spec), c)
  {
    if Echoes(Payload(spec), c) {
      UpsertFixedPoint(spec, c);
    }
    if Drift(spec, c).None? {
      LookupsPair(c.pools, spec.pools);
      var p :| PairedBy(p, c.pools, spec.pools);
      assert forall i | 0 <= i < |spec.pools| :: EchoesPool(BuiltPools(spec.pools)[i], c.pools[p[i]]);
      if spec.maintenance.Some? {
        SameTimeOfDayIsDayArithmetic(c.maintenance.value.start, spec.maintenance.value.start);
        SameTimeOfDayIsDayArithmetic(c.maintenance.value.end, spec.maintenance.value.end);
      }
    }
  }

  /** What a payload asks for, read back as a spec. */
  function RequestedPool(p: Pool): PoolSpec {
    PoolSpec(p.name, p.machineType, p.imageName, p.imageVersion, p.zones, p.minimum, p.maximum, p.volumeSize,
             DerefString(p.volumeType), p.allowSystemComponents, if p.labels.Some? then p.labels.value else map[])
  }

  function RequestedWindow(m: Maintenance): MaintenanceSpec {
    MaintenanceSpec(m.autoUpdateKubernetes, m.autoUpdateImage, m.start, m.end)
  }

  predicate Is32Bit(x: int) {
    -0x8000_0000 <= x < 0x8000_0000
  }

  /** The payload asks for what the spec says, pool by pool and field by field,
      and leaves out what the spec leaves empty. Numbers that do not fit 32 bits
      wrap around. */
  lemma PayloadAsksForTheSpec(spec: ClusterSpec, i: nat)
    requires i < |spec.pools|
    ensures var p, np := Payload(spec), spec.pools[i];
            && p.kubernetesVersion == spec.kubernetesVersion && |p.pools| == |spec.pools|
            && (Is32Bit(np.minimum) && Is32Bit(np.maximum) && Is32Bit(np.volumeSize) ==>
                  RequestedPool(p.pools[i]) == np)
            && RequestedPool(p.pools[i]) ==
                 np.(minimum := p.pools[i].minimum, maximum := p.pools[i].maximum, volumeSize := p.pools[i].volumeSize)
            && (p.pools[i].minimum - np.minimum) % 0x1_0000_0000 == 0
            && (p.pools[i].maximum - np.maximum) % 0x1_0000_0000 == 0
            && (p.pools[i].volumeSize - np.volumeSize) % 0x1_0000_0000 == 0
            && p.pools[i].volumeType != Some("") && p.pools[i].labels != Some(map[])
            && p.maintenance.Some? == spec.maintenance.Some?
            && (p.maintenance.Some? ==> RequestedWindow(p.maintenance.value) == spec.maintenance.value)
  {
    Wraps(spec.pools[i].minimum);
    Wraps(spec.pools[i].maximum);
    Wraps(spec.pools[i].volumeSize);
  }

  lemma Wraps(x: int)
    ensures (Int32(x) - x) % 0x1_0000_0000 == 0 && (Is32Bit(x) ==> Int32(x) == x)
  {
    var q := (x + 0x8000_0000) / 0x1_0000_0000;
    assert Int32(x) - x == -q * 0x1_0000_0000;
  }

  // ---- the builder, step by step as the source has it

  method BuildNodepools(specs: seq<PoolSpec>) returns (pools: seq<Pool>)
    ensures pools == BuiltPools(specs)
  {
    pools := [];
    for i := 0 to |specs|
      invariant |pools| == i
      invariant forall k | 0 <= k < i :: pools[k] == BuiltPool(specs[k])
    {
      var np := specs[i];
      var pool := Pool(np.name, np.machineType, np.imageName, np.imageVersion, np.zones,
                       Int32(np.minimum), Int32(np.maximum), Int32(np.volumeSize), None, None, None);
      if np.volumeType != "" {
        pool := pool.(volumeType := Some(np.volumeType));
      }
      if np.allowSystemComponents.Some? {
        pool := pool.(allowSystemComponents := np.allowSystemComponents);
      }
      if |np.labels| > 0 {
        pool := pool.(labels := Some(np.labels));
      }
      pools := pools + [pool];
    }
  }

  method BuildClusterPayload(spec: ClusterSpec) returns (payload: ClusterPayload)
    ensures payload == Payload(spec)
  {
    var pools := BuildNodepools(spec.pools);
    payload := ClusterPayload(spec.kubernetesVersion, pools, None);
    if spec.maintenance.Some? {
      var m := spec.maintenance.value;
      payload := payload.(maintenance := Some(Maintenance(m.autoUpdateKubernetes, m.autoUpdateImage, m.start, m.end)));
    }
  }

  /** The comparison of reconcileDrift. */
  method ChooseUpsert(spec: ClusterSpec, current: Cluster) returns (upsert: Option<ClusterPayload>)
    ensures upsert == Drift(spec, current)
  {
    var versionChanged := current.kubernetesVersion != spec.kubernetesVersion;
    var poolsEqual := NodepoolsEqual(current.pools, spec.pools);
    var maintenanceChanged := !MaintenanceEqual(current.maintenance, spec.maintenance);
    if versionChanged || !poolsEqual || maintenanceChanged {
      var payload := BuildClusterPayload(spec);
      return Some(payload);
    }
    upsert := None;
  }
}
