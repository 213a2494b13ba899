/**
 * The decision logic of the balanced offload manager (modules/sd_offload.py),
 * written as functions over values: watermark validation, the reuse test for
 * the live manager, module sizes, the size ordering of a pipeline's modules,
 * the eviction plan of the orchestrator loop, the DirectML device-map rewrite,
 * and the classification of errors raised while moving a module.
 * The stateful side (settings, modules, the manager object) is in module Offload.
 */
module OffloadPolicy {
  import opened Common

  // ---------------------------------------------------------------------------
  // Constants of sd_offload.py
  // ---------------------------------------------------------------------------

  /** Model types whose text encoders are evicted after every invocation. */
  const OffloadPostTypes: seq<string> := ["h1"]

  /** Pipeline classes that balanced offload leaves alone. */
  const BalancedOffloadExclude: seq<string> := ["CogView4Pipeline"]

  /** Bytes per GiB: get_pipe_modules divides byte and parameter counts by 1024**3. */
  const GiB: real := 1073741824.0

  // ---------------------------------------------------------------------------
  // Devices
  // ---------------------------------------------------------------------------

  /** A torch device: its type ("cuda", "cpu", "privateuseone", ...) and optional index. */
  datatype Device = Device(kind: string, index: Option<int>)

  const Cpu: Device := Device("cpu", None)

  /** The index pre_forward uses for the execution device: its own, or 0 when it has none. */
  function IndexOrZero(d: Device): int
  {
    if d.index.Some? then d.index.value else 0
  }

  /**
   * devices.same_device: modules/devices.py is not part of this model; two devices
   * are taken to be the same when their types agree and their indices agree,
   * a missing index counting as 0.
   */
  predicate SameDevice(a: Device, b: Device)
  {
    a.kind == b.kind && IndexOrZero(a) == IndexOrZero(b)
  }

  // ---------------------------------------------------------------------------
  // Watermarks
  // ---------------------------------------------------------------------------

  /** The constructor's ceiling rule for the GPU and CPU maximum: above 1 becomes 0.75. */
  function CeilingClamped(x: real): (r: real)
    ensures r <= 1.0
    ensures x <= 1.0 ==> r == x
    ensures x > 1.0 ==> r == 0.75
  {
    if x > 1.0 then 0.75 else x
  }

  /** int(memory * fraction * 1024**3): a budget in bytes from a size in GiB and a fraction of it. */
  function Budget(memory: real, fraction: real): int
  {
    Trunc(memory * fraction * GiB)
  }

  datatype Watermarks = Watermarks(low: real, high: real)

  /** A configuration validate() accepts as it is. */
  predicate ValidWatermarks(w: Watermarks)
  {
    0.0 <= w.low <= w.high && 0.1 <= w.high <= 1.0
  }

  /**
   * OffloadHook.validate on the low (min_gpu_memory) and high (max_gpu_memory)
   * watermarks: nothing outside balanced mode; otherwise low outside [0, 1]
   * becomes 0.2, high outside [0.1, 1] becomes 0.7, and then low is lowered
   * to high when it exceeds it.
   */
  function Validated(balanced: bool, w: Watermarks): (r: Watermarks)
    ensures !balanced ==> r == w
    ensures balanced ==> ValidWatermarks(r)
    ensures ValidWatermarks(w) ==> r == w
    ensures balanced && (w.high < 0.1 || w.high > 1.0) ==> r.high == 0.7
    ensures balanced && 0.1 <= w.high <= 1.0 ==> r.high == w.high
    ensures balanced ==> r.low <= w.low || w.low < 0.0
  {
    if !balanced then w
    else
      var low1 := if w.low < 0.0 || w.low > 1.0 then 0.2 else w.low;
      var high1 := if w.high < 0.1 || w.high > 1.0 then 0.7 else w.high;
      var low2 := if low1 > high1 then high1 else low1;
      Watermarks(low2, high1)
  }

  /** The part of the settings the manager's constructor reads and writes. */
  datatype Settings = Settings(balanced: bool, low: real, high: real, cpuHigh: real)

  /** The settings after OffloadHook.__init__: ceilings clamped, then validate(). */
  function SettingsAfterInit(s: Settings): (r: Settings)
  {
    var w := Validated(s.balanced, Watermarks(s.low, CeilingClamped(s.high)));
    Settings(s.balanced, w.low, w.high, CeilingClamped(s.cpuHigh))
  }

  /** What the manager remembers of the settings: the values read BEFORE validate() runs. */
  datatype Snapshot = Snapshot(checkpoint: string, low: real, high: real, cpuHigh: real)

  function SnapshotAtInit(checkpoint: string, s: Settings): (r: Snapshot)
  {
    Snapshot(checkpoint, s.low, CeilingClamped(s.high), CeilingClamped(s.cpuHigh))
  }

  /**
   * The test in apply_balanced_offload: a new manager is built when there is none,
   * or when its low watermark, high watermark or checkpoint name differs from
   * the current ones. The CPU watermark takes no part in it.
   */
  predicate NeedsRebuild(live: Option<Snapshot>, s: Settings, checkpoint: string)
  {
    live.None? || live.value.low != s.low || live.value.high != s.high || checkpoint != live.value.checkpoint
  }

  /** The reuse test ignores the CPU watermark: changing it alone never forces a rebuild. */
  lemma RebuildIgnoresCpuWatermark(snap: Snapshot, s: Settings, checkpoint: string, cpu: real)
    ensures NeedsRebuild(Some(snap), s, checkpoint)
        == NeedsRebuild(Some(snap.(cpuHigh := cpu)), s.(cpuHigh := cpu), checkpoint)
  {
  }

  /**
   * Settings that validation had to correct make the manager just built stale:
   * it remembers the uncorrected values, so the next call rebuilds it. That
   * second build sees corrected settings, leaves them alone, remembers them,
   * and the call after it reuses the manager.
   */
  lemma {:induction false} CorrectedSettingsRebuildOnce(s: Settings, checkpoint: string)
    requires s.balanced
    requires s.low != SettingsAfterInit(s).low || CeilingClamped(s.high) != SettingsAfterInit(s).high
    ensures NeedsRebuild(Some(SnapshotAtInit(checkpoint, s)), SettingsAfterInit(s), checkpoint)
    ensures SettingsAfterInit(SettingsAfterInit(s)) == SettingsAfterInit(s)
    ensures !NeedsRebuild(Some(SnapshotAtInit(checkpoint, SettingsAfterInit(s))),
                          SettingsAfterInit(SettingsAfterInit(s)), checkpoint)
  {
    var s1 := SettingsAfterInit(s);
    assert ValidWatermarks(Watermarks(s1.low, s1.high));
    assert CeilingClamped(s1.high) == s1.high;
    assert Validated(true, Watermarks(s1.low, s1.high)) == Watermarks(s1.low, s1.high);
  }

  /** Settings that need no correction keep the manager built from them. */
  lemma {:induction false} ValidSettingsReuse(s: Settings, checkpoint: string)
    requires ValidWatermarks(Watermarks(s.low, s.high))
    ensures SettingsAfterInit(s).low == s.low && SettingsAfterInit(s).high == s.high
    ensures !NeedsRebuild(Some(SnapshotAtInit(checkpoint, s)), SettingsAfterInit(s), checkpoint)
  {
    assert CeilingClamped(s.high) == s.high;
  }

  // ---------------------------------------------------------------------------
  // Byte widths
  // ---------------------------------------------------------------------------

  /** Tensor element types, with the four float8 variants named. */
  datatype Dtype =
    | Float8E4M3Fn | Float8E4M3Fnuz | Float8E5M2 | Float8E5M2Fnuz
    | CustomFp8                    // accelerate.utils.modeling.CustomDtype.FP8
    | OtherDtype(name: string)

  predicate IsFloat8(d: Dtype)
  {
    d.Float8E4M3Fn? || d.Float8E4M3Fnuz? || d.Float8E5M2? || d.Float8E5M2Fnuz?
  }

  /**
   * dtype_byte_size: the four float8 variants are looked up as accelerate's FP8
   * custom type; every other type goes to accelerate's own table unchanged.
   * accelerate's table is a parameter of the model.
   */
  function DtypeByteSize(d: Dtype, accelerateByteSize: Dtype -> real): (r: real)
    ensures IsFloat8(d) ==> r == accelerateByteSize(CustomFp8)
    ensures !IsFloat8(d) ==> r == accelerateByteSize(d)
  {
    accelerateByteSize(if IsFloat8(d) then CustomFp8 else d)
  }

  /** All float8 variants get one and the same width. */
  lemma Float8WidthsAgree(d1: Dtype, d2: Dtype, accelerateByteSize: Dtype -> real)
    requires IsFloat8(d1) && IsFloat8(d2)
    ensures DtypeByteSize(d1, accelerateByteSize) == DtypeByteSize(d2, accelerateByteSize)
  {
  }

  // ---------------------------------------------------------------------------
  // Module sizes
  // ---------------------------------------------------------------------------

  /** A parameter tensor: element count and element width; None when element_size() raises. */
  datatype Param = Param(numel: nat, elementSize: Option<nat>)

  /** sum(p.numel() * p.element_size()): None when some element_size() raises. */
  function ByteCount(ps: seq<Param>): (r: Option<nat>)
    ensures r.None? <==> exists i :: 0 <= i < |ps| && ps[i].elementSize.None?
  {
    if ps == [] then Some(0)
    else
      var rest := ByteCount(ps[1..]);
      if ps[0].elementSize.None? || rest.None? then
        assert ps[0].elementSize.None? ==> 0 <= 0 < |ps|;
        assert rest.None? ==> (exists i :: 0 <= i < |ps| - 1 && ps[1..][i].elementSize.None?);
        None
      else
        assert forall i :: 1 <= i < |ps| ==> ps[i] == ps[1..][i - 1];
        Some(ps[0].numel * ps[0].elementSize.value + rest.value)
  }

  /** sum(p.numel()). */
  function NumelCount(ps: seq<Param>): nat
  {
    if ps == [] then 0 else ps[0].numel + NumelCount(ps[1..])
  }

  /** A module's size in GiB, as the size cache computes it; None when the computation raises. */
  function ModuleSize(ps: seq<Param>): (r: Option<real>)
    ensures r.Some? ==> r.value >= 0.0
    ensures r.None? <==> exists i :: 0 <= i < |ps| && ps[i].elementSize.None?
  {
    var b := ByteCount(ps);
    if b.None? then None else Some(b.value as real / GiB)
  }

  /** A module's parameter count in units of 1024**3. */
  function ParamCount(ps: seq<Param>): (r: real)
    ensures r >= 0.0
  {
    NumelCount(ps) as real / GiB
  }

  /** A module's byte count is at least its parameter count when no element is narrower than a byte. */
  lemma {:induction false} SizeAtLeastParams(ps: seq<Param>)
    requires forall i :: 0 <= i < |ps| ==> ps[i].elementSize.Some? && ps[i].elementSize.value >= 1
    ensures ModuleSize(ps).Some? && ModuleSize(ps).value >= ParamCount(ps)
  {
    BytesAtLeastNumel(ps);
  }

  lemma {:induction false} BytesAtLeastNumel(ps: seq<Param>)
    requires forall i :: 0 <= i < |ps| ==> ps[i].elementSize.Some? && ps[i].elementSize.value >= 1
    ensures ByteCount(ps).Some? && ByteCount(ps).value >= NumelCount(ps)
  {
    if ps != [] {
      BytesAtLeastNumel(ps[1..]);
      assert ps[0].numel * ps[0].elementSize.value >= ps[0].numel;
    }
  }

  /** model_size(): the sum of the cached sizes, taken in the cache's insertion order. */
  function SumSizes(keys: seq<string>, sizes: map<string, real>): real
    requires forall i :: 0 <= i < |keys| ==> keys[i] in sizes
  {
    if keys == [] then 0.0 else SumSizes(keys[..|keys| - 1], sizes) + sizes[keys[|keys| - 1]]
  }

  predicate NonNegative(sizes: map<string, real>)
  {
    forall k :: k in sizes ==> sizes[k] >= 0.0
  }

  /** With no negative entry, model_size() is never negative. */
  lemma {:induction false} SumSizesNonNegative(keys: seq<string>, sizes: map<string, real>)
    requires forall i :: 0 <= i < |keys| ==> keys[i] in sizes
    requires NonNegative(sizes)
    ensures SumSizes(keys, sizes) >= 0.0
  {
    if keys != [] {
      SumSizesNonNegative(keys[..|keys| - 1], sizes);
    }
  }

  /** Adding an entry for a new name to the cache adds exactly its size to model_size(). */
  lemma {:induction false} SumSizesExtend(keys: seq<string>, sizes: map<string, real>, k: string, v: real)
    requires forall i :: 0 <= i < |keys| ==> keys[i] in sizes
    requires k !in keys
    ensures SumSizes(keys + [k], sizes[k := v]) == SumSizes(keys, sizes) + v
  {
    assert (keys + [k])[..|keys|] == keys;
    SumSizesFrame(keys, sizes, sizes[k := v]);
  }

  lemma {:induction false} SumSizesFrame(keys: seq<string>, a: map<string, real>, b: map<string, real>)
    requires forall i :: 0 <= i < |keys| ==> keys[i] in a && keys[i] in b && a[keys[i]] == b[keys[i]]
    ensures SumSizes(keys, a) == SumSizes(keys, b)
  {
    if keys != [] {
      SumSizesFrame(keys[..|keys| - 1], a, b);
    }
  }

  /**
   * model_size() is at least any one cached size: post_forward, which subtracts
   * model_size() for the one module it moved, never subtracts less than that
   * module's own cached size.
   */
  lemma {:induction false} SumSizesAtLeastEntry(keys: seq<string>, sizes: map<string, real>, k: string)
    requires forall i :: 0 <= i < |keys| ==> keys[i] in sizes
    requires NonNegative(sizes) && k in keys
    ensures SumSizes(keys, sizes) >= sizes[k]
  {
    var init := keys[..|keys| - 1];
    if keys[|keys| - 1] == k {
      SumSizesNonNegative(init, sizes);
    } else {
      assert keys == init + [keys[|keys| - 1]];
      assert k in init;
      SumSizesAtLeastEntry(init, sizes, k);
    }
  }

  // ---------------------------------------------------------------------------
  // Ordering the module listing by size
  // ---------------------------------------------------------------------------

  datatype Entry = Entry(name: string, size: real)

  predicate Distinct(s: seq<string>)
  {
    forall i, j :: 0 <= i < j < |s| ==> s[i] != s[j]
  }

  predicate DistinctNames(s: seq<Entry>)
  {
    forall i, j :: 0 <= i < j < |s| ==> s[i].name != s[j].name
  }

  /**
   * The candidate names of a pipeline: its component keys in order, less the
   * excluded ones and those starting with "_".
   */
  function FilterNames(keys: seq<string>, exclude: seq<string>): (r: seq<string>)
    ensures forall n :: n in r <==> n in keys && n !in exclude && !StartsWith(n, "_")
    ensures Distinct(keys) ==> Distinct(r)
  {
    if keys == [] then []
    else
      var init := keys[..|keys| - 1];
      var last := keys[|keys| - 1];
      assert keys == init + [last];
      assert forall n :: n in keys <==> n in init || n == last;
      assert Distinct(keys) ==> Distinct(init) && last !in init;
      FilterNames(init, exclude) + (if last !in exclude && !StartsWith(last, "_") then [last] else [])
  }

  predicate NonIncreasing(s: seq<Entry>)
  {
    forall i, j :: 0 <= i < j < |s| ==> s[i].size >= s[j].size
  }

  /** Puts e in front of the first entry that is not larger than it. */
  function InsertBySize(e: Entry, s: seq<Entry>): (r: seq<Entry>)
    requires NonIncreasing(s)
    ensures |r| == |s| + 1
    ensures r[0] == e || (s != [] && r[0] == s[0])
    ensures NonIncreasing(r)
    ensures multiset(r) == multiset(s) + multiset{e}
    ensures forall x :: x in r <==> x in s || x == e
    ensures DistinctNames(s) && (forall x :: x in s ==> x.name != e.name) ==> DistinctNames(r)
  {
    if s == [] || s[0].size <= e.size then
      ConsNonIncreasing(e, s);
      ConsDistinct(e, s);
      [e] + s
    else
      var rest := InsertBySize(e, s[1..]);
      InsertStep(e, s, rest);
      [s[0]] + rest
  }

  lemma InsertStep(e: Entry, s: seq<Entry>, rest: seq<Entry>)
    requires NonIncreasing(s) && s != [] && s[0].size > e.size
    requires NonIncreasing(rest) && rest != [] && (rest[0] == e || (|s| > 1 && rest[0] == s[1]))
    requires multiset(rest) == multiset(s[1..]) + multiset{e}
    requires forall x :: x in rest <==> x in s[1..] || x == e
    requires DistinctNames(s[1..]) && (forall x :: x in s[1..] ==> x.name != e.name) ==> DistinctNames(rest)
    ensures NonIncreasing([s[0]] + rest)
    ensures multiset([s[0]] + rest) == multiset(s) + multiset{e}
    ensures forall x :: x in [s[0]] + rest <==> x in s || x == e
    ensures DistinctNames(s) && (forall x :: x in s ==> x.name != e.name) ==> DistinctNames([s[0]] + rest)
  {
    assert s == [s[0]] + s[1..];
    ConsNonIncreasing(s[0], rest);
    if DistinctNames(s) && (forall x :: x in s ==> x.name != e.name) {
      InsertStepDistinct(e, s, rest);
    }
  }

  lemma InsertStepDistinct(e: Entry, s: seq<Entry>, rest: seq<Entry>)
    requires s != []
    requires forall x :: x in rest <==> x in s[1..] || x == e
    requires DistinctNames(s[1..]) && (forall x :: x in s[1..] ==> x.name != e.name) ==> DistinctNames(rest)
    requires DistinctNames(s) && (forall x :: x in s ==> x.name != e.name)
    ensures DistinctNames([s[0]] + rest)
  {
    assert DistinctNames(s[1..]) by {
      forall i, j | 0 <= i < j < |s[1..]| ensures s[1..][i].name != s[1..][j].name {
        assert s[1..][i] == s[i + 1] && s[1..][j] == s[j + 1];
      }
    }
    forall x | x in rest ensures x.name != s[0].name {
      if x != e {
        var k :| 0 <= k < |s[1..]| && s[1..][k] == x;
        assert s[k + 1] == x;
      }
    }
    ConsDistinct(s[0], rest);
  }

  lemma ConsDistinct(x: Entry, t: seq<Entry>)
    ensures DistinctNames(t) && (forall y :: y in t ==> y.name != x.name) ==> DistinctNames([x] + t)
  {
    if DistinctNames(t) && (forall y :: y in t ==> y.name != x.name) {
      ConsDistinctNames(x, t);
    }
  }

  lemma ConsDistinctNames(x: Entry, t: seq<Entry>)
    requires DistinctNames(t)
    requires forall y :: y in t ==> y.name != x.name
    ensures DistinctNames([x] + t)
  {
    forall i, j | 0 <= i < j < |[x] + t| ensures ([x] + t)[i].name != ([x] + t)[j].name {
      if i == 0 {
        assert ([x] + t)[j] == t[j - 1];
        assert t[j - 1] in t;
      }
    }
  }

  lemma ConsNonIncreasing(x: Entry, t: seq<Entry>)
    requires NonIncreasing(t)
    requires t != [] ==> t[0].size <= x.size
    ensures NonIncreasing([x] + t)
  {
    forall i, j | 0 <= i < j < |[x] + t| ensures ([x] + t)[i].size >= ([x] + t)[j].size {
      if i == 0 && j > 1 {
        assert t[0].size >= t[j - 1].size;
      }
    }
  }

  /**
   * sorted(modules.items(), key=size, reverse=True): the listing in non-increasing
   * size order, a permutation of the entries it was given (ties keep their order).
   */
  function SortBySize(s: seq<Entry>): (r: seq<Entry>)
    ensures NonIncreasing(r)
    ensures multiset(r) == multiset(s)
    ensures |r| == |s|
    ensures forall x :: x in r <==> x in s
    ensures DistinctNames(s) ==> DistinctNames(r)
  {
    if s == [] then []
    else
      assert s == [s[0]] + s[1..];
      InsertBySize(s[0], SortBySize(s[1..]))
  }

  // ---------------------------------------------------------------------------
  // Errors raised while moving a module
  // ---------------------------------------------------------------------------

  datatype ErrorKind = OutOfMemory | Ignored | Logged

  /**
   * The except clauses around a move: a message containing "out of memory" forces a
   * garbage collection, one containing "bitsandbytes" is ignored, anything else is logged.
   */
  function Classify(message: string): (k: ErrorKind)
    ensures k == OutOfMemory <==> Contains(message, "out of memory")
    ensures k == Ignored <==> !Contains(message, "out of memory") && Contains(message, "bitsandbytes")
    ensures k == Logged <==> !Contains(message, "out of memory") && !Contains(message, "bitsandbytes")
  {
    if Contains(message, "out of memory") then OutOfMemory
    else if Contains(message, "bitsandbytes") then Ignored
    else Logged
  }

  // ---------------------------------------------------------------------------
  // The orchestrator's eviction plan
  // ---------------------------------------------------------------------------

  /**
   * What the orchestrator finds for one entry of the listing: no module under that
   * name, or a module with its cached size, whether it already sits on the CPU,
   * and the message module.to(cpu) raises, if it raises.
   */
  datatype Slot = Missing | Present(size: real, onCpu: bool, failure: Option<string>)

  datatype Action = Absent | Kept | Evicted | Failed(kind: ErrorKind)

  /** One loop iteration: the running GPU estimate it saw, and what it did. */
  datatype Step = Step(usedBefore: real, action: Action)

  predicate Moves(a: Action)
  {
    a.Evicted? || a.Failed?
  }

  /** The fraction of GPU memory in use: used / gpu_memory. */
  function Share(used: real, gpuMemory: real): real
    requires gpuMemory > 0.0
  {
    used / gpuMemory
  }

  /** Eviction is attempted exactly when used/gpu_memory exceeds the low watermark and the module is not on the CPU. */
  function Decide(slot: Slot, used: real, gpuMemory: real, low: real): (a: Action)
    requires gpuMemory > 0.0
    ensures Moves(a) <==> slot.Present? && Share(used, gpuMemory) > low && !slot.onCpu
    ensures a.Evicted? <==> Moves(a) && slot.failure.None?
    ensures a == Absent <==> slot.Missing?
  {
    match slot
    case Missing => Absent
    case Present(_, onCpu, failure) =>
      if Share(used, gpuMemory) > low && !onCpu then
        (if failure.Some? then Failed(Classify(failure.value)) else Evicted)
      else Kept
  }

  /** The estimate after an iteration: only a completed move subtracts the module's size. */
  function UsedAfter(slot: Slot, a: Action, used: real): real
  {
    if a.Evicted? && slot.Present? then used - slot.size else used
  }

  function Plan(slots: seq<Slot>, used: real, gpuMemory: real, low: real): (steps: seq<Step>)
    requires gpuMemory > 0.0
    ensures |steps| == |slots|
  {
    if slots == [] then []
    else
      var a := Decide(slots[0], used, gpuMemory, low);
      [Step(used, a)] + Plan(slots[1..], UsedAfter(slots[0], a, used), gpuMemory, low)
  }

  /** The estimate after the whole loop. */
  function FinalUsed(slots: seq<Slot>, used: real, gpuMemory: real, low: real): real
    requires gpuMemory > 0.0
  {
    if slots == [] then used
    else
      var a := Decide(slots[0], used, gpuMemory, low);
      FinalUsed(slots[1..], UsedAfter(slots[0], a, used), gpuMemory, low)
  }

  predicate SizesNonNegative(slots: seq<Slot>)
  {
    forall i :: 0 <= i < |slots| ==> slots[i].Present? ==> slots[i].size >= 0.0
  }

  /** Sum of the sizes of the modules the plan actually moved. */
  function EvictedTotal(slots: seq<Slot>, steps: seq<Step>): real
    requires |slots| == |steps|
  {
    if slots == [] then 0.0
    else (if steps[0].action.Evicted? && slots[0].Present? then slots[0].size else 0.0)
         + EvictedTotal(slots[1..], steps[1..])
  }

  /** Each step of the plan decides from the estimate the previous step left behind. */
  lemma {:induction false} PlanAt(slots: seq<Slot>, used: real, gpuMemory: real, low: real, i: nat)
    requires gpuMemory > 0.0
    requires i < |slots|
    ensures Plan(slots, used, gpuMemory, low)[i].action
         == Decide(slots[i], Plan(slots, used, gpuMemory, low)[i].usedBefore, gpuMemory, low)
    ensures i + 1 < |slots| ==>
      (Plan(slots, used, gpuMemory, low)[i + 1].usedBefore
       == UsedAfter(slots[i], Plan(slots, used, gpuMemory, low)[i].action,
                    Plan(slots, used, gpuMemory, low)[i].usedBefore))
    ensures i + 1 == |slots| ==>
      (FinalUsed(slots, used, gpuMemory, low)
       == UsedAfter(slots[i], Plan(slots, used, gpuMemory, low)[i].action,
                    Plan(slots, used, gpuMemory, low)[i].usedBefore))
    decreases i
  {
    if i > 0 {
      var a := Decide(slots[0], used, gpuMemory, low);
      PlanAt(slots[1..], UsedAfter(slots[0], a, used), gpuMemory, low, i - 1);
    }
  }

  /** The running estimate never increases from one module to the next. */
  lemma {:induction false} PlanNonIncreasing(slots: seq<Slot>, used: real, gpuMemory: real, low: real, i: nat, j: nat)
    requires gpuMemory > 0.0
    requires SizesNonNegative(slots)
    requires i <= j < |slots|
    ensures Plan(slots, used, gpuMemory, low)[j].usedBefore <= Plan(slots, used, gpuMemory, low)[i].usedBefore
    ensures Plan(slots, used, gpuMemory, low)[i].usedBefore <= used
    ensures FinalUsed(slots, used, gpuMemory, low) <= Plan(slots, used, gpuMemory, low)[j].usedBefore
    decreases |slots|
  {
    var a := Decide(slots[0], used, gpuMemory, low);
    var rest := slots[1..];
    var u := UsedAfter(slots[0], a, used);
    assert SizesNonNegative(rest) by {
      forall k | 0 <= k < |rest| ensures rest[k].Present? ==> rest[k].size >= 0.0 {
        assert rest[k] == slots[k + 1];
      }
    }
    assert u <= used;
    if j == 0 {
      if rest != [] {
        PlanNonIncreasing(rest, u, gpuMemory, low, 0, 0);
      }
    } else if i == 0 {
      PlanNonIncreasing(rest, u, gpuMemory, low, 0, j - 1);
    } else {
      PlanNonIncreasing(rest, u, gpuMemory, low, i - 1, j - 1);
    }
  }

  /**
   * Once the estimate is at or below the low watermark, no later module is moved:
   * every later step keeps or skips its module.
   */
  lemma {:induction false} PlanStopsBelowWatermark(slots: seq<Slot>, used: real, gpuMemory: real, low: real, i: nat, j: nat)
    requires gpuMemory > 0.0
    requires SizesNonNegative(slots)
    requires i <= j < |slots|
    requires Share(Plan(slots, used, gpuMemory, low)[i].usedBefore, gpuMemory) <= low
    ensures !Moves(Plan(slots, used, gpuMemory, low)[j].action)
  {
    var steps := Plan(slots, used, gpuMemory, low);
    PlanNonIncreasing(slots, used, gpuMemory, low, i, j);
    PlanAt(slots, used, gpuMemory, low, j);
    DivMonotone(steps[j].usedBefore, steps[i].usedBefore, gpuMemory);
  }

  lemma DivMonotone(x: real, y: real, d: real)
    requires d > 0.0 && x <= y
    ensures x / d <= y / d
  {
  }

  /** The estimate after the loop is the starting estimate less the sizes of the modules moved. */
  lemma {:induction false} FinalUsedIsEvictedTotal(slots: seq<Slot>, used: real, gpuMemory: real, low: real)
    requires gpuMemory > 0.0
    ensures FinalUsed(slots, used, gpuMemory, low)
         == used - EvictedTotal(slots, Plan(slots, used, gpuMemory, low))
  {
    if slots != [] {
      var a := Decide(slots[0], used, gpuMemory, low);
      var steps := Plan(slots, used, gpuMemory, low);
      FinalUsedIsEvictedTotal(slots[1..], UsedAfter(slots[0], a, used), gpuMemory, low);
      assert steps[1..] == Plan(slots[1..], UsedAfter(slots[0], a, used), gpuMemory, low);
    }
  }

  // ---------------------------------------------------------------------------
  // pre_forward's device map
  // ---------------------------------------------------------------------------

  /** A device-map value: a device index (an int in Python) or a device name ("cpu", "disk", "cuda:0"). */
  datatype Placement = Index(i: int) | Named(name: string)

  type DeviceMap = map<string, Placement>

  /** max_memory = {device_index: gpu, "cpu": cpu}: a dictionary with exactly these two entries. */
  datatype MaxMemory = MaxMemory(deviceIndex: int, gpu: int, cpu: int)

  function MaxMemoryFor(execution: Device, gpu: int, cpu: int): (r: MaxMemory)
    ensures r.deviceIndex == (if execution.index.None? then 0 else execution.index.value)
    ensures r.gpu == gpu && r.cpu == cpu
  {
    MaxMemory(IndexOrZero(execution), gpu, cpu)
  }

  /** The stored map is reused only when there is one and it was built for this very max_memory. */
  predicate ReusesStoredMap(stored: Option<DeviceMap>, storedMax: Option<MaxMemory>, wanted: MaxMemory)
  {
    stored.Some? && storedMax == Some(wanted)
  }

  /** One entry of the DirectML rewrite: an integer index becomes "<type>:<index>". */
  function RewriteEntry(p: Placement, kind: string): (r: Placement)
  {
    match p
    case Index(i) => Named(kind + ":" + IntToString(i))
    case Named(_) => p
  }

  /** The DirectML rewrite of a whole map: integer values become qualified names, nothing else changes. */
  function DirectMlRewrite(m: DeviceMap, kind: string): (r: DeviceMap)
    ensures r.Keys == m.Keys
    ensures forall k :: k in m && m[k].Named? ==> r[k] == m[k]
    ensures forall k :: k in m && m[k].Index? ==> r[k] == Named(kind + ":" + IntToString(m[k].i))
    ensures forall k :: k in r ==> r[k].Named?
  {
    map k | k in m :: RewriteEntry(m[k], kind)
  }

  /** Rewriting twice is the same as rewriting once. */
  lemma DirectMlRewriteIdempotent(m: DeviceMap, kind: string)
    ensures DirectMlRewrite(DirectMlRewrite(m, kind), kind) == DirectMlRewrite(m, kind)
  {
  }

  // ---------------------------------------------------------------------------
  // Attribute restoration after reattaching the hook
  // ---------------------------------------------------------------------------

  /** Python truthiness of network_layer_name: set and non-empty. */
  predicate NameIsSet(name: Option<string>)
  {
    name.Some? && name.value != ""
  }

  /** Python truthiness of a stored device map: set and non-empty. */
  predicate MapIsSet(m: Option<DeviceMap>)
  {
    m.Some? && |m.value| > 0
  }

  /** offload_post: a text encoder of a model type listed in offload_post, with te_hijack on. */
  predicate OffloadPostFlag(modelType: string, teHijack: bool, name: string)
  {
    modelType in OffloadPostTypes && teHijack && StartsWith(name, "text_encoder")
  }
}
