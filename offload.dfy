/**
 * The balanced offload manager of modules/sd_offload.py as objects whose
 * fields change in place: the settings it reads and corrects (Opts), the
 * pipeline components it hooks (Module), the pipelines that hold them (Pipe),
 * the manager with its size cache (OffloadHook), and the module-level slot
 * that holds the one live manager (Session).
 *
 * Calls into torch and accelerate are opaque: memory readings, the device map
 * accelerate would infer, the device a module reports after dispatch and the
 * error a move raises are parameters; hook attachment, dispatch and moves are
 * field updates.
 */
module Offload {
  import opened Common
  import opened OffloadPolicy

  /** The settings (shared.opts) the manager reads and corrects. */
  class Opts {
    var offloadMode: string     // diffusers_offload_mode
    var minGpuMemory: real      // diffusers_offload_min_gpu_memory: the low watermark
    var maxGpuMemory: real      // diffusers_offload_max_gpu_memory: the high watermark
    var maxCpuMemory: real      // diffusers_offload_max_cpu_memory
    var teHijack: bool          // te_hijack

    constructor(offloadMode: string, low: real, high: real, cpuHigh: real, teHijack: bool)
      ensures this.offloadMode == offloadMode && this.teHijack == teHijack
      ensures minGpuMemory == low && maxGpuMemory == high && maxCpuMemory == cpuHigh
    {
      this.offloadMode := offloadMode;
      minGpuMemory, maxGpuMemory, maxCpuMemory := low, high, cpuHigh;
      this.teHijack := teHijack;
    }

    function AsSettings(): Settings
      reads this
    {
      Settings(offloadMode == "balanced", minGpuMemory, maxGpuMemory, maxCpuMemory)
    }
  }

  /** Everything about a module that offloading may change, as one value. */
  datatype ModuleView = ModuleView(
    device: Device,
    hooks: nat,
    hookOwner: OffloadHook?,
    executionDevice: Option<Device>,
    networkLayerName: Option<string>,
    deviceMap: Option<DeviceMap>,
    maxMemory: Option<MaxMemory>,
    offloadPost: bool,
    hasAccelerate: bool)

  /** A pipeline component that is a torch.nn.Module. */
  class Module {
    const parameters: seq<Param>
    var device: Device
    var hooks: nat                          // hooks accelerate has attached (appending chains them)
    var hookOwner: OffloadHook?             // the manager behind the last attached hook
    var executionDevice: Option<Device>     // _hf_hook.execution_device
    var networkLayerName: Option<string>    // network_layer_name
    var deviceMap: Option<DeviceMap>        // balanced_offload_device_map
    var maxMemory: Option<MaxMemory>        // balanced_offload_max_memory
    var offloadPost: bool                   // offload_post
    var hasAccelerate: bool                 // has_accelerate

    constructor(parameters: seq<Param>, device: Device, networkLayerName: Option<string>)
      ensures this.parameters == parameters
      ensures View() == ModuleView(device, 0, null, None, networkLayerName, None, None, false, false)
    {
      this.parameters := parameters;
      this.device := device;
      hooks, hookOwner, executionDevice := 0, null, None;
      this.networkLayerName := networkLayerName;
      deviceMap, maxMemory := None, None;
      offloadPost, hasAccelerate := false, false;
    }

    function View(): ModuleView
      reads this
    {
      ModuleView(device, hooks, hookOwner, executionDevice, networkLayerName, deviceMap, maxMemory, offloadPost, hasAccelerate)
    }

    /**
     * accelerate.hooks.remove_hook_from_module(module, recurse=True): every hook goes,
     * and with it the attributes the caller saves beforehand and puts back afterwards.
     */
    method RemoveHooks()
      modifies this
      ensures View() == old(View()).(hooks := 0, hookOwner := null, executionDevice := None,
                                     networkLayerName := None, deviceMap := None, maxMemory := None)
    {
      hooks, hookOwner, executionDevice := 0, null, None;
      networkLayerName, deviceMap, maxMemory := None, None, None;
    }

    /**
     * accelerate.hooks.add_hook_to_module(module, hook, append=True) followed by setting
     * the hook's execution device: appending chains onto whatever hooks are present.
     */
    method AddHook(owner: OffloadHook, execution: Device)
      modifies this
      ensures View() == old(View()).(hooks := old(hooks) + 1, hookOwner := owner, executionDevice := Some(execution))
    {
      hooks := hooks + 1;
      hookOwner := owner;
      executionDevice := Some(execution);
    }
  }

  predicate Injective(components: map<string, Module>)
  {
    forall a, b :: a in components && b in components && a != b ==> components[a] != components[b]
  }

  /** A diffusers pipeline: its component names and, among them, its nn.Module components. */
  class Pipe {
    const className: string
    const checkpointName: Option<string>     // sd_checkpoint_info.name, when present and set
    const hasInternalDict: bool              // components come from _internal_dict, not __init__'s signature
    const keys: seq<string>
    const components: map<string, Module>    // the attributes that are torch.nn.Module instances
    const pipe: Pipe?
    const priorPipe: Pipe?
    const decoderPipe: Pipe?
    ghost const depth: nat
    var hasAccelerate: bool

    /** Keys are dictionary keys; no module sits under two names; nested pipelines form no cycle. */
    ghost predicate Valid()
      decreases depth
    {
      && Distinct(keys)
      && Injective(components)
      && (forall n :: n in components ==> n in keys)
      && (pipe != null ==> pipe.depth < depth && pipe.Valid())
      && (priorPipe != null ==> priorPipe.depth < depth && priorPipe.Valid())
      && (decoderPipe != null ==> decoderPipe.depth < depth && decoderPipe.Valid())
    }

    constructor(className: string, checkpointName: Option<string>, hasInternalDict: bool,
                keys: seq<string>, components: map<string, Module>,
                pipe: Pipe?, priorPipe: Pipe?, decoderPipe: Pipe?)
      requires Distinct(keys) && Injective(components)
      requires forall n :: n in components ==> n in keys
      requires pipe != null ==> pipe.Valid()
      requires priorPipe != null ==> priorPipe.Valid()
      requires decoderPipe != null ==> decoderPipe.Valid()
      ensures Valid() && !hasAccelerate
      ensures this.className == className && this.checkpointName == checkpointName
      ensures this.keys == keys && this.components == components
      ensures this.pipe == pipe && this.priorPipe == priorPipe && this.decoderPipe == decoderPipe
    {
      this.className, this.checkpointName, this.hasInternalDict := className, checkpointName, hasInternalDict;
      this.keys, this.components := keys, components;
      this.pipe, this.priorPipe, this.decoderPipe := pipe, priorPipe, decoderPipe;
      var d1 := if pipe != null then pipe.depth else 0;
      var d2 := if priorPipe != null then priorPipe.depth else 0;
      var d3 := if decoderPipe != null then decoderPipe.depth else 0;
      depth := 1 + d1 + d2 + d3;
      hasAccelerate := false;
    }

    /** This pipeline and every pipeline nested in it. */
    ghost function AllPipes(): set<Pipe>
      requires Valid()
      decreases depth
    {
      {this}
      + (if pipe != null then pipe.AllPipes() else {})
      + (if priorPipe != null then priorPipe.AllPipes() else {})
      + (if decoderPipe != null then decoderPipe.AllPipes() else {})
    }

    /** The modules of this pipeline and of every pipeline nested in it. */
    ghost function AllModules(): set<Module>
      requires Valid()
      decreases depth
    {
      components.Values
      + (if pipe != null then pipe.AllModules() else {})
      + (if priorPipe != null then priorPipe.AllModules() else {})
      + (if decoderPipe != null then decoderPipe.AllModules() else {})
    }

    /**
     * The modules set_accelerate marks: along the chain of `pipe` attributes, every
     * module named in a pipeline's _internal_dict.
     */
    ghost function AccelerateTargets(): set<Module>
      requires Valid()
      decreases depth
    {
      (if hasInternalDict then components.Values else {})
      + (if pipe != null then pipe.AccelerateTargets() else {})
    }

    /** Every module set_accelerate marks: from this pipeline and from its prior and decoder pipelines. */
    ghost function AcceleratedBy(): set<Module>
      requires Valid()
    {
      AccelerateTargets()
      + (if priorPipe != null then priorPipe.AccelerateTargets() else {})
      + (if decoderPipe != null then decoderPipe.AccelerateTargets() else {})
    }

    /** The pipelines apply_balanced_offload walks: this one, then pipe, prior_pipe and decoder_pipe. */
    function Stages(): (r: seq<Pipe>)
      ensures |r| >= 1 && r[0] == this
      ensures forall q :: q in r ==> q == this || q == pipe || q == priorPipe || q == decoderPipe
    {
      [this]
      + (if pipe != null then [pipe] else [])
      + (if priorPipe != null then [priorPipe] else [])
      + (if decoderPipe != null then [decoderPipe] else [])
    }
  }

  lemma {:induction false} AccelerateTargetsInModules(p: Pipe)
    requires p.Valid()
    ensures p.AccelerateTargets() <= p.AllModules()
    ensures p.pipe != null ==> p.pipe.AllModules() <= p.AllModules() && p.pipe.AllPipes() <= p.AllPipes()
    decreases p.depth
  {
    if p.pipe != null {
      AccelerateTargetsInModules(p.pipe);
    }
  }

  /** Every stage is a valid pipeline whose modules belong to the whole model. */
  lemma StagesInModel(p: Pipe)
    requires p.Valid()
    ensures forall q :: q in p.Stages() ==> q.Valid() && q.components.Values <= p.AllModules()
    ensures p.AcceleratedBy() <= p.AllModules()
  {
    forall q | q in p.Stages()
      ensures q.Valid() && q.components.Values <= p.AllModules()
    {
      assert q == p || q == p.pipe || q == p.priorPipe || q == p.decoderPipe;
      assert q.components.Values <= q.AllModules();
    }
    AcceleratedByInModel(p);
  }

  lemma AcceleratedByInModel(p: Pipe)
    requires p.Valid()
    ensures p.AcceleratedBy() <= p.AllModules()
  {
    AccelerateTargetsInModules(p);
    if p.priorPipe != null {
      AccelerateTargetsInModules(p.priorPipe);
    }
    if p.decoderPipe != null {
      AccelerateTargetsInModules(p.decoderPipe);
    }
  }

  /** The modules among the first i keys. */
  ghost function MarkedUpTo(keys: seq<string>, i: nat, components: map<string, Module>): set<Module>
    requires i <= |keys|
  {
    set j | 0 <= j < i && keys[j] in components :: components[keys[j]]
  }

  /** A module after disable_offload: every hook removed, a non-empty network_layer_name put back. */
  function Detached(v: ModuleView): (r: ModuleView)
    ensures r.hooks == 0 && r.hookOwner == null && r.executionDevice.None?
    ensures r.deviceMap.None? && r.maxMemory.None?
    ensures NameIsSet(v.networkLayerName) ==> r.networkLayerName == v.networkLayerName
    ensures !NameIsSet(v.networkLayerName) ==> r.networkLayerName.None?
    ensures r.device == v.device && r.offloadPost == v.offloadPost && r.hasAccelerate == v.hasAccelerate
  {
    v.(hooks := 0, hookOwner := null, executionDevice := None,
       networkLayerName := if NameIsSet(v.networkLayerName) then v.networkLayerName else None,
       deviceMap := None, maxMemory := None)
  }

  /**
   * set_accelerate_to_module: first along the `pipe` attribute, then every module
   * named in this pipeline's _internal_dict gets has_accelerate.
   */
  method SetAccelerateTo(q: Pipe)
    requires q.Valid()
    modifies q.AllModules()
    decreases q.depth
    ensures forall m :: m in q.AllModules() && old(allocated(m)) ==>
              m.View() == old(m.View()).(hasAccelerate := old(m.hasAccelerate) || m in q.AccelerateTargets())
  {
    AccelerateTargetsInModules(q);
    ghost var fromPipe := if q.pipe != null then q.pipe.AccelerateTargets() else {};
    if q.pipe != null {
      AccelerateTargetsInModules(q.pipe);
      SetAccelerateTo(q.pipe);
    }
    label marked:
    if q.hasInternalDict {
      MarkComponents(q);
    }
    forall m | m in q.AllModules() && old(allocated(m))
      ensures m.View() == old(m.View()).(hasAccelerate := old(m.hasAccelerate) || m in q.AccelerateTargets())
    {
      if q.pipe != null && m in q.pipe.AllModules() {
        assert old@marked(m.View()) == old(m.View()).(hasAccelerate := old(m.hasAccelerate) || m in fromPipe);
      } else {
        assert m !in fromPipe;
        assert old@marked(m.View()) == old(m.View());
      }
      if q.hasInternalDict && m in q.components.Values {
        var n :| n in q.components && q.components[n] == m;
        assert m.View() == old@marked(m.View()).(hasAccelerate := true);
      } else {
        assert m.View() == old@marked(m.View());
      }
    }
  }

  /** The loop of set_accelerate_to_module over _internal_dict: each module among the keys is marked. */
  method MarkComponents(q: Pipe)
    requires q.Valid()
    modifies q.components.Values
    ensures forall n :: n in q.components ==>
              q.components[n].View() == old(q.components[n].View()).(hasAccelerate := true)
  {
    var i := 0;
    while i < |q.keys|
      invariant 0 <= i <= |q.keys|
      invariant forall n :: n in q.components ==>
                  q.components[n].View()
                  == (if n in q.keys[..i] then old(q.components[n].View()).(hasAccelerate := true)
                      else old(q.components[n].View()))
    {
      var name := q.keys[i];
      if name in q.components {
        var m := q.components[name];
        m.hasAccelerate := true;
        assert forall n :: n in q.components && n != name ==> q.components[n] != m;
      }
      assert q.keys[..i + 1] == q.keys[..i] + [name];
      assert name !in q.keys[..i];
      i := i + 1;
    }
    assert q.keys[..i] == q.keys;
  }

  /** set_accelerate: the model is marked, and so is every module set_accelerate_to_module reaches. */
  method SetAccelerate(p: Pipe)
    requires p.Valid()
    modifies p, p.AllModules()
    ensures p.hasAccelerate
    ensures forall m :: m in p.AllModules() && old(allocated(m)) ==>
              m.View() == old(m.View()).(hasAccelerate := old(m.hasAccelerate) || m in p.AcceleratedBy())
  {
    ghost var all := p.AllModules();
    NestedInModules(p);
    p.hasAccelerate := true;
    label start:
    MarkStage(p, all);
    label own:
    MarkStage(p.priorPipe, all);
    label prior:
    MarkStage(p.decoderPipe, all);
    forall m | m in all && old(allocated(m))
      ensures m.View() == old(m.View()).(hasAccelerate := old(m.hasAccelerate) || m in p.AcceleratedBy())
    {
      var v := old(m.View());
      var own := m in p.AccelerateTargets();
      var prior := p.priorPipe != null && m in p.priorPipe.AccelerateTargets();
      var decoder := p.decoderPipe != null && m in p.decoderPipe.AccelerateTargets();
      assert old@start(m.View()) == v;
      assert old@own(m.View()) == v.(hasAccelerate := v.hasAccelerate || own);
      assert old@prior(m.View()) == v.(hasAccelerate := v.hasAccelerate || own || prior);
      assert m in p.AcceleratedBy() <==> own || prior || decoder;
    }
  }

  /** The prior and decoder pipelines are valid and their modules are among the model's. */
  lemma NestedInModules(p: Pipe)
    requires p.Valid()
    ensures p.AllModules() <= p.AllModules()
    ensures p.priorPipe != null ==> p.priorPipe.Valid() && p.priorPipe.AllModules() <= p.AllModules()
    ensures p.decoderPipe != null ==> p.decoderPipe.Valid() && p.decoderPipe.AllModules() <= p.AllModules()
  {
  }

  /** set_accelerate_to_module on one pipeline (nothing for a missing one), seen from a set of modules that holds all of its own. */
  method MarkStage(q: Pipe?, ghost all: set<Module>)
    requires q != null ==> q.Valid() && q.AllModules() <= all
    modifies if q != null then q.AllModules() else {}
    ensures forall m :: m in all && old(allocated(m)) ==>
              m.View() == old(m.View()).(hasAccelerate := old(m.hasAccelerate) || (q != null && m in q.AccelerateTargets()))
  {
    if q != null {
      AccelerateTargetsInModules(q);
      SetAccelerateTo(q);
    }
  }

  /**
   * disable_offload: nothing unless the model has accelerate; otherwise every module
   * among its keys loses its hooks, keeps a non-empty network_layer_name, and the
   * model is no longer marked.
   */
  method DisableOffload(p: Pipe)
    requires p.Valid()
    modifies p, p.components.Values
    ensures !old(p.hasAccelerate) ==> !p.hasAccelerate && ViewsOf(p.components) == old(ViewsOf(p.components))
    ensures old(p.hasAccelerate) ==> !p.hasAccelerate
    ensures old(p.hasAccelerate) ==>
              forall n :: n in p.components ==> p.components[n].View() == Detached(old(p.components[n].View()))
  {
    if !p.hasAccelerate {
      return;
    }
    DetachComponents(p);
    p.hasAccelerate := false;
  }

  /** disable_offload's loop over the keys: every module among them is detached. */
  method DetachComponents(p: Pipe)
    requires p.Valid()
    modifies p.components.Values
    ensures forall n :: n in p.components ==> p.components[n].View() == Detached(old(p.components[n].View()))
  {
    var i := 0;
    while i < |p.keys|
      invariant 0 <= i <= |p.keys|
      invariant forall n :: n in p.components ==>
                  p.components[n].View()
                  == (if n in p.keys[..i] then Detached(old(p.components[n].View())) else old(p.components[n].View()))
    {
      var name := p.keys[i];
      if name in p.components {
        var m := p.components[name];
        DetachModule(m);
        assert forall n :: n in p.components && n != name ==> p.components[n] != m;
      }
      assert p.keys[..i + 1] == p.keys[..i] + [name];
      assert name !in p.keys[..i];
      i := i + 1;
    }
    assert p.keys[..i] == p.keys;
  }

  /** One module of disable_offload's loop: its hooks go and a non-empty network_layer_name is put back. */
  method DetachModule(m: Module)
    modifies m
    ensures m.View() == Detached(old(m.View()))
  {
    var layerName := m.networkLayerName;
    m.RemoveHooks();
    if NameIsSet(layerName) {
      m.networkLayerName := layerName;
    }
  }

  // ---------------------------------------------------------------------------
  // Specification of the size cache fill
  // ---------------------------------------------------------------------------

  /** A name the cache has no entry for, with a module behind it: get_pipe_modules computes its size. */
  predicate IsNew(n: string, known: map<string, real>, components: map<string, Module>)
  {
    n !in known && n in components
  }

  /** The size get_pipe_modules lists for a name: the cached one, or the computed one (0 when that raises). */
  function SizeFor(n: string, known: map<string, real>, components: map<string, Module>): (r: real)
    requires n in known || n in components
    ensures n !in known ==> r >= 0.0
  {
    if n in known then known[n]
    else
      var size := ModuleSize(components[n].parameters);
      if size.Some? then size.value else 0.0
  }

  /** The (name, size) pairs get_pipe_modules has collected from the first i names, before sorting. */
  function ListedUpTo(names: seq<string>, i: nat, known: map<string, real>, components: map<string, Module>): (r: seq<Entry>)
    requires i <= |names|
    ensures forall e :: e in r <==> e.name in names[..i] && (e.name in known || e.name in components)
                                    && e.size == SizeFor(e.name, known, components)
    ensures Distinct(names) ==> DistinctNames(r)
  {
    if i == 0 then []
    else
      var last := names[i - 1];
      assert names[..i] == names[..i - 1] + [last];
      assert forall n :: n in names[..i] <==> n in names[..i - 1] || n == last;
      assert Distinct(names) ==> last !in names[..i - 1];
      ListedUpTo(names, i - 1, known, components)
      + (if last in known || last in components then [Entry(last, SizeFor(last, known, components))] else [])
  }

  /** The (name, size) pairs get_pipe_modules collects, in key order, before sorting. */
  function Listed(names: seq<string>, known: map<string, real>, components: map<string, Module>): (r: seq<Entry>)
    ensures forall e :: e in r <==> e.name in names && (e.name in known || e.name in components)
                                    && e.size == SizeFor(e.name, known, components)
    ensures Distinct(names) ==> DistinctNames(r)
  {
    assert names[..|names|] == names;
    ListedUpTo(names, |names|, known, components)
  }

  /**
   * The value of get_pipe_modules' local param_num after the first i names: the
   * parameter count of the last new module whose size could be computed, or
   * None when no such module came yet (the variable is then unassigned).
   */
  function StaleAt(names: seq<string>, i: nat, known: map<string, real>, components: map<string, Module>): Option<real>
    requires i <= |names|
  {
    if i == 0 then None
    else
      var last := names[i - 1];
      if IsNew(last, known, components) && ModuleSize(components[last].parameters).Some? then
        Some(ParamCount(components[last].parameters))
      else StaleAt(names, i - 1, known, components)
  }

  /** Entries once written are never changed or removed. */
  predicate FillOnce(before: map<string, real>, after: map<string, real>)
  {
    forall k :: k in before ==> k in after && after[k] == before[k]
  }

  /** Every new entry of the size cache is the computed size of a candidate module among the first i names. */
  predicate NewSizesAgree(names: seq<string>, i: nat, known: map<string, real>, sizes: map<string, real>,
                          components: map<string, Module>)
    requires i <= |names|
  {
    forall n :: n in sizes && n !in known ==>
      n in names[..i] && IsNew(n, known, components) && sizes[n] == SizeFor(n, known, components)
  }

  /** Every new parameter-count entry holds param_num as it stood right after that name. */
  predicate NewParamsStale(names: seq<string>, i: nat, known: map<string, real>, knownParams: map<string, real>,
                           params: map<string, real>, components: map<string, Module>)
    requires i <= |names|
  {
    forall j :: 0 <= j < i && names[j] in params && names[j] !in knownParams ==>
      StaleAt(names, j + 1, known, components) == Some(params[names[j]])
  }

  /** param_num is assigned whenever one of the first i names gets a new entry: the call does not fail. */
  predicate ParamAlwaysAssigned(names: seq<string>, i: nat, known: map<string, real>, components: map<string, Module>)
    requires i <= |names|
  {
    forall j :: 0 <= j < i && IsNew(names[j], known, components) ==> StaleAt(names, j + 1, known, components).Some?
  }

  /** What get_pipe_modules' loop has established after the first i candidate names. */
  ghost predicate FillInv(names: seq<string>, i: nat, known: map<string, real>, knownParams: map<string, real>,
                          sizes: map<string, real>, params: map<string, real>, components: map<string, Module>,
                          collected: seq<Entry>, paramNum: Option<real>)
    requires i <= |names|
  {
    && collected == ListedUpTo(names, i, known, components)
    && paramNum == StaleAt(names, i, known, components)
    && FillOnce(known, sizes) && FillOnce(knownParams, params)
    && (forall n :: n in sizes <==> n in known || (n in names[..i] && n in components))
    && NewSizesAgree(names, i, known, sizes, components)
    && (forall j :: 0 <= j < i && IsNew(names[j], known, components) ==> names[j] in params)
    && NewParamsStale(names, i, known, knownParams, params, components)
    && ParamAlwaysAssigned(names, i, known, components)
    && (forall n :: n in params && n !in knownParams ==> n in names[..i])
  }

  /** A name that already has a size entry is listed with it and nothing is written. */
  lemma FillCached(names: seq<string>, i: nat, known: map<string, real>, knownParams: map<string, real>,
                   sizes: map<string, real>, params: map<string, real>, components: map<string, Module>,
                   collected: seq<Entry>, paramNum: Option<real>)
    requires Distinct(names) && i < |names| && knownParams.Keys <= known.Keys
    requires FillInv(names, i, known, knownParams, sizes, params, components, collected, paramNum)
    requires names[i] in sizes
    ensures FillInv(names, i + 1, known, knownParams, sizes, params, components,
                    collected + [Entry(names[i], sizes[names[i]])], paramNum)
  {
    var name := names[i];
    assert names[..i + 1] == names[..i] + [name];
    assert name !in names[..i];
    assert name in known;
  }

  /** A name with no entry and no module behind it is skipped. */
  lemma FillSkip(names: seq<string>, i: nat, known: map<string, real>, knownParams: map<string, real>,
                 sizes: map<string, real>, params: map<string, real>, components: map<string, Module>,
                 collected: seq<Entry>, paramNum: Option<real>)
    requires Distinct(names) && i < |names| && knownParams.Keys <= known.Keys
    requires FillInv(names, i, known, knownParams, sizes, params, components, collected, paramNum)
    requires names[i] !in sizes && names[i] !in components
    ensures FillInv(names, i + 1, known, knownParams, sizes, params, components, collected, paramNum)
  {
    var name := names[i];
    assert name !in known;
    assert names[..i + 1] == names[..i] + [name];
    FillSkipSizes(names, i, known, sizes, components);
    FillSkipParams(names, i, known, knownParams, params, components);
  }

  /** The size-cache half of a skipped name's step. */
  lemma FillSkipSizes(names: seq<string>, i: nat, known: map<string, real>, sizes: map<string, real>,
                      components: map<string, Module>)
    requires i < |names| && names[i] !in components
    requires forall n :: n in sizes <==> n in known || (n in names[..i] && n in components)
    requires NewSizesAgree(names, i, known, sizes, components)
    ensures forall n :: n in sizes <==> n in known || (n in names[..i + 1] && n in components)
    ensures NewSizesAgree(names, i + 1, known, sizes, components)
  {
    assert names[..i + 1] == names[..i] + [names[i]];
  }

  /** The parameter-count half of a skipped name's step. */
  lemma FillSkipParams(names: seq<string>, i: nat, known: map<string, real>, knownParams: map<string, real>,
                       params: map<string, real>, components: map<string, Module>)
    requires Distinct(names) && i < |names| && names[i] !in components
    requires forall j :: 0 <= j < i && IsNew(names[j], known, components) ==> names[j] in params
    requires NewParamsStale(names, i, known, knownParams, params, components)
    requires ParamAlwaysAssigned(names, i, known, components)
    requires forall n :: n in params && n !in knownParams ==> n in names[..i]
    ensures forall j :: 0 <= j < i + 1 && IsNew(names[j], known, components) ==> names[j] in params
    ensures NewParamsStale(names, i + 1, known, knownParams, params, components)
    ensures ParamAlwaysAssigned(names, i + 1, known, components)
    ensures forall n :: n in params && n !in knownParams ==> n in names[..i + 1]
  {
    var name := names[i];
    assert names[..i + 1] == names[..i] + [name];
    assert name !in names[..i];
    assert name !in params || name in knownParams;
  }

  /** param_num after looking at a new module: its count when its size computes, the old value otherwise. */
  function NextParam(m: Module, paramNum: Option<real>): Option<real>
  {
    if ModuleSize(m.parameters).Some? then Some(ParamCount(m.parameters)) else paramNum
  }

  /** The size-cache half of a new module's step. */
  lemma FillNewSizes(names: seq<string>, i: nat, known: map<string, real>, sizes: map<string, real>,
                     components: map<string, Module>)
    requires Distinct(names) && i < |names|
    requires FillOnce(known, sizes)
    requires forall n :: n in sizes <==> n in known || (n in names[..i] && n in components)
    requires NewSizesAgree(names, i, known, sizes, components)
    requires names[i] !in sizes && names[i] in components
    ensures IsNew(names[i], known, components)
    ensures FillOnce(known, sizes[names[i] := SizeFor(names[i], known, components)])
    ensures forall n :: n in sizes[names[i] := SizeFor(names[i], known, components)] <==>
                          n in known || (n in names[..i + 1] && n in components)
    ensures NewSizesAgree(names, i + 1, known, sizes[names[i] := SizeFor(names[i], known, components)], components)
  {
    assert names[..i + 1] == names[..i] + [names[i]];
  }

  /** The parameter-count half of a new module's step, when param_num is assigned afterwards. */
  lemma FillNewParams(names: seq<string>, i: nat, known: map<string, real>, knownParams: map<string, real>,
                      params: map<string, real>, components: map<string, Module>, paramNum: Option<real>)
    requires Distinct(names) && i < |names| && knownParams.Keys <= known.Keys
    requires IsNew(names[i], known, components)
    requires paramNum == StaleAt(names, i, known, components)
    requires FillOnce(knownParams, params)
    requires forall j :: 0 <= j < i && IsNew(names[j], known, components) ==> names[j] in params
    requires NewParamsStale(names, i, known, knownParams, params, components)
    requires ParamAlwaysAssigned(names, i, known, components)
    requires forall n :: n in params && n !in knownParams ==> n in names[..i]
    requires NextParam(components[names[i]], paramNum).Some?
    ensures NextParam(components[names[i]], paramNum) == StaleAt(names, i + 1, known, components)
    ensures FillOnce(knownParams, params[names[i] := NextParam(components[names[i]], paramNum).value])
    ensures forall j :: 0 <= j < i + 1 && IsNew(names[j], known, components) ==>
              names[j] in params[names[i] := NextParam(components[names[i]], paramNum).value]
    ensures NewParamsStale(names, i + 1, known, knownParams,
                           params[names[i] := NextParam(components[names[i]], paramNum).value], components)
    ensures ParamAlwaysAssigned(names, i + 1, known, components)
    ensures forall n :: n in params[names[i] := NextParam(components[names[i]], paramNum).value] && n !in knownParams ==>
              n in names[..i + 1]
  {
    var name := names[i];
    var params' := params[name := NextParam(components[name], paramNum).value];
    assert names[..i + 1] == names[..i] + [name];
    assert name !in names[..i];
    assert name !in knownParams;
    forall j | 0 <= j < i + 1 && names[j] in params' && names[j] !in knownParams
      ensures StaleAt(names, j + 1, known, components) == Some(params'[names[j]])
    {
      if j < i {
        assert names[j] != name;
      }
    }
  }

  /** A new module gets its size entry and, when param_num is assigned, its parameter-count entry. */
  lemma FillNew(names: seq<string>, i: nat, known: map<string, real>, knownParams: map<string, real>,
                sizes: map<string, real>, params: map<string, real>, components: map<string, Module>,
                collected: seq<Entry>, paramNum: Option<real>)
    requires Distinct(names) && i < |names| && knownParams.Keys <= known.Keys
    requires FillInv(names, i, known, knownParams, sizes, params, components, collected, paramNum)
    requires names[i] !in sizes && names[i] in components
    ensures IsNew(names[i], known, components)
    ensures NextParam(components[names[i]], paramNum) == StaleAt(names, i + 1, known, components)
    ensures NextParam(components[names[i]], paramNum).Some? ==>
      FillInv(names, i + 1, known, knownParams,
              sizes[names[i] := SizeFor(names[i], known, components)],
              params[names[i] := NextParam(components[names[i]], paramNum).value], components,
              collected + [Entry(names[i], SizeFor(names[i], known, components))],
              NextParam(components[names[i]], paramNum))
  {
    FillNewSizes(names, i, known, sizes, components);
    if NextParam(components[names[i]], paramNum).Some? {
      FillNewParams(names, i, known, knownParams, params, components, paramNum);
      assert names[..i + 1] == names[..i] + [names[i]];
    }
  }

  // ---------------------------------------------------------------------------
  // Specification of one orchestrator iteration
  // ---------------------------------------------------------------------------

  /** A module after the orchestrator detached, possibly evicted, and reattached it. */
  function Reattached(v: ModuleView, a: Action, owner: OffloadHook, execution: Device, offloadPost: bool): (r: ModuleView)
  {
    var restoreMap := MapIsSet(v.deviceMap) && v.maxMemory.Some?;
    v.(device := if a.Evicted? then Cpu else v.device,
       hooks := 1,
       hookOwner := owner,
       executionDevice := Some(execution),
       networkLayerName := if NameIsSet(v.networkLayerName) then v.networkLayerName else None,
       deviceMap := if restoreMap then v.deviceMap else None,
       maxMemory := if restoreMap then v.maxMemory else None,
       offloadPost := offloadPost)
  }

  /** What the orchestrator loop finds for one listing entry, read from the modules as they were. */
  function SlotFrom(e: Entry, views: map<string, ModuleView>, components: map<string, Module>,
                    failures: map<Module, string>): Slot
  {
    if e.name in views && e.name in components then
      var m := components[e.name];
      Present(e.size, views[e.name].device == Cpu, if m in failures then Some(failures[m]) else None)
    else Missing
  }

  function SlotsFrom(listing: seq<Entry>, views: map<string, ModuleView>, components: map<string, Module>,
                     failures: map<Module, string>): (r: seq<Slot>)
    ensures |r| == |listing|
    ensures forall i :: 0 <= i < |listing| ==> r[i] == SlotFrom(listing[i], views, components, failures)
  {
    seq(|listing|, i requires 0 <= i < |listing| => SlotFrom(listing[i], views, components, failures))
  }

  function ViewsOf(components: map<string, Module>): (r: map<string, ModuleView>)
    reads components.Values
    ensures r.Keys == components.Keys
    ensures forall n :: n in components ==> r[n] == components[n].View()
  {
    map n | n in components :: components[n].View()
  }

  /** Modules whose fields did not change have the same views. */
  twostate lemma ViewsFramed(components: map<string, Module>)
    requires unchanged(components.Values)
    ensures ViewsOf(components) == old(ViewsOf(components))
  {
  }

  /** The plan for slots[i..] is its first step followed by the plan for the rest. */
  lemma PlanStep(slots: seq<Slot>, i: nat, steps: seq<Step>, used: real, usedGpu: real, gpuMemory: real, low: real)
    requires gpuMemory > 0.0 && i < |slots|
    requires steps + Plan(slots[i..], used, gpuMemory, low) == Plan(slots, usedGpu, gpuMemory, low)
    ensures (steps + [Step(used, Decide(slots[i], used, gpuMemory, low))])
            + Plan(slots[i + 1..], UsedAfter(slots[i], Decide(slots[i], used, gpuMemory, low), used), gpuMemory, low)
            == Plan(slots, usedGpu, gpuMemory, low)
  {
    assert slots[i..][1..] == slots[i + 1..];
  }

  /**
   * The modules' views after the orchestrator handled the first i listing entries:
   * each handled name that is a module is reattached with the action its step took.
   */
  function Applied(views: map<string, ModuleView>, listing: seq<Entry>, steps: seq<Step>, i: nat,
                   owner: OffloadHook, execution: Device, modelType: string, teHijack: bool): (r: map<string, ModuleView>)
    requires i <= |listing| && i <= |steps|
    ensures r.Keys == views.Keys
  {
    if i == 0 then views
    else
      var prev := Applied(views, listing, steps, i - 1, owner, execution, modelType, teHijack);
      var n := listing[i - 1].name;
      if n in views then
        prev[n := Reattached(views[n], steps[i - 1].action, owner, execution, OffloadPostFlag(modelType, teHijack, n))]
      else prev
  }

  /** Steps beyond the first i do not matter to the first i entries. */
  lemma {:induction false} AppliedExtend(views: map<string, ModuleView>, listing: seq<Entry>, steps: seq<Step>, s: Step,
                                         i: nat, owner: OffloadHook, execution: Device, modelType: string, teHijack: bool)
    requires i <= |listing| && i <= |steps|
    ensures Applied(views, listing, steps + [s], i, owner, execution, modelType, teHijack)
            == Applied(views, listing, steps, i, owner, execution, modelType, teHijack)
  {
    if i > 0 {
      AppliedExtend(views, listing, steps, s, i - 1, owner, execution, modelType, teHijack);
      assert (steps + [s])[i - 1] == steps[i - 1];
    }
  }

  /** Handling entry i extends the handled prefix by that entry alone. */
  lemma AppliedStep(views: map<string, ModuleView>, listing: seq<Entry>, steps: seq<Step>, s: Step,
                    owner: OffloadHook, execution: Device, modelType: string, teHijack: bool)
    requires |steps| < |listing| && DistinctNames(listing)
    ensures listing[|steps|].name in views ==>
              Applied(views, listing, steps, |steps|, owner, execution, modelType, teHijack)[listing[|steps|].name]
              == views[listing[|steps|].name]
    ensures Applied(views, listing, steps + [s], |steps| + 1, owner, execution, modelType, teHijack)
            == (var prev := Applied(views, listing, steps, |steps|, owner, execution, modelType, teHijack);
                var n := listing[|steps|].name;
                if n in views then prev[n := Reattached(views[n], s.action, owner, execution, OffloadPostFlag(modelType, teHijack, n))]
                else prev)
  {
    AppliedExtend(views, listing, steps, s, |steps|, owner, execution, modelType, teHijack);
    AppliedAt(views, listing, steps, |steps|, owner, execution, modelType, teHijack);
  }

  /** Every listed module ends up reattached with its own step's action; every other module is untouched. */
  lemma {:induction false} AppliedAt(views: map<string, ModuleView>, listing: seq<Entry>, steps: seq<Step>, i: nat,
                                     owner: OffloadHook, execution: Device, modelType: string, teHijack: bool)
    requires i <= |listing| && i <= |steps| && DistinctNames(listing)
    ensures forall j :: 0 <= j < i && listing[j].name in views ==>
              Applied(views, listing, steps, i, owner, execution, modelType, teHijack)[listing[j].name]
              == Reattached(views[listing[j].name], steps[j].action, owner, execution,
                            OffloadPostFlag(modelType, teHijack, listing[j].name))
    ensures forall n :: n in views && (forall j :: 0 <= j < i ==> listing[j].name != n) ==>
              Applied(views, listing, steps, i, owner, execution, modelType, teHijack)[n] == views[n]
  {
    AppliedAtListed(views, listing, steps, i, owner, execution, modelType, teHijack);
    AppliedAtOthers(views, listing, steps, i, owner, execution, modelType, teHijack);
  }

  lemma {:induction false} AppliedAtListed(views: map<string, ModuleView>, listing: seq<Entry>, steps: seq<Step>, i: nat,
                                           owner: OffloadHook, execution: Device, modelType: string, teHijack: bool)
    requires i <= |listing| && i <= |steps| && DistinctNames(listing)
    ensures forall j :: 0 <= j < i && listing[j].name in views ==>
              Applied(views, listing, steps, i, owner, execution, modelType, teHijack)[listing[j].name]
              == Reattached(views[listing[j].name], steps[j].action, owner, execution,
                            OffloadPostFlag(modelType, teHijack, listing[j].name))
  {
    if i > 0 {
      AppliedAtListed(views, listing, steps, i - 1, owner, execution, modelType, teHijack);
      var last := listing[i - 1].name;
      forall j | 0 <= j < i - 1 && listing[j].name in views
        ensures Applied(views, listing, steps, i, owner, execution, modelType, teHijack)[listing[j].name]
                == Applied(views, listing, steps, i - 1, owner, execution, modelType, teHijack)[listing[j].name]
      {
        assert listing[j].name != last;
      }
    }
  }

  lemma {:induction false} AppliedAtOthers(views: map<string, ModuleView>, listing: seq<Entry>, steps: seq<Step>, i: nat,
                                           owner: OffloadHook, execution: Device, modelType: string, teHijack: bool)
    requires i <= |listing| && i <= |steps|
    ensures forall n :: n in views && (forall j :: 0 <= j < i ==> listing[j].name != n) ==>
              Applied(views, listing, steps, i, owner, execution, modelType, teHijack)[n] == views[n]
  {
    if i > 0 {
      AppliedAtOthers(views, listing, steps, i - 1, owner, execution, modelType, teHijack);
    }
  }

  /** pre_forward's DirectML loop: each integer value of the map becomes "<type>:<index>". */
  method RewriteForDirectMl(dm: DeviceMap, kind: string) returns (r: DeviceMap)
    ensures r == DirectMlRewrite(dm, kind)
  {
    r := dm;
    var remaining := dm.Keys;
    while remaining != {}
      invariant remaining <= dm.Keys && r.Keys == dm.Keys
      invariant forall k :: k in dm && k !in remaining ==> r[k] == RewriteEntry(dm[k], kind)
      invariant forall k :: k in remaining ==> r[k] == dm[k]
      decreases remaining
    {
      var k :| k in remaining;
      if r[k].Index? {
        r := r[k := Named(kind + ":" + IntToString(r[k].i))];
      }
      remaining := remaining - {k};
    }
  }

  /** The device map pre_forward dispatches with: the stored one when reusable, else the inferred one; rewritten on DirectML. */
  function DispatchMap(stored: Option<DeviceMap>, storedMax: Option<MaxMemory>, wanted: MaxMemory,
                       inferred: DeviceMap, backend: string, kind: string): (r: DeviceMap)
    ensures backend != "directml" && ReusesStoredMap(stored, storedMax, wanted) ==> r == stored.value
    ensures backend != "directml" && !ReusesStoredMap(stored, storedMax, wanted) ==> r == inferred
    ensures backend == "directml" && ReusesStoredMap(stored, storedMax, wanted) ==> r == DirectMlRewrite(stored.value, kind)
    ensures backend == "directml" && !ReusesStoredMap(stored, storedMax, wanted) ==> r == DirectMlRewrite(inferred, kind)
    ensures backend == "directml" ==> forall k :: k in r ==> r[k].Named?
  {
    var base := if ReusesStoredMap(stored, storedMax, wanted) then stored.value else inferred;
    if backend == "directml" then DirectMlRewrite(base, kind) else base
  }

  // ---------------------------------------------------------------------------
  // The manager
  // ---------------------------------------------------------------------------

  /** OffloadHook: the balanced offload manager and its size cache. */
  class OffloadHook {
    const checkpointName: string
    const minWatermark: real
    const maxWatermark: real
    const cpuWatermark: real
    const gpu: int                          // GPU budget in bytes
    const cpu: int                          // CPU budget in bytes
    var offloadMap: map<string, real>       // module name -> size in GiB
    var paramMap: map<string, real>         // module name -> parameter count / 1024**3
    var order: seq<string>                  // insertion order of offloadMap, as a Python dict keeps it

    ghost predicate Valid()
      reads this
    {
      && Distinct(order)
      && (forall k :: k in offloadMap <==> k in order)
      && paramMap.Keys <= offloadMap.Keys
      && NonNegative(offloadMap)
    }

    function Snap(): Snapshot
    {
      Snapshot(checkpointName, minWatermark, maxWatermark, cpuWatermark)
    }

    /**
     * __init__: clamps the GPU and CPU maxima, remembers the settings as they are
     * at that point, sizes the budgets from them, starts with empty caches, and
     * only then validates the settings.
     */
    constructor(checkpointName: string, opts: Opts, gpuMemory: real, cpuMemory: real)
      modifies opts
      ensures Valid() && offloadMap == map[] && paramMap == map[] && order == []
      ensures Snap() == SnapshotAtInit(checkpointName, old(opts.AsSettings()))
      ensures opts.AsSettings() == SettingsAfterInit(old(opts.AsSettings()))
      ensures opts.offloadMode == old(opts.offloadMode) && opts.teHijack == old(opts.teHijack)
      ensures gpu == Budget(gpuMemory, CeilingClamped(old(opts.maxGpuMemory)))
      ensures cpu == Budget(cpuMemory, CeilingClamped(old(opts.maxCpuMemory)))
    {
      if opts.maxGpuMemory > 1.0 {
        opts.maxGpuMemory := 0.75;
      }
      if opts.maxCpuMemory > 1.0 {
        opts.maxCpuMemory := 0.75;
      }
      this.checkpointName := checkpointName;
      minWatermark := opts.minGpuMemory;
      maxWatermark := opts.maxGpuMemory;
      cpuWatermark := opts.maxCpuMemory;
      gpu := Budget(gpuMemory, opts.maxGpuMemory);
      cpu := Budget(cpuMemory, opts.maxCpuMemory);
      offloadMap, paramMap, order := map[], map[], [];
      new;
      Validate(opts);
    }

    /** validate(): corrects the watermarks in the settings when the mode is "balanced". */
    method Validate(opts: Opts)
      modifies opts
      ensures Watermarks(opts.minGpuMemory, opts.maxGpuMemory)
           == Validated(old(opts.offloadMode) == "balanced", Watermarks(old(opts.minGpuMemory), old(opts.maxGpuMemory)))
      ensures opts.offloadMode == old(opts.offloadMode) && opts.maxCpuMemory == old(opts.maxCpuMemory)
      ensures opts.teHijack == old(opts.teHijack)
    {
      if opts.offloadMode != "balanced" {
        return;
      }
      if opts.minGpuMemory < 0.0 || opts.minGpuMemory > 1.0 {
        opts.minGpuMemory := 0.2;
      }
      if opts.maxGpuMemory < 0.1 || opts.maxGpuMemory > 1.0 {
        opts.maxGpuMemory := 0.7;
      }
      if opts.minGpuMemory > opts.maxGpuMemory {
        opts.minGpuMemory := opts.maxGpuMemory;
      }
    }

    /** model_size(): the total of every cached size. */
    function ModelSize(): (r: real)
      reads this
      requires Valid()
      ensures r >= 0.0
    {
      SumSizesNonNegative(order, offloadMap);
      SumSizes(order, offloadMap)
    }

    /** model_size() covers every cached module: what post_forward subtracts is never less than the module's own size. */
    lemma ModelSizeCoversEntry(name: string)
      requires Valid() && name in offloadMap
      ensures ModelSize() >= offloadMap[name]
    {
      SumSizesAtLeastEntry(order, offloadMap, name);
    }

    /**
     * pre_forward: when the module is not on the execution device, choose a device map
     * (the stored one if it was built for the same max_memory, else accelerate's inferred
     * one), rewrite it on DirectML, dispatch with it, and record map and max_memory.
     * `inferred` stands for infer_auto_device_map, `dispatched` for the device the
     * module reports after dispatch_model. The arguments come back unchanged.
     */
    method PreForward<A>(m: Module, args: A, execution: Device, backend: string,
                         inferred: DeviceMap, dispatched: Device) returns (r: A)
      modifies m
      ensures r == args
      ensures SameDevice(old(m.device), execution) ==> m.View() == old(m.View())
      ensures !SameDevice(old(m.device), execution) ==>
                m.View() == old(m.View()).(
                  device := dispatched,
                  executionDevice := Some(execution),
                  deviceMap := Some(DispatchMap(old(m.deviceMap), old(m.maxMemory), MaxMemoryFor(execution, gpu, cpu),
                                                inferred, backend, execution.kind)),
                  maxMemory := Some(MaxMemoryFor(execution, gpu, cpu)))
    {
      r := args;
      if SameDevice(m.device, execution) {
        return;
      }
      var maxMemory := MaxMemoryFor(execution, gpu, cpu);
      var deviceMap: DeviceMap;
      if ReusesStoredMap(m.deviceMap, m.maxMemory, maxMemory) {
        deviceMap := m.deviceMap.value;
      } else {
        deviceMap := inferred;
      }
      if backend == "directml" {
        deviceMap := RewriteForDirectMl(deviceMap, execution.kind);
      }
      m.device := dispatched;
      m.executionDevice := Some(execution);
      m.deviceMap := Some(deviceMap);
      m.maxMemory := Some(maxMemory);
    }

    /**
     * post_forward: a module flagged offload_post and not on the CPU is moved there when
     * the GPU reading is above the low watermark; a completed move subtracts the size of
     * the WHOLE cache (model_size()), not the module's own. A failed move whose message
     * is neither out-of-memory nor bitsandbytes reaches the log line that reads the
     * module's __name__, which torch modules do not have, so the hook raises (`raised`).
     * The output comes back unchanged.
     */
    method PostForward<O>(m: Module, output: O, usedGpu: real, gpuMemory: real, low: real, failure: Option<string>)
      returns (r: O, decision: Option<Action>, usedNext: real, raised: bool)
      requires Valid() && gpuMemory > 0.0
      modifies m
      ensures r == output
      ensures !(old(m.offloadPost) && old(m.device) != Cpu) ==>
                decision.None? && usedNext == usedGpu && !raised && m.View() == old(m.View())
      ensures old(m.offloadPost) && old(m.device) != Cpu ==>
                && decision == Some(Decide(Present(ModelSize(), false, failure), usedGpu, gpuMemory, low))
                && usedNext == UsedAfter(Present(ModelSize(), false, failure), decision.value, usedGpu)
                && (raised <==> decision.value == Failed(Logged))
                && m.View() == old(m.View()).(device := if decision.value.Evicted? then Cpu else old(m.device))
    {
      r, decision, usedNext, raised := output, None, usedGpu, false;
      if !(m.offloadPost && m.device != Cpu) {
        return;
      }
      var percGpu := Share(usedGpu, gpuMemory);
      var moduleSize := ModelSize();
      var a: Action;
      if percGpu > low {
        if failure.Some? {
          a := Failed(Classify(failure.value));
          raised := a == Failed(Logged);
        } else {
          m.device := Cpu;
          usedNext := usedGpu - moduleSize;
          a := Evicted;
        }
      } else {
        a := Kept;
      }
      decision := Some(a);
    }

    /** offload_map[name] = size, a new key at the end of the dictionary's order. */
    method AddSize(name: string, size: real)
      requires Valid() && name !in offloadMap && size >= 0.0
      modifies this
      ensures Valid()
      ensures offloadMap == old(offloadMap)[name := size] && paramMap == old(paramMap)
      ensures order == old(order) + [name]
    {
      offloadMap := offloadMap[name := size];
      order := order + [name];
    }

    /** param_map[name] = count, for a name the size cache already holds. */
    method AddParams(name: string, count: real)
      requires Valid() && name in offloadMap
      modifies this
      ensures Valid()
      ensures paramMap == old(paramMap)[name := count]
      ensures offloadMap == old(offloadMap) && order == old(order)
    {
      paramMap := paramMap[name := count];
    }

    /**
     * One iteration of get_pipe_modules' loop over the candidate names: list a cached
     * name, size and list a new module, skip anything else. `failed` is the new module
     * whose size entry was written while param_num was still unassigned.
     */
    method FillName(p: Pipe, names: seq<string>, i: nat, ghost known: map<string, real>,
                    ghost knownParams: map<string, real>, collected: seq<Entry>, paramNum: Option<real>)
      returns (collectedNext: seq<Entry>, paramNext: Option<real>, failed: bool)
      requires Valid() && p.Valid() && Distinct(names) && i < |names| && knownParams.Keys <= known.Keys
      requires FillInv(names, i, known, knownParams, offloadMap, paramMap, p.components, collected, paramNum)
      modifies this
      ensures Valid()
      ensures !failed ==> FillInv(names, i + 1, known, knownParams, offloadMap, paramMap, p.components,
                                  collectedNext, paramNext)
      ensures failed ==> FillOnce(known, offloadMap) && FillOnce(knownParams, paramMap)
      ensures failed ==> IsNew(names[i], known, p.components) && StaleAt(names, i + 1, known, p.components).None?
                         && ModuleSize(p.components[names[i]].parameters).None?
    {
      var name := names[i];
      collectedNext, paramNext, failed := collected, paramNum, false;
      if name in offloadMap {
        FillCached(names, i, known, knownParams, offloadMap, paramMap, p.components, collected, paramNum);
        collectedNext := collected + [Entry(name, offloadMap[name])];
      } else if name in p.components {
        FillNew(names, i, known, knownParams, offloadMap, paramMap, p.components, collected, paramNum);
        var m := p.components[name];
        var computed := ModuleSize(m.parameters);
        var moduleSize: real;
        if computed.Some? {
          moduleSize := computed.value;
          paramNext := Some(ParamCount(m.parameters));
        } else {
          moduleSize := 0.0;
        }
        AddSize(name, moduleSize);
        if paramNext.None? {
          failed := true;
          return;
        }
        AddParams(name, paramNext.value);
        collectedNext := collected + [Entry(name, moduleSize)];
      } else {
        FillSkip(names, i, known, knownParams, offloadMap, paramMap, p.components, collected, paramNum);
      }
    }

    /**
     * get_pipe_modules: fills the size cache for every candidate name that has no
     * entry yet and is a module, and lists the candidates that are cached or are
     * modules, largest first. When the first new module whose size fails to compute
     * comes before any new module whose size computed, param_num is unassigned and
     * the call fails with that module's name (its size entry is already written).
     */
    method GetPipeModules(p: Pipe, exclude: seq<string>) returns (listing: seq<Entry>, err: Option<string>)
      requires Valid() && p.Valid()
      modifies this
      ensures Valid()
      ensures FillOnce(old(offloadMap), offloadMap) && FillOnce(old(paramMap), paramMap)
      ensures err.None? <==> ParamAlwaysAssigned(FilterNames(p.keys, exclude), |FilterNames(p.keys, exclude)|,
                                                 old(offloadMap), p.components)
      ensures err.Some? ==> err.value in FilterNames(p.keys, exclude) && IsNew(err.value, old(offloadMap), p.components)
                            && ModuleSize(p.components[err.value].parameters).None?
      ensures err.None? ==> FillInv(FilterNames(p.keys, exclude), |FilterNames(p.keys, exclude)|, old(offloadMap),
                                    old(paramMap), offloadMap, paramMap, p.components,
                                    Listed(FilterNames(p.keys, exclude), old(offloadMap), p.components),
                                    StaleAt(FilterNames(p.keys, exclude), |FilterNames(p.keys, exclude)|,
                                            old(offloadMap), p.components))
      ensures err.None? ==> listing == SortBySize(Listed(FilterNames(p.keys, exclude), old(offloadMap), p.components))
      ensures err.None? ==> DistinctNames(listing)
    {
      var names := FilterNames(p.keys, exclude);
      ghost var known := offloadMap;
      ghost var knownParams := paramMap;
      var collected: seq<Entry> := [];
      var paramNum: Option<real> := None;
      var i := 0;
      while i < |names|
        invariant 0 <= i <= |names|
        invariant Valid()
        invariant FillInv(names, i, known, knownParams, offloadMap, paramMap, p.components, collected, paramNum)
      {
        var failed;
        collected, paramNum, failed := FillName(p, names, i, known, knownParams, collected, paramNum);
        if failed {
          listing, err := [], Some(names[i]);
          assert !ParamAlwaysAssigned(names, |names|, known, p.components) by {
            assert IsNew(names[i], known, p.components) && StaleAt(names, i + 1, known, p.components).None?;
          }
          return;
        }
        i := i + 1;
      }
      assert names[..i] == names;
      listing, err := SortBySize(collected), None;
    }

    /**
     * One iteration of apply_balanced_offload_to_module: detach the module's hooks,
     * move it to the CPU when the estimate is above the low watermark and it is not
     * there yet, reattach this manager's hook, put back the saved attributes, and
     * set offload_post.
     */
    method ReattachModule(m: Module, size: real, used: real, gpuMemory: real, low: real,
                          failure: Option<string>, execution: Device, offloadPost: bool)
      returns (a: Action, usedNext: real)
      requires gpuMemory > 0.0
      modifies m
      ensures a == Decide(Present(size, old(m.device) == Cpu, failure), used, gpuMemory, low)
      ensures usedNext == UsedAfter(Present(size, old(m.device) == Cpu, failure), a, used)
      ensures m.View() == Reattached(old(m.View()), a, this, execution, offloadPost)
    {
      var layerName := m.networkLayerName;
      var deviceMap := m.deviceMap;
      var maxMemory := m.maxMemory;
      a, usedNext := DetachAndMove(m, size, used, gpuMemory, low, failure);
      Restore(m, layerName, deviceMap, maxMemory, execution, offloadPost);
    }

    /** remove_hook_from_module, then module.to(cpu) when the estimate is above the low watermark. */
    method DetachAndMove(m: Module, size: real, used: real, gpuMemory: real, low: real, failure: Option<string>)
      returns (a: Action, usedNext: real)
      requires gpuMemory > 0.0
      modifies m
      ensures a == Decide(Present(size, old(m.device) == Cpu, failure), used, gpuMemory, low)
      ensures usedNext == UsedAfter(Present(size, old(m.device) == Cpu, failure), a, used)
      ensures m.View() == old(m.View()).(device := if a.Evicted? then Cpu else old(m.device),
                                         hooks := 0, hookOwner := null, executionDevice := None,
                                         networkLayerName := None, deviceMap := None, maxMemory := None)
    {
      m.RemoveHooks();
      usedNext := used;
      var percGpu := Share(used, gpuMemory);
      if percGpu > low && m.device != Cpu {
        if failure.Some? {
          a := Failed(Classify(failure.value));
        } else {
          m.device := Cpu;
          usedNext := used - size;
          a := Evicted;
        }
      } else {
        a := Kept;
      }
    }

    /** add_hook_to_module with this manager, then the saved attributes and offload_post go back. */
    method Restore(m: Module, layerName: Option<string>, deviceMap: Option<DeviceMap>, maxMemory: Option<MaxMemory>,
                   execution: Device, offloadPost: bool)
      modifies m
      ensures m.View() == old(m.View()).(hooks := old(m.hooks) + 1, hookOwner := this,
                                         executionDevice := Some(execution),
                                         networkLayerName := if NameIsSet(layerName) then layerName
                                                             else old(m.networkLayerName),
                                         deviceMap := if MapIsSet(deviceMap) && maxMemory.Some? then deviceMap
                                                      else old(m.deviceMap),
                                         maxMemory := if MapIsSet(deviceMap) && maxMemory.Some? then maxMemory
                                                      else old(m.maxMemory),
                                         offloadPost := offloadPost)
    {
      m.AddHook(this, execution);
      if NameIsSet(layerName) {
        m.networkLayerName := layerName;
      }
      if MapIsSet(deviceMap) && maxMemory.Some? {
        m.deviceMap := deviceMap;
        m.maxMemory := maxMemory;
      }
      m.offloadPost := offloadPost;
    }

    /**
     * apply_balanced_offload_to_module: lists the pipeline's modules largest first
     * and runs one iteration per entry, starting from the GPU usage reading `usedGpu`.
     * `failures` holds the message module.to(cpu) raises for a module, if it raises.
     */
    method ApplyToPipe(p: Pipe, exclude: seq<string>, usedGpu: real, gpuMemory: real, low: real,
                       failures: map<Module, string>, execution: Device, modelType: string, teHijack: bool)
      returns (listing: seq<Entry>, steps: seq<Step>, err: Option<string>)
      requires Valid() && p.Valid()
      requires gpuMemory > 0.0
      modifies this, p.components.Values
      ensures Valid()
      ensures FillOnce(old(offloadMap), offloadMap) && FillOnce(old(paramMap), paramMap)
      ensures err.Some? ==> ViewsOf(p.components) == old(ViewsOf(p.components))
      ensures err.Some? ==> err.value in FilterNames(p.keys, exclude) && err.value in p.components
                            && ModuleSize(p.components[err.value].parameters).None?
      ensures err.None? ==> listing == SortBySize(Listed(FilterNames(p.keys, exclude), old(offloadMap), p.components))
      ensures err.None? ==> steps == Plan(SlotsFrom(listing, old(ViewsOf(p.components)), p.components, failures),
                                          usedGpu, gpuMemory, low)
      ensures err.None? ==> ViewsOf(p.components)
                            == Applied(old(ViewsOf(p.components)), listing, steps, |listing|,
                                       this, execution, modelType, teHijack)
    {
      label start:
      listing, err := GetPipeModules(p, exclude);
      steps := [];
      ViewsFramed@start(p.components);
      if err.Some? {
        return;
      }
      steps := ReattachAll(p, listing, usedGpu, gpuMemory, low, failures, execution, modelType, teHijack);
    }

    /**
     * apply_balanced_offload_to_module on the model, then on pipe, prior_pipe and
     * decoder_pipe; stage k starts from the GPU reading usedGpu(k). The first
     * failing stage ends the walk with its error.
     */
    method ApplyStages(r: Pipe, exclude: seq<string>, usedGpu: nat -> real, gpuMemory: real, low: real,
                       failures: map<Module, string>, execution: Device, modelType: string, teHijack: bool)
      returns (err: Option<string>)
      requires Valid() && r.Valid()
      requires gpuMemory > 0.0
      modifies this, r.AllModules()
      ensures Valid()
      ensures FillOnce(old(offloadMap), offloadMap) && FillOnce(old(paramMap), paramMap)
      ensures err.Some? ==> exists q :: q in r.Stages() && err.value in FilterNames(q.keys, exclude)
                                       && err.value in q.components && ModuleSize(q.components[err.value].parameters).None?
    {
      StagesInModel(r);
      var stages := r.Stages();
      var k := 0;
      err := None;
      while k < |stages|
        invariant 0 <= k <= |stages|
        invariant Valid()
        invariant FillOnce(old(offloadMap), offloadMap) && FillOnce(old(paramMap), paramMap)
      {
        var listing, steps, stageErr := ApplyToPipe(stages[k], exclude, usedGpu(k), gpuMemory, low,
                                                    failures, execution, modelType, teHijack);
        if stageErr.Some? {
          assert stages[k] in r.Stages();
          return stageErr;
        }
        k := k + 1;
      }
    }

    /**
     * One iteration of apply_balanced_offload_to_module's loop: a name with no module
     * behind it is skipped; a module is detached, possibly evicted, and reattached.
     */
    method HandleEntry(p: Pipe, e: Entry, used: real, gpuMemory: real, low: real,
                       failures: map<Module, string>, execution: Device, offloadPost: bool)
      returns (a: Action, usedNext: real)
      requires p.Valid() && gpuMemory > 0.0
      modifies p.components.Values
      ensures a == Decide(SlotFrom(e, old(ViewsOf(p.components)), p.components, failures), used, gpuMemory, low)
      ensures usedNext == UsedAfter(SlotFrom(e, old(ViewsOf(p.components)), p.components, failures), a, used)
      ensures e.name in p.components ==>
                ViewsOf(p.components)
                == old(ViewsOf(p.components))[e.name := Reattached(old(p.components[e.name].View()), a, this, execution,
                                                                   offloadPost)]
      ensures e.name !in p.components ==> ViewsOf(p.components) == old(ViewsOf(p.components))
    {
      if e.name !in p.components {
        return Absent, used;
      }
      var m := p.components[e.name];
      var failure := if m in failures then Some(failures[m]) else None;
      a, usedNext := ReattachModule(m, e.size, used, gpuMemory, low, failure, execution, offloadPost);
      assert forall n :: n in p.components && n != e.name ==> p.components[n] != m;
    }

    /** The iteration for entry |steps| of the listing, given the views before the loop. */
    method ReattachNext(p: Pipe, listing: seq<Entry>, i: nat, ghost views: map<string, ModuleView>, ghost steps: seq<Step>,
                        used: real, gpuMemory: real, low: real, failures: map<Module, string>, execution: Device,
                        modelType: string, teHijack: bool)
      returns (a: Action, usedNext: real)
      requires p.Valid() && DistinctNames(listing) && i == |steps| < |listing| && gpuMemory > 0.0
      requires ViewsOf(p.components) == Applied(views, listing, steps, |steps|, this, execution, modelType, teHijack)
      modifies p.components.Values
      ensures a == Decide(SlotFrom(listing[|steps|], views, p.components, failures), used, gpuMemory, low)
      ensures usedNext == UsedAfter(SlotFrom(listing[|steps|], views, p.components, failures), a, used)
      ensures ViewsOf(p.components)
              == Applied(views, listing, steps + [Step(used, a)], |steps| + 1, this, execution, modelType, teHijack)
    {
      var e := listing[i];
      ghost var before := ViewsOf(p.components);
      AppliedStep(views, listing, steps, Step(used, Decide(SlotFrom(e, views, p.components, failures), used, gpuMemory, low)),
                  this, execution, modelType, teHijack);
      assert e.name in p.components ==> before[e.name] == views[e.name];
      assert SlotFrom(e, before, p.components, failures) == SlotFrom(e, views, p.components, failures);
      a, usedNext := HandleEntry(p, e, used, gpuMemory, low, failures, execution,
                                 OffloadPostFlag(modelType, teHijack, e.name));
      AppliedStep(views, listing, steps, Step(used, a), this, execution, modelType, teHijack);
    }

    /** The loop of apply_balanced_offload_to_module over a listing with distinct names. */
    method ReattachAll(p: Pipe, listing: seq<Entry>, usedGpu: real, gpuMemory: real, low: real,
                       failures: map<Module, string>, execution: Device, modelType: string, teHijack: bool)
      returns (steps: seq<Step>)
      requires p.Valid() && DistinctNames(listing)
      requires gpuMemory > 0.0
      modifies p.components.Values
      ensures steps == Plan(SlotsFrom(listing, old(ViewsOf(p.components)), p.components, failures),
                            usedGpu, gpuMemory, low)
      ensures ViewsOf(p.components)
              == Applied(old(ViewsOf(p.components)), listing, steps, |listing|, this, execution, modelType, teHijack)
    {
      ghost var views := ViewsOf(p.components);
      ghost var slots := SlotsFrom(listing, views, p.components, failures);
      steps := [];
      var used := usedGpu;
      var i := 0;
      while i < |listing|
        invariant 0 <= i <= |listing|
        invariant |steps| == i
        invariant steps + Plan(slots[i..], used, gpuMemory, low) == Plan(slots, usedGpu, gpuMemory, low)
        invariant ViewsOf(p.components) == Applied(views, listing, steps, i, this, execution, modelType, teHijack)
      {
        PlanStep(slots, i, steps, used, usedGpu, gpuMemory, low);
        var a, u := ReattachNext(p, listing, i, views, steps, used, gpuMemory, low, failures, execution, modelType, teHijack);
        steps := steps + [Step(used, a)];
        used := u;
        i := i + 1;
      }
      assert slots[i..] == [];
    }
  }

  /** The model apply_balanced_offload works on: the one given, else the loaded shared model. */
  function Target(sdModel: Pipe?, sdLoaded: bool, sharedModel: Pipe?): (r: Pipe?)
    ensures sdModel != null ==> r == sdModel
    ensures sdModel == null && !sdLoaded ==> r == null
    ensures sdModel == null && sdLoaded ==> r == sharedModel
  {
    if sdModel != null then sdModel else if sdLoaded then sharedModel else null
  }

  /** The checkpoint name the manager is keyed by: the checkpoint info's name, else the class name. */
  function CheckpointOf(p: Pipe): (r: string)
    ensures p.checkpointName.Some? ==> r == p.checkpointName.value
    ensures p.checkpointName.None? ==> r == p.className
  {
    if p.checkpointName.Some? then p.checkpointName.value else p.className
  }

  /** The module-level slot offload_hook_instance that holds the live manager. */
  class Session {
    var live: OffloadHook?

    ghost predicate Valid()
      reads this, live
    {
      live != null ==> live.Valid()
    }

    /** What the live manager remembers, or None when there is none. */
    function LiveSnapshot(): Option<Snapshot>
      reads this
    {
      if live == null then None else Some(live.Snap())
    }

    constructor()
      ensures live == null && Valid()
    {
      live := null;
    }

    /** The reuse test of apply_balanced_offload: a new manager when NeedsRebuild, else the live one. */
    method EnsureManager(opts: Opts, checkpoint: string, gpuMemory: real, cpuMemory: real) returns (rebuilt: bool)
      requires Valid()
      modifies this, opts
      ensures Valid() && live != null
      ensures rebuilt <==> NeedsRebuild(old(LiveSnapshot()), old(opts.AsSettings()), checkpoint)
      ensures rebuilt ==> fresh(live) && live.Snap() == SnapshotAtInit(checkpoint, old(opts.AsSettings()))
                          && live.offloadMap == map[] && live.paramMap == map[]
                          && opts.AsSettings() == SettingsAfterInit(old(opts.AsSettings()))
      ensures rebuilt ==> opts.offloadMode == old(opts.offloadMode) && opts.teHijack == old(opts.teHijack)
      ensures !rebuilt ==> live == old(live) && unchanged(opts)
    {
      rebuilt := live == null || live.minWatermark != opts.minGpuMemory || live.maxWatermark != opts.maxGpuMemory
                 || checkpoint != live.checkpointName;
      if rebuilt {
        live := new OffloadHook(checkpoint, opts, gpuMemory, cpuMemory);
      }
    }

    /**
     * apply_balanced_offload: outside balanced mode, with no model, or for an excluded
     * pipeline class, nothing happens. Otherwise the live manager is rebuilt when
     * NeedsRebuild says so, each stage (the model, then pipe, prior_pipe and
     * decoder_pipe) gets its modules listed and reattached, starting from the GPU
     * reading `usedGpu(k)` of stage k, and the model is marked by set_accelerate.
     * When a stage fails, the error escapes and set_accelerate is not reached.
     */
    method ApplyBalancedOffload(opts: Opts, sdModel: Pipe?, sdLoaded: bool, sharedModel: Pipe?, exclude: seq<string>,
                                gpuMemory: real, cpuMemory: real, usedGpu: nat -> real, failures: map<Module, string>,
                                execution: Device, modelType: string)
      returns (r: Pipe?, rebuilt: bool, err: Option<string>)
      requires Valid()
      requires sdModel != null ==> sdModel.Valid()
      requires sharedModel != null ==> sharedModel.Valid()
      requires gpuMemory > 0.0
      modifies this, opts, live
      modifies if sdModel != null then sdModel.AllModules() + {sdModel} else {}
      modifies if sharedModel != null then sharedModel.AllModules() + {sharedModel} else {}
      ensures Valid()
      ensures r == Target(sdModel, sdLoaded, sharedModel) || (r == sdModel && r == null)
      ensures (old(opts.offloadMode) != "balanced" || Target(sdModel, sdLoaded, sharedModel) == null
               || Target(sdModel, sdLoaded, sharedModel).className in BalancedOffloadExclude) ==>
                !rebuilt && err.None? && live == old(live) && opts.AsSettings() == old(opts.AsSettings())
      ensures rebuilt <==>
                && old(opts.offloadMode) == "balanced"
                && Target(sdModel, sdLoaded, sharedModel) != null
                && Target(sdModel, sdLoaded, sharedModel).className !in BalancedOffloadExclude
                && NeedsRebuild(old(LiveSnapshot()), old(opts.AsSettings()), CheckpointOf(Target(sdModel, sdLoaded, sharedModel)))
      ensures rebuilt ==>
                && live != null && fresh(live)
                && live.Snap() == SnapshotAtInit(CheckpointOf(Target(sdModel, sdLoaded, sharedModel)), old(opts.AsSettings()))
                && opts.AsSettings() == SettingsAfterInit(old(opts.AsSettings()))
      ensures !rebuilt ==> opts.AsSettings() == old(opts.AsSettings())
      ensures !rebuilt && live != null ==> live == old(live)
      ensures err.None? && r != null && old(opts.offloadMode) == "balanced" && r.className !in BalancedOffloadExclude ==>
                r.hasAccelerate && forall m :: m in r.AcceleratedBy() && old(allocated(m)) ==> m.hasAccelerate
    {
      r, rebuilt, err := sdModel, false, None;
      if opts.offloadMode != "balanced" {
        return;
      }
      if r == null {
        if !sdLoaded {
          return;
        }
        r := sharedModel;
      }
      if r == null {
        return;
      }
      if r.className in BalancedOffloadExclude {
        return;
      }
      var checkpoint := CheckpointOf(r);
      rebuilt := EnsureManager(opts, checkpoint, gpuMemory, cpuMemory);
      StagesInModel(r);
      err := live.ApplyStages(r, exclude, usedGpu, gpuMemory, opts.minGpuMemory, failures, execution,
                              modelType, opts.teHijack);
      if err.Some? {
        return;
      }
      SetAccelerate(r);
    }
  }
}
