// A shader's descriptor bookkeeping: the descriptor pool it sizes, the
// descriptor-set layouts and per-frame descriptor sets it allocates, the
// uniform buffers it creates for its uniform-buffer bindings and the
// descriptor writes it hands to the device. Vulkan objects are handles the
// driver hands out from a counter; a binding's hash is the binding itself.
module Shader {
  import opened Wrappers
  import opened ShaderReflection
  import ShaderLayout
  import StringUtil
  import Settings
  import CommandPool
  import ReflectionUtil

  /** One pool size: a descriptor type and how many descriptors of it. */
  datatype PoolSize = PoolSize(descriptorType: nat, descriptorCount: nat)

  /** A descriptor pool: how many sets it holds and its sizes. */
  datatype Pool = Pool(maxSets: nat, sizes: seq<PoolSize>)

  /** One descriptor write: the set written, the binding, the descriptor type
      and the data bound. */
  datatype DescriptorWrite = DescriptorWrite(dstSet: nat, binding: nat, descriptorType: nat, data: nat)

  /** Why a lookup or an update failed (the source throws or asserts). */
  datatype ShaderError =
    | MissingSet(setNumber: nat)
    | NotABuffer(name: string)
    | NoSuchObject(name: string)

  /** A message the shader reports and goes on. */
  datatype Diagnostic = TypeMismatch(name: string, descriptorType: nat)

  /** A pipeline stage of the shader: its stage bit, its module and its entry point. */
  datatype StageCreateInfo = StageCreateInfo(stage: nat, shaderModule: nat, entryName: string)

  /** The descriptor sets of a set number, or none yet. */
  function SetsOf(m: map<nat, seq<nat>>, n: nat): seq<nat> {
    if n in m then m[n] else []
  }

  /** The uniform buffers of a binding, or none yet. */
  function BuffersOf(m: map<Binding, seq<nat>>, b: Binding): seq<nat> {
    if b in m then m[b] else []
  }

  /** The frame an optional index selects: the index, else the current frame. */
  function FrameOf(index: Option<nat>, currentFrame: nat): nat {
    if index.Some? then index.value else currentFrame
  }

  /** The bindings of the first n layouts, in layout and binding order. */
  function AllBindings(layouts: seq<SetLayout>, n: nat): seq<Binding>
    requires n <= |layouts|
  {
    if n == 0 then [] else AllBindings(layouts, n - 1) + layouts[n - 1].bindings
  }

  /** There is one binding in the list per binding of the layouts. */
  lemma {:induction false} AllBindingsCount(layouts: seq<SetLayout>, n: nat)
    requires n <= |layouts|
    ensures |AllBindings(layouts, n)| == ShaderLayout.BindingCount(layouts, n)
  {
    if n > 0 {
      AllBindingsCount(layouts, n - 1);
    }
  }

  /** The pool size that serves a binding in every frame in flight; the
      count is a uint32_t product, so it wraps modulo 2^32. */
  function SizeOf(b: Binding): PoolSize {
    PoolSize(b.descriptorType, (b.descriptorCount * Settings.MaxFramesInFlight) % U32Modulus)
  }

  function SizesOf(bs: seq<Binding>): (r: seq<PoolSize>)
    ensures |r| == |bs|
    ensures forall k :: 0 <= k < |bs| ==> r[k] == SizeOf(bs[k])
  {
    seq(|bs|, k requires 0 <= k < |bs| => SizeOf(bs[k]))
  }

  /** One size per binding of the layouts, in order, each for every frame in flight. */
  method CollectPoolSizes(layouts: seq<SetLayout>) returns (sizes: seq<PoolSize>)
    ensures |sizes| == |AllBindings(layouts, |layouts|)|
    ensures forall k :: 0 <= k < |sizes| ==>
      sizes[k] == PoolSize(AllBindings(layouts, |layouts|)[k].descriptorType,
                           (AllBindings(layouts, |layouts|)[k].descriptorCount * Settings.MaxFramesInFlight) % U32Modulus)
  {
    sizes := [];
    for i := 0 to |layouts|
      invariant sizes == SizesOf(AllBindings(layouts, i))
    {
      ghost var before := AllBindings(layouts, i);
      var bindings := layouts[i].bindings;
      for j := 0 to |bindings|
        invariant sizes == SizesOf(before + bindings[..j])
      {
        assert before + bindings[..j + 1] == (before + bindings[..j]) + [bindings[j]];
        sizes := sizes + [SizeOf(bindings[j])];
      }
      assert bindings[..|bindings|] == bindings;
    }
  }

  /** The handles allocated to the set layouts from start on, by set number. */
  function LayoutHandles(layouts: seq<SetLayout>, start: nat, n: nat): map<nat, nat>
    requires n <= |layouts|
  {
    if n == 0 then map[] else LayoutHandles(layouts, start, n - 1)[layouts[n - 1].setNumber := start + n - 1]
  }

  /** Whether the set numbers of the layouts ascend strictly, as those of merged layouts do. */
  predicate Ascending(layouts: seq<SetLayout>) {
    forall i, j :: 0 <= i < j < |layouts| ==> layouts[i].setNumber < layouts[j].setNumber
  }

  /** Layouts with ascending set numbers get one layout handle per set
      number: the i-th layout's handle is the i-th one handed out. */
  lemma {:induction false} LayoutHandlesPerSet(layouts: seq<SetLayout>, start: nat, n: nat)
    requires n <= |layouts| && Ascending(layouts)
    ensures forall s :: s in LayoutHandles(layouts, start, n) <==> exists i :: 0 <= i < n && layouts[i].setNumber == s
    ensures forall i :: 0 <= i < n ==> LayoutHandles(layouts, start, n)[layouts[i].setNumber] == start + i
  {
    if n > 0 {
      LayoutHandlesPerSet(layouts, start, n - 1);
    }
  }

  /** The layouts list a descriptor-set allocation asks for: each layout once
      per frame in flight, in set-number order. */
  method DuplicateLayouts(keys: seq<nat>, layoutOf: map<nat, nat>) returns (layouts: seq<nat>)
    requires forall i :: 0 <= i < |keys| ==> keys[i] in layoutOf
    ensures |layouts| == |keys| * Settings.MaxFramesInFlight
    ensures forall p :: 0 <= p < |layouts| ==> layouts[p] == layoutOf[keys[p / Settings.MaxFramesInFlight]]
  {
    layouts := [];
    for i := 0 to |keys|
      invariant |layouts| == i * Settings.MaxFramesInFlight
      invariant forall p :: 0 <= p < |layouts| ==> layouts[p] == layoutOf[keys[p / Settings.MaxFramesInFlight]]
    {
      for f := 0 to Settings.MaxFramesInFlight
        invariant |layouts| == i * Settings.MaxFramesInFlight + f
        invariant forall p :: 0 <= p < |layouts| ==> layouts[p] == layoutOf[keys[p / Settings.MaxFramesInFlight]]
      {
        layouts := layouts + [layoutOf[keys[i]]];
      }
    }
  }

  /** The writes of one descriptor write into the set of every frame in flight. */
  method WritesForFrames(sets: seq<nat>, w: DescriptorWrite) returns (writes: seq<DescriptorWrite>)
    requires Settings.MaxFramesInFlight <= |sets|
    ensures |writes| == Settings.MaxFramesInFlight
    ensures forall f :: 0 <= f < |writes| ==> writes[f] == w.(dstSet := sets[f])
  {
    writes := [];
    for f := 0 to Settings.MaxFramesInFlight
      invariant |writes| == f
      invariant forall g :: 0 <= g < f ==> writes[g] == w.(dstSet := sets[g])
    {
      writes := writes + [w.(dstSet := sets[f])];
    }
  }

  /** The stage create info of a shader module: the stage bit of the shader
      type, none for an undefined type, and "main" as the entry point. */
  function CreateShaderStage(t: ReflectionUtil.ShaderType, shaderModule: nat): (r: StageCreateInfo)
    ensures r.shaderModule == shaderModule && r.entryName == "main"
    ensures r.stage == 0 <==> t == ReflectionUtil.UndefinedShader
    ensures t != ReflectionUtil.UndefinedShader ==> r.stage == ReflectionUtil.ToShaderStageFlag(t)
  {
    var stage := match t
      case VertexShader => ReflectionUtil.VkStageVertex
      case FragmentShader => ReflectionUtil.VkStageFragment
      case ComputeShader => ReflectionUtil.VkStageCompute
      case UndefinedShader => 0;
    StageCreateInfo(stage, shaderModule, "main")
  }

  /** The i-th run of descriptor sets handed out from start: one per frame in flight. */
  function FrameRun(start: nat, i: nat): seq<nat> {
    CommandPool.Handles(start + i * Settings.MaxFramesInFlight, Settings.MaxFramesInFlight)
  }

  /** Any two set numbers get disjoint runs of descriptor sets. */
  lemma FrameRunsDisjoint(start: nat, i: nat, j: nat)
    requires i != j
    ensures forall h :: h in FrameRun(start, i) ==> h !in FrameRun(start, j)
  {
    var n := Settings.MaxFramesInFlight;
    forall h | h in FrameRun(start, i)
      ensures h !in FrameRun(start, j)
    {
      if i < j {
        assert h < start + (i + 1) * n <= start + j * n;
      } else {
        assert h >= start + i * n >= start + (j + 1) * n;
      }
    }
  }

  class Shader {
    const shaderLayout: ShaderLayout.Layout
    var descriptorPool: Option<Pool>
    /** The layout handle of each set number. */
    var descriptorSetLayouts: map<nat, nat>
    /** The descriptor sets of each set number, one per frame. */
    var descriptorSets: map<nat, seq<nat>>
    /** The uniform buffers of each uniform-buffer binding, one per frame. */
    var uniformBindingBuffers: map<Binding, seq<nat>>
    /** The batches of descriptor writes handed to the device. */
    var updates: seq<seq<DescriptorWrite>>
    var log: seq<Diagnostic>
    /** The next handle the driver hands out. */
    var nextHandle: nat

    /** What is found under a name in the layout is a binding of that name up to case. */
    ghost predicate Valid()
      reads shaderLayout
    {
      forall k :: k in shaderLayout.namedLayoutBindings ==>
        ShaderLayout.FindsBinding(shaderLayout.setLayouts, k, shaderLayout.namedLayoutBindings[k])
    }

    /** Whether every set number has a descriptor set for each frame in flight. */
    predicate FramesAllocated()
      reads this`descriptorSets
    {
      forall s :: s in descriptorSets ==> Settings.MaxFramesInFlight <= |descriptorSets[s]|
    }

    /** A shader over the layout of these modules, with nothing created yet. */
    constructor (modules: seq<ModuleReflection>)
      ensures Valid()
      ensures descriptorPool == None && descriptorSetLayouts == map[] && descriptorSets == map[]
      ensures uniformBindingBuffers == map[] && updates == [] && log == []
    {
      var layout := new ShaderLayout.Layout(modules);
      shaderLayout := layout;
      descriptorPool := None;
      descriptorSetLayouts := map[];
      descriptorSets := map[];
      uniformBindingBuffers := map[];
      updates := [];
      log := [];
      nextHandle := 0;
    }

    /** The binding named, compared after lower-casing; nothing for an unknown name. */
    function GetNamedBinding(name: string): (r: Option<ShaderLayout.BindingRef>)
      reads shaderLayout
      ensures r.Some? <==> StringUtil.ToLower(name) in shaderLayout.namedLayoutBindings
      ensures r.Some? ==> r.value == shaderLayout.namedLayoutBindings[StringUtil.ToLower(name)]
      ensures r.Some? && Valid() ==>
        ShaderLayout.ValidRef(shaderLayout.setLayouts, r.value) &&
        StringUtil.ToLower(ShaderLayout.BindingAt(shaderLayout.setLayouts, r.value).name) == StringUtil.ToLower(name)
    {
      var lowered := StringUtil.ToLower(name);
      if lowered in shaderLayout.namedLayoutBindings then Some(shaderLayout.namedLayoutBindings[lowered]) else None
    }

    /** Creates the pool: one size per binding for every frame in flight, and
        room for every set layout once per frame in flight, as a uint32_t. */
    method CreateDescriptorPool()
      modifies this`descriptorPool
      ensures descriptorPool.Some?
      ensures descriptorPool.value.maxSets == (|shaderLayout.setLayouts| * Settings.MaxFramesInFlight) % U32Modulus
      ensures |descriptorPool.value.sizes| == |AllBindings(shaderLayout.setLayouts, |shaderLayout.setLayouts|)|
      ensures forall k :: 0 <= k < |descriptorPool.value.sizes| ==>
        descriptorPool.value.sizes[k] == SizeOf(AllBindings(shaderLayout.setLayouts, |shaderLayout.setLayouts|)[k])
    {
      var sizes := CollectPoolSizes(shaderLayout.setLayouts);
      descriptorPool := Some(Pool((|shaderLayout.setLayouts| * Settings.MaxFramesInFlight) % U32Modulus, sizes));
    }

    /** Creates a layout handle for each set layout, stored under its set number. */
    method CreateDescriptorSetLayouts()
      modifies this`descriptorSetLayouts, this`nextHandle
      ensures nextHandle == old(nextHandle) + |shaderLayout.setLayouts|
      ensures descriptorSetLayouts ==
        old(descriptorSetLayouts) + LayoutHandles(shaderLayout.setLayouts, old(nextHandle), |shaderLayout.setLayouts|)
    {
      var layouts := shaderLayout.setLayouts;
      for i := 0 to |layouts|
        invariant nextHandle == old(nextHandle) + i
        invariant descriptorSetLayouts == old(descriptorSetLayouts) + LayoutHandles(layouts, old(nextHandle), i)
      {
        descriptorSetLayouts := descriptorSetLayouts[layouts[i].setNumber := nextHandle];
        nextHandle := nextHandle + 1;
      }
    }

    /** Allocates one descriptor set per set layout and frame in flight; the
        i-th set number in ascending order gets the i-th run of them, appended
        to the sets it already has. */
    method AllocateDescriptorSets()
      modifies this`descriptorSets, this`nextHandle
      ensures nextHandle == old(nextHandle) + |SortedKeys(descriptorSetLayouts.Keys)| * Settings.MaxFramesInFlight
      ensures AllocatedRuns(SortedKeys(descriptorSetLayouts.Keys), old(descriptorSets), descriptorSets, old(nextHandle))
      ensures descriptorSets.Keys == old(descriptorSets).Keys + descriptorSetLayouts.Keys
      ensures forall s :: s in old(descriptorSets) && s !in descriptorSetLayouts ==> descriptorSets[s] == old(descriptorSets)[s]
    {
      var keys := SortedKeys(descriptorSetLayouts.Keys);
      var layouts := DuplicateLayouts(keys, descriptorSetLayouts);
      var handed := CommandPool.Handles(nextHandle, |layouts|);
      ghost var before := descriptorSets;
      descriptorSets := AppendRuns(keys, descriptorSets, nextHandle, handed);
      nextHandle := nextHandle + |layouts|;
      forall s | s in before && s !in descriptorSetLayouts
        ensures descriptorSets[s] == before[s]
      {
        assert s !in keys;
      }
    }

    /** The descriptor set of every set number for the frame, in ascending
        set-number order. */
    method GetDescriptorSets(index: Option<nat>, currentFrame: nat) returns (ds: seq<nat>)
      requires forall s :: s in descriptorSets ==> FrameOf(index, currentFrame) < |descriptorSets[s]|
      ensures |ds| == |SortedKeys(descriptorSets.Keys)| == |descriptorSets|
      ensures forall i :: 0 <= i < |ds| ==>
        ds[i] == descriptorSets[SortedKeys(descriptorSets.Keys)[i]][FrameOf(index, currentFrame)]
    {
      var keys := SortedKeys(descriptorSets.Keys);
      var frame := FrameOf(index, currentFrame);
      ds := [];
      for i := 0 to |keys|
        invariant |ds| == i
        invariant forall q :: 0 <= q < i ==> ds[q] == descriptorSets[keys[q]][frame]
      {
        ds := ds + [descriptorSets[keys[i]][frame]];
      }
      SortedKeysCount(descriptorSets.Keys);
    }

    /** Hands a descriptor write to the device: into the set of the given
        frame, or as one batch into the sets of every frame in flight. A set
        number without descriptor sets is an error. */
    method UpdateDescriptorSets(w: DescriptorWrite, setNumber: nat, index: Option<nat>) returns (r: Result<(), ShaderError>)
      requires setNumber in descriptorSets && index.Some? ==> index.value < |descriptorSets[setNumber]|
      requires setNumber in descriptorSets && index.None? ==> Settings.MaxFramesInFlight <= |descriptorSets[setNumber]|
      modifies this`updates
      ensures setNumber !in descriptorSets ==> r == Err(MissingSet(setNumber)) && updates == old(updates)
      ensures setNumber in descriptorSets && index.Some? ==>
        r.Ok? && updates == old(updates) + [[w.(dstSet := descriptorSets[setNumber][index.value])]]
      ensures setNumber in descriptorSets && index.None? ==>
        r.Ok? && |updates| == |old(updates)| + 1 && updates[..|old(updates)|] == old(updates) &&
        |updates[|old(updates)|]| == Settings.MaxFramesInFlight &&
        (forall f :: 0 <= f < Settings.MaxFramesInFlight ==>
           updates[|old(updates)|][f] == w.(dstSet := descriptorSets[setNumber][f]))
    {
      if setNumber !in descriptorSets {
        return Err(MissingSet(setNumber));
      }
      if index.Some? {
        updates := updates + [[w.(dstSet := descriptorSets[setNumber][index.value])]];
      } else {
        var writes := WritesForFrames(descriptorSets[setNumber], w);
        updates := updates + [writes];
      }
      r := Ok(());
    }

    /** Binds data to a binding: a binding of another descriptor type is
        reported, then the write goes to the binding's set. */
    method BindShaderUniformToBinding(b: Binding, data: nat, dataType: nat, index: Option<nat>)
      returns (r: Result<(), ShaderError>)
      requires b.info.setIndex in descriptorSets && index.Some? ==> index.value < |descriptorSets[b.info.setIndex]|
      requires b.info.setIndex in descriptorSets && index.None? ==>
        Settings.MaxFramesInFlight <= |descriptorSets[b.info.setIndex]|
      modifies this`updates, this`log
      ensures log == old(log) + (if b.descriptorType != dataType then [TypeMismatch(b.name, dataType)] else [])
      ensures b.info.setIndex !in descriptorSets ==> r == Err(MissingSet(b.info.setIndex)) && updates == old(updates)
      ensures b.info.setIndex in descriptorSets && index.Some? ==>
        r.Ok? && updates == old(updates) +
          [[DescriptorWrite(descriptorSets[b.info.setIndex][index.value], b.binding, dataType, data)]]
      ensures b.info.setIndex in descriptorSets && index.None? ==>
        r.Ok? && |updates| == |old(updates)| + 1 && updates[..|old(updates)|] == old(updates) &&
        |updates[|old(updates)|]| == Settings.MaxFramesInFlight &&
        (forall f :: 0 <= f < Settings.MaxFramesInFlight ==>
           updates[|old(updates)|][f] == DescriptorWrite(descriptorSets[b.info.setIndex][f], b.binding, dataType, data))
    {
      if b.descriptorType != dataType {
        log := log + [TypeMismatch(b.name, dataType)];
      }
      r := UpdateDescriptorSets(DescriptorWrite(0, b.binding, dataType, data), b.info.setIndex, index);
    }

    /** Binds data to the binding of the name; an unknown name gives nothing. */
    method BindShaderUniform(name: string, data: nat, dataType: nat, index: Option<nat>)
      returns (found: Option<ShaderLayout.BindingRef>, r: Result<(), ShaderError>)
      requires Valid()
      requires index.Some? ==> forall s :: s in descriptorSets ==> index.value < |descriptorSets[s]|
      requires index.None? ==> FramesAllocated()
      modifies this`updates, this`log
      ensures found == GetNamedBinding(name)
      ensures found.None? ==> r.Ok? && updates == old(updates) && log == old(log)
      ensures found.Some? ==>
        var b := ShaderLayout.BindingAt(shaderLayout.setLayouts, found.value);
        log == old(log) + (if b.descriptorType != dataType then [TypeMismatch(b.name, dataType)] else []) &&
        (b.info.setIndex !in descriptorSets ==> r == Err(MissingSet(b.info.setIndex)) && updates == old(updates)) &&
        (b.info.setIndex in descriptorSets && index.Some? ==>
           r.Ok? && updates == old(updates) +
             [[DescriptorWrite(descriptorSets[b.info.setIndex][index.value], b.binding, dataType, data)]]) &&
        (b.info.setIndex in descriptorSets && index.None? ==>
           r.Ok? && |updates| == |old(updates)| + 1 && updates[..|old(updates)|] == old(updates) &&
           |updates[|old(updates)|]| == Settings.MaxFramesInFlight &&
           (forall f :: 0 <= f < Settings.MaxFramesInFlight ==>
              updates[|old(updates)|][f] == DescriptorWrite(descriptorSets[b.info.setIndex][f], b.binding, dataType, data)))
    {
      found := GetNamedBinding(name);
      r := Ok(());
      if found.Some? {
        var b := ShaderLayout.BindingAt(shaderLayout.setLayouts, found.value);
        r := BindShaderUniformToBinding(b, data, dataType, index);
      }
    }

    /** Creates, for each uniform-buffer binding of the layout, one uniform
        buffer per frame in flight, appended to the binding's buffers, and
        binds the f-th to the binding's descriptor set of frame f. The
        bindings are visited in no particular order; a binding whose set
        number has no descriptor sets stops the creation with an error. */
    method CreateUniformBuffers() returns (r: Result<(), ShaderError>)
      requires Valid() && FramesAllocated()
      modifies this`uniformBindingBuffers, this`nextHandle, this`updates, this`log
      ensures nextHandle >= old(nextHandle)
      ensures r.Ok? ==> forall b :: b in UniformBindings() ==>
        GotBuffers(b, old(uniformBindingBuffers), uniformBindingBuffers, descriptorSets, old(nextHandle), updates)
      ensures r.Ok? ==> forall b :: b !in UniformBindings() ==>
        (b in uniformBindingBuffers <==> b in old(uniformBindingBuffers)) &&
        BuffersOf(uniformBindingBuffers, b) == BuffersOf(old(uniformBindingBuffers), b)
      ensures r.Ok? ==> log == old(log)
      ensures r.Err? ==>
        exists b :: b in UniformBindings() && r == Err(MissingSet(b.info.setIndex)) && b.info.setIndex !in descriptorSets
      ensures (forall b :: b in UniformBindings() ==> b.info.setIndex in descriptorSets) ==> r.Ok?
    {
      var named := shaderLayout.namedLayoutBindings;
      var layouts := shaderLayout.setLayouts;
      ghost var before := uniformBindingBuffers;
      ghost var start := nextHandle;
      var todo := named.Keys;
      r := Ok(());
      while todo != {}
        invariant todo <= named.Keys
        invariant nextHandle >= start && log == old(log) && r.Ok?
        invariant Created(UniformOf(named, layouts, named.Keys - todo), before, uniformBindingBuffers,
                          descriptorSets, start, updates)
        decreases todo
      {
        var k :| k in todo;
        ghost var b := ShaderLayout.BindingAt(layouts, named[k]);
        ghost var current := uniformBindingBuffers;
        ghost var h := nextHandle;
        ghost var writes := updates;
        r := CreateBindingBuffers(k);
        if r.Err? {
          assert b.descriptorType == ReflectionUtil.DescriptorUniformBuffer && b.info.setIndex !in descriptorSets;
          assert b in UniformOf(named, layouts, named.Keys);
          assert b in UniformBindings() && r == Err(MissingSet(b.info.setIndex));
          return;
        }
        CreatedBinding(named, layouts, todo, k, before, current, uniformBindingBuffers, descriptorSets,
                       start, writes, updates, h);
        todo := todo - {k};
      }
      UniformOfAll(named, layouts);
    }

    /** The bindings of the layout that are uniform buffers. */
    ghost function UniformBindings(): set<Binding>
      requires Valid()
      reads shaderLayout
    {
      UniformOf(shaderLayout.namedLayoutBindings, shaderLayout.setLayouts, shaderLayout.namedLayoutBindings.Keys)
    }

    /** Creates the uniform buffers of the binding found under k, when it is a
        uniform buffer, and binds each to the descriptor set of its frame. */
    method CreateBindingBuffers(k: string) returns (r: Result<(), ShaderError>)
      requires Valid() && FramesAllocated()
      requires k in shaderLayout.namedLayoutBindings
      modifies this`uniformBindingBuffers, this`nextHandle, this`updates, this`log
      ensures log == old(log)
      ensures var b := ShaderLayout.BindingAt(shaderLayout.setLayouts, shaderLayout.namedLayoutBindings[k]);
        (b.descriptorType != ReflectionUtil.DescriptorUniformBuffer ==>
           r.Ok? && uniformBindingBuffers == old(uniformBindingBuffers) && nextHandle == old(nextHandle) &&
           updates == old(updates)) &&
        (b.descriptorType == ReflectionUtil.DescriptorUniformBuffer && b.info.setIndex !in descriptorSets ==>
           r == Err(MissingSet(b.info.setIndex)) && nextHandle >= old(nextHandle)) &&
        (b.descriptorType == ReflectionUtil.DescriptorUniformBuffer && b.info.setIndex in descriptorSets ==>
           r.Ok? && nextHandle == old(nextHandle) + Settings.MaxFramesInFlight &&
           uniformBindingBuffers == old(uniformBindingBuffers)[b :=
             BuffersOf(old(uniformBindingBuffers), b) + CommandPool.Handles(old(nextHandle), Settings.MaxFramesInFlight)] &&
           updates == old(updates) + BufferWrites(descriptorSets[b.info.setIndex], b, old(nextHandle)))
    {
      var b := ShaderLayout.BindingAt(shaderLayout.setLayouts, shaderLayout.namedLayoutBindings[k]);
      r := Ok(());
      if b.descriptorType != ReflectionUtil.DescriptorUniformBuffer {
        return;
      }
      r := CreateFrameBuffers(k, b);
    }

    /** Creates the uniform buffer of each frame in flight for uniform-buffer
        binding b, found under k, stopping at the first that cannot be bound. */
    method CreateFrameBuffers(k: string, b: Binding) returns (r: Result<(), ShaderError>)
      requires Valid() && FramesAllocated()
      requires k in shaderLayout.namedLayoutBindings
      requires b == ShaderLayout.BindingAt(shaderLayout.setLayouts, shaderLayout.namedLayoutBindings[k])
      requires b.descriptorType == ReflectionUtil.DescriptorUniformBuffer
      modifies this`uniformBindingBuffers, this`nextHandle, this`updates, this`log
      ensures log == old(log)
      ensures b.info.setIndex !in descriptorSets ==> r == Err(MissingSet(b.info.setIndex)) && nextHandle >= old(nextHandle)
      ensures b.info.setIndex in descriptorSets ==>
        r.Ok? && nextHandle == old(nextHandle) + Settings.MaxFramesInFlight &&
        uniformBindingBuffers == old(uniformBindingBuffers)[b :=
          BuffersOf(old(uniformBindingBuffers), b) + CommandPool.Handles(old(nextHandle), Settings.MaxFramesInFlight)] &&
        updates == old(updates) + BufferWrites(descriptorSets[b.info.setIndex], b, old(nextHandle))
    {
      r := Ok(());
      uniformBindingBuffers := uniformBindingBuffers[b := BuffersOf(uniformBindingBuffers, b)];
      assert BuffersOf(old(uniformBindingBuffers), b) + CommandPool.Handles(old(nextHandle), 0) ==
        BuffersOf(old(uniformBindingBuffers), b);
      for i := 0 to Settings.MaxFramesInFlight
        invariant nextHandle == old(nextHandle) + i && log == old(log)
        invariant uniformBindingBuffers == old(uniformBindingBuffers)[b :=
          BuffersOf(old(uniformBindingBuffers), b) + CommandPool.Handles(old(nextHandle), i)]
        invariant b.info.setIndex in descriptorSets || i == 0
        invariant b.info.setIndex in descriptorSets ==>
          updates == old(updates) + BufferWrites(descriptorSets[b.info.setIndex], b, old(nextHandle))[..i]
      {
        ghost var pre := uniformBindingBuffers;
        var bound := CreateFrameBuffer(k, b, i);
        if bound.Err? {
          return bound;
        }
        ExtendBuffers(old(uniformBindingBuffers), pre, uniformBindingBuffers, b, old(nextHandle), i);
        ExtendWrites(old(updates), descriptorSets[b.info.setIndex], b, old(nextHandle), i);
      }
      if b.info.setIndex in descriptorSets {
        assert BufferWrites(descriptorSets[b.info.setIndex], b, old(nextHandle))[..Settings.MaxFramesInFlight] ==
          BufferWrites(descriptorSets[b.info.setIndex], b, old(nextHandle));
      }
    }

    /** Creates the uniform buffer of frame i for uniform-buffer binding b,
        found under k, appends it to b's buffers and binds it to b's
        descriptor set of frame i. */
    method CreateFrameBuffer(k: string, b: Binding, i: nat) returns (r: Result<(), ShaderError>)
      requires Valid() && FramesAllocated() && i < Settings.MaxFramesInFlight
      requires k in shaderLayout.namedLayoutBindings
      requires b == ShaderLayout.BindingAt(shaderLayout.setLayouts, shaderLayout.namedLayoutBindings[k])
      requires b.descriptorType == ReflectionUtil.DescriptorUniformBuffer
      modifies this`uniformBindingBuffers, this`nextHandle, this`updates, this`log
      ensures log == old(log) && nextHandle == old(nextHandle) + 1
      ensures uniformBindingBuffers == old(uniformBindingBuffers)[b := BuffersOf(old(uniformBindingBuffers), b) + [old(nextHandle)]]
      ensures b.info.setIndex !in descriptorSets ==> r == Err(MissingSet(b.info.setIndex)) && updates == old(updates)
      ensures b.info.setIndex in descriptorSets ==>
        r.Ok? && updates == old(updates) +
          [[DescriptorWrite(descriptorSets[b.info.setIndex][i], b.binding, ReflectionUtil.DescriptorUniformBuffer, old(nextHandle))]]
    {
      assert GetNamedBinding(b.name) == Some(shaderLayout.namedLayoutBindings[k]);
      var buffer := nextHandle;
      nextHandle := nextHandle + 1;
      uniformBindingBuffers := uniformBindingBuffers[b := BuffersOf(uniformBindingBuffers, b) + [buffer]];
      var _, bound := BindShaderUniform(b.name, buffer, ReflectionUtil.DescriptorUniformBuffer, Some(i));
      r := bound;
    }

    /** The uniform buffer of the named binding for the frame. A binding
        without uniform buffers and an unknown name are errors. */
    function GetUniformBuffer(name: string, index: Option<nat>, currentFrame: nat): (r: Result<nat, ShaderError>)
      requires Valid()
      requires forall b :: b in uniformBindingBuffers ==> FrameOf(index, currentFrame) < |uniformBindingBuffers[b]|
      reads this, shaderLayout
      ensures r == Err(NoSuchObject(name)) <==> GetNamedBinding(name).None?
      ensures GetNamedBinding(name).Some? ==>
        var b := ShaderLayout.BindingAt(shaderLayout.setLayouts, GetNamedBinding(name).value);
        (b !in uniformBindingBuffers ==> r == Err(NotABuffer(name))) &&
        (b in uniformBindingBuffers ==> r == Ok(uniformBindingBuffers[b][FrameOf(index, currentFrame)]))
    {
      match GetNamedBinding(name)
      case None => Err(NoSuchObject(name))
      case Some(ref) =>
        var b := ShaderLayout.BindingAt(shaderLayout.setLayouts, ref);
        if b in uniformBindingBuffers then Ok(uniformBindingBuffers[b][FrameOf(index, currentFrame)])
        else Err(NotABuffer(name))
    }
  }

  /** Whether each of the set numbers, the i-th in order, has gained the i-th
      run of descriptor sets handed out from start. */
  ghost predicate AllocatedRuns(keys: seq<nat>, before: map<nat, seq<nat>>, after: map<nat, seq<nat>>, start: nat) {
    forall i :: 0 <= i < |keys| ==>
      keys[i] in after && after[keys[i]] == SetsOf(before, keys[i]) + FrameRun(start, i)
  }

  /** Whether each of the set numbers has gained its run, the set numbers
      gained are those, and every other set number keeps its sets. */
  ghost predicate AppendedUpTo(keys: seq<nat>, before: map<nat, seq<nat>>, after: map<nat, seq<nat>>, start: nat) {
    AllocatedRuns(keys, before, after, start) &&
    (forall s :: s in after <==> s in before || s in keys) &&
    (forall s :: s in before && s !in keys ==> after[s] == before[s])
  }

  /** Appends to the sets of the i-th set number the i-th run of the
      handed-out sets. */
  method AppendRuns(keys: seq<nat>, sets: map<nat, seq<nat>>, start: nat, handed: seq<nat>)
    returns (after: map<nat, seq<nat>>)
    requires forall p, q :: 0 <= p < q < |keys| ==> keys[p] < keys[q]
    requires handed == CommandPool.Handles(start, |keys| * Settings.MaxFramesInFlight)
    ensures AllocatedRuns(keys, sets, after, start)
    ensures forall s :: s in after <==> s in sets || s in keys
    ensures forall s :: s in sets && s !in keys ==> after[s] == sets[s]
  {
    after := sets;
    for i := 0 to |keys|
      invariant AppendedUpTo(keys[..i], sets, after, start)
    {
      AppendRunStep(keys, sets, after, start, handed, i);
      after := after[keys[i] := SetsOf(after, keys[i]) +
                       handed[i * Settings.MaxFramesInFlight..i * Settings.MaxFramesInFlight + Settings.MaxFramesInFlight]];
    }
    assert keys[..|keys|] == keys;
  }

  /** Appending the i-th run to the i-th set number keeps AppendRuns' loop
      invariants for one more set number. */
  lemma AppendRunStep(keys: seq<nat>, sets: map<nat, seq<nat>>, after: map<nat, seq<nat>>, start: nat,
                      handed: seq<nat>, i: nat)
    requires i < |keys|
    requires forall p, q :: 0 <= p < q < |keys| ==> keys[p] < keys[q]
    requires handed == CommandPool.Handles(start, |keys| * Settings.MaxFramesInFlight)
    requires AppendedUpTo(keys[..i], sets, after, start)
    ensures i * Settings.MaxFramesInFlight + Settings.MaxFramesInFlight <= |handed|
    ensures AppendedUpTo(keys[..i + 1], sets, after[keys[i] := SetsOf(after, keys[i]) +
      handed[i * Settings.MaxFramesInFlight..i * Settings.MaxFramesInFlight + Settings.MaxFramesInFlight]], start)
  {
    FrameRunSlice(start, |keys|, i);
    assert keys[i] !in keys[..i];
    AllocatedRunsStep(keys, i, sets, after, start);
    assert keys[..i + 1] == keys[..i] + [keys[i]];
  }

  /** The write batches binding buffers start, start + 1, ... to a binding in
      the descriptor sets of frames 0, 1, ... */
  function BufferWrites(sets: seq<nat>, b: Binding, start: nat): (r: seq<seq<DescriptorWrite>>)
    requires Settings.MaxFramesInFlight <= |sets|
    ensures |r| == Settings.MaxFramesInFlight
    ensures forall f :: 0 <= f < |r| ==>
      r[f] == [DescriptorWrite(sets[f], b.binding, ReflectionUtil.DescriptorUniformBuffer, start + f)]
  {
    seq(Settings.MaxFramesInFlight, f requires 0 <= f < Settings.MaxFramesInFlight =>
      [DescriptorWrite(sets[f], b.binding, ReflectionUtil.DescriptorUniformBuffer, start + f)])
  }

  /** The uniform-buffer bindings found under the given names. */
  ghost function UniformOf(named: map<string, ShaderLayout.BindingRef>, layouts: seq<SetLayout>, keys: set<string>): set<Binding>
    requires forall k :: k in named ==> ShaderLayout.ValidRef(layouts, named[k]) && ShaderLayout.FindsBinding(layouts, k, named[k])
  {
    set k | k in keys && k in named &&
      ShaderLayout.BindingAt(layouts, named[k]).descriptorType == ReflectionUtil.DescriptorUniformBuffer ::
      ShaderLayout.BindingAt(layouts, named[k])
  }

  lemma UniformOfStep(named: map<string, ShaderLayout.BindingRef>, layouts: seq<SetLayout>, keys: set<string>, k: string)
    requires forall k :: k in named ==> ShaderLayout.ValidRef(layouts, named[k]) && ShaderLayout.FindsBinding(layouts, k, named[k])
    requires k in named
    ensures UniformOf(named, layouts, keys + {k}) == UniformOf(named, layouts, keys) +
      if ShaderLayout.BindingAt(layouts, named[k]).descriptorType == ReflectionUtil.DescriptorUniformBuffer
      then {ShaderLayout.BindingAt(layouts, named[k])} else {}
  {
  }

  lemma UniformOfAll(named: map<string, ShaderLayout.BindingRef>, layouts: seq<SetLayout>)
    requires forall k :: k in named ==> ShaderLayout.ValidRef(layouts, named[k]) && ShaderLayout.FindsBinding(layouts, k, named[k])
    ensures UniformOf(named, layouts, named.Keys - {}) == UniformOf(named, layouts, named.Keys)
  {
    assert named.Keys - {} == named.Keys;
  }

  /** The binding found under a name is none of those found under other names:
      their lower-cased names differ. */
  lemma DistinctNamesDistinctBindings(named: map<string, ShaderLayout.BindingRef>, layouts: seq<SetLayout>,
                                      keys: set<string>, k: string)
    requires forall k :: k in named ==> ShaderLayout.ValidRef(layouts, named[k]) && ShaderLayout.FindsBinding(layouts, k, named[k])
    requires k in named && k !in keys
    ensures ShaderLayout.BindingAt(layouts, named[k]) !in UniformOf(named, layouts, keys)
  {
  }

  /** Visiting the binding found under k keeps the bookkeeping of
      CreateUniformBuffers: a uniform buffer gains its buffers and writes,
      any other binding changes nothing. */
  lemma CreatedBinding(named: map<string, ShaderLayout.BindingRef>, layouts: seq<SetLayout>, todo: set<string>, k: string,
                       before: map<Binding, seq<nat>>, current: map<Binding, seq<nat>>, after: map<Binding, seq<nat>>,
                       sets: map<nat, seq<nat>>, start: nat, writes: seq<seq<DescriptorWrite>>,
                       writes': seq<seq<DescriptorWrite>>, h: nat)
    requires forall k :: k in named ==> ShaderLayout.ValidRef(layouts, named[k]) && ShaderLayout.FindsBinding(layouts, k, named[k])
    requires todo <= named.Keys && k in todo
    requires Created(UniformOf(named, layouts, named.Keys - todo), before, current, sets, start, writes)
    requires var b := ShaderLayout.BindingAt(layouts, named[k]);
      (b.descriptorType != ReflectionUtil.DescriptorUniformBuffer ==> after == current && writes' == writes) &&
      (b.descriptorType == ReflectionUtil.DescriptorUniformBuffer ==>
         h >= start && b.info.setIndex in sets && Settings.MaxFramesInFlight <= |sets[b.info.setIndex]| &&
         after == current[b := BuffersOf(current, b) + CommandPool.Handles(h, Settings.MaxFramesInFlight)] &&
         writes' == writes + BufferWrites(sets[b.info.setIndex], b, h))
    ensures Created(UniformOf(named, layouts, named.Keys - (todo - {k})), before, after, sets, start, writes')
  {
    var b := ShaderLayout.BindingAt(layouts, named[k]);
    DistinctNamesDistinctBindings(named, layouts, named.Keys - todo, k);
    if b.descriptorType == ReflectionUtil.DescriptorUniformBuffer {
      CreatedStep(UniformOf(named, layouts, named.Keys - todo), b, before, current, sets, start, writes, h);
    }
    UniformOfStep(named, layouts, named.Keys - todo, k);
    assert named.Keys - (todo - {k}) == (named.Keys - todo) + {k};
  }

  /** Whether binding b has gained one buffer per frame in flight, each handed
      out from start on and bound to b's descriptor set of its frame. */
  ghost predicate GotBuffers(b: Binding, before: map<Binding, seq<nat>>, after: map<Binding, seq<nat>>,
                             sets: map<nat, seq<nat>>, start: nat, writes: seq<seq<DescriptorWrite>>)
  {
    var old_ := BuffersOf(before, b);
    b in after && b.info.setIndex in sets && Settings.MaxFramesInFlight <= |sets[b.info.setIndex]| &&
    |after[b]| == |old_| + Settings.MaxFramesInFlight && after[b][..|old_|] == old_ &&
    forall f :: 0 <= f < Settings.MaxFramesInFlight ==>
      after[b][|old_|..][f] >= start &&
      [DescriptorWrite(sets[b.info.setIndex][f], b.binding, ReflectionUtil.DescriptorUniformBuffer, after[b][|old_|..][f])] in writes
  }

  /** Whether the bindings in done have their buffers and every other binding
      has the buffers it had. */
  ghost predicate Created(done: set<Binding>, before: map<Binding, seq<nat>>, after: map<Binding, seq<nat>>,
                          sets: map<nat, seq<nat>>, start: nat, writes: seq<seq<DescriptorWrite>>)
  {
    (forall b :: b in done ==> GotBuffers(b, before, after, sets, start, writes)) &&
    (forall b :: b !in done ==> (b in after <==> b in before) && BuffersOf(after, b) == BuffersOf(before, b))
  }

  lemma CreatedStep(done: set<Binding>, b: Binding, before: map<Binding, seq<nat>>, after: map<Binding, seq<nat>>,
                    sets: map<nat, seq<nat>>, start: nat, writes: seq<seq<DescriptorWrite>>, h: nat)
    requires Created(done, before, after, sets, start, writes)
    requires b !in done && h >= start
    requires b.info.setIndex in sets && Settings.MaxFramesInFlight <= |sets[b.info.setIndex]|
    ensures Created(done + {b}, before,
      after[b := BuffersOf(after, b) + CommandPool.Handles(h, Settings.MaxFramesInFlight)],
      sets, start, writes + BufferWrites(sets[b.info.setIndex], b, h))
  {
    var after' := after[b := BuffersOf(after, b) + CommandPool.Handles(h, Settings.MaxFramesInFlight)];
    var more := BufferWrites(sets[b.info.setIndex], b, h);
    GotBuffersNew(b, before, after, sets, start, writes, h);
    forall c | c in done ensures GotBuffers(c, before, after', sets, start, writes + more) {
      GotBuffersKept(c, before, after, after', sets, start, writes, more);
    }
  }

  /** A binding that gains its buffers from h on has got them. */
  lemma GotBuffersNew(b: Binding, before: map<Binding, seq<nat>>, after: map<Binding, seq<nat>>,
                      sets: map<nat, seq<nat>>, start: nat, writes: seq<seq<DescriptorWrite>>, h: nat)
    requires BuffersOf(after, b) == BuffersOf(before, b) && h >= start
    requires b.info.setIndex in sets && Settings.MaxFramesInFlight <= |sets[b.info.setIndex]|
    ensures GotBuffers(b, before, after[b := BuffersOf(after, b) + CommandPool.Handles(h, Settings.MaxFramesInFlight)],
      sets, start, writes + BufferWrites(sets[b.info.setIndex], b, h))
  {
    var after' := after[b := BuffersOf(after, b) + CommandPool.Handles(h, Settings.MaxFramesInFlight)];
    var writes' := writes + BufferWrites(sets[b.info.setIndex], b, h);
    var old_ := BuffersOf(before, b);
    forall f | 0 <= f < Settings.MaxFramesInFlight
      ensures after'[b][|old_|..][f] >= start
      ensures [DescriptorWrite(sets[b.info.setIndex][f], b.binding, ReflectionUtil.DescriptorUniformBuffer,
                               after'[b][|old_|..][f])] in writes'
    {
      assert after'[b][|old_|..][f] == h + f;
      assert writes'[|writes| + f] == BufferWrites(sets[b.info.setIndex], b, h)[f];
    }
  }

  /** A binding that has got its buffers keeps them while others gain theirs. */
  lemma GotBuffersKept(c: Binding, before: map<Binding, seq<nat>>, after: map<Binding, seq<nat>>,
                       after': map<Binding, seq<nat>>, sets: map<nat, seq<nat>>, start: nat,
                       writes: seq<seq<DescriptorWrite>>, more: seq<seq<DescriptorWrite>>)
    requires GotBuffers(c, before, after, sets, start, writes)
    requires c in after' && after'[c] == after[c]
    ensures GotBuffers(c, before, after', sets, start, writes + more)
  {
    assert after'[c][|BuffersOf(before, c)|..] == after[c][|BuffersOf(before, c)|..];
  }

  /** One more handle extends the handles a binding has gained. */
  lemma ExtendBuffers(m: map<Binding, seq<nat>>, pre: map<Binding, seq<nat>>, post: map<Binding, seq<nat>>,
                      b: Binding, start: nat, i: nat)
    requires pre == m[b := BuffersOf(m, b) + CommandPool.Handles(start, i)]
    requires post == pre[b := BuffersOf(pre, b) + [start + i]]
    ensures post == m[b := BuffersOf(m, b) + CommandPool.Handles(start, i + 1)]
  {
    var gained := BuffersOf(m, b) + CommandPool.Handles(start, i);
    assert BuffersOf(pre, b) == gained;
    assert CommandPool.Handles(start, i + 1) == CommandPool.Handles(start, i) + [start + i];
    assert gained + [start + i] == BuffersOf(m, b) + CommandPool.Handles(start, i + 1);
  }

  /** One more frame extends the writes binding a binding's buffers. */
  lemma ExtendWrites(writes: seq<seq<DescriptorWrite>>, sets: seq<nat>, b: Binding, start: nat, i: nat)
    requires Settings.MaxFramesInFlight <= |sets| && i < Settings.MaxFramesInFlight
    ensures (writes + BufferWrites(sets, b, start)[..i]) +
      [[DescriptorWrite(sets[i], b.binding, ReflectionUtil.DescriptorUniformBuffer, start + i)]] ==
      writes + BufferWrites(sets, b, start)[..i + 1]
  {
    var w := BufferWrites(sets, b, start);
    assert w[..i + 1] == w[..i] + [w[i]];
  }

  /** The i-th run is the slice of the handed-out sets the i-th set number takes. */
  lemma FrameRunSlice(start: nat, count: nat, i: nat)
    requires i < count
    ensures i * Settings.MaxFramesInFlight + Settings.MaxFramesInFlight <= count * Settings.MaxFramesInFlight
    ensures CommandPool.Handles(start, count * Settings.MaxFramesInFlight)
      [i * Settings.MaxFramesInFlight..i * Settings.MaxFramesInFlight + Settings.MaxFramesInFlight] == FrameRun(start, i)
  {
  }

  lemma AllocatedRunsStep(keys: seq<nat>, i: nat, before: map<nat, seq<nat>>, sets: map<nat, seq<nat>>, start: nat)
    requires i < |keys|
    requires forall p, q :: 0 <= p < q < |keys| ==> keys[p] < keys[q]
    requires AllocatedRuns(keys[..i], before, sets, start)
    requires SetsOf(sets, keys[i]) == SetsOf(before, keys[i])
    ensures AllocatedRuns(keys[..i + 1], before, sets[keys[i] := SetsOf(sets, keys[i]) + FrameRun(start, i)], start)
  {
  }

  /** SortedKeys lists each element of the set once. */
  lemma {:induction false} SortedKeysCount(s: set<nat>)
    ensures |SortedKeys(s)| == |s|
    decreases s
  {
    if s != {} {
      SortedKeysCount(s - {Min(s)});
    }
  }
}
