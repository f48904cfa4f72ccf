// The material registry and its pending uniform updates. A uniform update of
// a material's binding is bound once per frame until it has been bound for
// every frame in flight, then dropped. Materials, shaders, bindings and
// uniforms are opaque handles.
module MaterialManager {
  import opened Wrappers
  import Settings

  /** A pending update: how many frames it has been bound for, and the uniform. */
  datatype UniformUpdate = UniformUpdate(framesUpdated: nat, uniform: nat)

  /** One call binding a uniform of a material's binding for this frame. */
  datatype Bind = Bind(material: nat, binding: nat, uniform: nat)

  /** Why a lookup failed. */
  datatype LookupError = OutOfRange(name: string)

  /** One frame's step for one update: dropped once bound for every frame in
      flight, else bound and counted. */
  function StepEntry(e: UniformUpdate): (r: Option<UniformUpdate>)
    ensures r.None? <==> e.framesUpdated >= Settings.MaxFramesInFlight
    ensures r.Some? ==> r.value == UniformUpdate(e.framesUpdated + 1, e.uniform)
  {
    if e.framesUpdated >= Settings.MaxFramesInFlight then None
    else Some(UniformUpdate(e.framesUpdated + 1, e.uniform))
  }

  /** Whether the update is bound at this frame's step. */
  predicate IsDue(e: UniformUpdate) {
    e.framesUpdated < Settings.MaxFramesInFlight
  }

  /** One frame's step for the updates of one material. */
  function StepBindings(inner: map<nat, UniformUpdate>): (r: map<nat, UniformUpdate>)
    ensures forall b :: b in r <==> b in inner && StepEntry(inner[b]).Some?
    ensures forall b :: b in r ==> r[b] == StepEntry(inner[b]).value
  {
    map b | b in inner && IsDue(inner[b]) :: UniformUpdate(inner[b].framesUpdated + 1, inner[b].uniform)
  }

  /** One frame's step for every material's updates. */
  function StepAll(updates: map<nat, map<nat, UniformUpdate>>): (r: map<nat, map<nat, UniformUpdate>>)
    ensures r.Keys == updates.Keys
    ensures forall m :: m in r ==> r[m] == StepBindings(updates[m])
  {
    map m | m in updates :: StepBindings(updates[m])
  }

  /** Whether this frame's step binds x. */
  predicate Due(updates: map<nat, map<nat, UniformUpdate>>, x: Bind) {
    x.material in updates && x.binding in updates[x.material] &&
    IsDue(updates[x.material][x.binding]) && updates[x.material][x.binding].uniform == x.uniform
  }

  /** Whether stepping the updates inner of material m binds x. */
  predicate DueIn(m: nat, inner: map<nat, UniformUpdate>, x: Bind) {
    x.material == m && x.binding in inner && IsDue(inner[x.binding]) && inner[x.binding].uniform == x.uniform
  }

  /** The updates of one material with the bindings outside todo already stepped. */
  function PartlyStepped(inner: map<nat, UniformUpdate>, todo: set<nat>): map<nat, UniformUpdate> {
    map b | b in inner && (b in todo || IsDue(inner[b])) ::
      if b in todo then inner[b] else UniformUpdate(inner[b].framesUpdated + 1, inner[b].uniform)
  }

  /** The life of one update over k frames: what is left of it and how many
      times it was bound. */
  function Life(e: Option<UniformUpdate>, k: nat): (Option<UniformUpdate>, nat)
    decreases k
  {
    if k == 0 then (e, 0)
    else
      var (left, bound) := Life(e, k - 1);
      match left
      case None => (None, bound)
      case Some(u) => (StepEntry(u), bound + if IsDue(u) then 1 else 0)
  }

  /** A fresh update is bound once in each of the first k frames, for k up
      to the number of frames in flight. */
  lemma {:induction false} FreshUpdateEarlyLife(uniform: nat, k: nat)
    requires k <= Settings.MaxFramesInFlight
    ensures Life(Some(UniformUpdate(0, uniform)), k) == (Some(UniformUpdate(k, uniform)), k)
  {
    if k > 0 {
      FreshUpdateEarlyLife(uniform, k - 1);
    }
  }

  /** A fresh update is bound exactly once per frame in flight: after any later
      frame it is gone and was bound exactly that many times. */
  lemma {:induction false} FreshUpdateBoundMaxTimes(uniform: nat, k: nat)
    requires k > Settings.MaxFramesInFlight
    ensures Life(Some(UniformUpdate(0, uniform)), k) == (None, Settings.MaxFramesInFlight)
    decreases k
  {
    if k == Settings.MaxFramesInFlight + 1 {
      FreshUpdateEarlyLife(uniform, Settings.MaxFramesInFlight);
    } else {
      FreshUpdateBoundMaxTimes(uniform, k - 1);
    }
  }

  /** Whether cur holds every material's updates of start, those outside
      todo stepped and those in todo as they were. */
  ghost predicate SteppedOutside(start: map<nat, map<nat, UniformUpdate>>, cur: map<nat, map<nat, UniformUpdate>>, todo: set<nat>) {
    todo <= start.Keys && cur.Keys == start.Keys &&
    (forall m :: m in todo ==> cur[m] == start[m]) &&
    (forall m :: m in start && m !in todo ==> cur[m] == StepBindings(start[m]))
  }

  /** Stepping one more material keeps the bookkeeping. */
  lemma SteppedOutsideStep(start: map<nat, map<nat, UniformUpdate>>, cur: map<nat, map<nat, UniformUpdate>>, todo: set<nat>, m: nat)
    requires SteppedOutside(start, cur, todo) && m in todo
    ensures SteppedOutside(start, cur[m := StepBindings(cur[m])], todo - {m})
  {
  }

  /** Once every material is stepped, the updates are one frame's step of start. */
  lemma SteppedAll(start: map<nat, map<nat, UniformUpdate>>, cur: map<nat, map<nat, UniformUpdate>>)
    requires SteppedOutside(start, cur, {})
    ensures cur == StepAll(start)
  {
  }

  /** Stepping a material's updates binds exactly what the frame's step binds
      for that material. */
  lemma DueInMaterial(start: map<nat, map<nat, UniformUpdate>>, m: nat, x: Bind)
    requires m in start
    ensures DueIn(m, start[m], x) <==> x.material == m && Due(start, x)
  {
  }

  class Registry {
    /** Material handle by name. */
    var materials: map<string, nat>
    /** The shader of each material. */
    var shaderOf: map<nat, nat>
    /** Pending updates by material, then by binding. */
    var uniformUpdates: map<nat, map<nat, UniformUpdate>>
    /** Every bind made so far. */
    var binds: multiset<Bind>
    var nextHandle: nat

    ghost predicate Valid()
      reads this
    {
      forall n :: n in materials ==> materials[n] in shaderOf && materials[n] < nextHandle
    }

    constructor ()
      ensures Valid()
      ensures materials == map[] && uniformUpdates == map[] && binds == multiset{}
    {
      materials := map[];
      shaderOf := map[];
      uniformUpdates := map[];
      binds := multiset{};
      nextHandle := 0;
    }

    /** Adds a material under a new name; a name in use gives nothing and
        changes nothing. */
    method AddMaterial(name: string, shader: nat) returns (r: Option<nat>)
      requires Valid()
      modifies this`materials, this`shaderOf, this`nextHandle
      ensures Valid()
      ensures name in old(materials) ==> r == None && materials == old(materials) && shaderOf == old(shaderOf)
      ensures name !in old(materials) ==>
        r.Some? && r.value !in old(materials).Values &&
        materials == old(materials)[name := r.value] && shaderOf == old(shaderOf)[r.value := shader]
    {
      if name in materials {
        return None;
      }
      var m := nextHandle;
      nextHandle := nextHandle + 1;
      materials := materials[name := m];
      shaderOf := shaderOf[m := shader];
      r := Some(m);
    }

    /** The material of the name; an unknown name is an out-of-range error. */
    function GetMaterial(name: string): (r: Result<nat, LookupError>)
      reads this
      ensures r.Ok? <==> name in materials
      ensures r.Ok? ==> r.value == materials[name]
      ensures r.Err? ==> r.error == OutOfRange(name)
    {
      if name in materials then Ok(materials[name]) else Err(OutOfRange(name))
    }

    /** The material of the name, if there is one. */
    function TryGetMaterial(name: string): (r: Option<nat>)
      reads this
      ensures r.None? <==> name !in materials
      ensures r.Some? ==> r.value == materials[name]
    {
      if name !in materials then None else Some(materials[name])
    }

    /** Records a uniform update for a material's binding. A binding with a
        pending update keeps its frame count and takes the new uniform; a new
        one starts at zero frames. */
    method AddUniformUpdate(material: nat, binding: nat, uniform: nat)
      modifies this`uniformUpdates
      ensures material in uniformUpdates && binding in uniformUpdates[material]
      ensures var before := if material in old(uniformUpdates) then old(uniformUpdates)[material] else map[];
              uniformUpdates == old(uniformUpdates)[material := before[binding :=
                UniformUpdate(if binding in before then before[binding].framesUpdated else 0, uniform)]]
    {
      var inner := if material in uniformUpdates then uniformUpdates[material] else map[];
      var entry := if binding in inner then inner[binding] else UniformUpdate(0, uniform);
      entry := entry.(uniform := uniform);
      uniformUpdates := uniformUpdates[material := inner[binding := entry]];
    }

    /** One frame of uniform updates: every material's updates are stepped,
        in no particular order. */
    method OnUpdate()
      modifies this`uniformUpdates, this`binds
      ensures uniformUpdates == StepAll(old(uniformUpdates))
      ensures forall x :: binds[x] == old(binds)[x] + if Due(old(uniformUpdates), x) then 1 else 0
    {
      ghost var start := uniformUpdates;
      var todo := uniformUpdates.Keys;
      while todo != {}
        invariant SteppedOutside(start, uniformUpdates, todo)
        invariant forall x :: binds[x] == old(binds)[x] + if x.material !in todo && Due(start, x) then 1 else 0
        decreases todo
      {
        var m :| m in todo;
        ghost var bindsBefore := binds;
        var next := StepMaterial(m, uniformUpdates[m]);
        forall x ensures binds[x] == old(binds)[x] + if x.material !in todo - {m} && Due(start, x) then 1 else 0 {
          DueInMaterial(start, m, x);
        }
        SteppedOutsideStep(start, uniformUpdates, todo, m);
        uniformUpdates := uniformUpdates[m := next];
        todo := todo - {m};
      }
      SteppedAll(start, uniformUpdates);
    }

    /** Steps one material's updates, in no particular order of bindings: an
        update bound for every frame in flight is erased, any other is bound
        and counted. */
    method StepMaterial(m: nat, inner: map<nat, UniformUpdate>) returns (next: map<nat, UniformUpdate>)
      modifies this`binds
      ensures next == StepBindings(inner)
      ensures forall x :: binds[x] == old(binds)[x] + if DueIn(m, inner, x) then 1 else 0
    {
      next := inner;
      var todo := inner.Keys;
      assert next == PartlyStepped(inner, todo);
      while todo != {}
        invariant todo <= inner.Keys
        invariant next == PartlyStepped(inner, todo)
        invariant forall x :: binds[x] == old(binds)[x] + if x.binding !in todo && DueIn(m, inner, x) then 1 else 0
        decreases todo
      {
        var b :| b in todo;
        var e := next[b];
        if e.framesUpdated >= Settings.MaxFramesInFlight {
          next := next - {b};
        } else {
          binds := binds + multiset{Bind(m, b, e.uniform)};
          next := next[b := UniformUpdate(e.framesUpdated + 1, e.uniform)];
        }
        todo := todo - {b};
        assert next == PartlyStepped(inner, todo);
      }
      assert next == StepBindings(inner);
    }
  }
}
