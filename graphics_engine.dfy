// The graphics engine's registries: render passes by name and names by pass,
// rendering stages by name, the stage being rendered and the frame counter.
// Render passes and stages are opaque handles handed out from a counter, so a
// newly created one is never equal to an existing one.
module GraphicsEngine {
  import opened Wrappers
  import Settings

  /** renderPassNames is exactly the inverse of renderPasses. */
  predicate Inverse(passes: map<string, nat>, names: map<nat, string>) {
    (forall n :: n in passes ==> passes[n] in names && names[passes[n]] == n) &&
    (forall p :: p in names ==> names[p] in passes && passes[names[p]] == p)
  }

  /** The registry maps after CreateRenderPass(name) with the new pass p, as written:
      the name is rebound, and the pass is recorded under its name. */
  function CreatePass(passes: map<string, nat>, names: map<nat, string>, name: string, p: nat)
    : (map<string, nat>, map<nat, string>)
  {
    (passes[name := p], names[p := name])
  }

  /** The registry maps after DestroyRenderPass(p). */
  function DestroyPass(passes: map<string, nat>, names: map<nat, string>, p: nat)
    : (map<string, nat>, map<nat, string>)
  {
    if p in names then (passes - {names[p]}, names - {p}) else (passes, names)
  }

  /** Creating a pass under a new name keeps the two maps inverse. */
  lemma CreateNewNameKeepsInverse(passes: map<string, nat>, names: map<nat, string>, name: string, p: nat)
    requires Inverse(passes, names)
    requires name !in passes && p !in names
    ensures Inverse(CreatePass(passes, names, name, p).0, CreatePass(passes, names, name, p).1)
    ensures CreatePass(passes, names, name, p).0[name] == p
  {
  }

  /** Destroying a pass removes its entries from both maps and keeps them inverse;
      an unknown pass changes nothing. */
  lemma DestroyKeepsInverse(passes: map<string, nat>, names: map<nat, string>, p: nat)
    requires Inverse(passes, names)
    ensures Inverse(DestroyPass(passes, names, p).0, DestroyPass(passes, names, p).1)
    ensures p !in DestroyPass(passes, names, p).1
    ensures p in names ==> names[p] !in DestroyPass(passes, names, p).0
    ensures p !in names ==> DestroyPass(passes, names, p) == (passes, names)
    ensures forall n :: n in passes && passes[n] != p ==>
      n in DestroyPass(passes, names, p).0 && DestroyPass(passes, names, p).0[n] == passes[n]
  {
  }

  /** Creating a pass again under a name already in use leaves the replaced
      pass in renderPassNames: the maps are no longer inverse. */
  lemma RecreateLeavesStaleName(passes: map<string, nat>, names: map<nat, string>, name: string, p: nat)
    requires Inverse(passes, names)
    requires name in passes && p !in names
    ensures var (ps, ns) := CreatePass(passes, names, name, p);
            passes[name] in ns && ns[passes[name]] == name && ps[name] != passes[name] &&
            !Inverse(ps, ns)
  {
  }

  /** The consequence: destroying the replaced pass afterwards unregisters the
      live pass of the same name, whose reverse entry then dangles. */
  lemma DestroyStaleRemovesLivePass(passes: map<string, nat>, names: map<nat, string>, name: string, p: nat)
    requires Inverse(passes, names)
    requires name in passes && p !in names
    ensures var (ps, ns) := CreatePass(passes, names, name, p);
            var (ps', ns') := DestroyPass(ps, ns, passes[name]);
            name !in ps' && p in ns' && ns'[p] == name
  {
  }

  /** The registry maps after CreateRenderPass(name) when the replaced pass's
      reverse entry is erased first. */
  function CreatePassFixed(passes: map<string, nat>, names: map<nat, string>, name: string, p: nat)
    : (map<string, nat>, map<nat, string>)
  {
    (passes[name := p], (if name in passes then names - {passes[name]} else names)[p := name])
  }

  /** With the replaced entry erased, creating a pass always keeps the maps inverse. */
  lemma CreateFixedKeepsInverse(passes: map<string, nat>, names: map<nat, string>, name: string, p: nat)
    requires Inverse(passes, names)
    requires p !in names
    ensures Inverse(CreatePassFixed(passes, names, name, p).0, CreatePassFixed(passes, names, name, p).1)
    ensures CreatePassFixed(passes, names, name, p).0[name] == p
  {
  }

  /** A call the engine makes on a rendering stage. */
  datatype StageCall = BeginRender(stage: string) | EndRender(stage: string)

  /** A message the engine logs. */
  datatype Diagnostic =
    | StageAlreadyExists(name: string)
    | AlreadyRendering(current: string)
    | StageNotFound(name: string)

  /** The frame after f, modulo the number of frames in flight. */
  function NextFrame(f: nat): (r: nat)
    ensures r < Settings.MaxFramesInFlight
    ensures f + 1 < Settings.MaxFramesInFlight ==> r == f + 1
  {
    (f + 1) % Settings.MaxFramesInFlight
  }

  /** The frame after n frames starting from frame 0. */
  function FrameAfter(n: nat): nat {
    if n == 0 then 0 else NextFrame(FrameAfter(n - 1))
  }

  /** After n frames the counter is n modulo the number of frames in flight. */
  lemma {:induction false} FrameAfterIsModulo(n: nat)
    ensures FrameAfter(n) == n % Settings.MaxFramesInFlight
  {
    if n > 0 {
      FrameAfterIsModulo(n - 1);
    }
  }

  class Engine {
    var renderPasses: map<string, nat>
    var renderPassNames: map<nat, string>
    var renderingStages: map<string, nat>
    /** The name of the stage being rendered, if any. */
    var currentRenderingStage: Option<string>
    var currentFrame: nat
    /** The next free handle for a pass or a stage. */
    var nextHandle: nat
    var stageCalls: seq<StageCall>
    var log: seq<Diagnostic>

    ghost predicate Valid()
      reads this
    {
      currentFrame < Settings.MaxFramesInFlight &&
      (forall p :: p in renderPassNames ==> p < nextHandle) &&
      (forall n :: n in renderPasses ==> renderPasses[n] < nextHandle) &&
      (forall n :: n in renderingStages ==> renderingStages[n] < nextHandle) &&
      (currentRenderingStage.Some? ==> currentRenderingStage.value in renderingStages)
    }

    constructor ()
      ensures Valid()
      ensures renderPasses == map[] && renderPassNames == map[] && renderingStages == map[]
      ensures currentRenderingStage == None && currentFrame == 0
      ensures stageCalls == [] && log == []
    {
      renderPasses := map[];
      renderPassNames := map[];
      renderingStages := map[];
      currentRenderingStage := None;
      currentFrame := 0;
      nextHandle := 0;
      stageCalls := [];
      log := [];
    }

    /** Creates a pass under the name, replacing any pass of that name, and
        records the new pass under the name. */
    method CreateRenderPass(name: string) returns (p: nat)
      requires Valid()
      modifies this`renderPasses, this`renderPassNames, this`nextHandle
      ensures Valid()
      ensures p !in old(renderPassNames) && name in renderPasses && renderPasses[name] == p
      ensures (renderPasses, renderPassNames) == CreatePass(old(renderPasses), old(renderPassNames), name, p)
      ensures Inverse(old(renderPasses), old(renderPassNames)) && name !in old(renderPasses) ==>
        Inverse(renderPasses, renderPassNames)
    {
      p := nextHandle;
      nextHandle := nextHandle + 1;
      renderPasses := renderPasses[name := p];
      renderPassNames := renderPassNames[p := name];
      if Inverse(old(renderPasses), old(renderPassNames)) && name !in old(renderPasses) {
        CreateNewNameKeepsInverse(old(renderPasses), old(renderPassNames), name, p);
      }
    }

    /** Removes a known pass from both maps; an unknown pass is ignored. */
    method DestroyRenderPass(p: nat)
      requires Valid()
      modifies this`renderPasses, this`renderPassNames
      ensures Valid()
      ensures (renderPasses, renderPassNames) == DestroyPass(old(renderPasses), old(renderPassNames), p)
      ensures Inverse(old(renderPasses), old(renderPassNames)) ==> Inverse(renderPasses, renderPassNames)
    {
      if p in renderPassNames {
        var name := renderPassNames[p];
        renderPassNames := renderPassNames - {p};
        renderPasses := renderPasses - {name};
      }
      if Inverse(old(renderPasses), old(renderPassNames)) {
        DestroyKeepsInverse(old(renderPasses), old(renderPassNames), p);
      }
    }

    /** Adds a stage under a new name; an existing name is logged and yields nothing. */
    method AddRenderingStage(name: string) returns (r: Option<nat>)
      requires Valid()
      modifies this`renderingStages, this`nextHandle, this`log
      ensures Valid()
      ensures name in old(renderingStages) ==>
        r == None && renderingStages == old(renderingStages) && log == old(log) + [StageAlreadyExists(name)]
      ensures name !in old(renderingStages) ==>
        r.Some? && r.value !in old(renderingStages).Values &&
        renderingStages == old(renderingStages)[name := r.value] && log == old(log)
    {
      if name in renderingStages {
        log := log + [StageAlreadyExists(name)];
        return None;
      }
      var s := nextHandle;
      nextHandle := nextHandle + 1;
      renderingStages := renderingStages[name := s];
      r := Some(s);
    }

    /** Starts rendering the named stage unless one is already being rendered
        or no stage has that name; both refusals are logged. */
    method BeginRenderingStage(name: string)
      requires Valid()
      modifies this`currentRenderingStage, this`stageCalls, this`log
      ensures Valid()
      ensures old(currentRenderingStage).Some? ==>
        currentRenderingStage == old(currentRenderingStage) && stageCalls == old(stageCalls) &&
        log == old(log) + [AlreadyRendering(old(currentRenderingStage).value)]
      ensures old(currentRenderingStage).None? && name in renderingStages ==>
        currentRenderingStage == Some(name) && stageCalls == old(stageCalls) + [BeginRender(name)] &&
        log == old(log)
      ensures old(currentRenderingStage).None? && name !in renderingStages ==>
        currentRenderingStage == None && stageCalls == old(stageCalls) && log == old(log) + [StageNotFound(name)]
    {
      if currentRenderingStage.Some? {
        log := log + [AlreadyRendering(currentRenderingStage.value)];
        return;
      }
      if name in renderingStages {
        currentRenderingStage := Some(name);
        stageCalls := stageCalls + [BeginRender(name)];
        return;
      }
      log := log + [StageNotFound(name)];
    }

    /** Ends the stage being rendered, if any; afterwards no stage is current. */
    method EndRenderingStage()
      requires Valid()
      modifies this`currentRenderingStage, this`stageCalls
      ensures Valid()
      ensures currentRenderingStage == None
      ensures old(currentRenderingStage).Some? ==>
        stageCalls == old(stageCalls) + [EndRender(old(currentRenderingStage).value)]
      ensures old(currentRenderingStage).None? ==> stageCalls == old(stageCalls)
    {
      if currentRenderingStage.Some? {
        stageCalls := stageCalls + [EndRender(currentRenderingStage.value)];
        currentRenderingStage := None;
      }
    }

    /** The frame-counter step at the end of a frame. */
    method EndFrame()
      requires Valid()
      modifies this`currentFrame
      ensures Valid()
      ensures currentFrame == NextFrame(old(currentFrame))
    {
      currentFrame := (currentFrame + 1) % Settings.MaxFramesInFlight;
    }
  }
}
