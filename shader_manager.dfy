// The shader registry: the loaded graphics and compute shaders and the map
// from shader name to shader. The shader's name and the shader kind of each
// file (its ending before .spv) come from file-name helpers outside the model
// and are passed in.
module ShaderManager {
  import opened Wrappers
  import opened ReflectionUtil

  /** A registered shader: the index of a graphics or of a compute shader. */
  datatype ShaderRef = Graphics(index: nat) | Compute(index: nat)

  /** One stage of a graphics shader: its file and its kind. */
  datatype ShaderStageFile = ShaderStageFile(path: string, kind: ShaderType)

  /** A message the registry reports. */
  datatype Diagnostic =
    | ComputeFileInGraphicsShader(path: string)
    | NotAComputeFile(path: string)

  /** The stage a file ending names: "vert" and "frag" only. */
  function StageKind(ending: string): (r: Option<ShaderType>)
    ensures r == Some(VertexShader) <==> ending == "vert"
    ensures r == Some(FragmentShader) <==> ending == "frag"
    ensures r.None? <==> ending != "vert" && ending != "frag"
  {
    if ending == "vert" then Some(VertexShader)
    else if ending == "frag" then Some(FragmentShader)
    else None
  }

  /** The stages of a graphics shader made from files with these endings, in
      file order, leaving out every file that is neither vertex nor fragment. */
  function Stages(paths: seq<string>, endings: seq<string>): seq<ShaderStageFile>
    requires |paths| == |endings|
    decreases |paths|
  {
    if |paths| == 0 then []
    else
      var rest := Stages(paths[..|paths| - 1], endings[..|endings| - 1]);
      match StageKind(endings[|endings| - 1])
      case Some(kind) => rest + [ShaderStageFile(paths[|paths| - 1], kind)]
      case None => rest
  }

  /** Every stage comes from one of the files and has the kind its ending names;
      there are never more stages than files. */
  lemma {:induction false} StagesFromFiles(paths: seq<string>, endings: seq<string>)
    requires |paths| == |endings|
    ensures |Stages(paths, endings)| <= |paths|
    ensures forall s :: s in Stages(paths, endings) ==>
      exists i :: 0 <= i < |paths| && s.path == paths[i] && StageKind(endings[i]) == Some(s.kind)
    decreases |paths|
  {
    if |paths| > 0 {
      var n := |paths| - 1;
      StagesFromFiles(paths[..n], endings[..n]);
      forall s | s in Stages(paths, endings)
        ensures exists i :: 0 <= i < |paths| && s.path == paths[i] && StageKind(endings[i]) == Some(s.kind)
      {
        if s in Stages(paths[..n], endings[..n]) {
          var i :| 0 <= i < n && s.path == paths[..n][i] && StageKind(endings[..n][i]) == Some(s.kind);
          assert s.path == paths[i] && StageKind(endings[i]) == Some(s.kind);
        } else {
          assert s.path == paths[n] && StageKind(endings[n]) == Some(s.kind);
        }
      }
    }
  }

  /** Every vertex or fragment file gives a stage. */
  lemma {:induction false} StagesCoverFiles(paths: seq<string>, endings: seq<string>, i: nat)
    requires |paths| == |endings| && i < |paths|
    requires endings[i] == "vert" || endings[i] == "frag"
    ensures StageKind(endings[i]).Some?
    ensures ShaderStageFile(paths[i], StageKind(endings[i]).value) in Stages(paths, endings)
    decreases |paths|
  {
    var n := |paths| - 1;
    if i < n {
      StagesCoverFiles(paths[..n], endings[..n], i);
      assert paths[..n][i] == paths[i] && endings[..n][i] == endings[i];
    }
  }

  class Registry {
    /** The stages of each loaded graphics shader. */
    var graphicsShaders: seq<seq<ShaderStageFile>>
    /** The file of each loaded compute shader. */
    var computeShaders: seq<string>
    var namedShaders: map<string, ShaderRef>
    var log: seq<Diagnostic>

    ghost predicate Valid()
      reads this
    {
      forall n :: n in namedShaders ==>
        match namedShaders[n]
        case Graphics(i) => i < |graphicsShaders|
        case Compute(i) => i < |computeShaders|
    }

    constructor ()
      ensures Valid()
      ensures graphicsShaders == [] && computeShaders == [] && namedShaders == map[] && log == []
    {
      graphicsShaders := [];
      computeShaders := [];
      namedShaders := map[];
      log := [];
    }

    /** The shader registered under the name; nothing for an unknown name. */
    function GetShader(name: string): (r: Option<ShaderRef>)
      reads this
      ensures r.None? <==> name !in namedShaders
      ensures r.Some? ==> name in namedShaders && namedShaders[name] == r.value
    {
      if name in namedShaders then Some(namedShaders[name]) else None
    }

    /** The graphics shader registered under the name, if the name's shader is one. */
    function TryGetGraphicsShader(name: string): (r: Option<nat>)
      reads this
      ensures r.Some? <==> name in namedShaders && namedShaders[name].Graphics?
      ensures r.Some? ==> namedShaders[name] == Graphics(r.value)
    {
      match GetShader(name)
      case Some(Graphics(i)) => Some(i)
      case _ => None
    }

    /** The compute shader registered under the name, if the name's shader is one. */
    function TryGetComputeShader(name: string): (r: Option<nat>)
      reads this
      ensures r.Some? <==> name in namedShaders && namedShaders[name].Compute?
      ensures r.Some? ==> namedShaders[name] == Compute(r.value)
    {
      match GetShader(name)
      case Some(Compute(i)) => Some(i)
      case _ => None
    }

    /** Collects the stages of the files, in order; a compute file is reported
        and left out. */
    method CollectStages(paths: seq<string>, endings: seq<string>) returns (stages: seq<ShaderStageFile>)
      requires |paths| == |endings|
      modifies this`log
      ensures stages == Stages(paths, endings)
      ensures log == old(log) + ComputeFiles(paths, endings)
    {
      stages := [];
      var k := 0;
      while k < |paths|
        invariant k <= |paths|
        invariant stages == Stages(paths[..k], endings[..k])
        invariant log == old(log) + ComputeFiles(paths[..k], endings[..k])
      {
        assert paths[..k + 1][..k] == paths[..k] && endings[..k + 1][..k] == endings[..k];
        if endings[k] == "vert" {
          stages := stages + [ShaderStageFile(paths[k], VertexShader)];
        } else if endings[k] == "frag" {
          stages := stages + [ShaderStageFile(paths[k], FragmentShader)];
        } else if endings[k] == "comp" {
          log := log + [ComputeFileInGraphicsShader(paths[k])];
        }
        k := k + 1;
      }
      assert paths[..k] == paths && endings[..k] == endings;
    }

    /** Loads a graphics shader from its stage files, under the name of the
        first file. A name already loaded as a graphics shader gives that shader
        and a name loaded as a compute shader gives nothing; neither changes
        the registry. */
    method LoadGraphicsShader(paths: seq<string>, endings: seq<string>, shaderName: string)
      returns (r: Option<nat>)
      requires |paths| >= 1 && |paths| == |endings|
      requires Valid()
      modifies this`graphicsShaders, this`namedShaders, this`log
      ensures Valid()
      ensures shaderName in old(namedShaders) ==>
        graphicsShaders == old(graphicsShaders) && namedShaders == old(namedShaders) && log == old(log) &&
        r == old(TryGetGraphicsShader(shaderName))
      ensures shaderName !in old(namedShaders) ==>
        r == Some(|old(graphicsShaders)|) &&
        graphicsShaders == old(graphicsShaders) + [Stages(paths, endings)] &&
        namedShaders == old(namedShaders)[shaderName := Graphics(|old(graphicsShaders)|)] &&
        log == old(log) + ComputeFiles(paths, endings)
    {
      if shaderName in namedShaders {
        var shader := namedShaders[shaderName];
        if shader.Graphics? {
          return Some(shader.index);
        } else {
          return None;
        }
      }
      var stages := CollectStages(paths, endings);
      var index := |graphicsShaders|;
      graphicsShaders := graphicsShaders + [stages];
      namedShaders := namedShaders[shaderName := Graphics(index)];
      r := Some(index);
    }

    /** Loads a compute shader under its name; the same rules for names already
        loaded. A file that is not a compute file is reported and loaded anyway. */
    method LoadComputeShader(path: string, ending: string, shaderName: string) returns (r: Option<nat>)
      requires Valid()
      modifies this`computeShaders, this`namedShaders, this`log
      ensures Valid()
      ensures shaderName in old(namedShaders) ==>
        computeShaders == old(computeShaders) && namedShaders == old(namedShaders) && log == old(log) &&
        r == old(TryGetComputeShader(shaderName))
      ensures shaderName !in old(namedShaders) ==>
        r == Some(|old(computeShaders)|) &&
        computeShaders == old(computeShaders) + [path] &&
        namedShaders == old(namedShaders)[shaderName := Compute(|old(computeShaders)|)] &&
        log == old(log) + (if ending != "comp" then [NotAComputeFile(path)] else [])
    {
      if shaderName in namedShaders {
        var shader := namedShaders[shaderName];
        if shader.Compute? {
          return Some(shader.index);
        } else {
          return None;
        }
      }
      if ending != "comp" {
        log := log + [NotAComputeFile(path)];
      }
      var index := |computeShaders|;
      computeShaders := computeShaders + [path];
      namedShaders := namedShaders[shaderName := Compute(index)];
      r := Some(index);
    }

    /** Empties every registry. */
    method Shutdown()
      modifies this`graphicsShaders, this`computeShaders, this`namedShaders
      ensures Valid()
      ensures namedShaders == map[] && graphicsShaders == [] && computeShaders == []
    {
      namedShaders := map[];
      graphicsShaders := [];
      computeShaders := [];
    }
  }

  /** The compute files among the files, in order: each is reported when a
      graphics shader is loaded from them. */
  function ComputeFiles(paths: seq<string>, endings: seq<string>): seq<Diagnostic>
    requires |paths| == |endings|
    decreases |paths|
  {
    if |paths| == 0 then []
    else
      var rest := ComputeFiles(paths[..|paths| - 1], endings[..|endings| - 1]);
      if endings[|endings| - 1] == "comp" then rest + [ComputeFileInGraphicsShader(paths[|paths| - 1])] else rest
  }

  /** Files none of which is a compute file give no report. */
  lemma {:induction false} ComputeFilesOnlyComp(paths: seq<string>, endings: seq<string>)
    requires |paths| == |endings|
    requires forall i :: 0 <= i < |endings| ==> endings[i] != "comp"
    ensures ComputeFiles(paths, endings) == []
    decreases |paths|
  {
    if |paths| > 0 {
      ComputeFilesOnlyComp(paths[..|paths| - 1], endings[..|endings| - 1]);
    }
  }
}
