// A rendering stage: the set of render passes it draws into and, per pass,
// four queues of recorded commands (single-use and repeated, graphics and
// compute). Passes, commands and command buffers are opaque handles; running
// a command on a buffer is recorded in the stage's trace.
module RenderingStage {

  /** What the stage does to command buffers, in order. */
  datatype TraceEntry =
    | Run(command: nat, buffer: nat)
    | BeginPass(pass: nat, imageIndex: nat, buffer: nat)
    | EndPass(pass: nat, buffer: nat)
    | CopyPresentation(buffer: nat)
    | BeginBuffer(buffer: nat)
    | EndBuffer(buffer: nat)

  /** What the stage asks of its swap chain. */
  datatype SwapChainCall = CreateFramebuffers(pass: nat) | DestroyFramebuffers(pass: nat)

  /** The outcome of acquiring the next swap-chain image. */
  datatype AcquireResult = Success | Suboptimal | OutOfDate | OtherFailure

  /** What BeginRender reports besides its trace: Unreachable is the
      out-of-date image, reported by the assertion before the failure. */
  datatype BeginOutcome = Begun | Unreachable | AcquireFailed

  /** The queue of a pass; a pass without one has the empty queue (operator[]). */
  function Get(m: map<nat, seq<nat>>, p: nat): seq<nat> {
    if p in m then m[p] else []
  }

  /** Running each command on a buffer, in order. */
  function Runs(cmds: seq<nat>, buffer: nat): (r: seq<TraceEntry>)
    ensures |r| == |cmds|
    ensures forall i :: 0 <= i < |cmds| ==> r[i] == Run(cmds[i], buffer)
  {
    seq(|cmds|, i requires 0 <= i < |cmds| => Run(cmds[i], buffer))
  }

  /** The four queues of a stage. */
  datatype Queues = Queues(
    singleGraphics: map<nat, seq<nat>>,
    repeatedGraphics: map<nat, seq<nat>>,
    singleCompute: map<nat, seq<nat>>,
    repeatedCompute: map<nat, seq<nat>>)

  /** The work EndRender does for one pass, as written: repeated compute
      commands on the compute buffer, then single compute commands on the
      draw buffer, then repeated and single graphics commands on the draw
      buffer, then the end of the pass and, with presentation textures, the
      copy of the image. */
  function PassTrace(q: Queues, p: nat, draw: nat, compute: nat, copy: bool): seq<TraceEntry> {
    PassWork(Get(q.repeatedCompute, p), Get(q.singleCompute, p), Get(q.repeatedGraphics, p),
             Get(q.singleGraphics, p), p, draw, compute, copy)
  }

  /** The same, given the pass's four queues. */
  function PassWork(rc: seq<nat>, sc: seq<nat>, rg: seq<nat>, sg: seq<nat>, p: nat, draw: nat, compute: nat, copy: bool)
    : seq<TraceEntry>
  {
    Runs(rc, compute) + Runs(sc, draw) + Runs(rg, draw) + Runs(sg, draw) +
    [EndPass(p, draw)] + (if copy then [CopyPresentation(draw)] else [])
  }

  /** The work EndRender does for the passes ps, in that order. */
  function StageTrace(q: Queues, ps: seq<nat>, draw: nat, compute: nat, copy: bool): seq<TraceEntry>
    decreases |ps|
  {
    if |ps| == 0 then []
    else StageTrace(q, ps[..|ps| - 1], draw, compute, copy) + PassTrace(q, ps[|ps| - 1], draw, compute, copy)
  }

  /** The pass's work with single compute commands run on the compute buffer. */
  function PassTraceFixed(q: Queues, p: nat, draw: nat, compute: nat, copy: bool): seq<TraceEntry> {
    Runs(Get(q.repeatedCompute, p), compute) + Runs(Get(q.singleCompute, p), compute) +
    Runs(Get(q.repeatedGraphics, p), draw) + Runs(Get(q.singleGraphics, p), draw) +
    [EndPass(p, draw)] + (if copy then [CopyPresentation(draw)] else [])
  }

  /** As written, every single compute command of a pass is run on the draw
      buffer, never on the compute buffer that EndRender then ends. */
  lemma SingleComputeRunsOnDrawBuffer(q: Queues, p: nat, draw: nat, compute: nat, copy: bool, i: nat)
    requires i < |Get(q.singleCompute, p)|
    ensures var k := |Get(q.repeatedCompute, p)| + i;
            k < |PassTrace(q, p, draw, compute, copy)| &&
            PassTrace(q, p, draw, compute, copy)[k] == Run(Get(q.singleCompute, p)[i], draw)
  {
  }

  /** The corrected pass work runs every compute command, single or repeated,
      on the compute buffer and every graphics command on the draw buffer. */
  lemma FixedRunsComputeOnComputeBuffer(q: Queues, p: nat, draw: nat, compute: nat, copy: bool)
    ensures forall e :: e in PassTraceFixed(q, p, draw, compute, copy) && e.Run? ==>
      ((e.command in Get(q.repeatedCompute, p) || e.command in Get(q.singleCompute, p)) && e.buffer == compute) ||
      ((e.command in Get(q.repeatedGraphics, p) || e.command in Get(q.singleGraphics, p)) && e.buffer == draw)
  {
    var rc, sc := Runs(Get(q.repeatedCompute, p), compute), Runs(Get(q.singleCompute, p), compute);
    var rg, sg := Runs(Get(q.repeatedGraphics, p), draw), Runs(Get(q.singleGraphics, p), draw);
    forall e | e in PassTraceFixed(q, p, draw, compute, copy) && e.Run?
      ensures ((e.command in Get(q.repeatedCompute, p) || e.command in Get(q.singleCompute, p)) && e.buffer == compute) ||
              ((e.command in Get(q.repeatedGraphics, p) || e.command in Get(q.singleGraphics, p)) && e.buffer == draw)
    {
      assert e in rc || e in sc || e in rg || e in sg;
    }
  }

  /** A queued command of a pass that EndRender visits is run, on the draw
      buffer for a graphics command. */
  lemma {:induction false} QueuedGraphicsCommandRuns(q: Queues, ps: seq<nat>, draw: nat, compute: nat, copy: bool, p: nat, c: nat)
    requires p in ps
    requires c in Get(q.singleGraphics, p) || c in Get(q.repeatedGraphics, p)
    ensures Run(c, draw) in StageTrace(q, ps, draw, compute, copy)
    decreases |ps|
  {
    var last := ps[|ps| - 1];
    if p == last {
      if c in Get(q.singleGraphics, p) {
        var i :| 0 <= i < |Get(q.singleGraphics, p)| && Get(q.singleGraphics, p)[i] == c;
        assert Runs(Get(q.singleGraphics, p), draw)[i] == Run(c, draw);
      } else {
        var i :| 0 <= i < |Get(q.repeatedGraphics, p)| && Get(q.repeatedGraphics, p)[i] == c;
        assert Runs(Get(q.repeatedGraphics, p), draw)[i] == Run(c, draw);
      }
      assert Run(c, draw) in PassTrace(q, p, draw, compute, copy);
    } else {
      assert p in ps[..|ps| - 1] by {
        var j :| 0 <= j < |ps| && ps[j] == p;
        assert j < |ps| - 1;
        assert ps[..|ps| - 1][j] == p;
      }
      QueuedGraphicsCommandRuns(q, ps[..|ps| - 1], draw, compute, copy, p, c);
    }
  }

  /** The queues after EndRender has visited the pass p: p's single-use
      queues are emptied and its repeated ones are materialised. */
  function AfterPass(q: Queues, p: nat): Queues {
    Queues(q.singleGraphics[p := []], q.repeatedGraphics[p := Get(q.repeatedGraphics, p)],
           q.singleCompute[p := []], q.repeatedCompute[p := Get(q.repeatedCompute, p)])
  }

  /** cur is q with the single-use queues of the passes in done emptied and
      everything else unchanged. */
  ghost predicate AfterPasses(cur: Queues, q: Queues, done: set<nat>) {
    (forall p :: Get(cur.singleGraphics, p) == if p in done then [] else Get(q.singleGraphics, p)) &&
    (forall p :: Get(cur.singleCompute, p) == if p in done then [] else Get(q.singleCompute, p)) &&
    (forall p :: Get(cur.repeatedGraphics, p) == Get(q.repeatedGraphics, p)) &&
    (forall p :: Get(cur.repeatedCompute, p) == Get(q.repeatedCompute, p))
  }

  /** Visiting a pass not yet visited does that pass's original work and
      adds it to the visited passes. */
  lemma AfterPassStep(cur: Queues, q: Queues, done: set<nat>, p: nat, draw: nat, compute: nat, copy: bool)
    requires AfterPasses(cur, q, done) && p !in done
    ensures PassTrace(cur, p, draw, compute, copy) == PassTrace(q, p, draw, compute, copy)
    ensures AfterPasses(AfterPass(cur, p), q, done + {p})
  {
    EmptiedStep(cur.singleGraphics, q.singleGraphics, done, p);
    EmptiedStep(cur.singleCompute, q.singleCompute, done, p);
    KeptStep(cur.repeatedGraphics, q.repeatedGraphics, p);
    KeptStep(cur.repeatedCompute, q.repeatedCompute, p);
  }

  /** Emptying the single-use queue of a pass not yet visited: before, it is
      the original queue; after, it is empty like those of the visited passes. */
  lemma EmptiedStep(cur: map<nat, seq<nat>>, q: map<nat, seq<nat>>, done: set<nat>, p: nat)
    requires forall r :: Get(cur, r) == if r in done then [] else Get(q, r)
    requires p !in done
    ensures Get(cur, p) == Get(q, p)
    ensures forall r :: Get(cur[p := []], r) == if r in done + {p} then [] else Get(q, r)
  {
    assert Get(cur, p) == Get(q, p);
    forall r ensures Get(cur[p := []], r) == if r in done + {p} then [] else Get(q, r) {
      assert Get(cur, r) == if r in done then [] else Get(q, r);
    }
  }

  /** Materialising the repeated queue of a pass changes no pass's queue. */
  lemma KeptStep(cur: map<nat, seq<nat>>, q: map<nat, seq<nat>>, p: nat)
    requires forall r :: Get(cur, r) == Get(q, r)
    ensures Get(cur, p) == Get(q, p)
    ensures forall r :: Get(cur[p := Get(cur, p)], r) == Get(q, r)
  {
    assert Get(cur, p) == Get(q, p);
    forall r ensures Get(cur[p := Get(cur, p)], r) == Get(q, r) {
      assert Get(cur, r) == Get(q, r);
    }
  }

  /** The image rendered to: the swap chain's index for a native swap chain,
      else the engine's current frame. */
  function ImageIndex(nativeSwapChain: bool, swapChainImageIndex: nat, currentFrame: nat): (r: nat)
    ensures nativeSwapChain ==> r == swapChainImageIndex
    ensures !nativeSwapChain ==> r == currentFrame
  {
    if nativeSwapChain then swapChainImageIndex else currentFrame
  }

  lemma PrefixSnoc(s: seq<nat>, k: nat)
    requires k < |s|
    ensures s[..k + 1] == s[..k] + [s[k]]
    ensures s[..k + 1][..k] == s[..k]
  {
  }

  /** EndRender's progress after visiting order[..k]: the queues cur and the
      trace tr, starting from the queues q and the trace t0. */
  ghost predicate EndingPasses(order: seq<nat>, k: nat, q: Queues, done: set<nat>, cur: Queues,
                               tr: seq<TraceEntry>, t0: seq<TraceEntry>, draw: nat, compute: nat, copy: bool)
  {
    Distinct(order) && k <= |order| &&
    tr == t0 + TraceUpTo(q, order, k, draw, compute, copy) &&
    AfterPasses(cur, q, done) &&
    (forall j :: k <= j < |order| ==> order[j] !in done) &&
    (forall p :: p in done <==> p in order[..k])
  }

  /** Before any pass is visited. */
  lemma EndingStart(order: seq<nat>, q: Queues, t0: seq<TraceEntry>, draw: nat, compute: nat, copy: bool)
    requires Distinct(order)
    ensures EndingPasses(order, 0, q, {}, q, t0, t0, draw, compute, copy)
  {
    assert order[..0] == [];
    assert t0 + [] == t0;
  }

  /** After every pass of passes is visited. */
  lemma EndingDone(order: seq<nat>, q: Queues, done: set<nat>, cur: Queues, tr: seq<TraceEntry>,
                   t0: seq<TraceEntry>, draw: nat, compute: nat, copy: bool, passes: set<nat>)
    requires EndingPasses(order, |order|, q, done, cur, tr, t0, draw, compute, copy)
    requires forall p :: p in order <==> p in passes
    ensures tr == t0 + StageTrace(q, order, draw, compute, copy)
    ensures AfterPasses(cur, q, passes)
  {
    TraceUpToIsStageTrace(q, order, |order|, draw, compute, copy);
    assert order[..|order|] == order;
    VisitedAll(order, done, passes);
  }

  /** Once every pass of order is visited, the visited passes are the passes. */
  lemma VisitedAll(order: seq<nat>, done: set<nat>, passes: set<nat>)
    requires forall p :: p in done <==> p in order[..|order|]
    requires forall p :: p in order <==> p in passes
    ensures done == passes
  {
    assert order[..|order|] == order;
    forall p ensures p in done <==> p in passes {
    }
  }

  /** Visiting order[k] keeps EndRender's progress. */
  lemma EndingStep(order: seq<nat>, k: nat, q: Queues, done: set<nat>, cur: Queues,
                   tr: seq<TraceEntry>, t0: seq<TraceEntry>, draw: nat, compute: nat, copy: bool)
    requires k < |order|
    requires EndingPasses(order, k, q, done, cur, tr, t0, draw, compute, copy)
    ensures EndingPasses(order, k + 1, q, done + {order[k]}, AfterPass(cur, order[k]),
                         tr + PassTrace(cur, order[k], draw, compute, copy), t0, draw, compute, copy)
  {
    VisitedStep(order, k, done);
    AfterPassStep(cur, q, done, order[k], draw, compute, copy);
    AppendAssoc(t0, TraceUpTo(q, order, k, draw, compute, copy), PassTrace(q, order[k], draw, compute, copy));
  }

  /** Appending pieces one at a time appends their concatenation. */
  lemma Regroup(t: seq<TraceEntry>, a: seq<TraceEntry>, b: seq<TraceEntry>, c: seq<TraceEntry>,
                d: seq<TraceEntry>, e: seq<TraceEntry>, f: seq<TraceEntry>)
    ensures t + a + b + c + d + e + f == t + (a + b + c + d + e + f)
  {
  }

  lemma AppendAssoc(a: seq<TraceEntry>, b: seq<TraceEntry>, c: seq<TraceEntry>)
    ensures (a + b) + c == a + (b + c)
  {
  }

  /** The work EndRender does for the first k passes of order. */
  function TraceUpTo(q: Queues, order: seq<nat>, k: nat, draw: nat, compute: nat, copy: bool): seq<TraceEntry>
    requires k <= |order|
    decreases k
  {
    if k == 0 then []
    else TraceUpTo(q, order, k - 1, draw, compute, copy) + PassTrace(q, order[k - 1], draw, compute, copy)
  }

  /** The work for the first k passes is the work for the prefix of k passes. */
  lemma {:induction false} TraceUpToIsStageTrace(q: Queues, order: seq<nat>, k: nat, draw: nat, compute: nat, copy: bool)
    requires k <= |order|
    ensures TraceUpTo(q, order, k, draw, compute, copy) == StageTrace(q, order[..k], draw, compute, copy)
    decreases k
  {
    if k > 0 {
      TraceUpToIsStageTrace(q, order, k - 1, draw, compute, copy);
      PrefixSnoc(order, k - 1);
    }
  }

  /** The visited passes grow by order[k], which the later passes do not repeat. */
  lemma VisitedStep(order: seq<nat>, k: nat, done: set<nat>)
    requires Distinct(order) && k < |order|
    requires forall j :: k <= j < |order| ==> order[j] !in done
    requires forall p :: p in done <==> p in order[..k]
    ensures order[k] !in done
    ensures forall j :: k + 1 <= j < |order| ==> order[j] !in done + {order[k]}
    ensures forall p :: p in done + {order[k]} <==> p in order[..k + 1]
  {
    PrefixSnoc(order, k);
    forall j | k + 1 <= j < |order|
      ensures order[j] !in done + {order[k]}
    {
      assert order[k] != order[j];
    }
  }

  /** No pass occurs twice. */
  predicate Distinct(ps: seq<nat>) {
    forall i, j :: 0 <= i < j < |ps| ==> ps[i] != ps[j]
  }

  class Stage {
    var renderPasses: set<nat>
    var singleGraphicsCommands: map<nat, seq<nat>>
    var repeatedGraphicsCommands: map<nat, seq<nat>>
    var singleComputeCommands: map<nat, seq<nat>>
    var repeatedComputeCommands: map<nat, seq<nat>>
    const nativeSwapChain: bool
    /** Whether the (offscreen) swap chain has presentation textures. */
    const withPresentationTextures: bool
    var trace: seq<TraceEntry>
    var swapChainCalls: seq<SwapChainCall>

    constructor (nativeSwapChain: bool, withPresentationTextures: bool)
      ensures this.nativeSwapChain == nativeSwapChain
      ensures this.withPresentationTextures == (!nativeSwapChain && withPresentationTextures)
      ensures renderPasses == {} && trace == [] && swapChainCalls == []
      ensures singleGraphicsCommands == map[] && repeatedGraphicsCommands == map[]
      ensures singleComputeCommands == map[] && repeatedComputeCommands == map[]
    {
      this.nativeSwapChain := nativeSwapChain;
      this.withPresentationTextures := !nativeSwapChain && withPresentationTextures;
      renderPasses := {};
      singleGraphicsCommands := map[];
      repeatedGraphicsCommands := map[];
      singleComputeCommands := map[];
      repeatedComputeCommands := map[];
      trace := [];
      swapChainCalls := [];
    }

    function Current(): Queues
      reads this
    {
      Queues(singleGraphicsCommands, repeatedGraphicsCommands, singleComputeCommands, repeatedComputeCommands)
    }

    /** Acquires the next image (native swap chain only), begins the draw
        buffer, begins every pass in order on it and begins the compute buffer.
        An out-of-date image is reported as unreachable and, like any other
        failure than a suboptimal image, stops rendering before anything is
        begun. */
    method BeginRender(order: seq<nat>, acquire: AcquireResult, imageIndex: nat, draw: nat, compute: nat)
      returns (outcome: BeginOutcome)
      requires Distinct(order) && (forall p :: p in order <==> p in renderPasses)
      modifies this`trace
      ensures nativeSwapChain && acquire == OutOfDate ==> outcome == Unreachable
      ensures (nativeSwapChain && acquire != OutOfDate && acquire != Success && acquire != Suboptimal) ==>
        outcome == AcquireFailed
      ensures (!nativeSwapChain || acquire == Success || acquire == Suboptimal) ==>
        outcome == Begun
      ensures outcome != Begun ==> trace == old(trace)
      ensures outcome == Begun ==>
        trace == old(trace) + [BeginBuffer(draw)] +
          seq(|order|, i requires 0 <= i < |order| => BeginPass(order[i], imageIndex, draw)) +
          [BeginBuffer(compute)]
    {
      if nativeSwapChain {
        if acquire == OutOfDate {
          outcome := Unreachable;
        }
        if acquire != Success && acquire != Suboptimal {
          if acquire != OutOfDate {
            outcome := AcquireFailed;
          }
          return;
        }
      }
      outcome := Begun;
      trace := trace + [BeginBuffer(draw)];
      var k := 0;
      while k < |order|
        invariant k <= |order|
        invariant trace == old(trace) + [BeginBuffer(draw)] +
          seq(k, i requires 0 <= i < k => BeginPass(order[i], imageIndex, draw))
      {
        trace := trace + [BeginPass(order[k], imageIndex, draw)];
        k := k + 1;
      }
      trace := trace + [BeginBuffer(compute)];
    }

    /** Runs a pass's commands and empties its single-use queues. */
    method EndPassCommands(p: nat, draw: nat, compute: nat)
      modifies this`trace, this`singleGraphicsCommands, this`repeatedGraphicsCommands,
        this`singleComputeCommands, this`repeatedComputeCommands
      ensures trace == old(trace) + PassTrace(old(Current()), p, draw, compute, withPresentationTextures)
      ensures Current() == AfterPass(old(Current()), p)
    {
      var rc, sc := Get(repeatedComputeCommands, p), Get(singleComputeCommands, p);
      var rg, sg := Get(repeatedGraphicsCommands, p), Get(singleGraphicsCommands, p);
      RunPass(rc, sc, rg, sg, p, draw, compute);
      repeatedComputeCommands := repeatedComputeCommands[p := rc];
      singleComputeCommands := singleComputeCommands[p := []];
      repeatedGraphicsCommands := repeatedGraphicsCommands[p := rg];
      singleGraphicsCommands := singleGraphicsCommands[p := []];
    }

    /** Runs the commands of one pass, given its four queues, and ends the pass. */
    method RunPass(rc: seq<nat>, sc: seq<nat>, rg: seq<nat>, sg: seq<nat>, p: nat, draw: nat, compute: nat)
      modifies this`trace
      ensures trace == old(trace) + PassWork(rc, sc, rg, sg, p, draw, compute, withPresentationTextures)
    {
      ghost var t0 := trace;
      RunCommands(rc, compute);
      RunCommands(sc, draw);
      RunCommands(rg, draw);
      RunCommands(sg, draw);
      trace := trace + [EndPass(p, draw)];
      if withPresentationTextures {
        trace := trace + [CopyPresentation(draw)];
      }
      Regroup(t0, Runs(rc, compute), Runs(sc, draw), Runs(rg, draw), Runs(sg, draw),
              [EndPass(p, draw)], if withPresentationTextures then [CopyPresentation(draw)] else []);
    }

    /** Runs each command on the buffer. */
    method RunCommands(cmds: seq<nat>, buffer: nat)
      modifies this`trace
      ensures trace == old(trace) + Runs(cmds, buffer)
    {
      var k := 0;
      while k < |cmds|
        invariant k <= |cmds|
        invariant trace == old(trace) + Runs(cmds[..k], buffer)
      {
        trace := trace + [Run(cmds[k], buffer)];
        k := k + 1;
      }
      assert cmds[..k] == cmds;
    }

    /** Runs every pass's commands, in the iteration order of the pass set,
        then ends the compute and the draw buffer. Afterwards the single-use
        queues of the passes are empty and every other queue is as before. */
    method EndRender(order: seq<nat>, draw: nat, compute: nat)
      requires Distinct(order) && (forall p :: p in order <==> p in renderPasses)
      modifies this`trace, this`singleGraphicsCommands, this`repeatedGraphicsCommands,
        this`singleComputeCommands, this`repeatedComputeCommands
      ensures trace == old(trace) + StageTrace(old(Current()), order, draw, compute, withPresentationTextures) +
        [EndBuffer(compute), EndBuffer(draw)]
      ensures AfterPasses(Current(), old(Current()), renderPasses)
    {
      ghost var done := EndPasses(order, draw, compute);
      EndingDone(order, old(Current()), done, Current(), trace, old(trace), draw, compute, withPresentationTextures,
                 renderPasses);
      trace := trace + [EndBuffer(compute), EndBuffer(draw)];
    }

    /** The pass loop of EndRender: runs every pass's commands in the given
        order and empties its single-use queues; done is the set of visited
        passes. */
    method EndPasses(order: seq<nat>, draw: nat, compute: nat) returns (ghost done: set<nat>)
      requires Distinct(order)
      modifies this`trace, this`singleGraphicsCommands, this`repeatedGraphicsCommands,
        this`singleComputeCommands, this`repeatedComputeCommands
      ensures EndingPasses(order, |order|, old(Current()), done, Current(), trace, old(trace), draw, compute,
                           withPresentationTextures)
    {
      ghost var q := Current();
      done := {};
      EndingStart(order, q, trace, draw, compute, withPresentationTextures);
      for k := 0 to |order|
        invariant EndingPasses(order, k, q, done, Current(), trace, old(trace), draw, compute, withPresentationTextures)
      {
        done := EndPassStep(order, k, q, done, old(trace), draw, compute);
      }
    }

    /** One iteration of EndRender: visits order[k]. */
    method EndPassStep(order: seq<nat>, k: nat, ghost q: Queues, ghost done: set<nat>, ghost t0: seq<TraceEntry>,
                       draw: nat, compute: nat)
      returns (ghost done': set<nat>)
      requires k < |order|
      requires EndingPasses(order, k, q, done, Current(), trace, t0, draw, compute, withPresentationTextures)
      modifies this`trace, this`singleGraphicsCommands, this`repeatedGraphicsCommands,
        this`singleComputeCommands, this`repeatedComputeCommands
      ensures EndingPasses(order, k + 1, q, done', Current(), trace, t0, draw, compute, withPresentationTextures)
    {
      var p := order[k];
      EndingStep(order, k, q, done, Current(), trace, t0, draw, compute, withPresentationTextures);
      EndPassCommands(p, draw, compute);
      done' := done + {p};
    }

    /** Queues a single-use compute command for the pass. */
    method SubmitSingleComputeCommand(p: nat, command: nat)
      modifies this`singleComputeCommands
      ensures singleComputeCommands == old(singleComputeCommands)[p := Get(old(singleComputeCommands), p) + [command]]
    {
      singleComputeCommands := singleComputeCommands[p := Get(singleComputeCommands, p) + [command]];
    }

    /** Queues a repeated compute command for the pass. */
    method SubmitRepeatedComputeCommand(p: nat, command: nat)
      modifies this`repeatedComputeCommands
      ensures repeatedComputeCommands == old(repeatedComputeCommands)[p := Get(old(repeatedComputeCommands), p) + [command]]
    {
      repeatedComputeCommands := repeatedComputeCommands[p := Get(repeatedComputeCommands, p) + [command]];
    }

    /** Queues a single-use draw command for the pass (SubmitDraw queues one). */
    method SubmitSingleDrawCommand(p: nat, command: nat)
      modifies this`singleGraphicsCommands
      ensures singleGraphicsCommands == old(singleGraphicsCommands)[p := Get(old(singleGraphicsCommands), p) + [command]]
    {
      singleGraphicsCommands := singleGraphicsCommands[p := Get(singleGraphicsCommands, p) + [command]];
    }

    /** Queues a repeated draw command for the pass. */
    method SubmitRepeatedDrawCommand(p: nat, command: nat)
      modifies this`repeatedGraphicsCommands
      ensures repeatedGraphicsCommands == old(repeatedGraphicsCommands)[p := Get(old(repeatedGraphicsCommands), p) + [command]]
    {
      repeatedGraphicsCommands := repeatedGraphicsCommands[p := Get(repeatedGraphicsCommands, p) + [command]];
    }

    /** Adds a pass and has its framebuffers made; a known pass changes nothing. */
    method RegisterForRenderPass(p: nat)
      modifies this`renderPasses, this`swapChainCalls
      ensures renderPasses == old(renderPasses) + {p}
      ensures p in old(renderPasses) ==> swapChainCalls == old(swapChainCalls)
      ensures p !in old(renderPasses) ==> swapChainCalls == old(swapChainCalls) + [CreateFramebuffers(p)]
    {
      if p in renderPasses {
        return;
      }
      swapChainCalls := swapChainCalls + [CreateFramebuffers(p)];
      renderPasses := renderPasses + {p};
    }

    /** Removes the pass, if present, and has its framebuffers destroyed. */
    method UnregisterFromRenderPass(p: nat)
      modifies this`renderPasses, this`swapChainCalls
      ensures renderPasses == old(renderPasses) - {p}
      ensures swapChainCalls == old(swapChainCalls) + [DestroyFramebuffers(p)]
    {
      if p in renderPasses {
        renderPasses := renderPasses - {p};
      }
      swapChainCalls := swapChainCalls + [DestroyFramebuffers(p)];
    }
  }
}
