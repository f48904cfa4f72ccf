/**
 * Descriptor-set layouts from shader reflection: the bindings one shader
 * module declares, and their merge across the modules of one shader.
 */
module ShaderReflection {

  /**
   * One bit of VkShaderStageFlags; a flags value is the set of its bits, so
   * `&` is intersection and `|` is union.
   */
  datatype ShaderStage = VertexStage | FragmentStage | ComputeStage | OtherStage(bit: nat)

  /** One descriptor-set layout binding with the reflection data kept beside it. */
  datatype Binding = Binding(
    name: string,
    binding: nat,
    descriptorType: nat,
    descriptorCount: nat,
    stageFlags: set<ShaderStage>,
    size: nat,
    info: BindingInfo)

  /** The reflection data the merge copies along without comparing it. */
  datatype BindingInfo = BindingInfo(
    inputAttachmentIndex: nat, setIndex: nat, resourceType: nat,
    offset: nat, absoluteOffset: nat, paddedSize: nat)

  /** The bindings of one descriptor set as declared by one module. */
  datatype IntermediateSet = IntermediateSet(setNumber: nat, bindings: seq<Binding>)

  /** A merged descriptor-set layout, one per set number. */
  datatype SetLayout = SetLayout(setNumber: nat, bindings: seq<Binding>)

  /** The reflection of one binding, as SPIRV-Reflect reports it. */
  datatype ReflectedBinding = ReflectedBinding(
    name: string, binding: nat, descriptorType: nat, dims: seq<nat>,
    inputAttachmentIndex: nat, setIndex: nat, resourceType: nat,
    offset: nat, absoluteOffset: nat, size: nat, paddedSize: nat)

  datatype ReflectedSet = ReflectedSet(setNumber: nat, bindings: seq<ReflectedBinding>)

  /** The reflection of one SPIR-V module: its stage and its descriptor sets. */
  datatype ModuleReflection = ModuleReflection(stage: ShaderStage, sets: seq<ReflectedSet>)

  const U32Modulus: nat := 0x1_0000_0000

  /** The product of the array dimensions. */
  function Product(dims: seq<nat>): nat
  {
    if dims == [] then 1 else Product(dims[..|dims| - 1]) * dims[|dims| - 1]
  }

  /** The product splits over concatenation, so it does not depend on how the dims are grouped. */
  lemma {:induction false} ProductAppend(a: seq<nat>, b: seq<nat>)
    ensures Product(a + b) == Product(a) * Product(b)
  {
    if b != [] {
      var init := b[..|b| - 1];
      var last := b[|b| - 1];
      assert (a + b)[..|a + b| - 1] == a + init;
      ProductAppend(a, init);
      calc {
        Product(a + b);
        Product(a + init) * last;
        (Product(a) * Product(init)) * last;
        Product(a) * (Product(init) * last);
        Product(a) * Product(b);
      }
    } else {
      assert a + b == a;
    }
  }

  /** A scalar has one descriptor, a one-dimensional array its length. */
  lemma ProductSmall(d: nat)
    ensures Product([]) == 1
    ensures Product([d]) == d
  {
    assert [d][..0] == [];
  }

  /** The descriptor count in uint32 arithmetic: the product of the dims modulo 2^32. */
  function DescriptorCount(dims: seq<nat>): nat
  {
    Product(dims) % U32Modulus
  }

  lemma SmallMultiple(k: int, m: int)
    requires m > 0 && -m < k * m < m
    ensures k == 0
  {
    if k >= 1 {
      MulAtLeast(k, m);
    } else if k <= -1 {
      MulAtLeast(-k, m);
    }
  }

  lemma MulAtLeast(k: int, m: int)
    requires k >= 1 && m > 0
    ensures k * m >= m
  {
    assert k * m == m + (k - 1) * m;
  }

  lemma ModUnique(x: nat, q: nat, r: nat, m: nat)
    requires m > 0 && r < m && x == q * m + r
    ensures x % m == r
  {
    var q0 := x / m;
    var r0 := x % m;
    assert (q - q0) * m == r0 - r;
    SmallMultiple(q - q0, m);
  }

  lemma ModMulLeft(x: nat, d: nat, m: nat)
    requires m > 0
    ensures (x % m) * d % m == x * d % m
  {
    var q := x / m;
    var r := x % m;
    assert x == q * m + r;
    Distribute(q, m, r, d);
    ModShift(x * d, r * d, q * d, m);
  }

  /** Adding a multiple of the modulus does not change the remainder. */
  lemma ModShift(y: nat, z: nat, k: nat, m: nat)
    requires m > 0 && y == k * m + z
    ensures z % m == y % m
  {
    var q1 := z / m;
    var r1 := z % m;
    assert z == q1 * m + r1;
    Factor(k, q1, m);
    ModUnique(y, k + q1, r1, m);
  }

  lemma Distribute(q: nat, m: nat, r: nat, d: nat)
    ensures (q * m + r) * d == (q * d) * m + r * d
  {
  }

  lemma Factor(a: nat, b: nat, m: nat)
    ensures a * m + b * m == (a + b) * m
  {
  }

  /**
   * The layout binding built for one reflected binding: the count
   * multiplies the array dimensions in uint32, and the stage is the
   * module's stage.
   */
  method MakeLayoutBinding(refl: ReflectedBinding, stage: ShaderStage) returns (b: Binding)
    ensures b == ToBinding(refl, stage)
  {
    var count: nat := 1;
    for i := 0 to |refl.dims|
      invariant count == DescriptorCount(refl.dims[..i])
    {
      assert refl.dims[..i + 1][..i] == refl.dims[..i];
      ModMulLeft(Product(refl.dims[..i]), refl.dims[i], U32Modulus);
      count := (count * refl.dims[i]) % U32Modulus;
    }
    assert refl.dims[..|refl.dims|] == refl.dims;
    b := Binding(refl.name, refl.binding, refl.descriptorType, count, {stage}, refl.size,
                 BindingInfo(refl.inputAttachmentIndex, refl.setIndex, refl.resourceType,
                             refl.offset, refl.absoluteOffset, refl.paddedSize));
  }

  /** The binding a reflected binding becomes. */
  function ToBinding(refl: ReflectedBinding, stage: ShaderStage): (b: Binding)
    ensures b.descriptorCount == Product(refl.dims) % U32Modulus && b.stageFlags == {stage}
    ensures b.name == refl.name && b.binding == refl.binding && b.info.setIndex == refl.setIndex
  {
    Binding(refl.name, refl.binding, refl.descriptorType, DescriptorCount(refl.dims), {stage}, refl.size,
            BindingInfo(refl.inputAttachmentIndex, refl.setIndex, refl.resourceType,
                        refl.offset, refl.absoluteOffset, refl.paddedSize))
  }

  /** The intermediate sets of one module, in reflection order. */
  function ModuleSets(m: ModuleReflection): (r: seq<IntermediateSet>)
    ensures |r| == |m.sets|
    ensures forall i :: 0 <= i < |r| ==>
              r[i].setNumber == m.sets[i].setNumber &&
              |r[i].bindings| == |m.sets[i].bindings| &&
              forall j :: 0 <= j < |r[i].bindings| ==> r[i].bindings[j] == ToBinding(m.sets[i].bindings[j], m.stage)
  {
    seq(|m.sets|, i requires 0 <= i < |m.sets| =>
      IntermediateSet(m.sets[i].setNumber,
        seq(|m.sets[i].bindings|, j requires 0 <= j < |m.sets[i].bindings| =>
          ToBinding(m.sets[i].bindings[j], m.stage))))
  }

  /** GetDescriptorSetsLayoutData: one intermediate set per reflected set. */
  method GetDescriptorSetsLayoutData(m: ModuleReflection) returns (r: seq<IntermediateSet>)
    ensures r == ModuleSets(m)
  {
    r := [];
    for i := 0 to |m.sets|
      invariant r == ModuleSets(m)[..i]
    {
      var rs := m.sets[i];
      var bindings: seq<Binding> := [];
      for j := 0 to |rs.bindings|
        invariant bindings == ModuleSets(m)[i].bindings[..j]
      {
        var b := MakeLayoutBinding(rs.bindings[j], m.stage);
        bindings := bindings + [b];
      }
      assert bindings == ModuleSets(m)[i].bindings;
      r := r + [IntermediateSet(rs.setNumber, bindings)];
    }
  }

  /** The intermediate sets of all modules, concatenated in module order. */
  function AllSets(modules: seq<ModuleReflection>): seq<IntermediateSet>
  {
    if modules == [] then [] else AllSets(modules[..|modules| - 1]) + ModuleSets(modules[|modules| - 1])
  }

  /** Two bindings of one name describe the same resource. */
  predicate SameDefinition(u: Binding, b: Binding)
  {
    u.descriptorType == b.descriptorType && u.size == b.size &&
    u.binding == b.binding && u.descriptorCount == b.descriptorCount
  }

  /** `u` is an earlier declaration of `b`: same name and same definition. */
  predicate Matches(u: Binding, b: Binding)
  {
    u.name == b.name && SameDefinition(u, b)
  }

  /** How the stage flags of a repeated binding are combined. */
  datatype StageCombine = AndStages | OrStages

  function Combine(op: StageCombine, a: set<ShaderStage>, b: set<ShaderStage>): set<ShaderStage>
  {
    match op
    case AndStages => a * b
    case OrStages => a + b
  }

  /**
   * An existing binding after meeting `b`: only its stages can change, and
   * only when it matches; with OR it then carries the stages of both, with
   * AND the stages they share.
   */
  function Absorb(op: StageCombine, u: Binding, b: Binding): (r: Binding)
    ensures r.(stageFlags := u.stageFlags) == u
    ensures !Matches(u, b) ==> r == u
    ensures op == OrStages ==> u.stageFlags <= r.stageFlags && (Matches(u, b) ==> b.stageFlags <= r.stageFlags)
    ensures op == AndStages ==> r.stageFlags <= u.stageFlags
    ensures Matches(u, b) ==> forall s :: s in r.stageFlags <==>
              (if op == OrStages then s in u.stageFlags || s in b.stageFlags else s in u.stageFlags && s in b.stageFlags)
  {
    if Matches(u, b) then u.(stageFlags := Combine(op, u.stageFlags, b.stageFlags)) else u
  }

  predicate Contains(bs: seq<Binding>, b: Binding)
  {
    exists k :: 0 <= k < |bs| && Matches(bs[k], b)
  }

  /**
   * One incoming binding merged into a set's bindings: every matching
   * entry takes its stages, and it is appended when nothing matches.
   */
  function MergeBinding(op: StageCombine, bs: seq<Binding>, b: Binding): (r: seq<Binding>)
    ensures Contains(bs, b) ==> |r| == |bs| && forall k :: 0 <= k < |bs| ==> r[k] == Absorb(op, bs[k], b)
    ensures !Contains(bs, b) ==> r == bs + [b]
  {
    var scanned := seq(|bs|, k requires 0 <= k < |bs| => Absorb(op, bs[k], b));
    if Contains(bs, b) then scanned else bs + [b]
  }

  /** A same-name entry with a different definition: each is reported. */
  predicate Conflicting(u: Binding, b: Binding)
  {
    u.name == b.name && !SameDefinition(u, b)
  }

  /** The names reported while scanning `bs` for `b`, one per conflicting entry. */
  function Conflicts(bs: seq<Binding>, b: Binding): seq<string>
  {
    ConflictsBefore(bs, b, |bs|)
  }

  /** The names reported for the first k entries of `bs`. */
  function ConflictsBefore(bs: seq<Binding>, b: Binding, k: nat): seq<string>
    requires k <= |bs|
  {
    if k == 0 then []
    else ConflictsBefore(bs, b, k - 1) + (if Conflicting(bs[k - 1], b) then [bs[k - 1].name] else [])
  }

  /** The bindings of one set after merging `incoming` in order. */
  function MergeAll(op: StageCombine, bs: seq<Binding>, incoming: seq<Binding>): seq<Binding>
  {
    if incoming == [] then bs
    else MergeBinding(op, MergeAll(op, bs, incoming[..|incoming| - 1]), incoming[|incoming| - 1])
  }

  /** The merge state: bindings per set number and the conflicts reported. */
  datatype MergeState = MergeState(sets: map<nat, seq<Binding>>, conflicts: seq<string>)

  function ConflictsAll(bs: seq<Binding>, incoming: seq<Binding>, op: StageCombine): seq<string>
  {
    if incoming == [] then []
    else ConflictsAll(bs, incoming[..|incoming| - 1], op) +
         Conflicts(MergeAll(op, bs, incoming[..|incoming| - 1]), incoming[|incoming| - 1])
  }

  /** One intermediate set merged into the state; a new set number starts empty. */
  function MergeSet(op: StageCombine, st: MergeState, s: IntermediateSet): MergeState
  {
    var bs := if s.setNumber in st.sets then st.sets[s.setNumber] else [];
    MergeState(st.sets[s.setNumber := MergeAll(op, bs, s.bindings)],
               st.conflicts + ConflictsAll(bs, s.bindings, op))
  }

  /** The state after merging every intermediate set in order. */
  function MergeSets(op: StageCombine, sets: seq<IntermediateSet>): MergeState
  {
    if sets == [] then MergeState(map[], [])
    else MergeSet(op, MergeSets(op, sets[..|sets| - 1]), sets[|sets| - 1])
  }

  lemma MergeSetsStep(op: StageCombine, sets: seq<IntermediateSet>, i: nat)
    requires i < |sets|
    ensures MergeSets(op, sets[..i + 1]) == MergeSet(op, MergeSets(op, sets[..i]), sets[i])
  {
    assert sets[..i + 1][..i] == sets[..i];
  }

  /** The least element of a non-empty set. */
  function Min(s: set<nat>): (m: nat)
    requires s != {}
    ensures m in s && forall x :: x in s ==> m <= x
  {
    MinExists(s);
    var m :| m in s && forall x | x in s :: m <= x;
    m
  }

  lemma MinExists(s: set<nat>)
    requires s != {}
    ensures exists m :: m in s && forall x | x in s :: m <= x
  {
    var y :| y in s;
    MinBelow(s, y);
  }

  /** A set with an element at most n has a least element. */
  lemma {:induction false} MinBelow(s: set<nat>, n: nat)
    requires exists x :: x in s && x <= n
    ensures exists m :: m in s && forall x | x in s :: m <= x
  {
    if n > 0 && exists x :: x in s && x <= n - 1 {
      MinBelow(s, n - 1);
    } else {
      var w :| w in s && w <= n;
      assert forall x | x in s :: w <= x;
    }
  }

  /** The elements of a set in ascending order: the iteration order of a std::map. */
  function SortedKeys(s: set<nat>): (r: seq<nat>)
    ensures forall i, j :: 0 <= i < j < |r| ==> r[i] < r[j]
    ensures forall x :: x in s <==> x in r
    decreases s
  {
    if s == {} then []
    else
      var m := Min(s);
      [m] + SortedKeys(s - {m})
  }

  /** The merged layouts in ascending set-number order. */
  function Layouts(m: map<nat, seq<Binding>>): (r: seq<SetLayout>)
    ensures |r| == |SortedKeys(m.Keys)|
    ensures forall i :: 0 <= i < |r| ==> r[i].setNumber == SortedKeys(m.Keys)[i] &&
                                         r[i].bindings == m[r[i].setNumber]
  {
    var keys := SortedKeys(m.Keys);
    seq(|keys|, i requires 0 <= i < |keys| => SetLayout(keys[i], m[keys[i]]))
  }

  /**
   * GetMergedDescriptorSetsLayoutData as written: the sets of all modules
   * are merged per set number; the stage flags of a repeated binding are
   * ANDed, and a same-name binding with another definition is reported and
   * kept. Returns the layouts in set-number order and the reported names.
   */
  method GetMergedDescriptorSetsLayoutData(modules: seq<ModuleReflection>)
    returns (layouts: seq<SetLayout>, conflicts: seq<string>)
    ensures layouts == Layouts(MergeSets(AndStages, AllSets(modules)).sets)
    ensures conflicts == MergeSets(AndStages, AllSets(modules)).conflicts
  {
    var intermediate := ConcatenateModuleSets(modules);
    var unique;
    unique, conflicts := MergeIntoSets(intermediate);
    layouts := OrderedLayouts(unique);
  }

  /** The intermediate sets of every module, appended in module order. */
  method ConcatenateModuleSets(modules: seq<ModuleReflection>) returns (intermediate: seq<IntermediateSet>)
    ensures intermediate == AllSets(modules)
  {
    intermediate := [];
    for i := 0 to |modules|
      invariant intermediate == AllSets(modules[..i])
    {
      var sets := GetDescriptorSetsLayoutData(modules[i]);
      assert modules[..i + 1][..i] == modules[..i];
      intermediate := intermediate + sets;
    }
    assert modules[..|modules|] == modules;
  }

  /** The bindings per set number, each set merged in turn into the map. */
  method MergeIntoSets(intermediate: seq<IntermediateSet>) returns (unique: map<nat, seq<Binding>>, conflicts: seq<string>)
    ensures MergeState(unique, conflicts) == MergeSets(AndStages, intermediate)
  {
    unique := map[];
    conflicts := [];
    for i := 0 to |intermediate|
      invariant MergeState(unique, conflicts) == MergeSets(AndStages, intermediate[..i])
    {
      MergeSetsStep(AndStages, intermediate, i);
      var s := intermediate[i];
      if s.setNumber !in unique {
        unique := unique[s.setNumber := []];
      }
      var bs, reported := MergeSetBindings(unique[s.setNumber], s.bindings);
      unique := unique[s.setNumber := bs];
      conflicts := conflicts + reported;
    }
    assert intermediate[..|intermediate|] == intermediate;
  }

  /** The layouts in the map's key order. */
  method OrderedLayouts(unique: map<nat, seq<Binding>>) returns (layouts: seq<SetLayout>)
    ensures layouts == Layouts(unique)
  {
    var keys := SortedKeys(unique.Keys);
    layouts := LayoutsOf(unique, keys);
  }

  /** The layouts of the given set numbers of the map, in the given order. */
  method LayoutsOf(unique: map<nat, seq<Binding>>, keys: seq<nat>) returns (layouts: seq<SetLayout>)
    requires forall k :: k in keys ==> k in unique
    ensures |layouts| == |keys|
    ensures forall j :: 0 <= j < |keys| ==> layouts[j] == SetLayout(keys[j], unique[keys[j]])
  {
    layouts := [];
    for i := 0 to |keys|
      invariant |layouts| == i
      invariant forall j :: 0 <= j < i ==> layouts[j] == SetLayout(keys[j], unique[keys[j]])
    {
      layouts := layouts + [SetLayout(keys[i], unique[keys[i]])];
    }
  }

  /** The bindings of one set merged in order, with the names reported on the way. */
  method MergeSetBindings(start: seq<Binding>, incoming: seq<Binding>) returns (bs: seq<Binding>, reported: seq<string>)
    ensures bs == MergeAll(AndStages, start, incoming)
    ensures reported == ConflictsAll(start, incoming, AndStages)
  {
    bs := start;
    reported := [];
    for j := 0 to |incoming|
      invariant bs == MergeAll(AndStages, start, incoming[..j])
      invariant reported == ConflictsAll(start, incoming[..j], AndStages)
    {
      assert incoming[..j + 1][..j] == incoming[..j];
      var more;
      bs, more := ScanBinding(bs, incoming[j]);
      reported := reported + more;
    }
    assert incoming[..|incoming|] == incoming;
  }

  /**
   * The scan over existing bindings for one incoming binding: matching
   * entries AND in its stages, conflicting ones are reported, and it is
   * appended when nothing matched.
   */
  method ScanBinding(existing: seq<Binding>, b: Binding) returns (bs: seq<Binding>, reported: seq<string>)
    ensures bs == MergeBinding(AndStages, existing, b)
    ensures reported == Conflicts(existing, b)
  {
    bs := existing;
    reported := [];
    var contains := false;
    for k := 0 to |bs|
      invariant |bs| == |existing|
      invariant forall t :: 0 <= t < k ==> bs[t] == Absorb(AndStages, existing[t], b)
      invariant forall t :: k <= t < |bs| ==> bs[t] == existing[t]
      invariant contains <==> exists t :: 0 <= t < k && Matches(existing[t], b)
      invariant reported == ConflictsBefore(existing, b, k)
    {
      var u := bs[k];
      if u.name == b.name {
        if SameDefinition(u, b) {
          contains := true;
          bs := bs[k := u.(stageFlags := u.stageFlags * b.stageFlags)];
        } else {
          reported := reported + [u.name];
        }
      }
      assert bs[k] == Absorb(AndStages, existing[k], b);
    }
    if !contains {
      assert bs == existing;
      bs := bs + [b];
    }
  }


  /** `a` is `b` with possibly other stage flags. */
  predicate SameButStages(a: Binding, b: Binding)
  {
    a == b.(stageFlags := a.stageFlags)
  }

  /** No two entries of a set describe the same binding. */
  predicate Distinct(bs: seq<Binding>)
  {
    forall i, j :: 0 <= i < j < |bs| ==> !Matches(bs[i], bs[j])
  }

  /** Merging one binding keeps every entry but its stages, keeps what was contained, and contains the binding. */
  lemma MergeBindingKeeps(op: StageCombine, bs: seq<Binding>, b: Binding)
    ensures var r := MergeBinding(op, bs, b);
            |bs| <= |r| && (forall k :: 0 <= k < |bs| ==> SameButStages(r[k], bs[k])) &&
            Contains(r, b) && (forall y :: Contains(bs, y) ==> Contains(r, y))
  {
    var r := MergeBinding(op, bs, b);
    forall y | Contains(bs, y)
      ensures Contains(r, y)
    {
      var k :| 0 <= k < |bs| && Matches(bs[k], y);
      assert Matches(r[k], y);
    }
    if Contains(bs, b) {
      var k :| 0 <= k < |bs| && Matches(bs[k], b);
      assert Matches(r[k], b);
    } else {
      assert r[|bs|] == b;
    }
  }

  /**
   * Merging keeps the existing entries in place, changing only their
   * stages, so bindings stay in order of first appearance; and every
   * incoming binding ends up described by some entry.
   */
  lemma {:induction false} MergeAllKeeps(op: StageCombine, bs: seq<Binding>, incoming: seq<Binding>)
    ensures var r := MergeAll(op, bs, incoming);
            |bs| <= |r| && (forall k :: 0 <= k < |bs| ==> SameButStages(r[k], bs[k])) &&
            (forall j :: 0 <= j < |incoming| ==> Contains(r, incoming[j])) &&
            (forall y :: Contains(bs, y) ==> Contains(r, y))
  {
    if incoming != [] {
      var init := incoming[..|incoming| - 1];
      var last := incoming[|incoming| - 1];
      var prev := MergeAll(op, bs, init);
      MergeAllKeeps(op, bs, init);
      MergeBindingKeeps(op, prev, last);
      var r := MergeAll(op, bs, incoming);
      forall j | 0 <= j < |incoming|
        ensures Contains(r, incoming[j])
      {
        if j < |incoming| - 1 {
          assert incoming[j] == init[j];
        }
      }
    }
  }

  /** Merging never creates two entries for one binding. */
  lemma {:induction false} MergeAllDistinct(op: StageCombine, bs: seq<Binding>, incoming: seq<Binding>)
    requires Distinct(bs)
    ensures Distinct(MergeAll(op, bs, incoming))
  {
    if incoming != [] {
      var init := incoming[..|incoming| - 1];
      var last := incoming[|incoming| - 1];
      var prev := MergeAll(op, bs, init);
      MergeAllDistinct(op, bs, init);
      var r := MergeBinding(op, prev, last);
      MergeBindingKeeps(op, prev, last);
      forall i, j | 0 <= i < j < |r|
        ensures !Matches(r[i], r[j])
      {
        if j == |prev| {
          assert r[j] == last;
          assert !Matches(prev[i], last);
        } else {
          assert !Matches(prev[i], prev[j]);
        }
      }
    }
  }

  /** An entry for `x` that carries all of x's stages. */
  predicate Covered(bs: seq<Binding>, x: Binding)
  {
    exists k :: 0 <= k < |bs| && Matches(bs[k], x) && x.stageFlags <= bs[k].stageFlags
  }

  /** With stages ORed, merging one binding keeps every coverage. */
  lemma OrMergeBindingKeepsCover(bs: seq<Binding>, b: Binding, y: Binding)
    requires Covered(bs, y)
    ensures Covered(MergeBinding(OrStages, bs, b), y)
  {
    var r := MergeBinding(OrStages, bs, b);
    var k :| 0 <= k < |bs| && Matches(bs[k], y) && y.stageFlags <= bs[k].stageFlags;
    if Contains(bs, b) {
      assert r[k] == Absorb(OrStages, bs[k], b);
    } else {
      assert r[k] == bs[k];
    }
  }

  /** With stages ORed, the merged binding is covered. */
  lemma OrMergeBindingCovers(bs: seq<Binding>, b: Binding)
    ensures Covered(MergeBinding(OrStages, bs, b), b)
  {
    var r := MergeBinding(OrStages, bs, b);
    if Contains(bs, b) {
      var k :| 0 <= k < |bs| && Matches(bs[k], b);
      assert r[k] == Absorb(OrStages, bs[k], b);
    } else {
      assert r[|bs|] == b;
    }
  }

  /**
   * With the stages ORed, every binding of every merged module ends up in
   * an entry whose stages include the stages of that binding.
   */
  lemma {:induction false} OrMergeAllCovers(bs: seq<Binding>, incoming: seq<Binding>)
    ensures forall j :: 0 <= j < |incoming| ==> Covered(MergeAll(OrStages, bs, incoming), incoming[j])
    ensures forall y :: Covered(bs, y) ==> Covered(MergeAll(OrStages, bs, incoming), y)
  {
    if incoming != [] {
      var init := incoming[..|incoming| - 1];
      var last := incoming[|incoming| - 1];
      var prev := MergeAll(OrStages, bs, init);
      OrMergeAllCovers(bs, init);
      OrMergeBindingCovers(prev, last);
      forall y | Covered(prev, y)
        ensures Covered(MergeAll(OrStages, bs, incoming), y)
      {
        OrMergeBindingKeepsCover(prev, last, y);
      }
      forall j | 0 <= j < |incoming| - 1
        ensures Covered(MergeAll(OrStages, bs, incoming), incoming[j])
      {
        assert incoming[j] == init[j];
      }
    }
  }

  /** Every binding of the set is described, with its stages, in the set's entry of `m`. */
  predicate SetCovered(s: IntermediateSet, m: map<nat, seq<Binding>>)
  {
    s.setNumber in m && forall j :: 0 <= j < |s.bindings| ==> Covered(m[s.setNumber], s.bindings[j])
  }

  /** Every binding of every set is described, with its stages, in its set's entry of `m`. */
  predicate CoversAll(sets: seq<IntermediateSet>, m: map<nat, seq<Binding>>)
  {
    forall i :: 0 <= i < |sets| ==> SetCovered(sets[i], m)
  }

  /**
   * With the stages ORed, every binding of every intermediate set is
   * described in its set's merged layout by an entry carrying its stages.
   */
  lemma {:induction false} OrMergeSetsCovers(sets: seq<IntermediateSet>)
    ensures CoversAll(sets, MergeSets(OrStages, sets).sets)
  {
    if sets != [] {
      var init := sets[..|sets| - 1];
      OrMergeSetsCovers(init);
      OrMergeSetCovers(init, MergeSets(OrStages, init), sets[|sets| - 1]);
      assert init + [sets[|sets| - 1]] == sets;
    }
  }

  /** Merging one more set with the stages ORed keeps every coverage and covers the new set. */
  lemma OrMergeSetCovers(sets: seq<IntermediateSet>, st: MergeState, last: IntermediateSet)
    requires CoversAll(sets, st.sets)
    ensures CoversAll(sets + [last], MergeSet(OrStages, st, last).sets)
  {
    var all := sets + [last];
    forall i | 0 <= i < |all|
      ensures SetCovered(all[i], MergeSet(OrStages, st, last).sets)
    {
      if i < |sets| {
        assert all[i] == sets[i];
        OrMergeSetKeepsCover(st, last, sets[i]);
      } else {
        assert all[i] == last;
        OrMergeSetCoversNew(st, last);
      }
    }
  }

  /** Merging a set with the stages ORed keeps the coverage of any set. */
  lemma OrMergeSetKeepsCover(st: MergeState, last: IntermediateSet, s: IntermediateSet)
    requires SetCovered(s, st.sets)
    ensures SetCovered(s, MergeSet(OrStages, st, last).sets)
  {
    if s.setNumber == last.setNumber {
      OrMergeAllCovers(st.sets[s.setNumber], last.bindings);
    }
  }

  /** Merging a set with the stages ORed covers each of its bindings. */
  lemma OrMergeSetCoversNew(st: MergeState, last: IntermediateSet)
    ensures SetCovered(last, MergeSet(OrStages, st, last).sets)
  {
    var bs := if last.setNumber in st.sets then st.sets[last.setNumber] else [];
    OrMergeAllCovers(bs, last.bindings);
  }

  /**
   * As written, the same uniform seen by a vertex and a fragment module is
   * merged into one entry with no stage at all.
   */
  lemma AndMergeDropsStages(u: Binding)
    requires u.stageFlags == {VertexStage}
    ensures MergeBinding(AndStages, [u], u.(stageFlags := {FragmentStage})) == [u.(stageFlags := {})]
    ensures !Covered(MergeBinding(AndStages, [u], u.(stageFlags := {FragmentStage})), u)
  {
    var r := MergeBinding(AndStages, [u], u.(stageFlags := {FragmentStage}));
    assert Matches([u][0], u.(stageFlags := {FragmentStage}));
    assert r[0] == u.(stageFlags := {});
    assert VertexStage !in r[0].stageFlags;
  }

  /** The set numbers of a merge are those of its inputs. */
  lemma {:induction false} MergeSetsKeys(op: StageCombine, sets: seq<IntermediateSet>)
    ensures MergeSets(op, sets).sets.Keys == (set i | 0 <= i < |sets| :: sets[i].setNumber)
  {
    if sets != [] {
      var init := sets[..|sets| - 1];
      MergeSetsKeys(op, init);
      assert forall i :: 0 <= i < |init| ==> init[i] == sets[i];
      assert (set i | 0 <= i < |sets| :: sets[i].setNumber) ==
             (set i | 0 <= i < |init| :: init[i].setNumber) + {sets[|sets| - 1].setNumber};
    }
  }

  /**
   * The merged output has exactly one layout per set number that occurs in
   * any module, in strictly ascending set order.
   */
  lemma MergedLayoutsPerSet(op: StageCombine, modules: seq<ModuleReflection>)
    ensures var sets := AllSets(modules);
            var ls := Layouts(MergeSets(op, sets).sets);
            (forall i, j :: 0 <= i < j < |ls| ==> ls[i].setNumber < ls[j].setNumber) &&
            (set i | 0 <= i < |ls| :: ls[i].setNumber) == (set i | 0 <= i < |sets| :: sets[i].setNumber)
  {
    var sets := AllSets(modules);
    MergeSetsKeys(op, sets);
    var m := MergeSets(op, sets).sets;
    var ls := Layouts(m);
    var keys := SortedKeys(m.Keys);
    forall n | n in m.Keys
      ensures n in (set i | 0 <= i < |ls| :: ls[i].setNumber)
    {
      var i :| 0 <= i < |keys| && keys[i] == n;
      assert ls[i].setNumber == n;
    }
  }
}
