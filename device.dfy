/**
 * Physical-device selection rules: queue-family choice, memory-type search,
 * sample-count choice, device score, swap-chain image count and extension
 * support.
 */
module Device {
  import opened Wrappers

  /** VkQueueFlagBits. */
  const Graphics: bv32 := 0x1
  const Compute: bv32 := 0x2
  const Transfer: bv32 := 0x4
  const SparseBinding: bv32 := 0x8
  const Protected: bv32 := 0x10
  const VideoDecode: bv32 := 0x20
  const OpticalFlow: bv32 := 0x100

  /** A family offers every requested flag. */
  predicate Offers(family: bv32, flags: bv32)
  {
    family & flags == flags
  }

  function Bit(family: bv32, flag: bv32): nat
  {
    if family & flag != 0 then 1 else 0
  }

  /** How many of the seven counted kinds of operation a family supports. */
  function OpCount(family: bv32): (r: nat)
    ensures r <= 7
  {
    Bit(family, Compute) + Bit(family, Graphics) + Bit(family, OpticalFlow) + Bit(family, Protected) +
    Bit(family, SparseBinding) + Bit(family, Transfer) + Bit(family, VideoDecode)
  }

  /**
   * The map SelectQueue builds over the families: for each operation count,
   * the first family offering the flags with that count. Inserting a count
   * that is already present keeps the old entry.
   */
  function Kept(families: seq<bv32>, flags: bv32): (m: map<nat, nat>)
    ensures forall c :: c in m ==> c <= 7 && m[c] < |families|
    decreases |families|
  {
    if families == [] then map[]
    else
      var i := |families| - 1;
      var m := Kept(families[..i], flags);
      if Offers(families[i], flags) && OpCount(families[i]) !in m then m[OpCount(families[i]) := i] else m
  }

  /** The first kept family, by ascending count from `c`, that is not taken:
      every kept family at a lower count from `c` is taken. */
  function FirstUntaken(m: map<nat, nat>, taken: set<nat>, c: nat): (r: Option<nat>)
    ensures r.Some? ==> exists k :: c <= k <= 7 && k in m && m[k] == r.value && r.value !in taken &&
                                    forall j :: c <= j < k && j in m ==> m[j] in taken
    ensures r.None? ==> forall k :: c <= k <= 7 && k in m ==> m[k] in taken
    decreases 8 - c
  {
    if c > 7 then None
    else if c in m && m[c] !in taken then Some(m[c])
    else FirstUntaken(m, taken, c + 1)
  }

  /** The kept family with the smallest count from `c` on. */
  function FirstKept(m: map<nat, nat>, c: nat): (r: Option<nat>)
    ensures r.Some? ==> exists k :: c <= k <= 7 && k in m && m[k] == r.value && forall j :: c <= j < k ==> j !in m
    ensures r.None? ==> forall k :: c <= k <= 7 ==> k !in m
    decreases 8 - c
  {
    if c > 7 then None
    else if c in m then Some(m[c])
    else FirstKept(m, c + 1)
  }

  /** What SelectQueue returns; None stands for its invalid_argument exception. */
  function SelectQueueSpec(families: seq<bv32>, taken: set<nat>, flags: bv32): Option<nat>
  {
    var m := Kept(families, flags);
    match FirstUntaken(m, taken, 0)
    case Some(i) => Some(i)
    case None => FirstKept(m, 0)
  }

  /**
   * SelectQueue: among the families offering all requested flags, keeps the
   * first one per operation count, then returns by ascending count the first
   * kept family not yet taken, else the kept family with the fewest
   * operations, else fails.
   */
  method SelectQueue(families: seq<bv32>, taken: set<nat>, flags: bv32) returns (r: Option<nat>)
    ensures r == SelectQueueSpec(families, taken, flags)
  {
    var smallest: map<nat, nat> := map[];
    for i := 0 to |families|
      invariant smallest == Kept(families[..i], flags)
    {
      assert families[..i + 1][..i] == families[..i];
      var ops := OpCount(families[i]);
      if Offers(families[i], flags) && ops !in smallest {
        smallest := smallest[ops := i];
      }
    }
    assert families[..|families|] == families;
    for c := 0 to 8
      invariant FirstUntaken(smallest, taken, 0) == FirstUntaken(smallest, taken, c)
    {
      if c in smallest && smallest[c] !in taken {
        return Some(smallest[c]);
      }
    }
    for c := 0 to 8
      invariant FirstKept(smallest, 0) == FirstKept(smallest, c)
    {
      if c in smallest {
        return Some(smallest[c]);
      }
    }
    return None;
  }

  /**
   * Each kept entry is the lowest-index family offering the flags with that
   * operation count, and a count is kept exactly when such a family exists.
   */
  lemma {:induction false} KeptIsLowest(families: seq<bv32>, flags: bv32, c: nat)
    ensures c in Kept(families, flags) ==>
              var i := Kept(families, flags)[c];
              Offers(families[i], flags) && OpCount(families[i]) == c &&
              forall j :: 0 <= j < i ==> !(Offers(families[j], flags) && OpCount(families[j]) == c)
    ensures c !in Kept(families, flags) ==>
              forall j :: 0 <= j < |families| ==> !(Offers(families[j], flags) && OpCount(families[j]) == c)
    decreases |families|
  {
    if families != [] {
      var n := |families| - 1;
      var pre := families[..n];
      KeptIsLowest(pre, flags, c);
      assert forall j :: 0 <= j < n ==> pre[j] == families[j];
    }
  }

  /** A selected family offers every requested flag. */
  lemma SelectQueueOffers(families: seq<bv32>, taken: set<nat>, flags: bv32)
    ensures var r := SelectQueueSpec(families, taken, flags);
            r.Some? ==> r.value < |families| && Offers(families[r.value], flags)
  {
    var r := SelectQueueSpec(families, taken, flags);
    if r.Some? {
      var m := Kept(families, flags);
      var k :| k <= 7 && k in m && m[k] == r.value;
      KeptIsLowest(families, flags, k);
    }
  }

  /** Selection fails exactly when no family offers the requested flags. */
  lemma SelectQueueFails(families: seq<bv32>, taken: set<nat>, flags: bv32)
    ensures SelectQueueSpec(families, taken, flags).None? <==>
            forall j :: 0 <= j < |families| ==> !Offers(families[j], flags)
  {
    var m := Kept(families, flags);
    if SelectQueueSpec(families, taken, flags).None? {
      forall j | 0 <= j < |families| ensures !Offers(families[j], flags) {
        KeptIsLowest(families, flags, OpCount(families[j]));
      }
    } else {
      SelectQueueOffers(families, taken, flags);
    }
  }

  /**
   * The preference order: a taken family is returned only when every kept
   * family is taken, and then it has the fewest operations of all kept
   * families; an untaken one has the fewest operations among the untaken
   * kept families.
   */
  lemma SelectQueuePrefersUntaken(families: seq<bv32>, taken: set<nat>, flags: bv32)
    ensures var r := SelectQueueSpec(families, taken, flags);
            var m := Kept(families, flags);
            r.Some? && r.value in taken ==> forall k :: k in m ==> m[k] in taken
    ensures var r := SelectQueueSpec(families, taken, flags);
            var m := Kept(families, flags);
            r.Some? && r.value in taken ==> forall k :: k in m ==> OpCount(families[r.value]) <= k
    ensures var r := SelectQueueSpec(families, taken, flags);
            var m := Kept(families, flags);
            r.Some? && r.value !in taken ==>
              forall k :: k in m && m[k] !in taken ==> OpCount(families[r.value]) <= k
  {
    var m := Kept(families, flags);
    var u := FirstUntaken(m, taken, 0);
    if u.Some? {
      var k0 :| k0 <= 7 && k0 in m && m[k0] == u.value && u.value !in taken &&
                forall j :: 0 <= j < k0 && j in m ==> m[j] in taken;
      KeptIsLowest(families, flags, k0);
    } else {
      var f := FirstKept(m, 0);
      if f.Some? {
        var k0 :| k0 <= 7 && k0 in m && m[k0] == f.value && forall j :: 0 <= j < k0 ==> j !in m;
        KeptIsLowest(families, flags, k0);
      }
    }
  }

  /** QueueFamilyIndices: one optional family per role. */
  datatype QueueFamilyIndices = QueueFamilyIndices(
    computeFamily: Option<nat>, graphicsFamily: Option<nat>,
    presentFamily: Option<nat>, transferFamily: Option<nat>)
  {
    predicate IsComplete()
    {
      computeFamily.Some? && graphicsFamily.Some? && presentFamily.Some? && transferFamily.Some?
    }
  }

  const NoIndices := QueueFamilyIndices(None, None, None, None)

  /** The last family whose surface support is reported, if any. */
  function LastSupported(support: seq<bool>): (r: Option<nat>)
    ensures r.Some? ==> r.value < |support| && support[r.value]
    ensures r.Some? ==> forall j :: r.value < j < |support| ==> !support[j]
    ensures r.None? ==> forall j :: 0 <= j < |support| ==> !support[j]
  {
    if support == [] then None
    else if support[|support| - 1] then Some(|support| - 1)
    else LastSupported(support[..|support| - 1])
  }

  /**
   * The indices a fresh query finds: graphics first, then compute with the
   * graphics family taken, then transfer (with graphics) with both taken,
   * and the last family that can present. None when a selection fails.
   */
  function QueryIndicesSpec(families: seq<bv32>, support: seq<bool>): Option<QueueFamilyIndices>
  {
    match SelectQueueSpec(families, {}, Graphics)
    case None => None
    case Some(g) =>
      match SelectQueueSpec(families, {g}, Compute)
      case None => None
      case Some(c) =>
        match SelectQueueSpec(families, {g, c}, Transfer | Graphics)
        case None => None
        case Some(t) => Some(QueueFamilyIndices(Some(c), Some(g), LastSupported(support), Some(t)))
  }

  /** Every family a query finds offers the operations of its role. */
  lemma QueryIndicesRoles(families: seq<bv32>, support: seq<bool>)
    ensures var r := QueryIndicesSpec(families, support);
            r.Some? ==>
              var q := r.value;
              q.graphicsFamily.Some? && q.computeFamily.Some? && q.transferFamily.Some? &&
              q.graphicsFamily.value < |families| && Offers(families[q.graphicsFamily.value], Graphics) &&
              q.computeFamily.value < |families| && Offers(families[q.computeFamily.value], Compute) &&
              q.transferFamily.value < |families| && Offers(families[q.transferFamily.value], Transfer | Graphics) &&
              q.presentFamily == LastSupported(support)
  {
    var r := QueryIndicesSpec(families, support);
    if r.Some? {
      var g := SelectQueueSpec(families, {}, Graphics).value;
      var c := SelectQueueSpec(families, {g}, Compute).value;
      SelectQueueOffers(families, {}, Graphics);
      SelectQueueOffers(families, {g}, Compute);
      SelectQueueOffers(families, {g, c}, Transfer | Graphics);
    }
  }

  /** The queue families of one physical device and the indices chosen for it. */
  class PhysicalDevice {
    const queueFamilies: seq<bv32>
    var queueFamilyIndices: QueueFamilyIndices

    constructor (families: seq<bv32>)
      ensures queueFamilies == families && queueFamilyIndices == NoIndices
    {
      queueFamilies := families;
      queueFamilyIndices := NoIndices;
    }

    /**
     * QueryQueueFamilyIndices, with the surface-support answer for each
     * family as a parameter. Complete indices are kept as they are; a
     * failed selection (an exception in the source) leaves them unchanged.
     */
    method QueryQueueFamilyIndices(support: seq<bool>) returns (ok: bool)
      requires |support| == |queueFamilies|
      modifies this`queueFamilyIndices
      ensures old(queueFamilyIndices).IsComplete() ==> ok && queueFamilyIndices == old(queueFamilyIndices)
      ensures !old(queueFamilyIndices).IsComplete() ==>
                ok == QueryIndicesSpec(queueFamilies, support).Some? &&
                queueFamilyIndices == if ok then QueryIndicesSpec(queueFamilies, support).value
                                      else old(queueFamilyIndices)
    {
      if queueFamilyIndices.IsComplete() {
        return true;
      }
      var g := SelectQueue(queueFamilies, {}, Graphics);
      if g.None? { return false; }
      var c := SelectQueue(queueFamilies, {g.value}, Compute);
      if c.None? { return false; }
      var t := SelectQueue(queueFamilies, {g.value, c.value}, Transfer | Graphics);
      if t.None? { return false; }
      var present: Option<nat> := None;
      for i := 0 to |queueFamilies|
        invariant present == LastSupported(support[..i])
      {
        assert support[..i + 1][..i] == support[..i];
        if support[i] {
          present := Some(i);
        }
      }
      assert support[..|queueFamilies|] == support;
      queueFamilyIndices := QueueFamilyIndices(c, g, present, t);
      ok := true;
    }
  }

  /** 1 << i on a 32-bit unsigned value. */
  function Shl(i: nat): bv32
    requires i < 32
  {
    (1 as bv32) << i
  }

  /** Memory type `i` passes the filter and has every requested property. */
  predicate Suitable(memoryTypes: seq<bv32>, typeFilter: bv32, properties: bv32, i: nat)
    requires i < |memoryTypes| <= 32
  {
    typeFilter & Shl(i) != 0 && memoryTypes[i] & properties == properties
  }

  /**
   * FindMemoryType over the property flags of the device's memory types
   * (at most 32 in Vulkan): the lowest suitable index, or None for the
   * runtime_error.
   */
  method FindMemoryType(memoryTypes: seq<bv32>, typeFilter: bv32, properties: bv32) returns (r: Option<nat>)
    requires |memoryTypes| <= 32
    ensures r.Some? ==> r.value < |memoryTypes| && Suitable(memoryTypes, typeFilter, properties, r.value)
    ensures r.Some? ==> forall j :: 0 <= j < r.value ==> !Suitable(memoryTypes, typeFilter, properties, j)
    ensures r.None? ==> forall j :: 0 <= j < |memoryTypes| ==> !Suitable(memoryTypes, typeFilter, properties, j)
  {
    for i := 0 to |memoryTypes|
      invariant forall j :: 0 <= j < i ==> !Suitable(memoryTypes, typeFilter, properties, j)
    {
      if Suitable(memoryTypes, typeFilter, properties, i) {
        return Some(i);
      }
    }
    return None;
  }

  /** VkSampleCountFlagBits, from e64 down to e2; e1 is the fallback. */
  const SampleCounts: seq<bv32> := [64, 32, 16, 8, 4, 2]

  /**
   * GetMaxUsableFramebufferSampleCount: the highest sample count up to 64
   * that both the colour and the depth limits support, else 1.
   */
  function MaxUsableSampleCount(color: bv32, depth: bv32): (r: bv32)
    ensures r == 1 || r in SampleCounts
    ensures r != 1 ==> color & depth & r != 0
    ensures r < 64 ==> color & depth & 64 == 0
    ensures r < 32 ==> color & depth & 32 == 0
    ensures r < 16 ==> color & depth & 16 == 0
    ensures r < 8 ==> color & depth & 8 == 0
    ensures r < 4 ==> color & depth & 4 == 0
    ensures r < 2 ==> color & depth & 2 == 0
  {
    var counts := color & depth;
    if counts & 64 != 0 then 64
    else if counts & 32 != 0 then 32
    else if counts & 16 != 0 then 16
    else if counts & 8 != 0 then 8
    else if counts & 4 != 0 then 4
    else if counts & 2 != 0 then 2
    else 1
  }

  const U32: int := 0x1_0000_0000

  /**
   * RateDeviceSuitability: zero without geometry shaders; otherwise 1000 for
   * a discrete GPU plus the largest 2D image size, as an unsigned 32-bit sum.
   */
  function RateDeviceSuitability(discrete: bool, maxImageDimension2D: nat, geometryShader: bool): (r: nat)
    requires maxImageDimension2D < U32
    ensures r < U32
    ensures !geometryShader ==> r == 0
    ensures geometryShader && maxImageDimension2D < U32 - 1000 ==>
              r == (if discrete then 1000 else 0) + maxImageDimension2D
  {
    if !geometryShader then 0 else ((if discrete then 1000 else 0) + maxImageDimension2D) % U32
  }

  /** A discrete GPU with geometry shaders outscores an integrated one with the same image size. */
  lemma DiscreteRatesHigher(dim: nat)
    requires dim < U32 - 1000
    ensures RateDeviceSuitability(true, dim, true) > RateDeviceSuitability(false, dim, true)
  {
  }

  /** std::clamp(v, lo, hi). */
  function Clamp(v: int, lo: int, hi: int): (r: int)
    requires lo <= hi
    ensures lo <= r <= hi
    ensures lo <= v <= hi ==> r == v
  {
    if v < lo then lo else if hi < v then hi else v
  }

  /**
   * CapabilitiesSwapChainImageCount clamps the minimum image count to
   * [0, max(maxImageCount, minImageCount)], which always gives the minimum.
   */
  function CapabilitiesSwapChainImageCount(minImageCount: nat, maxImageCount: nat): (r: nat)
    ensures r == minImageCount
  {
    Clamp(minImageCount, 0, if maxImageCount > minImageCount then maxImageCount else minImageCount)
  }

  /**
   * CheckExtensionSupport: erases every available extension from the set of
   * required ones and succeeds when nothing is left.
   */
  method CheckExtensionSupport(required: set<string>, available: seq<string>) returns (ok: bool)
    ensures ok <==> forall e :: e in required ==> e in available
  {
    var missing := required;
    for i := 0 to |available|
      invariant missing == required - set j | 0 <= j < i :: available[j]
    {
      missing := missing - {available[i]};
    }
    ok := missing == {};
    assert ok ==> forall e :: e in required ==> e in available by {
      if ok {
        forall e | e in required ensures e in available {
          assert e !in missing;
        }
      }
    }
  }
}
