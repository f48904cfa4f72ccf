// A command pool's two lists of command buffers: the per-frame buffers and
// the single-use buffers. Buffers are opaque handles; the driver's allocation
// is modelled as handing out handles from a counter, so new buffers are fresh.
module CommandPool {
  import opened Wrappers

  /** The position of the first x in s; |s| when x does not occur (std::ranges::find). */
  function IndexOf(s: seq<nat>, x: nat): (r: nat)
    ensures r <= |s|
    ensures r < |s| ==> s[r] == x
    ensures forall j :: 0 <= j < r ==> s[j] != x
    ensures r == |s| <==> x !in s
    decreases |s|
  {
    if |s| == 0 then 0 else if s[0] == x then 0 else 1 + IndexOf(s[1..], x)
  }

  /** s with its first x erased, if there is one. */
  function RemoveFirst(s: seq<nat>, x: nat): seq<nat> {
    var i := IndexOf(s, x);
    if i < |s| then s[..i] + s[i + 1..] else s
  }

  /** Erasing the first x removes one x, when there is one, and nothing else. */
  lemma RemoveFirstMultiset(s: seq<nat>, x: nat)
    ensures multiset(RemoveFirst(s, x)) == multiset(s) - multiset{x}
  {
    var i := IndexOf(s, x);
    if i < |s| {
      var a, b := s[..i], s[i + 1..];
      assert s == a + [x] + b;
      assert RemoveFirst(s, x) == a + b;
      MultisetCut(a, x, b);
    } else {
      MultisetAbsent(s, x);
    }
  }

  /** Cutting one x out of a sequence takes one x out of its multiset. */
  lemma MultisetCut(a: seq<nat>, x: nat, b: seq<nat>)
    ensures multiset(a + [x] + b) - multiset{x} == multiset(a + b)
  {
    assert multiset(a + [x] + b) == multiset(a + b) + multiset{x};
  }

  /** Taking out an element that is not there changes nothing. */
  lemma MultisetAbsent(s: seq<nat>, x: nat)
    requires x !in s
    ensures multiset(s) - multiset{x} == multiset(s)
  {
    assert x !in multiset(s);
  }

  /** Erasing never adds a buffer. */
  lemma RemoveFirstSubset(s: seq<nat>, x: nat)
    ensures forall y :: y in RemoveFirst(s, x) ==> y in s
  {
    RemoveFirstMultiset(s, x);
    forall y | y in RemoveFirst(s, x)
      ensures y in s
    {
      assert y in multiset(RemoveFirst(s, x));
    }
  }

  /** s with the first occurrence of each of bs erased in turn. */
  function RemoveEach(s: seq<nat>, bs: seq<nat>): seq<nat>
    decreases |bs|
  {
    if |bs| == 0 then s else RemoveFirst(RemoveEach(s, bs[..|bs| - 1]), bs[|bs| - 1])
  }

  /** Erasing each given buffer removes one occurrence of each and nothing else. */
  lemma {:induction false} RemoveEachMultiset(s: seq<nat>, bs: seq<nat>)
    ensures multiset(RemoveEach(s, bs)) == multiset(s) - multiset(bs)
    decreases |bs|
  {
    if |bs| > 0 {
      var init, last := bs[..|bs| - 1], bs[|bs| - 1];
      var rest := RemoveEach(s, init);
      calc {
        multiset(RemoveEach(s, bs));
        multiset(RemoveFirst(rest, last));
        { RemoveFirstMultiset(rest, last); }
        multiset(rest) - multiset{last};
        { RemoveEachMultiset(s, init); }
        (multiset(s) - multiset(init)) - multiset{last};
        { SubtractTwice(multiset(s), multiset(init), last); }
        multiset(s) - (multiset(init) + multiset{last});
        { assert bs == init + [last];
          assert multiset(bs) == multiset(init) + multiset{last}; }
        multiset(s) - multiset(bs);
      }
    }
  }

  lemma SubtractTwice(a: multiset<nat>, b: multiset<nat>, y: nat)
    ensures (a - b) - multiset{y} == a - (b + multiset{y})
  {
    forall e
      ensures ((a - b) - multiset{y})[e] == (a - (b + multiset{y}))[e]
    {
    }
  }

  /** n consecutive handles from start. */
  function Handles(start: nat, n: nat): (r: seq<nat>)
    ensures |r| == n
    ensures forall i :: 0 <= i < n ==> r[i] == start + i
  {
    seq(n, i requires 0 <= i < n => start + i)
  }

  /** A call the pool makes on a command buffer. */
  datatype BufferCall = Reset(buffer: nat) | Begin(buffer: nat) | End(buffer: nat)

  class Pool {
    var commandBuffers: seq<nat>
    var singleUseCommandBuffers: seq<nat>
    /** The next handle the driver hands out. */
    var nextHandle: nat
    var calls: seq<BufferCall>
    /** Buffers begun without being part of the pool. */
    var foreignBuffers: seq<nat>

    ghost predicate Valid()
      reads this
    {
      (forall b :: b in commandBuffers ==> b < nextHandle) &&
      (forall b :: b in singleUseCommandBuffers ==> b < nextHandle)
    }

    /** A pool with bufferCount per-frame buffers. */
    constructor (bufferCount: int)
      ensures Valid()
      ensures |commandBuffers| == (if bufferCount > 0 then bufferCount else 0)
      ensures singleUseCommandBuffers == [] && calls == [] && foreignBuffers == []
    {
      commandBuffers := [];
      singleUseCommandBuffers := [];
      nextHandle := 0;
      calls := [];
      foreignBuffers := [];
      new;
      var _ := CreateCommandBuffers(bufferCount);
    }

    /** Appends bufferCount new buffers and reports where they start; a count
        that is not positive changes nothing and reports nothing. */
    method CreateCommandBuffers(bufferCount: int) returns (startIndex: Option<nat>)
      requires Valid()
      modifies this`commandBuffers, this`nextHandle
      ensures Valid()
      ensures bufferCount > 0 ==>
        startIndex == Some(|old(commandBuffers)|) &&
        commandBuffers == old(commandBuffers) + Handles(old(nextHandle), bufferCount) &&
        (forall b :: b in commandBuffers[|old(commandBuffers)|..] ==>
           b !in old(commandBuffers) && b !in singleUseCommandBuffers)
      ensures bufferCount <= 0 ==> startIndex == None && commandBuffers == old(commandBuffers)
    {
      startIndex := None;
      if bufferCount > 0 {
        startIndex := Some(|commandBuffers|);
        var added := Handles(nextHandle, bufferCount);
        commandBuffers := commandBuffers + added;
        nextHandle := nextHandle + bufferCount;
        assert commandBuffers[|old(commandBuffers)|..] == added;
      }
    }

    /** The position of a buffer in the per-frame list; |list| when absent. */
    method FindCommandBuffer(buffers: seq<nat>, b: nat) returns (i: nat)
      ensures i == IndexOf(buffers, b)
    {
      i := 0;
      while i < |buffers| && buffers[i] != b
        invariant i <= |buffers|
        invariant forall j :: 0 <= j < i ==> buffers[j] != b
      {
        i := i + 1;
      }
      IndexOfUnique(buffers, b, i);
    }

    /** Erases the first occurrence of each given buffer from the per-frame list. */
    method DestroyCommandBuffers(buffers: seq<nat>)
      requires Valid()
      modifies this`commandBuffers
      ensures Valid()
      ensures commandBuffers == RemoveEach(old(commandBuffers), buffers)
      ensures multiset(commandBuffers) == multiset(old(commandBuffers)) - multiset(buffers)
    {
      var k := 0;
      while k < |buffers|
        invariant k <= |buffers|
        invariant Valid()
        invariant commandBuffers == RemoveEach(old(commandBuffers), buffers[..k])
      {
        ghost var before := commandBuffers;
        var loc := FindCommandBuffer(commandBuffers, buffers[k]);
        if loc < |commandBuffers| {
          commandBuffers := commandBuffers[..loc] + commandBuffers[loc + 1..];
        }
        assert commandBuffers == RemoveFirst(before, buffers[k]);
        RemoveFirstSubset(before, buffers[k]);
        assert buffers[..k + 1][..k] == buffers[..k];
        k := k + 1;
      }
      assert buffers[..k] == buffers;
      RemoveEachMultiset(old(commandBuffers), buffers);
    }

    /** Begins recording a buffer of the pool, after resetting it if asked; a
        single-use buffer is looked up only when asked for. A buffer found in
        neither list is reported. */
    method BeginCommandBuffer(b: nat, resetCommandBuffer: bool, singleUseBuffer: bool)
      modifies this`calls, this`foreignBuffers
      ensures var found := (singleUseBuffer && b in singleUseCommandBuffers) || b in commandBuffers;
              (found ==>
                 calls == old(calls) + (if resetCommandBuffer then [Reset(b)] else []) + [Begin(b)] &&
                 foreignBuffers == old(foreignBuffers)) &&
              (!found ==> calls == old(calls) && foreignBuffers == old(foreignBuffers) + [b])
    {
      var found := false;
      if singleUseBuffer && b in singleUseCommandBuffers {
        found := true;
      } else if b in commandBuffers {
        found := true;
      }
      if found {
        if resetCommandBuffer {
          calls := calls + [Reset(b)];
        }
        calls := calls + [Begin(b)];
        return;
      }
      foreignBuffers := foreignBuffers + [b];
    }

    /** Ends recording a buffer. */
    method EndCommandBuffer(b: nat)
      modifies this`calls
      ensures calls == old(calls) + [End(b)]
    {
      calls := calls + [End(b)];
    }

    /** Drops every single-use buffer. */
    method ClearSingleUseCommands()
      requires Valid()
      modifies this`singleUseCommandBuffers
      ensures Valid()
      ensures singleUseCommandBuffers == []
    {
      if |singleUseCommandBuffers| != 0 {
        singleUseCommandBuffers := [];
      }
    }

    /** The per-frame buffer of the current frame. */
    method GetCurrentCommandBuffer(currentFrame: nat) returns (b: nat)
      requires currentFrame < |commandBuffers|
      ensures b == commandBuffers[currentFrame]
    {
      b := commandBuffers[currentFrame];
    }

    /** Begins (after a reset) the current frame's buffer and returns it. */
    method BeginCurrentCommandBuffer(currentFrame: nat) returns (b: nat)
      requires currentFrame < |commandBuffers|
      modifies this`calls, this`foreignBuffers
      ensures b == commandBuffers[currentFrame]
      ensures calls == old(calls) + [Reset(b), Begin(b)] && foreignBuffers == old(foreignBuffers)
    {
      b := GetCurrentCommandBuffer(currentFrame);
      BeginCommandBuffer(b, true, false);
    }

    /** Ends the current frame's buffer and returns it. */
    method EndCurrentCommandBuffer(currentFrame: nat) returns (b: nat)
      requires currentFrame < |commandBuffers|
      modifies this`calls
      ensures b == commandBuffers[currentFrame]
      ensures calls == old(calls) + [End(b)]
    {
      b := GetCurrentCommandBuffer(currentFrame);
      EndCommandBuffer(b);
    }

    /** Appends one new single-use buffer and returns it. */
    method CreateSingleUseCommandBuffer() returns (b: nat)
      requires Valid()
      modifies this`singleUseCommandBuffers, this`nextHandle
      ensures Valid()
      ensures singleUseCommandBuffers == old(singleUseCommandBuffers) + [b]
      ensures b == singleUseCommandBuffers[|singleUseCommandBuffers| - 1]
      ensures b !in old(singleUseCommandBuffers) && b !in commandBuffers
    {
      b := nextHandle;
      nextHandle := nextHandle + 1;
      singleUseCommandBuffers := singleUseCommandBuffers + [b];
    }

    /** Erases a single-use buffer, if it is in the list. */
    method DestroySingleUseCommandBuffer(b: nat)
      requires Valid()
      modifies this`singleUseCommandBuffers
      ensures Valid()
      ensures singleUseCommandBuffers == RemoveFirst(old(singleUseCommandBuffers), b)
      ensures multiset(singleUseCommandBuffers) == multiset(old(singleUseCommandBuffers)) - multiset{b}
    {
      ghost var before := singleUseCommandBuffers;
      var loc := FindCommandBuffer(singleUseCommandBuffers, b);
      if loc < |singleUseCommandBuffers| {
        singleUseCommandBuffers := singleUseCommandBuffers[..loc] + singleUseCommandBuffers[loc + 1..];
      }
      assert singleUseCommandBuffers == RemoveFirst(before, b);
      RemoveFirstSubset(before, b);
      RemoveFirstMultiset(before, b);
    }
  }

  /** The first position holding x, with none before it, is IndexOf's answer. */
  lemma {:induction false} IndexOfUnique(s: seq<nat>, x: nat, i: nat)
    requires i <= |s|
    requires forall j :: 0 <= j < i ==> s[j] != x
    requires i < |s| ==> s[i] == x
    ensures i == IndexOf(s, x)
    decreases |s|
  {
    if |s| > 0 && s[0] != x {
      IndexOfUnique(s[1..], x, i - 1);
    }
  }
}
