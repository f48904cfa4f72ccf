// A scene object's name, kept in a fixed-size character buffer, and the
// default names "SceneObject_0", "SceneObject_1", ... drawn from a counter all
// scene objects share. The buffer's capacity is defined in a header that is
// not part of this model and is given to the constructor.
module SceneObject {
  import opened Wrappers
  import Decimal

  const DefaultRequest := "SceneObject"
  const DefaultPrefix := "SceneObject_"

  /** The default name made from the counter's value. */
  function DefaultName(count: nat): (r: string)
    ensures |r| > |DefaultPrefix| && r[..|DefaultPrefix|] == DefaultPrefix
    ensures r[|DefaultPrefix|..] == Decimal.NatToString(count)
  {
    DefaultPrefix + Decimal.NatToString(count)
  }

  /** Different counter values give different default names. */
  lemma DefaultNamesDistinct(m: nat, n: nat)
    requires m != n
    ensures DefaultName(m) != DefaultName(n)
  {
    if DefaultName(m) == DefaultName(n) {
      assert DefaultName(m)[|DefaultPrefix|..] == DefaultName(n)[|DefaultPrefix|..];
      Decimal.NatToStringInjective(m, n);
    }
  }

  /** A default name has no terminator in it. */
  lemma DefaultNameHasNoNul(count: nat)
    ensures '\0' !in DefaultName(count)
  {
    var d := Decimal.NatToString(count);
    forall i | 0 <= i < |d| ensures d[i] != '\0' {
      assert Decimal.IsDigit(d[i]);
    }
    assert DefaultName(count) == DefaultPrefix + d;
  }

  /** The characters of a C string: those before the first terminator, or all
      of them when there is none. */
  function BeforeNul(s: seq<char>): (r: string)
    ensures r <= s && '\0' !in r
    ensures |r| < |s| ==> s[|r|] == '\0'
    ensures '\0' !in s ==> r == s
    decreases |s|
  {
    if |s| == 0 then []
    else if s[0] == '\0' then []
    else [s[0]] + BeforeNul(s[1..])
  }

  /** How many characters of a name fit a buffer of this capacity with room
      for the terminator. */
  function Fitting(n: string, capacity: nat): (k: nat)
    requires capacity > 0
    ensures k <= |n| && k < capacity
    ensures k == |n| || k == capacity - 1
  {
    if |n| < capacity - 1 then |n| else capacity - 1
  }

  /** The buffer after a name is stored: as many of its characters as fit
      with room for the terminator, then the terminator; the rest of the
      buffer is as it was. */
  function Stored(buf: seq<char>, n: string): (r: seq<char>)
    requires |buf| > 0
    ensures |r| == |buf|
  {
    var k := Fitting(n, |buf|);
    n[..k] + ['\0'] + buf[k + 1..]
  }

  /** A stored name reads back as the characters that fit, up to any
      terminator the name itself holds. */
  lemma StoredReadsBack(buf: seq<char>, n: string)
    requires |buf| > 0
    ensures BeforeNul(Stored(buf, n)) == BeforeNul(n[..Fitting(n, |buf|)])
  {
    var k := Fitting(n, |buf|);
    assert Stored(buf, n) == n[..k] + (['\0'] + buf[k + 1..]);
    BeforeNulPrefix(n[..k], ['\0'] + buf[k + 1..]);
  }

  /** A C string is not changed by what follows a terminator after it. */
  lemma {:induction false} BeforeNulPrefix(s: seq<char>, rest: seq<char>)
    requires |rest| > 0 && rest[0] == '\0'
    ensures BeforeNul(s + rest) == BeforeNul(s)
    decreases |s|
  {
    if |s| == 0 {
      assert (s + rest)[0] == '\0';
    } else if s[0] != '\0' {
      assert (s + rest)[1..] == s[1..] + rest;
      BeforeNulPrefix(s[1..], rest);
    }
  }

  /** A name without a terminator that fits the buffer reads back whole; a
      longer one reads back cut to one less than the capacity. */
  lemma StoredNameRoundTrip(buf: seq<char>, n: string)
    requires |buf| > 0 && '\0' !in n
    ensures |n| < |buf| ==> BeforeNul(Stored(buf, n)) == n
    ensures |n| >= |buf| ==> BeforeNul(Stored(buf, n)) == n[..|buf| - 1]
  {
    StoredReadsBack(buf, n);
    var k := Fitting(n, |buf|);
    assert '\0' !in n[..k] by {
      forall i | 0 <= i < k ensures n[..k][i] != '\0' {
        assert n[..k][i] == n[i];
      }
    }
    if |n| < |buf| {
      assert n[..k] == n;
    }
  }

  /** What storing a name does as written: the characters that fit are
      copied, but the terminator goes at the name's full length, which is
      past the end of the buffer when the name does not fit; that write is
      the error. */
  function StoredAsWritten(buf: seq<char>, n: string): (r: Option<seq<char>>)
    requires |buf| > 0
  {
    var k := Fitting(n, |buf|);
    if |n| < |buf| then Some(n[..k] + ['\0'] + buf[k + 1..]) else None
  }

  /** As written, storing agrees with the corrected store exactly when the
      name fits; a name as long as the buffer or longer writes out of bounds. */
  lemma AsWrittenFailsForLongNames(buf: seq<char>, n: string)
    requires |buf| > 0
    ensures StoredAsWritten(buf, n).Some? <==> |n| < |buf|
    ensures |n| < |buf| ==> StoredAsWritten(buf, n) == Some(Stored(buf, n))
  {
  }

  /** The default name of the first scene object does not fit a buffer of
      eight characters: as written its terminator lands at index 13. */
  lemma AsWrittenDefaultNameOverflows()
    ensures StoredAsWritten(seq(8, _ => '\0'), DefaultName(0)) == None
  {
    assert |Decimal.NatToString(0)| == 1;
  }

  /** The number of default names handed out: the counter every scene
      object shares. */
  class ObjectCounter {
    var numObjects: nat

    constructor ()
      ensures numObjects == 0
    {
      numObjects := 0;
    }
  }

  class SceneObjectComponent {
    const name: array<char>

    /** A scene object of the given name. The default request takes the
        default name of the counter's value and advances the counter; any
        other name is stored as given. */
    constructor (n: string, capacity: nat, counter: ObjectCounter)
      requires capacity > 0
      modifies counter
      ensures name.Length == capacity
      ensures n == DefaultRequest ==>
        GetName() == BeforeNul(DefaultName(old(counter.numObjects))[..Fitting(DefaultName(old(counter.numObjects)), capacity)]) &&
        counter.numObjects == old(counter.numObjects) + 1
      ensures n != DefaultRequest ==>
        GetName() == BeforeNul(n[..Fitting(n, capacity)]) && counter.numObjects == old(counter.numObjects)
    {
      name := new char[capacity](_ => '\0');
      new;
      if n == DefaultRequest {
        SetName(DefaultName(counter.numObjects));
        counter.numObjects := counter.numObjects + 1;
      } else {
        SetName(n);
      }
    }

    /** Stores the name: as many of its characters as fit with room for the
        terminator, then the terminator. */
    method SetName(n: string)
      requires name.Length > 0
      modifies name
      ensures name[..] == Stored(old(name[..]), n)
      ensures GetName() == BeforeNul(n[..Fitting(n, name.Length)])
    {
      var k := if |n| < name.Length - 1 then |n| else name.Length - 1;
      for i := 0 to k
        invariant forall j :: 0 <= j < i ==> name[j] == n[j]
        invariant forall j :: i <= j < name.Length ==> name[j] == old(name[j])
      {
        name[i] := n[i];
      }
      name[k] := '\0';
      ghost var stored := n[..k] + ['\0'] + old(name[..])[k + 1..];
      assert forall j :: 0 <= j < name.Length ==> name[j] == stored[j];
      assert name[..] == stored;
      StoredReadsBack(old(name[..]), n);
    }

    /** The stored name: the buffer's characters before the terminator. */
    function GetName(): (r: string)
      reads name
      ensures |r| <= name.Length && '\0' !in r
    {
      BeforeNul(name[..])
    }
  }
}
