// A shader's layout: the merged descriptor-set layouts of its modules and
// the index from lower-cased binding name to binding. The source stores a
// pointer to the binding; here a binding is named by its position.
module ShaderLayout {
  import opened ShaderReflection
  import StringUtil

  /** Where a binding lives: the index of its set layout, and its index there. */
  datatype BindingRef = BindingRef(layout: nat, index: nat)

  /** One binding as the index visits it: its name and its place. */
  datatype Entry = Entry(name: string, at: BindingRef)

  /** Whether r names a binding of the layouts. */
  predicate ValidRef(layouts: seq<SetLayout>, r: BindingRef) {
    r.layout < |layouts| && r.index < |layouts[r.layout].bindings|
  }

  /** The binding r names. */
  function BindingAt(layouts: seq<SetLayout>, r: BindingRef): Binding
    requires ValidRef(layouts, r)
  {
    layouts[r.layout].bindings[r.index]
  }

  /** The entries of the bindings of set layout i, in binding order. */
  function SetEntries(i: nat, bs: seq<Binding>): (r: seq<Entry>)
    ensures |r| == |bs|
    ensures forall j :: 0 <= j < |bs| ==> r[j] == Entry(bs[j].name, BindingRef(i, j))
  {
    seq(|bs|, j requires 0 <= j < |bs| => Entry(bs[j].name, BindingRef(i, j)))
  }

  /** The entries of the first n set layouts, in the order the loops visit them. */
  function Entries(layouts: seq<SetLayout>, n: nat): seq<Entry>
    requires n <= |layouts|
  {
    if n == 0 then [] else Entries(layouts, n - 1) + SetEntries(n - 1, layouts[n - 1].bindings)
  }

  /** The number of bindings in the first n set layouts. */
  function BindingCount(layouts: seq<SetLayout>, n: nat): nat
    requires n <= |layouts|
  {
    if n == 0 then 0 else BindingCount(layouts, n - 1) + |layouts[n - 1].bindings|
  }

  /** The index storing the entries one after another under their lower-cased
      names, a later entry replacing an earlier one. */
  function Index(es: seq<Entry>): map<string, BindingRef>
    decreases |es|
  {
    if |es| == 0 then map[]
    else Index(es[..|es| - 1])[StringUtil.ToLower(es[|es| - 1].name) := es[|es| - 1].at]
  }

  /** Each entry is a binding of the layouts, under that binding's name; there
      is one entry per binding. */
  lemma {:induction false} EntriesAreBindings(layouts: seq<SetLayout>, n: nat)
    requires n <= |layouts|
    ensures |Entries(layouts, n)| == BindingCount(layouts, n)
    ensures forall p :: 0 <= p < |Entries(layouts, n)| ==>
      ValidRef(layouts, Entries(layouts, n)[p].at) && Entries(layouts, n)[p].at.layout < n &&
      Entries(layouts, n)[p].name == BindingAt(layouts, Entries(layouts, n)[p].at).name
  {
    if n > 0 {
      EntriesAreBindings(layouts, n - 1);
    }
  }

  /** Every binding of the first n layouts has an entry. */
  lemma {:induction false} EntriesCoverBindings(layouts: seq<SetLayout>, n: nat, i: nat, j: nat)
    requires i < n <= |layouts| && j < |layouts[i].bindings|
    ensures Entry(layouts[i].bindings[j].name, BindingRef(i, j)) in Entries(layouts, n)
  {
    if i < n - 1 {
      EntriesCoverBindings(layouts, n - 1, i, j);
    } else {
      assert SetEntries(i, layouts[i].bindings)[j] == Entry(layouts[i].bindings[j].name, BindingRef(i, j));
    }
  }

  /** The keys of the index are exactly the lower-cased names of the entries. */
  lemma {:induction false} IndexKeys(es: seq<Entry>)
    ensures forall k :: k in Index(es) <==> exists e :: e in es && StringUtil.ToLower(e.name) == k
    ensures forall k :: k in Index(es) ==> Index(es)[k] in AtsOf(es, k)
    decreases |es|
  {
    if |es| > 0 {
      var init := es[..|es| - 1];
      IndexKeys(init);
      assert es == init + [es[|es| - 1]];
      forall k | k in Index(es) ensures Index(es)[k] in AtsOf(es, k) {
        if k != StringUtil.ToLower(es[|es| - 1].name) {
          AtsOfPrefix(init, es, k);
        }
      }
    }
  }

  /** The places of the entries whose lower-cased name is k. */
  function AtsOf(es: seq<Entry>, k: string): set<BindingRef> {
    set e | e in es && StringUtil.ToLower(e.name) == k :: e.at
  }

  lemma AtsOfPrefix(init: seq<Entry>, es: seq<Entry>, k: string)
    requires init <= es
    ensures AtsOf(init, k) <= AtsOf(es, k)
  {
    forall r | r in AtsOf(init, k) ensures r in AtsOf(es, k) {
      var e :| e in init && StringUtil.ToLower(e.name) == k && e.at == r;
      assert e in es;
    }
  }

  /** A later entry with the same lower-cased name replaces an earlier one: the
      index holds the last entry under each name. */
  lemma {:induction false} IndexKeepsLast(es: seq<Entry>, j: nat)
    requires j < |es|
    requires forall q :: j < q < |es| ==> StringUtil.ToLower(es[q].name) != StringUtil.ToLower(es[j].name)
    ensures StringUtil.ToLower(es[j].name) in Index(es)
    ensures Index(es)[StringUtil.ToLower(es[j].name)] == es[j].at
    decreases |es|
  {
    if j < |es| - 1 {
      var init := es[..|es| - 1];
      assert init[j] == es[j];
      IndexKeepsLast(init, j);
    }
  }

  /** Storing one more entry over a start map. */
  lemma IndexSnoc(start: map<string, BindingRef>, es: seq<Entry>, e: Entry)
    ensures start + Index(es + [e]) == (start + Index(es))[StringUtil.ToLower(e.name) := e.at]
  {
    assert (es + [e])[..|es|] == es;
  }

  /** Every key of the index is lower-case. */
  lemma IndexKeysLowerCase(es: seq<Entry>)
    ensures forall k :: k in Index(es) ==> forall c :: 0 <= c < |k| ==> !StringUtil.IsAsciiUpper(k[c])
  {
    IndexKeys(es);
    forall k | k in Index(es) ensures forall c :: 0 <= c < |k| ==> !StringUtil.IsAsciiUpper(k[c]) {
      var e :| e in es && StringUtil.ToLower(e.name) == k;
      StringUtil.ToLowerNoUpper(e.name);
    }
  }

  /** The index has at most one key per entry. */
  lemma {:induction false} IndexSize(es: seq<Entry>)
    ensures |Index(es)| <= |es|
    decreases |es|
  {
    if |es| > 0 {
      IndexSize(es[..|es| - 1]);
    }
  }

  /** Every binding of the layouts is found in their name index under its
      lower-cased name. */
  lemma BindingsReachable(layouts: seq<SetLayout>)
    ensures forall i, j :: 0 <= i < |layouts| && 0 <= j < |layouts[i].bindings| ==>
      StringUtil.ToLower(layouts[i].bindings[j].name) in Index(Entries(layouts, |layouts|))
  {
    var es := Entries(layouts, |layouts|);
    IndexKeys(es);
    forall i, j | 0 <= i < |layouts| && 0 <= j < |layouts[i].bindings|
      ensures StringUtil.ToLower(layouts[i].bindings[j].name) in Index(es)
    {
      EntriesCoverBindings(layouts, |layouts|, i, j);
    }
  }

  /** What the name index of the layouts holds under a name is a binding of
      the layouts with that name up to case. */
  lemma NamesFindBindings(layouts: seq<SetLayout>)
    ensures forall k :: k in Index(Entries(layouts, |layouts|)) ==>
      FindsBinding(layouts, k, Index(Entries(layouts, |layouts|))[k])
  {
    var es := Entries(layouts, |layouts|);
    IndexKeys(es);
    forall k | k in Index(es)
      ensures FindsBinding(layouts, k, Index(es)[k])
    {
      var e :| e in es && StringUtil.ToLower(e.name) == k && e.at == Index(es)[k];
      EntryFindsBinding(layouts, e);
    }
  }

  /** Every entry of the layouts refers to a binding of its name. */
  lemma EntryFindsBinding(layouts: seq<SetLayout>, e: Entry)
    requires e in Entries(layouts, |layouts|)
    ensures FindsBinding(layouts, StringUtil.ToLower(e.name), e.at)
  {
    var es := Entries(layouts, |layouts|);
    EntriesAreBindings(layouts, |layouts|);
    var p :| 0 <= p < |es| && es[p] == e;
    assert ValidRef(layouts, es[p].at) && es[p].name == BindingAt(layouts, es[p].at).name;
  }

  /** Whether r names a binding of the layouts whose lower-cased name is k. */
  predicate FindsBinding(layouts: seq<SetLayout>, k: string, r: BindingRef) {
    ValidRef(layouts, r) && StringUtil.ToLower(BindingAt(layouts, r).name) == k
  }

  /** Whether the layouts are the merged layouts of the modules. */
  ghost predicate MergedFrom(layouts: seq<SetLayout>, modules: seq<ModuleReflection>) {
    layouts == Layouts(MergeSets(AndStages, AllSets(modules)).sets)
  }

  class Layout {
    /** The merged descriptor-set layouts, in set-number order. */
    var setLayouts: seq<SetLayout>
    /** Each binding by its lower-cased name. */
    var namedLayoutBindings: map<string, BindingRef>

    /** The layout of a shader made of these modules. */
    constructor (modules: seq<ModuleReflection>)
      ensures MergedFrom(setLayouts, modules)
      ensures namedLayoutBindings == Index(Entries(setLayouts, |setLayouts|))
      ensures forall k :: k in namedLayoutBindings ==> FindsBinding(setLayouts, k, namedLayoutBindings[k])
    {
      var layouts, _ := GetMergedDescriptorSetsLayoutData(modules);
      setLayouts := layouts;
      namedLayoutBindings := map[];
      new;
      PopulateNamesLayoutBindings();
      MapEmptyUnion(Index(Entries(setLayouts, |setLayouts|)));
      NamesFindBindings(setLayouts);
    }

    /** Stores every binding of every set layout under its lower-cased name,
        in layout and binding order, over what the index already holds. */
    method PopulateNamesLayoutBindings()
      modifies this`namedLayoutBindings
      ensures namedLayoutBindings == old(namedLayoutBindings) + Index(Entries(setLayouts, |setLayouts|))
    {
      var named := namedLayoutBindings;
      var layouts := setLayouts;
      ghost var start := named;
      for i := 0 to |layouts|
        invariant named == start + Index(Entries(layouts, i))
      {
        named := StoreBindings(named, start, Entries(layouts, i), i, layouts[i].bindings);
      }
      namedLayoutBindings := named;
    }
  }

  lemma MapEmptyUnion(m: map<string, BindingRef>)
    ensures map[] + m == m
  {
  }

  /** Stores the bindings of set layout i, in order, under their lower-cased names. */
  method StoreBindings(named: map<string, BindingRef>, ghost start: map<string, BindingRef>,
                       ghost before: seq<Entry>, i: nat, bindings: seq<Binding>)
    returns (stored: map<string, BindingRef>)
    requires named == start + Index(before)
    ensures stored == start + Index(before + SetEntries(i, bindings))
  {
    stored := named;
    ghost var visited: seq<Entry> := before;
    assert before + SetEntries(i, bindings)[..0] == before;
    for j := 0 to |bindings|
      invariant visited == before + SetEntries(i, bindings)[..j]
      invariant stored == start + Index(visited)
    {
      var e := Entry(bindings[j].name, BindingRef(i, j));
      IndexSnoc(start, visited, e);
      stored := stored[StringUtil.ToLower(bindings[j].name) := BindingRef(i, j)];
      assert SetEntries(i, bindings)[..j + 1] == SetEntries(i, bindings)[..j] + [e];
      visited := visited + [e];
    }
    assert SetEntries(i, bindings)[..|bindings|] == SetEntries(i, bindings);
  }
}
