/**
 * `deepmerge.always_merger.merge(base, nxt)`, which the loader uses to fold
 * the files of a module together and to fold every enriched source into its
 * aggregate model. The library's source is not part of this model; its
 * documented strategy is assumed: two dicts merge key by key (a key of
 * `nxt` absent from `base` is added at the end, a key present in both is
 * merged recursively in place), two lists concatenate with `base` first,
 * and in every other case `nxt` replaces `base`.
 */
module DeepMerge {
  import opened Values

  function Merge(base: Value, next: Value): Value
    decreases next, 0
  {
    if base.Dict? && next.Dict? then Dict(MergeEntries(base.entries, next.entries))
    else if base.List? && next.List? then List(base.items + next.items)
    else next
  }

  /** The dict strategy: the items of `ns` are merged into `acc` one by one. */
  function MergeEntries(acc: Entries, ns: Entries): Entries
    decreases ns, 0
  {
    if ns == [] then acc
    else
      var p := ns[0];
      assert p in ns;
      var v := p.1;
      assert v < p;
      MergeEntries(Put(acc, p.0, MergedValue(acc, p.0, v)), ns[1..])
  }

  /** What `base[k]` becomes when `nxt` brings `k: v`. */
  function MergedValue(acc: Entries, k: string, v: Value): Value
    decreases v, 1
  {
    match Lookup(acc, k)
    case None => v
    case Some(u) => Merge(u, v)
  }

  /** The binding a merged dict has for `k`, stated key by key. */
  function MergedAt(b: Entries, n: Entries, k: string): Option<Value> {
    match Lookup(n, k)
    case None => Lookup(b, k)
    case Some(v) => Some(match Lookup(b, k) case None => v case Some(u) => Merge(u, v))
  }

  /** The merged dict binds exactly the keys of both dicts; a key of only one
      side keeps its value, a key of both sides holds the merge of the two. */
  lemma {:induction false} MergeEntriesLookup(b: Entries, n: Entries, k: string)
    requires DistinctKeys(n)
    ensures Lookup(MergeEntries(b, n), k) == MergedAt(b, n, k)
    decreases n
  {
    if n != [] {
      var k0 := n[0].0;
      var b' := Put(b, k0, MergedValue(b, k0, n[0].1));
      MergeEntriesLookup(b', n[1..], k);
      if k != k0 {
        PutOther(b, k0, MergedValue(b, k0, n[0].1), k);
      }
    }
  }

  /** No key is dropped and none is invented: the merged dict has the keys
      of both sides. */
  lemma {:induction false} MergeEntriesKeys(b: Entries, n: Entries)
    ensures forall k :: k in Keys(MergeEntries(b, n)) <==> k in Keys(b) || k in Keys(n)
    decreases n
  {
    if n != [] {
      var b' := Put(b, n[0].0, MergedValue(b, n[0].0, n[0].1));
      PutKeys(b, n[0].0, MergedValue(b, n[0].0, n[0].1));
      MergeEntriesKeys(b', n[1..]);
      assert Keys(n) == [n[0].0] + Keys(n[1..]);
    }
  }

  /** The keys of `base` keep their order and come first, and the merge of
      two dicts is again a dict. */
  lemma {:induction false} MergeEntriesKeyOrder(b: Entries, n: Entries)
    ensures DistinctKeys(b) ==> DistinctKeys(MergeEntries(b, n))
    ensures |b| <= |MergeEntries(b, n)| && Keys(MergeEntries(b, n))[..|b|] == Keys(b)
    decreases n
  {
    if n != [] {
      var b' := Put(b, n[0].0, MergedValue(b, n[0].0, n[0].1));
      PutKeys(b, n[0].0, MergedValue(b, n[0].0, n[0].1));
      MergeEntriesKeyOrder(b', n[1..]);
      assert Keys(b')[..|b|] == Keys(b);
    }
  }

  /** Merging keys that `acc` does not have only appends them: in particular
      the first merge into the empty aggregate yields the source itself. */
  lemma {:induction false} MergeEntriesFresh(acc: Entries, n: Entries)
    requires DistinctKeys(n)
    requires forall k :: k in Keys(n) ==> k !in Keys(acc)
    ensures MergeEntries(acc, n) == acc + n
    decreases n
  {
    if n != [] {
      var (k0, v0) := n[0];
      var acc' := acc + [n[0]];
      assert Keys(n) == [k0] + Keys(n[1..]);
      assert MergeEntries(acc, n) == MergeEntries(acc', n[1..]) by {
        assert MergedValue(acc, k0, v0) == v0;
        PutAppends(acc, k0, v0);
      }
      assert forall k :: k in Keys(n[1..]) ==> k !in Keys(acc') by {
        PutAppends(acc, k0, v0);
        PutKeys(acc, k0, v0);
      }
      MergeEntriesFresh(acc', n[1..]);
      assert acc' + n[1..] == acc + n;
    }
  }

  lemma {:induction false} PutAppends(e: Entries, k: string, v: Value)
    requires k !in Keys(e)
    ensures Put(e, k, v) == e + [(k, v)]
  {
    if e != [] {
      assert Keys(e) == [e[0].0] + Keys(e[1..]);
      PutAppends(e[1..], k, v);
      assert [e[0]] + (e[1..] + [(k, v)]) == e + [(k, v)];
    }
  }

  lemma MergeIntoEmpty(n: Entries)
    requires DistinctKeys(n)
    ensures MergeEntries([], n) == n
  {
    MergeEntriesFresh([], n);
  }

  /** A list-valued category present on both sides ends up as the
      concatenation, `base` first: the order in which sources and modules
      were processed is kept. */
  lemma ListCategoryConcatenates(b: Entries, n: Entries, k: string, xs: seq<Value>, ys: seq<Value>)
    requires DistinctKeys(n)
    requires Lookup(b, k) == Some(List(xs)) && Lookup(n, k) == Some(List(ys))
    ensures Lookup(MergeEntries(b, n), k) == Some(List(xs + ys))
  {
    MergeEntriesLookup(b, n, k);
  }

  /** The merge is not associative, so the order in which the loader folds
      models together is observable: a list, then a scalar, then a list
      under the same key keeps only the last list when folded from the
      left, but concatenates both lists when the last two are merged first. */
  lemma MergeOrderMatters()
    ensures var a, b, c := [("k", List([Num(1.0)]))], [("k", Num(5.0))], [("k", List([Num(2.0)]))];
      MergeEntries(MergeEntries(a, b), c) == [("k", List([Num(2.0)]))] &&
      MergeEntries(a, MergeEntries(b, c)) == [("k", List([Num(1.0), Num(2.0)]))]
  {
    var a, b, c := [("k", List([Num(1.0)]))], [("k", Num(5.0))], [("k", List([Num(2.0)]))];
    assert MergeEntries(a, b) == [("k", Num(5.0))] by {
      assert MergedValue(a, "k", Num(5.0)) == Num(5.0);
    }
    assert MergeEntries([("k", Num(5.0))], c) == c by {
      assert MergedValue([("k", Num(5.0))], "k", List([Num(2.0)])) == List([Num(2.0)]);
    }
    assert MergeEntries(b, c) == c by {
      assert MergedValue(b, "k", List([Num(2.0)])) == List([Num(2.0)]);
    }
    assert MergeEntries(a, c) == [("k", List([Num(1.0), Num(2.0)]))] by {
      assert MergedValue(a, "k", List([Num(2.0)])) == List([Num(1.0)] + [Num(2.0)]);
      assert [Num(1.0)] + [Num(2.0)] == [Num(1.0), Num(2.0)];
    }
  }
}
