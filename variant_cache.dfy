/**
 * The variant cache (src/lib/variant-cache.ts): variant lists keyed by the
 * sorted, comma-joined SKU list, with in-flight requests shared between
 * callers. Every fetch is an explicit pending entry that a separate
 * `Complete` step settles with the reply.
 */
module VariantCache {
  import opened Wrappers
  import opened Strings
  import opened Catalog

  // ---------------------------------------------------------------------
  // The cache key

  /** The order `Array.prototype.sort` uses on strings: character by character, a prefix first. */
  predicate LexLeq(a: string, b: string)
    decreases |a|
  {
    |a| == 0 || (|b| > 0 && (a[0] < b[0] || (a[0] == b[0] && LexLeq(a[1..], b[1..]))))
  }

  lemma {:induction false} LexReflexive(a: string)
    ensures LexLeq(a, a)
    decreases |a|
  {
    if |a| > 0 {
      LexReflexive(a[1..]);
    }
  }

  lemma {:induction false} LexTotal(a: string, b: string)
    ensures LexLeq(a, b) || LexLeq(b, a)
    decreases |a|
  {
    if |a| > 0 && |b| > 0 && a[0] == b[0] {
      LexTotal(a[1..], b[1..]);
    }
  }

  lemma {:induction false} LexAntisymmetric(a: string, b: string)
    requires LexLeq(a, b) && LexLeq(b, a)
    ensures a == b
    decreases |a|
  {
    if |a| > 0 {
      LexAntisymmetric(a[1..], b[1..]);
      assert a == [a[0]] + a[1..] && b == [b[0]] + b[1..];
    }
  }

  lemma {:induction false} LexTransitive(a: string, b: string, c: string)
    requires LexLeq(a, b) && LexLeq(b, c)
    ensures LexLeq(a, c)
    decreases |a|
  {
    if |a| > 0 && a[0] == b[0] && b[0] == c[0] {
      LexTransitive(a[1..], b[1..], c[1..]);
    }
  }

  predicate Sorted(s: seq<string>) {
    forall i, j | 0 <= i < j < |s| :: LexLeq(s[i], s[j])
  }

  /** `x` placed into the sorted list `s` before the first element it precedes. */
  function Insert(x: string, s: seq<string>): (r: seq<string>)
    requires Sorted(s)
    ensures Sorted(r)
    ensures multiset(r) == multiset(s) + multiset{x}
    ensures |r| == |s| + 1
  {
    if |s| == 0 then [x]
    else if LexLeq(x, s[0]) then
      BelowHead(x, s);
      PrependSorted(x, s);
      [x] + s
    else
      var t := Insert(x, s[1..]);
      LexTotal(x, s[0]);
      HeadBelowInserted(s, x, t);
      PrependSorted(s[0], t);
      assert s == [s[0]] + s[1..];
      [s[0]] + t
  }

  /** What precedes the head of a sorted list precedes all of it. */
  lemma BelowHead(x: string, s: seq<string>)
    requires Sorted(s) && |s| > 0 && LexLeq(x, s[0])
    ensures forall j | 0 <= j < |s| :: LexLeq(x, s[j])
  {
    forall j | 0 < j < |s| ensures LexLeq(x, s[j]) { LexTransitive(x, s[0], s[j]); }
  }

  /** The head of a sorted list precedes its tail with an element it precedes inserted. */
  lemma HeadBelowInserted(s: seq<string>, x: string, t: seq<string>)
    requires Sorted(s) && |s| > 0 && LexLeq(s[0], x)
    requires multiset(t) == multiset(s[1..]) + multiset{x}
    ensures forall j | 0 <= j < |t| :: LexLeq(s[0], t[j])
  {
    forall j | 0 <= j < |t| ensures LexLeq(s[0], t[j]) {
      assert t[j] in multiset(t);
      if t[j] != x {
        assert t[j] in multiset(s[1..]);
        var k :| 0 <= k < |s[1..]| && s[1..][k] == t[j];
        assert s[k + 1] == t[j];
      }
    }
  }

  /** An element preceding every element of a sorted list may lead it. */
  lemma PrependSorted(x: string, s: seq<string>)
    requires Sorted(s) && forall j | 0 <= j < |s| :: LexLeq(x, s[j])
    ensures Sorted([x] + s)
  {
    var r := [x] + s;
    forall i, j | 0 <= i < j < |r| ensures LexLeq(r[i], r[j]) {
      if i == 0 {
        assert r[j] == s[j - 1];
      } else {
        assert r[i] == s[i - 1] && r[j] == s[j - 1];
      }
    }
  }

  /** `skuList.slice().sort()`. */
  function SortStrings(s: seq<string>): (r: seq<string>)
    ensures Sorted(r)
    ensures multiset(r) == multiset(s)
  {
    if |s| == 0 then []
    else
      assert s == [s[0]] + s[1..];
      Insert(s[0], SortStrings(s[1..]))
  }

  /** The first element of a non-empty sorted list precedes every element of it. */
  lemma HeadFirst(a: seq<string>, x: string)
    requires Sorted(a) && x in multiset(a)
    ensures LexLeq(a[0], x)
  {
    var i :| 0 <= i < |a| && a[i] == x;
    if i == 0 {
      LexReflexive(x);
    }
  }

  lemma TailMultiset(a: seq<string>)
    requires |a| > 0
    ensures multiset(a[1..]) == multiset(a) - multiset{a[0]}
  {
    assert a == [a[0]] + a[1..];
  }

  /** Two sorted lists with the same elements are the same list. */
  lemma {:induction false} SortedUnique(a: seq<string>, b: seq<string>)
    requires Sorted(a) && Sorted(b)
    requires multiset(a) == multiset(b)
    ensures a == b
    decreases |a|
  {
    assert |a| == |multiset(a)| && |b| == |multiset(b)|;
    if |a| > 0 {
      HeadFirst(a, b[0]);
      HeadFirst(b, a[0]);
      LexAntisymmetric(a[0], b[0]);
      TailMultiset(a);
      TailMultiset(b);
      SortedUnique(a[1..], b[1..]);
      assert a == [a[0]] + a[1..] && b == [b[0]] + b[1..];
    }
  }

  /** The key under which a SKU list is cached. */
  function CacheKey(skus: seq<string>): string {
    Join(SortStrings(skus), ',')
  }

  /** Any reordering of a SKU list shares its cache entry. */
  lemma KeyOfPermutation(a: seq<string>, b: seq<string>)
    requires multiset(a) == multiset(b)
    ensures CacheKey(a) == CacheKey(b)
  {
    SortedUnique(SortStrings(a), SortStrings(b));
  }

  /** Without commas in the SKUs, two non-empty lists share a key only when they hold the same SKUs. */
  lemma KeyDeterminesSkus(a: seq<string>, b: seq<string>)
    requires |a| >= 1 && |b| >= 1
    requires forall i | 0 <= i < |a| :: ',' !in a[i]
    requires forall i | 0 <= i < |b| :: ',' !in b[i]
    requires CacheKey(a) == CacheKey(b)
    ensures multiset(a) == multiset(b)
  {
    var sa, sb := SortStrings(a), SortStrings(b);
    assert |sa| == |multiset(a)| && |sb| == |multiset(b)|;
    forall i | 0 <= i < |sa| ensures ',' !in sa[i] {
      assert sa[i] in multiset(a);
    }
    forall i | 0 <= i < |sb| ensures ',' !in sb[i] {
      assert sb[i] in multiset(b);
    }
    SplitJoin(sa, ',');
    SplitJoin(sb, ',');
  }

  // ---------------------------------------------------------------------
  // The reply

  /** `response ? response : []`: a failed request (`null`) becomes the empty list. */
  function FetchResult(reply: Option<seq<VariantFull>>): (r: seq<VariantFull>)
    ensures reply.None? ==> r == []
    ensures reply.Some? ==> r == reply.value
  {
    reply.GetOr([])
  }

  // ---------------------------------------------------------------------
  // The cache

  /** One call of `fetchVariants`: the key it settles, the list sent, and whether it has settled. */
  datatype Fetch = Fetch(key: string, skus: seq<string>, settled: bool)

  /** What `getVariants` hands back: a cached list, a fetch it started, or a fetch already in flight. */
  datatype Outcome = Cached(variants: seq<VariantFull>) | Started(id: nat) | Joined(id: nat)

  class Cache {
    var cache: map<string, seq<VariantFull>>
    /** The key's in-flight fetch, by its index in `fetches`. */
    var inFlight: map<string, nat>
    /** Every fetch started, in order. */
    var fetches: seq<Fetch>
    /** The keys some caller has asked for with `forceRefresh`. */
    ghost var forced: set<string>

    ghost predicate Valid()
      reads this
    {
      (forall k | k in inFlight ::
         inFlight[k] < |fetches| && fetches[inFlight[k]].key == k && !fetches[inFlight[k]].settled) &&
      (forall id | 0 <= id < |fetches| && !fetches[id].settled && fetches[id].key !in forced ::
         fetches[id].key in inFlight && inFlight[fetches[id].key] == id)
    }

    predicate Pending(id: nat)
      reads this
    {
      id < |fetches| && !fetches[id].settled
    }

    constructor ()
      ensures Valid()
      ensures cache == map[] && inFlight == map[] && fetches == [] && forced == {}
    {
      cache := map[];
      inFlight := map[];
      fetches := [];
      forced := {};
    }

    /** `getVariants(skuList, forceRefresh)`, up to the point where it hands back a promise. */
    method GetVariants(skus: seq<string>, force: bool) returns (o: Outcome)
      requires Valid()
      modifies this
      ensures Valid()
      ensures cache == old(cache)
      ensures var key := CacheKey(skus);
        if !force && key in old(cache) then
          o == Cached(old(cache)[key]) && unchanged(this)
        else if !force && key in old(inFlight) then
          o == Joined(old(inFlight)[key]) && Pending(o.id) && unchanged(this)
        else
          o == Started(|old(fetches)|) &&
          fetches == old(fetches) + [Fetch(key, skus, false)] &&
          inFlight == old(inFlight)[key := o.id] &&
          forced == if force then old(forced) + {key} else old(forced)
    {
      var key := CacheKey(skus);
      if !force && key in cache {
        return Cached(cache[key]);
      }
      if key !in inFlight || force {
        var id := |fetches|;
        fetches := fetches + [Fetch(key, skus, false)];
        inFlight := inFlight[key := id];
        if force {
          forced := forced + {key};
        }
        return Started(id);
      }
      return Joined(inFlight[key]);
    }

    /** The fetch `id` settles: its result is cached under its key and the key's in-flight entry is dropped. */
    method Complete(id: nat, reply: Option<seq<VariantFull>>) returns (r: seq<VariantFull>)
      requires Valid()
      requires Pending(id)
      modifies this
      ensures Valid()
      ensures r == FetchResult(reply)
      ensures var key := old(fetches)[id].key;
        cache == old(cache)[key := r] &&
        inFlight == old(inFlight) - {key} &&
        fetches == old(fetches)[id := old(fetches)[id].(settled := true)] &&
        forced == old(forced)
    {
      var key := fetches[id].key;
      r := FetchResult(reply);
      cache := cache[key := r];
      inFlight := inFlight - {key};
      fetches := fetches[id := fetches[id].(settled := true)];
    }
  }

  /** Without `forceRefresh` on a key, at most one fetch for that key is outstanding. */
  lemma OnePendingPerKey(c: Cache, i: nat, j: nat)
    requires c.Valid()
    requires c.Pending(i) && c.Pending(j)
    requires c.fetches[i].key == c.fetches[j].key && c.fetches[i].key !in c.forced
    ensures i == j
  {
  }

  /** A failed fetch leaves `[]` cached, and a later unforced call is served that `[]` without fetching. */
  method FailedFetchIsServed(skus: seq<string>) returns (o1: Outcome, o2: Outcome)
    ensures o1 == Started(0)
    ensures o2 == Cached([])
  {
    var c := new Cache();
    o1 := c.GetVariants(skus, false);
    var r := c.Complete(o1.id, None);
    o2 := c.GetVariants(skus, false);
  }

  /** Two unforced calls while the first is in flight share one fetch, even with the SKUs reordered. */
  method ConcurrentCallsShare(skus: seq<string>, reordered: seq<string>) returns (o1: Outcome, o2: Outcome, started: nat)
    requires multiset(skus) == multiset(reordered)
    ensures o1 == Started(0) && o2 == Joined(0)
    ensures started == 1
  {
    var c := new Cache();
    o1 := c.GetVariants(skus, false);
    KeyOfPermutation(skus, reordered);
    o2 := c.GetVariants(reordered, false);
    started := |c.fetches|;
  }

  /** A forced call starts a new fetch even with the key cached and another fetch in flight. */
  method ForceAlwaysFetches(skus: seq<string>, v: seq<VariantFull>) returns (o: Outcome, started: nat)
    ensures o == Started(2) && started == 3
  {
    var c := new Cache();
    var o1 := c.GetVariants(skus, false);
    var r := c.Complete(o1.id, Some(v));
    var o2 := c.GetVariants(skus, true);
    o := c.GetVariants(skus, true);
    started := |c.fetches|;
  }
}
