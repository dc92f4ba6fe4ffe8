/** The tag discovery service: a cache with expiry and least-recently-touched eviction in front of
    the registry. */
module TagCache {
  import opened Wrappers
  import opened Seqs
  import opened Text
  import opened ImageReference
  import opened TagKeys

  datatype Page = Page(reference: Reference, tags: seq<string>, nextCursor: string, cached: bool)

  datatype Entry = Entry(page: Page, expires: int, touched: int)

  type Cache = map<string, Entry>

  // ----- load and store -----

  predicate IsLive(e: Entry, now: int) { e.expires > now }

  function Live(cache: Cache, now: int): Cache {
    map k | k in cache && IsLive(cache[k], now) :: cache[k]
  }

  function Loaded(cache: Cache, key: string, now: int): Cache {
    if key !in cache then cache
    else if IsLive(cache[key], now) then cache[key := cache[key].(touched := now)]
    else cache - {key}
  }

  predicate Hits(cache: Cache, key: string, now: int) { key in cache && IsLive(cache[key], now) }

  ghost predicate LeastRecent(cache: Cache, victim: string) {
    victim in cache && forall k | k in cache :: cache[victim].touched <= cache[k].touched
  }

  /** Expired entries go; if that leaves no room, so does one least recently touched entry. */
  ghost predicate Stored(before: Cache, key: string, page: Page, now: int, ttl: int, max: nat, after: Cache) {
    var live := Live(before, now);
    var entry := Entry(page, now + ttl, now);
    if |live| < max then after == live[key := entry]
    else exists victim :: LeastRecent(live, victim) && after == (live - {victim})[key := entry]
  }

  lemma StoredBounded(before: Cache, key: string, page: Page, now: int, ttl: int, max: nat, after: Cache)
    requires Stored(before, key, page, now, ttl, max, after) && |before| <= max && max > 0
    ensures |after| <= max
  {
    var live := Live(before, now);
    assert before.Keys == live.Keys + (before.Keys - live.Keys);
    if |live| < max {
      Grown(live, key, Entry(page, now + ttl, now));
    } else {
      var victim :| LeastRecent(live, victim) && after == (live - {victim})[key := Entry(page, now + ttl, now)];
      assert (live - {victim}).Keys == live.Keys - {victim};
      Grown(live - {victim}, key, Entry(page, now + ttl, now));
    }
  }

  lemma Grown(cache: Cache, key: string, e: Entry)
    ensures |cache[key := e]| <= |cache| + 1
  {
    assert cache[key := e].Keys == cache.Keys + {key};
  }

  function WithPrefix(tags: seq<string>, prefix: string): seq<string> {
    if tags == [] then []
    else
      var last := tags[|tags| - 1];
      WithPrefix(tags[..|tags| - 1], prefix) + (if HasPrefix(last, prefix) then [last] else [])
  }

  /** Keeps the matching tags at the front of the same array. */
  method FilterInPlace(tags: array<string>, prefix: string) returns (n: nat)
    modifies tags
    ensures n <= tags.Length && tags[..n] == WithPrefix(old(tags[..]), prefix)
  {
    ghost var before := tags[..];
    n := 0;
    for i := 0 to tags.Length
      invariant n <= i && tags[..n] == WithPrefix(before[..i], prefix)
      invariant forall k | i <= k < tags.Length :: tags[k] == before[k]
    {
      assert before[..i + 1][..i] == before[..i];
      if prefix == "" || HasPrefix(tags[i], prefix) {
        tags[n] := tags[i];
        n := n + 1;
      }
    }
    assert before[..tags.Length] == before;
  }

  lemma LiveKeys(cache: Cache, now: int)
    ensures Live(cache, now).Keys == set k | k in cache && now < cache[k].expires
    ensures forall k | k in Live(cache, now) :: Live(cache, now)[k] == cache[k]
  {
  }

  /** No entry among these keys was touched before that of v. */
  ghost predicate Least(cache: Cache, keys: set<string>, v: string)
    requires v in keys && keys <= cache.Keys
  {
    forall k | k in keys :: cache[v].touched <= cache[k].touched
  }

  /** In plain terms: the page is there until ttl from now, every other entry that is there was live and is
      unchanged, and what was live is all there, but for one least recently touched entry when it was full. */
  lemma StoredMeans(before: Cache, key: string, page: Page, now: int, ttl: int, max: nat, after: Cache)
    requires Stored(before, key, page, now, ttl, max, after)
    ensures key in after && after[key] == Entry(page, now + ttl, now)
    ensures forall k | k in after && k != key :: k in before && now < before[k].expires && after[k] == before[k]
    ensures var live := set k | k in before && now < before[k].expires;
      && (|live| < max ==> after.Keys == live + {key})
      && (|live| >= max ==> exists v | v in live :: after.Keys == live - {v} + {key} && Least(before, live, v))
  {
    LiveKeys(before, now);
    var live := Live(before, now);
    if |live| >= max {
      var v :| LeastRecent(live, v) && after == (live - {v})[key := Entry(page, now + ttl, now)];
      assert after.Keys == live.Keys - {v} + {key} && Least(before, live.Keys, v);
    }
  }

  class TagService {
    const ttl: int
    const maxEntries: nat
    const maxTags: int
    var cache: Cache

    ghost predicate Valid()
      reads this
    {
      ttl > 0 && maxEntries > 0 && maxTags > 0 && |cache| <= maxEntries
    }

    constructor (ttl: int, maxEntries: int, maxTags: int)
      ensures Valid() && cache == map[]
      ensures this.ttl == if ttl <= 0 then 30 * 1000 else ttl
      ensures this.maxEntries == if maxEntries <= 0 then 128 else maxEntries
      ensures this.maxTags == if maxTags <= 0 then 100 else maxTags
    {
      this.ttl := if ttl <= 0 then 30_000 else ttl;
      this.maxEntries := if maxEntries <= 0 then 128 else maxEntries;
      this.maxTags := if maxTags <= 0 then 100 else maxTags;
      cache := map[];
    }

    method Load(key: string, now: int) returns (page: Option<Page>)
      requires Valid()
      modifies this
      ensures Valid() && cache == Loaded(old(cache), key, now)
      ensures page == if Hits(old(cache), key, now) then Some(old(cache)[key].page) else None
      ensures page.Some? <==> key in old(cache) && now < old(cache)[key].expires
      ensures page.Some? ==> key in cache && cache[key] == old(cache)[key].(touched := now)
      ensures key in cache <==> page.Some?
      ensures forall k | k != key :: k in cache <==> k in old(cache)
      ensures forall k | k in cache && k != key :: cache[k] == old(cache)[k]
    {
      if key !in cache { return None; }
      var entry := cache[key];
      ghost var before := cache;
      if !IsLive(entry, now) {
        cache := cache - {key};
        assert before.Keys == cache.Keys + {key};
        return None;
      }
      entry := entry.(touched := now);
      cache := cache[key := entry];
      assert cache.Keys == before.Keys;
      page := Some(entry.page);
    }

    method DropExpired(now: int)
      modifies this
      ensures cache == Live(old(cache), now)
      ensures forall k :: k in cache <==> k in old(cache) && now < old(cache)[k].expires
    {
      var todo := cache.Keys;
      while todo != {}
        invariant todo <= old(cache).Keys
        invariant forall k :: k in cache <==> k in old(cache) && (k in todo || IsLive(old(cache)[k], now))
        invariant forall k | k in cache :: cache[k] == old(cache)[k]
        decreases todo
      {
        var k :| k in todo;
        todo := todo - {k};
        if !IsLive(cache[k], now) { cache := cache - {k}; }
      }
    }

    /** The scan for the entry touched longest ago. */
    method Oldest() returns (victim: string)
      requires cache != map[]
      ensures LeastRecent(cache, victim)
      ensures victim in cache && forall k | k in cache :: cache[victim].touched <= cache[k].touched
    {
      var first :| first in cache;
      victim := first;
      var todo := cache.Keys - {first};
      while todo != {}
        invariant todo <= cache.Keys && victim in cache
        invariant forall k | k in cache && k !in todo :: cache[victim].touched <= cache[k].touched
        decreases todo
      {
        var k :| k in todo;
        todo := todo - {k};
        if cache[k].touched < cache[victim].touched { victim := k; }
      }
    }

    method Store(key: string, page: Page, now: int)
      requires Valid()
      modifies this
      ensures Valid() && Stored(old(cache), key, page, now, ttl, maxEntries, cache)
    {
      ghost var before := cache;
      DropExpired(now);
      if |cache| >= maxEntries {
        var victim := Oldest();
        cache := cache - {victim};
      }
      cache := cache[key := Entry(page, now + ttl, now)];
      StoredBounded(before, key, page, now, ttl, maxEntries, cache);
    }

    /** One discovery; `answer` is what the registry returns when it is asked, and `asked` whether it was. */
    method Discover(lower: Lowering, image: string, prefix: string, limit: int, cursor: string,
                    answer: Option<(array<string>, string)>, now: int, later: int)
      returns (page: Option<Page>, asked: bool)
      requires Valid()
      modifies this, if answer.Some? then {answer.value.0} else {}
      ensures Valid()
      ensures Parse(lower, image).Err? || Bytes(prefix) > 128 || Bytes(cursor) > 128 ==>
        page == None && !asked && cache == old(cache)
      ensures Parse(lower, image).Ok? && Bytes(prefix) <= 128 && Bytes(cursor) <= 128 ==>
        var q := QueryOf(Parse(lower, image).value, prefix, limit, cursor, maxTags);
        && asked == !Hits(old(cache), Key(q), now)
        && (!asked ==>
          page == Some(old(cache)[Key(q)].page.(cached := true)) && cache == Loaded(old(cache), Key(q), now))
        && (asked && answer.None? ==> page == None && cache == Loaded(old(cache), Key(q), now))
        && (asked && answer.Some? ==>
              && page == Some(Fetched(Parse(lower, image).value, old(answer.value.0[..]), prefix, answer.value.1))
              && Stored(Loaded(old(cache), Key(q), now), Key(q), page.value, later, ttl, maxEntries, cache))
    {
      var parsed := ParseReference(lower, image);
      if parsed.Err? { return None, false; }
      var bounded := limit;
      if bounded <= 0 { bounded := 25; }
      if bounded > maxTags { bounded := maxTags; }
      if Bytes(prefix) > MAX_FILTER || Bytes(cursor) > MAX_FILTER { return None, false; }
      var ref := parsed.value;
      var key := Key(Query(ref.registry, ref.repository, prefix, cursor, bounded));
      var found := Load(key, now);
      if found.Some? { return Some(found.value.(cached := true)), false; }
      asked := true;
      if answer.None? { return None, asked; }
      var tags, next := answer.value.0, answer.value.1;
      var n := FilterInPlace(tags, prefix);
      var fetched := Page(ref, Sort(tags[..n]), next, false);
      Store(key, fetched, later);
      page := Some(fetched);
    }
  }

  /** The limit that counts: 25 unless a positive one is asked for, and never more than the service's. */
  lemma LimitOf(ref: Reference, prefix: string, limit: int, cursor: string, maxTags: int)
    requires maxTags > 0
    ensures var q := QueryOf(ref, prefix, limit, cursor, maxTags);
      && q.registry == ref.registry && q.repository == ref.repository && q.prefix == prefix && q.cursor == cursor
      && 0 < q.limit <= maxTags
      && (limit <= 0 && 25 <= maxTags ==> q.limit == 25) && (limit <= 0 && maxTags < 25 ==> q.limit == maxTags)
      && (0 < limit <= maxTags ==> q.limit == limit) && (limit > maxTags ==> q.limit == maxTags)
  {
  }

  function QueryOf(ref: Reference, prefix: string, limit: int, cursor: string, maxTags: int): Query
    requires maxTags > 0
  {
    var wanted := if limit <= 0 then 25 else limit;
    Query(ref.registry, ref.repository, prefix, cursor, if wanted > maxTags then maxTags else wanted)
  }

  /** The answer to an uncached lookup. */
  function Fetched(ref: Reference, tags: seq<string>, prefix: string, next: string): Page {
    Page(ref, Sort(WithPrefix(tags, prefix)), next, false)
  }

  /** Its tags are the matching ones, all of them and no others, in order. */
  lemma FetchedTags(ref: Reference, tags: seq<string>, prefix: string, next: string)
    ensures var page := Fetched(ref, tags, prefix, next);
      && IsSorted(page.tags) && multiset(page.tags) == multiset(WithPrefix(tags, prefix))
      && page.reference == ref && page.nextCursor == next && !page.cached
  {
    SortSorts(WithPrefix(tags, prefix));
  }

  /** Whatever sorting routine is used: any sorted arrangement of the matching tags is this one. */
  lemma AnySortWillDo(ref: Reference, tags: seq<string>, prefix: string, next: string, sorted: seq<string>)
    requires IsSorted(sorted) && multiset(sorted) == multiset(WithPrefix(tags, prefix))
    ensures sorted == Fetched(ref, tags, prefix, next).tags
  {
    FetchedTags(ref, tags, prefix, next);
    SortedIsUnique(sorted, Fetched(ref, tags, prefix, next).tags);
  }

  lemma {:induction false} WithPrefixExactly(tags: seq<string>, prefix: string, t: string)
    ensures multiset(WithPrefix(tags, prefix))[t] == if HasPrefix(t, prefix) then multiset(tags)[t] else 0
  {
    if tags != [] {
      var front, last := tags[..|tags| - 1], tags[|tags| - 1];
      WithPrefixExactly(front, prefix, t);
      assert tags == front + [last];
    }
  }

  // ----- all runs -----

  datatype Event =
    | Ask(q: Query, at: int)                                        // load
    | Fill(q: Query, ref: Reference, tags: seq<string>, next: string, at: int) // store of a fetched page

  ghost predicate Step(ttl: int, max: nat, before: Cache, e: Event, after: Cache) {
    match e
    case Ask(q, at) => after == Loaded(before, Key(q), at)
    case Fill(q, ref, tags, next, at) => Stored(before, Key(q), Fetched(ref, tags, q.prefix, next), at, ttl, max, after)
  }

  /** Queries are those of images that parse, and a page is stored with its image's reference. */
  ghost predicate Proper(lower: Lowering, e: Event) {
    Askable(lower, e.q) && (e.Fill? ==> e.ref.registry == e.q.registry && e.ref.repository == e.q.repository)
  }

  ghost predicate IsRun(lower: Lowering, ttl: int, max: nat, cs: seq<Cache>, es: seq<Event>) {
    |cs| == |es| + 1 && cs[0] == map[]
    && (forall i {:trigger es[i]} | 0 <= i < |es| :: Step(ttl, max, cs[i], es[i], cs[i + 1]))
    && (forall i | 0 <= i < |es| :: Proper(lower, es[i]))
  }

  lemma LoadedBounded(before: Cache, key: string, at: int)
    ensures |Loaded(before, key, at)| <= |before|
  {
    SubsetSize(Loaded(before, key, at).Keys, before.Keys);
  }

  lemma StepBounded(ttl: int, max: nat, before: Cache, e: Event, after: Cache)
    requires Step(ttl, max, before, e, after) && |before| <= max && max > 0
    ensures |after| <= max
  {
    match e
    case Ask(q, at) => LoadedBounded(before, Key(q), at);
    case Fill(q, ref, tags, next, at) =>
      StoredBounded(before, Key(q), Fetched(ref, tags, q.prefix, next), at, ttl, max, after);
  }

  lemma StepAt(lower: Lowering, ttl: int, max: nat, cs: seq<Cache>, es: seq<Event>, i: nat)
    requires IsRun(lower, ttl, max, cs, es) && i < |es|
    ensures |cs| == |es| + 1 && Step(ttl, max, cs[i], es[i], cs[i + 1])
  {
  }

  lemma NextBounded(lower: Lowering, ttl: int, max: nat, cs: seq<Cache>, es: seq<Event>, i: nat)
    requires IsRun(lower, ttl, max, cs, es) && i < |es| && |cs[i]| <= max && max > 0
    ensures |cs[i + 1]| <= max
  {
    StepAt(lower, ttl, max, cs, es, i);
    StepBounded(ttl, max, cs[i], es[i], cs[i + 1]);
  }

  lemma {:induction false} CacheBounded(lower: Lowering, ttl: int, max: nat, cs: seq<Cache>, es: seq<Event>, i: nat)
    requires IsRun(lower, ttl, max, cs, es) && i < |cs| && max > 0
    ensures |cs[i]| <= max
  {
    if i > 0 {
      CacheBounded(lower, ttl, max, cs, es, i - 1);
      NextBounded(lower, ttl, max, cs, es, i - 1);
    }
  }

  /** Where a cached page comes from: the last fill of its key. */
  ghost predicate FilledAt(ttl: int, es: seq<Event>, j: nat, i: nat, key: string, e: Entry)
    requires j < |es| && i <= |es|
  {
    es[j].Fill? && Key(es[j].q) == key && e.page == Fetched(es[j].ref, es[j].tags, es[j].q.prefix, es[j].next)
    && e.expires == es[j].at + ttl && forall k | j < k < i :: es[k].Fill? ==> Key(es[k].q) != key
  }

  lemma KeepsEntry(ttl: int, max: nat, before: Cache, e: Event, after: Cache, key: string)
    requires Step(ttl, max, before, e, after) && key in after && (e.Fill? ==> Key(e.q) != key)
    ensures key in before && after[key].page == before[key].page && after[key].expires == before[key].expires
  {
  }

  lemma SetsEntry(ttl: int, max: nat, before: Cache, e: Event, after: Cache)
    requires Step(ttl, max, before, e, after) && e.Fill?
    ensures Key(e.q) in after && after[Key(e.q)] == Entry(Fetched(e.ref, e.tags, e.q.prefix, e.next), e.at + ttl, e.at)
  {
  }

  lemma KeepsFilledAt(ttl: int, es: seq<Event>, j: nat, i: nat, key: string, e: Entry, e': Entry)
    requires j < i < |es| && FilledAt(ttl, es, j, i, key, e) && (es[i].Fill? ==> Key(es[i].q) != key)
    requires e'.page == e.page && e'.expires == e.expires
    ensures FilledAt(ttl, es, j, i + 1, key, e')
  {
  }

  lemma JustFilled(ttl: int, es: seq<Event>, i: nat, key: string, e: Entry)
    requires i < |es| && es[i].Fill? && Key(es[i].q) == key
    requires e == Entry(Fetched(es[i].ref, es[i].tags, es[i].q.prefix, es[i].next), es[i].at + ttl, es[i].at)
    ensures FilledAt(ttl, es, i, i + 1, key, e)
  {
  }

  lemma {:induction false} EntryWasFilled(lower: Lowering, ttl: int, max: nat, cs: seq<Cache>, es: seq<Event>,
                                          i: nat, key: string)
    returns (j: nat)
    requires IsRun(lower, ttl, max, cs, es) && i < |cs| && key in cs[i]
    ensures j < i && FilledAt(ttl, es, j, i, key, cs[i][key])
  {
    var k := i - 1;
    StepAt(lower, ttl, max, cs, es, k);
    if es[k].Fill? && Key(es[k].q) == key {
      SetsEntry(ttl, max, cs[k], es[k], cs[i]);
      JustFilled(ttl, es, k, key, cs[i][key]);
      j := k;
    } else {
      KeepsEntry(ttl, max, cs[k], es[k], cs[i], key);
      j := EntryWasFilled(lower, ttl, max, cs, es, k, key);
      KeepsFilledAt(ttl, es, j, k, key, cs[k][key], cs[i][key]);
    }
  }

  /** The page that Ask i finds is what a lookup of its own query, at j, stored less than ttl ago: the
      matching tags, sorted, and the cursor; the query has not been looked up again since. */
  ghost predicate LookedUp(ttl: int, cs: seq<Cache>, es: seq<Event>, i: nat, j: nat)
    requires j < i < |es| && |cs| == |es| + 1 && Key(es[i].q) in cs[i]
  {
    && es[j].Fill? && es[j].q == es[i].q && es[i].at < es[j].at + ttl
    && cs[i][Key(es[i].q)].page == Fetched(es[j].ref, es[j].tags, es[i].q.prefix, es[j].next)
    && forall k | j < k < i :: es[k].Fill? ==> es[k].q != es[i].q
  }

  lemma HitAgreesWithLookup(lower: Lowering, ttl: int, max: nat, cs: seq<Cache>, es: seq<Event>, i: nat)
    returns (j: nat)
    requires IsRun(lower, ttl, max, cs, es) && i < |es| && es[i].Ask? && Hits(cs[i], Key(es[i].q), es[i].at)
    requires Clear(lower, es[i].q)
    ensures j < i && LookedUp(ttl, cs, es, i, j)
  {
    j := EntryWasFilled(lower, ttl, max, cs, es, i, Key(es[i].q));
    assert Proper(lower, es[i]) && Proper(lower, es[j]);
    KeyUnambiguous(lower, es[i].q);
  }

  /** Step i of the run asks for q and finds a page. */
  ghost predicate HitAt(lower: Lowering, ttl: int, max: nat, q: Query, cs: seq<Cache>, es: seq<Event>, i: nat) {
    IsRun(lower, ttl, max, cs, es) && i < |es| && es[i].Ask? && es[i].q == q && Hits(cs[i], Key(q), es[i].at)
  }

  /** Every hit of this query, in every run, agrees with the uncached lookup. */
  ghost predicate HitsAgree(lower: Lowering, ttl: int, max: nat, q: Query) {
    forall cs, es, i: nat | HitAt(lower, ttl, max, q, cs, es, i) ::
      exists j: nat | j < i :: LookedUp(ttl, cs, es, i, j)
  }

  /** Hits agree with lookups exactly for the queries that have their key to themselves. */
  lemma HitsAgreeExactly(lower: Lowering, ttl: int, max: nat, q: Query)
    requires Askable(lower, q) && ttl > 0 && max > 0
    ensures HitsAgree(lower, ttl, max, q) <==> Clear(lower, q)
  {
    if Clear(lower, q) {
      forall cs, es, i: nat | HitAt(lower, ttl, max, q, cs, es, i)
        ensures exists j: nat | j < i :: LookedUp(ttl, cs, es, i, j)
      {
        var j := HitAgreesWithLookup(lower, ttl, max, cs, es, i);
      }
    } else {
      var p := Impostor(lower, q);
      StrangerHits(lower, ttl, max, p, q);
    }
  }

  /** A page stored for another query with the same key answers this one. */
  lemma StrangerHits(lower: Lowering, ttl: int, max: nat, p: Query, q: Query)
    requires Askable(lower, p) && Askable(lower, q) && Key(p) == Key(q) && p != q && ttl > 0 && max > 0
    ensures !HitsAgree(lower, ttl, max, q)
  {
    var ref := Reference(p.registry, p.repository, "", "");
    var filled: Cache := map[Key(p) := Entry(Fetched(ref, [], p.prefix, ""), ttl, 0)];
    var es := [Fill(p, ref, [], "", 0), Ask(q, 0)];
    var cs := [map[], filled, Loaded(filled, Key(q), 0)];
    assert Live(map[], 0) == map[];
    assert Step(ttl, max, cs[0], es[0], cs[1]);
    assert HitAt(lower, ttl, max, q, cs, es, 1);
    forall j: nat | j < 1 ensures !LookedUp(ttl, cs, es, 1, j) { assert es[j] == es[0]; }
  }
}
