// The device authenticator's cache: a lookup section and an insert section under one lock,
// with the upstream introspection between them, in any interleaving of requests.
module DeviceAuth {
  import opened Wrappers

  // A token's digest, taken to be collision-free.
  type Key = nat

  const SECOND := 1_000_000_000
  const LIMIT := 2048

  // expiresAt is a Unix second; instants are nanoseconds.
  datatype Principal = Principal(device: nat, active: bool, expiresAt: int)

  datatype Entry = Entry(principal: Principal, expires: int)

  type Cache = map<Key, Entry>

  // What the upstream said about a token, and when the request asking for it began.
  datatype Answer = Answer(key: Key, principal: Principal, started: int)

  // victim resolves Go's arbitrary map order when one entry must go.
  datatype Section =
    | Lookup(key: Key, now: int)
    | Insert(answer: Answer, victim: Key)

  // ---------- the two sections ----------

  function Hit(cache: Cache, key: Key, now: int): Option<Principal> {
    if key in cache && now < cache[key].expires then Some(cache[key].principal) else None
  }

  function AfterLookup(cache: Cache, key: Key, now: int): Cache {
    if Hit(cache, key, now).Some? then cache else cache - {key}
  }

  function Expiry(a: Answer, ttl: int): int {
    if a.principal.expiresAt * SECOND < a.started + ttl then a.principal.expiresAt * SECOND else a.started + ttl
  }

  predicate Usable(a: Answer, ttl: int) { a.principal.active && Expiry(a, ttl) > a.started }

  function Purged(cache: Cache, now: int): Cache { map k | k in cache && !(now > cache[k].expires) :: cache[k] }

  // What is left to make room in.
  function Trimmed(cache: Cache, now: int): Cache { if |cache| > LIMIT then Purged(cache, now) else cache }

  function Evicted(cache: Cache, now: int, victim: Key): Cache {
    var trimmed := Trimmed(cache, now);
    if |trimmed| > LIMIT then trimmed - {victim} else trimmed
  }

  function AfterInsert(cache: Cache, a: Answer, ttl: int, victim: Key): Cache {
    if !Usable(a, ttl) then cache
    else Evicted(cache, a.started, victim)[a.key := Entry(a.principal, Expiry(a, ttl))]
  }

  // The victim is an entry of the map being ranged over.
  predicate Possible(cache: Cache, s: Section) {
    s.Insert? && |Trimmed(cache, s.answer.started)| > LIMIT ==> s.victim in Trimmed(cache, s.answer.started)
  }

  function Step(cache: Cache, ttl: int, s: Section): Cache {
    match s
    case Lookup(key, now) => AfterLookup(cache, key, now)
    case Insert(a, victim) => AfterInsert(cache, a, ttl, victim)
  }

  function Run(ttl: int, sections: seq<Section>): Cache {
    if sections == [] then map[] else Step(Run(ttl, sections[..|sections| - 1]), ttl, sections[|sections| - 1])
  }

  ghost predicate PossibleRun(ttl: int, sections: seq<Section>) {
    forall i :: 0 <= i < |sections| ==> Possible(Run(ttl, sections[..i]), sections[i])
  }

  // ---------- bounded ----------

  lemma SmallerMap(a: Cache, b: Cache)
    requires a.Keys <= b.Keys
    ensures |a| <= |b|
  {
    assert b.Keys == a.Keys + (b.Keys - a.Keys);
    assert |a| == |a.Keys| && |b| == |b.Keys|;
  }

  lemma EvictionMakesRoom(cache: Cache, now: int, victim: Key)
    requires |cache| <= LIMIT + 1 && (|Trimmed(cache, now)| > LIMIT ==> victim in Trimmed(cache, now))
    ensures |Evicted(cache, now, victim)| <= LIMIT
  {
    var trimmed := Trimmed(cache, now);
    SmallerMap(trimmed, cache);
    if |trimmed| > LIMIT {
      var evicted := Evicted(cache, now, victim);
      assert evicted.Keys == trimmed.Keys - {victim};
      assert |evicted| == |evicted.Keys| && |trimmed| == |trimmed.Keys|;
    }
  }

  lemma InsertAddsOne(m: Cache, key: Key, e: Entry)
    ensures |m[key := e]| == |m| + if key in m then 0 else 1
  {
    assert m[key := e].Keys == m.Keys + {key};
    assert |m[key := e]| == |m[key := e].Keys| && |m| == |m.Keys|;
    assert key in m ==> m.Keys + {key} == m.Keys;
  }

  lemma StepKeepsBound(cache: Cache, ttl: int, s: Section)
    requires |cache| <= LIMIT + 1 && Possible(cache, s)
    ensures |Step(cache, ttl, s)| <= LIMIT + 1
  {
    match s
    case Lookup(key, now) => SmallerMap(AfterLookup(cache, key, now), cache);
    case Insert(a, victim) =>
      EvictionMakesRoom(cache, a.started, victim);
      InsertAddsOne(Evicted(cache, a.started, victim), a.key, Entry(a.principal, Expiry(a, ttl)));
  }

  // However the sections interleave, the cache never holds more than 2049 entries.
  lemma {:induction false} CacheIsBounded(ttl: int, sections: seq<Section>)
    requires PossibleRun(ttl, sections)
    ensures |Run(ttl, sections)| <= LIMIT + 1
  {
    if sections != [] {
      var before := sections[..|sections| - 1];
      forall i | 0 <= i < |before| ensures Possible(Run(ttl, before[..i]), before[i]) {
        assert before[..i] == sections[..i];
      }
      CacheIsBounded(ttl, before);
      StepKeepsBound(Run(ttl, before), ttl, sections[|sections| - 1]);
    }
  }

  // The bound is reached. Tokens 0, 1, 2, ... are authenticated one after the other, none expires.
  function Arrival(ttl: int, key: Key): Section { Insert(Answer(key, Principal(0, true, ttl), 0), 0) }

  ghost predicate HoldsFirst(cache: Cache, n: nat) {
    |cache| == n && forall k: Key :: k in cache <==> k < n
  }

  lemma ArrivalFits(cache: Cache, ttl: int, n: nat)
    requires ttl > 0 && n <= LIMIT && HoldsFirst(cache, n)
    ensures Possible(cache, Arrival(ttl, n)) && HoldsFirst(Step(cache, ttl, Arrival(ttl, n)), n + 1)
  {
    var a := Arrival(ttl, n).answer;
    assert Expiry(a, ttl) == ttl && Usable(a, ttl);
    assert Evicted(cache, 0, 0) == cache;
    var entry := Entry(a.principal, ttl);
    assert AfterInsert(cache, a, ttl, 0) == cache[n := entry];
    InsertAddsOne(cache, n, entry);
  }

  // Section j is the lookup that the insert at i answers: same token, same clock reading, missed.
  ghost predicate Answers(ttl: int, sections: seq<Section>, i: nat, j: nat)
    requires i < |sections|
  {
    && j < i && sections[i].Insert? && sections[j] == Lookup(sections[i].answer.key, sections[i].answer.started)
    && Hit(Run(ttl, sections[..j]), sections[j].key, sections[j].now).None?
  }

  // What calls of authenticate can produce: each insert follows a missed lookup of its own,
  // and asked says which.
  ghost predicate Authentic(ttl: int, sections: seq<Section>, asked: map<nat, nat>) {
    && AllAnswer(ttl, sections, asked)
    && (forall i :: 0 <= i < |sections| && sections[i].Insert? ==> i in asked)
    && NoneShared(asked)
  }

  ghost predicate AllAnswer(ttl: int, sections: seq<Section>, asked: map<nat, nat>) {
    forall i :: i in asked ==> i < |sections| && Answers(ttl, sections, i, asked[i])
  }

  ghost predicate NoneShared(asked: map<nat, nat>) {
    forall i, j :: i in asked && j in asked && i != j ==> asked[i] != asked[j]
  }

  lemma PossibleExtended(ttl: int, before: seq<Section>, s: Section)
    requires PossibleRun(ttl, before) && Possible(Run(ttl, before), s)
    ensures PossibleRun(ttl, before + [s]) && Run(ttl, before + [s]) == Step(Run(ttl, before), ttl, s)
  {
    var all := before + [s];
    assert all[..|before|] == before;
    forall i | 0 <= i < |all| ensures Possible(Run(ttl, all[..i]), all[i]) {
      if i < |before| {
        assert all[..i] == before[..i] && all[i] == before[i];
      }
    }
  }

  lemma AnswersStay(ttl: int, sections: seq<Section>, more: seq<Section>, i: nat, j: nat)
    requires i < |sections| && Answers(ttl, sections, i, j)
    ensures Answers(ttl, sections + more, i, j)
  {
    assert (sections + more)[..j] == sections[..j];
  }

  lemma PairAnswers(ttl: int, before: seq<Section>, a: Answer, victim: Key)
    requires Hit(Run(ttl, before), a.key, a.started).None?
    ensures Answers(
      ttl, before + [Lookup(a.key, a.started), Insert(a, victim)], |before| + 1, |before|)
  {
    assert (before + [Lookup(a.key, a.started), Insert(a, victim)])[..|before|] == before;
  }

  lemma AnswersExtended(ttl: int, before: seq<Section>, asked: map<nat, nat>, a: Answer, victim: Key)
    requires AllAnswer(ttl, before, asked) && Hit(Run(ttl, before), a.key, a.started).None?
    ensures AllAnswer(
      ttl, before + [Lookup(a.key, a.started), Insert(a, victim)], asked[|before| + 1 := |before|])
  {
    var pair := [Lookup(a.key, a.started), Insert(a, victim)];
    var all, all' := before + pair, asked[|before| + 1 := |before|];
    PairAnswers(ttl, before, a, victim);
    forall i | i in all' ensures i < |all| && Answers(ttl, all, i, all'[i]) {
      if i != |before| + 1 {
        AnswersStay(ttl, before, pair, i, asked[i]);
      }
    }
  }

  lemma SharedByNone(ttl: int, before: seq<Section>, asked: map<nat, nat>)
    requires AllAnswer(ttl, before, asked) && NoneShared(asked)
    ensures NoneShared(asked[|before| + 1 := |before|])
  {
    forall i | i in asked ensures asked[i] < |before| {
      assert Answers(ttl, before, i, asked[i]);
    }
  }

  // One more call: a lookup that misses, and the insert of its answer.
  lemma AuthenticExtended(ttl: int, before: seq<Section>, asked: map<nat, nat>, a: Answer, victim: Key)
    requires Authentic(ttl, before, asked) && Hit(Run(ttl, before), a.key, a.started).None?
    ensures Authentic(
      ttl, before + [Lookup(a.key, a.started), Insert(a, victim)], asked[|before| + 1 := |before|])
  {
    AnswersExtended(ttl, before, asked, a, victim);
    SharedByNone(ttl, before, asked);
  }

  lemma MissChangesNothing(cache: Cache, ttl: int, n: nat)
    requires HoldsFirst(cache, n)
    ensures Step(cache, ttl, Lookup(n, 0)) == cache && Hit(cache, n, 0).None?
  {
    assert cache - {n} == cache;
  }

  // The call for the next token, on a cache that does not have it.
  lemma CallFits(ttl: int, before: seq<Section>, n: nat)
    requires ttl > 0 && n <= LIMIT && PossibleRun(ttl, before) && HoldsFirst(Run(ttl, before), n)
    ensures var all := before + [Lookup(n, 0), Arrival(ttl, n)];
      PossibleRun(ttl, all) && HoldsFirst(Run(ttl, all), n + 1)
  {
    MissChangesNothing(Run(ttl, before), ttl, n);
    PossibleExtended(ttl, before, Lookup(n, 0));
    var looked := before + [Lookup(n, 0)];
    assert Run(ttl, looked) == Run(ttl, before);
    InsertFits(ttl, looked, n);
    assert looked + [Arrival(ttl, n)] == before + [Lookup(n, 0), Arrival(ttl, n)];
  }

  lemma InsertFits(ttl: int, before: seq<Section>, n: nat)
    requires ttl > 0 && n <= LIMIT && PossibleRun(ttl, before) && HoldsFirst(Run(ttl, before), n)
    ensures var all := before + [Arrival(ttl, n)];
      PossibleRun(ttl, all) && HoldsFirst(Run(ttl, all), n + 1)
  {
    ArrivalFits(Run(ttl, before), ttl, n);
    PossibleExtended(ttl, before, Arrival(ttl, n));
  }

  lemma {:induction false} ArrivalsFill(ttl: int, n: nat) returns (sections: seq<Section>, asked: map<nat, nat>)
    requires ttl > 0 && n <= LIMIT + 1
    ensures PossibleRun(ttl, sections) && HoldsFirst(Run(ttl, sections), n) && Authentic(ttl, sections, asked)
  {
    if n == 0 {
      sections, asked := [], map[];
    } else {
      var before, earlier := ArrivalsFill(ttl, n - 1);
      CallFits(ttl, before, n - 1);
      AuthenticExtended(ttl, before, earlier, Arrival(ttl, n - 1).answer, 0);
      sections := before + [Lookup(n - 1, 0), Arrival(ttl, n - 1)];
      asked := earlier[|before| + 1 := |before|];
    }
  }

  lemma BoundIsReached(ttl: int) returns (sections: seq<Section>, asked: map<nat, nat>)
    requires ttl > 0
    ensures PossibleRun(ttl, sections) && Authentic(ttl, sections, asked) && |Run(ttl, sections)| == LIMIT + 1
  {
    sections, asked := ArrivalsFill(ttl, LIMIT + 1);
  }

  // When an insert leaves 2049 entries: a new key is added to exactly 2048 entries
  // that are left after making room, or nothing is added and the cache was above it already.
  lemma OverflowsIff(cache: Cache, a: Answer, ttl: int, victim: Key)
    requires |cache| <= LIMIT + 1 && Possible(cache, Insert(a, victim))
    ensures |AfterInsert(cache, a, ttl, victim)| <= LIMIT + 1
    ensures |AfterInsert(cache, a, ttl, victim)| == LIMIT + 1 <==>
      if Usable(a, ttl) then
        |Evicted(cache, a.started, victim)| == LIMIT && a.key !in Evicted(cache, a.started, victim)
      else |cache| > LIMIT
  {
    if Usable(a, ttl) {
      EvictionMakesRoom(cache, a.started, victim);
      InsertAddsOne(Evicted(cache, a.started, victim), a.key, Entry(a.principal, Expiry(a, ttl)));
    }
  }

  // ---------- fresh ----------

  // Section i put this entry in the cache.
  ghost predicate InsertedAt(ttl: int, sections: seq<Section>, key: Key, e: Entry, i: nat) {
    && i < |sections| && sections[i].Insert?
    && sections[i].answer.key == key && sections[i].answer.principal == e.principal
    && Usable(sections[i].answer, ttl) && e.expires == Expiry(sections[i].answer, ttl)
  }

  lemma {:induction false} EntriesWereInserted(ttl: int, sections: seq<Section>, key: Key) returns (i: nat)
    requires key in Run(ttl, sections)
    ensures InsertedAt(ttl, sections, key, Run(ttl, sections)[key], i)
  {
    var last := |sections| - 1;
    var before := Run(ttl, sections[..last]);
    var s := sections[last];
    if s.Insert? && s.answer.key == key && Usable(s.answer, ttl) {
      i := last;
    } else {
      i := EntriesWereInserted(ttl, sections[..last], key);
    }
  }

  // A hit returns what the upstream said about that very token, in an introspection that
  // began less than ttl ago, for a principal that was active and whose token is still valid.
  lemma HitsAreFresh(ttl: int, sections: seq<Section>, key: Key, now: int) returns (i: nat)
    requires Hit(Run(ttl, sections), key, now).Some?
    ensures i < |sections| && sections[i].Insert?
    ensures var a := sections[i].answer;
      var p := Hit(Run(ttl, sections), key, now).value;
      && a.key == key && a.principal == p
      && now - a.started < ttl && p.active && now < p.expiresAt * SECOND
  {
    i := EntriesWereInserted(ttl, sections, key);
  }

  // ---------- each section, in plain terms ----------

  // A lookup only ever removes its own key, and only if it misses.
  lemma LookupIs(cache: Cache, key: Key, now: int)
    ensures var after := AfterLookup(cache, key, now);
      && (Hit(cache, key, now).Some? <==> key in cache && now < cache[key].expires)
      && (Hit(cache, key, now).Some? ==> Hit(cache, key, now) == Some(cache[key].principal) && after == cache)
      && (Hit(cache, key, now).None? ==> key !in after)
      && forall k :: k != key ==> (k in after <==> k in cache) && (k in cache ==> after[k] == cache[k])
  {
  }

  // The answer for an active principal whose token has time left is kept, and a lookup finds it
  // until the ttl is over or the token has expired, whichever is first; any other answer is not.
  lemma InsertedIsFound(cache: Cache, a: Answer, ttl: int, victim: Key, now: int)
    requires ttl > 0
    ensures var after := AfterInsert(cache, a, ttl, victim);
      if a.principal.active && a.started < a.principal.expiresAt * 1_000_000_000 then
        Hit(after, a.key, now) ==
          if now < a.started + ttl && now < a.principal.expiresAt * 1_000_000_000 then Some(a.principal) else None
      else after == cache
  {
  }

  // Other entries go only above 2048 entries: the expired ones, and one more if that is not enough.
  lemma InsertKeepsOthers(cache: Cache, a: Answer, ttl: int, victim: Key, k: Key)
    requires k != a.key
    ensures var after := AfterInsert(cache, a, ttl, victim);
      && (k in after ==> k in cache && after[k] == cache[k])
      && (k in cache && k !in after ==> |cache| > 2048 && (cache[k].expires < a.started || k == victim))
  {
  }

  // ---------- the sections in place ----------

  class Authenticator {
    var cache: Cache
    const ttl: int

    constructor (ttl: int)
      ensures cache == Run(this.ttl, [])
      ensures this.ttl == (if ttl <= 0 then 10 * SECOND else ttl) > 0
    {
      this.ttl := if ttl <= 0 then 10 * SECOND else ttl;
      cache := map[];
    }

    method LookupSection(key: Key, now: int) returns (r: Option<Principal>)
      modifies this
      ensures r == Hit(old(cache), key, now)
      ensures cache == Step(old(cache), ttl, Lookup(key, now))
    {
      if key in cache {
        var entry := cache[key];
        if now < entry.expires {
          return Some(entry.principal);
        }
      }
      cache := cache - {key};
      return None;
    }

    // The loop that drops expired entries; Go may range over a map it deletes from.
    method DropExpired(now: int)
      modifies this
      ensures cache == Purged(old(cache), now)
    {
      var todo := cache.Keys;
      while todo != {}
        invariant todo <= cache.Keys
        invariant forall k :: k in cache <==> k in old(cache) && (k in todo || !(now > old(cache)[k].expires))
        invariant forall k :: k in cache ==> cache[k] == old(cache)[k]
        decreases todo
      {
        var k :| k in todo;
        if now > cache[k].expires {
          cache := cache - {k};
        }
        todo := todo - {k};
      }
    }

    method InsertSection(a: Answer) returns (r: Option<Principal>, ghost victim: Key)
      modifies this
      ensures r == if Usable(a, ttl) then Some(a.principal) else None
      ensures Possible(old(cache), Insert(a, victim))
      ensures cache == Step(old(cache), ttl, Insert(a, victim))
    {
      victim := 0;
      var expires := a.started + ttl;
      var tokenExpiry := a.principal.expiresAt * SECOND;
      if tokenExpiry < expires {
        expires := tokenExpiry;
      }
      if !a.principal.active || expires <= a.started {
        ghost var trimmed := Trimmed(cache, a.started);
        if |trimmed| > LIMIT {
          assert trimmed.Keys != {};
          victim :| victim in trimmed.Keys;
        }
        return None, victim;
      }
      if |cache| > LIMIT {
        DropExpired(a.started);
        if |cache| > LIMIT {
          var some :| some in cache.Keys;
          victim := some;
          cache := cache - {some};
        }
      }
      cache := cache[a.key := Entry(a.principal, expires)];
      return Some(a.principal), victim;
    }
  }
}
