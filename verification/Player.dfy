// The player service: pages of upcoming items, signed continuation tokens, and the cache that
// keeps devices playing while the upstream is down.
module Player {
  import opened Wrappers
  import opened Text
  import PlaybackClock

  // ---------- continuation tokens ----------

  datatype Cursor = Cursor(manifest: string, version: int, index: int, expiresAt: int)

  datatype Decoded = NotBase64 | NotJson | Decoded(cursor: Cursor)

  // JSON, base64 and HMAC under the service's secret.
  datatype Codec = Codec(
    encode: Cursor -> string, decode: string -> Decoded,
    mac: string -> string, armor: string -> string, unarmor: string -> Option<string>)

  ghost predicate Sound(k: Codec) {
    && (forall c :: k.decode(k.encode(c)) == Decoded(c) && '.' !in k.encode(c))
    && (forall m :: k.unarmor(k.armor(m)) == Some(m) && '.' !in k.armor(m))
  }

  ghost predicate InjectiveMac(k: Codec) { forall a, b :: k.mac(a) == k.mac(b) ==> a == b }

  datatype CursorError = InvalidToken | StaleToken | OutOfRange

  function SignCursor(k: Codec, c: Cursor): string {
    k.encode(c) + "." + k.armor(k.mac(k.encode(c)))
  }

  function VerifyCursor(k: Codec, value: string, manifest: string, version: int, now: int)
    : Result<Cursor, CursorError>
  {
    var parts := Split(value, '.');
    if |parts| != 2 then Err(InvalidToken)
    else if k.unarmor(parts[1]) != Some(k.mac(parts[0])) then Err(InvalidToken)
    else match k.decode(parts[0])
      case NotBase64 => Err(InvalidToken)
      case NotJson => Err(StaleToken)
      case Decoded(c) =>
        if c.manifest != manifest || c.version != version || c.expiresAt <= now then Err(StaleToken) else Ok(c)
  }

  // A signed token comes back as signed exactly while its manifest, version and expiry hold.
  lemma SignedVerifies(k: Codec, c: Cursor, manifest: string, version: int, now: int)
    requires Sound(k)
    ensures VerifyCursor(k, SignCursor(k, c), manifest, version, now)
         == if c.manifest == manifest && c.version == version && now < c.expiresAt then Ok(c) else Err(StaleToken)
  {
    var body, signature := k.encode(c), k.armor(k.mac(k.encode(c)));
    assert SignCursor(k, c) == body + ['.'] + signature;
    SplitFirst(body, signature, '.');
    SplitWhole(signature, '.');
  }

  // A signature vouches for no other body.
  lemma SwappedBodyRejected(k: Codec, c: Cursor, body: string, manifest: string, version: int, now: int)
    requires Sound(k) && InjectiveMac(k) && body != k.encode(c) && '.' !in body
    ensures VerifyCursor(k, body + "." + k.armor(k.mac(k.encode(c))), manifest, version, now) == Err(InvalidToken)
  {
    var signature := k.armor(k.mac(k.encode(c)));
    assert body + "." + signature == body + ['.'] + signature;
    SplitFirst(body, signature, '.');
    SplitWhole(signature, '.');
  }

  // A token that is accepted is a body and its signature around one dot, and the body names this
  // manifest and version and a time still to come.
  lemma AcceptedMeans(k: Codec, value: string, manifest: string, version: int, now: int)
    requires VerifyCursor(k, value, manifest, version, now).Ok?
    ensures var c := VerifyCursor(k, value, manifest, version, now).value;
      && c.manifest == manifest && c.version == version && now < c.expiresAt
      && exists body, signature ::
           && value == body + "." + signature && '.' !in body && '.' !in signature
           && k.unarmor(signature) == Some(k.mac(body)) && k.decode(body) == Decoded(c)
  {
    var parts := Split(value, '.');
    JoinSplit(value, '.');
    assert parts == [parts[0], parts[1]] && parts[1..] == [parts[1]];
    assert value == parts[0] + "." + parts[1];
  }

  // ---------- pages ----------

  function Min(a: nat, b: nat): nat { if a <= b then a else b }

  function PageAt<T>(assets: seq<T>, index: nat, window: nat): (page: seq<T>)
    requires assets != []
    ensures |page| == Min(window, |assets|)
  {
    seq(Min(window, |assets|), j requires 0 <= j => assets[(index + j) % |assets|])
  }

  // The loop of build that fills a page.
  method FillPage<T>(assets: seq<T>, index: nat, window: nat) returns (items: seq<T>)
    requires assets != []
    ensures items == PageAt(assets, index, window)
  {
    items := [];
    var offset := 0;
    while offset < window && offset < |assets|
      invariant offset <= Min(window, |assets|) && items == PageAt(assets, index, window)[..offset]
    {
      items := items + [assets[(index + offset) % |assets|]];
      offset := offset + 1;
    }
  }

  datatype Page<T> = Page(items: seq<T>, positionMs: int, token: string)

  datatype Manifest = Manifest(id: string, version: int, validUntil: int)

  function NextCursor(m: Manifest, index: nat, shown: nat, n: nat): Cursor
    requires n > 0
  {
    Cursor(m.id, m.version, (index + shown) % n, m.validUntil)
  }

  function PageFrom<T>(k: Codec, m: Manifest, assets: seq<T>, window: nat, index: nat, positionMs: int): Page<T>
    requires assets != []
  {
    Page(PageAt(assets, index, window), positionMs,
         SignCursor(k, NextCursor(m, index, Min(window, |assets|), |assets|)))
  }

  // What build answers to a continuation token. Go indexes with the sign of the dividend.
  function Resume<T>(k: Codec, m: Manifest, assets: seq<T>, window: nat, token: string, now: int)
    : Result<Page<T>, CursorError>
    requires assets != []
  {
    var c := VerifyCursor(k, token, m.id, m.version, now);
    if c.Err? then Err(c.error)
    else
      var index := PlaybackClock.TruncMod(c.value.index, |assets|);
      if index < 0 then Err(OutOfRange) else Ok(PageFrom(k, m, assets, window, index, 0))
  }

  // A token brings a page exactly if it is accepted and its index is not negative, and the page then
  // starts at that index, from its first millisecond.
  lemma ResumeIs<T>(k: Codec, m: Manifest, assets: seq<T>, window: nat, token: string, now: int)
    requires assets != []
    ensures var r := Resume(k, m, assets, window, token, now);
      match VerifyCursor(k, token, m.id, m.version, now)
      case Err(e) => r == Err(e)
      case Ok(c) =>
        && (c.index >= 0 ==>
              && r.Ok? && r.value.positionMs == 0
              && |r.value.items| == (if window <= |assets| then window else |assets|)
              && forall j :: 0 <= j < |r.value.items| ==> r.value.items[j] == assets[(c.index + j) % |assets|])
        && (c.index < 0 && c.index % |assets| != 0 ==> r == Err(OutOfRange))
  {
    var c := VerifyCursor(k, token, m.id, m.version, now);
    if c.Ok? && c.value.index >= 0 {
      var items := Resume(k, m, assets, window, token, now).value.items;
      forall j | 0 <= j < |items| ensures items[j] == assets[(c.value.index + j) % |assets|] {
        ModAdd(c.value.index, j, |assets|);
      }
    } else if c.Ok? && c.value.index % |assets| != 0 {
      NegativeRemainder(c.value.index, |assets|);
    }
  }

  lemma NegativeRemainder(a: int, n: int)
    requires n > 0 && a < 0 && a % n != 0
    ensures PlaybackClock.TruncMod(a, n) < 0
  {
    if (-a) % n == 0 {
      var q := (-a) / n;
      assert -a == q * n;
      assert a == (-q) * n + 0;
      PlaybackClock.ModUnique(a, n, -q, 0);
    }
  }

  // build, for a non-empty queue: without a token the clock decides where to start.
  method Build<T>(
    k: Codec, m: Manifest, assets: seq<T>, durations: seq<int>, window: nat, token: string, nowMs: int, now: int)
    returns (r: Result<Page<T>, CursorError>)
    requires assets != [] && |durations| == |assets| && PlaybackClock.IsInt64(nowMs)
    ensures token != "" ==> r == Resume(k, m, assets, window, token, now)
    ensures token == "" && PlaybackClock.Playable(durations) && nowMs >= 0 ==>
      exists i: nat :: i < |assets|
        && PlaybackClock.OnAir(durations, nowMs % PlaybackClock.Cycle(durations), i)
        && r == Ok(PageFrom(k, m, assets, window, i,
                            nowMs % PlaybackClock.Cycle(durations) - PlaybackClock.Prefix(durations, i)))
    ensures token == "" ==> r.Ok? && |r.value.items| == Min(window, |assets|)
  {
    var index, positionMs := PlaybackClock.DeterministicPosition(durations, nowMs);
    if token != "" {
      var c := VerifyCursor(k, token, m.id, m.version, now);
      if c.Err? {
        return Err(c.error);
      }
      var wanted := PlaybackClock.TruncMod(c.value.index, |assets|);
      if wanted < 0 {
        return Err(OutOfRange);
      }
      index, positionMs := wanted, 0;
    }
    var items := FillPage(assets, index, window);
    var next := SignCursor(k, Cursor(m.id, m.version, (index + |items|) % |assets|, m.validUntil));
    r := Ok(Page(items, positionMs, next));
  }

  // ---------- walking the pages ----------

  // Where the k-th page after start begins, following tokens from page to page.
  function PageStart(n: nat, window: nat, start: nat, k: nat): (index: nat)
    requires start < n
    ensures index < n
  {
    if k == 0 then start else (PageStart(n, window, start, k - 1) + Min(window, n)) % n
  }

  // Handing back a token yields the next page, from its first millisecond.
  lemma TokenContinues<T>(k: Codec, m: Manifest, assets: seq<T>, window: nat, index: nat, positionMs: int, now: int)
    requires Sound(k) && assets != [] && now < m.validUntil
    ensures var page := PageFrom(k, m, assets, window, index, positionMs);
      Resume(k, m, assets, window, page.token, now)
      == Ok(PageFrom(k, m, assets, window, (index + Min(window, |assets|)) % |assets|, 0))
  {
    var c := NextCursor(m, index, Min(window, |assets|), |assets|);
    SignedVerifies(k, c, m.id, m.version, now);
    PlaybackClock.ModUnique(c.index, |assets|, 0, c.index);
  }

  // The k-th page reached by following tokens from the page at start, where the k-th token is
  // handed back at clock(k).
  function Walk<T>(k: Codec, m: Manifest, assets: seq<T>, window: nat, start: nat, pages: nat, clock: nat -> int)
    : Result<Page<T>, CursorError>
    requires assets != [] && start < |assets|
  {
    if pages == 0 then Ok(PageFrom(k, m, assets, window, start, 0))
    else
      var before := Walk(k, m, assets, window, start, pages - 1, clock);
      if before.Err? then before else Resume(k, m, assets, window, before.value.token, clock(pages))
  }

  // Every token of the walk is handed back before the manifest expires.
  ghost predicate InTime(m: Manifest, clock: nat -> int, pages: nat) {
    forall i :: 0 < i <= pages ==> clock(i) < m.validUntil
  }

  // The walk arrives at the page that starts at here.
  ghost predicate Arrives<T>(
    k: Codec, m: Manifest, assets: seq<T>, window: nat, start: nat, pages: nat, clock: nat -> int, here: nat)
    requires assets != [] && start < |assets|
  {
    Walk(k, m, assets, window, start, pages, clock) == Ok(PageFrom(k, m, assets, window, here, 0))
  }

  lemma WalkStep<T>(
    k: Codec, m: Manifest, assets: seq<T>, window: nat, start: nat, pages: nat, clock: nat -> int, here: nat)
    requires Sound(k) && assets != [] && start < |assets| && clock(pages + 1) < m.validUntil
    requires Arrives(k, m, assets, window, start, pages, clock, here)
    ensures Arrives(k, m, assets, window, start, pages + 1, clock, (here + Min(window, |assets|)) % |assets|)
  {
    TokenContinues(k, m, assets, window, here, 0, clock(pages + 1));
  }

  lemma StartAfter(n: nat, window: nat, start: nat, pages: nat)
    requires start < n
    ensures PageStart(n, window, start, pages + 1) == (PageStart(n, window, start, pages) + Min(window, n)) % n
  {
  }

  lemma {:induction false} WalkReaches<T>(
    k: Codec, m: Manifest, assets: seq<T>, window: nat, start: nat, pages: nat, clock: nat -> int)
    requires Sound(k) && assets != [] && start < |assets| && InTime(m, clock, pages)
    ensures Arrives(k, m, assets, window, start, pages, clock, PageStart(|assets|, window, start, pages))
  {
    if pages > 0 {
      WalkReaches(k, m, assets, window, start, pages - 1, clock);
      WalkStep(k, m, assets, window, start, pages - 1, clock, PageStart(|assets|, window, start, pages - 1));
      StartAfter(|assets|, window, start, pages - 1);
    }
  }

  // A token handed back too late ends the walk, whatever came before.
  lemma LateTokenEndsWalk<T>(
    k: Codec, m: Manifest, assets: seq<T>, window: nat, start: nat, pages: nat, clock: nat -> int)
    requires Sound(k) && assets != [] && start < |assets| && InTime(m, clock, pages)
    requires clock(pages + 1) >= m.validUntil
    ensures Walk(k, m, assets, window, start, pages + 1, clock) == Err(StaleToken)
  {
    WalkReaches(k, m, assets, window, start, pages, clock);
    var c := NextCursor(m, PageStart(|assets|, window, start, pages), Min(window, |assets|), |assets|);
    SignedVerifies(k, c, m.id, m.version, clock(pages + 1));
  }

  lemma ModAdd(a: int, b: int, n: int)
    requires n > 0
    ensures (a % n + b) % n == (a + b) % n
  {
    var q, r := a / n, a % n;
    var s, t := (r + b) / n, (r + b) % n;
    assert a + b == n * (q + s) + t;
    assert a + b == (q + s) * n + t;
    PlaybackClock.ModUnique(a + b, n, q + s, t);
  }

  lemma {:induction false} PageStartClosedForm(n: nat, window: nat, start: nat, k: nat)
    requires start < n
    ensures PageStart(n, window, start, k) == (start + k * Min(window, n)) % n
  {
    if k == 0 {
      PlaybackClock.ModUnique(start, n, 0, start);
    } else {
      PageStartClosedForm(n, window, start, k - 1);
      var w := Min(window, n);
      ModAdd(start + (k - 1) * w, w, n);
      assert start + (k - 1) * w + w == start + k * w;
    }
  }

  // The k-th page lists assets[(start + k*w + j) mod n].
  lemma WalkedPage<T>(
    k: Codec, m: Manifest, assets: seq<T>, window: nat, start: nat, pages: nat, clock: nat -> int, j: nat)
    requires Sound(k) && assets != [] && start < |assets| && InTime(m, clock, pages) && j < Min(window, |assets|)
    ensures var page := Walk(k, m, assets, window, start, pages, clock);
      && page.Ok? && |page.value.items| == Min(window, |assets|)
      && page.value.items[j] == assets[(start + pages * Min(window, |assets|) + j) % |assets|]
  {
    WalkReaches(k, m, assets, window, start, pages, clock);
    PageStartClosedForm(|assets|, window, start, pages);
    ModAdd(start + pages * Min(window, |assets|), j, |assets|);
  }

  function CeilDiv(n: nat, w: nat): nat
    requires w > 0
  {
    (n + w - 1) / w
  }

  lemma QuotientBelowCeil(d: nat, n: nat, w: nat) returns (q: nat, j: nat)
    requires w > 0 && d < n
    ensures d == q * w + j && j < w && q < CeilDiv(n, w)
  {
    q, j := d / w, d % w;
    var c := CeilDiv(n, w);
    assert n + w - 1 == w * c + (n + w - 1) % w;
    assert d == w * q + d % w;
    assert q >= c ==> w * (q - c) >= 0;
    assert w * (q - c) == w * q - w * c;
  }

  // Walking on from a page is walking from the start.
  lemma {:induction false} PageStartCompose(n: nat, window: nat, start: nat, from: nat, q: nat)
    requires start < n
    ensures PageStart(n, window, start, from + q) == PageStart(n, window, PageStart(n, window, start, from), q)
  {
    if q > 0 {
      PageStartCompose(n, window, start, from, q - 1);
    }
  }

  lemma LandsOn(n: nat, ahead: nat, j: nat, asset: nat)
    requires asset < n && (ahead + j == asset || ahead + j == asset + n)
    ensures (ahead % n + j) % n == asset
  {
    ModAdd(ahead, j, n);
    PlaybackClock.ModUnique(ahead + j, n, if ahead + j == asset then 0 else 1, asset);
  }

  // How many steps ahead of s the asset is, going round.
  function Ahead(s: nat, asset: nat, n: nat): (d: nat)
    requires s < n && asset < n
    ensures d < n && (s + d == asset || s + d == asset + n)
  {
    if asset >= s then asset - s else asset - s + n
  }

  lemma PageShows(n: nat, window: nat, s: nat, q: nat, j: nat, asset: nat)
    requires s < n && asset < n && j < Min(window, n) && Ahead(s, asset, n) == q * Min(window, n) + j
    ensures (PageStart(n, window, s, q) + j) % n == asset
  {
    PageStartClosedForm(n, window, s, q);
    LandsOn(n, s + q * Min(window, n), j, asset);
  }

  // Among ceil(n/w) consecutive page starts, one has the asset on its page.
  lemma StartsCover(n: nat, window: nat, start: nat, from: nat, asset: nat) returns (k: nat, j: nat)
    requires start < n && window > 0 && asset < n
    ensures from <= k < from + CeilDiv(n, Min(window, n)) && j < Min(window, n)
    ensures (PageStart(n, window, start, k) + j) % n == asset
  {
    var s := PageStart(n, window, start, from);
    var q;
    q, j := QuotientBelowCeil(Ahead(s, asset, n), n, Min(window, n));
    k := from + q;
    PageShows(n, window, s, q, j, asset);
    PageStartCompose(n, window, start, from, q);
  }

  // Any ceil(n/w) consecutive pages of a walk show every asset.
  lemma PagesCover<T>(
    k: Codec, m: Manifest, assets: seq<T>, window: nat, start: nat, clock: nat -> int, from: nat, asset: nat)
    returns (page: nat)
    requires Sound(k) && start < |assets| && window > 0 && asset < |assets|
    requires InTime(m, clock, from + CeilDiv(|assets|, Min(window, |assets|)))
    ensures from <= page < from + CeilDiv(|assets|, Min(window, |assets|))
    ensures var shown := Walk(k, m, assets, window, start, page, clock);
      shown.Ok? && assets[asset] in shown.value.items
  {
    var j;
    page, j := StartsCover(|assets|, window, start, from, asset);
    WalkReaches(k, m, assets, window, start, page, clock);
    assert PageAt(assets, PageStart(|assets|, window, start, page), window)[j] == assets[asset];
  }

  // ---------- the runtime cache ----------

  datatype Runtime = Runtime(device: string, validUntil: Option<int>, content: nat)

  predicate Authorized(r: Runtime, now: int) { r.validUntil.Some? && r.validUntil.value > now }

  datatype Source = FromUpstream | FromCache

  // One call: who asked, what the upstream answered (None when it failed), and when.
  datatype Call = Call(device: string, upstream: Option<Runtime>, now: int)

  function Remember(cache: map<string, Runtime>, c: Call): map<string, Runtime> {
    if c.upstream.Some? && Authorized(c.upstream.value, c.now) then cache[c.device := c.upstream.value] else cache
  }

  function Answer(cache: map<string, Runtime>, c: Call): Option<(Runtime, Source)> {
    if c.upstream.Some? then Some((c.upstream.value, FromUpstream))
    else if c.device in cache && Authorized(cache[c.device], c.now) then Some((cache[c.device], FromCache))
    else None
  }

  function CacheAfter(calls: seq<Call>): map<string, Runtime> {
    if calls == [] then map[] else Remember(CacheAfter(calls[..|calls| - 1]), calls[|calls| - 1])
  }

  // Call i stored the runtime now cached for the device, and no later call replaced it.
  ghost predicate StoredBy(calls: seq<Call>, device: string, r: Runtime, i: nat) {
    && i < |calls| && calls[i].device == device
    && calls[i].upstream == Some(r) && Authorized(r, calls[i].now)
    && forall j :: i < j < |calls| && calls[j].device == device ==>
         calls[j].upstream.None? || !Authorized(calls[j].upstream.value, calls[j].now)
  }

  lemma {:induction false} CachedWasPublished(calls: seq<Call>, device: string) returns (i: nat)
    requires device in CacheAfter(calls)
    ensures StoredBy(calls, device, CacheAfter(calls)[device], i)
  {
    var last := |calls| - 1;
    if calls[last].device == device && calls[last].upstream.Some?
      && Authorized(calls[last].upstream.value, calls[last].now) {
      i := last;
    } else {
      i := CachedWasPublished(calls[..last], device);
    }
  }

  // An answer from the cache is the device's newest authorised runtime, and the authorisation
  // it carries has not run out.
  lemma CacheNeverOutlivesAuthorization(calls: seq<Call>, c: Call) returns (i: nat)
    requires Answer(CacheAfter(calls), c).Some? && Answer(CacheAfter(calls), c).value.1 == FromCache
    ensures StoredBy(calls, c.device, Answer(CacheAfter(calls), c).value.0, i)
    ensures Authorized(Answer(CacheAfter(calls), c).value.0, c.now)
  {
    i := CachedWasPublished(calls, c.device);
  }

  // Call i was answered with a runtime that was valid then, and no later call of the device was.
  ghost predicate NewestStored(calls: seq<Call>, device: string, r: Runtime, i: int) {
    && 0 <= i < |calls| && calls[i].device == device && calls[i].upstream == Some(r)
    && r.validUntil.Some? && calls[i].now < r.validUntil.value
    && forall j :: i < j < |calls| && calls[j].device == device ==> !Stores(calls[j])
  }

  predicate Stores(c: Call) {
    c.upstream.Some? && c.upstream.value.validUntil.Some? && c.now < c.upstream.value.validUntil.value
  }

  lemma {:induction false} NeverStored(calls: seq<Call>, device: string)
    requires device !in CacheAfter(calls)
    ensures forall i :: 0 <= i < |calls| && calls[i].device == device ==> !Stores(calls[i])
  {
    if calls != [] {
      var before := calls[..|calls| - 1];
      NeverStored(before, device);
      forall i | 0 <= i < |calls| && calls[i].device == device ensures !Stores(calls[i]) {
        assert i < |before| ==> calls[i] == before[i];
      }
    }
  }

  // After any calls: what the upstream answers is passed on; when it fails, the newest runtime that
  // was stored for the device is, exactly while it is valid; and otherwise nothing.
  lemma AnswerIs(calls: seq<Call>, c: Call)
    ensures var r := Answer(CacheAfter(calls), c);
      && (c.upstream.Some? ==> r == Some((c.upstream.value, FromUpstream)))
      && (c.upstream.None? && r.Some? ==>
            && r.value.1 == FromCache && r.value.0.validUntil.Some? && c.now < r.value.0.validUntil.value
            && exists i :: NewestStored(calls, c.device, r.value.0, i))
      && (c.upstream.None? && r.None? ==>
            forall i, x :: NewestStored(calls, c.device, x, i) ==> x.validUntil.value <= c.now)
  {
    if c.device in CacheAfter(calls) {
      var cached := CacheAfter(calls)[c.device];
      var i := CachedWasPublished(calls, c.device);
      assert NewestStored(calls, c.device, cached, i);
      forall j, x | NewestStored(calls, c.device, x, j) ensures x == cached {
        assert Stores(calls[i]) && Stores(calls[j]);
      }
    } else {
      NeverStored(calls, c.device);
    }
  }

  class Service {
    var cache: map<string, Runtime>

    constructor ()
      ensures cache == CacheAfter([])
    {
      cache := map[];
    }

    method FetchRuntime(device: string, upstream: Option<Runtime>, now: int) returns (r: Option<(Runtime, Source)>)
      modifies this
      ensures cache == Remember(old(cache), Call(device, upstream, now))
      ensures r == Answer(old(cache), Call(device, upstream, now))
      // The upstream's answer, if there is one, and what it authorises is remembered.
      ensures upstream.Some? ==> r == Some((upstream.value, FromUpstream))
      ensures upstream.Some? && upstream.value.validUntil.Some? && now < upstream.value.validUntil.value ==>
        cache == old(cache)[device := upstream.value]
      ensures upstream.None? || upstream.value.validUntil.None? || upstream.value.validUntil.value <= now ==>
        cache == old(cache)
      // Without one, what was remembered for the device, while it is valid.
      ensures upstream.None? ==>
        r == if device in old(cache) && old(cache)[device].validUntil.Some?
                && now < old(cache)[device].validUntil.value
             then Some((old(cache)[device], FromCache)) else None
    {
      if upstream.Some? {
        if upstream.value.validUntil.Some? && upstream.value.validUntil.value > now {
          cache := cache[device := upstream.value];
        }
        return Some((upstream.value, FromUpstream));
      }
      if device in cache {
        var cached := cache[device];
        if cached.validUntil.Some? && cached.validUntil.value > now {
          return Some((cached, FromCache));
        }
      }
      return None;
    }

    // Manifest refuses a runtime that belongs to another device, whatever its source.
    method Manifest(device: string, upstream: Option<Runtime>, now: int) returns (r: Option<Runtime>)
      modifies this
      ensures cache == Remember(old(cache), Call(device, upstream, now))
      ensures r.Some? ==> r.value.device == device
      ensures r == (var a := Answer(old(cache), Call(device, upstream, now));
        if a.Some? && a.value.0.device == device then Some(a.value.0) else None)
    {
      var found := FetchRuntime(device, upstream, now);
      if found.None? || found.value.0.device != device {
        return None;
      }
      return Some(found.value.0);
    }
  }
}
