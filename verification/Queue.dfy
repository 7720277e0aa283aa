// The queue a device plays: the assets frozen into a zone snapshot, filtered by what the
// manifest makes playable and put in the order of the channel's policy.
module Queue {
  import opened Wrappers
  import opened Sorting
  import PlaybackClock

  type Id = nat

  datatype SnapshotAsset = SnapshotAsset(
    playlist: Id, item: Id, asset: Option<Id>, position: nat, weight: nat)

  // A playlist snapshot as the zone snapshot refers to it.
  datatype Reference = Reference(
    playlist: Id, weight: int, priority: int, activeFrom: Option<int>, activeUntil: Option<int>)

  datatype ManifestItem = ManifestItem(asset: Id, duration: Option<int>)

  datatype QueueItem = QueueItem(asset: Id, duration: int, playlist: Id, item: Id)

  datatype Weighted = Weighted(item: QueueItem, weight: int)

  datatype OrderMode = Sequential | Shuffle | WeightedShuffle

  // deterministicScore for one seed: item and weight in, a real number out.
  type Score = (Id, int, bool) -> real

  // ---------- assembling the snapshot ----------

  datatype SnapshotItem = SnapshotItem(id: Id, position: nat, weight: nat, asset: Option<Id>)

  function FrozenItems(playlist: Id, items: seq<SnapshotItem>): (r: seq<SnapshotAsset>)
    ensures |r| == |items|
  {
    seq(|items|, i requires 0 <= i < |items| =>
      SnapshotAsset(playlist, items[i].id, items[i].asset, items[i].position, items[i].weight))
  }

  // Positions are unique within a playlist snapshot and item ids are unique overall.
  ghost predicate SoundTable(table: map<Id, seq<SnapshotItem>>) {
    && (forall p, i, j :: p in table && 0 <= i < j < |table[p]| ==> table[p][i].position != table[p][j].position)
    && (forall p, q, i, j ::
          (p in table && q in table && 0 <= i < |table[p]| && 0 <= j < |table[q]|
           && table[p][i].id == table[q][j].id) ==> p == q && i == j)
  }

  predicate FromTable(table: map<Id, seq<SnapshotItem>>, a: SnapshotAsset) {
    a.playlist in table && SnapshotItem(a.item, a.position, a.weight, a.asset) in table[a.playlist]
  }

  // What makes the queue canonical.
  ghost predicate DistinctSlots(assets: seq<SnapshotAsset>) {
    forall i, j :: 0 <= i < j < |assets| ==>
      (assets[i].playlist, assets[i].position) != (assets[j].playlist, assets[j].position)
      && assets[i].item != assets[j].item
  }

  ghost predicate DistinctReferences(refs: seq<Reference>) {
    forall i, j :: 0 <= i < j < |refs| ==> refs[i].playlist != refs[j].playlist
  }

  function Playlists(refs: seq<Reference>): set<Id> { set r | r in refs :: r.playlist }

  function Taken(refs: seq<Reference>, next: Reference): seq<Reference> {
    if next.playlist in Playlists(refs) then refs else refs + [next]
  }

  // The references that stay when each playlist snapshot is taken the first time it comes up.
  function Included(start: seq<Reference>, more: seq<Reference>): seq<Reference> {
    if more == [] then start else Taken(Included(start, more[..|more| - 1]), more[|more| - 1])
  }

  lemma IncludedNext(start: seq<Reference>, more: seq<Reference>, i: nat)
    requires i < |more|
    ensures Included(start, more[..i + 1]) == Taken(Included(start, more[..i]), more[i])
  {
    assert more[..i + 1][..i] == more[..i];
  }

  // All items of the referenced snapshots, one snapshot after the other.
  function Frozen(table: map<Id, seq<SnapshotItem>>, refs: seq<Reference>): seq<SnapshotAsset>
    requires forall r :: r in refs ==> r.playlist in table
  {
    if refs == [] then []
    else
      var last := refs[|refs| - 1].playlist;
      Frozen(table, refs[..|refs| - 1]) + FrozenItems(last, table[last])
  }

  // Playlist snapshots that only the schedule names get the default weight and priority.
  function AsReferences(ids: seq<Id>): (r: seq<Reference>)
    ensures |r| == |ids|
  {
    seq(|ids|, i requires 0 <= i < |ids| => Reference(ids[i], 1, 0, None, None))
  }

  // The closure of _zone_operational_snapshot_payload, with the lists and the set it mutates.
  class PayloadBuilder {
    const table: map<Id, seq<SnapshotItem>>
    var references: seq<Reference>
    var assets: seq<SnapshotAsset>
    var included: set<Id>

    // The assets are exactly the items of the snapshots referenced so far.
    ghost predicate Valid()
      reads this
    {
      && included == Playlists(references)
      && (forall r :: r in references ==> r.playlist in table)
      && assets == Frozen(table, references)
    }

    constructor (table: map<Id, seq<SnapshotItem>>)
      ensures Valid() && this.table == table && references == [] && assets == []
    {
      this.table := table;
      references, assets, included := [], [], {};
    }

    method IncludePlaylistSnapshot(reference: Reference)
      requires Valid() && reference.playlist in table
      modifies this
      ensures Valid()
      ensures reference.playlist in old(included) ==>
        references == old(references) && assets == old(assets)
      ensures reference.playlist !in old(included) ==>
        && references == old(references) + [reference]
        && assets == old(assets) + FrozenItems(reference.playlist, table[reference.playlist])
      ensures references == Taken(old(references), reference)
    {
      if reference.playlist in included {
        return;
      }
      included := included + {reference.playlist};
      references := references + [reference];
      var items := table[reference.playlist];
      for i := 0 to |items|
        invariant assets == old(assets) + FrozenItems(reference.playlist, items[..i])
        invariant references == old(references) + [reference] && included == old(included) + {reference.playlist}
      {
        assert FrozenItems(reference.playlist, items[..i + 1])
          == FrozenItems(reference.playlist, items[..i])
             + [SnapshotAsset(reference.playlist, items[i].id, items[i].asset, items[i].position, items[i].weight)];
        assets := assets + [
          SnapshotAsset(reference.playlist, items[i].id, items[i].asset, items[i].position, items[i].weight)];
      }
      assert items[..|items|] == items;
      assert references[..|references| - 1] == old(references);
    }

    // The loop over the channel's playlists.
    method IncludeRelations(relations: seq<Reference>)
      requires Valid() && forall r :: r in relations ==> r.playlist in table
      modifies this
      ensures Valid() && references == Included(old(references), relations)
    {
      for i := 0 to |relations|
        invariant Valid() && references == Included(old(references), relations[..i])
      {
        IncludedNext(old(references), relations, i);
        IncludePlaylistSnapshot(relations[i]);
      }
      assert relations[..|relations|] == relations;
    }

    // The loop over the playlist snapshots that the schedule refers to.
    method IncludeScheduled(scheduled: seq<Id>)
      requires Valid() && forall p :: p in scheduled ==> p in table
      modifies this
      ensures Valid() && references == Included(old(references), AsReferences(scheduled))
    {
      ghost var all := AsReferences(scheduled);
      for i := 0 to |scheduled|
        invariant Valid() && references == Included(old(references), all[..i])
      {
        IncludedNext(old(references), all, i);
        IncludePlaylistSnapshot(Reference(scheduled[i], 1, 0, None, None));
      }
      assert all[..|all|] == all;
    }

    // Channel relations first, then the schedule.
    method IncludeAll(relations: seq<Reference>, scheduled: seq<Id>)
      requires Valid() && references == []
      requires forall r :: r in relations ==> r.playlist in table
      requires forall p :: p in scheduled ==> p in table
      modifies this
      ensures Valid() && references == Included(Included([], relations), AsReferences(scheduled))
      ensures assets == Frozen(table, references)
    {
      IncludeRelations(relations);
      IncludeScheduled(scheduled);
    }
  }

  // No playlist snapshot is left out, none comes twice, and nothing else gets in.
  lemma {:induction false} IncludedOnce(start: seq<Reference>, more: seq<Reference>)
    requires DistinctReferences(start)
    ensures Playlists(Included(start, more)) == Playlists(start) + Playlists(more)
    ensures DistinctReferences(Included(start, more))
    ensures forall r :: r in Included(start, more) ==> r in start || r in more
  {
    if more != [] {
      var before, next := more[..|more| - 1], more[|more| - 1];
      IncludedOnce(start, before);
      assert more == before + [next];
      TakenOnce(Included(start, before), next);
      assert Playlists(more) == Playlists(before) + {next.playlist};
    }
  }

  lemma TakenOnce(refs: seq<Reference>, next: Reference)
    requires DistinctReferences(refs)
    ensures Playlists(Taken(refs, next)) == Playlists(refs) + {next.playlist} && DistinctReferences(Taken(refs, next))
  {
    forall i | 0 <= i < |refs| ensures refs[i].playlist in Playlists(refs) {
      assert refs[i] in refs;
    }
    assert Playlists(refs + [next]) == Playlists(refs) + {next.playlist};
  }

  lemma {:induction false} OnceEach<T>(s: seq<T>, x: T)
    requires forall i, j :: 0 <= i < j < |s| ==> s[i] != s[j]
    ensures multiset(s)[x] == if x in s then 1 else 0
  {
    if s != [] {
      OnceEach(s[1..], x);
      assert s == [s[0]] + s[1..];
    }
  }

  // The schedule's snapshots that the channel does not bring come in with default values.
  lemma {:induction false} IncludedMembers(start: seq<Reference>, ids: seq<Id>, r: Reference)
    ensures r in Included(start, AsReferences(ids)) <==>
      r in start || (r == Reference(r.playlist, 1, 0, None, None) && r.playlist in ids && r.playlist !in Playlists(start))
  {
    if ids != [] {
      var before, next := ids[..|ids| - 1], ids[|ids| - 1];
      assert AsReferences(ids)[..|ids| - 1] == AsReferences(before);
      assert ids == before + [next];
      var taken := Included(start, AsReferences(before));
      IncludedMembers(start, before, r);
      forall q ensures q in taken <==>
        q in start || (q == Reference(q.playlist, 1, 0, None, None) && q.playlist in before && q.playlist !in Playlists(start))
      {
        IncludedMembers(start, before, q);
      }
      assert next in Playlists(taken) <==> next in Playlists(start) || next in before by {
        assert Reference(next, 1, 0, None, None) in taken <==>
          Reference(next, 1, 0, None, None) in start || (next in before && next !in Playlists(start));
      }
    }
  }

  // The order in which the schedule's snapshots are read does not change what is included.
  lemma IncludedPermuted(start: seq<Reference>, a: seq<Id>, b: seq<Id>)
    requires DistinctReferences(start) && forall id :: id in a <==> id in b
    ensures multiset(Included(start, AsReferences(a))) == multiset(Included(start, AsReferences(b)))
  {
    var x, y := Included(start, AsReferences(a)), Included(start, AsReferences(b));
    IncludedOnce(start, AsReferences(a));
    IncludedOnce(start, AsReferences(b));
    forall r ensures multiset(x)[r] == multiset(y)[r] {
      IncludedMembers(start, a, r);
      IncludedMembers(start, b, r);
      OnceEach(x, r);
      OnceEach(y, r);
    }
  }

  lemma {:induction false} FrozenCount(table: map<Id, seq<SnapshotItem>>, refs: seq<Reference>, x: SnapshotAsset)
    requires DistinctReferences(refs) && forall r :: r in refs ==> r.playlist in table
    ensures multiset(Frozen(table, refs))[x] ==
      if x.playlist in Playlists(refs) then multiset(FrozenItems(x.playlist, table[x.playlist]))[x] else 0
  {
    if refs != [] {
      var before, next := refs[..|refs| - 1], refs[|refs| - 1];
      assert refs == before + [next];
      FrozenCount(table, before, x);
      assert Playlists(refs) == Playlists(before) + {next.playlist};
      assert next.playlist !in Playlists(before) by {
        assert forall i :: 0 <= i < |before| ==> refs[i].playlist != refs[|refs| - 1].playlist;
      }
      if next.playlist != x.playlist {
        assert x !in FrozenItems(next.playlist, table[next.playlist]);
      }
    }
  }

  lemma FrozenPermuted(table: map<Id, seq<SnapshotItem>>, a: seq<Reference>, b: seq<Reference>)
    requires DistinctReferences(a) && DistinctReferences(b) && multiset(a) == multiset(b)
    requires forall r :: r in a ==> r.playlist in table
    requires forall r :: r in b ==> r.playlist in table
    ensures multiset(Frozen(table, a)) == multiset(Frozen(table, b))
  {
    SameElements(a, b);
    assert Playlists(a) == Playlists(b);
    forall x ensures multiset(Frozen(table, a))[x] == multiset(Frozen(table, b))[x] {
      FrozenCount(table, a, x);
      FrozenCount(table, b, x);
    }
  }

  // The frozen items have distinct slots and distinct ids.
  lemma {:induction false} FrozenIsDistinct(table: map<Id, seq<SnapshotItem>>, refs: seq<Reference>)
    requires SoundTable(table) && DistinctReferences(refs) && forall r :: r in refs ==> r.playlist in table
    ensures DistinctSlots(Frozen(table, refs))
    ensures forall a :: a in Frozen(table, refs) ==> FromTable(table, a) && a.playlist in Playlists(refs)
  {
    if refs != [] {
      var before, next := refs[..|refs| - 1], refs[|refs| - 1];
      FrozenIsDistinct(table, before);
      assert refs == before + [next];
      forall r | r in before ensures r.playlist != next.playlist {
        var i :| 0 <= i < |before| && before[i] == r;
        assert refs[i] == r;
      }
      FrozenItemsDistinct(table, Frozen(table, before), next.playlist);
    }
  }

  lemma FrozenItemsDistinct(table: map<Id, seq<SnapshotItem>>, assets: seq<SnapshotAsset>, playlist: Id)
    requires SoundTable(table) && playlist in table && DistinctSlots(assets)
    requires forall a :: a in assets ==> a.playlist != playlist && FromTable(table, a)
    ensures var r := assets + FrozenItems(playlist, table[playlist]);
      DistinctSlots(r) && forall a :: a in r ==> FromTable(table, a)
  {
  }

  // ---------- the queue ----------

  // The last reference to a playlist wins, as assignments to a Go map do.
  function ReferenceTo(refs: seq<Reference>, playlist: Id): Option<Reference> {
    if refs == [] then None
    else if refs[|refs| - 1].playlist == playlist then Some(refs[|refs| - 1])
    else ReferenceTo(refs[..|refs| - 1], playlist)
  }

  function ManifestEntry(items: seq<ManifestItem>, asset: Id): Option<ManifestItem> {
    if items == [] then None
    else if items[|items| - 1].asset == asset then Some(items[|items| - 1])
    else ManifestEntry(items[..|items| - 1], asset)
  }

  predicate WithinWindow(now: int, from: Option<int>, until: Option<int>) {
    (from.Some? ==> now >= from.value) && (until.Some? ==> now < until.value)
  }

  function Max(a: int, b: int): int { if a >= b then a else b }

  // One Runtime as resolveAssets sees it, once the schedule has named a playlist or none.
  datatype Input = Input(
    refs: seq<Reference>, manifest: seq<ManifestItem>, playlist: Option<Id>, now: int, mode: OrderMode)

  function PriorityOf(input: Input, playlist: Id): int {
    var r := ReferenceTo(input.refs, playlist);
    if r.Some? then r.value.priority else 0
  }

  function WeightOf(input: Input, playlist: Id): int {
    var r := ReferenceTo(input.refs, playlist);
    if r.Some? then Max(1, r.value.weight) else 0
  }

  predicate Eligible(input: Input, a: SnapshotAsset) {
    var r := ReferenceTo(input.refs, a.playlist);
    && (input.playlist.Some? ==> a.playlist == input.playlist.value)
    && (r.Some? ==> WithinWindow(input.now, r.value.activeFrom, r.value.activeUntil))
    && a.asset.Some?
    && var m := ManifestEntry(input.manifest, a.asset.value);
       m.Some? && m.value.duration.Some? && m.value.duration.value > 0
  }

  function Entry(input: Input, a: SnapshotAsset): (w: Weighted)
    requires Eligible(input, a)
    ensures w.item.duration > 0 && w.item.item == a.item && w.item.playlist == a.playlist
  {
    var m := ManifestEntry(input.manifest, a.asset.value).value;
    Weighted(QueueItem(m.asset, m.duration.value, a.playlist, a.item),
             Max(1, a.weight) * Max(1, WeightOf(input, a.playlist)))
  }

  function Entries(input: Input, assets: seq<SnapshotAsset>): seq<Weighted> {
    if assets == [] then []
    else
      (if Eligible(input, assets[0]) then [Entry(input, assets[0])] else []) + Entries(input, assets[1..])
  }

  predicate Precedes(input: Input, a: SnapshotAsset, b: SnapshotAsset) {
    if PriorityOf(input, a.playlist) != PriorityOf(input, b.playlist) then
      PriorityOf(input, a.playlist) > PriorityOf(input, b.playlist)
    else if a.playlist == b.playlist then a.position < b.position
    else a.playlist < b.playlist
  }

  function ByPlace(input: Input): (SnapshotAsset, SnapshotAsset) -> bool { (a, b) => Precedes(input, a, b) }

  predicate ScoredBefore(score: Score, weighted: bool, a: Weighted, b: Weighted) {
    var left, right := score(a.item.item, a.weight, weighted), score(b.item.item, b.weight, weighted);
    if left == right then a.item.item < b.item.item else left < right
  }

  function ByScore(score: Score, weighted: bool): (Weighted, Weighted) -> bool {
    (a, b) => ScoredBefore(score, weighted, a, b)
  }

  function Arranged(input: Input, score: Score, entries: seq<Weighted>): seq<Weighted> {
    if input.mode == Sequential then entries
    else StableSort(entries, ByScore(score, input.mode == WeightedShuffle))
  }

  function Items(entries: seq<Weighted>): (r: seq<QueueItem>)
    ensures |r| == |entries|
  {
    seq(|entries|, i requires 0 <= i < |entries| => entries[i].item)
  }

  function QueueOf(input: Input, score: Score, assets: seq<SnapshotAsset>): seq<QueueItem> {
    Items(Arranged(input, score, Entries(input, StableSort(assets, ByPlace(input)))))
  }

  method Collect(input: Input, sorted: seq<SnapshotAsset>) returns (weighted: seq<Weighted>)
    ensures weighted == Entries(input, sorted)
  {
    weighted := [];
    for i := 0 to |sorted|
      invariant weighted == Entries(input, sorted[..i])
    {
      assert sorted[..i + 1] == sorted[..i] + [sorted[i]];
      EntriesAppend(input, sorted[..i], [sorted[i]]);
      if !Eligible(input, sorted[i]) {
        continue;
      }
      weighted := weighted + [Entry(input, sorted[i])];
    }
    assert sorted[..|sorted|] == sorted;
  }

  method TakeItems(weighted: seq<Weighted>) returns (queue: seq<QueueItem>)
    ensures queue == Items(weighted)
  {
    queue := [];
    for i := 0 to |weighted|
      invariant queue == Items(weighted[..i])
    {
      queue := queue + [weighted[i].item];
    }
    assert weighted[..|weighted|] == weighted;
  }

  // The second half of resolveAssets.
  method ResolveAssets(input: Input, score: Score, assets: seq<SnapshotAsset>) returns (queue: seq<QueueItem>)
    ensures queue == QueueOf(input, score, assets)
  {
    var weighted := Collect(input, StableSort(assets, ByPlace(input)));
    if input.mode == Shuffle || input.mode == WeightedShuffle {
      weighted := StableSort(weighted, ByScore(score, input.mode == WeightedShuffle));
    }
    queue := TakeItems(weighted);
  }

  // ---------- the queue is canonical ----------

  lemma PlaceOrderIsWeak(input: Input)
    ensures StrictWeakOrder(ByPlace(input))
  {
  }

  lemma ScoreOrderIsWeak(score: Score, weighted: bool)
    ensures StrictWeakOrder(ByScore(score, weighted))
  {
  }

  lemma {:induction false} EntriesPermuted(input: Input, a: seq<SnapshotAsset>, b: seq<SnapshotAsset>)
    requires multiset(a) == multiset(b)
    ensures multiset(Entries(input, a)) == multiset(Entries(input, b))
  {
    SameElements(a, b);
    if a != [] {
      assert a[0] in a;
      var j :| 0 <= j < |b| && b[j] == a[0];
      DropFirstAndAt(a, b, j);
      EntriesPermuted(input, a[1..], b[..j] + b[j + 1..]);
      EntriesAppend(input, [a[0]], a[1..]);
      EntriesAround(input, b, j);
      assert [a[0]] + a[1..] == a;
    }
  }

  lemma EntriesAround(input: Input, b: seq<SnapshotAsset>, j: nat)
    requires j < |b|
    ensures multiset(Entries(input, b))
         == multiset(Entries(input, [b[j]])) + multiset(Entries(input, b[..j] + b[j + 1..]))
  {
    EntriesAppend(input, b[..j], b[j + 1..]);
    EntriesAppend(input, b[..j], [b[j]] + b[j + 1..]);
    EntriesAppend(input, [b[j]], b[j + 1..]);
    assert b == b[..j] + ([b[j]] + b[j + 1..]);
  }

  lemma {:induction false} EntriesAppend(input: Input, a: seq<SnapshotAsset>, b: seq<SnapshotAsset>)
    ensures Entries(input, a + b) == Entries(input, a) + Entries(input, b)
  {
    if a == [] {
      assert a + b == b;
    } else {
      assert (a + b)[1..] == a[1..] + b;
      EntriesAppend(input, a[1..], b);
    }
  }

  lemma {:induction false} ItemsMultiset(a: seq<Weighted>, b: seq<Weighted>)
    requires multiset(a) == multiset(b)
    ensures multiset(Items(a)) == multiset(Items(b))
  {
    SameElements(a, b);
    if a != [] {
      assert a[0] in a;
      var j :| 0 <= j < |b| && b[j] == a[0];
      DropFirstAndAt(a, b, j);
      ItemsMultiset(a[1..], b[..j] + b[j + 1..]);
      assert Items(a) == [a[0].item] + Items(a[1..]);
      ItemsAround(b, j);
    }
  }

  lemma ItemsAround(b: seq<Weighted>, j: nat)
    requires j < |b|
    ensures multiset(Items(b)) == multiset([b[j].item]) + multiset(Items(b[..j] + b[j + 1..]))
  {
    assert Items(b) == Items(b[..j]) + [b[j].item] + Items(b[j + 1..]);
    assert Items(b[..j] + b[j + 1..]) == Items(b[..j]) + Items(b[j + 1..]);
  }

  // In every mode the queue holds exactly the playable items of the eligible assets.
  lemma QueueIsPermutation(input: Input, score: Score, assets: seq<SnapshotAsset>)
    ensures multiset(QueueOf(input, score, assets)) == multiset(Items(Entries(input, assets)))
  {
    var sorted := StableSort(assets, ByPlace(input));
    EntriesPermuted(input, sorted, assets);
    var entries := Entries(input, sorted);
    ItemsMultiset(Arranged(input, score, entries), Entries(input, assets));
  }

  lemma {:induction false} EntriesPlayable(input: Input, assets: seq<SnapshotAsset>)
    ensures forall w :: w in Entries(input, assets) ==>
      w.item.duration > 0 && exists a :: a in assets && Eligible(input, a) && Entry(input, a) == w
  {
    if assets != [] {
      EntriesPlayable(input, assets[1..]);
      forall w | w in Entries(input, assets)
        ensures w.item.duration > 0 && exists a :: a in assets && Eligible(input, a) && Entry(input, a) == w
      {
        if w in Entries(input, assets[1..]) {
          var a :| a in assets[1..] && Eligible(input, a) && Entry(input, a) == w;
          assert a in assets;
        } else {
          assert assets[0] in assets && Entry(input, assets[0]) == w;
        }
      }
    }
  }

  lemma {:induction false} ManifestEntryFound(items: seq<ManifestItem>, asset: Id)
    ensures var m := ManifestEntry(items, asset); m.Some? ==> m.value in items && m.value.asset == asset
  {
    if items != [] {
      ManifestEntryFound(items[..|items| - 1], asset);
    }
  }

  ghost predicate Names(manifest: seq<ManifestItem>, asset: Id) {
    exists m :: m in manifest && m.asset == asset
  }

  // Every queued asset is one that the manifest lists.
  lemma QueueIsListed(input: Input, score: Score, assets: seq<SnapshotAsset>)
    ensures forall i :: 0 <= i < |QueueOf(input, score, assets)| ==>
      Names(input.manifest, QueueOf(input, score, assets)[i].asset)
  {
    var q := QueueOf(input, score, assets);
    var sorted := StableSort(assets, ByPlace(input));
    var entries := Entries(input, sorted);
    var arranged := Arranged(input, score, entries);
    EntriesPlayable(input, sorted);
    SameElements(entries, arranged);
    forall i | 0 <= i < |q| ensures Names(input.manifest, q[i].asset) {
      assert arranged[i] in arranged;
      var a :| a in sorted && Eligible(input, a) && Entry(input, a) == arranged[i];
      ManifestEntryFound(input.manifest, a.asset.value);
    }
  }

  lemma {:induction false} EntriesOfOthers(input: Input, assets: seq<SnapshotAsset>)
    requires forall a :: a in assets ==> !Eligible(input, a)
    ensures Entries(input, assets) == []
  {
    if assets != [] {
      EntriesOfOthers(input, assets[1..]);
    }
  }

  // Once the schedule has named a playlist snapshot, only its items count.
  lemma {:induction false} EntriesOfSnapshot(
    input: Input, table: map<Id, seq<SnapshotItem>>, refs: seq<Reference>, playlist: Id)
    requires input.playlist == Some(playlist) && DistinctReferences(refs)
    requires forall r :: r in refs ==> r.playlist in table
    ensures Entries(input, Frozen(table, refs)) ==
      if playlist in Playlists(refs) then Entries(input, FrozenItems(playlist, table[playlist])) else []
  {
    if refs != [] {
      var before, next := refs[..|refs| - 1], refs[|refs| - 1];
      assert refs == before + [next];
      assert next.playlist !in Playlists(before) by {
        assert forall i :: 0 <= i < |before| ==> refs[i].playlist != refs[|refs| - 1].playlist;
      }
      EntriesOfSnapshot(input, table, before, playlist);
      var items := FrozenItems(next.playlist, table[next.playlist]);
      EntriesAppend(input, Frozen(table, before), items);
      if next.playlist != playlist {
        EntriesOfOthers(input, items);
      }
    }
  }

  // ---------- which reference a playlist snapshot gets ----------

  // The first relation of the channel that brings the playlist snapshot.
  function FirstRelation(relations: seq<Reference>, playlist: Id): Option<Reference> {
    if relations == [] then None
    else
      var before := FirstRelation(relations[..|relations| - 1], playlist);
      var last := relations[|relations| - 1];
      if before.Some? then before else if last.playlist == playlist then Some(last) else None
  }

  lemma {:induction false} ReferenceIffIncluded(refs: seq<Reference>, playlist: Id)
    ensures ReferenceTo(refs, playlist).Some? <==> playlist in Playlists(refs)
  {
    if refs != [] {
      var before := refs[..|refs| - 1];
      ReferenceIffIncluded(before, playlist);
      assert refs == before + [refs[|refs| - 1]];
      assert Playlists(refs) == Playlists(before) + {refs[|refs| - 1].playlist};
    }
  }

  // What came first stays: a playlist snapshot keeps the reference it was first included with.
  lemma {:induction false} FirstReferenceStays(start: seq<Reference>, more: seq<Reference>, playlist: Id)
    ensures ReferenceTo(Included(start, more), playlist) ==
      if ReferenceTo(start, playlist).Some? then ReferenceTo(start, playlist) else FirstRelation(more, playlist)
  {
    if more != [] {
      var before, next := more[..|more| - 1], more[|more| - 1];
      FirstReferenceStays(start, before, playlist);
      var taken := Included(start, before);
      ReferenceIffIncluded(taken, next.playlist);
      if next.playlist !in Playlists(taken) {
        assert (taken + [next])[..|taken|] == taken;
      }
    }
  }

  lemma {:induction false} ScheduledHasNoWindow(ids: seq<Id>, playlist: Id)
    ensures var r := FirstRelation(AsReferences(ids), playlist);
      r.Some? ==> r.value == Reference(playlist, 1, 0, None, None)
  {
    if ids != [] {
      var before := ids[..|ids| - 1];
      ScheduledHasNoWindow(before, playlist);
      assert AsReferences(ids)[..|ids| - 1] == AsReferences(before);
    }
  }

  // The playback window that the channel sets for a playlist snapshot is open, or none is set.
  predicate Open(relations: seq<Reference>, playlist: Id, now: int) {
    var r := FirstRelation(relations, playlist);
    r.Some? ==> WithinWindow(now, r.value.activeFrom, r.value.activeUntil)
  }

  // The manifest lists the asset, with a positive duration.
  predicate Listed(manifest: seq<ManifestItem>, a: SnapshotAsset) {
    && a.asset.Some?
    && var m := ManifestEntry(manifest, a.asset.value);
       m.Some? && m.value.duration.Some? && m.value.duration.value > 0
  }

  // The queue items of the listed assets, in order.
  function ListedItems(manifest: seq<ManifestItem>, assets: seq<SnapshotAsset>): seq<QueueItem> {
    if assets == [] then []
    else
      var a := assets[0];
      (if Listed(manifest, a) then
         var m := ManifestEntry(manifest, a.asset.value).value;
         [QueueItem(m.asset, m.duration.value, a.playlist, a.item)]
       else [])
      + ListedItems(manifest, assets[1..])
  }

  lemma EligibleIff(input: Input, relations: seq<Reference>, scheduled: seq<Id>, a: SnapshotAsset)
    requires input.refs == Included(Included([], relations), AsReferences(scheduled))
    requires input.playlist == Some(a.playlist)
    ensures Eligible(input, a) <==> Listed(input.manifest, a) && Open(relations, a.playlist, input.now)
  {
    FirstReferenceStays([], relations, a.playlist);
    FirstReferenceStays(Included([], relations), AsReferences(scheduled), a.playlist);
    ScheduledHasNoWindow(scheduled, a.playlist);
  }

  // Of a decided playlist snapshot, all listed items are queued while its window is open, and
  // none while it is closed.
  lemma {:induction false} ListedWhileOpen(
    input: Input, relations: seq<Reference>, scheduled: seq<Id>, playlist: Id, assets: seq<SnapshotAsset>)
    requires input.refs == Included(Included([], relations), AsReferences(scheduled))
    requires input.playlist == Some(playlist) && forall a :: a in assets ==> a.playlist == playlist
    ensures Items(Entries(input, assets)) ==
      if Open(relations, playlist, input.now) then ListedItems(input.manifest, assets) else []
  {
    if assets != [] {
      EligibleIff(input, relations, scheduled, assets[0]);
      ListedWhileOpen(input, relations, scheduled, playlist, assets[1..]);
      var rest := Entries(input, assets[1..]);
      if Eligible(input, assets[0]) {
        assert Items([Entry(input, assets[0])] + rest) == [Entry(input, assets[0]).item] + Items(rest);
      } else {
        assert Entries(input, assets) == rest;
      }
    }
  }

  // ---------- what is queued, in plain terms ----------

  // The manifest's last entry for an asset is the one that counts.
  lemma {:induction false} ManifestEntryIsLast(items: seq<ManifestItem>, k: nat)
    requires k < |items| && forall j :: k < j < |items| ==> items[j].asset != items[k].asset
    ensures ManifestEntry(items, items[k].asset) == Some(items[k])
  {
    if k < |items| - 1 {
      assert items[..|items| - 1][k] == items[k];
      ManifestEntryIsLast(items[..|items| - 1], k);
    }
  }

  lemma {:induction false} FirstRelationIs(relations: seq<Reference>, k: nat)
    requires k < |relations| && forall j :: 0 <= j < k ==> relations[j].playlist != relations[k].playlist
    ensures FirstRelation(relations, relations[k].playlist) == Some(relations[k])
  {
    var n := |relations| - 1;
    if k < n {
      assert relations[..n][k] == relations[k];
      FirstRelationIs(relations[..n], k);
    } else {
      FirstRelationNone(relations[..n], relations[k].playlist);
    }
  }

  lemma {:induction false} FirstRelationNone(relations: seq<Reference>, playlist: Id)
    requires forall j :: 0 <= j < |relations| ==> relations[j].playlist != playlist
    ensures FirstRelation(relations, playlist) == None
  {
    if relations != [] {
      FirstRelationNone(relations[..|relations| - 1], playlist);
    }
  }

  // Relation k is the one that brings the playlist snapshot.
  ghost predicate Brings(relations: seq<Reference>, playlist: Id, k: int) {
    && 0 <= k < |relations| && relations[k].playlist == playlist
    && forall j :: 0 <= j < k ==> relations[j].playlist != playlist
  }

  lemma OpenIff(relations: seq<Reference>, playlist: Id, now: int)
    ensures Open(relations, playlist, now) <==>
      forall k :: Brings(relations, playlist, k) ==>
        && !(relations[k].activeFrom.Some? && now < relations[k].activeFrom.value)
        && !(relations[k].activeUntil.Some? && relations[k].activeUntil.value <= now)
  {
    if k :| Brings(relations, playlist, k) {
      FirstRelationIs(relations, k);
    } else {
      forall j | 0 <= j < |relations| ensures relations[j].playlist != playlist {
        FirstBrings(relations, playlist, j);
      }
      FirstRelationNone(relations, playlist);
    }
  }

  lemma {:induction false} FirstBrings(relations: seq<Reference>, playlist: Id, j: nat)
    ensures j < |relations| && relations[j].playlist == playlist ==> exists k :: Brings(relations, playlist, k)
  {
    if j < |relations| && relations[j].playlist == playlist && !Brings(relations, playlist, j) {
      var i :| 0 <= i < j && relations[i].playlist == playlist;
      FirstBrings(relations, playlist, i);
    }
  }

  // An asset of the decided playlist snapshot, which the manifest lists last at m with a positive
  // duration, is queued exactly if the relation that brings the snapshot has no start after now and
  // no end at or before now.
  lemma QueuedIff(
    input: Input, relations: seq<Reference>, scheduled: seq<Id>, score: Score, assets: seq<SnapshotAsset>,
    a: SnapshotAsset, m: nat, duration: int)
    requires input.refs == Included(Included([], relations), AsReferences(scheduled))
    requires input.playlist == Some(a.playlist) && a in assets
    requires m < |input.manifest| && a.asset == Some(input.manifest[m].asset)
    requires forall j :: m < j < |input.manifest| ==> input.manifest[j].asset != input.manifest[m].asset
    requires input.manifest[m].duration == Some(duration) && duration > 0
    ensures QueueItem(input.manifest[m].asset, duration, a.playlist, a.item) in QueueOf(input, score, assets) <==>
      forall k :: Brings(relations, a.playlist, k) ==>
        && !(relations[k].activeFrom.Some? && input.now < relations[k].activeFrom.value)
        && !(relations[k].activeUntil.Some? && relations[k].activeUntil.value <= input.now)
  {
    var item := QueueItem(input.manifest[m].asset, duration, a.playlist, a.item);
    OpenIff(relations, a.playlist, input.now);
    ManifestEntryIsLast(input.manifest, m);
    EligibleIff(input, relations, scheduled, a);
    QueueHolds(input, score, assets, item);
    if Eligible(input, a) {
      assert Entry(input, a).item == item;
    }
    if item in QueueOf(input, score, assets) {
      var b :| b in assets && Eligible(input, b) && Entry(input, b).item == item;
      EligibleIff(input, relations, scheduled, b);
    }
  }

  // The queue holds an item exactly if it comes from an eligible asset.
  lemma QueueHolds(input: Input, score: Score, assets: seq<SnapshotAsset>, item: QueueItem)
    ensures item in QueueOf(input, score, assets) <==>
      exists a :: a in assets && Eligible(input, a) && Entry(input, a).item == item
  {
    var entries := Entries(input, assets);
    QueueIsPermutation(input, score, assets);
    SameElements(QueueOf(input, score, assets), Items(entries));
    EntriesPlayable(input, assets);
    if item in Items(entries) {
      var i :| 0 <= i < |entries| && Items(entries)[i] == item;
      assert entries[i] in entries;
    }
    forall a | a in assets && Eligible(input, a) && Entry(input, a).item == item ensures item in Items(entries) {
      EntryIsIn(input, assets, a);
      var i :| 0 <= i < |entries| && entries[i] == Entry(input, a);
      assert Items(entries)[i] == item;
    }
  }

  lemma {:induction false} EntryIsIn(input: Input, assets: seq<SnapshotAsset>, a: SnapshotAsset)
    requires a in assets && Eligible(input, a)
    ensures Entry(input, a) in Entries(input, assets)
  {
    if assets[0] != a {
      EntryIsIn(input, assets[1..], a);
    }
  }

  // A snapshot's priority and weight are those of its reference; without one they are 0 and 1.
  lemma ReferenceValues(input: Input, a: SnapshotAsset, r: Reference)
    requires DistinctReferences(input.refs)
    ensures r in input.refs && r.playlist == a.playlist ==>
      && PriorityOf(input, a.playlist) == r.priority
      && (Eligible(input, a) ==>
            Entry(input, a).weight == (if a.weight == 0 then 1 else a.weight) * (if r.weight < 1 then 1 else r.weight))
    ensures (forall q :: q in input.refs ==> q.playlist != a.playlist) ==>
      && PriorityOf(input, a.playlist) == 0
      && (Eligible(input, a) ==> Entry(input, a).weight == if a.weight == 0 then 1 else a.weight)
  {
    ReferenceToFound(input.refs, a.playlist);
    if r in input.refs && r.playlist == a.playlist {
      var q := ReferenceTo(input.refs, a.playlist).value;
      SameReference(input.refs, q, r);
    }
  }

  lemma SameReference(refs: seq<Reference>, a: Reference, b: Reference)
    requires DistinctReferences(refs) && a in refs && b in refs && a.playlist == b.playlist
    ensures a == b
  {
    var i :| 0 <= i < |refs| && refs[i] == a;
    var j :| 0 <= j < |refs| && refs[j] == b;
  }

  function Durations(queue: seq<QueueItem>): (d: seq<int>)
    ensures |d| == |queue|
  {
    seq(|queue|, i requires 0 <= i < |queue| => queue[i].duration)
  }

  // A queue handed to the clock has only positive durations, so the clock's last fallback is
  // out of reach as long as the cycle fits 64 bits.
  lemma QueueFeedsClock(input: Input, score: Score, assets: seq<SnapshotAsset>)
    ensures var d := Durations(QueueOf(input, score, assets));
      && PlaybackClock.AllPositive(d)
      && (d != [] && PlaybackClock.Cycle(d) <= PlaybackClock.MAX64 ==> PlaybackClock.Playable(d))
  {
    var q := QueueOf(input, score, assets);
    var entries := Entries(input, StableSort(assets, ByPlace(input)));
    EntriesPlayable(input, StableSort(assets, ByPlace(input)));
    SameElements(entries, Arranged(input, score, entries));
    var arranged := Arranged(input, score, entries);
    forall i | 0 <= i < |q| ensures q[i].duration > 0 {
      assert arranged[i] in arranged;
    }
    PlaybackClock.PrefixMonotone(Durations(q), 0, |q|);
  }

  lemma SlotsSeparate(input: Input, assets: seq<SnapshotAsset>)
    requires DistinctSlots(assets)
    ensures Separates(assets, ByPlace(input))
  {
  }

  // The order in which the snapshot lists its assets does not matter.
  lemma QueueIsCanonical(input: Input, score: Score, a: seq<SnapshotAsset>, b: seq<SnapshotAsset>)
    requires DistinctSlots(a) && multiset(a) == multiset(b)
    ensures QueueOf(input, score, a) == QueueOf(input, score, b)
  {
    PlaceOrderIsWeak(input);
    SlotsSeparate(input, a);
    SortCanonical(a, b, ByPlace(input));
  }

  lemma {:induction false} ReferenceToFound(refs: seq<Reference>, playlist: Id)
    requires DistinctReferences(refs)
    ensures match ReferenceTo(refs, playlist)
      case Some(r) => r in refs && r.playlist == playlist
      case None => forall r :: r in refs ==> r.playlist != playlist
  {
    if refs != [] {
      var last := |refs| - 1;
      ReferenceToFound(refs[..last], playlist);
      assert refs == refs[..last] + [refs[last]];
    }
  }

  lemma ReferencesAreCanonical(a: seq<Reference>, b: seq<Reference>, playlist: Id)
    requires DistinctReferences(a) && DistinctReferences(b) && multiset(a) == multiset(b)
    ensures ReferenceTo(a, playlist) == ReferenceTo(b, playlist)
  {
    SameElements(a, b);
    ReferenceToFound(a, playlist);
    ReferenceToFound(b, playlist);
  }

  lemma {:induction false} EntriesCongruent(a: Input, b: Input, assets: seq<SnapshotAsset>)
    requires a == b.(refs := a.refs) && forall p :: ReferenceTo(a.refs, p) == ReferenceTo(b.refs, p)
    ensures Entries(a, assets) == Entries(b, assets)
  {
    if assets != [] {
      EntriesCongruent(a, b, assets[1..]);
    }
  }

  // Nor does the order in which it lists the playlist references.
  lemma QueueIgnoresReferenceOrder(
    a: Input, b: Input, score: Score, assets: seq<SnapshotAsset>)
    requires a == b.(refs := a.refs)
    requires DistinctReferences(a.refs) && DistinctReferences(b.refs) && multiset(a.refs) == multiset(b.refs)
    ensures QueueOf(a, score, assets) == QueueOf(b, score, assets)
  {
    forall p ensures ReferenceTo(a.refs, p) == ReferenceTo(b.refs, p) {
      ReferencesAreCanonical(a.refs, b.refs, p);
    }
    SortCongruent(assets, ByPlace(a), ByPlace(b));
    EntriesCongruent(a, b, StableSort(assets, ByPlace(a)));
  }

  // Where two entries of the filtered list come from.
  lemma {:induction false} EntriesKeepOrder(input: Input, assets: seq<SnapshotAsset>, i: nat, j: nat)
    returns (k: nat, l: nat)
    requires i < j < |Entries(input, assets)|
    ensures k < l < |assets| && Eligible(input, assets[k]) && Eligible(input, assets[l])
    ensures Entries(input, assets)[i] == Entry(input, assets[k])
    ensures Entries(input, assets)[j] == Entry(input, assets[l])
  {
    var rest := Entries(input, assets[1..]);
    if !Eligible(input, assets[0]) {
      k, l := EntriesKeepOrder(input, assets[1..], i, j);
      k, l := k + 1, l + 1;
    } else if i > 0 {
      k, l := EntriesKeepOrder(input, assets[1..], i - 1, j - 1);
      k, l := k + 1, l + 1;
    } else {
      l := EntryFrom(input, assets[1..], j - 1);
      k, l := 0, l + 1;
    }
  }

  lemma {:induction false} EntryFrom(input: Input, assets: seq<SnapshotAsset>, j: nat) returns (l: nat)
    requires j < |Entries(input, assets)|
    ensures l < |assets| && Eligible(input, assets[l]) && Entries(input, assets)[j] == Entry(input, assets[l])
  {
    if Eligible(input, assets[0]) && j == 0 {
      l := 0;
    } else {
      l := EntryFrom(input, assets[1..], if Eligible(input, assets[0]) then j - 1 else j);
      l := l + 1;
    }
  }

  // In sequential mode, playlists play by falling priority, one after the other, and each in
  // the order of its positions.
  lemma SequentialOrder(input: Input, score: Score, assets: seq<SnapshotAsset>, i: nat, j: nat)
    returns (a: SnapshotAsset, b: SnapshotAsset)
    requires input.mode == Sequential && DistinctSlots(assets) && i < j < |QueueOf(input, score, assets)|
    ensures a in assets && b in assets
    ensures var q := QueueOf(input, score, assets);
      && a.item == q[i].item && a.playlist == q[i].playlist && b.item == q[j].item && b.playlist == q[j].playlist
    ensures PriorityOf(input, a.playlist) >= PriorityOf(input, b.playlist)
    ensures PriorityOf(input, a.playlist) == PriorityOf(input, b.playlist) ==> a.playlist <= b.playlist
    ensures a.playlist == b.playlist ==> a.position < b.position
  {
    var sorted := StableSort(assets, ByPlace(input));
    PlaceOrderIsWeak(input);
    SortSorted(assets, ByPlace(input));
    SlotsSeparate(input, assets);
    SameElements(assets, sorted);
    var k, l := EntriesKeepOrder(input, sorted, i, j);
    a, b := sorted[k], sorted[l];
    assert !ByPlace(input)(b, a);
    SortedSlotsDiffer(assets, sorted, k, l);
  }

  lemma SortedSlotsDiffer(assets: seq<SnapshotAsset>, sorted: seq<SnapshotAsset>, k: nat, l: nat)
    requires DistinctSlots(assets) && multiset(sorted) == multiset(assets) && k < l < |sorted|
    ensures (sorted[k].playlist, sorted[k].position) != (sorted[l].playlist, sorted[l].position)
  {
    var x, y := sorted[k], sorted[l];
    if x == y {
      TwiceIn(sorted, k, l);
      OnceEach(assets, x);
    } else {
      SameElements(assets, sorted);
      assert x in assets && y in assets;
    }
  }

  // In the shuffle modes, an item before another has the smaller score, or the same score and no
  // greater item id; only the weighted mode passes the flag to the score.
  lemma ShuffledOrder(input: Input, score: Score, assets: seq<SnapshotAsset>, i: nat, j: nat)
    returns (a: SnapshotAsset, b: SnapshotAsset)
    requires input.mode != Sequential && i < j < |QueueOf(input, score, assets)|
    ensures a in assets && b in assets && Eligible(input, a) && Eligible(input, b)
    ensures var q := QueueOf(input, score, assets);
      var weighted := input.mode == WeightedShuffle;
      && q[i] == Entry(input, a).item && q[j] == Entry(input, b).item
      && var x, y := score(a.item, Entry(input, a).weight, weighted), score(b.item, Entry(input, b).weight, weighted);
         x < y || (x == y && a.item <= b.item)
  {
    var sorted := StableSort(assets, ByPlace(input));
    var entries := Entries(input, sorted);
    var arranged := Arranged(input, score, entries);
    ShuffleOrder(input, score, assets);
    EntriesPlayable(input, sorted);
    SameElements(assets, sorted);
    SameElements(entries, arranged);
    assert arranged[i] in entries && arranged[j] in entries;
    a :| a in sorted && Eligible(input, a) && Entry(input, a) == arranged[i];
    b :| b in sorted && Eligible(input, b) && Entry(input, b) == arranged[j];
    assert !ByScore(score, input.mode == WeightedShuffle)(arranged[j], arranged[i]);
  }

  // In shuffle modes the order is by score, and by item id where scores tie.
  lemma ShuffleOrder(input: Input, score: Score, assets: seq<SnapshotAsset>)
    requires input.mode != Sequential
    ensures Sorted(Arranged(input, score, Entries(input, StableSort(assets, ByPlace(input)))),
                   ByScore(score, input.mode == WeightedShuffle))
  {
    ScoreOrderIsWeak(score, input.mode == WeightedShuffle);
    SortSorted(Entries(input, StableSort(assets, ByPlace(input))), ByScore(score, input.mode == WeightedShuffle));
  }
}
