// Playlists: items renumbered in place under a uniqueness rule checked at every save, and
// versioned publication that is safe to retry.
module Playlists {
  import opened Wrappers
  import opened Sorting
  import opened Text

  type Id = nat

  // The printed form of a song's UUID.
  type SongId = s: string | ':' !in s && '|' !in s witness ""

  datatype Item = Item(song: SongId, position: nat, weight: nat)

  datatype NewItem = NewItem(song: SongId, position: nat, weight: nat)

  datatype Error =
    | RevisionConflict | ContentUnavailable | OrderConflict | InvalidPositions | PositionTaken
    | NotPublishable | InUse

  // ---------- publication ----------

  datatype Status = Draft | Published | Archived

  datatype SnapshotItem = SnapshotItem(song: SongId, position: nat, weight: nat)

  // The digest is taken to be collision-free: a checksum is the text that is hashed.
  datatype Snapshot = Snapshot(version: nat, checksum: string, items: seq<SnapshotItem>)

  datatype Core = Core(
    items: seq<SnapshotItem>, revision: nat, currentVersion: nat, status: Status, snapshots: seq<Snapshot>)

  function ItemText(i: SnapshotItem): (s: string)
    ensures '|' !in s
  {
    NoSeparatorInDigits(i.position);
    NoSeparatorInDigits(i.weight);
    i.song + ":" + Dec(i.position) + ":" + Dec(i.weight)
  }

  lemma NoSeparatorInDigits(n: nat)
    ensures '|' !in Dec(n) && ':' !in Dec(n)
  {
  }

  function ItemTexts(items: seq<SnapshotItem>): (r: seq<string>)
    ensures |r| == |items| && forall i :: 0 <= i < |r| ==> '|' !in r[i]
  {
    seq(|items|, i requires 0 <= i < |items| => ItemText(items[i]))
  }

  function ChecksumSource(items: seq<SnapshotItem>): string { Join(ItemTexts(items), '|') }

  lemma ItemTextInjective(a: SnapshotItem, b: SnapshotItem)
    requires ItemText(a) == ItemText(b)
    ensures a == b
  {
    ItemTextParts(a);
    ItemTextParts(b);
    assert [a.song, Dec(a.position), Dec(a.weight)] == [b.song, Dec(b.position), Dec(b.weight)];
    assert [a.song, Dec(a.position), Dec(a.weight)][1] == Dec(b.position);
    assert [a.song, Dec(a.position), Dec(a.weight)][2] == Dec(b.weight);
    DecInjective(a.position, b.position);
    DecInjective(a.weight, b.weight);
  }

  lemma ItemTextParts(i: SnapshotItem)
    ensures Split(ItemText(i), ':') == [i.song, Dec(i.position), Dec(i.weight)]
  {
    NoSeparatorInDigits(i.position);
    NoSeparatorInDigits(i.weight);
    var tail := Dec(i.position) + [':'] + Dec(i.weight);
    assert ItemText(i) == i.song + [':'] + tail;
    SplitFirst(i.song, tail, ':');
    SplitFirst(Dec(i.position), Dec(i.weight), ':');
    SplitWhole(Dec(i.weight), ':');
  }

  // The text that is hashed determines the items.
  lemma ChecksumInjective(a: seq<SnapshotItem>, b: seq<SnapshotItem>)
    requires a != [] && b != [] && ChecksumSource(a) == ChecksumSource(b)
    ensures a == b
  {
    SplitJoin(ItemTexts(a), '|');
    SplitJoin(ItemTexts(b), '|');
    assert ItemTexts(a) == ItemTexts(b);
    forall i | 0 <= i < |a| ensures a[i] == b[i] {
      assert ItemTexts(a)[i] == ItemTexts(b)[i];
      ItemTextInjective(a[i], b[i]);
    }
  }

  predicate Latest(c: Core, checksum: string) {
    c.snapshots != [] && c.snapshots[|c.snapshots| - 1].checksum == checksum
  }

  predicate AllAvailable(items: seq<SnapshotItem>, available: set<SongId>) {
    forall i :: 0 <= i < |items| ==> items[i].song in available
  }

  // publish_playlist. available is None when no company is given.
  function PublishTo(c: Core, available: Option<set<SongId>>, expected: Option<nat>)
    : Result<(Core, Snapshot), Error>
  {
    if c.items == [] then Err(NotPublishable)
    else if available.Some? && !AllAvailable(c.items, available.value) then Err(NotPublishable)
    else
      var checksum := ChecksumSource(c.items);
      if expected.Some? && c.revision != expected.value then
        if Latest(c, checksum) then Ok((c, c.snapshots[|c.snapshots| - 1])) else Err(RevisionConflict)
      else if Latest(c, checksum) then
        Ok((if c.status == Published then c else c.(status := Published, revision := c.revision + 1),
            c.snapshots[|c.snapshots| - 1]))
      else
        var created := Snapshot(c.currentVersion + 1, checksum, c.items);
        Ok((c.(snapshots := c.snapshots + [created], currentVersion := c.currentVersion + 1,
               status := Published, revision := c.revision + 1), created))
  }

  ghost predicate SoundHistory(snapshots: seq<Snapshot>, currentVersion: nat) {
    && |snapshots| == currentVersion
    && (forall i :: 0 <= i < |snapshots| ==>
          && snapshots[i].version == i + 1 && snapshots[i].items != []
          && snapshots[i].checksum == ChecksumSource(snapshots[i].items))
    && forall i :: 0 < i < |snapshots| ==> snapshots[i - 1].items != snapshots[i].items
  }

  // What is returned is what the playlist holds, and the history stays sound: versions
  // 1..current_version, each different from the one before, the earlier ones untouched.
  lemma PublishIsVersioned(c: Core, available: Option<set<SongId>>, expected: Option<nat>)
    requires SoundHistory(c.snapshots, c.currentVersion)
    ensures match PublishTo(c, available, expected)
      case Err(_) => true
      case Ok((c', snapshot)) =>
        && SoundHistory(c'.snapshots, c'.currentVersion)
        && c.snapshots <= c'.snapshots && |c'.snapshots| <= |c.snapshots| + 1
        && snapshot == c'.snapshots[|c'.snapshots| - 1]
        && snapshot.items == c.items == c'.items
  {
    var last := |c.snapshots| - 1;
    if c.items != [] && Latest(c, ChecksumSource(c.items)) {
      ChecksumInjective(c.snapshots[last].items, c.items);
    }
  }

  // Repeating a publish with the same arguments returns the same snapshot and changes nothing.
  lemma PublishIsRetrySafe(c: Core, available: Option<set<SongId>>, expected: Option<nat>)
    ensures var r := PublishTo(c, available, expected);
      r.Ok? ==> PublishTo(r.value.0, available, expected) == Ok(r.value)
  {
  }

  // The newest version has these items.
  predicate NewestHas(c: Core, items: seq<SnapshotItem>) {
    |c.snapshots| > 0 && c.snapshots[|c.snapshots| - 1].items == items
  }

  lemma LatestIffNewest(c: Core)
    requires SoundHistory(c.snapshots, c.currentVersion) && c.items != []
    ensures Latest(c, ChecksumSource(c.items)) <==> NewestHas(c, c.items)
  {
    if Latest(c, ChecksumSource(c.items)) {
      ChecksumInjective(c.snapshots[|c.snapshots| - 1].items, c.items);
    }
  }

  // A publication is accepted exactly for items that are all available, from the current revision
  // or no stated one, or to find that the newest version has these very items.
  lemma PublishAcceptedIff(c: Core, available: Option<set<SongId>>, expected: Option<nat>)
    requires SoundHistory(c.snapshots, c.currentVersion)
    ensures PublishTo(c, available, expected).Ok? <==>
      && |c.items| > 0
      && (available.Some? ==> forall i :: 0 <= i < |c.items| ==> c.items[i].song in available.value)
      && (expected == None || expected == Some(c.revision) || NewestHas(c, c.items))
  {
    if c.items != [] {
      LatestIffNewest(c);
    }
  }

  // From the current revision it leaves the playlist published with its items as the newest
  // version, added only if the newest did not have them; the revision moves exactly if anything
  // changed. From another revision nothing changes at all.
  lemma PublishEffect(c: Core, available: Option<set<SongId>>, expected: Option<nat>)
    requires SoundHistory(c.snapshots, c.currentVersion) && PublishTo(c, available, expected).Ok?
    ensures var c' := PublishTo(c, available, expected).value.0;
      var added := !NewestHas(c, c.items);
      if expected.Some? && expected.value != c.revision then c' == c
      else
        && c'.status == Published && c'.items == c.items && NewestHas(c', c.items)
        && |c'.snapshots| == c'.currentVersion == (if added then c.currentVersion + 1 else c.currentVersion)
        && c'.snapshots[..|c.snapshots|] == c.snapshots
        && c'.revision == (if added || c.status != Published then c.revision + 1 else c.revision)
  {
    LatestIffNewest(c);
  }

  datatype Event =
    | Edited(items: seq<SnapshotItem>)
    | Publish(available: Option<set<SongId>>, expected: Option<nat>)
    | Archive(scheduled: bool, revision: nat)
    | Reactivate(revision: nat)

  function Step(c: Core, e: Event): Core {
    match e
    case Edited(items) => c.(items := items, revision := c.revision + 1)
    case Publish(available, expected) =>
      var r := PublishTo(c, available, expected);
      if r.Ok? then r.value.0 else c
    case Archive(scheduled, revision) =>
      if c.revision != revision || scheduled then c else c.(status := Archived, revision := revision + 1)
    case Reactivate(revision) =>
      if c.revision != revision then c else c.(status := Draft, revision := revision + 1)
  }

  // Archiving needs the revision and a playlist that is not scheduled, reactivating the revision;
  // items and versions stay.
  lemma StatusSteps(c: Core, scheduled: bool, revision: nat)
    ensures Step(c, Archive(scheduled, revision)) ==
      if c.revision == revision && !scheduled then
        Core(c.items, revision + 1, c.currentVersion, Archived, c.snapshots)
      else c
    ensures Step(c, Reactivate(revision)) ==
      if c.revision == revision then Core(c.items, revision + 1, c.currentVersion, Draft, c.snapshots) else c
  {
  }

  function Run(events: seq<Event>): Core {
    if events == [] then Core([], 1, 0, Draft, []) else Step(Run(events[..|events| - 1]), events[|events| - 1])
  }

  lemma {:induction false} HistoryIsSound(events: seq<Event>)
    ensures SoundHistory(Run(events).snapshots, Run(events).currentVersion)
  {
    if events != [] {
      HistoryIsSound(events[..|events| - 1]);
      var e := events[|events| - 1];
      if e.Publish? {
        PublishIsVersioned(Run(events[..|events| - 1]), e.available, e.expected);
      }
    }
  }

  // ---------- positions ----------

  // ids names exactly the items.
  ghost predicate Covers(items: map<Id, Item>, ids: seq<Id>) {
    && (forall id :: id in items ==> id in ids)
    && (forall i :: 0 <= i < |ids| ==> ids[i] in items)
  }

  // ids lists the items by strictly growing position.
  ghost predicate Ascending(items: map<Id, Item>, ids: seq<Id>) {
    && Covers(items, ids)
    && (forall i, j :: 0 <= i < j < |ids| ==> items[ids[i]].position < items[ids[j]].position)
  }

  // ids lists the items and their positions are exactly 1..n.
  ghost predicate Numbered(items: map<Id, Item>, ids: seq<Id>) {
    && Covers(items, ids)
    && (forall i :: 0 <= i < |ids| ==> items[ids[i]].position == i + 1)
  }

  // Positions differ pairwise: the table's uniqueness constraint.
  ghost predicate UniquePositions(items: map<Id, Item>) {
    forall i, j :: i in items && j in items && i != j ==> items[i].position != items[j].position
  }

  lemma AscendingDistinct(items: map<Id, Item>, ids: seq<Id>)
    requires Ascending(items, ids)
    ensures forall i, j :: 0 <= i < j < |ids| ==> ids[i] != ids[j]
    ensures UniquePositions(items)
  {
  }

  // Listings that agree before k: what one has at k, the other has at k or later.
  lemma FoundLater(items: map<Id, Item>, a: seq<Id>, b: seq<Id>, k: nat) returns (i: nat)
    requires Ascending(items, a) && Covers(items, b) && k < |a| && k <= |b|
    requires forall i :: 0 <= i < k ==> a[i] == b[i]
    ensures k <= i < |b| && b[i] == a[k]
  {
    assert a[k] in items;
    i :| 0 <= i < |b| && b[i] == a[k];
  }

  lemma SameAt(items: map<Id, Item>, a: seq<Id>, b: seq<Id>, k: nat)
    requires Ascending(items, a) && Ascending(items, b) && k < |a| && k <= |b|
    requires forall i :: 0 <= i < k ==> a[i] == b[i]
    ensures k < |b| && a[k] == b[k]
  {
    var i := FoundLater(items, a, b, k);
    var j := FoundLater(items, b, a, k);
  }

  lemma {:induction false} SamePrefix(items: map<Id, Item>, a: seq<Id>, b: seq<Id>, k: nat)
    requires Ascending(items, a) && Ascending(items, b) && k <= |a|
    ensures k <= |b| && forall i :: 0 <= i < k ==> a[i] == b[i]
  {
    if k > 0 {
      SamePrefix(items, a, b, k - 1);
      SameAt(items, a, b, k - 1);
    }
  }

  lemma AscendingUnique(items: map<Id, Item>, a: seq<Id>, b: seq<Id>)
    requires Ascending(items, a) && Ascending(items, b)
    ensures a == b
  {
    SamePrefix(items, a, b, |a|);
    SamePrefix(items, b, a, |b|);
  }

  // ids lists, in ascending order, the rows that are not in rest, and rest comes after them.
  ghost predicate Listed(items: map<Id, Item>, rest: set<Id>, ids: seq<Id>) {
    && rest <= items.Keys
    && (forall id :: id in items && id !in rest ==> id in ids)
    && (forall i :: 0 <= i < |ids| ==> ids[i] in items)
    && (forall i, j :: 0 <= i < j < |ids| ==> items[ids[i]].position < items[ids[j]].position)
    && (forall i, id :: 0 <= i < |ids| && id in rest ==> items[ids[i]].position < items[id].position)
  }

  lemma ListedAdvances(items: map<Id, Item>, rest: set<Id>, ids: seq<Id>, first: Id)
    requires Listed(items, rest, ids) && first in rest
    requires forall id :: id in rest && id != first ==> items[first].position < items[id].position
    ensures Listed(items, rest - {first}, ids + [first])
  {
  }

  // Only positions differ.
  ghost predicate SameContent(a: map<Id, Item>, b: map<Id, Item>) {
    a.Keys == b.Keys && forall id :: id in b ==> b[id] == a[id].(position := b[id].position)
  }

  ghost predicate NoneTooLow(items: map<Id, Item>, ids: seq<Id>) {
    forall i :: 0 <= i < |ids| ==> ids[i] in items && items[ids[i]].position >= i + 1
  }

  // The first k rows of the listing have been renumbered, the others wait.
  ghost predicate Progress(start: map<Id, Item>, now: map<Id, Item>, ids: seq<Id>, k: nat) {
    && SameContent(start, now)
    && (forall i :: 0 <= i < |ids| ==> ids[i] in now)
    && (forall i :: 0 <= i < k && i < |ids| ==> now[ids[i]].position == i + 1)
    && (forall i :: k <= i < |ids| ==> now[ids[i]] == start[ids[i]])
  }

  lemma ProgressDone(start: map<Id, Item>, now: map<Id, Item>, ids: seq<Id>)
    requires Ascending(start, ids) && Progress(start, now, ids, |ids|)
    ensures Numbered(now, ids)
  {
  }

  lemma NextPositionIsFree(start: map<Id, Item>, now: map<Id, Item>, ids: seq<Id>, k: nat)
    requires Ascending(start, ids) && NoneTooLow(start, ids) && k < |ids| && Progress(start, now, ids, k)
    ensures forall o :: o in now && o != ids[k] ==> now[o].position != k + 1
  {
  }

  lemma Advance(start: map<Id, Item>, now: map<Id, Item>, ids: seq<Id>, k: nat)
    requires Ascending(start, ids) && k < |ids| && Progress(start, now, ids, k)
    ensures Progress(start, now[ids[k] := now[ids[k]].(position := k + 1)], ids, k + 1)
  {
    AscendingDistinct(start, ids);
  }

  lemma NumberedDistinct(items: map<Id, Item>, order: seq<Id>)
    requires Numbered(items, order)
    ensures Ascending(items, order)
    ensures forall i, j :: 0 <= i < j < |order| ==> order[i] != order[j]
  {
  }

  function Gap(ids: seq<Id>, k: nat): (r: seq<Id>)
    requires k < |ids|
    ensures |r| == |ids| - 1
    ensures forall i :: 0 <= i < |r| ==> r[i] == ids[if i < k then i else i + 1]
  {
    ids[..k] + ids[k + 1..]
  }

  // after is before without id.
  ghost predicate IsGap(before: seq<Id>, id: Id, after: seq<Id>) {
    exists k: nat :: k < |before| && before[k] == id && after == Gap(before, k)
  }

  // Taking an item out of a numbered playlist leaves an ascending one with a gap of one.
  lemma GapAscends(items: map<Id, Item>, order: seq<Id>, k: nat)
    requires Numbered(items, order) && k < |order|
    ensures Ascending(items - {order[k]}, Gap(order, k)) && NoneTooLow(items - {order[k]}, Gap(order, k))
  {
  }

  const PARKING := 100_000

  // The k-th save above 100000 does not land on an item still waiting at its old place.
  predicate FreeAt(order: seq<Id>, requested: seq<Id>, k: nat)
    requires k < |requested|
  {
    PARKING + k < |order| ==> order[PARKING + k] in requested[..k + 1]
  }

  predicate ParkingIsFree(order: seq<Id>, requested: seq<Id>) {
    forall k :: 0 <= k < |requested| ==> FreeAt(order, requested, k)
  }

  lemma ShortPlaylistsParkFreely(order: seq<Id>, requested: seq<Id>)
    requires |order| <= PARKING
    ensures ParkingIsFree(order, requested)
  {
  }

  // One item more and the reordering works only if the last item is moved to the front.
  lemma FirstPlaylistThatClashes(order: seq<Id>, requested: seq<Id>)
    requires |order| == PARKING + 1 == |requested|
    ensures ParkingIsFree(order, requested) <==> requested[0] == order[PARKING]
  {
    assert requested[..1] == [requested[0]];
    assert FreeAt(order, requested, 0) <==> requested[0] == order[PARKING];
  }

  function ByPosition(): (NewItem, NewItem) -> bool { (a: NewItem, b: NewItem) => a.position < b.position }

  // The serializer's test: sorted, the positions are exactly 1..n.
  predicate Consecutive(sorted: seq<NewItem>) {
    forall i :: 0 <= i < |sorted| ==> sorted[i].position == i + 1
  }

  // The positions are 1..n, each once, in whatever order.
  ghost predicate OneToN(data: seq<NewItem>) {
    && (forall i :: 0 <= i < |data| ==> 1 <= data[i].position <= |data|)
    && (forall i, j :: 0 <= i < j < |data| ==> data[i].position != data[j].position)
  }

  lemma PositionOrderIsWeak()
    ensures StrictWeakOrder(ByPosition())
  {
  }

  lemma {:induction false} GrowingFromOne(s: seq<NewItem>, i: nat)
    requires Sorted(s, ByPosition()) && OneToN(s) && i < |s|
    ensures s[i].position >= i + 1
  {
    if i > 0 {
      GrowingFromOne(s, i - 1);
      assert !ByPosition()(s[i], s[i - 1]);
    }
  }

  lemma {:induction false} GrowingToN(s: seq<NewItem>, i: nat)
    requires Sorted(s, ByPosition()) && OneToN(s) && i < |s|
    ensures s[i].position <= i + 1
    decreases |s| - i
  {
    if i < |s| - 1 {
      GrowingToN(s, i + 1);
      assert !ByPosition()(s[i + 1], s[i]);
    }
  }

  // Distinct positions survive any rearrangement.
  lemma {:induction false} OneToNPermuted(a: seq<NewItem>, b: seq<NewItem>)
    requires multiset(a) == multiset(b) && OneToN(a)
    ensures OneToN(b)
  {
    SameElements(a, b);
    forall i | 0 <= i < |b| ensures 1 <= b[i].position <= |b| {
      assert b[i] in a;
    }
    forall i, j | 0 <= i < j < |b| ensures b[i].position != b[j].position {
      if b[i].position == b[j].position {
        SamePositionSameItem(a, b[i], b[j]);
        TwiceIn(b, i, j);
        OnceByPosition(a, b[i]);
      }
    }
  }

  lemma SamePositionSameItem(a: seq<NewItem>, x: NewItem, y: NewItem)
    requires OneToN(a) && x in a && y in a && x.position == y.position
    ensures x == y
  {
    var i :| 0 <= i < |a| && a[i] == x;
    var j :| 0 <= j < |a| && a[j] == y;
  }

  lemma {:induction false} OnceByPosition(s: seq<NewItem>, x: NewItem)
    requires forall i, j :: 0 <= i < j < |s| ==> s[i].position != s[j].position
    ensures multiset(s)[x] <= 1
  {
    if s != [] {
      OnceByPosition(s[1..], x);
      assert s == [s[0]] + s[1..];
      if s[0] == x {
        assert x !in s[1..];
      }
    }
  }

  lemma SortedOneToN(s: seq<NewItem>)
    requires Sorted(s, ByPosition()) && OneToN(s)
    ensures Consecutive(s)
  {
    forall i | 0 <= i < |s| ensures s[i].position == i + 1 {
      GrowingFromOne(s, i);
      GrowingToN(s, i);
    }
  }

  // The new items are accepted exactly when their positions are 1..n, each once, and the i-th of
  // the playlist is then the one that came with position i.
  lemma ReplacementIs(data: seq<NewItem>)
    ensures Consecutive(StableSort(data, ByPosition())) <==> OneToN(data)
    ensures multiset(StableSort(data, ByPosition())) == multiset(data)
    ensures OneToN(data) ==> forall i :: 0 <= i < |data| ==> StableSort(data, ByPosition())[i].position == i + 1
  {
    var sorted := StableSort(data, ByPosition());
    if OneToN(data) {
      PositionOrderIsWeak();
      SortSorted(data, ByPosition());
      OneToNPermuted(data, sorted);
      SortedOneToN(sorted);
    }
    if Consecutive(sorted) {
      OneToNPermuted(sorted, data);
    }
  }

  predicate SongsAvailable(data: seq<NewItem>, available: set<SongId>) {
    forall i :: 0 <= i < |data| ==> data[i].song in available
  }

  ghost predicate Distinct(ids: seq<Id>) { forall i, j :: 0 <= i < j < |ids| ==> ids[i] != ids[j] }

  // A list as long as its set of members has no repetitions.
  lemma {:induction false} FullLengthIsDistinct(ids: seq<Id>, members: set<Id>)
    requires members == (set id | id in ids) && |members| == |ids|
    ensures Distinct(ids)
  {
    if ids != [] {
      var rest := set id | id in ids[1..];
      assert members == {ids[0]} + rest;
      AtMostLength(ids[1..], rest);
      FullLengthIsDistinct(ids[1..], rest);
    }
  }

  lemma {:induction false} AtMostLength(ids: seq<Id>, members: set<Id>)
    requires members == set id | id in ids
    ensures |members| <= |ids|
  {
    if ids != [] {
      var rest := set id | id in ids[1..];
      assert members == {ids[0]} + rest;
      AtMostLength(ids[1..], rest);
    }
  }

  // k items parked, the others where they were.
  ghost predicate Parked(start: map<Id, Item>, now: map<Id, Item>, ids: seq<Id>, k: nat) {
    && SameContent(start, now) && Covers(now, ids)
    && (forall i :: 0 <= i < k && i < |ids| ==> now[ids[i]].position == PARKING + i + 1)
    && (forall i :: k <= i < |ids| ==> now[ids[i]].position == start[ids[i]].position)
  }

  // k items at their final place, the others still parked.
  ghost predicate Unparked(start: map<Id, Item>, now: map<Id, Item>, ids: seq<Id>, k: nat) {
    && SameContent(start, now) && Covers(now, ids)
    && (forall i :: 0 <= i < k && i < |ids| ==> now[ids[i]].position == i + 1)
    && (forall i :: k <= i < |ids| ==> now[ids[i]].position == PARKING + i + 1)
  }

  // When the k-th save of the parking loop goes through.
  lemma ParkingStep(start: map<Id, Item>, order: seq<Id>, now: map<Id, Item>, ids: seq<Id>, k: nat)
    requires Numbered(start, order) && Distinct(ids) && k < |ids| && Parked(start, now, ids, k)
    ensures (forall o :: o in now && o != ids[k] ==> now[o].position != PARKING + k + 1)
            <==> FreeAt(order, ids, k)
  {
  }

  lemma ParkingAdvances(start: map<Id, Item>, now: map<Id, Item>, ids: seq<Id>, k: nat)
    requires Distinct(ids) && k < |ids| && Parked(start, now, ids, k)
    ensures Parked(start, now[ids[k] := now[ids[k]].(position := PARKING + k + 1)], ids, k + 1)
  {
  }

  lemma UnparkingIsFree(start: map<Id, Item>, now: map<Id, Item>, ids: seq<Id>, k: nat)
    requires k < |ids| && Unparked(start, now, ids, k)
    ensures forall o :: o in now && o != ids[k] ==> now[o].position != k + 1
  {
  }

  // The first k rows have been created, at positions 1..k.
  ghost predicate CreatedUpTo(items: map<Id, Item>, sorted: seq<NewItem>, newIds: seq<Id>, k: nat)
    requires |newIds| == |sorted|
  {
    && (forall id :: id in items ==> exists i :: 0 <= i < k && i < |newIds| && newIds[i] == id)
    && (forall i :: 0 <= i < k && i < |newIds| ==>
          newIds[i] in items && items[newIds[i]] == Item(sorted[i].song, i + 1, sorted[i].weight))
  }

  lemma NextRowIsFree(items: map<Id, Item>, sorted: seq<NewItem>, newIds: seq<Id>, k: nat)
    requires Consecutive(sorted) && |newIds| == |sorted| && Distinct(newIds) && k < |sorted|
    requires CreatedUpTo(items, sorted, newIds, k)
    ensures forall o :: o in items ==> o != newIds[k] && items[o].position != k + 1
    ensures CreatedUpTo(items[newIds[k] := Item(sorted[k].song, k + 1, sorted[k].weight)], sorted, newIds, k + 1)
  {
  }

  function Frozen(items: map<Id, Item>, ids: seq<Id>): (r: seq<SnapshotItem>)
    requires forall id :: id in ids ==> id in items
    ensures |r| == |ids|
  {
    seq(|ids|, i requires 0 <= i < |ids| =>
      SnapshotItem(items[ids[i]].song, items[ids[i]].position, items[ids[i]].weight))
  }

  class Playlist {
    var items: map<Id, Item>
    var revision: nat
    var currentVersion: nat
    var status: Status
    var snapshots: seq<Snapshot>
    ghost var order: seq<Id>  // the running order

    ghost predicate Valid()
      reads this
    {
      Numbered(items, order)
    }

    ghost function Value(): Core
      requires Valid()
      reads this
    {
      Core(Frozen(items, order), revision, currentVersion, status, snapshots)
    }

    constructor ()
      ensures Valid() && order == [] && revision == 1 && status == Draft && snapshots == []
    {
      items, revision, currentVersion, status, snapshots, order := map[], 1, 0, Draft, [], [];
    }

    // A save validates the row first: it is refused when another item holds the position.
    method SavePosition(id: Id, position: nat) returns (ok: bool)
      requires id in items
      modifies `items
      ensures ok <==> forall o :: o in old(items) && o != id ==> old(items)[o].position != position
      ensures items == if ok then old(items)[id := old(items)[id].(position := position)] else old(items)
    {
      var taken := set o | o in items && o != id && items[o].position == position;
      if taken != {} {
        return false;
      }
      items := items[id := items[id].(position := position)];
      forall o | o in old(items) && o != id ensures old(items)[o].position != position {
        assert o !in taken;
      }
      return true;
    }

    method CreateItem(id: Id, item: Item) returns (ok: bool)
      requires id !in items
      modifies `items
      ensures ok <==> forall o :: o in old(items) ==> old(items)[o].position != item.position
      ensures items == if ok then old(items)[id := item] else old(items)
    {
      var taken := set o | o in items && items[o].position == item.position;
      if taken != {} {
        return false;
      }
      items := items[id := item];
      forall o | o in old(items) ensures old(items)[o].position != item.position {
        assert o !in taken;
      }
      return true;
    }

    method FirstByPosition(rest: set<Id>) returns (first: Id)
      requires rest != {} && rest <= items.Keys && UniquePositions(items)
      ensures first in rest && forall id :: id in rest && id != first ==> items[first].position < items[id].position
    {
      first :| first in rest;
      var others := rest - {first};
      while others != {}
        invariant others <= rest && first in rest && first !in others
        invariant forall id :: id in rest && id !in others && id != first ==> items[first].position < items[id].position
        decreases others
      {
        var o :| o in others;
        others := others - {o};
        if items[o].position < items[first].position {
          first := o;
        }
      }
    }

    // order_by("position", "id")
    method OrderByPosition() returns (ids: seq<Id>)
      requires UniquePositions(items)
      ensures Ascending(items, ids)
    {
      ids := [];
      var rest := items.Keys;
      while rest != {}
        invariant Listed(items, rest, ids)
        decreases rest
      {
        var first := FirstByPosition(rest);
        ListedAdvances(items, rest, ids, first);
        ids := ids + [first];
        rest := rest - {first};
      }
    }

    // Saved only when the position changes.
    method Renumber(id: Id, position: nat)
      requires id in items && forall o :: o in items && o != id ==> items[o].position != position
      modifies `items
      ensures items == old(items)[id := old(items)[id].(position := position)]
    {
      if items[id].position != position {
        var ok := SavePosition(id, position);
        assert ok;
      } else {
        assert items == items[id := items[id].(position := position)];
      }
    }

    // Renumber from 1, saving only the rows whose position changes. No save is ever refused.
    method Compact(ids: seq<Id>)
      requires Ascending(items, ids) && NoneTooLow(items, ids)
      modifies `items
      ensures Numbered(items, ids) && SameContent(old(items), items)
    {
      ghost var start := items;
      for k := 0 to |ids|
        invariant Progress(start, items, ids, k)
      {
        NextPositionIsFree(start, items, ids, k);
        Advance(start, items, ids, k);
        Renumber(ids[k], k + 1);
      }
      ProgressDone(start, items, ids);
    }

    method RemoveRow(id: Id)
      requires Numbered(items, order) && id in items
      modifies `items, `order
      ensures Numbered(items, order) && IsGap(old(order), id, order)
      ensures SameContent(old(items) - {id}, items)
    {
      ghost var k :| 0 <= k < |order| && order[k] == id;
      GapAscends(items, order, k);
      items := items - {id};
      AscendingDistinct(items, Gap(order, k));
      var ids := OrderByPosition();
      AscendingUnique(items, ids, Gap(order, k));
      Compact(ids);
      order := ids;
    }

    method Remove(id: Id, expected: nat) returns (error: Option<Error>)
      requires Valid() && id in items
      modifies `items, `order, `revision
      ensures Valid()
      ensures error == if old(revision) == expected then None else Some(RevisionConflict)
      ensures error.Some? ==> items == old(items) && order == old(order) && revision == old(revision)
      // The others keep their songs, weights and relative order, and close the gap.
      ensures error.None? ==>
        && IsGap(old(order), id, order) && revision == expected + 1
        && SameContent(old(items) - {id}, items)
    {
      if revision != expected {
        return Some(RevisionConflict);
      }
      RemoveRow(id);
      revision := revision + 1;
      return None;
    }

    method MaxPosition() returns (m: nat)
      ensures forall id :: id in items ==> items[id].position <= m
      ensures m > 0 ==> exists id :: id in items && items[id].position == m
    {
      m := 0;
      var todo := items.Keys;
      while todo != {}
        invariant todo <= items.Keys
        invariant forall id :: id in items && id !in todo ==> items[id].position <= m
        invariant m > 0 ==> exists id :: id in items && items[id].position == m
        decreases todo
      {
        var id :| id in todo;
        if items[id].position > m {
          m := items[id].position;
        }
        todo := todo - {id};
      }
    }

    method Add(id: Id, song: SongId, weight: nat, expected: nat, available: set<SongId>) returns (error: Option<Error>)
      requires Valid() && id !in items
      modifies `items, `order, `revision
      ensures Valid()
      ensures error == if old(revision) != expected then Some(RevisionConflict)
                       else if song !in available then Some(ContentUnavailable) else None
      ensures error.Some? ==> items == old(items) && order == old(order) && revision == old(revision)
      ensures error.None? ==>
        && order == old(order) + [id] && revision == expected + 1
        && items == old(items)[id := Item(song, |old(order)| + 1, weight)]
    {
      if revision != expected {
        return Some(RevisionConflict);
      }
      if song !in available {
        return Some(ContentUnavailable);
      }
      var m := MaxPosition();
      assert m == |order| by {
        if order != [] {
          assert order[|order| - 1] in items;
        }
        if m > 0 {
          var o :| o in items && items[o].position == m;
          assert o in order;
        }
      }
      var ok := CreateItem(id, Item(song, m + 1, weight));
      assert ok;
      order := order + [id];
      forall o | o in items ensures o in order {
        assert o in old(items) ==> o in old(order);
      }
      revision := revision + 1;
      return None;
    }

    // newIds are the identifiers the new rows receive, in the order they are created.
    method ReplaceAll(data: seq<NewItem>, newIds: seq<Id>, expected: nat, available: set<SongId>)
      returns (error: Option<Error>)
      requires Valid() && |newIds| == |data| && Distinct(newIds)
      modifies `items, `order, `revision
      ensures Valid()
      ensures var sorted := StableSort(data, ByPosition());
        && error == (if !Consecutive(sorted) then Some(InvalidPositions)
                     else if old(revision) != expected then Some(RevisionConflict)
                     else if !SongsAvailable(sorted, available) then Some(ContentUnavailable) else None)
        && (error.None? ==>
              && order == newIds && revision == expected + 1
              && forall i :: 0 <= i < |sorted| ==> items[newIds[i]] == Item(sorted[i].song, i + 1, sorted[i].weight))
      ensures error.Some? ==> items == old(items) && order == old(order) && revision == old(revision)
    {
      var sorted := StableSort(data, ByPosition());
      if !Consecutive(sorted) {
        return Some(InvalidPositions);
      }
      if revision != expected {
        return Some(RevisionConflict);
      }
      if !SongsAvailable(sorted, available) {
        return Some(ContentUnavailable);
      }
      CreateRows(sorted, newIds);
      order := newIds;
      revision := revision + 1;
      return None;
    }

    method CreateRows(sorted: seq<NewItem>, newIds: seq<Id>)
      requires Consecutive(sorted) && |newIds| == |sorted| && Distinct(newIds)
      modifies `items
      ensures Numbered(items, newIds)
      ensures forall i :: 0 <= i < |sorted| ==> items[newIds[i]] == Item(sorted[i].song, i + 1, sorted[i].weight)
    {
      items := map[];
      for k := 0 to |sorted|
        invariant CreatedUpTo(items, sorted, newIds, k)
      {
        NextRowIsFree(items, sorted, newIds, k);
        var ok := CreateItem(newIds[k], Item(sorted[k].song, sorted[k].position, sorted[k].weight));
        assert ok;
      }
      forall id | id in items ensures id in newIds {
        var i :| 0 <= i < |newIds| && newIds[i] == id;
      }
    }

    // A draft copy with the same songs in the same order; the original is left alone.
    method Duplicate(newIds: seq<Id>, available: set<SongId>) returns (r: Result<Playlist, Error>)
      requires Valid() && |newIds| == |order| && Distinct(newIds)
      ensures r.Ok? <==> AllAvailable(Frozen(items, order), available)
      ensures r.Ok? ==>
        && fresh(r.value) && r.value.Valid() && r.value.order == newIds
        && Frozen(r.value.items, newIds) == Frozen(items, order)
        && r.value.status == Draft && r.value.snapshots == []
    {
      var frozen := FrozenItems();
      if !AllAvailable(frozen, available) {
        return Err(ContentUnavailable);
      }
      var data := seq(|frozen|, i requires 0 <= i < |frozen| =>
        NewItem(frozen[i].song, frozen[i].position, frozen[i].weight));
      var copy := new Playlist();
      copy.CreateRows(data, newIds);
      copy.order := newIds;
      return Ok(copy);
    }

    // One step of it: refused exactly when an item still waits at that place.
    method ParkOne(ghost start: map<Id, Item>, ids: seq<Id>, k: nat) returns (saved: bool)
      requires Numbered(start, order) && Distinct(ids) && k < |ids| && Parked(start, items, ids, k)
      modifies `items
      ensures saved <==> FreeAt(order, ids, k)
      ensures saved ==> Parked(start, items, ids, k + 1)
    {
      ParkingStep(start, order, items, ids, k);
      ParkingAdvances(start, items, ids, k);
      saved := SavePosition(ids[k], PARKING + k + 1);
    }

    // First loop of the reordering: park every item above 100000.
    method Park(ids: seq<Id>) returns (ok: bool)
      requires Numbered(items, order) && Covers(items, ids) && Distinct(ids)
      modifies `items
      ensures ok <==> ParkingIsFree(order, ids)
      ensures ok ==> Unparked(old(items), items, ids, 0)
    {
      ghost var start := items;
      for k := 0 to |ids|
        invariant Parked(start, items, ids, k)
        invariant forall i :: 0 <= i < k ==> FreeAt(order, ids, i)
      {
        var saved := ParkOne(start, ids, k);
        if !saved {
          return false;
        }
      }
      return true;
    }

    method UnparkOne(ghost start: map<Id, Item>, ids: seq<Id>, k: nat)
      requires Unparked(start, items, ids, k) && Distinct(ids) && k < |ids|
      modifies `items
      ensures Unparked(start, items, ids, k + 1)
    {
      UnparkingIsFree(start, items, ids, k);
      var saved := SavePosition(ids[k], k + 1);
      assert saved;
    }

    // Second loop: bring them down to 1..n in the requested order. No save is refused.
    method Unpark(ids: seq<Id>)
      requires Unparked(items, items, ids, 0) && Distinct(ids)
      modifies `items
      ensures Numbered(items, ids) && SameContent(old(items), items)
    {
      ghost var start := items;
      for k := 0 to |ids|
        invariant Unparked(start, items, ids, k)
      {
        UnparkOne(start, ids, k);
      }
    }

    method Reorder(ids: seq<Id>, expected: nat) returns (error: Option<Error>)
      requires Valid()
      modifies `items, `order, `revision
      ensures Valid()
      ensures error == if old(revision) != expected then Some(RevisionConflict)
                       else if (set id | id in ids) != old(items).Keys || |ids| != |old(items)| then Some(OrderConflict)
                       else if !ParkingIsFree(old(order), ids) then Some(PositionTaken) else None
      ensures error.Some? ==> items == old(items) && order == old(order) && revision == old(revision)
      // The requested order, with the songs and weights they had.
      ensures error.None? ==> order == ids && revision == expected + 1 && SameContent(old(items), items)
    {
      if revision != expected {
        return Some(RevisionConflict);
      }
      var members := set id | id in ids;
      if members != items.Keys || |ids| != |items| {
        return Some(OrderConflict);
      }
      FullLengthIsDistinct(ids, members);
      assert Covers(items, ids) by {
        assert forall id :: id in items ==> id in members;
        assert forall i :: 0 <= i < |ids| ==> ids[i] in members;
      }
      var saved := items;
      var ok := Park(ids);
      if !ok {
        items := saved;
        return Some(PositionTaken);
      }
      Unpark(ids);
      order := ids;
      revision := revision + 1;
      return None;
    }

    // The items as the checksum and the snapshot read them.
    method FrozenItems() returns (frozen: seq<SnapshotItem>)
      requires Numbered(items, order)
      ensures frozen == Frozen(items, order)
    {
      NumberedDistinct(items, order);
      AscendingDistinct(items, order);
      var ids := OrderByPosition();
      AscendingUnique(items, ids, order);
      frozen := Frozen(items, ids);
    }

    method Publish(available: Option<set<SongId>>, expected: Option<nat>) returns (r: Result<Snapshot, Error>)
      requires Valid()
      modifies `revision, `currentVersion, `status, `snapshots
      ensures Valid()
      ensures match PublishTo(old(Value()), available, expected)
        case Ok((value, snapshot)) => r == Ok(snapshot) && Value() == value
        case Err(error) => r == Err(error) && Value() == old(Value())
    {
      var frozen := FrozenItems();
      if frozen == [] || (available.Some? && !AllAvailable(frozen, available.value)) {
        return Err(NotPublishable);
      }
      var checksum := ChecksumSource(frozen);
      var same := snapshots != [] && snapshots[|snapshots| - 1].checksum == checksum;
      if expected.Some? && revision != expected.value {
        if same {
          return Ok(snapshots[|snapshots| - 1]);
        }
        return Err(RevisionConflict);
      }
      if same {
        if status != Published {
          status := Published;
          revision := revision + 1;
        }
        return Ok(snapshots[|snapshots| - 1]);
      }
      var created := Snapshot(currentVersion + 1, checksum, frozen);
      snapshots := snapshots + [created];
      currentVersion := currentVersion + 1;
      status := Published;
      revision := revision + 1;
      return Ok(created);
    }
  }
}
