// What the player makes of a zone's content: the assets frozen for the zone, the schedule's
// decision, the queue built for it, and the place of the clock in that queue.
module Playing {
  import opened Wrappers
  import Schedules
  import Queue
  import PlaybackClock

  datatype Reason = NoScheduleContent | ScheduledSilence

  datatype Outcome = Blocked(reason: Reason) | Ready(queue: seq<Queue.QueueItem>)

  // What a runtime carries besides the schedule payload.
  datatype Content = Content(
    refs: seq<Queue.Reference>, manifest: seq<Queue.ManifestItem>, assets: seq<Queue.SnapshotAsset>,
    mode: Queue.OrderMode, score: Queue.Score)

  function InputFor(c: Content, playlist: Option<Queue.Id>, now: int): Queue.Input {
    Queue.Input(c.refs, c.manifest, playlist, now, c.mode)
  }

  function OutcomeOf(c: Content, decision: Schedules.Decision, now: int): Outcome {
    match decision
    case NoContent => Blocked(NoScheduleContent)
    case Silence(_) => Blocked(ScheduledSilence)
    case Play(snapshot, _) => Ready(Queue.QueueOf(InputFor(c, snapshot, now), c.score, c.assets))
  }

  // resolveAssets, both halves.
  method ResolveAssets(p: Schedules.Payload, c: Content, date: nat, second: int, now: int) returns (r: Outcome)
    requires Schedules.WellKinded(p)
    ensures r == OutcomeOf(c, Schedules.GoResolve(p, date, second), now)
  {
    var decision := Schedules.ResolveSchedule(p, date, second);
    match decision
    case NoContent => return Blocked(NoScheduleContent);
    case Silence(_) => return Blocked(ScheduledSilence);
    case Play(snapshot, _) =>
      var queue := Queue.ResolveAssets(InputFor(c, snapshot, now), c.score, c.assets);
      return Ready(queue);
  }

  // ---------- the zone's frozen assets ----------

  type Table = map<Queue.Id, seq<Queue.SnapshotItem>>

  // The playlist snapshots that a schedule payload refers to.
  function SnapshotIds(entries: seq<Schedules.PublishedEntry>): set<Queue.Id> {
    set x | x in entries && x.snapshot.Some? :: x.snapshot.value
  }

  function ReferencedIds(p: Schedules.Payload): set<Queue.Id> { SnapshotIds(p.blocks) + SnapshotIds(p.exceptions) }

  ghost predicate ListsReferenced(table: Table, p: Schedules.Payload, scheduled: seq<Queue.Id>) {
    forall id :: id in scheduled <==> id in ReferencedIds(p) && id in table
  }

  // The references and assets of a zone snapshot whose channel has these relations and whose
  // schedule has this payload. The order in which the schedule's snapshots are read is open.
  ghost predicate Assembled(
    table: Table, relations: seq<Queue.Reference>, p: Schedules.Payload, refs: seq<Queue.Reference>,
    assets: seq<Queue.SnapshotAsset>)
  {
    && (forall r :: r in refs ==> r.playlist in table)
    && assets == Queue.Frozen(table, refs)
    && exists scheduled :: ListsReferenced(table, p, scheduled)
         && refs == Queue.Included(Queue.Included([], relations), Queue.AsReferences(scheduled))
  }

  // _zone_operational_snapshot_payload
  method AssembleSnapshot(table: Table, relations: seq<Queue.Reference>, p: Schedules.Payload)
    returns (refs: seq<Queue.Reference>, assets: seq<Queue.SnapshotAsset>)
    requires forall r :: r in relations ==> r.playlist in table
    ensures Assembled(table, relations, p, refs, assets)
  {
    var todo := ReferencedIds(p) * table.Keys;
    var scheduled := [];
    while todo != {}
      invariant forall id :: id in scheduled || id in todo <==> id in ReferencedIds(p) && id in table
      decreases todo
    {
      var id :| id in todo;
      scheduled := scheduled + [id];
      todo := todo - {id};
    }
    var builder := new Queue.PayloadBuilder(table);
    builder.IncludeAll(relations, scheduled);
    refs, assets := builder.references, builder.assets;
    assert ListsReferenced(table, p, scheduled);
  }

  lemma AssembledIsComplete(
    table: Table, relations: seq<Queue.Reference>, p: Schedules.Payload, refs: seq<Queue.Reference>,
    assets: seq<Queue.SnapshotAsset>, id: Queue.Id)
    requires Assembled(table, relations, p, refs, assets) && id in ReferencedIds(p) && id in table
    ensures Queue.DistinctReferences(refs) && id in Queue.Playlists(refs)
  {
    var scheduled :| ListsReferenced(table, p, scheduled)
      && refs == Queue.Included(Queue.Included([], relations), Queue.AsReferences(scheduled));
    Queue.IncludedOnce([], relations);
    Queue.IncludedOnce(Queue.Included([], relations), Queue.AsReferences(scheduled));
    var i :| 0 <= i < |scheduled| && scheduled[i] == id;
    assert Queue.AsReferences(scheduled)[i] in Queue.AsReferences(scheduled);
  }

  // Two zone snapshots of one payload that read the schedule's playlist snapshots in different
  // orders play alike.
  lemma AssemblyOrderIsImmaterial(
    table: Table, relations: seq<Queue.Reference>, p: Schedules.Payload, c: Content, d: Content,
    decision: Schedules.Decision, now: int)
    requires Queue.SoundTable(table) && d == c.(refs := d.refs, assets := d.assets)
    requires Assembled(table, relations, p, c.refs, c.assets) && Assembled(table, relations, p, d.refs, d.assets)
    ensures OutcomeOf(c, decision, now) == OutcomeOf(d, decision, now)
  {
    if decision.Play? {
      AssembliesPermuted(table, relations, p, c.refs, c.assets, d.refs, d.assets);
      SameQueue(c, d, decision.snapshot, now);
    }
  }

  lemma SameQueue(c: Content, d: Content, playlist: Option<Queue.Id>, now: int)
    requires d == c.(refs := d.refs, assets := d.assets)
    requires Queue.DistinctReferences(c.refs) && Queue.DistinctReferences(d.refs)
    requires multiset(c.refs) == multiset(d.refs)
    requires Queue.DistinctSlots(c.assets) && multiset(c.assets) == multiset(d.assets)
    ensures Queue.QueueOf(InputFor(c, playlist, now), c.score, c.assets)
         == Queue.QueueOf(InputFor(d, playlist, now), d.score, d.assets)
  {
    Queue.QueueIgnoresReferenceOrder(InputFor(c, playlist, now), InputFor(d, playlist, now), c.score, c.assets);
    Queue.QueueIsCanonical(InputFor(d, playlist, now), c.score, c.assets, d.assets);
  }

  lemma AssembliesPermuted(
    table: Table, relations: seq<Queue.Reference>, p: Schedules.Payload,
    r: seq<Queue.Reference>, a: seq<Queue.SnapshotAsset>, q: seq<Queue.Reference>, b: seq<Queue.SnapshotAsset>)
    requires Queue.SoundTable(table) && Assembled(table, relations, p, r, a) && Assembled(table, relations, p, q, b)
    ensures Queue.DistinctReferences(r) && Queue.DistinctReferences(q) && multiset(r) == multiset(q)
    ensures Queue.DistinctSlots(a) && multiset(a) == multiset(b)
  {
    var start := Queue.Included([], relations);
    var x :| ListsReferenced(table, p, x) && r == Queue.Included(start, Queue.AsReferences(x));
    var y :| ListsReferenced(table, p, y) && q == Queue.Included(start, Queue.AsReferences(y));
    Queue.IncludedOnce([], relations);
    Queue.IncludedOnce(start, Queue.AsReferences(x));
    Queue.IncludedOnce(start, Queue.AsReferences(y));
    Queue.IncludedPermuted(start, x, y);
    Queue.FrozenIsDistinct(table, r);
    Queue.FrozenPermuted(table, r, q);
  }

  // ---------- the player resolves what is scheduled ----------

  // The items of the playlist snapshot's own row that the manifest lists.
  function ListedOf(c: Content, table: Table, snapshot: Queue.Id): seq<Queue.QueueItem>
    requires snapshot in table
  {
    Queue.ListedItems(c.manifest, Queue.FrozenItems(snapshot, table[snapshot]))
  }

  // The queue holds all of them, each as often as it is listed there, while the window that the
  // channel sets for the playlist snapshot is open or none is set, and nothing while it is closed.
  ghost predicate PlaysExactly(
    c: Content, table: Table, relations: seq<Queue.Reference>, queue: seq<Queue.QueueItem>, snapshot: Queue.Id,
    now: int)
  {
    && snapshot in table
    && (if Queue.Open(relations, snapshot, now) then multiset(queue) == multiset(ListedOf(c, table, snapshot))
        else queue == [])
    && forall i :: 0 <= i < |queue| ==> queue[i].playlist == snapshot && queue[i].duration > 0
  }

  lemma QueueOfSnapshot(
    c: Content, table: Table, relations: seq<Queue.Reference>, p: Schedules.Payload, snapshot: Queue.Id, now: int)
    requires Assembled(table, relations, p, c.refs, c.assets)
    requires snapshot in table && snapshot in ReferencedIds(p)
    ensures PlaysExactly(
      c, table, relations, Queue.QueueOf(InputFor(c, Some(snapshot), now), c.score, c.assets), snapshot, now)
  {
    var input := InputFor(c, Some(snapshot), now);
    var queue := Queue.QueueOf(input, c.score, c.assets);
    AssembledIsComplete(table, relations, p, c.refs, c.assets, snapshot);
    Queue.QueueIsPermutation(input, c.score, c.assets);
    Queue.EntriesOfSnapshot(input, table, c.refs, snapshot);
    var scheduled :| ListsReferenced(table, p, scheduled)
      && c.refs == Queue.Included(Queue.Included([], relations), Queue.AsReferences(scheduled));
    var items := Queue.FrozenItems(snapshot, table[snapshot]);
    Queue.ListedWhileOpen(input, relations, scheduled, snapshot, items);
    QueueIsOfSnapshot(c, snapshot, now);
    if !Queue.Open(relations, snapshot, now) {
      assert |multiset(queue)| == |queue|;
    }
  }

  lemma QueueIsOfSnapshot(c: Content, snapshot: Queue.Id, now: int)
    ensures var queue := Queue.QueueOf(InputFor(c, Some(snapshot), now), c.score, c.assets);
      forall i :: 0 <= i < |queue| ==> queue[i].playlist == snapshot && queue[i].duration > 0
  {
    var input := InputFor(c, Some(snapshot), now);
    var queue := Queue.QueueOf(input, c.score, c.assets);
    Queue.QueueIsPermutation(input, c.score, c.assets);
    Queue.QueueFeedsClock(input, c.score, c.assets);
    var entries := Queue.Entries(input, c.assets);
    Queue.EntriesPlayable(input, c.assets);
    forall i | 0 <= i < |queue| ensures queue[i].playlist == snapshot && queue[i].duration > 0 {
      assert queue[i] in multiset(queue);
      var j :| 0 <= j < |entries| && Queue.Items(entries)[j] == queue[i];
      assert entries[j] in entries;
      assert Queue.Durations(queue)[i] > 0;
    }
  }

  // All listed items of the decided playlist snapshot are queued exactly while its window is
  // open, unless there is nothing to queue.
  lemma AllListedIffOpen(
    c: Content, table: Table, relations: seq<Queue.Reference>, p: Schedules.Payload, snapshot: Queue.Id, now: int)
    requires Assembled(table, relations, p, c.refs, c.assets)
    requires snapshot in table && snapshot in ReferencedIds(p)
    ensures multiset(Queue.QueueOf(InputFor(c, Some(snapshot), now), c.score, c.assets))
              == multiset(ListedOf(c, table, snapshot))
      <==> Queue.Open(relations, snapshot, now) || ListedOf(c, table, snapshot) == []
  {
    QueueOfSnapshot(c, table, relations, p, snapshot, now);
    assert |multiset(ListedOf(c, table, snapshot))| == |ListedOf(c, table, snapshot)|;
  }

  // What the entry selected in the database asks for.
  ghost predicate Obeys(
    s: Schedules.State, c: Content, table: Table, relations: seq<Queue.Reference>, pick: Schedules.Pick, now: int,
    r: Outcome)
  {
    match pick
    case NoEntry => r == Blocked(NoScheduleContent)
    case FromException(id) => id in s.exceptions && ObeysEntry(s, c, table, relations, s.exceptions[id], now, r)
    case FromBlock(id) => id in s.blocks && ObeysEntry(s, c, table, relations, s.blocks[id], now, r)
  }

  ghost predicate ObeysEntry(
    s: Schedules.State, c: Content, table: Table, relations: seq<Queue.Reference>, e: Schedules.Entry, now: int,
    r: Outcome)
  {
    if e.kind.IsSilence() then r == Blocked(ScheduledSilence)
    else
      && e.playlist.Some? && e.playlist.value in s.latest
      && r.Ready? && PlaysExactly(c, table, relations, r.queue, s.latest[e.playlist.value], now)
  }

  // Every published playlist snapshot has its row.
  ghost predicate Stored(s: Schedules.State, table: Table) {
    forall playlist :: playlist in s.latest ==> s.latest[playlist] in table
  }

  // Edit a schedule in any way, publish it, freeze a zone with it: at any instant the player
  // finds nothing to play, silence, or exactly the listed items of the newest snapshot of the
  // playlist that the database's resolver selects from the schedule as the player reads it,
  // while the channel does not close that playlist.
  lemma PlayerResolvesWhatIsScheduled(
    edits: seq<Schedules.Edit>, p: Schedules.Payload, table: Table, relations: seq<Queue.Reference>, c: Content,
    date: nat, t: Schedules.TimeOfDay, now: int)
    returns (pick: Schedules.Pick)
    requires var s := Schedules.Run(Schedules.NEW_SCHEDULE, edits);
      Schedules.IsPayload(s, p) && Stored(s, table)
    requires Assembled(table, relations, p, c.refs, c.assets)
    ensures var s := Schedules.Run(Schedules.NEW_SCHEDULE, edits);
      && Schedules.DjangoPicks(Schedules.AsSeen(s), date, t, pick)
      && (Schedules.WholeSeconds(s) && !Schedules.VolumeWins(s, date, t) ==> Schedules.DjangoPicks(s, date, t, pick))
      && Obeys(s, c, table, relations, pick, now,
               OutcomeOf(c, Schedules.GoResolve(p, date, t / Schedules.SECOND), now))
  {
    var s := Schedules.Run(Schedules.NEW_SCHEDULE, edits);
    Schedules.ReachableInv(edits);
    pick := Schedules.DjangoPickExists(Schedules.AsSeen(s), date, t);
    Schedules.PlayerFollowsContent(s, p, date, t, pick);
    if Schedules.WholeSeconds(s) {
      var selected := Schedules.DjangoPickExists(s, date, t);
      Schedules.WholeSecondsAgreeIff(s, p, date, t, selected);
      Schedules.MeaningHasSource(s, pick, Schedules.GoResolve(p, date, t / Schedules.SECOND));
    }
    PayloadReferences(s, p);
    MeaningIsObeyed(s, p, table, relations, c, pick, now, Schedules.GoResolve(p, date, t / Schedules.SECOND));
  }

  // A playlist snapshot that an entry names is among the payload's references.
  lemma EntryIsReferenced(
    s: Schedules.State, rows: map<Schedules.Id, Schedules.Entry>, q: seq<Schedules.PublishedEntry>, id: Schedules.Id)
    requires Schedules.Lists(s, rows, q) && id in rows && Schedules.LatestSnapshot(s, rows[id].playlist).Some?
    ensures Schedules.LatestSnapshot(s, rows[id].playlist).value in SnapshotIds(q)
  {
    assert Schedules.Published(s, id, rows[id]) in q;
  }

  ghost predicate References(s: Schedules.State, ids: set<Queue.Id>, rows: map<Schedules.Id, Schedules.Entry>) {
    forall id :: id in rows && Schedules.LatestSnapshot(s, rows[id].playlist).Some? ==>
      Schedules.LatestSnapshot(s, rows[id].playlist).value in ids
  }

  lemma PayloadReferences(s: Schedules.State, p: Schedules.Payload)
    requires Schedules.IsPayload(s, p)
    ensures References(s, ReferencedIds(p), s.exceptions) && References(s, ReferencedIds(p), s.blocks)
  {
    forall id | id in s.exceptions && Schedules.LatestSnapshot(s, s.exceptions[id].playlist).Some?
      ensures Schedules.LatestSnapshot(s, s.exceptions[id].playlist).value in ReferencedIds(p)
    {
      EntryIsReferenced(s, s.exceptions, p.exceptions, id);
    }
    forall id | id in s.blocks && Schedules.LatestSnapshot(s, s.blocks[id].playlist).Some?
      ensures Schedules.LatestSnapshot(s, s.blocks[id].playlist).value in ReferencedIds(p)
    {
      EntryIsReferenced(s, s.blocks, p.blocks, id);
    }
  }

  lemma EntryIsObeyed(
    s: Schedules.State, p: Schedules.Payload, table: Table, relations: seq<Queue.Reference>, c: Content,
    e: Schedules.Entry, block: bool, source: Schedules.Pick, now: int)
    requires Schedules.Sound(s, e, block) && e.kind != Schedules.VolumeException
    requires Stored(s, table) && Assembled(table, relations, p, c.refs, c.assets)
    requires Schedules.LatestSnapshot(s, e.playlist).Some? ==>
      Schedules.LatestSnapshot(s, e.playlist).value in ReferencedIds(p)
    ensures ObeysEntry(
      s, c, table, relations, e, now,
      OutcomeOf(c, if e.kind.IsSilence() then Schedules.Silence(source)
                   else Schedules.Play(Schedules.LatestSnapshot(s, e.playlist), source), now))
  {
    if !e.kind.IsSilence() {
      QueueOfSnapshot(c, table, relations, p, s.latest[e.playlist.value], now);
    }
  }

  lemma MeaningIsObeyed(
    s: Schedules.State, p: Schedules.Payload, table: Table, relations: seq<Queue.Reference>, c: Content,
    pick: Schedules.Pick, now: int, decision: Schedules.Decision)
    requires Schedules.Inv(s) && Stored(s, table) && Assembled(table, relations, p, c.refs, c.assets)
    requires Schedules.Meaning(s, pick) == Some(decision)
    requires References(s, ReferencedIds(p), s.exceptions) && References(s, ReferencedIds(p), s.blocks)
    ensures Obeys(s, c, table, relations, pick, now, OutcomeOf(c, decision, now))
  {
    match pick
    case NoEntry =>
    case FromException(id) => EntryIsObeyed(s, p, table, relations, c, s.exceptions[id], false, pick, now);
    case FromBlock(id) => EntryIsObeyed(s, p, table, relations, c, s.blocks[id], true, pick, now);
  }

  function OutcomeItems(r: Outcome): seq<Queue.QueueItem> { if r.Ready? then r.queue else [] }

  lemma OutcomeIsListed(c: Content, decision: Schedules.Decision, now: int)
    ensures var items := OutcomeItems(OutcomeOf(c, decision, now));
      forall i :: 0 <= i < |items| ==> Queue.Names(c.manifest, items[i].asset)
  {
    if decision.Play? {
      Queue.QueueIsListed(InputFor(c, decision.snapshot, now), c.score, c.assets);
    }
  }

  // A channel that plays the scheduled playlist's snapshot only until 100 empties the schedule's
  // own block from then on, although the manifest lists its item.
  const ROWS: Table := map[7 := [Queue.SnapshotItem(5, 1, 1, Some(9))]]
  const UNTIL_100 := Queue.Reference(7, 1, 0, None, Some(100))

  lemma MorningIsReferenced(p: Schedules.Payload)
    requires Schedules.IsPayload(Schedules.DIVERGING, p)
    ensures 7 in ReferencedIds(p)
  {
    EntryIsReferenced(Schedules.DIVERGING, Schedules.DIVERGING.blocks, p.blocks, 1);
  }

  lemma MorningIsListed(c: Content)
    requires c.manifest == [Queue.ManifestItem(9, Some(3000))]
    ensures ListedOf(c, ROWS, 7) == [Queue.QueueItem(9, 3000, 7, 5)]
  {
    var item := Queue.SnapshotAsset(7, 5, Some(9), 1, 1);
    assert Queue.FrozenItems(7, ROWS[7]) == [item] && [item][1..] == [];
    assert Queue.ListedItems(c.manifest, []) == [];
  }

  lemma ClosedRelationEmptiesSchedule(p: Schedules.Payload, c: Content)
    requires Schedules.IsPayload(Schedules.DIVERGING, p)
    requires Assembled(ROWS, [UNTIL_100], p, c.refs, c.assets)
    requires c.manifest == [Queue.ManifestItem(9, Some(3000))]
    ensures Schedules.GoResolve(p, 1, Schedules.NINE / Schedules.SECOND)
         == Schedules.Play(Some(7), Schedules.FromBlock(1))
    ensures OutcomeOf(c, Schedules.Play(Some(7), Schedules.FromBlock(1)), 200) == Ready([])
    ensures ListedOf(c, ROWS, 7) == [Queue.QueueItem(9, 3000, 7, 5)]
  {
    Schedules.ResolversDiverge(p);
    MorningIsReferenced(p);
    MorningIsListed(c);
    EmptyWhenClosed(c, p, 200);
  }

  lemma EmptyWhenClosed(c: Content, p: Schedules.Payload, now: int)
    requires Assembled(ROWS, [UNTIL_100], p, c.refs, c.assets) && 7 in ReferencedIds(p) && now >= 100
    ensures Queue.QueueOf(InputFor(c, Some(7), now), c.score, c.assets) == []
  {
    assert [UNTIL_100][..0] == [];
    assert Queue.FirstRelation([UNTIL_100], 7) == Some(UNTIL_100);
    QueueOfSnapshot(c, ROWS, [UNTIL_100], p, 7, now);
  }

  // Where a queue is at a given millisecond, without a continuation token.
  method CurrentItem(queue: seq<Queue.QueueItem>, nowMs: int) returns (index: nat, position: int)
    requires PlaybackClock.IsInt64(nowMs)
    ensures var d := Queue.Durations(queue);
      PlaybackClock.Playable(d) ==>
        PlaybackClock.OnAirAt(d, nowMs, index) && (nowMs >= 0 ==> 0 <= position < queue[index].duration)
  {
    index, position := PlaybackClock.DeterministicPosition(Queue.Durations(queue), nowMs);
  }
}
