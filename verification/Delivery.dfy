// From the assignments to the music: what a device is given after any joint run, and how that
// compares with what the schedule in charge asks for.
module Delivery {
  import opened Wrappers
  import Assignments
  import Governing
  import Playback
  import Playing
  import Queue
  import Schedules
  import Sorting

  type Id = nat

  // Published versions never change: what version of a channel brings which playlist snapshots,
  // and what version of a schedule has which payload.
  datatype Archive = Archive(
    relations: (Id, nat) -> seq<Queue.Reference>, payload: (Id, nat) -> Schedules.Payload)

  function RelationsOf(archive: Archive, channel: Option<Id>, version: Option<nat>): seq<Queue.Reference> {
    if channel.Some? && version.Some? then archive.relations(channel.value, version.value) else []
  }

  // The content was frozen for this zone snapshot.
  ghost predicate FrozenFor(archive: Archive, table: Playing.Table, z: Playback.ZoneSnapshot, c: Playing.Content) {
    z.schedule.Some? ==>
      Playing.Assembled(table, RelationsOf(archive, z.channel, z.channelVersion),
                        archive.payload(z.schedule.value.schedule, z.schedule.value.version), c.refs, c.assets)
  }

  // The manifest handed out lists these assets.
  ghost predicate ListedIn(m: Playback.Manifest, items: seq<Queue.ManifestItem>) {
    && (forall x :: x in items ==> x.asset in m.items)
    && (forall a :: a in m.items ==> Queue.Names(items, a))
  }

  // c is what a runtime carries.
  ghost predicate Carries(archive: Archive, table: Playing.Table, r: Playback.Runtime, c: Playing.Content) {
    && (r.snapshot.Some? ==> FrozenFor(archive, table, r.snapshot.value, c))
    && (r.manifest.Some? ==> ListedIn(r.manifest.value, c.manifest))
  }

  // The newest relations of the channel that is open on a zone.
  function OpenRelations(archive: Archive, z: Playback.State, zone: Id): seq<Queue.Reference>
    requires zone in z.zones
  {
    RelationsOf(archive, z.zones[zone].open, Playback.LatestChannelVersion(z, z.zones[zone].open))
  }

  // The newest payload of a schedule.
  function NewestPayload(archive: Archive, z: Playback.State, schedule: Id): Schedules.Payload
    requires schedule in z.schedules
  {
    archive.payload(schedule, z.schedules[schedule].version)
  }

  // The content that reaches a device is made of the newest relations of the channel open on its
  // zone and of the newest payload of the schedule that the assignments put in charge.
  lemma ContentIsNewest<C>(
    clock: int, events: seq<Governing.Event>, q: Governing.Request<C>, archive: Archive, table: Playing.Table,
    c: Playing.Content)
    returns (schedule: Id)
    requires var s := Governing.Run(clock, events);
      && Governing.Served(s, q) && Governing.AnswerTo(s, q).Effective?
      && Carries(archive, table, Governing.RuntimeNow(s, q).value.1, c)
    ensures var s := Governing.Run(clock, events);
      && Governing.ScheduleOf(Governing.AnswerTo(s, q)) == Some(schedule)
      && schedule in s.zones.schedules && s.zones.schedules[schedule].hasSnapshot
      && Playing.Assembled(table, OpenRelations(archive, s.zones, q.zone.id),
                           NewestPayload(archive, s.zones, schedule), c.refs, c.assets)
  {
    var s := Governing.Run(clock, events);
    Governing.RuntimeFollowsAssignments(clock, events, q);
    Governing.ReachableInv(clock, events);
    Governing.GoverningHasVersion(s, q.zone, s.zones.clock, q.localDate, q.rows, q.content);
    schedule := Governing.AnswerTo(s, q).row.a.schedule;
  }

  // ---------- what the device is given ----------

  // build: a runtime without a manifest or with a reason is passed on without items.
  datatype Outcome = Withheld(reason: Playback.Reason) | Given(outcome: Playing.Outcome)

  function DeviceOutcome(
    archive: Archive, r: Playback.Runtime, c: Playing.Content, date: nat, second: int, now: int): Outcome
  {
    if r.manifest.None? || r.reason != Playback.NoReason || r.snapshot.None? || r.snapshot.value.schedule.None? then
      Withheld(r.reason)
    else
      var published := r.snapshot.value.schedule.value;
      Given(Playing.OutcomeOf(
        c, Schedules.GoResolve(archive.payload(published.schedule, published.version), date, second), now))
  }

  function Items(o: Outcome): seq<Queue.QueueItem> {
    match o
    case Withheld(_) => []
    case Given(x) => Playing.OutcomeItems(x)
  }

  // What the newest version of a schedule asks for.
  function AskedFor(
    archive: Archive, z: Playback.State, schedule: Id, c: Playing.Content, date: nat, second: int): Playing.Outcome
    requires schedule in z.schedules
  {
    Playing.OutcomeOf(c, Schedules.GoResolve(NewestPayload(archive, z, schedule), date, second), z.clock)
  }

  // What is played of a content is listed by the manifest it came with.
  lemma PlayedIsListed(m: Playback.Manifest, c: Playing.Content, decision: Schedules.Decision, now: int)
    requires ListedIn(m, c.manifest)
    ensures var items := Playing.OutcomeItems(Playing.OutcomeOf(c, decision, now));
      && (forall i :: 0 <= i < |items| ==> items[i].asset in m.items)
      && (items != [] ==> items[0].asset in m.items)
  {
    Playing.OutcomeIsListed(c, decision, now);
    var items := Playing.OutcomeItems(Playing.OutcomeOf(c, decision, now));
    forall i | 0 <= i < |items| ensures items[i].asset in m.items {
      assert Queue.Names(c.manifest, items[i].asset);
    }
  }

  // With a schedule in charge, a device is given what the schedule asks for when its zone has an
  // open channel and its manifest lists anything, and otherwise nothing, with the reason. So its
  // items are the schedule's exactly when a channel is open or the schedule asks for none.
  lemma GivenIffChannelOpen<C>(
    clock: int, events: seq<Governing.Event>, q: Governing.Request<C>, archive: Archive, table: Playing.Table,
    c: Playing.Content, date: nat, second: int)
    returns (schedule: Id)
    requires var s := Governing.Run(clock, events);
      && Governing.Served(s, q) && Governing.AnswerTo(s, q).Effective?
      && Carries(archive, table, Governing.RuntimeNow(s, q).value.1, c)
    ensures var s := Governing.Run(clock, events);
      var r := Governing.RuntimeNow(s, q).value.1;
      var device := DeviceOutcome(archive, r, c, date, second, s.zones.clock);
      var open := s.zones.zones[q.zone.id].open;
      && Governing.ScheduleOf(Governing.AnswerTo(s, q)) == Some(schedule)
      && schedule in s.zones.schedules && r.manifest.Some?
      && var asked := AskedFor(archive, s.zones, schedule, c, date, second);
         && device == (if open.None? then Withheld(Playback.NoChannelAssigned)
                       else if r.manifest.value.status != Playback.ManifestReady then Withheld(Playback.NoAvailableAssets)
                       else Given(asked))
         && (Items(device) == Playing.OutcomeItems(asked) <==> open.Some? || Playing.OutcomeItems(asked) == [])
  {
    var s := Governing.Run(clock, events);
    var r := Governing.RuntimeNow(s, q).value.1;
    Governing.RuntimeFollowsAssignments(clock, events, q);
    schedule := ContentIsNewest(clock, events, q, archive, table, c);
    if r.manifest.value.items == {} {
      PlayedIsListed(
        r.manifest.value, c, Schedules.GoResolve(NewestPayload(archive, s.zones, schedule), date, second), s.zones.clock);
    }
  }

  // With nothing in charge a device is given nothing.
  lemma NothingInChargeWithholds<C>(
    clock: int, events: seq<Governing.Event>, q: Governing.Request<C>, archive: Archive, c: Playing.Content,
    date: nat, second: int)
    requires Governing.Served(Governing.Run(clock, events), q)
    requires Governing.AnswerTo(Governing.Run(clock, events), q).NothingAssigned?
    ensures var s := Governing.Run(clock, events);
      DeviceOutcome(archive, Governing.RuntimeNow(s, q).value.1, c, date, second, s.zones.clock)
      == Withheld(if Governing.RuntimeNow(s, q).value.1.snapshot.None? then Playback.NoPublishedConfiguration
                  else if s.zones.zones[q.zone.id].open.None? then Playback.NoChannelAssigned
                  else Playback.NoScheduleContent)
  {
    Governing.RuntimeFollowsAssignments(clock, events, q);
  }

  // Whatever a device is given to play, it may stream: each item's asset is listed by the manifest
  // through which the streaming endpoint authorises the device at that instant.
  lemma GivenItemsStream<C>(
    clock: int, events: seq<Governing.Event>, q: Governing.Request<C>, archive: Archive, table: Playing.Table,
    c: Playing.Content, date: nat, second: int)
    requires var s := Governing.Run(clock, events);
      Governing.Served(s, q) && Carries(archive, table, Governing.RuntimeNow(s, q).value.1, c)
    ensures var s := Governing.Run(clock, events);
      var (z, r) := Governing.RuntimeNow(s, q).value;
      var items := Items(DeviceOutcome(archive, r, c, date, second, s.zones.clock));
      items != [] ==>
        && Playback.StreamingManifest(z.manifests, s.zones.clock).Some?
        && forall i :: 0 <= i < |items| ==>
             items[i].asset in Playback.StreamingManifest(z.manifests, s.zones.clock).value.items
  {
    var s := Governing.Run(clock, events);
    var (z, r) := Governing.RuntimeNow(s, q).value;
    Governing.RuntimeFollowsAssignments(clock, events, q);
    var device := DeviceOutcome(archive, r, c, date, second, s.zones.clock);
    if device.Given? {
      var published := r.snapshot.value.schedule.value;
      PlayedIsListed(
        r.manifest.value, c, Schedules.GoResolve(archive.payload(published.schedule, published.version), date, second),
        s.zones.clock);
    }
  }

  // ---------- the schedule in charge ----------

  // The states in which the newest versions were published: reached by edits, and with all their
  // playlist snapshots in the table.
  ghost predicate PublishedBy(
    archive: Archive, z: Playback.State, table: Playing.Table, edits: Id -> seq<Schedules.Edit>)
  {
    forall k :: k in z.schedules && z.schedules[k].hasSnapshot ==>
      var published := Schedules.Run(Schedules.NEW_SCHEDULE, edits(k));
      Schedules.IsPayload(published, NewestPayload(archive, z, k)) && Playing.Stored(published, table)
  }

  // A device of a zone with an open channel does what the newest version of the schedule in charge
  // asks for; without one it is given nothing.
  lemma DeviceObeysScheduleInCharge<C>(
    clock: int, events: seq<Governing.Event>, q: Governing.Request<C>, archive: Archive, table: Playing.Table,
    c: Playing.Content, edits: Id -> seq<Schedules.Edit>, date: nat, t: Schedules.TimeOfDay)
    returns (schedule: Id, pick: Schedules.Pick)
    requires var s := Governing.Run(clock, events);
      && Governing.Served(s, q) && Governing.AnswerTo(s, q).Effective?
      && Carries(archive, table, Governing.RuntimeNow(s, q).value.1, c) && PublishedBy(archive, s.zones, table, edits)
    ensures var s := Governing.Run(clock, events);
      var published := Schedules.Run(Schedules.NEW_SCHEDULE, edits(schedule));
      var open := s.zones.zones[q.zone.id].open;
      var device := DeviceOutcome(
        archive, Governing.RuntimeNow(s, q).value.1, c, date, t / Schedules.SECOND, s.zones.clock);
      && Governing.ScheduleOf(Governing.AnswerTo(s, q)) == Some(schedule) && schedule in s.zones.schedules
      && Schedules.DjangoPicks(Schedules.AsSeen(published), date, t, pick)
      && (Schedules.WholeSeconds(published) && !Schedules.VolumeWins(published, date, t) ==>
            Schedules.DjangoPicks(published, date, t, pick))
      && var asked := AskedFor(archive, s.zones, schedule, c, date, t / Schedules.SECOND);
         && Playing.Obeys(
              published, c, table, OpenRelations(archive, s.zones, q.zone.id), pick, s.zones.clock, asked)
         && (Items(device) == Playing.OutcomeItems(asked) <==> open.Some? || Playing.OutcomeItems(asked) == [])
         && (open.None? ==> device == Withheld(Playback.NoChannelAssigned))
         && (device.Given? ==> device.outcome == asked)
  {
    var s := Governing.Run(clock, events);
    schedule := ContentIsNewest(clock, events, q, archive, table, c);
    pick := Playing.PlayerResolvesWhatIsScheduled(
      edits(schedule), NewestPayload(archive, s.zones, schedule), table, OpenRelations(archive, s.zones, q.zone.id),
      c, date, t, s.zones.clock);
    var same := GivenIffChannelOpen(clock, events, q, archive, table, c, date, t / Schedules.SECOND);
  }

  // ---------- the entry that the database resolves ----------

  // The schedules' rows as they are at the instant of the request, with their local dates and
  // times. A schedule's dates are the same in both views of its row.
  datatype Live = Live(
    rows: map<Id, Schedules.State>, date: Id -> nat, time: Id -> Schedules.TimeOfDay)

  function PickOf(found: Option<Schedules.Pick>): Schedules.Pick {
    if found.Some? then found.value else Schedules.NoEntry
  }

  // What the database resolver finds in each schedule: the entry that its ordered queries return
  // first, or nothing.
  ghost predicate Finds(plans: Assignments.State, live: Live, content: Id -> Option<Schedules.Pick>) {
    forall k :: k in plans.schedules ==>
      && k in live.rows
      && live.rows[k].validFrom == plans.schedules[k].validFrom
      && live.rows[k].validUntil == plans.schedules[k].validUntil
      && content(k) != Some(Schedules.NoEntry)
      && Schedules.DjangoPicks(live.rows[k], live.date(k), live.time(k), PickOf(content(k)))
  }

  lemma FindsSomething(plans: Assignments.State, live: Live) returns (content: Id -> Option<Schedules.Pick>)
    requires forall k :: k in plans.schedules ==>
      && k in live.rows
      && live.rows[k].validFrom == plans.schedules[k].validFrom
      && live.rows[k].validUntil == plans.schedules[k].validUntil
    ensures Finds(plans, live, content)
  {
    forall k | k in plans.schedules
      ensures exists pick :: Schedules.DjangoPicks(live.rows[k], live.date(k), live.time(k), pick)
    {
      var pick := Schedules.DjangoPickExists(live.rows[k], live.date(k), live.time(k));
    }
    var picks := map k | k in plans.schedules ::
      var pick :| Schedules.DjangoPicks(live.rows[k], live.date(k), live.time(k), pick); pick;
    content := (k: Id) =>
      if k in picks && picks[k] != Schedules.NoEntry then Some(picks[k]) else None;
  }

  // The request resolves on the live rows.
  ghost predicate ResolvesLive(s: Governing.State, q: Governing.Request<Schedules.Pick>, live: Live) {
    Finds(s.plans, live, q.content) && forall k :: q.localDate(k) == live.date(k)
  }

  // Assignments, the schedule's own resolver, publication, freezing and player together: while the
  // schedule in charge has not been edited since its newest version, keeps whole seconds and no
  // volume override comes first, a device of a zone with an open channel does what the very entry
  // asks for that the database resolver names.
  lemma DevicePlaysResolvedEntry(
    clock: int, events: seq<Governing.Event>, q: Governing.Request<Schedules.Pick>, archive: Archive,
    table: Playing.Table, c: Playing.Content, edits: Id -> seq<Schedules.Edit>, live: Live)
    requires var s := Governing.Run(clock, events);
      && Governing.Served(s, q) && Governing.AnswerTo(s, q).Effective?
      && Carries(archive, table, Governing.RuntimeNow(s, q).value.1, c) && PublishedBy(archive, s.zones, table, edits)
      && ResolvesLive(s, q, live)
      && var schedule := Governing.AnswerTo(s, q).row.a.schedule;
         var published := Schedules.Run(Schedules.NEW_SCHEDULE, edits(schedule));
         && schedule in live.rows && live.rows[schedule] == published && Schedules.WholeSeconds(published)
         && !Schedules.VolumeWins(published, live.date(schedule), live.time(schedule))
    ensures var s := Governing.Run(clock, events);
      var answer := Governing.AnswerTo(s, q);
      var schedule := answer.row.a.schedule;
      var open := s.zones.zones[q.zone.id].open;
      var second := live.time(schedule) / Schedules.SECOND;
      var device := DeviceOutcome(
        archive, Governing.RuntimeNow(s, q).value.1, c, live.date(schedule), second, s.zones.clock);
      && schedule in s.zones.schedules
      && var asked := AskedFor(archive, s.zones, schedule, c, live.date(schedule), second);
         && Playing.Obeys(
              live.rows[schedule], c, table, OpenRelations(archive, s.zones, q.zone.id), PickOf(answer.content),
              s.zones.clock, asked)
         && (Items(device) == Playing.OutcomeItems(asked) <==> open.Some? || Playing.OutcomeItems(asked) == [])
  {
    var s := Governing.Run(clock, events);
    var answer := Governing.AnswerTo(s, q);
    var k := answer.row.a.schedule;
    var schedule, pick := DeviceObeysScheduleInCharge(
      clock, events, q, archive, table, c, edits, live.date(k), live.time(k));
    AnswerFindsContent(clock, events, q);
    Schedules.ReachableInv(edits(k));
    Schedules.DjangoPickUnique(live.rows[k], live.date(k), live.time(k), pick, PickOf(answer.content));
  }

  lemma AnswerFindsContent<C>(clock: int, events: seq<Governing.Event>, q: Governing.Request<C>)
    requires var s := Governing.Run(clock, events); Governing.Served(s, q) && Governing.AnswerTo(s, q).Effective?
    ensures var s := Governing.Run(clock, events);
      var answer := Governing.AnswerTo(s, q);
      answer.content == q.content(answer.row.a.schedule) && answer.row.a.schedule in s.plans.schedules
  {
    var s := Governing.Run(clock, events);
    Governing.ReachableInv(clock, events);
    Governing.GoverningHasVersion(s, q.zone, s.zones.clock, q.localDate, q.rows, q.content);
  }

  // ---------- a zone without a channel ----------

  // A schedule is created, published and assigned to the whole company, and a zone is created that
  // never gets a channel.
  const EVERYWHERE := Assignments.Assignment(1, Assignments.CompanyScope, 0, false, None, None, true, 0)
  const PUBLISH := Assignments.Publish(1, true, 1)

  function Nowhere(): Playback.Effective { (z: Id) => None }

  function Story(): seq<Governing.Event> {
    [Governing.Plan(0, Assignments.CreateSchedule(1, None, None), Nowhere()),
     Governing.Plan(0, PUBLISH, Nowhere()),
     Governing.Plan(0, Assignments.Assign(10, EVERYWHERE, 2), Nowhere()),
     Governing.Play(Playback.Event(0, Playback.CreateZone(5)))]
  }

  function Channelless(clock: int): Governing.State {
    Governing.State(
      Assignments.State(
        map[1 := Assignments.Schedule(Assignments.Published, 3, None, None)], map[10 := EVERYWHERE]),
      Playback.State(
        map[], map[1 := Playback.Schedule(2, true)], map[5 := Playback.Zone(false, None, [], [])], clock))
  }

  function Asking(): Governing.Request<()> {
    Governing.Request(
      Assignments.Zone(5, 1), (k: Id) => 1, [Assignments.Row(10, EVERYWHERE)], (k: Id) => Some(()), false, {9}, 1)
  }

  lemma StoryPlans()
    ensures var created := Assignments.State(
        map[1 := Assignments.Schedule(Assignments.Draft, 1, None, None)], map[]);
      var published := Assignments.State(
        map[1 := Assignments.Schedule(Assignments.Published, 2, None, None)], map[]);
      && Assignments.Apply(Assignments.EMPTY, Assignments.CreateSchedule(1, None, None)) == Ok(created)
      && Assignments.Apply(created, PUBLISH) == Ok(published)
      && Assignments.Apply(published, Assignments.Assign(10, EVERYWHERE, 2)) == Ok(Channelless(0).plans)
  {
    var none: map<Id, Assignments.Assignment> := map[];
    assert Assignments.Clashing(none, 1) == {};
    assert Assignments.Conflicts(none, 10, EVERYWHERE) == {};
    var draft := Assignments.Schedule(Assignments.Draft, 1, None, None);
    var created := Assignments.State(map[1 := draft], none);
    assert Assignments.EMPTY.schedules[1 := draft] == map[1 := draft];
    assert Assignments.Apply(Assignments.EMPTY, Assignments.CreateSchedule(1, None, None)) == Ok(created);
    var marked := Assignments.WithStatus(created, 1, Assignments.Published);
    assert marked.schedules == map[1 := Assignments.Schedule(Assignments.Published, 1, None, None)];
    assert Assignments.Bump(marked, 1).schedules == map[1 := Assignments.Schedule(Assignments.Published, 2, None, None)];
    var published := Assignments.State(map[1 := Assignments.Schedule(Assignments.Published, 2, None, None)], none);
    assert Assignments.Apply(created, PUBLISH) == Ok(published);
    var placed := published.(assignments := none[10 := EVERYWHERE]);
    assert Assignments.Bump(placed, 1).schedules == map[1 := Assignments.Schedule(Assignments.Published, 3, None, None)];
  }

  lemma StoryZones(clock: int)
    ensures var created := Playback.Empty(clock).(schedules := map[1 := Playback.Schedule(1, false)]);
      var published := created.(schedules := map[1 := Playback.Schedule(2, true)]);
      && Playback.Step(Playback.Empty(clock), Playback.Event(0, Playback.CreateSchedule(1))) == created
      && Playback.Step(created, Playback.Event(0, Playback.PublishSchedule(1, true, Nowhere()))) == published
      && Playback.Tick(published, 0) == published
      && Playback.Step(published, Playback.Event(0, Playback.CreateZone(5))) == Channelless(clock).zones
  {
  }

  lemma RunNext(clock: int, before: seq<Governing.Event>, e: Governing.Event)
    ensures Governing.Run(clock, before + [e]) == Governing.Step(Governing.Run(clock, before), e)
  {
    assert (before + [e])[..|before|] == before;
  }

  lemma StoryEnds(clock: int)
    ensures Governing.Run(clock, Story()) == Channelless(clock)
  {
    StoryPlans();
    StoryZones(clock);
    var e := Story();
    RunNext(clock, [], e[0]);
    RunNext(clock, [e[0]], e[1]);
    RunNext(clock, [e[0], e[1]], e[2]);
    RunNext(clock, [e[0], e[1], e[2]], e[3]);
    assert [] + [e[0]] == [e[0]] && [e[0]] + [e[1]] == [e[0], e[1]];
    assert [e[0], e[1]] + [e[2]] == [e[0], e[1], e[2]] && [e[0], e[1], e[2]] + [e[3]] == e;
  }

  // The company-wide assignment puts schedule 1 in charge of the zone.
  lemma StoryAnswer(clock: int)
    ensures var s := Channelless(clock);
      && Assignments.Lists(s.plans, Asking().rows)
      && Governing.AnswerTo(s, Asking()) == Assignments.Effective(Assignments.Row(10, EVERYWHERE), Some(()))
  {
    var s := Channelless(clock);
    var q := Asking();
    var none: seq<Assignments.Row> := [];
    assert q.rows[1..] == none;
    assert Assignments.Candidate(s.plans, q.zone, clock, q.localDate, q.rows[0]);
    assert Assignments.Candidates(s.plans, q.zone, clock, q.localDate, none) == none;
    assert Assignments.Candidates(s.plans, q.zone, clock, q.localDate, q.rows) == q.rows;
    assert Sorting.StableSort(none, Assignments.ByKey()) == none;
    assert Sorting.StableSort(q.rows, Assignments.ByKey()) == q.rows;
  }

  // The request freezes a snapshot with the schedule and makes a READY manifest.
  lemma StoryRuntime(clock: int)
    ensures var z := Channelless(clock).zones;
      var f := Playback.Fetch(z, z.zones[5], false, {9}, clock, 1, Some(1));
      && f.Ok? && f.value.1.manifest.Some? && f.value.1.manifest.value.items == {9}
      && f.value.1.manifest.value.status == Playback.ManifestReady
      && f.value.1.snapshot.Some? && f.value.1.snapshot.value.channel == None
      && f.value.1.snapshot.value.schedule == Some(Playback.ScheduleSnapshot(1, 2))
  {
    var z := Channelless(clock).zones;
    Playback.RolledOverIsCurrent(z, z.zones[5], Some(1));
    var snapshots: seq<Playback.ZoneSnapshot> := [];
    assert Playback.Highest([]) == 0;
    assert Playback.RolledOver(z, z.zones[5], Some(1)).snapshots == [
      Playback.ZoneSnapshot(1, Playback.Ready, None, None, Some(Playback.ScheduleSnapshot(1, 2)))];
  }

  lemma OnlyOne(queue: seq<Queue.QueueItem>, item: Queue.QueueItem)
    requires multiset(queue) == multiset([item])
    ensures queue == [item]
  {
    assert |queue| == |multiset(queue)| == |multiset([item])| == 1;
    assert queue[0] in multiset(queue);
  }

  lemma StoryQueue(p: Schedules.Payload, c: Playing.Content, now: int)
    requires 7 in Playing.ReferencedIds(p) && Playing.Assembled(Playing.ROWS, [], p, c.refs, c.assets)
    requires c.manifest == [Queue.ManifestItem(9, Some(3000))]
    ensures Queue.QueueOf(Playing.InputFor(c, Some(7), now), c.score, c.assets) == [Queue.QueueItem(9, 3000, 7, 5)]
  {
    Playing.MorningIsListed(c);
    Playing.QueueOfSnapshot(c, Playing.ROWS, [], p, 7, now);
    assert Queue.Open([], 7, now);
    OnlyOne(Queue.QueueOf(Playing.InputFor(c, Some(7), now), c.score, c.assets), Queue.QueueItem(9, 3000, 7, 5));
  }

  // What the schedule asks for is one item, and the manifest lists it.
  lemma StoryAsks(p: Schedules.Payload, c: Playing.Content, now: int)
    requires Schedules.IsPayload(Schedules.DIVERGING, p)
    requires Playing.Assembled(Playing.ROWS, [], p, c.refs, c.assets)
    requires c.manifest == [Queue.ManifestItem(9, Some(3000))]
    ensures Playing.OutcomeOf(c, Schedules.GoResolve(p, 1, Schedules.NINE / Schedules.SECOND), now)
         == Playing.Ready([Queue.QueueItem(9, 3000, 7, 5)])
  {
    Schedules.ResolversDiverge(p);
    Playing.MorningIsReferenced(p);
    StoryQueue(p, c, now);
  }

  function OnePayload(p: Schedules.Payload): Archive {
    Archive((k: Id, v: nat) => [], (k: Id, v: nat) => p)
  }

  // A request whose runtime is complete but for the channel: READY manifest, schedule in charge.
  ghost predicate LacksChannelOnly(s: Governing.State, archive: Archive, c: Playing.Content) {
    && Governing.Served(s, Asking())
    && Governing.ScheduleOf(Governing.AnswerTo(s, Asking())) == Some(1) && 1 in s.zones.schedules
    && var r := Governing.RuntimeNow(s, Asking()).value.1;
       && Carries(archive, Playing.ROWS, r, c)
       && r.manifest.Some? && r.manifest.value.status == Playback.ManifestReady
  }

  lemma StoryLacksChannel(clock: int, p: Schedules.Payload, c: Playing.Content)
    requires Playing.Assembled(Playing.ROWS, [], p, c.refs, c.assets)
    requires c.manifest == [Queue.ManifestItem(9, Some(3000))]
    ensures LacksChannelOnly(Channelless(clock), OnePayload(p), c)
  {
    StoryAnswer(clock);
    StoryRuntime(clock);
    assert Queue.Names(c.manifest, 9) by {
      assert c.manifest[0].asset == 9;
    }
  }

  // The device of that zone is given nothing, although the schedule in charge asks for an item
  // that its READY manifest lists.
  lemma NoChannelNoMusic(clock: int, p: Schedules.Payload, c: Playing.Content)
    requires Schedules.IsPayload(Schedules.DIVERGING, p)
    requires Playing.Assembled(Playing.ROWS, [], p, c.refs, c.assets)
    requires c.manifest == [Queue.ManifestItem(9, Some(3000))]
    ensures var s := Governing.Run(clock, Story());
      var second := Schedules.NINE / Schedules.SECOND;
      && LacksChannelOnly(s, OnePayload(p), c)
      && DeviceOutcome(OnePayload(p), Governing.RuntimeNow(s, Asking()).value.1, c, 1, second, s.zones.clock)
         == Withheld(Playback.NoChannelAssigned)
      && AskedFor(OnePayload(p), s.zones, 1, c, 1, second) == Playing.Ready([Queue.QueueItem(9, 3000, 7, 5)])
  {
    var second := Schedules.NINE / Schedules.SECOND;
    StoryEnds(clock);
    StoryAnswer(clock);
    StoryLacksChannel(clock, p, c);
    var schedule := GivenIffChannelOpen(clock, Story(), Asking(), OnePayload(p), Playing.ROWS, c, 1, second);
    StoryAsks(p, c, clock);
  }
}
