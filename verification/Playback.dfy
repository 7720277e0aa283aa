// Published channels and schedules, materialised per zone: operational snapshots, content
// manifests and the runtime a device receives.
module Playback {
  import opened Wrappers

  type Id = nat

  datatype ChannelStatus = Draft | Published | Archived

  // snapshots holds the checksum of each published version; version k is at index k - 1.
  datatype Channel = Channel(status: ChannelStatus, revision: nat, snapshots: seq<nat>)

  // version is the newest published version once there is a snapshot.
  datatype Schedule = Schedule(version: nat, hasSnapshot: bool)

  datatype ScheduleSnapshot = ScheduleSnapshot(schedule: Id, version: nat)

  datatype SnapshotStatus = Ready | Superseded

  datatype ZoneSnapshot = ZoneSnapshot(
    version: nat, status: SnapshotStatus, channel: Option<Id>, channelVersion: Option<nat>,
    schedule: Option<ScheduleSnapshot>)

  datatype ManifestStatus = ManifestReady | ManifestError | ManifestSuperseded

  // items are the assets that a device may stream through the manifest.
  datatype Manifest = Manifest(
    version: nat, snapshot: nat, status: ManifestStatus, generatedAt: int, expiresAt: int, items: set<Id>)

  datatype Zone = Zone(archived: bool, open: Option<Id>, snapshots: seq<ZoneSnapshot>, manifests: seq<Manifest>)

  datatype State = State(
    channels: map<Id, Channel>, schedules: map<Id, Schedule>, zones: map<Id, Zone>, clock: int)

  datatype Error =
    | NotFound | NotPublishable | RevisionConflict | AssignmentInvalid | ChannelInUse
    | NoZone | ManifestExpired

  datatype Reason = NoReason | NoPublishedConfiguration | NoChannelAssigned | NoScheduleContent | NoAvailableAssets

  datatype Runtime = Runtime(reason: Reason, snapshot: Option<ZoneSnapshot>, manifest: Option<Manifest>)

  // effective is the outcome of schedule resolution per zone at the instant of the step.
  type Effective = Id -> Option<Id>

  datatype Action =
    | CreateChannel(channel: Id)
    | CreateZone(zone: Id)
    | CreateSchedule(schedule: Id)
    | PublishChannel(channel: Id, checksum: nat, publishable: bool, expected: Option<nat>, effective: Effective)
    | ArchiveChannel(channel: Id, revision: nat)
    | ReactivateChannel(channel: Id, revision: nat)
    | AssignChannel(zone: Id, channel: Id, effective: Effective)
    | UnassignChannel(zone: Id, effective: Effective)
    | ArchiveZone(zone: Id)
    | PublishSchedule(schedule: Id, publishable: bool, effective: Effective)
    | FetchRuntime(zone: Id, force: bool, assets: set<Id>, ttl: int, effective: Effective)

  // ---------- zone snapshots ----------

  function Highest(versions: seq<nat>): (v: nat)
    ensures forall r :: r in versions ==> r <= v
    ensures versions != [] ==> v in versions
  {
    if versions == [] then 0
    else
      var rest := Highest(versions[1..]);
      assert versions == [versions[0]] + versions[1..];
      if versions[0] > rest || versions[1..] == [] then versions[0] else rest
  }

  function HighestVersion(rows: seq<ZoneSnapshot>): nat {
    Highest(seq(|rows|, i requires 0 <= i < |rows| => rows[i].version))
  }

  function Retired(rows: seq<ZoneSnapshot>): (r: seq<ZoneSnapshot>)
    ensures |r| == |rows|
  {
    seq(|rows|, i requires 0 <= i < |rows| => rows[i].(status := Superseded))
  }

  function LatestChannelVersion(s: State, channel: Option<Id>): Option<nat> {
    if channel.Some? && channel.value in s.channels && s.channels[channel.value].snapshots != [] then
      Some(|s.channels[channel.value].snapshots|)
    else None
  }

  function LatestSchedule(s: State, schedule: Option<Id>): Option<ScheduleSnapshot> {
    if schedule.Some? && schedule.value in s.schedules && s.schedules[schedule.value].hasSnapshot then
      Some(ScheduleSnapshot(schedule.value, s.schedules[schedule.value].version))
    else None
  }

  // create_zone_operational_snapshot
  function Refreshed(s: State, zone: Zone, effective: Option<Id>): Zone {
    zone.(snapshots := Retired(zone.snapshots) + [
      ZoneSnapshot(HighestVersion(zone.snapshots) + 1, Ready, zone.open,
                   LatestChannelVersion(s, zone.open), LatestSchedule(s, effective))])
  }

  // ---------- manifests ----------

  function HighestManifest(rows: seq<Manifest>): nat {
    Highest(seq(|rows|, i requires 0 <= i < |rows| => rows[i].version))
  }

  function RetiredManifests(rows: seq<Manifest>): (r: seq<Manifest>)
    ensures |r| == |rows|
  {
    seq(|rows|, i requires 0 <= i < |rows| =>
      if rows[i].status == ManifestReady then rows[i].(status := ManifestSuperseded) else rows[i])
  }

  function NewManifest(zone: Zone, snapshot: nat, assets: set<Id>, now: int, ttl: int): Manifest {
    Manifest(HighestManifest(zone.manifests) + 1, snapshot,
             if assets != {} then ManifestReady else ManifestError, now, now + ttl, assets)
  }

  // create_manifest, when the expiry lies in the future
  function WithManifest(zone: Zone, snapshot: nat, assets: set<Id>, now: int, ttl: int): Zone {
    zone.(manifests := RetiredManifests(zone.manifests) + [NewManifest(zone, snapshot, assets, now, ttl)])
  }

  predicate Usable(m: Manifest, snapshot: nat, now: int) {
    m.snapshot == snapshot && m.status != ManifestSuperseded && m.expiresAt > now
  }

  // Rows are appended with growing versions, so the newest is the last one that qualifies.
  function NewestUsable(rows: seq<Manifest>, snapshot: nat, now: int): Option<Manifest> {
    if rows == [] then None
    else if Usable(rows[|rows| - 1], snapshot, now) then Some(rows[|rows| - 1])
    else NewestUsable(rows[..|rows| - 1], snapshot, now)
  }

  predicate Streamable(m: Manifest, at: int) {
    m.status == ManifestReady && m.generatedAt <= at && m.expiresAt > at
  }

  // The manifest through which the streaming endpoint authorises a device.
  function StreamingManifest(rows: seq<Manifest>, at: int): Option<Manifest> {
    if rows == [] then None
    else if Streamable(rows[|rows| - 1], at) then Some(rows[|rows| - 1])
    else StreamingManifest(rows[..|rows| - 1], at)
  }

  function ReadySnapshot(rows: seq<ZoneSnapshot>): Option<ZoneSnapshot> {
    if rows == [] then None
    else if rows[|rows| - 1].status == Ready then Some(rows[|rows| - 1])
    else ReadySnapshot(rows[..|rows| - 1])
  }

  // ---------- the runtime ----------

  // The zone after the rollover check of get_or_create_player_runtime.
  function RolledOver(s: State, zone: Zone, effective: Option<Id>): Zone {
    var snapshot := ReadySnapshot(zone.snapshots);
    var expected := LatestSchedule(s, effective);
    if (snapshot.Some? && snapshot.value.schedule != expected) || (snapshot.None? && expected.Some?)
    then Refreshed(s, zone, effective)
    else zone
  }

  function ReasonFor(snapshot: ZoneSnapshot, manifest: Manifest): Reason {
    if snapshot.channel.None? then NoChannelAssigned
    else if snapshot.schedule.None? then NoScheduleContent
    else if manifest.status != ManifestReady then NoAvailableAssets
    else NoReason
  }

  function Fetch(s: State, zone: Zone, force: bool, assets: set<Id>, now: int, ttl: int, effective: Option<Id>)
    : Result<(Zone, Runtime), Error>
  {
    var rolled := RolledOver(s, zone, effective);
    var snapshot := ReadySnapshot(rolled.snapshots);
    if snapshot.None? then Ok((rolled, Runtime(NoPublishedConfiguration, None, None)))
    else
      var manifest := NewestUsable(rolled.manifests, snapshot.value.version, now);
      if manifest.Some? && !force then
        Ok((rolled, Runtime(ReasonFor(snapshot.value, manifest.value), snapshot, manifest)))
      else if ttl <= 0 then Err(ManifestExpired)
      else
        var created := NewManifest(rolled, snapshot.value.version, assets, now, ttl);
        Ok((WithManifest(rolled, snapshot.value.version, assets, now, ttl),
            Runtime(ReasonFor(snapshot.value, created), snapshot, Some(created))))
  }

  // ---------- steps ----------

  predicate NewestIs(c: Channel, checksum: nat) {
    c.snapshots != [] && c.snapshots[|c.snapshots| - 1] == checksum
  }

  function WithChannel(s: State, channel: Id, c: Channel): State {
    s.(channels := s.channels[channel := c])
  }

  function WithZone(s: State, zone: Id, z: Zone): State { s.(zones := s.zones[zone := z]) }

  // Refresh every zone in a set.
  function RefreshAll(s: State, which: set<Id>, effective: Effective): State {
    s.(zones := map z | z in s.zones ::
      if z in which then Refreshed(s, s.zones[z], effective(z)) else s.zones[z])
  }

  function ZonesPlaying(s: State, channel: Id): set<Id> {
    set z | z in s.zones && s.zones[z].open == Some(channel)
  }

  function ZonesGoverned(s: State, schedule: Id, effective: Effective): set<Id> {
    set z | z in s.zones && !s.zones[z].archived && effective(z) == Some(schedule)
  }

  function DoPublishChannel(s: State, a: Action): Result<State, Error>
    requires a.PublishChannel?
  {
    if a.channel !in s.channels then Err(NotFound)
    else
      var c := s.channels[a.channel];
      if c.status == Archived || !a.publishable then Err(NotPublishable)
      else if a.expected.Some? && c.revision != a.expected.value then
        if NewestIs(c, a.checksum) then Ok(s) else Err(RevisionConflict)
      else if NewestIs(c, a.checksum) then
        if c.status == Published then Ok(s)
        else Ok(WithChannel(s, a.channel, c.(status := Published, revision := c.revision + 1)))
      else
        Ok(NewVersion(s, a.channel, a.checksum, a.effective))
  }

  // A new version of the channel, and a fresh snapshot for every zone that plays it.
  function NewVersion(s: State, channel: Id, checksum: nat, effective: Effective): State
    requires channel in s.channels
  {
    var s' := WithVersion(s, channel, checksum);
    RefreshAll(s', ZonesPlaying(s', channel), effective)
  }

  function WithVersion(s: State, channel: Id, checksum: nat): State
    requires channel in s.channels
  {
    var c := s.channels[channel];
    WithChannel(s, channel, Channel(Published, c.revision + 1, c.snapshots + [checksum]))
  }

  function DoAssign(s: State, a: Action): Result<State, Error>
    requires a.AssignChannel?
  {
    if a.zone !in s.zones || a.channel !in s.channels then Err(NotFound)
    else
      var z := s.zones[a.zone];
      if z.archived || s.channels[a.channel].status != Published || s.channels[a.channel].snapshots == [] then
        Err(AssignmentInvalid)
      else if z.open == Some(a.channel) then Ok(s)
      else Ok(WithZone(s, a.zone, Refreshed(s, z.(open := Some(a.channel)), a.effective(a.zone))))
  }

  function DoPublishSchedule(s: State, a: Action): Result<State, Error>
    requires a.PublishSchedule?
  {
    if a.schedule !in s.schedules then Err(NotFound)
    else if !a.publishable then Err(NotPublishable)
    else
      var s' := WithSchedule(s, a.schedule);
      Ok(RefreshAll(s', ZonesGoverned(s', a.schedule, a.effective), a.effective))
  }

  function WithSchedule(s: State, schedule: Id): State
    requires schedule in s.schedules
  {
    s.(schedules := s.schedules[schedule := Schedule(s.schedules[schedule].version + 1, true)])
  }

  // Every step happens at s.clock.
  function Apply(s: State, a: Action): Result<State, Error> {
    match a
    case CreateChannel(channel) =>
      if channel in s.channels then Err(NotFound) else Ok(WithChannel(s, channel, Channel(Draft, 1, [])))
    case CreateZone(zone) =>
      if zone in s.zones then Err(NotFound) else Ok(WithZone(s, zone, Zone(false, None, [], [])))
    case CreateSchedule(schedule) =>
      if schedule in s.schedules then Err(NotFound)
      else Ok(s.(schedules := s.schedules[schedule := Schedule(1, false)]))
    case PublishChannel(_, _, _, _, _) => DoPublishChannel(s, a)
    case ArchiveChannel(channel, revision) =>
      if channel !in s.channels then Err(NotFound)
      else if s.channels[channel].revision != revision then Err(RevisionConflict)
      else if ZonesPlaying(s, channel) != {} then Err(ChannelInUse)
      else
        Ok(WithChannel(s, channel, s.channels[channel].(status := Archived, revision := revision + 1)))
    case ReactivateChannel(channel, revision) =>
      if channel !in s.channels then Err(NotFound)
      else if s.channels[channel].revision != revision then Err(RevisionConflict)
      else Ok(WithChannel(s, channel, s.channels[channel].(status := Draft, revision := revision + 1)))
    case AssignChannel(_, _, _) => DoAssign(s, a)
    case UnassignChannel(zone, effective) =>
      if zone !in s.zones then Err(NotFound)
      else if s.zones[zone].open.None? then Ok(s)
      else Ok(WithZone(s, zone, Refreshed(s, s.zones[zone].(open := None), effective(zone))))
    case ArchiveZone(zone) =>
      if zone !in s.zones then Err(NotFound) else Ok(WithZone(s, zone, s.zones[zone].(archived := true)))
    case PublishSchedule(_, _, _) => DoPublishSchedule(s, a)
    case FetchRuntime(zone, force, assets, ttl, effective) =>
      if zone !in s.zones then Err(NoZone)
      else
        var r := Fetch(s, s.zones[zone], force, assets, s.clock, ttl, effective(zone));
        if r.Err? then Err(r.error) else Ok(WithZone(s, zone, r.value.0))
  }

  datatype Event = Event(elapsed: nat, action: Action)

  // A transaction commits or leaves the rows as they were.
  function Commit(s: State, r: Result<State, Error>): State { if r.Ok? then r.value else s }

  function Tick(s: State, elapsed: nat): State { s.(clock := s.clock + elapsed) }

  function Step(s: State, e: Event): State {
    Commit(Tick(s, e.elapsed), Apply(Tick(s, e.elapsed), e.action))
  }

  function Run(s: State, events: seq<Event>): State {
    if events == [] then s else Step(Run(s, events[..|events| - 1]), events[|events| - 1])
  }

  function Empty(clock: int): State { State(map[], map[], map[], clock) }

  // ---------- what every step keeps ----------

  ghost predicate SnapshotsInOrder(rows: seq<ZoneSnapshot>) {
    forall i :: 0 <= i < |rows| ==>
      rows[i].version == i + 1 && (rows[i].status == Ready <==> i == |rows| - 1)
  }

  ghost predicate ManifestsInOrder(rows: seq<Manifest>, clock: int) {
    forall i :: 0 <= i < |rows| ==>
      && rows[i].version == i + 1 && rows[i].generatedAt <= clock
      && (rows[i].status == ManifestReady ==> i == |rows| - 1 && rows[i].items != {})
      && (rows[i].status == ManifestError ==> rows[i].items == {})
  }

  // The newest zone snapshot names the open channel and that channel's newest version.
  ghost predicate Coherent(s: State, z: Zone) {
    && (z.open.Some? ==> z.snapshots != [] && LatestChannelVersion(s, z.open).Some?)
    && (z.snapshots != [] ==>
          var last := z.snapshots[|z.snapshots| - 1];
          last.channel == z.open && last.channelVersion == LatestChannelVersion(s, z.open))
  }

  ghost predicate ZoneInv(s: State, z: Zone) {
    SnapshotsInOrder(z.snapshots) && ManifestsInOrder(z.manifests, s.clock) && Coherent(s, z)
  }

  ghost predicate Inv(s: State) {
    forall z :: z in s.zones ==> ZoneInv(s, s.zones[z])
  }

  // Versions that count the rows.
  lemma HighestCounts(versions: seq<nat>)
    requires forall i :: 0 <= i < |versions| ==> versions[i] == i + 1
    ensures Highest(versions) == |versions|
  {
    if versions != [] {
      assert versions[|versions| - 1] in versions;
    }
  }

  lemma HighestIsLength(rows: seq<ZoneSnapshot>)
    requires SnapshotsInOrder(rows)
    ensures HighestVersion(rows) == |rows|
  {
    HighestCounts(seq(|rows|, i requires 0 <= i < |rows| => rows[i].version));
  }

  lemma HighestManifestIsLength(rows: seq<Manifest>, clock: int)
    requires ManifestsInOrder(rows, clock)
    ensures HighestManifest(rows) == |rows|
  {
    HighestCounts(seq(|rows|, i requires 0 <= i < |rows| => rows[i].version));
  }

  lemma RefreshKeepsZone(s: State, z: Zone, effective: Option<Id>)
    requires SnapshotsInOrder(z.snapshots) && ManifestsInOrder(z.manifests, s.clock)
    requires z.open.Some? ==> LatestChannelVersion(s, z.open).Some?
    ensures ZoneInv(s, Refreshed(s, z, effective))
  {
    HighestIsLength(z.snapshots);
  }

  ghost predicate SameVersions(s: State, s': State) {
    forall c :: LatestChannelVersion(s, c) == LatestChannelVersion(s', c)
  }

  // A zone's invariant survives anything that leaves the zone and the versions alone.
  lemma ZoneCarriesOver(s: State, s': State, z: Zone)
    requires ZoneInv(s, z) && SameVersions(s, s') && s.clock <= s'.clock
    ensures ZoneInv(s', z)
  {
  }

  lemma InvCarriesOver(s: State, s': State)
    requires Inv(s) && SameVersions(s, s') && s.clock <= s'.clock && s.zones == s'.zones
    ensures Inv(s')
  {
  }

  lemma StoringKeepsInv(s: State, zone: Id, z: Zone)
    requires Inv(s) && ZoneInv(s, z)
    ensures Inv(WithZone(s, zone, z))
  {
  }

  lemma RefreshAllKeepsInv(s: State, which: set<Id>, effective: Effective)
    requires forall z :: z in s.zones ==>
      && SnapshotsInOrder(s.zones[z].snapshots) && ManifestsInOrder(s.zones[z].manifests, s.clock)
      && (s.zones[z].open.Some? ==> LatestChannelVersion(s, s.zones[z].open).Some?)
      && (z !in which ==> Coherent(s, s.zones[z]))
    ensures Inv(RefreshAll(s, which, effective))
  {
    var s' := RefreshAll(s, which, effective);
    forall z | z in s'.zones ensures ZoneInv(s', s'.zones[z]) {
      if z in which {
        RefreshKeepsZone(s, s.zones[z], effective(z));
      }
      ZoneCarriesOver(s, s', s'.zones[z]);
    }
  }

  lemma RollOverKeepsZone(s: State, z: Zone, effective: Option<Id>)
    requires ZoneInv(s, z)
    ensures ZoneInv(s, RolledOver(s, z, effective))
  {
    RefreshKeepsZone(s, z, effective);
  }

  lemma ManifestKeepsZone(s: State, z: Zone, snapshot: nat, assets: set<Id>, ttl: int)
    requires ZoneInv(s, z)
    ensures ZoneInv(s, WithManifest(z, snapshot, assets, s.clock, ttl))
  {
    HighestManifestIsLength(z.manifests, s.clock);
  }

  lemma FetchKeepsZone(s: State, z: Zone, force: bool, assets: set<Id>, ttl: int, effective: Option<Id>)
    requires ZoneInv(s, z)
    ensures var r := Fetch(s, z, force, assets, s.clock, ttl, effective);
      r.Ok? ==> ZoneInv(s, r.value.0)
  {
    RollOverKeepsZone(s, z, effective);
    var rolled := RolledOver(s, z, effective);
    var snapshot := ReadySnapshot(rolled.snapshots);
    if snapshot.Some? {
      ManifestKeepsZone(s, rolled, snapshot.value.version, assets, ttl);
    }
  }

  lemma ZoneBeforeRefresh(s: State, channel: Id, checksum: nat, z: Zone)
    requires ZoneInv(s, z) && channel in s.channels
    ensures var mid := WithVersion(s, channel, checksum);
      && SnapshotsInOrder(z.snapshots) && ManifestsInOrder(z.manifests, mid.clock)
      && (z.open.Some? ==> LatestChannelVersion(mid, z.open).Some?)
      && (z.open != Some(channel) ==> Coherent(mid, z))
  {
  }

  lemma NewVersionKeepsInv(s: State, channel: Id, checksum: nat, effective: Effective)
    requires Inv(s) && channel in s.channels
    ensures Inv(NewVersion(s, channel, checksum, effective))
  {
    var mid := WithVersion(s, channel, checksum);
    forall z | z in mid.zones
      ensures SnapshotsInOrder(mid.zones[z].snapshots) && ManifestsInOrder(mid.zones[z].manifests, mid.clock)
      ensures mid.zones[z].open.Some? ==> LatestChannelVersion(mid, mid.zones[z].open).Some?
      ensures z !in ZonesPlaying(mid, channel) ==> Coherent(mid, mid.zones[z])
    {
      ZoneBeforeRefresh(s, channel, checksum, mid.zones[z]);
    }
    RefreshAllKeepsInv(mid, ZonesPlaying(mid, channel), effective);
  }

  lemma SameVersionKeepsInv(s: State, channel: Id, c: Channel)
    requires Inv(s) && channel in s.channels && c.snapshots == s.channels[channel].snapshots
    ensures Inv(WithChannel(s, channel, c))
  {
  }

  lemma PublishChannelKeepsInv(s: State, a: Action)
    requires Inv(s) && a.PublishChannel? && DoPublishChannel(s, a).Ok?
    ensures Inv(DoPublishChannel(s, a).value)
  {
    var c := s.channels[a.channel];
    if NewestIs(c, a.checksum) {
      SameVersionKeepsInv(s, a.channel, c.(status := Published, revision := c.revision + 1));
    } else {
      NewVersionKeepsInv(s, a.channel, a.checksum, a.effective);
    }
  }

  lemma RefreshingKeepsInv(s: State, which: set<Id>, effective: Effective)
    requires Inv(s)
    ensures Inv(RefreshAll(s, which, effective))
  {
    forall z | z in s.zones
      ensures SnapshotsInOrder(s.zones[z].snapshots) && ManifestsInOrder(s.zones[z].manifests, s.clock)
      ensures Coherent(s, s.zones[z])
    {
      assert ZoneInv(s, s.zones[z]);
    }
    RefreshAllKeepsInv(s, which, effective);
  }

  lemma PublishScheduleKeepsInv(s: State, a: Action)
    requires Inv(s) && a.PublishSchedule? && DoPublishSchedule(s, a).Ok?
    ensures Inv(DoPublishSchedule(s, a).value)
  {
    var mid := WithSchedule(s, a.schedule);
    InvCarriesOver(s, mid);
    RefreshingKeepsInv(mid, ZonesGoverned(mid, a.schedule, a.effective), a.effective);
  }

  lemma AssignKeepsInv(s: State, a: Action)
    requires Inv(s) && a.AssignChannel? && DoAssign(s, a).Ok?
    ensures Inv(DoAssign(s, a).value)
  {
    var z := s.zones[a.zone];
    assert ZoneInv(s, z);
    if z.open != Some(a.channel) {
      RefreshKeepsZone(s, z.(open := Some(a.channel)), a.effective(a.zone));
      StoringKeepsInv(s, a.zone, Refreshed(s, z.(open := Some(a.channel)), a.effective(a.zone)));
    }
  }

  lemma ActionKeepsInv(s: State, a: Action)
    requires Inv(s) && Apply(s, a).Ok?
    ensures Inv(Apply(s, a).value)
  {
    match a
    case PublishChannel(_, _, _, _, _) => PublishChannelKeepsInv(s, a);
    case PublishSchedule(_, _, _) => PublishScheduleKeepsInv(s, a);
    case AssignChannel(_, _, _) => AssignKeepsInv(s, a);
    case UnassignChannel(zone, effective) =>
      assert ZoneInv(s, s.zones[zone]);
      RefreshKeepsZone(s, s.zones[zone].(open := None), effective(zone));
      StoringKeepsInv(s, zone, Refreshed(s, s.zones[zone].(open := None), effective(zone)));
    case FetchRuntime(zone, force, assets, ttl, effective) =>
      assert ZoneInv(s, s.zones[zone]);
      FetchKeepsZone(s, s.zones[zone], force, assets, ttl, effective(zone));
      StoringKeepsInv(s, zone, Fetch(s, s.zones[zone], force, assets, s.clock, ttl, effective(zone)).value.0);
    case CreateZone(zone) =>
      StoringKeepsInv(s, zone, Zone(false, None, [], []));
    case ArchiveZone(zone) =>
      assert ZoneInv(s, s.zones[zone]);
      StoringKeepsInv(s, zone, s.zones[zone].(archived := true));
    case _ =>
      InvCarriesOver(s, Apply(s, a).value);
  }

  lemma TickKeepsInv(s: State, elapsed: nat)
    requires Inv(s)
    ensures Inv(Tick(s, elapsed))
  {
  }

  lemma StepKeepsInv(s: State, e: Event)
    requires Inv(s)
    ensures Inv(Step(s, e))
  {
    TickKeepsInv(s, e.elapsed);
    var now := Tick(s, e.elapsed);
    if Apply(now, e.action).Ok? {
      ActionKeepsInv(now, e.action);
    }
  }

  lemma {:induction false} ReachableInv(clock: int, events: seq<Event>)
    ensures Inv(Run(Empty(clock), events))
  {
    if events != [] {
      ReachableInv(clock, events[..|events| - 1]);
      StepKeepsInv(Run(Empty(clock), events[..|events| - 1]), events[|events| - 1]);
    }
  }

  ghost predicate Reachable(s: State) { exists clock: int, events: seq<Event> :: s == Run(Empty(clock), events) }

  lemma ReachableHasInv(s: State)
    requires Reachable(s)
    ensures Inv(s)
  {
    var clock: int, events: seq<Event> :| s == Run(Empty(clock), events);
    ReachableInv(clock, events);
  }

  ghost predicate TheOnlyReady(rows: seq<ZoneSnapshot>, i: nat) {
    i < |rows| && forall j :: 0 <= j < |rows| ==> (rows[j].status == Ready <==> j == i)
  }

  // Materialised views are coherent after any run: a zone with an open channel has exactly
  // one READY snapshot, of the zone's highest version, naming that channel and its newest
  // published version.
  lemma ZoneViewsAreCoherent(s: State, zone: Id)
    requires Reachable(s) && zone in s.zones && s.zones[zone].open.Some?
    ensures var z := s.zones[zone];
      exists i: nat :: TheOnlyReady(z.snapshots, i)
        && (forall j :: 0 <= j < |z.snapshots| && j != i ==> z.snapshots[j].version < z.snapshots[i].version)
        && z.snapshots[i].channel == z.open
        && z.open.value in s.channels
        && z.snapshots[i].channelVersion == Some(|s.channels[z.open.value].snapshots|)
        && |s.channels[z.open.value].snapshots| > 0
  {
    ReachableHasInv(s);
    assert ZoneInv(s, s.zones[zone]);
    assert TheOnlyReady(s.zones[zone].snapshots, |s.zones[zone].snapshots| - 1);
  }

  // A zone never has two READY manifests.
  lemma OneReadyManifest(s: State, zone: Id, i: nat, j: nat)
    requires Reachable(s) && zone in s.zones
    requires var rows := s.zones[zone].manifests;
      i < |rows| && j < |rows| && rows[i].status == ManifestReady && rows[j].status == ManifestReady
    ensures i == j
  {
    ReachableHasInv(s);
    assert ZoneInv(s, s.zones[zone]);
  }

  lemma {:induction false} NewestUsableFound(rows: seq<Manifest>, snapshot: nat, now: int)
    ensures var m := NewestUsable(rows, snapshot, now);
      if m.Some? then m.value in rows && Usable(m.value, snapshot, now)
      else forall r :: r in rows ==> !Usable(r, snapshot, now)
  {
    if rows != [] {
      NewestUsableFound(rows[..|rows| - 1], snapshot, now);
      assert rows == rows[..|rows| - 1] + [rows[|rows| - 1]];
    }
  }

  lemma ReadyIsLast(rows: seq<ZoneSnapshot>)
    requires SnapshotsInOrder(rows)
    ensures ReadySnapshot(rows) == if rows == [] then None else Some(rows[|rows| - 1])
  {
  }

  // What a device is given agrees with what is published at that instant: the snapshot's
  // schedule is the newest published version of the effective schedule, its manifest belongs
  // to it and has not expired, and a READY manifest is the one streaming will honour.
  ghost predicate Fresh(s: State, open: Option<Id>, effective: Option<Id>, z: Zone, r: Runtime) {
    && r.snapshot.Some? && r.snapshot == ReadySnapshot(z.snapshots)
    && r.snapshot.value.schedule == LatestSchedule(s, effective)
    && r.snapshot.value.channel == open
    && r.snapshot.value.channelVersion == LatestChannelVersion(s, open)
    && r.manifest.Some? && r.manifest.value in z.manifests
    && r.manifest.value.snapshot == r.snapshot.value.version && r.manifest.value.expiresAt > s.clock
    && r.manifest.value.status != ManifestSuperseded
    && (r.manifest.value.status == ManifestReady ==> StreamingManifest(z.manifests, s.clock) == r.manifest)
    && (r.manifest.value.status == ManifestReady <==> r.manifest.value.items != {})
    && r.reason == (if open.None? then NoChannelAssigned
                    else if LatestSchedule(s, effective).None? then NoScheduleContent
                    else if r.manifest.value.items == {} then NoAvailableAssets
                    else NoReason)
  }

  // After the rollover check the zone's READY snapshot follows the effective schedule.
  lemma RolledOverIsCurrent(s: State, z: Zone, effective: Option<Id>)
    requires ZoneInv(s, z)
    ensures var rolled := RolledOver(s, z, effective);
      && ZoneInv(s, rolled) && rolled.open == z.open && rolled.manifests == z.manifests
      && (rolled.snapshots == [] <==> z.snapshots == [] && LatestSchedule(s, effective).None?)
      && (rolled.snapshots != [] ==>
            var last := rolled.snapshots[|rolled.snapshots| - 1];
            ReadySnapshot(rolled.snapshots) == Some(last) && last.schedule == LatestSchedule(s, effective))
      && (rolled.snapshots == [] ==> rolled == z && ReadySnapshot(rolled.snapshots) == None)
  {
    RollOverKeepsZone(s, z, effective);
    ReadyIsLast(z.snapshots);
    ReadyIsLast(RolledOver(s, z, effective).snapshots);
  }

  lemma ReadyManifestStreams(s: State, z: Zone, m: Manifest)
    requires ManifestsInOrder(z.manifests, s.clock) && m in z.manifests
    requires m.status == ManifestReady && m.expiresAt > s.clock
    ensures StreamingManifest(z.manifests, s.clock) == Some(m)
  {
  }

  lemma FetchIsFresh(s: State, start: Zone, force: bool, assets: set<Id>, ttl: int, effective: Option<Id>)
    requires ZoneInv(s, start) && Fetch(s, start, force, assets, s.clock, ttl, effective).Ok?
    ensures
      var (z, r) := Fetch(s, start, force, assets, s.clock, ttl, effective).value;
      if start.snapshots == [] && LatestSchedule(s, effective).None? then
        z == start && r == Runtime(NoPublishedConfiguration, None, None)
      else Fresh(s, start.open, effective, z, r)
  {
    RolledOverIsCurrent(s, start, effective);
    FetchKeepsZone(s, start, force, assets, ttl, effective);
    var rolled := RolledOver(s, start, effective);
    var (z, r) := Fetch(s, start, force, assets, s.clock, ttl, effective).value;
    if rolled.snapshots != [] {
      NewestUsableFound(rolled.manifests, r.snapshot.value.version, s.clock);
      assert z.snapshots == rolled.snapshots;
      if z != rolled {
        assert z.manifests[|z.manifests| - 1] == r.manifest.value;
      }
      if r.manifest.value.status == ManifestReady {
        ReadyManifestStreams(s, z, r.manifest.value);
      }
    }
  }

  // A manifest is made exactly when one is asked for or none is usable, and it is READY exactly
  // when there are assets to play.
  lemma ManifestMadeIff(s: State, start: Zone, force: bool, assets: set<Id>, ttl: int, effective: Option<Id>)
    requires ZoneInv(s, start) && Fetch(s, start, force, assets, s.clock, ttl, effective).Ok?
    requires Fetch(s, start, force, assets, s.clock, ttl, effective).value.1.snapshot.Some?
    ensures
      var (z, r) := Fetch(s, start, force, assets, s.clock, ttl, effective).value;
      var wanted := force || forall m :: m in start.manifests ==>
        m.snapshot != r.snapshot.value.version || m.status == ManifestSuperseded || m.expiresAt <= s.clock;
      && (!wanted ==> z.manifests == start.manifests)
      && (wanted ==>
            && |z.manifests| == |start.manifests| + 1 && r.manifest == Some(z.manifests[|start.manifests|])
            && (r.manifest.value.status == ManifestReady <==> assets != {}) && r.manifest.value.items == assets
            && r.manifest.value.expiresAt == s.clock + ttl)
  {
    RolledOverIsCurrent(s, start, effective);
    var r := Fetch(s, start, force, assets, s.clock, ttl, effective).value.1;
    NewestUsableFound(start.manifests, r.snapshot.value.version, s.clock);
  }

  // Publishing a schedule puts its new version into every zone it governs, and touches no other.
  lemma SchedulePublicationReachesZones(s: State, a: Action, zone: Id)
    requires a.PublishSchedule? && DoPublishSchedule(s, a).Ok? && zone in s.zones
    ensures var z := DoPublishSchedule(s, a).value.zones[zone];
      if !s.zones[zone].archived && a.effective(zone) == Some(a.schedule) then
        && z.snapshots != []
        && z.snapshots[|z.snapshots| - 1].schedule
           == Some(ScheduleSnapshot(a.schedule, s.schedules[a.schedule].version + 1))
      else z == s.zones[zone]
  {
    assert zone in ZonesGoverned(WithSchedule(s, a.schedule), a.schedule, a.effective)
      <==> !s.zones[zone].archived && a.effective(zone) == Some(a.schedule);
  }

  lemma RuntimeIsFresh(s: State, zone: Id, force: bool, assets: set<Id>, ttl: int, effective: Option<Id>)
    requires Reachable(s) && zone in s.zones
    requires Fetch(s, s.zones[zone], force, assets, s.clock, ttl, effective).Ok?
    ensures
      var (z, r) := Fetch(s, s.zones[zone], force, assets, s.clock, ttl, effective).value;
      if s.zones[zone].snapshots == [] && LatestSchedule(s, effective).None? then
        z == s.zones[zone] && r == Runtime(NoPublishedConfiguration, None, None)
      else Fresh(s, s.zones[zone].open, effective, z, r)
  {
    ReachableHasInv(s);
    FetchIsFresh(s, s.zones[zone], force, assets, ttl, effective);
  }

  // The streaming endpoint goes through the newest READY manifest that is valid at the instant.
  lemma {:induction false} StreamingIsNewest(rows: seq<Manifest>, at: int)
    ensures match StreamingManifest(rows, at)
      case Some(m) =>
        exists i :: 0 <= i < |rows| && rows[i] == m && InForce(m, at)
          && forall j :: i < j < |rows| ==> !InForce(rows[j], at)
      case None => forall i :: 0 <= i < |rows| ==> !InForce(rows[i], at)
  {
    if rows != [] && !Streamable(rows[|rows| - 1], at) {
      var before := rows[..|rows| - 1];
      StreamingIsNewest(before, at);
      if StreamingManifest(before, at).Some? {
        var m := StreamingManifest(before, at).value;
        var i :| 0 <= i < |before| && before[i] == m && InForce(m, at)
          && forall j :: i < j < |before| ==> !InForce(before[j], at);
        assert rows[i] == m;
        forall j | i < j < |rows| ensures !InForce(rows[j], at) {
          assert j < |before| ==> rows[j] == before[j];
        }
      } else {
        forall i | 0 <= i < |rows| ensures !InForce(rows[i], at) {
          assert i < |before| ==> rows[i] == before[i];
        }
      }
    }
  }

  predicate InForce(m: Manifest, at: int) {
    m.status == ManifestReady && m.generatedAt <= at && at < m.expiresAt
  }

  // ---------- what an accepted action does ----------

  // The only READY snapshot of the rows names this channel and this version of it.
  ghost predicate Names(rows: seq<ZoneSnapshot>, channel: Option<Id>, version: Option<nat>) {
    exists i: nat :: TheOnlyReady(rows, i) && rows[i].channel == channel && rows[i].channelVersion == version
      && forall j :: 0 <= j < |rows| && j != i ==> rows[j].version < rows[i].version
  }

  lemma RefreshedNames(s: State, z: Zone, effective: Option<Id>)
    requires SnapshotsInOrder(z.snapshots)
    ensures Names(Refreshed(s, z, effective).snapshots, z.open, LatestChannelVersion(s, z.open))
  {
    HighestIsLength(z.snapshots);
    var rows := Refreshed(s, z, effective).snapshots;
    assert TheOnlyReady(rows, |rows| - 1);
  }

  // Everything but one zone is as before.
  ghost predicate OnlyZone(s: State, s': State, zone: Id) {
    && s'.channels == s.channels && s'.schedules == s.schedules && s'.clock == s.clock
    && s'.zones.Keys == s.zones.Keys && forall o :: o in s.zones && o != zone ==> s'.zones[o] == s.zones[o]
  }

  // An assignment is accepted exactly for a zone in use and a published channel with a version.
  // Then that channel is open on the zone, and the zone's only READY snapshot names it and its
  // newest version.
  lemma AssignOpensChannel(s: State, zone: Id, channel: Id, effective: Effective)
    requires Reachable(s)
    ensures var r := Apply(s, AssignChannel(zone, channel, effective));
      && (r.Ok? <==>
            && zone in s.zones && !s.zones[zone].archived
            && channel in s.channels && s.channels[channel].status == Published && s.channels[channel].snapshots != [])
      && (r.Ok? ==>
            && OnlyZone(s, r.value, zone) && r.value.zones[zone].open == Some(channel)
            && r.value.zones[zone].manifests == s.zones[zone].manifests && !r.value.zones[zone].archived
            && Names(r.value.zones[zone].snapshots, Some(channel), Some(|s.channels[channel].snapshots|)))
  {
    ReachableHasInv(s);
    if zone in s.zones && channel in s.channels {
      var z := s.zones[zone];
      assert ZoneInv(s, z);
      RefreshedNames(s, z.(open := Some(channel)), effective(zone));
      if z.open == Some(channel) {
        assert TheOnlyReady(z.snapshots, |z.snapshots| - 1);
      }
    }
  }

  // An unassignment is accepted for every zone and leaves it without a channel; if it had one, the
  // only READY snapshot then names none.
  lemma UnassignClosesChannel(s: State, zone: Id, effective: Effective)
    requires Reachable(s)
    ensures var r := Apply(s, UnassignChannel(zone, effective));
      && (r.Ok? <==> zone in s.zones)
      && (r.Ok? ==>
            && OnlyZone(s, r.value, zone) && r.value.zones[zone].open == None
            && r.value.zones[zone].manifests == s.zones[zone].manifests
            && r.value.zones[zone].archived == s.zones[zone].archived
            && if s.zones[zone].open.None? then r.value == s
               else Names(r.value.zones[zone].snapshots, None, None))
  {
    ReachableHasInv(s);
    if zone in s.zones {
      assert ZoneInv(s, s.zones[zone]);
      RefreshedNames(s, s.zones[zone].(open := None), effective(zone));
    }
  }

  // The channel's newest version is this one.
  predicate HasNewest(c: Channel, checksum: nat) {
    |c.snapshots| > 0 && c.snapshots[|c.snapshots| - 1] == checksum
  }

  // A publication is accepted exactly for a channel that is not archived and can be published, from
  // its current revision or no stated one, or to find that its newest version is this very one.
  lemma ChannelPublishedIff(
    s: State, channel: Id, checksum: nat, publishable: bool, expected: Option<nat>, effective: Effective)
    ensures Apply(s, PublishChannel(channel, checksum, publishable, expected, effective)).Ok? <==>
      && channel in s.channels && s.channels[channel].status != Archived && publishable
      && (expected == None || expected == Some(s.channels[channel].revision) || HasNewest(s.channels[channel], checksum))
  {
  }

  // An accepted publication from the current revision leaves the channel published with this as its
  // newest version, added only if it was not the newest already; the revision moves exactly if
  // anything changed. Every zone that plays the channel then shows a new version, and no other zone,
  // channel or schedule changes. From another revision nothing changes at all.
  lemma ChannelPublicationEffect(
    s: State, channel: Id, checksum: nat, publishable: bool, expected: Option<nat>, effective: Effective)
    requires Reachable(s) && Apply(s, PublishChannel(channel, checksum, publishable, expected, effective)).Ok?
    ensures var s' := Apply(s, PublishChannel(channel, checksum, publishable, expected, effective)).value;
      var c, c' := s.channels[channel], s'.channels[channel];
      var added := !HasNewest(c, checksum);
      if expected.Some? && expected.value != c.revision then s' == s
      else
        && c'.status == Published && c'.snapshots == (if added then c.snapshots + [checksum] else c.snapshots)
        && c'.revision == (if added || c.status != Published then c.revision + 1 else c.revision)
        && s'.channels == s.channels[channel := c'] && s'.schedules == s.schedules && s'.clock == s.clock
        && s'.zones.Keys == s.zones.Keys
        && forall z :: z in s.zones ==>
             if added && s.zones[z].open == Some(channel) then
               && s'.zones[z].open == Some(channel) && s'.zones[z].manifests == s.zones[z].manifests
               && Names(s'.zones[z].snapshots, Some(channel), Some(|c.snapshots| + 1))
             else s'.zones[z] == s.zones[z]
  {
    ReachableHasInv(s);
    var c := s.channels[channel];
    if !HasNewest(c, checksum) && (expected.None? || expected.value == c.revision) {
      var mid := WithVersion(s, channel, checksum);
      forall z | z in s.zones && s.zones[z].open == Some(channel)
        ensures Names(Refreshed(mid, s.zones[z], effective(z)).snapshots, Some(channel), Some(|c.snapshots| + 1))
      {
        assert ZoneInv(s, s.zones[z]);
        RefreshedNames(mid, s.zones[z], effective(z));
      }
    }
  }

  // A schedule is published exactly if it exists and its content is ready; its version moves by one
  // and is there from then on, and no channel or other schedule changes.
  lemma SchedulePublishedIff(s: State, schedule: Id, publishable: bool, effective: Effective)
    ensures var r := Apply(s, PublishSchedule(schedule, publishable, effective));
      && (r.Ok? <==> schedule in s.schedules && publishable)
      && (r.Ok? ==>
            && r.value.channels == s.channels && r.value.clock == s.clock && r.value.zones.Keys == s.zones.Keys
            && r.value.schedules == s.schedules[schedule := Schedule(s.schedules[schedule].version + 1, true)])
  {
  }

  // A request fails exactly when a manifest has to be made that would expire at once.
  lemma FetchFailsIff(s: State, start: Zone, force: bool, assets: set<Id>, ttl: int, effective: Option<Id>)
    requires ZoneInv(s, start)
    ensures var rolled := RolledOver(s, start, effective).snapshots;
      Fetch(s, start, force, assets, s.clock, ttl, effective).Err? <==>
        && rolled != [] && ttl <= 0
        && (force || forall m :: m in start.manifests ==>
              m.snapshot != |rolled| || m.status == ManifestSuperseded || m.expiresAt <= s.clock)
  {
    RolledOverIsCurrent(s, start, effective);
    var rolled := RolledOver(s, start, effective);
    if rolled.snapshots != [] {
      NewestUsableFound(start.manifests, |rolled.snapshots|, s.clock);
    }
  }

  // A channel is archived exactly from its revision and while no zone plays it, and reactivated as a
  // draft; its versions stay.
  lemma ChannelRetiredIff(s: State, channel: Id, revision: nat)
    ensures var r := Apply(s, ArchiveChannel(channel, revision));
      && (r.Ok? <==>
            && channel in s.channels && s.channels[channel].revision == revision
            && forall z :: z in s.zones ==> s.zones[z].open != Some(channel))
      && (r.Ok? ==> r.value == s.(channels := s.channels[
            channel := Channel(Archived, revision + 1, s.channels[channel].snapshots)]))
    ensures var r := Apply(s, ReactivateChannel(channel, revision));
      && (r.Ok? <==> channel in s.channels && s.channels[channel].revision == revision)
      && (r.Ok? ==> r.value == s.(channels := s.channels[
            channel := Channel(Draft, revision + 1, s.channels[channel].snapshots)]))
  {
    forall z | z in s.zones && s.zones[z].open == Some(channel) ensures z in ZonesPlaying(s, channel) {
    }
  }

  // Refreshing a set of zones one by one.
  lemma RefreshOneMore(s: State, done: set<Id>, zone: Id, effective: Effective)
    requires zone in s.zones && zone !in done
    ensures var mid := RefreshAll(s, done, effective);
      WithZone(mid, zone, Refreshed(mid, mid.zones[zone], effective(zone))) == RefreshAll(s, done + {zone}, effective)
  {
  }

  // ---------- the store in place ----------

  class Store {
    var channels: map<Id, Channel>
    var schedules: map<Id, Schedule>
    var zones: map<Id, Zone>
    var clock: int

    function Snapshot(): State
      reads this
    {
      State(channels, schedules, zones, clock)
    }

    constructor (now: int)
      ensures Snapshot() == Empty(now)
    {
      channels, schedules, zones, clock := map[], map[], map[], now;
    }

    // create_zone_operational_snapshot
    method CreateZoneSnapshot(zone: Id, effective: Option<Id>)
      requires zone in zones
      modifies `zones
      ensures Snapshot() == WithZone(old(Snapshot()), zone, Refreshed(old(Snapshot()), old(zones)[zone], effective))
    {
      var z := zones[zone];
      var channelVersion := LatestChannelVersion(Snapshot(), z.open);
      var schedule := LatestSchedule(Snapshot(), effective);
      var latest := HighestVersion(z.snapshots);
      z := z.(snapshots := Retired(z.snapshots));
      z := z.(snapshots := z.snapshots + [ZoneSnapshot(latest + 1, Ready, z.open, channelVersion, schedule)]);
      zones := zones[zone := z];
    }

    method RefreshZones(which: set<Id>, effective: Effective)
      requires which <= zones.Keys
      modifies `zones
      ensures Snapshot() == RefreshAll(old(Snapshot()), which, effective)
    {
      var todo := which;
      while todo != {}
        invariant todo <= which
        invariant Snapshot() == RefreshAll(old(Snapshot()), which - todo, effective)
        decreases todo
      {
        var zone :| zone in todo;
        RefreshOneMore(old(Snapshot()), which - todo, zone, effective);
        CreateZoneSnapshot(zone, effective(zone));
        assert which - (todo - {zone}) == which - todo + {zone};
        todo := todo - {zone};
      }
      assert which - todo == which;
    }

    method Publish(channel: Id, checksum: nat, publishable: bool, expected: Option<nat>, effective: Effective)
      returns (error: Option<Error>)
      requires channel in channels
      modifies this
      ensures var r := DoPublishChannel(old(Snapshot()), PublishChannel(channel, checksum, publishable, expected, effective));
        && Snapshot() == (if r.Ok? then r.value else old(Snapshot()))
        && error == (if r.Ok? then None else Some(r.error))
    {
      var c := channels[channel];
      if c.status == Archived || !publishable {
        return Some(NotPublishable);
      }
      var same := NewestIs(c, checksum);
      if expected.Some? && c.revision != expected.value {
        return if same then None else Some(RevisionConflict);
      }
      if same {
        if c.status != Published {
          channels := channels[channel := c.(status := Published, revision := c.revision + 1)];
        }
        return None;
      }
      channels := channels[channel := Channel(Published, c.revision + 1, c.snapshots + [checksum])];
      RefreshZones(ZonesPlaying(Snapshot(), channel), effective);
      return None;
    }

    method Assign(zone: Id, channel: Id, effective: Effective) returns (error: Option<Error>)
      requires zone in zones && channel in channels
      modifies this
      ensures var r := DoAssign(old(Snapshot()), AssignChannel(zone, channel, effective));
        && Snapshot() == (if r.Ok? then r.value else old(Snapshot()))
        && error == (if r.Ok? then None else Some(r.error))
    {
      var z := zones[zone];
      if z.archived || channels[channel].status != Published || channels[channel].snapshots == [] {
        return Some(AssignmentInvalid);
      }
      if z.open == Some(channel) {
        return None;
      }
      zones := zones[zone := z.(open := Some(channel))];
      CreateZoneSnapshot(zone, effective(zone));
      return None;
    }

    method Unassign(zone: Id, effective: Effective)
      requires zone in zones
      modifies this
      ensures Apply(old(Snapshot()), UnassignChannel(zone, effective)) == Ok(Snapshot())
    {
      if zones[zone].open.None? {
        return;
      }
      zones := zones[zone := zones[zone].(open := None)];
      CreateZoneSnapshot(zone, effective(zone));
      assert Snapshot() == WithZone(old(Snapshot()), zone,
        Refreshed(old(Snapshot()), old(zones)[zone].(open := None), effective(zone)));
    }

    // What publish_schedule does to versions and zones once its revision has been checked.
    method PublishScheduleVersion(schedule: Id, publishable: bool, effective: Effective) returns (error: Option<Error>)
      requires schedule in schedules
      modifies this
      ensures var r := DoPublishSchedule(old(Snapshot()), PublishSchedule(schedule, publishable, effective));
        && Snapshot() == (if r.Ok? then r.value else old(Snapshot()))
        && error == (if r.Ok? then None else Some(r.error))
    {
      if !publishable {
        return Some(NotPublishable);
      }
      schedules := schedules[schedule := Schedule(schedules[schedule].version + 1, true)];
      RefreshZones(ZonesGoverned(Snapshot(), schedule, effective), effective);
      return None;
    }

    // create_manifest
    method CreateManifest(zone: Id, snapshot: nat, assets: set<Id>, ttl: int) returns (manifest: Manifest)
      requires zone in zones && ttl > 0
      modifies `zones
      ensures Snapshot() == WithZone(old(Snapshot()), zone, WithManifest(old(zones)[zone], snapshot, assets, clock, ttl))
      ensures manifest == NewManifest(old(zones)[zone], snapshot, assets, clock, ttl)
    {
      var z := zones[zone];
      var version := HighestManifest(z.manifests);
      manifest := Manifest(version + 1, snapshot, if assets != {} then ManifestReady else ManifestError, clock, clock + ttl, assets);
      zones := zones[zone := z.(manifests := RetiredManifests(z.manifests) + [manifest])];
    }

    // The first half of get_or_create_player_runtime: replace a snapshot whose schedule is stale.
    method RollOver(zone: Id, effective: Option<Id>) returns (snapshot: Option<ZoneSnapshot>)
      requires zone in zones
      modifies `zones
      ensures Snapshot() ==
        WithZone(old(Snapshot()), zone, RolledOver(old(Snapshot()), old(zones)[zone], effective))
      ensures snapshot == ReadySnapshot(zones[zone].snapshots)
    {
      snapshot := ReadySnapshot(zones[zone].snapshots);
      var expected := LatestSchedule(Snapshot(), effective);
      if (snapshot.Some? && snapshot.value.schedule != expected) || (snapshot.None? && expected.Some?) {
        CreateZoneSnapshot(zone, effective);
        snapshot := ReadySnapshot(zones[zone].snapshots);
      } else {
        assert zones == zones[zone := zones[zone]];
      }
    }

    // get_or_create_player_runtime
    method PlayerRuntime(zone: Id, force: bool, assets: set<Id>, ttl: int, effective: Option<Id>)
      returns (r: Result<Runtime, Error>)
      requires zone in zones
      modifies `zones
      ensures var f := Fetch(old(Snapshot()), old(zones)[zone], force, assets, clock, ttl, effective);
        && (f.Ok? ==> Snapshot() == WithZone(old(Snapshot()), zone, f.value.0) && r == Ok(f.value.1))
        && (f.Err? ==> Snapshot() == old(Snapshot()) && r == Err(f.error))
    {
      var saved := zones;
      var snapshot := RollOver(zone, effective);
      if snapshot.None? {
        return Ok(Runtime(NoPublishedConfiguration, None, None));
      }
      var manifest := NewestUsable(zones[zone].manifests, snapshot.value.version, clock);
      if force || manifest.None? {
        if ttl <= 0 {
          zones := saved;
          return Err(ManifestExpired);
        }
        var created := CreateManifest(zone, snapshot.value.version, assets, ttl);
        manifest := Some(created);
      }
      return Ok(Runtime(ReasonFor(snapshot.value, manifest.value), snapshot, manifest));
    }
  }
}
