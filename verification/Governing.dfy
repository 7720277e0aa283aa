// Assignments and zones as one system: the schedule that the assignments put in charge of a
// zone is the one whose newest version the zone's devices receive.
module Governing {
  import opened Wrappers
  import Sorting
  import Assignments
  import Playback

  type Id = nat

  datatype State = State(plans: Assignments.State, zones: Playback.State)

  // Schedules are created and published through the plans only.
  type ZoneEvent = e: Playback.Event | !e.action.CreateSchedule? && !e.action.PublishSchedule?
    witness Playback.Event(0, Playback.CreateZone(0))

  datatype Event =
    | Plan(elapsed: nat, edit: Assignments.Edit, effective: Playback.Effective)
    | Play(event: ZoneEvent)

  // What an accepted edit of the plans does to versions and zones, if anything.
  function Consequence(edit: Assignments.Edit, effective: Playback.Effective): Option<Playback.Action> {
    match edit
    case CreateSchedule(schedule, _, _) => Some(Playback.CreateSchedule(schedule))
    case Publish(schedule, _, _) => Some(Playback.PublishSchedule(schedule, true, effective))
    case _ => None
  }

  function Step(s: State, e: Event): State {
    match e
    case Play(event) => s.(zones := Playback.Step(s.zones, event))
    case Plan(elapsed, edit, effective) =>
      var r := Assignments.Apply(s.plans, edit);
      if r.Err? then s.(zones := Playback.Tick(s.zones, elapsed))
      else
        var a := Consequence(edit, effective);
        State(r.value,
              if a.Some? then Playback.Step(s.zones, Playback.Event(elapsed, a.value))
              else Playback.Tick(s.zones, elapsed))
  }

  function Run(clock: int, events: seq<Event>): State {
    if events == [] then State(Assignments.EMPTY, Playback.Empty(clock))
    else Step(Run(clock, events[..|events| - 1]), events[|events| - 1])
  }

  // Both sides know the same schedules, and a published one has a version.
  ghost predicate Linked(plans: map<Id, Assignments.Schedule>, versions: map<Id, Playback.Schedule>) {
    && plans.Keys == versions.Keys
    && forall k :: k in plans && plans[k].status == Assignments.Published ==> versions[k].hasSnapshot
  }

  ghost predicate Inv(s: State) {
    && Assignments.Inv(s.plans) && Playback.Inv(s.zones)
    && Linked(s.plans.schedules, s.zones.schedules)
  }

  lemma ZonesLeaveSchedules(z: Playback.State, e: ZoneEvent)
    ensures Playback.Step(z, e).schedules == z.schedules
  {
  }

  lemma VersionsAfter(z: Playback.State, elapsed: nat, edit: Assignments.Edit, effective: Playback.Effective)
    requires Consequence(edit, effective).Some?
    ensures var versions := Playback.Step(z, Playback.Event(elapsed, Consequence(edit, effective).value)).schedules;
      && (edit.CreateSchedule? && edit.schedule !in z.schedules ==>
            versions == z.schedules[edit.schedule := Playback.Schedule(1, false)])
      && (edit.Publish? && edit.schedule in z.schedules ==>
            versions == z.schedules[
              edit.schedule := Playback.Schedule(z.schedules[edit.schedule].version + 1, true)])
  {
  }

  lemma PlansAfter(s: Assignments.State, edit: Assignments.Edit)
    requires Assignments.Apply(s, edit).Ok?
    ensures var plans := Assignments.Apply(s, edit).value.schedules;
      && plans.Keys == s.schedules.Keys + (if edit.CreateSchedule? then {edit.schedule} else {})
      && (edit.CreateSchedule? ==> edit.schedule !in s.schedules)
      && (edit.Publish? ==> edit.schedule in s.schedules)
      && forall k :: k in plans && plans[k].status == Assignments.Published ==>
           (edit.Publish? && k == edit.schedule) || (k in s.schedules && s.schedules[k].status == Assignments.Published)
  {
  }

  lemma PlanKeepsLink(s: State, e: Event)
    requires Linked(s.plans.schedules, s.zones.schedules) && e.Plan? && Assignments.Apply(s.plans, e.edit).Ok?
    ensures Linked(Step(s, e).plans.schedules, Step(s, e).zones.schedules)
  {
    PlansAfter(s.plans, e.edit);
    if Consequence(e.edit, e.effective).Some? {
      VersionsAfter(s.zones, e.elapsed, e.edit, e.effective);
    }
  }

  lemma StepKeepsInv(s: State, e: Event)
    requires Inv(s)
    ensures Inv(Step(s, e))
  {
    match e
    case Play(event) =>
      Playback.StepKeepsInv(s.zones, event);
      ZonesLeaveSchedules(s.zones, event);
    case Plan(elapsed, edit, effective) =>
      Playback.TickKeepsInv(s.zones, elapsed);
      Assignments.StepKeepsInv(s.plans, edit);
      if Assignments.Apply(s.plans, edit).Ok? {
        PlanKeepsLink(s, e);
        var a := Consequence(edit, effective);
        if a.Some? {
          Playback.StepKeepsInv(s.zones, Playback.Event(elapsed, a.value));
        }
      }
  }

  lemma {:induction false} ReachableInv(clock: int, events: seq<Event>)
    ensures Inv(Run(clock, events))
  {
    if events != [] {
      ReachableInv(clock, events[..|events| - 1]);
      StepKeepsInv(Run(clock, events[..|events| - 1]), events[|events| - 1]);
    }
  }

  // ---------- the runtime follows the assignments ----------

  function ScheduleOf<C>(answer: Assignments.Effective<C>): Option<Id> {
    match answer
    case NothingAssigned => None
    case Effective(row, _) => Some(row.a.schedule)
  }

  ghost function CandidateRows(
    s: Assignments.State, zone: Assignments.Zone, at: int, localDate: Id -> int, rows: seq<Assignments.Row>)
    : iset<Assignments.Row>
  {
    iset x: Assignments.Row | x in rows && Assignments.Candidate(s, zone, at, localDate, x)
  }

  function Answer<C>(
    s: Assignments.State, zone: Assignments.Zone, at: int, localDate: Id -> int, rows: seq<Assignments.Row>,
    content: Id -> Option<C>): Assignments.Effective<C>
  {
    Assignments.Resolved(
      Sorting.StableSort(Assignments.Candidates(s, zone, at, localDate, rows), Assignments.ByKey()), content)
  }

  // A schedule in charge is published, so it has a newest version.
  lemma GoverningHasVersion<C>(
    s: State, zone: Assignments.Zone, at: int, localDate: Id -> int, rows: seq<Assignments.Row>,
    content: Id -> Option<C>)
    requires Inv(s) && Assignments.Lists(s.plans, rows)
    ensures var answer := Answer(s.plans, zone, at, localDate, rows, content);
      && Assignments.IsAnswer(CandidateRows(s.plans, zone, at, localDate, rows), content, answer)
      && (answer.Effective? ==>
            && Assignments.Candidate(s.plans, zone, at, localDate, answer.row)
            && answer.row.a.schedule in s.zones.schedules && s.zones.schedules[answer.row.a.schedule].hasSnapshot)
  {
    Assignments.AnswerIsGreatest(s.plans, zone, at, localDate, rows, content);
    var answer := Answer(s.plans, zone, at, localDate, rows, content);
    if answer.Effective? {
      assert answer.row in CandidateRows(s.plans, zone, at, localDate, rows);
    }
  }

  // A request for a zone's runtime, with what it reads besides the two sides' rows.
  datatype Request<C> = Request(
    zone: Assignments.Zone, localDate: Id -> int, rows: seq<Assignments.Row>, content: Id -> Option<C>,
    force: bool, assets: set<Id>, ttl: int)

  function AnswerTo<C>(s: State, q: Request<C>): Assignments.Effective<C> {
    Answer(s.plans, q.zone, s.zones.clock, q.localDate, q.rows, q.content)
  }

  // What the request gives at this instant.
  function RuntimeNow<C>(s: State, q: Request<C>): Result<(Playback.Zone, Playback.Runtime), Playback.Error>
    requires q.zone.id in s.zones.zones
  {
    Playback.Fetch(s.zones, s.zones.zones[q.zone.id], q.force, q.assets, s.zones.clock, q.ttl,
                   ScheduleOf(AnswerTo(s, q)))
  }

  // The request is for a known zone, reads the whole assignment table and is answered.
  ghost predicate Served<C>(s: State, q: Request<C>) {
    Assignments.Lists(s.plans, q.rows) && q.zone.id in s.zones.zones && RuntimeNow(s, q).Ok?
  }

  // After any run of edits, publications, assignments and requests, a device is handed the
  // newest version of the schedule that the assignments put in charge of its zone at that
  // instant, and none when nothing is in charge; with the newest version of the open channel.
  lemma RuntimeFollowsAssignments<C>(clock: int, events: seq<Event>, q: Request<C>)
    requires Served(Run(clock, events), q)
    ensures var s := Run(clock, events);
      var answer := AnswerTo(s, q);
      var (z, r) := RuntimeNow(s, q).value;
      && Assignments.IsAnswer(CandidateRows(s.plans, q.zone, s.zones.clock, q.localDate, q.rows), q.content, answer)
      && Assignments.Governs(s.plans, q.zone, s.zones.clock, q.localDate, q.rows, q.content, answer)
      && (if r.snapshot.None? then answer.NothingAssigned? && r == Playback.Runtime(Playback.NoPublishedConfiguration, None, None)
          else Playback.Fresh(s.zones, s.zones.zones[q.zone.id].open, ScheduleOf(answer), z, r))
      && match answer
         case NothingAssigned => r.snapshot.Some? ==> r.snapshot.value.schedule == None
         case Effective(row, _) =>
           && row.a.schedule in s.zones.schedules && r.snapshot.Some?
           && r.snapshot.value.schedule
              == Some(Playback.ScheduleSnapshot(row.a.schedule, s.zones.schedules[row.a.schedule].version))
  {
    var s := Run(clock, events);
    ReachableInv(clock, events);
    GoverningHasVersion(s, q.zone, s.zones.clock, q.localDate, q.rows, q.content);
    Assignments.AnswerGoverns(s.plans, q.zone, s.zones.clock, q.localDate, q.rows, q.content);
    Playback.FetchIsFresh(
      s.zones, s.zones.zones[q.zone.id], q.force, q.assets, q.ttl, ScheduleOf(AnswerTo(s, q)));
  }

  // ---------- publication follows the assignments ----------

  // effective is schedule resolution for every zone at one instant.
  ghost predicate Resolves<C>(
    effective: Playback.Effective, s: Assignments.State, at: int, zone: Id -> Assignments.Zone,
    localDate: Id -> int, rows: seq<Assignments.Row>, content: Id -> Option<C>)
  {
    forall z :: effective(z) == ScheduleOf(Answer(s, zone(z), at, localDate, rows, content))
  }

  // A zone after a publication: with the new version if the schedule governs it, else untouched.
  ghost predicate Reached(before: State, after: State, schedule: Id, z: Id, governs: bool)
    requires z in before.zones.zones
  {
    && schedule in after.zones.schedules && z in after.zones.zones
    && var zone := after.zones.zones[z];
       if !before.zones.zones[z].archived && governs then
         && zone.snapshots != []
         && zone.snapshots[|zone.snapshots| - 1].schedule
            == Some(Playback.ScheduleSnapshot(schedule, after.zones.schedules[schedule].version))
       else zone == before.zones.zones[z]
  }

  lemma PublicationReaches(
    s: State, elapsed: nat, schedule: Id, ready: bool, expected: nat, effective: Playback.Effective, z: Id)
    requires Inv(s) && z in s.zones.zones
    requires Assignments.Apply(s.plans, Assignments.Publish(schedule, ready, expected)).Ok?
    ensures var e := Plan(elapsed, Assignments.Publish(schedule, ready, expected), effective);
      Reached(s, Step(s, e), schedule, z, effective(z) == Some(schedule))
  {
    var edit := Assignments.Publish(schedule, ready, expected);
    PlansAfter(s.plans, edit);
    VersionsAfter(s.zones, elapsed, edit, effective);
    var a := Playback.PublishSchedule(schedule, true, effective);
    Playback.SchedulePublicationReachesZones(Playback.Tick(s.zones, elapsed), a, z);
    var after := Playback.DoPublishSchedule(Playback.Tick(s.zones, elapsed), a).value;
    assert Playback.Step(s.zones, Playback.Event(elapsed, a)) == after;
  }

  // Resolution after an accepted edit.
  lemma AnswerAfter<C>(
    s: Assignments.State, edit: Assignments.Edit, zone: Assignments.Zone, at: int, localDate: Id -> int,
    rows: seq<Assignments.Row>, content: Id -> Option<C>)
    requires Assignments.Inv(s) && Assignments.Apply(s, edit).Ok? && Assignments.Lists(Assignments.Apply(s, edit).value, rows)
    ensures var plans := Assignments.Apply(s, edit).value;
      Assignments.Governs(plans, zone, at, localDate, rows, content,
                          Answer(plans, zone, at, localDate, rows, content))
  {
    Assignments.StepKeepsInv(s, edit);
    Assignments.AnswerGoverns(Assignments.Apply(s, edit).value, zone, at, localDate, rows, content);
  }

  // Publishing a schedule brings its new version to every unarchived zone of which the
  // assignments, as the publication leaves them, put it in charge, and touches no other zone.
  lemma PublicationFollowsAssignments<C>(
    s: State, elapsed: nat, schedule: Id, ready: bool, expected: nat, effective: Playback.Effective,
    plans: Assignments.State, zone: Id -> Assignments.Zone, localDate: Id -> int, rows: seq<Assignments.Row>,
    content: Id -> Option<C>, z: Id)
    requires Inv(s) && z in s.zones.zones && Assignments.Lists(plans, rows)
    requires Assignments.Apply(s.plans, Assignments.Publish(schedule, ready, expected)) == Ok(plans)
    requires Resolves(effective, plans, s.zones.clock + elapsed, zone, localDate, rows, content)
    ensures var answer := Answer(plans, zone(z), s.zones.clock + elapsed, localDate, rows, content);
      Reached(s, Step(s, Plan(elapsed, Assignments.Publish(schedule, ready, expected), effective)), schedule, z,
              ScheduleOf(answer) == Some(schedule))
  {
    PublicationReaches(s, elapsed, schedule, ready, expected, effective, z);
  }
}
