// Which schedule governs a zone: assignments of schedules to company, site and zone scopes,
// kept free of clashes by every edit, and resolved by lock, priority and specificity.
module Assignments {
  import opened Wrappers
  import opened Sorting

  type Id = nat

  // There is one scope row per company, per site and per zone, so a scope is its target.
  datatype Scope = CompanyScope | SiteScope(site: Id) | ZoneScope(zone: Id)

  datatype Zone = Zone(id: Id, site: Id)

  datatype Assignment = Assignment(
    schedule: Id, scope: Scope, priority: int, locked: bool,
    startsAt: Option<int>, endsAt: Option<int>, active: bool, createdAt: int)

  datatype Status = Draft | Published | Disabled | Archived

  // What archive_schedule and disable_schedule leave behind.
  type WithdrawnStatus = s: Status | s == Disabled || s == Archived witness Archived

  datatype Schedule = Schedule(status: Status, revision: nat, validFrom: Option<int>, validUntil: Option<int>)

  datatype State = State(schedules: map<Id, Schedule>, assignments: map<Id, Assignment>)

  datatype Error = NotFound | RevisionConflict | Invalid | Conflict | NotPublishable

  datatype Patch = Patch(
    priority: Option<int>, locked: Option<bool>, startsAt: Option<Option<int>>,
    endsAt: Option<Option<int>>, active: Option<bool>)

  datatype Edit =
    | CreateSchedule(schedule: Id, from: Option<int>, until: Option<int>)
    | Assign(id: Id, data: Assignment, expected: nat)
    | Update(id: Id, patch: Patch, expected: nat)
    | Deactivate(id: Id, expected: nat)
    | Publish(schedule: Id, contentReady: bool, expected: nat)
    | Withdraw(schedule: Id, status: WithdrawnStatus, expected: nat)
    | Reactivate(schedule: Id, expected: nat)

  // ---------- edits ----------

  predicate CleanDates(a: Assignment) {
    a.startsAt.Some? && a.endsAt.Some? ==> a.startsAt.value < a.endsAt.value
  }

  // The two filters of the conflict query.
  predicate Meets(a: Assignment, other: Assignment) {
    && (a.endsAt.Some? && other.startsAt.Some? ==> other.startsAt.value < a.endsAt.value)
    && (a.startsAt.Some? && other.endsAt.Some? ==> other.endsAt.value > a.startsAt.value)
  }

  function Conflicts(table: map<Id, Assignment>, id: Id, a: Assignment): set<Id> {
    set o | o in table && o != id && table[o].active && table[o].scope == a.scope
            && table[o].priority == a.priority && Meets(a, table[o])
  }

  predicate Current(s: State, schedule: Id, expected: nat) {
    schedule in s.schedules && s.schedules[schedule].revision == expected
  }

  function Bump(s: State, schedule: Id): State
    requires schedule in s.schedules
  {
    s.(schedules := s.schedules[schedule := s.schedules[schedule].(revision := s.schedules[schedule].revision + 1)])
  }

  function WithStatus(s: State, schedule: Id, status: Status): State
    requires schedule in s.schedules
  {
    s.(schedules := s.schedules[schedule := s.schedules[schedule].(status := status)])
  }

  function Amended(a: Assignment, p: Patch): Assignment {
    a.(priority := Or(p.priority, a.priority), locked := Or(p.locked, a.locked),
       startsAt := Or(p.startsAt, a.startsAt), endsAt := Or(p.endsAt, a.endsAt),
       active := Or(p.active, a.active))
  }

  function AllInactive(table: map<Id, Assignment>, schedule: Id): map<Id, Assignment> {
    map i | i in table :: if table[i].schedule == schedule then table[i].(active := false) else table[i]
  }

  function Clashing(table: map<Id, Assignment>, schedule: Id): set<Id> {
    set i | i in table && table[i].active && table[i].schedule == schedule && Conflicts(table, i, table[i]) != {}
  }

  function Apply(s: State, edit: Edit): Result<State, Error> {
    match edit
    case CreateSchedule(schedule, from, until) =>
      if schedule in s.schedules || (from.Some? && until.Some? && until.value < from.value) then Err(Invalid)
      else Ok(s.(schedules := s.schedules[schedule := Schedule(Draft, 1, from, until)]))
    case Assign(id, data, expected) =>
      if data.schedule !in s.schedules then Err(NotFound)
      else if !Current(s, data.schedule, expected) then Err(RevisionConflict)
      else if id in s.assignments || !CleanDates(data) then Err(Invalid)
      else if Conflicts(s.assignments, id, data) != {} then Err(Conflict)
      else Ok(Bump(s.(assignments := s.assignments[id := data]), data.schedule))
    case Update(id, patch, expected) =>
      if id !in s.assignments || s.assignments[id].schedule !in s.schedules then Err(NotFound)
      else if !Current(s, s.assignments[id].schedule, expected) then Err(RevisionConflict)
      else
        var a := Amended(s.assignments[id], patch);
        if !CleanDates(a) then Err(Invalid)
        else if a.active && Conflicts(s.assignments, id, a) != {} then Err(Conflict)
        else Ok(Bump(s.(assignments := s.assignments[id := a]), a.schedule))
    case Deactivate(id, expected) =>
      if id !in s.assignments || s.assignments[id].schedule !in s.schedules then Err(NotFound)
      else if !Current(s, s.assignments[id].schedule, expected) then Err(RevisionConflict)
      else
        var a := s.assignments[id].(active := false);
        Ok(Bump(s.(assignments := s.assignments[id := a]), a.schedule))
    case Publish(schedule, contentReady, expected) =>
      if schedule !in s.schedules then Err(NotFound)
      else if !Current(s, schedule, expected) then Err(RevisionConflict)
      else if !contentReady then Err(NotPublishable)
      else if Clashing(s.assignments, schedule) != {} then Err(Conflict)
      else Ok(Bump(WithStatus(s, schedule, Published), schedule))
    case Withdraw(schedule, status, expected) =>
      if schedule !in s.schedules then Err(NotFound)
      else if !Current(s, schedule, expected) then Err(RevisionConflict)
      else Ok(Bump(WithStatus(s, schedule, status).(assignments := AllInactive(s.assignments, schedule)), schedule))
    case Reactivate(schedule, expected) =>
      if schedule !in s.schedules then Err(NotFound)
      else if !Current(s, schedule, expected) then Err(RevisionConflict)
      else Ok(Bump(WithStatus(s, schedule, Draft), schedule))
  }

  function Step(s: State, edit: Edit): State {
    var r := Apply(s, edit);
    if r.Ok? then r.value else s
  }

  function Run(s: State, edits: seq<Edit>): State {
    if edits == [] then s else Step(Run(s, edits[..|edits| - 1]), edits[|edits| - 1])
  }

  const EMPTY := State(map[], map[])

  // ---------- what every edit keeps ----------

  ghost predicate NoClash(table: map<Id, Assignment>) {
    forall i, j :: i in table && j in table && i != j && table[i].active && table[j].active
      && table[i].scope == table[j].scope && table[i].priority == table[j].priority
      ==> !Meets(table[i], table[j])
  }

  ghost predicate Inv(s: State) {
    && (forall i :: i in s.assignments ==> CleanDates(s.assignments[i]))
    && NoClash(s.assignments)
  }

  predicate InWindow(a: Assignment, at: int) {
    (a.startsAt.None? || a.startsAt.value <= at) && (a.endsAt.None? || a.endsAt.value > at)
  }

  // The conflict query is exact: it reports precisely the windows that share an instant.
  lemma MeetsIffSharedInstant(a: Assignment, b: Assignment)
    requires CleanDates(a) && CleanDates(b)
    ensures Meets(a, b) <==> exists at :: InWindow(a, at) && InWindow(b, at)
  {
    if Meets(a, b) {
      var from := if a.startsAt.Some? && (b.startsAt.None? || b.startsAt.value <= a.startsAt.value) then a.startsAt
                  else b.startsAt;
      var until := if a.endsAt.Some? && (b.endsAt.None? || a.endsAt.value <= b.endsAt.value) then a.endsAt
                   else b.endsAt;
      var at := if from.Some? then from.value else if until.Some? then until.value - 1 else 0;
      assert InWindow(a, at) && InWindow(b, at);
    }
  }

  lemma StoringKeepsNoClash(table: map<Id, Assignment>, id: Id, a: Assignment)
    requires NoClash(table) && (a.active ==> Conflicts(table, id, a) == {})
    ensures NoClash(table[id := a])
  {
    forall o | o in table && o != id && a.active && table[o].active
      && table[o].scope == a.scope && table[o].priority == a.priority
      ensures !Meets(a, table[o]) && !Meets(table[o], a)
    {
      assert o !in Conflicts(table, id, a);
    }
  }

  lemma StepKeepsInv(s: State, edit: Edit)
    requires Inv(s)
    ensures Inv(Step(s, edit))
  {
    match edit
    case Assign(id, data, _) =>
      if Apply(s, edit).Ok? {
        StoringKeepsNoClash(s.assignments, id, data);
      }
    case Update(id, patch, _) =>
      if Apply(s, edit).Ok? {
        StoringKeepsNoClash(s.assignments, id, Amended(s.assignments[id], patch));
      }
    case Deactivate(id, _) =>
      if Apply(s, edit).Ok? {
        StoringKeepsNoClash(s.assignments, id, s.assignments[id].(active := false));
      }
    case _ =>
  }

  lemma {:induction false} ReachableInv(edits: seq<Edit>)
    ensures Inv(Run(EMPTY, edits))
  {
    if edits != [] {
      ReachableInv(edits[..|edits| - 1]);
      StepKeepsInv(Run(EMPTY, edits[..|edits| - 1]), edits[|edits| - 1]);
    }
  }

  // Publishing looks for clashes again, and never finds one.
  lemma PublishNeverConflicts(edits: seq<Edit>, schedule: Id, contentReady: bool, expected: nat)
    ensures Apply(Run(EMPTY, edits), Publish(schedule, contentReady, expected)) != Err(Conflict)
  {
    ReachableInv(edits);
    var table := Run(EMPTY, edits).assignments;
    forall i | i in table && table[i].active ensures Conflicts(table, i, table[i]) == {} {
    }
  }

  // ---------- resolution ----------

  datatype Row = Row(id: Id, a: Assignment)

  function Specificity(scope: Scope): int {
    match scope
    case CompanyScope => 1
    case SiteScope(_) => 4
    case ZoneScope(_) => 5
  }

  predicate Relevant(zone: Zone, scope: Scope) {
    scope == CompanyScope || scope == SiteScope(zone.site) || scope == ZoneScope(zone.id)
  }

  predicate AppliesOn(schedule: Schedule, localDate: int) {
    && schedule.status == Published
    && (schedule.validFrom.None? || schedule.validFrom.value <= localDate)
    && (schedule.validUntil.None? || schedule.validUntil.value >= localDate)
  }

  // localDate gives the date at the instant in each schedule's own time zone.
  predicate Candidate(s: State, zone: Zone, at: int, localDate: Id -> int, row: Row) {
    && Relevant(zone, row.a.scope) && row.a.active && InWindow(row.a, at)
    && row.a.schedule in s.schedules
    && AppliesOn(s.schedules[row.a.schedule], localDate(row.a.schedule))
  }

  // Python compares the key tuples; reverse=True puts the greatest first.
  predicate Ahead(x: Assignment, y: Assignment) {
    if x.locked != y.locked then x.locked
    else if x.priority != y.priority then x.priority > y.priority
    else if Specificity(x.scope) != Specificity(y.scope) then Specificity(x.scope) > Specificity(y.scope)
    else x.createdAt > y.createdAt
  }

  // The same order without the creation time.
  predicate AheadByRank(x: Assignment, y: Assignment) {
    Ahead(x.(createdAt := 0), y.(createdAt := 0))
  }

  function ByKey(): (Row, Row) -> bool { (x: Row, y: Row) => Ahead(x.a, y.a) }

  function ByRank(): (Row, Row) -> bool { (x: Row, y: Row) => AheadByRank(x.a, y.a) }

  function Candidates(s: State, zone: Zone, at: int, localDate: Id -> int, rows: seq<Row>): (r: seq<Row>)
    ensures forall x :: x in r <==> x in rows && Candidate(s, zone, at, localDate, x)
  {
    if rows == [] then []
    else
      (if Candidate(s, zone, at, localDate, rows[0]) then [rows[0]] else [])
      + Candidates(s, zone, at, localDate, rows[1..])
  }

  // The loop of ordered_assignments_for_zone_at.
  method CollectCandidates(s: State, zone: Zone, at: int, localDate: Id -> int, rows: seq<Row>)
    returns (candidates: seq<Row>)
    ensures candidates == Candidates(s, zone, at, localDate, rows)
  {
    candidates := [];
    for i := 0 to |rows|
      invariant candidates == Candidates(s, zone, at, localDate, rows[..i])
    {
      assert rows[..i + 1] == rows[..i] + [rows[i]];
      CandidatesAppend(s, zone, at, localDate, rows[..i], [rows[i]]);
      if !Candidate(s, zone, at, localDate, rows[i]) {
        continue;
      }
      candidates := candidates + [rows[i]];
    }
    assert rows[..|rows|] == rows;
  }

  method OrderedAssignments(s: State, zone: Zone, at: int, localDate: Id -> int, rows: seq<Row>)
    returns (ordered: seq<Row>)
    ensures ordered == StableSort(Candidates(s, zone, at, localDate, rows), ByKey())
  {
    var candidates := CollectCandidates(s, zone, at, localDate, rows);
    ordered := StableSort(candidates, ByKey());
  }

  // content is what the schedule's exceptions and blocks offer at the instant.
  datatype Effective<C> = NothingAssigned | Effective(row: Row, content: Option<C>)

  function FirstWithContent<C>(ordered: seq<Row>, content: Id -> Option<C>): Option<Row> {
    if ordered == [] then None
    else if content(ordered[0].a.schedule).Some? then Some(ordered[0])
    else FirstWithContent(ordered[1..], content)
  }

  function Resolved<C>(ordered: seq<Row>, content: Id -> Option<C>): Effective<C> {
    if ordered == [] then NothingAssigned
    else
      var first := FirstWithContent(ordered, content);
      if first.Some? then Effective(first.value, content(first.value.a.schedule)) else Effective(ordered[0], None)
  }

  method Resolve<C>(s: State, zone: Zone, at: int, localDate: Id -> int, rows: seq<Row>, content: Id -> Option<C>)
    returns (effective: Effective<C>)
    ensures effective == Resolved(StableSort(Candidates(s, zone, at, localDate, rows), ByKey()), content)
  {
    var ordered := OrderedAssignments(s, zone, at, localDate, rows);
    if ordered == [] {
      return NothingAssigned;
    }
    for i := 0 to |ordered|
      invariant FirstWithContent(ordered, content) == FirstWithContent(ordered[i..], content)
    {
      assert ordered[i..][1..] == ordered[i + 1..];
      var found := content(ordered[i].a.schedule);
      if found.Some? {
        return Effective(ordered[i], found);
      }
    }
    return Effective(ordered[0], None);
  }

  // rows lists the assignment table, each row once, in any order.
  ghost predicate Lists(s: State, rows: seq<Row>) {
    && (forall x :: x in rows ==> x.id in s.assignments && s.assignments[x.id] == x.a)
    && (forall i :: i in s.assignments ==> Row(i, s.assignments[i]) in rows)
    && (forall i, j :: 0 <= i < j < |rows| ==> rows[i].id != rows[j].id)
  }

  lemma KeyOrdersAreWeak()
    ensures StrictWeakOrder(ByKey()) && StrictWeakOrder(ByRank())
  {
  }

  // Two different candidates for one zone and instant never share lock, priority and scope type.
  lemma CandidatesSeparated(s: State, zone: Zone, at: int, localDate: Id -> int, x: Row, y: Row)
    requires Inv(s) && x.id in s.assignments && y.id in s.assignments
    requires s.assignments[x.id] == x.a && s.assignments[y.id] == y.a && x != y
    requires Candidate(s, zone, at, localDate, x) && Candidate(s, zone, at, localDate, y)
    ensures x.a.priority != y.a.priority || Specificity(x.a.scope) != Specificity(y.a.scope)
  {
  }

  lemma KeySortIsRankSort(c: seq<Row>)
    requires Separates(c, ByRank())
    ensures StableSort(c, ByKey()) == StableSort(c, ByRank())
  {
    var byKey, byRank := StableSort(c, ByKey()), StableSort(c, ByRank());
    KeyOrdersAreWeak();
    SortSorted(c, ByKey());
    SortSorted(c, ByRank());
    SameElements(c, byKey);
    forall i, j | 0 <= i < j < |byKey| ensures !ByRank()(byKey[j], byKey[i]) {
      assert !ByKey()(byKey[j], byKey[i]);
    }
    SortedUnique(byKey, byRank, ByRank());
  }

  lemma CandidatesSeparate(s: State, zone: Zone, at: int, localDate: Id -> int, rows: seq<Row>)
    requires Inv(s) && Lists(s, rows)
    ensures Separates(Candidates(s, zone, at, localDate, rows), ByRank())
  {
  }

  // Dropping the creation time from the key does not change the order.
  lemma CreatedAtNeverDecides(s: State, zone: Zone, at: int, localDate: Id -> int, rows: seq<Row>)
    requires Inv(s) && Lists(s, rows)
    ensures var c := Candidates(s, zone, at, localDate, rows);
      Separates(c, ByRank()) && StableSort(c, ByKey()) == StableSort(c, ByRank())
  {
    CandidatesSeparate(s, zone, at, localDate, rows);
    KeySortIsRankSort(Candidates(s, zone, at, localDate, rows));
  }

  lemma {:induction false} CandidatesCount(
    s: State, zone: Zone, at: int, localDate: Id -> int, rows: seq<Row>, x: Row)
    ensures multiset(Candidates(s, zone, at, localDate, rows))[x]
         == if Candidate(s, zone, at, localDate, x) then multiset(rows)[x] else 0
  {
    if rows != [] {
      CandidatesCount(s, zone, at, localDate, rows[1..], x);
      assert rows == [rows[0]] + rows[1..];
    }
  }

  lemma {:induction false} CandidatesAppend(
    s: State, zone: Zone, at: int, localDate: Id -> int, a: seq<Row>, b: seq<Row>)
    ensures Candidates(s, zone, at, localDate, a + b)
         == Candidates(s, zone, at, localDate, a) + Candidates(s, zone, at, localDate, b)
  {
    if a == [] {
      assert a + b == b;
    } else {
      assert (a + b)[1..] == a[1..] + b;
      CandidatesAppend(s, zone, at, localDate, a[1..], b);
    }
  }

  lemma CandidatesPermuted(s: State, zone: Zone, at: int, localDate: Id -> int, a: seq<Row>, b: seq<Row>)
    requires multiset(a) == multiset(b)
    ensures multiset(Candidates(s, zone, at, localDate, a)) == multiset(Candidates(s, zone, at, localDate, b))
  {
    var ca, cb := Candidates(s, zone, at, localDate, a), Candidates(s, zone, at, localDate, b);
    forall x ensures multiset(ca)[x] == multiset(cb)[x] {
      CandidatesCount(s, zone, at, localDate, a, x);
      CandidatesCount(s, zone, at, localDate, b, x);
    }
  }

  lemma {:induction false} FirstWithContentIsGreatest<C>(ordered: seq<Row>, content: Id -> Option<C>)
    requires Sorted(ordered, ByRank())
    ensures match FirstWithContent(ordered, content)
      case None => forall x :: x in ordered ==> content(x.a.schedule).None?
      case Some(f) =>
        && f in ordered && content(f.a.schedule).Some?
        && forall x :: x in ordered && content(x.a.schedule).Some? ==> !AheadByRank(x.a, f.a)
  {
    if ordered != [] {
      if content(ordered[0].a.schedule).Some? {
        forall x | x in ordered ensures !AheadByRank(x.a, ordered[0].a) {
          var j :| 0 <= j < |ordered| && ordered[j] == x;
          assert j > 0 ==> !ByRank()(ordered[j], ordered[0]);
        }
      } else {
        assert forall x :: x in ordered ==> x == ordered[0] || x in ordered[1..];
        FirstWithContentIsGreatest(ordered[1..], content);
      }
    }
  }

  ghost predicate IsGreatest(row: Row, among: iset<Row>) {
    row in among && forall x :: x in among && x != row ==> AheadByRank(row.a, x.a)
  }

  // The strictly greatest candidate that has content, or the strictly greatest candidate with
  // nothing to play, or nothing when there is no candidate.
  ghost predicate IsAnswer<C>(all: iset<Row>, content: Id -> Option<C>, answer: Effective<C>) {
    var playing := iset x: Row | x in all && content(x.a.schedule).Some?;
    match answer
    case NothingAssigned => all == iset{}
    case Effective(row, found) =>
      && found == content(row.a.schedule)
      && if playing != iset{} then IsGreatest(row, playing) else found == None && IsGreatest(row, all)
  }

  lemma SortedHeadIsGreatest(ordered: seq<Row>)
    requires Sorted(ordered, ByRank()) && Separates(ordered, ByRank()) && ordered != []
    ensures IsGreatest(ordered[0], iset x: Row | x in ordered)
  {
  }

  lemma ResolvedIsGreatest<C>(ordered: seq<Row>, content: Id -> Option<C>)
    requires Sorted(ordered, ByRank()) && Separates(ordered, ByRank())
    ensures IsAnswer((iset x: Row | x in ordered), content, Resolved(ordered, content))
  {
    FirstWithContentIsGreatest(ordered, content);
    var all := iset x: Row | x in ordered;
    var playing := iset x: Row | x in all && content(x.a.schedule).Some?;
    match FirstWithContent(ordered, content)
    case None =>
      if ordered != [] {
        SortedHeadIsGreatest(ordered);
      }
      assert playing == iset{};
    case Some(first) =>
      assert first in playing;
      forall x | x in playing && x != first ensures AheadByRank(first.a, x.a) {
        assert ByRank()(first, x) || ByRank()(x, first);
      }
  }

  lemma OrderedFacts(s: State, zone: Zone, at: int, localDate: Id -> int, rows: seq<Row>)
    requires Inv(s) && Lists(s, rows)
    ensures var ordered := StableSort(Candidates(s, zone, at, localDate, rows), ByKey());
      && Sorted(ordered, ByRank()) && Separates(ordered, ByRank())
      && forall x :: x in ordered <==> x in rows && Candidate(s, zone, at, localDate, x)
  {
    var c := Candidates(s, zone, at, localDate, rows);
    CreatedAtNeverDecides(s, zone, at, localDate, rows);
    KeyOrdersAreWeak();
    SortSorted(c, ByRank());
    SameElements(c, StableSort(c, ByKey()));
  }

  lemma AnswerIsGreatest<C>(
    s: State, zone: Zone, at: int, localDate: Id -> int, rows: seq<Row>, content: Id -> Option<C>)
    requires Inv(s) && Lists(s, rows)
    ensures IsAnswer((iset x: Row | x in rows && Candidate(s, zone, at, localDate, x)), content,
                     Resolved(StableSort(Candidates(s, zone, at, localDate, rows), ByKey()), content))
  {
    OrderedFacts(s, zone, at, localDate, rows);
    var ordered := StableSort(Candidates(s, zone, at, localDate, rows), ByKey());
    ResolvedIsGreatest(ordered, content);
    assert (iset x: Row | x in rows && Candidate(s, zone, at, localDate, x)) == iset x: Row | x in ordered;
  }

  // What the resolver answers after any run of edits.
  lemma ResolutionIsGreatest<C>(
    edits: seq<Edit>, zone: Zone, at: int, localDate: Id -> int, rows: seq<Row>, content: Id -> Option<C>)
    requires Lists(Run(EMPTY, edits), rows)
    ensures var s := Run(EMPTY, edits);
      IsAnswer((iset x: Row | x in rows && Candidate(s, zone, at, localDate, x)), content,
               Resolved(StableSort(Candidates(s, zone, at, localDate, rows), ByKey()), content))
  {
    ReachableInv(edits);
    AnswerIsGreatest(Run(EMPTY, edits), zone, at, localDate, rows, content);
  }

  lemma KeySeparates(c: seq<Row>)
    requires Separates(c, ByRank())
    ensures Separates(c, ByKey())
  {
  }

  // And it does not depend on the order in which the rows are read.
  lemma ResolutionIsDeterministic<C>(
    edits: seq<Edit>, zone: Zone, at: int, localDate: Id -> int, a: seq<Row>, b: seq<Row>, content: Id -> Option<C>)
    requires Lists(Run(EMPTY, edits), a) && multiset(a) == multiset(b)
    ensures var s := Run(EMPTY, edits);
      Resolved(StableSort(Candidates(s, zone, at, localDate, a), ByKey()), content)
      == Resolved(StableSort(Candidates(s, zone, at, localDate, b), ByKey()), content)
  {
    var s := Run(EMPTY, edits);
    ReachableInv(edits);
    CandidatesSeparate(s, zone, at, localDate, a);
    CandidatesPermuted(s, zone, at, localDate, a, b);
    KeyOrdersAreWeak();
    var ca := Candidates(s, zone, at, localDate, a);
    KeySeparates(ca);
    SortCanonical(ca, Candidates(s, zone, at, localDate, b), ByKey());
  }

  // ---------- which assignment governs, in plain terms ----------

  // The assignment is for the zone, in force at the instant, and its schedule is published and
  // valid on its local date.
  predicate Applies(s: State, zone: Zone, at: int, localDate: Id -> int, a: Assignment) {
    && (a.scope.CompanyScope? || a.scope == SiteScope(zone.site) || a.scope == ZoneScope(zone.id))
    && a.active && (a.startsAt.Some? ==> a.startsAt.value <= at) && (a.endsAt.Some? ==> at < a.endsAt.value)
    && a.schedule in s.schedules
    && var schedule := s.schedules[a.schedule];
       && schedule.status == Published
       && (schedule.validFrom.Some? ==> schedule.validFrom.value <= localDate(a.schedule))
       && (schedule.validUntil.Some? ==> localDate(a.schedule) <= schedule.validUntil.value)
  }

  // A lock wins, then the greater priority, then the narrower scope.
  predicate Wins(a: Assignment, b: Assignment) {
    || (a.locked && !b.locked)
    || (a.locked == b.locked && a.priority > b.priority)
    || (a.locked == b.locked && a.priority == b.priority
        && ((a.scope.ZoneScope? && !b.scope.ZoneScope?) || (a.scope.SiteScope? && b.scope.CompanyScope?)))
  }

  // The winner among the applicable assignments whose schedule has content, else the winner among
  // all applicable ones, with nothing to play, else nothing.
  ghost predicate Governs<C>(
    s: State, zone: Zone, at: int, localDate: Id -> int, rows: seq<Row>, content: Id -> Option<C>, answer: Effective<C>)
  {
    match answer
    case NothingAssigned => forall x :: x in rows ==> !Applies(s, zone, at, localDate, x.a)
    case Effective(row, found) =>
      && row in rows && Applies(s, zone, at, localDate, row.a) && found == content(row.a.schedule)
      && forall x :: x in rows && x != row && Applies(s, zone, at, localDate, x.a) ==>
           if found.Some? then content(x.a.schedule).Some? ==> Wins(row.a, x.a)
           else content(x.a.schedule).None? && Wins(row.a, x.a)
  }

  lemma CandidateApplies(s: State, zone: Zone, at: int, localDate: Id -> int, x: Row)
    ensures Candidate(s, zone, at, localDate, x) <==> Applies(s, zone, at, localDate, x.a)
  {
  }

  lemma AheadWins(a: Assignment, b: Assignment)
    ensures AheadByRank(a, b) <==> Wins(a, b)
  {
  }

  lemma AnswerGoverns<C>(
    s: State, zone: Zone, at: int, localDate: Id -> int, rows: seq<Row>, content: Id -> Option<C>)
    requires Inv(s) && Lists(s, rows)
    ensures Governs(s, zone, at, localDate, rows, content,
                    Resolved(StableSort(Candidates(s, zone, at, localDate, rows), ByKey()), content))
  {
    AnswerIsGreatest(s, zone, at, localDate, rows, content);
    var all := iset x: Row | x in rows && Candidate(s, zone, at, localDate, x);
    var answer := Resolved(StableSort(Candidates(s, zone, at, localDate, rows), ByKey()), content);
    GreatestGoverns(s, zone, at, localDate, rows, all, content, answer);
  }

  lemma GreatestGoverns<C>(
    s: State, zone: Zone, at: int, localDate: Id -> int, rows: seq<Row>, all: iset<Row>, content: Id -> Option<C>,
    answer: Effective<C>)
    requires all == iset x: Row | x in rows && Candidate(s, zone, at, localDate, x)
    requires IsAnswer(all, content, answer)
    ensures Governs(s, zone, at, localDate, rows, content, answer)
  {
    forall x | x in rows ensures x in all <==> Applies(s, zone, at, localDate, x.a) {
      CandidateApplies(s, zone, at, localDate, x);
    }
    if answer.Effective? {
      var playing := iset x: Row | x in all && content(x.a.schedule).Some?;
      var row := answer.row;
      assert row in all;
      assert playing != iset{} ==> row in playing;
      forall x | x in all && x != row
        ensures answer.content.Some? && content(x.a.schedule).Some? ==> Wins(row.a, x.a)
        ensures answer.content.None? ==> content(x.a.schedule).None? && Wins(row.a, x.a)
      {
        AheadWins(row.a, x.a);
        assert content(x.a.schedule).Some? ==> x in playing;
      }
    }
  }

  // After any run of edits the resolver names the assignment that governs.
  lemma ResolutionGoverns<C>(
    edits: seq<Edit>, zone: Zone, at: int, localDate: Id -> int, rows: seq<Row>, content: Id -> Option<C>)
    requires Lists(Run(EMPTY, edits), rows)
    ensures Governs(Run(EMPTY, edits), zone, at, localDate, rows, content,
                    Resolved(StableSort(Candidates(Run(EMPTY, edits), zone, at, localDate, rows), ByKey()), content))
  {
    ReachableInv(edits);
    AnswerGoverns(Run(EMPTY, edits), zone, at, localDate, rows, content);
  }

  // ---------- what an accepted edit does ----------

  // Two active assignments of one scope and priority that share an instant.
  ghost predicate Collide(a: Assignment, b: Assignment) {
    a.scope == b.scope && a.priority == b.priority && exists at :: InWindow(a, at) && InWindow(b, at)
  }

  lemma ConflictIffCollides(s: State, id: Id, a: Assignment)
    requires Inv(s) && CleanDates(a)
    ensures Conflicts(s.assignments, id, a) == {} <==>
      forall o :: o in s.assignments && o != id && s.assignments[o].active ==> !Collide(a, s.assignments[o])
  {
    forall o | o in s.assignments && o != id && s.assignments[o].active
      ensures o in Conflicts(s.assignments, id, a) <==> Collide(a, s.assignments[o])
    {
      MeetsIffSharedInstant(a, s.assignments[o]);
    }
  }

  predicate DatesInOrder(a: Assignment) {
    a.startsAt.Some? && a.endsAt.Some? ==> a.startsAt.value < a.endsAt.value
  }

  lemma AssignAcceptedIff(s: State, id: Id, data: Assignment, expected: nat)
    requires Inv(s)
    ensures Apply(s, Assign(id, data, expected)).Ok? <==>
      && data.schedule in s.schedules && s.schedules[data.schedule].revision == expected
      && id !in s.assignments && DatesInOrder(data)
      && forall o :: o in s.assignments && s.assignments[o].active ==> !Collide(data, s.assignments[o])
  {
    if DatesInOrder(data) {
      ConflictIffCollides(s, id, data);
    }
  }

  // The row that an update asks for.
  function Wanted(a: Assignment, p: Patch): Assignment {
    Assignment(
      a.schedule, a.scope, if p.priority.Some? then p.priority.value else a.priority,
      if p.locked.Some? then p.locked.value else a.locked,
      if p.startsAt.Some? then p.startsAt.value else a.startsAt,
      if p.endsAt.Some? then p.endsAt.value else a.endsAt,
      if p.active.Some? then p.active.value else a.active, a.createdAt)
  }

  lemma UpdateAcceptedIff(s: State, id: Id, p: Patch, expected: nat)
    requires Inv(s) && id in s.assignments && s.assignments[id].schedule in s.schedules
    ensures var row := Wanted(s.assignments[id], p);
      Apply(s, Update(id, p, expected)).Ok? <==>
        && s.schedules[row.schedule].revision == expected && DatesInOrder(row)
        && (row.active ==>
              forall o :: o in s.assignments && o != id && s.assignments[o].active ==> !Collide(row, s.assignments[o]))
  {
    var row := Wanted(s.assignments[id], p);
    assert row == Amended(s.assignments[id], p);
    if DatesInOrder(row) {
      ConflictIffCollides(s, id, row);
    }
  }

  // The other edits of a schedule need its revision; publication needs content ready as well, and
  // no clash stands in its way.
  lemma ScheduleEditAcceptedIff(s: State, k: Id, ready: bool, status: WithdrawnStatus, expected: nat)
    requires Inv(s)
    ensures var current := k in s.schedules && s.schedules[k].revision == expected;
      && (Apply(s, Publish(k, ready, expected)).Ok? <==> current && ready)
      && (Apply(s, Withdraw(k, status, expected)).Ok? <==> current)
      && (Apply(s, Reactivate(k, expected)).Ok? <==> current)
  {
    forall i | i in s.assignments && s.assignments[i].active
      ensures Conflicts(s.assignments, i, s.assignments[i]) == {}
    {
    }
    assert Clashing(s.assignments, k) == {};
  }

  // Every accepted edit of a schedule moves its revision by one and leaves the other schedules;
  // the rows it does not name stay.
  lemma EditEffect(s: State, edit: Edit)
    requires Apply(s, edit).Ok?
    ensures var s' := Apply(s, edit).value;
      match edit
      case CreateSchedule(k, from, until) =>
        s'.assignments == s.assignments && s'.schedules == s.schedules[k := Schedule(Draft, 1, from, until)]
      case Assign(id, data, _) =>
        && s'.assignments == s.assignments[id := data] && Moved(s, s', data.schedule, s.schedules[data.schedule].status)
      case Update(id, p, _) =>
        && s'.assignments == s.assignments[id := Wanted(s.assignments[id], p)]
        && Moved(s, s', s.assignments[id].schedule, s.schedules[s.assignments[id].schedule].status)
      case Deactivate(id, _) =>
        && s'.assignments == s.assignments[id := s.assignments[id].(active := false)]
        && Moved(s, s', s.assignments[id].schedule, s.schedules[s.assignments[id].schedule].status)
      case Publish(k, ready, _) => ready && s'.assignments == s.assignments && Moved(s, s', k, Published)
      case Withdraw(k, status, _) =>
        && Moved(s, s', k, status) && s'.assignments.Keys == s.assignments.Keys
        && forall i :: i in s.assignments ==>
             s'.assignments[i] == (if s.assignments[i].schedule == k then s.assignments[i].(active := false)
                                   else s.assignments[i])
      case Reactivate(k, _) => s'.assignments == s.assignments && Moved(s, s', k, Draft)
  {
  }

  predicate Moved(s: State, s': State, k: Id, status: Status) {
    && k in s.schedules
    && s'.schedules == s.schedules[k := Schedule(
         status, s.schedules[k].revision + 1, s.schedules[k].validFrom, s.schedules[k].validUntil)]
  }

  // A withdrawn schedule governs nothing, and reactivating it brings no assignment back.
  lemma WithdrawnGovernsNothing(
    s: State, schedule: Id, status: WithdrawnStatus, expected: nat, again: nat, zone: Zone, at: int,
    localDate: Id -> int, row: Row)
    requires Apply(s, Withdraw(schedule, status, expected)).Ok?
    requires var s' := Step(Step(s, Withdraw(schedule, status, expected)), Reactivate(schedule, again));
      row.id in s'.assignments && s'.assignments[row.id] == row.a && row.a.schedule == schedule
    ensures var s' := Step(Step(s, Withdraw(schedule, status, expected)), Reactivate(schedule, again));
      !Candidate(s', zone, at, localDate, row)
  {
  }

  // ---------- the edits in place ----------

  class AssignmentTable {
    var schedules: map<Id, Schedule>
    var assignments: map<Id, Assignment>

    function Snapshot(): State
      reads this
    {
      State(schedules, assignments)
    }

    constructor ()
      ensures Snapshot() == EMPTY
    {
      schedules, assignments := map[], map[];
    }

    method BumpRevision(schedule: Id)
      requires schedule in schedules
      modifies `schedules
      ensures Snapshot() == Bump(old(Snapshot()), schedule)
    {
      var row := schedules[schedule];
      schedules := schedules[schedule := row.(revision := row.revision + 1)];
    }

    method CreateAssignment(id: Id, data: Assignment, expected: nat) returns (error: Option<Error>)
      requires id !in assignments && data.schedule in schedules
      modifies this
      ensures var edit := Assign(id, data, expected);
        && Snapshot() == Step(old(Snapshot()), edit)
        && (error == None <==> Apply(old(Snapshot()), edit).Ok?)
        && (error.Some? ==> Apply(old(Snapshot()), edit) == Err(error.value))
    {
      if schedules[data.schedule].revision != expected {
        return Some(RevisionConflict);
      }
      if !CleanDates(data) {
        return Some(Invalid);
      }
      var saved := assignments;
      assignments := assignments[id := data];
      assert Conflicts(assignments, id, data) == Conflicts(saved, id, data);
      if Conflicts(assignments, id, data) != {} {
        assignments := saved;
        return Some(Conflict);
      }
      BumpRevision(data.schedule);
      return None;
    }

    method UpdateAssignment(id: Id, patch: Patch, expected: nat) returns (error: Option<Error>)
      modifies this
      ensures var edit := Update(id, patch, expected);
        && Snapshot() == Step(old(Snapshot()), edit)
        && (error == None <==> Apply(old(Snapshot()), edit).Ok?)
        && (error.Some? ==> Apply(old(Snapshot()), edit) == Err(error.value))
    {
      if id !in assignments || assignments[id].schedule !in schedules {
        return Some(NotFound);
      }
      if schedules[assignments[id].schedule].revision != expected {
        return Some(RevisionConflict);
      }
      var saved := assignments;
      var a := Amended(assignments[id], patch);
      if !CleanDates(a) {
        return Some(Invalid);
      }
      assignments := assignments[id := a];
      assert Conflicts(assignments, id, a) == Conflicts(saved, id, a);
      if a.active && Conflicts(assignments, id, a) != {} {
        assignments := saved;
        return Some(Conflict);
      }
      BumpRevision(a.schedule);
      return None;
    }

    method DeactivateAssignment(id: Id, expected: nat) returns (error: Option<Error>)
      modifies this
      ensures var edit := Deactivate(id, expected);
        && Snapshot() == Step(old(Snapshot()), edit)
        && (error == None <==> Apply(old(Snapshot()), edit).Ok?)
        && (error.Some? ==> Apply(old(Snapshot()), edit) == Err(error.value))
    {
      if id !in assignments || assignments[id].schedule !in schedules {
        return Some(NotFound);
      }
      var a := assignments[id];
      if schedules[a.schedule].revision != expected {
        return Some(RevisionConflict);
      }
      assignments := assignments[id := a.(active := false)];
      BumpRevision(a.schedule);
      return None;
    }

    // The checks of publish_schedule, down to the loop over its active assignments.
    method PublishSchedule(schedule: Id, contentReady: bool, expected: nat) returns (error: Option<Error>)
      requires schedule in schedules
      modifies this
      ensures var edit := Publish(schedule, contentReady, expected);
        && Snapshot() == Step(old(Snapshot()), edit)
        && (error == None <==> Apply(old(Snapshot()), edit).Ok?)
        && (error.Some? ==> Apply(old(Snapshot()), edit) == Err(error.value))
    {
      if schedules[schedule].revision != expected {
        return Some(RevisionConflict);
      }
      if !contentReady {
        return Some(NotPublishable);
      }
      var todo := set i | i in assignments && assignments[i].active && assignments[i].schedule == schedule;
      while todo != {}
        invariant assignments == old(assignments) && schedules == old(schedules)
        invariant Clashing(assignments, schedule) <= todo
        invariant forall i :: i in todo ==>
          i in assignments && assignments[i].active && assignments[i].schedule == schedule
        decreases todo
      {
        var id :| id in todo;
        if Conflicts(assignments, id, assignments[id]) != {} {
          assert id in Clashing(assignments, schedule);
          return Some(Conflict);
        }
        todo := todo - {id};
      }
      schedules := schedules[schedule := schedules[schedule].(status := Published)];
      BumpRevision(schedule);
      return None;
    }

    // archive_schedule and disable_schedule
    method WithdrawSchedule(schedule: Id, status: WithdrawnStatus, expected: nat) returns (error: Option<Error>)
      requires schedule in schedules
      modifies this
      ensures var edit := Withdraw(schedule, status, expected);
        && Snapshot() == Step(old(Snapshot()), edit)
        && (error == None <==> Apply(old(Snapshot()), edit).Ok?)
        && (error.Some? ==> Apply(old(Snapshot()), edit) == Err(error.value))
    {
      if schedules[schedule].revision != expected {
        return Some(RevisionConflict);
      }
      schedules := schedules[schedule := schedules[schedule].(status := status)];
      assignments := AllInactive(assignments, schedule);
      BumpRevision(schedule);
      return None;
    }
  }
}
