// Remote commands for the devices of one company: supersession, delivery, expiry and
// acknowledgement.
module Commands {
  import opened Wrappers
  import opened Sorting

  type Id = nat

  const BATCH_SIZE := 50
  const DEFAULT_LIFETIME := 300

  datatype Kind = SetVolume | Mute | Unmute | RestartPlayback | ForceSync | Enable | Disable | Unapproved

  datatype Payload = Empty | VolumeOnly(volume: int) | Other

  datatype Status = Pending | Delivered | Acknowledged | Executed | Failed | Expired | Cancelled

  // The statuses the acknowledgement endpoint accepts.
  type AckStatus = s: Status | s in {Acknowledged, Executed, Failed} witness Acknowledged

  datatype Command = Command(
    id: Id, device: Id, kind: Kind, status: Status, createdAt: int, expiresAt: int,
    deliveredAt: Option<int>, key: Option<Id>)

  datatype State = State(rows: seq<Command>, clock: int)

  datatype Error = InvalidKind | InvalidPayload | NotFound | HasExpired | AlreadyFinal

  datatype Action =
    | Create(id: Id, device: Id, kind: Kind, payload: Payload, expiresAt: Option<int>, key: Option<Id>)
    | Deliver(device: Id)
    | Acknowledge(device: Id, id: Id, status: AckStatus)

  datatype Event = Event(elapsed: nat, action: Action)

  datatype Family = VolumeFamily | PowerFamily

  function FamilyOf(kind: Kind): Option<Family> {
    match kind
    case SetVolume | Mute | Unmute => Some(VolumeFamily)
    case Enable | Disable => Some(PowerFamily)
    case _ => None
  }

  predicate PayloadOk(kind: Kind, payload: Payload) {
    if kind == SetVolume then payload.VolumeOnly? && 0 <= payload.volume <= 100 else payload.Empty?
  }

  function Map(rows: seq<Command>, f: Command -> Command): (r: seq<Command>)
    ensures |r| == |rows| && forall i :: 0 <= i < |rows| ==> r[i] == f(rows[i])
  {
    seq(|rows|, i requires 0 <= i < |rows| => f(rows[i]))
  }

  // ---------- create ----------

  function WithKey(rows: seq<Command>, key: Option<Id>): Option<Command> {
    if rows == [] || key.None? then None
    else if rows[0].key == key then Some(rows[0])
    else WithKey(rows[1..], key)
  }

  // A newer command of the same family cancels the ones still waiting.
  function Superseded(device: Id, kind: Kind): Command -> Command {
    (c: Command) =>
      if c.device == device && FamilyOf(kind).Some? && FamilyOf(c.kind) == FamilyOf(kind) && c.status == Pending
      then c.(status := Cancelled) else c
  }

  function Created(a: Action, now: int): Command
    requires a.Create?
  {
    Command(a.id, a.device, a.kind, Pending, now,
            if a.expiresAt.Some? then a.expiresAt.value else now + DEFAULT_LIFETIME, None, a.key)
  }

  function DoCreate(s: State, a: Action): Result<(State, Command), Error>
    requires a.Create?
  {
    if a.kind == Unapproved then Err(InvalidKind)
    else if !PayloadOk(a.kind, a.payload) then Err(InvalidPayload)
    else if WithKey(s.rows, a.key).Some? then Ok((s, WithKey(s.rows, a.key).value))
    else
      var created := Created(a, s.clock);
      Ok((s.(rows := Map(s.rows, Superseded(a.device, a.kind)) + [created]), created))
  }

  // ---------- deliver ----------

  predicate Open(c: Command) { c.status == Pending || c.status == Delivered }

  function Lapsed(device: Id, now: int): Command -> Command {
    (c: Command) => if c.device == device && Open(c) && c.expiresAt <= now then c.(status := Expired) else c
  }

  predicate Live(c: Command, device: Id, now: int) { c.device == device && Open(c) && c.expiresAt > now }

  function LiveRows(rows: seq<Command>, device: Id, now: int): (r: seq<Command>)
    ensures forall c :: c in r <==> c in rows && Live(c, device, now)
  {
    if rows == [] then []
    else (if Live(rows[0], device, now) then [rows[0]] else []) + LiveRows(rows[1..], device, now)
  }

  function ByCreation(): (Command, Command) -> bool {
    (a: Command, b: Command) => a.createdAt < b.createdAt || (a.createdAt == b.createdAt && a.id < b.id)
  }

  function BatchOf(rows: seq<Command>, device: Id, now: int): seq<Command> {
    var live := StableSort(LiveRows(rows, device, now), ByCreation());
    if |live| <= BATCH_SIZE then live else live[..BATCH_SIZE]
  }

  function HandedOver(batch: seq<Command>, now: int): Command -> Command {
    (c: Command) =>
      if c in batch && c.status == Pending then c.(status := Delivered, deliveredAt := Some(now)) else c
  }

  function DoDeliver(s: State, device: Id): (State, seq<Command>) {
    var rows := Map(s.rows, Lapsed(device, s.clock));
    var batch := BatchOf(rows, device, s.clock);
    (s.(rows := Map(rows, HandedOver(batch, s.clock))), Map(batch, HandedOver(batch, s.clock)))
  }

  // ---------- acknowledge ----------

  function Find(rows: seq<Command>, device: Id, id: Id): Option<nat> {
    if rows == [] then None
    else if rows[0].id == id && rows[0].device == device then Some(0)
    else
      var rest := Find(rows[1..], device, id);
      if rest.Some? then Some(rest.value + 1) else None
  }

  lemma {:induction false} FindFinds(rows: seq<Command>, device: Id, id: Id)
    ensures var i := Find(rows, device, id);
      i.Some? ==> i.value < |rows| && rows[i.value].id == id && rows[i.value].device == device
  {
    if rows != [] {
      FindFinds(rows[1..], device, id);
    }
  }

  predicate Final(status: Status) { status == Executed || status == Failed }

  function DoAcknowledge(s: State, device: Id, id: Id, status: AckStatus): Result<State, Error> {
    FindFinds(s.rows, device, id);
    var i := Find(s.rows, device, id);
    if i.None? then Err(NotFound)
    else
      var c := s.rows[i.value];
      if c.expiresAt <= s.clock then Err(HasExpired)
      else if Final(c.status) then if c.status == status then Ok(s) else Err(AlreadyFinal)
      else Ok(s.(rows := s.rows[i.value := c.(status := status)]))
  }

  // ---------- runs ----------

  function Commit(s: State, a: Action): State {
    match a
    case Create(_, _, _, _, _, _) =>
      var r := DoCreate(s, a);
      if r.Ok? then r.value.0 else s
    case Deliver(device) => DoDeliver(s, device).0
    case Acknowledge(device, id, status) =>
      var r := DoAcknowledge(s, device, id, status);
      if r.Ok? then r.value else s
  }

  function Tick(s: State, elapsed: nat): State { s.(clock := s.clock + elapsed) }

  function Step(s: State, e: Event): State { Commit(Tick(s, e.elapsed), e.action) }

  function Run(s: State, events: seq<Event>): State {
    if events == [] then s else Step(Run(s, events[..|events| - 1]), events[|events| - 1])
  }

  // Identifiers are drawn fresh, as random UUIDs are.
  ghost predicate FreshIds(s: State, events: seq<Event>) {
    if events == [] then true
    else
      var before := Run(s, events[..|events| - 1]);
      var a := events[|events| - 1].action;
      FreshIds(s, events[..|events| - 1])
      && (a.Create? ==> forall i :: 0 <= i < |before.rows| ==> before.rows[i].id != a.id)
  }

  // ---------- invariants ----------

  predicate SameFamily(a: Command, b: Command) {
    a.device == b.device && FamilyOf(a.kind).Some? && FamilyOf(a.kind) == FamilyOf(b.kind)
  }

  ghost predicate RowSound(c: Command, clock: int) {
    && c.createdAt <= clock
    && (c.status == Pending || c.status == Cancelled ==> c.deliveredAt.None?)
    && (c.status == Expired ==> c.expiresAt <= clock)
  }

  ghost predicate PairSound(a: Command, b: Command) {
    && a.id != b.id
    && (a.key.Some? ==> a.key != b.key)
    && (SameFamily(a, b) ==> a.status != Pending || b.status != Pending)
    && a.createdAt <= b.createdAt
  }

  ghost predicate Inv(s: State) {
    && (forall i :: 0 <= i < |s.rows| ==> RowSound(s.rows[i], s.clock))
    && (forall i, j :: 0 <= i < j < |s.rows| ==> PairSound(s.rows[i], s.rows[j]))
  }

  // What an update of the rows may do to one of them.
  ghost predicate Evolves(a: Command, b: Command) {
    && b == a.(status := b.status, deliveredAt := b.deliveredAt)
    && (b.status == Pending ==> a.status == Pending)
    && (Final(a.status) || a.status == Expired ==> b.status == a.status)
  }

  ghost predicate AllEvolve(before: seq<Command>, after: seq<Command>) {
    |before| <= |after| && forall i :: 0 <= i < |before| ==> Evolves(before[i], after[i])
  }

  lemma EvolvingKeepsPairs(before: seq<Command>, after: seq<Command>)
    requires |before| == |after| && AllEvolve(before, after)
    requires forall i, j :: 0 <= i < j < |before| ==> PairSound(before[i], before[j])
    ensures forall i, j :: 0 <= i < j < |after| ==> PairSound(after[i], after[j])
  {
  }

  lemma {:induction false} WithKeyNone(rows: seq<Command>, key: Option<Id>)
    requires WithKey(rows, key).None? && key.Some?
    ensures forall i :: 0 <= i < |rows| ==> rows[i].key != key
  {
    if rows != [] {
      WithKeyNone(rows[1..], key);
      forall i | 0 <= i < |rows| ensures rows[i].key != key {
        if i > 0 {
          assert rows[1..][i - 1] == rows[i];
        }
      }
    }
  }

  lemma CreateStep(s: State, a: Action)
    requires Inv(s) && a.Create? && DoCreate(s, a).Ok?
    requires forall i :: 0 <= i < |s.rows| ==> s.rows[i].id != a.id
    ensures Inv(DoCreate(s, a).value.0) && AllEvolve(s.rows, DoCreate(s, a).value.0.rows)
  {
    if WithKey(s.rows, a.key).None? {
      var rows := Map(s.rows, Superseded(a.device, a.kind));
      forall i | 0 <= i < |rows| ensures Evolves(s.rows[i], rows[i]) && RowSound(rows[i], s.clock) {
        assert RowSound(s.rows[i], s.clock);
      }
      EvolvingKeepsPairs(s.rows, rows);
      if a.key.Some? {
        WithKeyNone(s.rows, a.key);
      }
      var created := Created(a, s.clock);
      forall i | 0 <= i < |rows| ensures PairSound(rows[i], created) {
        assert RowSound(s.rows[i], s.clock);
      }
    }
  }

  lemma DeliverStep(s: State, device: Id)
    requires Inv(s)
    ensures Inv(DoDeliver(s, device).0) && AllEvolve(s.rows, DoDeliver(s, device).0.rows)
  {
    var after := DoDeliver(s, device).0.rows;
    forall i | 0 <= i < |after| ensures Evolves(s.rows[i], after[i]) && RowSound(after[i], s.clock) {
      assert RowSound(s.rows[i], s.clock);
    }
    EvolvingKeepsPairs(s.rows, after);
  }

  lemma AcknowledgeStep(s: State, device: Id, id: Id, status: AckStatus)
    requires Inv(s) && DoAcknowledge(s, device, id, status).Ok?
    ensures var s' := DoAcknowledge(s, device, id, status).value;
      Inv(s') && AllEvolve(s.rows, s'.rows)
  {
    FindFinds(s.rows, device, id);
    var i := Find(s.rows, device, id).value;
    var after := DoAcknowledge(s, device, id, status).value.rows;
    assert RowSound(s.rows[i], s.clock);
    forall j | 0 <= j < |after| ensures Evolves(s.rows[j], after[j]) && RowSound(after[j], s.clock) {
      assert RowSound(s.rows[j], s.clock);
    }
    EvolvingKeepsPairs(s.rows, after);
  }

  lemma TickKeepsInv(s: State, elapsed: nat)
    requires Inv(s)
    ensures Inv(Tick(s, elapsed))
  {
  }

  // One step keeps the invariants and never takes a command out of a terminal status.
  lemma StepEvolves(s: State, e: Event)
    requires Inv(s)
    requires e.action.Create? ==> forall i :: 0 <= i < |s.rows| ==> s.rows[i].id != e.action.id
    ensures Inv(Step(s, e)) && AllEvolve(s.rows, Step(s, e).rows)
  {
    TickKeepsInv(s, e.elapsed);
    var now := Tick(s, e.elapsed);
    match e.action
    case Create(_, _, _, _, _, _) =>
      if DoCreate(now, e.action).Ok? {
        CreateStep(now, e.action);
      }
    case Deliver(device) => DeliverStep(now, device);
    case Acknowledge(device, id, status) =>
      if DoAcknowledge(now, device, id, status).Ok? {
        AcknowledgeStep(now, device, id, status);
      }
  }

  function NoCommands(clock: int): State { State([], clock) }

  lemma {:induction false} ReachableInv(clock: int, events: seq<Event>)
    requires FreshIds(NoCommands(clock), events)
    ensures Inv(Run(NoCommands(clock), events))
  {
    if events != [] {
      ReachableInv(clock, events[..|events| - 1]);
      StepEvolves(Run(NoCommands(clock), events[..|events| - 1]), events[|events| - 1]);
    }
  }

  // The lifecycle over whole runs.
  lemma Lifecycle(clock: int, events: seq<Event>, i: nat, j: nat)
    requires FreshIds(NoCommands(clock), events)
    requires var rows := Run(NoCommands(clock), events).rows; i < |rows| && j < |rows| && i != j
    ensures var rows := Run(NoCommands(clock), events).rows;
      // at most one command of a family waits for a device
      && (SameFamily(rows[i], rows[j]) ==> !(rows[i].status == Pending && rows[j].status == Pending))
      // an idempotency key names at most one command
      && (rows[i].key.Some? ==> rows[i].key != rows[j].key)
      // a cancelled command was never handed to the device
      && (rows[i].status == Cancelled ==> rows[i].deliveredAt.None?)
  {
    ReachableInv(clock, events);
    var s := Run(NoCommands(clock), events);
    assert RowSound(s.rows[i], s.clock);
    assert if i < j then PairSound(s.rows[i], s.rows[j]) else PairSound(s.rows[j], s.rows[i]);
  }

  // Executed, failed and expired commands stay so however the run goes on.
  lemma {:induction false} TerminalIsAbsorbing(clock: int, events: seq<Event>, more: seq<Event>, i: nat)
    requires FreshIds(NoCommands(clock), events + more)
    requires i < |Run(NoCommands(clock), events).rows|
    requires var c := Run(NoCommands(clock), events).rows[i]; Final(c.status) || c.status == Expired
    ensures var after := Run(NoCommands(clock), events + more).rows;
      i < |after| && after[i].id == Run(NoCommands(clock), events).rows[i].id
      && after[i].status == Run(NoCommands(clock), events).rows[i].status
    decreases |more|
  {
    if more == [] {
      assert events + more == events;
    } else {
      var all := events + more;
      assert all[..|all| - 1] == events + more[..|more| - 1];
      TerminalIsAbsorbing(clock, events, more[..|more| - 1], i);
      ReachableInv(clock, all[..|all| - 1]);
      StepEvolves(Run(NoCommands(clock), all[..|all| - 1]), all[|all| - 1]);
    }
  }

  // Repeating a creation with the same idempotency key returns the first command, whatever
  // was asked for the second time.
  lemma CreationIsIdempotent(s: State, a: Action, b: Action)
    requires a.Create? && b.Create? && a.key.Some? && b.key == a.key
    requires DoCreate(s, a).Ok? && b.kind != Unapproved && PayloadOk(b.kind, b.payload)
    ensures DoCreate(DoCreate(s, a).value.0, b) == Ok(DoCreate(s, a).value)
  {
    var (s', c) := DoCreate(s, a).value;
    if WithKey(s.rows, a.key).None? {
      var kept := Map(s.rows, Superseded(a.device, a.kind));
      WithKeyNone(s.rows, a.key);
      FirstWithKey(kept, c);
    }
  }

  lemma {:induction false} FirstWithKey(rows: seq<Command>, c: Command)
    requires c.key.Some? && forall i :: 0 <= i < |rows| ==> rows[i].key != c.key
    ensures WithKey(rows + [c], c.key) == Some(c)
  {
    if rows != [] {
      assert (rows + [c])[1..] == rows[1..] + [c];
      assert rows[0].key != c.key;
      FirstWithKey(rows[1..], c);
    }
  }

  lemma {:induction false} FindAfter(rows: seq<Command>, device: Id, id: Id, i: nat, c: Command)
    requires i < |rows| && c.id == rows[i].id && c.device == rows[i].device
    ensures Find(rows[i := c], device, id) == Find(rows, device, id)
  {
    if i > 0 {
      assert rows[i := c][1..] == rows[1..][i - 1 := c];
      FindAfter(rows[1..], device, id, i - 1, c);
    } else {
      assert rows[i := c][1..] == rows[1..];
    }
  }

  // An accepted acknowledgement is recorded on that command alone; repeating it is accepted and
  // changes nothing, and a final one can be neither contradicted nor taken back.
  lemma AcknowledgementIsIdempotent(s: State, device: Id, id: Id, status: AckStatus, other: AckStatus)
    requires DoAcknowledge(s, device, id, status).Ok?
    ensures var s' := DoAcknowledge(s, device, id, status).value;
      && (exists i :: 0 <= i < |s.rows| && s.rows[i].id == id && s.rows[i].device == device
            && s.rows[i].expiresAt > s.clock && s'.rows == s.rows[i := s.rows[i].(status := status)])
      && DoAcknowledge(s', device, id, status) == Ok(s')
      && (Final(status) && other != status ==> DoAcknowledge(s', device, id, other) == Err(AlreadyFinal))
  {
    FindFinds(s.rows, device, id);
    var i := Find(s.rows, device, id).value;
    var c := s.rows[i].(status := status);
    FindAfter(s.rows, device, id, i, c);
    assert s.rows[i := c][i := c] == s.rows[i := c];
    assert DoAcknowledge(s, device, id, status).value.rows == s.rows[i := c];
  }

  // At most one command of this kind waits for a device.
  ghost predicate OnePending(rows: seq<Command>, kind: Kind) {
    forall i, j :: 0 <= i < j < |rows| && rows[i].device == rows[j].device && rows[i].kind == kind == rows[j].kind ==>
      rows[i].status != Pending || rows[j].status != Pending
  }

  // Two commands of a kind without a family wait side by side: none supersedes the other.
  lemma UnfamiliedCommandsPileUp(clock: int, device: Id, kind: Kind) returns (events: seq<Event>)
    requires kind != Unapproved && FamilyOf(kind).None?
    ensures FreshIds(NoCommands(clock), events)
    ensures var rows := Run(NoCommands(clock), events).rows;
      && |rows| == 2 && rows[0].device == device == rows[1].device && rows[0].kind == kind == rows[1].kind
      && rows[0].status == Pending == rows[1].status
  {
    var first := Event(0, Create(1, device, kind, Empty, None, None));
    var second := Event(0, Create(2, device, kind, Empty, None, None));
    events := [first, second];
    var none: seq<Event> := [];
    assert events[..1] == [first] && [first][..0] == none;
    assert Run(NoCommands(clock), none) == NoCommands(clock) && FreshIds(NoCommands(clock), none);
    var s1 := Run(NoCommands(clock), [first]);
    assert s1 == Step(NoCommands(clock), first);
    assert s1.rows == [Created(first.action, clock)];
    assert FreshIds(NoCommands(clock), [first]);
    assert Run(NoCommands(clock), events) == Step(s1, second);
  }

  // Over all runs, a device has at most one command of a kind waiting exactly when the kind
  // belongs to a family.
  lemma OnePendingIff(kind: Kind)
    requires kind != Unapproved
    ensures (forall clock: int, events: seq<Event> ::
               FreshIds(NoCommands(clock), events) ==> OnePending(Run(NoCommands(clock), events).rows, kind))
      <==> FamilyOf(kind).Some?
  {
    if FamilyOf(kind).Some? {
      forall clock: int, events: seq<Event> | FreshIds(NoCommands(clock), events)
        ensures OnePending(Run(NoCommands(clock), events).rows, kind)
      {
        var rows := Run(NoCommands(clock), events).rows;
        forall i, j | 0 <= i < j < |rows| && rows[i].device == rows[j].device && rows[i].kind == kind == rows[j].kind
          ensures rows[i].status != Pending || rows[j].status != Pending
        {
          Lifecycle(clock, events, i, j);
        }
      }
    } else {
      var events := UnfamiliedCommandsPileUp(0, 0, kind);
      assert !OnePending(Run(NoCommands(0), events).rows, kind);
    }
  }

  // ---------- deliveries ----------

  lemma CreationOrderIsWeak()
    ensures StrictWeakOrder(ByCreation())
  {
  }

  lemma {:induction false} LapsingKeepsLive(rows: seq<Command>, device: Id, now: int)
    ensures LiveRows(Map(rows, Lapsed(device, now)), device, now) == LiveRows(rows, device, now)
  {
    if rows != [] {
      LapsingKeepsLive(rows[1..], device, now);
      assert Map(rows, Lapsed(device, now))[1..] == Map(rows[1..], Lapsed(device, now));
    }
  }

  // The live commands of a device in creation order are the batch followed by the rest, and
  // something is left over only when the batch is full.
  lemma BatchIsOldestPrefix(rows: seq<Command>, device: Id, now: int) returns (rest: seq<Command>)
    ensures var batch := BatchOf(rows, device, now);
      && Sorted(batch + rest, ByCreation())
      && multiset(batch + rest) == multiset(LiveRows(rows, device, now))
      && |batch| <= BATCH_SIZE && (rest != [] ==> |batch| == BATCH_SIZE)
  {
    var live := LiveRows(rows, device, now);
    var sorted := StableSort(live, ByCreation());
    CreationOrderIsWeak();
    SortSorted(live, ByCreation());
    var batch := BatchOf(rows, device, now);
    rest := sorted[|batch|..];
    assert batch + rest == sorted;
  }

  lemma BatchIsLive(rows: seq<Command>, device: Id, now: int)
    ensures forall c :: c in BatchOf(rows, device, now) ==> Live(c, device, now)
  {
    var live := LiveRows(rows, device, now);
    SameElements(live, StableSort(live, ByCreation()));
  }

  // What is handed over is that batch, every command of it unexpired and now delivered.
  lemma DeliveryHandsOverBatch(s: State, device: Id)
    ensures var batch := BatchOf(s.rows, device, s.clock);
      var given := DoDeliver(s, device).1;
      && |given| == |batch|
      && forall i :: 0 <= i < |given| ==>
           && Live(batch[i], device, s.clock)
           && given[i] == batch[i].(
                status := Delivered,
                deliveredAt := if batch[i].status == Pending then Some(s.clock) else batch[i].deliveredAt)
  {
    LapsingKeepsLive(s.rows, device, s.clock);
    BatchIsLive(s.rows, device, s.clock);
    var batch := BatchOf(s.rows, device, s.clock);
    assert BatchOf(Map(s.rows, Lapsed(device, s.clock)), device, s.clock) == batch;
    forall i | 0 <= i < |batch| ensures batch[i] in batch && Live(batch[i], device, s.clock) {
    }
  }

  // ---------- each operation, in plain terms ----------

  predicate VolumeKind(kind: Kind) { kind == SetVolume || kind == Mute || kind == Unmute }

  predicate PowerKind(kind: Kind) { kind == Enable || kind == Disable }

  // A creation is accepted exactly for an approved kind, with a volume of 0 to 100 and nothing else
  // to set the volume, and with nothing otherwise.
  lemma CreateAcceptedIff(s: State, a: Action)
    requires a.Create?
    ensures DoCreate(s, a).Ok? <==>
      && a.kind != Unapproved
      && if a.kind == SetVolume then a.payload.VolumeOnly? && 0 <= a.payload.volume && a.payload.volume <= 100
         else a.payload == Empty
  {
  }

  // c is the first command of this key.
  ghost predicate FirstOfKey(rows: seq<Command>, key: Option<Id>, c: Command, i: int) {
    && 0 <= i < |rows| && rows[i] == c && c.key == key
    && forall j :: 0 <= j < i ==> rows[j].key != key
  }

  // An accepted creation under a known key returns the first command of that key and changes
  // nothing; otherwise the command is added, waiting, for five minutes unless told otherwise, and
  // cancels exactly the waiting volume or power commands of the device if it is one itself.
  lemma CreateEffect(s: State, a: Action)
    requires a.Create? && DoCreate(s, a).Ok?
    ensures var (s', c) := DoCreate(s, a).value;
      if a.key.Some? && exists i :: 0 <= i < |s.rows| && s.rows[i].key == a.key then
        s' == s && exists i :: FirstOfKey(s.rows, a.key, c, i)
      else
        && c == Command(a.id, a.device, a.kind, Pending, s.clock,
                        if a.expiresAt.Some? then a.expiresAt.value else s.clock + 300, None, a.key)
        && s'.clock == s.clock && |s'.rows| == |s.rows| + 1 && s'.rows[|s.rows|] == c
        && forall i :: 0 <= i < |s.rows| ==>
             var was := s.rows[i];
             s'.rows[i] ==
               if was.device == a.device && was.status == Pending
                  && ((VolumeKind(a.kind) && VolumeKind(was.kind)) || (PowerKind(a.kind) && PowerKind(was.kind)))
               then was.(status := Cancelled) else was
  {
    if a.key.Some? {
      var i := WithKeyIs(s.rows, a.key);
    }
  }

  lemma {:induction false} WithKeyIs(rows: seq<Command>, key: Option<Id>) returns (i: nat)
    requires key.Some?
    ensures match WithKey(rows, key)
      case None => forall j :: 0 <= j < |rows| ==> rows[j].key != key
      case Some(c) => FirstOfKey(rows, key, c, i)
  {
    i := 0;
    if rows != [] && rows[0].key != key {
      var k := WithKeyIs(rows[1..], key);
      i := k + 1;
      forall j | 0 < j < |rows| ensures rows[j] == rows[1..][j - 1] {
      }
    }
  }

  // The device may still execute the command at this time.
  predicate Deliverable(c: Command, device: Id, now: int) {
    c.device == device && (c.status == Pending || c.status == Delivered) && now < c.expiresAt
  }

  // The older of two commands, by time of creation and then by identifier.
  predicate Older(a: Command, b: Command) { a.createdAt < b.createdAt || (a.createdAt == b.createdAt && a.id < b.id) }

  ghost predicate GivenOut(given: seq<Command>, c: Command) { exists j :: 0 <= j < |given| && given[j].id == c.id }

  lemma BatchFromRows(s: State, device: Id, i: nat)
    requires i < |BatchOf(s.rows, device, s.clock)|
    ensures BatchOf(s.rows, device, s.clock)[i] in s.rows
    ensures Deliverable(BatchOf(s.rows, device, s.clock)[i], device, s.clock)
  {
    var live := LiveRows(s.rows, device, s.clock);
    SameElements(live, StableSort(live, ByCreation()));
    assert BatchOf(s.rows, device, s.clock)[i] in live;
  }

  lemma DifferentIds(s: State, a: Command, b: Command)
    requires Inv(s) && a in s.rows && b in s.rows && a != b
    ensures a.id != b.id
  {
    var x :| 0 <= x < |s.rows| && s.rows[x] == a;
    var y :| 0 <= y < |s.rows| && s.rows[y] == b;
    assert if x < y then PairSound(s.rows[x], s.rows[y]) else PairSound(s.rows[y], s.rows[x]);
  }

  lemma GivenIffInBatch(s: State, device: Id, c: Command)
    requires Inv(s) && c in s.rows
    ensures GivenOut(DoDeliver(s, device).1, c) <==> c in BatchOf(s.rows, device, s.clock)
  {
    var batch := BatchOf(s.rows, device, s.clock);
    DeliveryHandsOverBatch(s, device);
    var given := DoDeliver(s, device).1;
    if GivenOut(given, c) {
      var j :| 0 <= j < |given| && given[j].id == c.id;
      BatchFromRows(s, device, j);
      if batch[j] != c {
        DifferentIds(s, batch[j], c);
      }
    }
    if c in batch {
      var j :| 0 <= j < |batch| && batch[j] == c;
      assert given[j].id == c.id;
    }
  }

  // A delivery expires what has run out, marks what it hands over, and leaves every other row.
  lemma DeliverEffect(s: State, device: Id, i: nat)
    requires Inv(s) && i < |s.rows|
    ensures var (s', given) := DoDeliver(s, device);
      var c := s.rows[i];
      && |s'.rows| == |s.rows| && s'.clock == s.clock
      && s'.rows[i] ==
           if c.device == device && (c.status == Pending || c.status == Delivered) && c.expiresAt <= s.clock then
             c.(status := Expired)
           else if c.status == Pending && GivenOut(given, c) then
             c.(status := Delivered, deliveredAt := Some(s.clock))
           else c
  {
    var c := s.rows[i];
    GivenIffInBatch(s, device, c);
    LapsingKeepsLive(s.rows, device, s.clock);
    BatchIsLive(s.rows, device, s.clock);
  }

  lemma BatchIsStrict(s: State, device: Id, i: nat, j: nat)
    requires Inv(s) && i < j < |BatchOf(s.rows, device, s.clock)|
    ensures BatchOf(s.rows, device, s.clock)[i].id != BatchOf(s.rows, device, s.clock)[j].id
  {
    var sorted := StableSort(LiveRows(s.rows, device, s.clock), ByCreation());
    RowsOnce(s);
    LiveOnce(s.rows, device, s.clock, sorted[i]);
    BatchFromRows(s, device, i);
    BatchFromRows(s, device, j);
    if sorted[i] == sorted[j] {
      TwiceIn(sorted, i, j);
    }
    DifferentIds(s, sorted[i], sorted[j]);
  }

  lemma RowsOnce(s: State)
    requires Inv(s)
    ensures forall i, j :: 0 <= i < j < |s.rows| ==> s.rows[i] != s.rows[j]
  {
    forall i, j | 0 <= i < j < |s.rows| ensures s.rows[i] != s.rows[j] {
      assert PairSound(s.rows[i], s.rows[j]);
    }
  }

  lemma {:induction false} LiveOnce(rows: seq<Command>, device: Id, now: int, c: Command)
    requires forall i, j :: 0 <= i < j < |rows| ==> rows[i] != rows[j]
    ensures multiset(LiveRows(rows, device, now))[c] <= 1
  {
    if rows != [] {
      LiveOnce(rows[1..], device, now, c);
      if rows[0] == c {
        assert c !in rows[1..];
      }
    }
  }

  lemma BatchIsOrdered(s: State, device: Id, i: nat, j: nat)
    requires Inv(s) && i < j < |BatchOf(s.rows, device, s.clock)|
    ensures Older(BatchOf(s.rows, device, s.clock)[i], BatchOf(s.rows, device, s.clock)[j])
  {
    var batch := BatchOf(s.rows, device, s.clock);
    BatchIsStrict(s, device, i, j);
    var rest := BatchIsOldestPrefix(s.rows, device, s.clock);
    assert !ByCreation()((batch + rest)[j], (batch + rest)[i]);
  }

  lemma LeftOutIsYounger(s: State, device: Id, c: Command, j: nat)
    requires Inv(s) && c in s.rows && Deliverable(c, device, s.clock)
    requires c !in BatchOf(s.rows, device, s.clock)
    ensures |BatchOf(s.rows, device, s.clock)| == 50
    ensures j < 50 ==> Older(BatchOf(s.rows, device, s.clock)[j], c)
  {
    var batch := BatchOf(s.rows, device, s.clock);
    var rest := BatchIsOldestPrefix(s.rows, device, s.clock);
    SameElements(batch + rest, LiveRows(s.rows, device, s.clock));
    assert c in batch + rest;
    var k :| 0 <= k < |rest| && rest[k] == c;
    if j < 50 {
      BatchFromRows(s, device, j);
      DifferentIds(s, batch[j], c);
      assert !ByCreation()((batch + rest)[|batch| + k], (batch + rest)[j]);
    }
  }

  // What it hands over are the oldest deliverable commands of the device, oldest first, fifty at the
  // most: one that is left out is younger than all of them, and there are fifty.
  lemma DeliveryIsOldest(s: State, device: Id, c: Command)
    requires Inv(s) && c in s.rows && Deliverable(c, device, s.clock)
    ensures var given := DoDeliver(s, device).1;
      && |given| <= 50
      && (forall i, j :: 0 <= i < j < |given| ==> Older(given[i], given[j]))
      && (!GivenOut(given, c) ==> |given| == 50 && forall j :: 0 <= j < |given| ==> Older(given[j], c))
  {
    var given := DoDeliver(s, device).1;
    DeliveryHandsOverBatch(s, device);
    GivenIffInBatch(s, device, c);
    forall i, j | 0 <= i < j < |given| ensures Older(given[i], given[j]) {
      BatchIsOrdered(s, device, i, j);
    }
    if !GivenOut(given, c) {
      forall j | 0 <= j < |given| ensures Older(given[j], c) {
        LeftOutIsYounger(s, device, c, j);
      }
      LeftOutIsYounger(s, device, c, 0);
    }
  }

  // An acknowledgement is accepted exactly for a command of the device that has not run out, and
  // that has no other final result yet.
  lemma AcknowledgeAcceptedIff(s: State, device: Id, id: Id, status: AckStatus)
    requires Inv(s)
    ensures DoAcknowledge(s, device, id, status).Ok? <==>
      exists i :: 0 <= i < |s.rows| && s.rows[i].id == id && s.rows[i].device == device
        && s.clock < s.rows[i].expiresAt
        && (s.rows[i].status == Executed || s.rows[i].status == Failed ==> s.rows[i].status == status)
  {
    FindFinds(s.rows, device, id);
    FindComplete(s.rows, device, id);
    if i :| 0 <= i < |s.rows| && s.rows[i].id == id && s.rows[i].device == device {
      var k := Find(s.rows, device, id).value;
      if i != k {
        DifferentRows(s, i, k);
      }
    }
  }

  lemma DifferentRows(s: State, i: nat, k: nat)
    requires Inv(s) && i < |s.rows| && k < |s.rows| && i != k
    ensures s.rows[i].id != s.rows[k].id
  {
    assert if i < k then PairSound(s.rows[i], s.rows[k]) else PairSound(s.rows[k], s.rows[i]);
  }

  lemma {:induction false} FindComplete(rows: seq<Command>, device: Id, id: Id)
    ensures Find(rows, device, id).None? ==>
      forall i :: 0 <= i < |rows| ==> rows[i].id != id || rows[i].device != device
  {
    if rows != [] {
      FindComplete(rows[1..], device, id);
      forall i | 0 <= i < |rows| && Find(rows, device, id).None?
        ensures rows[i].id != id || rows[i].device != device
      {
        assert i > 0 ==> rows[i] == rows[1..][i - 1];
      }
    }
  }

  // ---------- the table in place ----------

  class CommandTable {
    var rows: seq<Command>
    var clock: int

    function Snapshot(): State
      reads this
    {
      State(rows, clock)
    }

    constructor (now: int)
      ensures Snapshot() == NoCommands(now)
    {
      rows, clock := [], now;
    }

    method CreateCommand(
      id: Id, device: Id, kind: Kind, payload: Payload, expiresAt: Option<int>, key: Option<Id>, now: int)
      returns (r: Result<Command, Error>)
      requires now >= clock
      modifies this
      ensures var e := Event(now - old(clock), Create(id, device, kind, payload, expiresAt, key));
        var made := DoCreate(Tick(old(Snapshot()), e.elapsed), e.action);
        && Snapshot() == Step(old(Snapshot()), e)
        && r == (if made.Ok? then Ok(made.value.1) else Err(made.error))
    {
      clock := now;
      if kind == Unapproved {
        return Err(InvalidKind);
      }
      if kind == SetVolume {
        if !payload.VolumeOnly? || !(0 <= payload.volume <= 100) {
          return Err(InvalidPayload);
        }
      } else if !payload.Empty? {
        return Err(InvalidPayload);
      }
      if key.Some? {
        var existing := WithKey(rows, key);
        if existing.Some? {
          return Ok(existing.value);
        }
      }
      assert WithKey(rows, key).None?;
      if FamilyOf(kind).Some? {
        rows := Map(rows, Superseded(device, kind));
      }
      assert rows == Map(old(rows), Superseded(device, kind));
      var expiry := if expiresAt.Some? then expiresAt.value else clock + DEFAULT_LIFETIME;
      var created := Command(id, device, kind, Pending, clock, expiry, None, key);
      rows := rows + [created];
      return Ok(created);
    }

    // The loop over the commands that are handed over.
    method MarkDelivered(batch: seq<Command>, now: int) returns (commands: seq<Command>)
      ensures commands == Map(batch, HandedOver(batch, now))
    {
      commands := [];
      for i := 0 to |batch|
        invariant commands == Map(batch, HandedOver(batch, now))[..i]
      {
        var c := batch[i];
        commands := commands + [if c.status == Pending then c.(status := Delivered, deliveredAt := Some(now)) else c];
      }
      assert commands == Map(batch, HandedOver(batch, now));
    }

    method DeliverCommands(device: Id, now: int) returns (commands: seq<Command>)
      requires now >= clock
      modifies this
      ensures Snapshot() == Step(old(Snapshot()), Event(now - old(clock), Deliver(device)))
      ensures commands == DoDeliver(Tick(old(Snapshot()), now - old(clock)), device).1
    {
      clock := now;
      rows := Map(rows, Lapsed(device, clock));
      var batch := BatchOf(rows, device, clock);
      rows := Map(rows, HandedOver(batch, clock));
      commands := MarkDelivered(batch, clock);
    }

    method AcknowledgeCommand(device: Id, id: Id, status: AckStatus, now: int) returns (error: Option<Error>)
      requires now >= clock
      modifies this
      ensures var e := Event(now - old(clock), Acknowledge(device, id, status));
        var r := DoAcknowledge(Tick(old(Snapshot()), e.elapsed), device, id, status);
        && Snapshot() == Step(old(Snapshot()), e)
        && error == (if r.Ok? then None else Some(r.error))
    {
      clock := now;
      FindFinds(rows, device, id);
      var i := Find(rows, device, id);
      if i.None? {
        return Some(NotFound);
      }
      var saved := rows;
      var c := rows[i.value];
      if c.expiresAt <= clock {
        // The expiry is written, and undone with the rest of the transaction.
        rows := rows[i.value := c.(status := Expired)];
        rows := saved;
        return Some(HasExpired);
      }
      if c.status == Executed || c.status == Failed {
        return if c.status == status then None else Some(AlreadyFinal);
      }
      rows := rows[i.value := c.(status := status)];
      return None;
    }
  }
}
