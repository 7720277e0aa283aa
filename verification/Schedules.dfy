// Weekly schedules: blocks and dated exceptions under edits with overlap checks, the payload
// that publishing freezes, and the two resolvers (the database one and the player's) that
// must pick the same entry from it.
module Schedules {
  import opened Wrappers
  import opened Sorting
  import opened Text

  type Id = nat

  const SECOND := 1_000_000
  const DAY := 86_400 * SECOND

  // A wall-clock time in microseconds since midnight.
  type TimeOfDay = t: int | 0 <= t < DAY

  datatype Kind =
    | ChannelBlock | PlaylistBlock | SilenceBlock
    | ReplaceException | SilenceException | VolumeException
  {
    predicate IsBlock() { ChannelBlock? || PlaylistBlock? || SilenceBlock? }
    predicate NeedsPlaylist() { PlaylistBlock? || ReplaceException? }
    predicate IsSilence() { SilenceBlock? || SilenceException? }
  }

  // day is the weekday of a block (0 = Monday) and the date of an exception.
  datatype Slot = Slot(day: int, start: TimeOfDay, end: TimeOfDay, priority: int)

  datatype Entry = Entry(
    slot: Slot, kind: Kind, playlist: Option<Id>, channel: Option<Id>, volume: Option<int>, createdAt: int)

  // latest maps a playlist to its newest published snapshot; published holds the playlists
  // that can be scheduled now. A playlist never loses its published snapshots.
  datatype State = State(
    blocks: map<Id, Entry>, exceptions: map<Id, Entry>, revision: nat,
    validFrom: Option<int>, validUntil: Option<int>,
    latest: map<Id, Id>, published: set<Id>)

  datatype Error = RevisionConflict | NotFound | ContentUnavailable | Invalid | OverlapConflict | NotPublishable

  datatype Patch = Patch(
    kind: Option<Kind>, playlist: Option<Option<Id>>, day: Option<int>, start: Option<TimeOfDay>,
    end: Option<TimeOfDay>, priority: Option<int>, volume: Option<Option<int>>)

  datatype Edit =
    | Create(id: Id, data: Entry, expected: nat)
    | Update(block: bool, id: Id, patch: Patch, expected: nat)
    | Delete(block: bool, id: Id, expected: nat)
    | SetValidity(from: Option<int>, until: Option<int>, expected: nat)
    | PublishPlaylist(playlist: Id, snapshot: Id)
    | RetirePlaylist(playlist: Id)

  // ---------- edits ----------

  predicate Schedulable(s: State, playlist: Option<Id>) {
    playlist.Some? && playlist.value in s.published && playlist.value in s.latest
  }

  predicate Overlap(a: Slot, b: Slot) { a.start < b.end && b.start < a.end }

  predicate Clash(a: Slot, b: Slot) {
    a.day == b.day && a.priority == b.priority && Overlap(a, b)
  }

  function Conflicts(table: map<Id, Entry>, id: Id, slot: Slot): set<Id> {
    set o | o in table && o != id && Clash(slot, table[o].slot)
  }

  // The model's own validation and the table's check constraints.
  predicate Clean(e: Entry) {
    && e.slot.start < e.slot.end
    && (e.volume.Some? ==> 0 <= e.volume.value <= 100)
    && match e.kind
       case ChannelBlock => 0 <= e.slot.day <= 6 && e.channel.Some? && e.playlist.None?
       case PlaylistBlock => 0 <= e.slot.day <= 6 && e.channel.None? && e.playlist.Some?
       case SilenceBlock => 0 <= e.slot.day <= 6 && e.channel.None? && e.playlist.None?
       case ReplaceException => e.playlist.Some?
       case SilenceException => e.playlist.None? && e.channel.None?
       case VolumeException => e.volume.Some?
  }

  function Make(s: State, data: Entry): Result<Entry, Error> {
    if data.kind.NeedsPlaylist() && !Schedulable(s, data.playlist) then Err(ContentUnavailable)
    else Ok(data.(playlist := if data.kind.NeedsPlaylist() then data.playlist else None, channel := None))
  }

  function Amend(s: State, e: Entry, p: Patch): Result<Entry, Error>
    requires p.kind.Some? ==> p.kind.value.IsBlock() == e.kind.IsBlock()
  {
    var e1 := if p.kind.Some? then e.(kind := p.kind.value, playlist := None, channel := None) else e;
    if p.playlist.Some? && p.playlist.value.Some? && !Schedulable(s, p.playlist.value) then Err(ContentUnavailable)
    else
      var e2 := e1.(
        playlist := Or(p.playlist, e1.playlist), volume := Or(p.volume, e1.volume),
        slot := Slot(Or(p.day, e.slot.day), Or(p.start, e.slot.start), Or(p.end, e.slot.end),
                     Or(p.priority, e.slot.priority)));
      if e2.kind == PlaylistBlock && e2.playlist.None? then Err(ContentUnavailable)
      else Ok(if e2.kind.IsSilence() then e2.(playlist := None, channel := None) else e2)
  }

  function Table(s: State, block: bool): map<Id, Entry> { if block then s.blocks else s.exceptions }

  function WithTable(s: State, block: bool, table: map<Id, Entry>): State {
    if block then s.(blocks := table, revision := s.revision + 1)
    else s.(exceptions := table, revision := s.revision + 1)
  }

  function Store(s: State, id: Id, e: Entry): Result<State, Error> {
    var block := e.kind.IsBlock();
    if !Clean(e) then Err(Invalid)
    else if Conflicts(Table(s, block), id, e.slot) != {} then Err(OverlapConflict)
    else Ok(WithTable(s, block, Table(s, block)[id := e]))
  }

  function Apply(s: State, edit: Edit): Result<State, Error> {
    match edit
    case Create(id, data, expected) =>
      if s.revision != expected then Err(RevisionConflict)
      else if id in Table(s, data.kind.IsBlock()) then Err(Invalid)
      else
        var made := Make(s, data);
        if made.Err? then Err(made.error) else Store(s, id, made.value)
    case Update(block, id, patch, expected) =>
      if id !in Table(s, block) || Table(s, block)[id].kind.IsBlock() != block then Err(NotFound)
      else if s.revision != expected then Err(RevisionConflict)
      else if patch.kind.Some? && patch.kind.value.IsBlock() != block then Err(Invalid)
      else
        var amended := Amend(s, Table(s, block)[id], patch);
        if amended.Err? then Err(amended.error) else Store(s, id, amended.value)
    case Delete(block, id, expected) =>
      if id !in Table(s, block) then Err(NotFound)
      else if s.revision != expected then Err(RevisionConflict)
      else Ok(WithTable(s, block, Table(s, block) - {id}))
    case SetValidity(from, until, expected) =>
      if s.revision != expected then Err(RevisionConflict)
      else if from.Some? && until.Some? && until.value < from.value then Err(Invalid)
      else Ok(s.(validFrom := from, validUntil := until, revision := s.revision + 1))
    case PublishPlaylist(playlist, snapshot) =>
      Ok(s.(latest := s.latest[playlist := snapshot], published := s.published + {playlist}))
    case RetirePlaylist(playlist) =>
      Ok(s.(published := s.published - {playlist}))
  }

  // A transaction commits or leaves the rows as they were.
  function Step(s: State, edit: Edit): State {
    var r := Apply(s, edit);
    if r.Ok? then r.value else s
  }

  function Run(s: State, edits: seq<Edit>): State {
    if edits == [] then s else Step(Run(s, edits[..|edits| - 1]), edits[|edits| - 1])
  }

  const NEW_SCHEDULE := State(map[], map[], 1, None, None, map[], {})

  // ---------- what every edit keeps ----------

  ghost predicate Disjoint(table: map<Id, Entry>) {
    forall i, j :: i in table && j in table && i != j ==> !Clash(table[i].slot, table[j].slot)
  }

  ghost predicate Sound(s: State, e: Entry, block: bool) {
    && e.kind.IsBlock() == block && Clean(e) && e.channel.None?
    && (e.kind.NeedsPlaylist() ==> e.playlist.Some? && e.playlist.value in s.latest)
  }

  ghost predicate Inv(s: State) {
    && (forall i :: i in s.blocks ==> Sound(s, s.blocks[i], true))
    && (forall i :: i in s.exceptions ==> Sound(s, s.exceptions[i], false))
    && Disjoint(s.blocks) && Disjoint(s.exceptions)
  }

  lemma StoreKeepsDisjoint(table: map<Id, Entry>, id: Id, e: Entry)
    requires Disjoint(table) && Conflicts(table, id, e.slot) == {}
    ensures Disjoint(table[id := e])
  {
    forall o | o in table && o != id ensures !Clash(e.slot, table[o].slot) {
      assert o !in Conflicts(table, id, e.slot);
    }
  }

  lemma StoreKeepsInv(s: State, id: Id, e: Entry)
    requires Inv(s) && Store(s, id, e).Ok? && e.channel.None?
    requires e.kind.NeedsPlaylist() ==> e.playlist.Some? && e.playlist.value in s.latest
    ensures Inv(Store(s, id, e).value)
  {
    StoreKeepsDisjoint(Table(s, e.kind.IsBlock()), id, e);
  }

  lemma UpdateKeepsInv(s: State, edit: Edit)
    requires Inv(s) && edit.Update? && Apply(s, edit).Ok?
    ensures Inv(Apply(s, edit).value)
  {
    var e := Table(s, edit.block)[edit.id];
    assert Sound(s, e, edit.block);
    StoreKeepsInv(s, edit.id, Amend(s, e, edit.patch).value);
  }

  lemma StepKeepsInv(s: State, edit: Edit)
    requires Inv(s)
    ensures Inv(Step(s, edit))
  {
    match edit
    case Create(id, data, _) =>
      if Apply(s, edit).Ok? {
        StoreKeepsInv(s, id, Make(s, data).value);
      }
    case Update(_, _, _, _) =>
      if Apply(s, edit).Ok? {
        UpdateKeepsInv(s, edit);
      }
    case Delete(_, _, _) =>
    case SetValidity(_, _, _) =>
    case PublishPlaylist(_, _) =>
    case RetirePlaylist(_) =>
  }

  // Same day and same priority never overlap, after any run of edits on a new schedule.
  lemma {:induction false} ReachableInv(edits: seq<Edit>)
    ensures Inv(Run(NEW_SCHEDULE, edits))
  {
    if edits != [] {
      ReachableInv(edits[..|edits| - 1]);
      StepKeepsInv(Run(NEW_SCHEDULE, edits[..|edits| - 1]), edits[|edits| - 1]);
    }
  }

  // ---------- what an accepted edit does ----------

  predicate During(a: Slot, t: TimeOfDay) { a.start <= t && t < a.end }

  // The overlap check is exact: it reports precisely the slots that share an instant.
  lemma OverlapIffSharedInstant(a: Slot, b: Slot)
    requires a.start < a.end && b.start < b.end
    ensures Overlap(a, b) <==> exists t: TimeOfDay :: During(a, t) && During(b, t)
  {
    if Overlap(a, b) {
      var t: TimeOfDay := if a.start <= b.start then b.start else a.start;
      assert During(a, t) && During(b, t);
    }
  }

  // Two rows hold the same instant of the same day at the same priority.
  ghost predicate Collide(a: Slot, b: Slot) {
    a.day == b.day && a.priority == b.priority
    && exists t: TimeOfDay :: During(a, t) && During(b, t)
  }

  // After any run of edits, one instant of a day is never held twice at one priority.
  lemma NeverTwoAtOnce(edits: seq<Edit>, block: bool, i: Id, j: Id)
    requires var table := Table(Run(NEW_SCHEDULE, edits), block); i in table && j in table && i != j
    ensures var table := Table(Run(NEW_SCHEDULE, edits), block); !Collide(table[i].slot, table[j].slot)
  {
    var s := Run(NEW_SCHEDULE, edits);
    ReachableInv(edits);
    var table := Table(s, block);
    assert Sound(s, table[i], block) && Sound(s, table[j], block);
    OverlapIffSharedInstant(table[i].slot, table[j].slot);
  }

  // A row in order: it starts before it ends, falls on a weekday if it is a block, and has what
  // its kind needs.
  predicate InOrder(e: Entry) {
    && e.slot.start < e.slot.end && e.kind != ChannelBlock
    && (e.kind == PlaylistBlock || e.kind == SilenceBlock ==> 0 <= e.slot.day && e.slot.day <= 6)
    && (e.kind == PlaylistBlock || e.kind == ReplaceException ==> e.playlist.Some?)
    && (e.kind == VolumeException ==> e.volume.Some?)
    && (e.volume.Some? ==> 0 <= e.volume.value && e.volume.value <= 100)
  }

  lemma ConflictIffCollides(s: State, block: bool, id: Id, slot: Slot)
    requires Inv(s) && slot.start < slot.end
    ensures Conflicts(Table(s, block), id, slot) == {} <==>
      forall o :: o in Table(s, block) && o != id ==> !Collide(slot, Table(s, block)[o].slot)
  {
    var table := Table(s, block);
    forall o | o in table ensures Clash(slot, table[o].slot) <==> Collide(slot, table[o].slot) {
      assert Sound(s, table[o], block);
      OverlapIffSharedInstant(slot, table[o].slot);
    }
    forall o | o in table && o != id ensures o in Conflicts(table, id, slot) <==> Collide(slot, table[o].slot) {
    }
  }

  // A new entry is taken exactly when it comes from the current revision under a new id, is in
  // order itself, plays what is published, and holds no instant that its day and priority
  // already give away.
  lemma CreateAcceptedIff(s: State, id: Id, data: Entry, expected: nat)
    requires Inv(s)
    ensures Apply(s, Create(id, data, expected)).Ok? <==>
      var table := Table(s, data.kind.IsBlock());
      && s.revision == expected && id !in table && InOrder(data)
      && (data.kind == PlaylistBlock || data.kind == ReplaceException ==>
            data.playlist.value in s.published && data.playlist.value in s.latest)
      && forall o :: o in table ==> !Collide(data.slot, table[o].slot)
  {
    if data.slot.start < data.slot.end {
      ConflictIffCollides(s, data.kind.IsBlock(), id, data.slot);
    }
  }

  // The row that an update asks for: what it does not mention stays, a change of kind drops the
  // playlist unless a new one comes with it, and silence has none.
  function Wanted(e: Entry, p: Patch): Entry {
    var kind := if p.kind.Some? then p.kind.value else e.kind;
    var playlist := if p.playlist.Some? then p.playlist.value else if p.kind.Some? then None else e.playlist;
    Entry(
      Slot(if p.day.Some? then p.day.value else e.slot.day,
           if p.start.Some? then p.start.value else e.slot.start,
           if p.end.Some? then p.end.value else e.slot.end,
           if p.priority.Some? then p.priority.value else e.slot.priority),
      kind, if kind == SilenceBlock || kind == SilenceException then None else playlist, None,
      if p.volume.Some? then p.volume.value else e.volume, e.createdAt)
  }

  // An update is taken exactly when the row it asks for is, and has that row as its result.
  lemma UpdateAcceptedIff(s: State, block: bool, id: Id, p: Patch, expected: nat)
    requires Inv(s) && id in Table(s, block)
    ensures var table := Table(s, block);
      var row := Wanted(table[id], p);
      && (Apply(s, Update(block, id, p, expected)).Ok? <==>
            && s.revision == expected && InOrder(row) && row.kind.IsBlock() == block
            && (p.playlist.Some? && p.playlist.value.Some? ==>
                  p.playlist.value.value in s.published && p.playlist.value.value in s.latest)
            && forall o :: o in table && o != id ==> !Collide(row.slot, table[o].slot))
      && (Apply(s, Update(block, id, p, expected)).Ok? ==>
            Table(Apply(s, Update(block, id, p, expected)).value, block)[id] == row)
  {
    var table := Table(s, block);
    var row := Wanted(table[id], p);
    assert Sound(s, table[id], block);
    if row.slot.start < row.slot.end {
      ConflictIffCollides(s, block, id, row.slot);
    }
    if row.kind.IsBlock() == block {
      AmendIsWanted(s, table[id], p);
    }
  }

  lemma AmendIsWanted(s: State, e: Entry, p: Patch)
    requires e.channel.None? && (p.kind.Some? ==> p.kind.value.IsBlock() == e.kind.IsBlock())
    requires e.kind.IsSilence() ==> e.playlist.None?
    ensures Amend(s, e, p).Ok? ==> Amend(s, e, p).value == Wanted(e, p)
    ensures Amend(s, e, p).Ok? <==>
      && (p.playlist.Some? && p.playlist.value.Some? ==>
            p.playlist.value.value in s.published && p.playlist.value.value in s.latest)
      && (Wanted(e, p).kind == PlaylistBlock ==> Wanted(e, p).playlist.Some?)
  {
  }

  // The kind of row an edit is about.
  function OnBlocks(edit: Edit): bool
    requires edit.Create? || edit.Update? || edit.Delete?
  {
    if edit.Create? then edit.data.kind.IsBlock() else edit.block
  }

  lemma DeleteAcceptedIff(s: State, block: bool, id: Id, expected: nat)
    ensures Apply(s, Delete(block, id, expected)).Ok? <==> id in Table(s, block) && s.revision == expected
  {
  }

  // Every other row, the other table and the dates stay, and the revision moves by one.
  lemma EditTouchesOneRow(s: State, edit: Edit)
    requires (edit.Create? || edit.Update? || edit.Delete?) && Apply(s, edit).Ok?
    ensures var s' := Apply(s, edit).value;
      var before, after := Table(s, OnBlocks(edit)), Table(s', OnBlocks(edit));
      && s'.revision == s.revision + 1 && s'.validFrom == s.validFrom && s'.validUntil == s.validUntil
      && Table(s', !OnBlocks(edit)) == Table(s, !OnBlocks(edit))
      && (edit.id in before <==> !edit.Create?) && (edit.id in after <==> !edit.Delete?)
      && forall o :: o != edit.id ==> (o in after <==> o in before) && (o in before ==> after[o] == before[o])
  {
  }

  // The row of an accepted creation is the one asked for.
  lemma CreateStoresRow(s: State, id: Id, data: Entry, expected: nat)
    requires Apply(s, Create(id, data, expected)).Ok?
    ensures var row := Table(Apply(s, Create(id, data, expected)).value, data.kind.IsBlock())[id];
      && row.slot == data.slot && row.kind == data.kind && row.volume == data.volume
      && row.createdAt == data.createdAt && row.channel.None?
      && row.playlist == (if data.kind == PlaylistBlock || data.kind == ReplaceException then data.playlist else None)
  {
  }

  // ---------- publication ----------

  // A playlist block needs a playlist that is published now.
  predicate ReadyToPlay(s: State, block: Entry) { block.kind == PlaylistBlock ==> Schedulable(s, block.playlist) }

  ghost predicate Publishable(s: State) {
    s.blocks != map[] && forall i :: i in s.blocks ==> ReadyToPlay(s, s.blocks[i])
  }

  // Publication looks for overlapping blocks again, and never finds any.
  lemma NoBlockConflicts(s: State, id: Id)
    requires Inv(s) && id in s.blocks
    ensures Conflicts(s.blocks, id, s.blocks[id].slot) == {}
  {
    forall o | o in s.blocks && o != id ensures !Clash(s.blocks[id].slot, s.blocks[o].slot) {
    }
  }

  // ---------- optimistic revisions ----------

  function Expected(edit: Edit): Option<nat> {
    match edit
    case Create(_, _, expected) => Some(expected)
    case Update(_, _, _, expected) => Some(expected)
    case Delete(_, _, expected) => Some(expected)
    case SetValidity(_, _, expected) => Some(expected)
    case _ => None
  }

  lemma EditBumpsRevision(s: State, edit: Edit)
    ensures Apply(s, edit).Ok? && Expected(edit).Some? ==>
      Expected(edit) == Some(s.revision) && Step(s, edit).revision == s.revision + 1
    ensures Step(s, edit).revision >= s.revision
  {
  }

  lemma {:induction false} RevisionGrows(s: State, edits: seq<Edit>, i: nat)
    requires i <= |edits|
    ensures Run(s, edits[..i]).revision <= Run(s, edits).revision
  {
    if i < |edits| {
      var before := edits[..|edits| - 1];
      RevisionGrows(s, before, i);
      assert before[..i] == edits[..i];
      EditBumpsRevision(Run(s, before), edits[|edits| - 1]);
    } else {
      assert edits[..i] == edits;
    }
  }

  // Of two edits made from the same revision, only the first to arrive can take effect.
  lemma NoLostUpdate(s: State, edits: seq<Edit>, i: nat, j: nat)
    requires i < j < |edits| && Expected(edits[i]).Some? && Expected(edits[i]) == Expected(edits[j])
    requires Apply(Run(s, edits[..i]), edits[i]).Ok?
    ensures Apply(Run(s, edits[..j]), edits[j]).Err? && Run(s, edits[..j + 1]) == Run(s, edits[..j])
  {
    assert edits[..i + 1][..i] == edits[..i] && edits[..j][..i + 1] == edits[..i + 1];
    assert edits[..j + 1][..j] == edits[..j];
    EditBumpsRevision(Run(s, edits[..i]), edits[i]);
    RevisionGrows(s, edits[..j], i + 1);
    EditBumpsRevision(Run(s, edits[..j]), edits[j]);
  }

  // ---------- the database resolver ----------

  datatype Pick = NoEntry | FromException(id: Id) | FromBlock(id: Id)

  predicate Covers(e: Entry, day: int, t: TimeOfDay) {
    e.slot.day == day && e.slot.start <= t < e.slot.end
  }

  ghost predicate NoneCovers(table: map<Id, Entry>, day: int, t: TimeOfDay) {
    forall i :: i in table ==> !Covers(table[i], day, t)
  }

  // ORDER BY priority DESC, created_at DESC.
  predicate Outranks(a: Entry, b: Entry) {
    a.slot.priority > b.slot.priority || (a.slot.priority == b.slot.priority && a.createdAt > b.createdAt)
  }

  // A row that the ordered query may return first.
  ghost predicate IsFirst(table: map<Id, Entry>, day: int, t: TimeOfDay, id: Id) {
    && id in table && Covers(table[id], day, t)
    && forall o :: o in table && Covers(table[o], day, t) ==> !Outranks(table[o], table[id])
  }

  // Days count from 1 for Monday 0001-01-01, as date.toordinal does.
  function PythonWeekday(date: nat): nat { (date + 6) % 7 }

  predicate AppliesOn(validFrom: Option<int>, validUntil: Option<int>, date: int) {
    (validFrom.Some? ==> validFrom.value <= date) && (validUntil.Some? ==> validUntil.value >= date)
  }

  // The entry selected for a published schedule: an exception first, then a block.
  ghost predicate DjangoPicks(s: State, date: nat, t: TimeOfDay, pick: Pick) {
    if !AppliesOn(s.validFrom, s.validUntil, date) then pick == NoEntry
    else match pick
      case FromException(id) => IsFirst(s.exceptions, date, t, id)
      case FromBlock(id) =>
        NoneCovers(s.exceptions, date, t) && IsFirst(s.blocks, PythonWeekday(date), t, id)
      case NoEntry =>
        NoneCovers(s.exceptions, date, t) && NoneCovers(s.blocks, PythonWeekday(date), t)
  }

  // The creation time that breaks ties in the query never decides anything.
  lemma DjangoPickUnique(s: State, date: nat, t: TimeOfDay, a: Pick, b: Pick)
    requires Inv(s) && DjangoPicks(s, date, t, a) && DjangoPicks(s, date, t, b)
    ensures a == b
  {
  }

  lemma {:induction false} FirstExists(table: map<Id, Entry>, day: int, t: TimeOfDay, among: set<Id>)
    returns (id: Id)
    requires among != {} && forall i :: i in among ==> i in table && Covers(table[i], day, t)
    ensures id in among && forall o :: o in among ==> !Outranks(table[o], table[id])
    decreases |among|
  {
    id :| id in among;
    if among - {id} != {} {
      var rest := FirstExists(table, day, t, among - {id});
      if Outranks(table[rest], table[id]) {
        id := rest;
      }
    }
  }

  lemma DjangoPickExists(s: State, date: nat, t: TimeOfDay) returns (pick: Pick)
    ensures DjangoPicks(s, date, t, pick)
  {
    var exceptions := set i | i in s.exceptions && Covers(s.exceptions[i], date, t);
    var blocks := set i | i in s.blocks && Covers(s.blocks[i], PythonWeekday(date), t);
    if !AppliesOn(s.validFrom, s.validUntil, date) {
      pick := NoEntry;
    } else if exceptions != {} {
      var id := FirstExists(s.exceptions, date, t, exceptions);
      pick := FromException(id);
    } else {
      assert NoneCovers(s.exceptions, date, t) by {
        assert forall i :: i in s.exceptions && Covers(s.exceptions[i], date, t) ==> i in exceptions;
      }
      if blocks != {} {
        var id := FirstExists(s.blocks, PythonWeekday(date), t, blocks);
        pick := FromBlock(id);
      } else {
        assert forall i :: i in s.blocks && Covers(s.blocks[i], PythonWeekday(date), t) ==> i in blocks;
        pick := NoEntry;
      }
    }
  }

  // ---------- the published payload ----------

  datatype PublishedEntry = PublishedEntry(
    id: Id, day: int, start: string, end: string, kind: Kind, snapshot: Option<Id>, priority: int)

  datatype Payload = Payload(
    blocks: seq<PublishedEntry>, exceptions: seq<PublishedEntry>,
    validFrom: Option<int>, validUntil: Option<int>)

  function Pad6(n: nat): string
    requires n < SECOND
  {
    Pad2(n / 10_000) + Pad2(n / 100 % 100) + Pad2(n % 100)
  }

  function Fraction(t: TimeOfDay): string {
    if t % SECOND == 0 then "" else "." + Pad6(t % SECOND)
  }

  lemma FractionIsPlain(t: TimeOfDay)
    ensures ':' !in Fraction(t) && (Fraction(t) == "" || Fraction(t)[0] == '.')
  {
    var n := t % SECOND;
    Pad2Plain(n / 10_000);
    Pad2Plain(n / 100 % 100);
    Pad2Plain(n % 100);
  }

  // datetime.time.isoformat: the microseconds are printed only when there are any.
  function IsoTime(t: TimeOfDay): string {
    var sec := t / SECOND;
    Pad2(sec / 3600) + ":" + Pad2(sec / 60 % 60) + ":" + Pad2(sec % 60) + Fraction(t)
  }

  function LatestSnapshot(s: State, playlist: Option<Id>): Option<Id> {
    if playlist.Some? && playlist.value in s.latest then Some(s.latest[playlist.value]) else None
  }

  function Published(s: State, id: Id, e: Entry): PublishedEntry {
    PublishedEntry(id, e.slot.day, IsoTime(e.slot.start), IsoTime(e.slot.end), e.kind,
                   LatestSnapshot(s, e.playlist), e.slot.priority)
  }

  // q lists the table's rows, in any order.
  ghost predicate Lists(s: State, table: map<Id, Entry>, q: seq<PublishedEntry>) {
    && (forall x :: x in q ==> x.id in table && x == Published(s, x.id, table[x.id]))
    && (forall i :: i in table ==> Published(s, i, table[i]) in q)
  }

  ghost predicate IsPayload(s: State, p: Payload) {
    && Lists(s, s.blocks, p.blocks) && Lists(s, s.exceptions, p.exceptions)
    && p.validFrom == s.validFrom && p.validUntil == s.validUntil
  }

  method PublishTable(s: State, table: map<Id, Entry>) returns (q: seq<PublishedEntry>)
    ensures Lists(s, table, q) && |q| == |table|
  {
    q := [];
    var todo := table.Keys;
    while todo != {}
      invariant todo <= table.Keys && |q| + |todo| == |table.Keys|
      invariant forall x :: x in q ==> x.id in table && x == Published(s, x.id, table[x.id])
      invariant forall i :: i in table && i !in todo ==> Published(s, i, table[i]) in q
      decreases todo
    {
      var id :| id in todo;
      q := q + [Published(s, id, table[id])];
      todo := todo - {id};
    }
  }

  method SchedulePayload(s: State) returns (p: Payload)
    ensures IsPayload(s, p) && |p.blocks| == |s.blocks| && |p.exceptions| == |s.exceptions|
  {
    var blocks := PublishTable(s, s.blocks);
    var exceptions := PublishTable(s, s.exceptions);
    p := Payload(blocks, exceptions, s.validFrom, s.validUntil);
  }

  // ---------- the player's resolver ----------

  // The parse closure of containsLocalTime.
  function GoParse(value: string): int {
    var parts := Split(value, ':');
    if |parts| < 2 then -1
    else
      Atoi(parts[0]) * 3600 + Atoi(parts[1]) * 60
      + if |parts| > 2 then Atoi(Split(parts[2], '.')[0]) else 0
  }

  predicate ContainsLocalTime(start: string, end: string, second: int) {
    var s, e := GoParse(start), GoParse(end);
    s >= 0 && e > s && second >= s && second < e
  }

  // sortedBlocks and sortedExceptions: priority downwards, then id upwards.
  predicate GoBefore(a: PublishedEntry, b: PublishedEntry) {
    if a.priority == b.priority then a.id < b.id else a.priority > b.priority
  }

  function GoOrder(): (PublishedEntry, PublishedEntry) -> bool { (a, b) => GoBefore(a, b) }

  datatype Decision =
    | NoContent
    | Silence(source: Pick)
    | Play(snapshot: Option<Id>, source: Pick)

  // time.Weekday of a day number: 0 = Sunday.
  function GoWeekday(date: nat): nat { date % 7 }

  predicate Matches(x: PublishedEntry, day: int, second: int) {
    x.day == day && ContainsLocalTime(x.start, x.end, second)
  }

  predicate Decides(x: PublishedEntry, day: int, second: int) {
    Matches(x, day, second) && x.kind != VolumeException
  }

  // The entry at which a scan of q stops.
  function FirstDecider(q: seq<PublishedEntry>, day: int, second: int): (f: Option<PublishedEntry>)
    ensures f.Some? ==> f.value in q && Decides(f.value, day, second)
  {
    if q == [] then None
    else if Decides(q[0], day, second) then Some(q[0])
    else FirstDecider(q[1..], day, second)
  }

  // What the two scans add up to: an exception that names content wins over any block.
  function GoDecision(exception: Option<PublishedEntry>, block: Option<PublishedEntry>): Decision {
    if exception.Some? && exception.value.kind == SilenceException then Silence(FromException(exception.value.id))
    else if exception.Some? && exception.value.kind == ReplaceException && exception.value.snapshot.Some? then
      Play(exception.value.snapshot, FromException(exception.value.id))
    else if block.None? then NoContent
    else if block.value.kind == SilenceBlock then Silence(FromBlock(block.value.id))
    else Play(if block.value.kind == PlaylistBlock then block.value.snapshot else None, FromBlock(block.value.id))
  }

  function GoResolve(p: Payload, date: nat, second: int): Decision {
    if !AppliesOn(p.validFrom, p.validUntil, date) then NoContent
    else
      GoDecision(ExceptionAt(p, date, second), BlockAt(p, date, second))
  }

  function ExceptionAt(p: Payload, date: nat, second: int): Option<PublishedEntry> {
    FirstDecider(StableSort(p.exceptions, GoOrder()), date, second)
  }

  function BlockAt(p: Payload, date: nat, second: int): Option<PublishedEntry> {
    FirstDecider(StableSort(p.blocks, GoOrder()), (GoWeekday(date) + 6) % 7, second)
  }

  ghost predicate WellKinded(p: Payload) {
    && (forall x :: x in p.blocks ==> x.kind.IsBlock())
    && (forall x :: x in p.exceptions ==> !x.kind.IsBlock())
  }

  // The exception loop: volume overrides fall through, anything else ends it.
  method ScanExceptions(exceptions: seq<PublishedEntry>, date: nat, second: int) returns (stop: Option<PublishedEntry>)
    requires forall x :: x in exceptions ==> !x.kind.IsBlock()
    ensures stop == FirstDecider(exceptions, date, second)
  {
    for i := 0 to |exceptions|
      invariant FirstDecider(exceptions[i..], date, second) == FirstDecider(exceptions, date, second)
    {
      var exception := exceptions[i];
      assert exceptions[i..][1..] == exceptions[i + 1..];
      if exception.day == date && ContainsLocalTime(exception.start, exception.end, second) {
        if exception.kind == SilenceException || exception.kind == ReplaceException {
          return Some(exception);
        }
      }
    }
    return None;
  }

  method ScanBlocks(blocks: seq<PublishedEntry>, weekday: nat, second: int) returns (stop: Option<PublishedEntry>)
    requires forall x :: x in blocks ==> x.kind.IsBlock()
    ensures stop == FirstDecider(blocks, weekday, second)
  {
    for i := 0 to |blocks|
      invariant FirstDecider(blocks[i..], weekday, second) == FirstDecider(blocks, weekday, second)
    {
      var block := blocks[i];
      assert blocks[i..][1..] == blocks[i + 1..];
      if block.day != weekday || !ContainsLocalTime(block.start, block.end, second) {
        continue;
      }
      return Some(block);
    }
    return None;
  }

  method DecideByBlocks(p: Payload, date: nat, second: int) returns (decision: Decision)
    requires WellKinded(p)
    ensures decision == GoDecision(None, BlockAt(p, date, second))
  {
    var sorted := StableSort(p.blocks, GoOrder());
    SameElements(p.blocks, sorted);
    var block := ScanBlocks(sorted, (GoWeekday(date) + 6) % 7, second);
    if block.None? {
      return NoContent;
    }
    if block.value.kind == SilenceBlock {
      return Silence(FromBlock(block.value.id));
    }
    return Play(if block.value.kind == PlaylistBlock then block.value.snapshot else None, FromBlock(block.value.id));
  }

  method FindException(p: Payload, date: nat, second: int) returns (stop: Option<PublishedEntry>)
    requires WellKinded(p)
    ensures stop == ExceptionAt(p, date, second)
    ensures stop.Some? ==> stop.value.kind == SilenceException || stop.value.kind == ReplaceException
  {
    var sorted := StableSort(p.exceptions, GoOrder());
    SameElements(p.exceptions, sorted);
    stop := ScanExceptions(sorted, date, second);
  }

  lemma WithoutContentBlocksDecide(exception: Option<PublishedEntry>, block: Option<PublishedEntry>)
    requires exception.Some? ==> exception.value.kind == ReplaceException && exception.value.snapshot.None?
    ensures GoDecision(exception, block) == GoDecision(None, block)
  {
  }

  method DecideInForce(p: Payload, date: nat, second: int) returns (decision: Decision)
    requires WellKinded(p)
    ensures decision == GoDecision(ExceptionAt(p, date, second), BlockAt(p, date, second))
  {
    var exception := FindException(p, date, second);
    if exception.Some? {
      if exception.value.kind == SilenceException {
        return Silence(FromException(exception.value.id));
      }
      if exception.value.snapshot.Some? {
        return Play(exception.value.snapshot, FromException(exception.value.id));
      }
    }
    decision := DecideByBlocks(p, date, second);
    WithoutContentBlocksDecide(exception, BlockAt(p, date, second));
  }

  // The first half of resolveAssets.
  method ResolveSchedule(p: Payload, date: nat, second: int) returns (decision: Decision)
    requires WellKinded(p)
    ensures decision == GoResolve(p, date, second)
  {
    if (p.validFrom.Some? && date < p.validFrom.value) || (p.validUntil.Some? && date > p.validUntil.value) {
      return NoContent;
    }
    decision := DecideInForce(p, date, second);
  }

  // ---------- the two agree ----------

  lemma GoOrderIsWeak()
    ensures StrictWeakOrder(GoOrder())
  {
  }

  lemma ParseClock(h: nat, m: nat, s: nat, fraction: string)
    requires h < 100 && m < 100 && s < 100
    requires ':' !in fraction && (fraction == "" || fraction[0] == '.')
    ensures GoParse(Pad2(h) + ":" + Pad2(m) + ":" + Pad2(s) + fraction) == h * 3600 + m * 60 + s
  {
    Pad2Plain(h);
    Pad2Plain(m);
    Pad2Plain(s);
    var tail := Pad2(s) + fraction;
    var text := Pad2(h) + [':'] + (Pad2(m) + [':'] + tail);
    assert Pad2(h) + ":" + Pad2(m) + ":" + Pad2(s) + fraction == text;
    SplitFirst(Pad2(h), Pad2(m) + [':'] + tail, ':');
    SplitFirst(Pad2(m), tail, ':');
    SplitWhole(tail, ':');
    assert Split(text, ':') == [Pad2(h), Pad2(m), tail];
    if fraction == "" {
      assert tail == Pad2(s);
      SplitWhole(Pad2(s), '.');
    } else {
      assert tail == Pad2(s) + ['.'] + fraction[1..];
      SplitFirst(Pad2(s), fraction[1..], '.');
    }
    AtoiPad2(h);
    AtoiPad2(m);
    AtoiPad2(s);
  }

  // Printing a time and parsing it back drops the fraction of a second and nothing else.
  lemma ParseIsoTime(t: TimeOfDay)
    ensures GoParse(IsoTime(t)) == t / SECOND
  {
    var sec := t / SECOND;
    ClockDigits(sec);
    FractionIsPlain(t);
    ParseClock(sec / 3600, sec / 60 % 60, sec % 60, Fraction(t));
  }

  lemma ClockDigits(sec: nat)
    requires sec < 86_400
    ensures sec / 3600 < 100 && sec / 3600 * 3600 + sec / 60 % 60 * 60 + sec % 60 == sec
  {
  }

  predicate Whole(t: TimeOfDay) { t % SECOND == 0 }

  // The player's test on whole seconds is the database's test on microseconds at every
  // instant of the day exactly when both bounds are whole seconds.
  lemma WindowsAgreeIffWhole(start: TimeOfDay, end: TimeOfDay)
    requires start < end
    ensures (forall t: TimeOfDay ::
               ContainsLocalTime(IsoTime(start), IsoTime(end), t / SECOND) <==> start <= t < end)
            <==> Whole(start) && Whole(end)
  {
    ParseIsoTime(start);
    ParseIsoTime(end);
    var s, e := start / SECOND, end / SECOND;
    forall t: TimeOfDay | Whole(start) && Whole(end)
      ensures ContainsLocalTime(IsoTime(start), IsoTime(end), t / SECOND) <==> start <= t < end
    {
      assert start == s * SECOND && end == e * SECOND;
    }
    if !Whole(start) {
      // Either the player starts early, or it never sees the entry at all.
      var t: TimeOfDay := if s == e then start else s * SECOND;
      assert !(ContainsLocalTime(IsoTime(start), IsoTime(end), t / SECOND) <==> start <= t < end);
    } else if !Whole(end) {
      var t: TimeOfDay := e * SECOND;
      assert !(ContainsLocalTime(IsoTime(start), IsoTime(end), t / SECOND) <==> start <= t < end);
    }
  }

  ghost predicate WholeSeconds(s: State) {
    && (forall i :: i in s.blocks ==> Whole(s.blocks[i].slot.start) && Whole(s.blocks[i].slot.end))
    && (forall i :: i in s.exceptions ==> Whole(s.exceptions[i].slot.start) && Whole(s.exceptions[i].slot.end))
  }

  lemma {:induction false} FirstDeciderIsBest(q: seq<PublishedEntry>, day: int, second: int)
    requires Sorted(q, GoOrder())
    ensures match FirstDecider(q, day, second)
      case None => forall x :: x in q ==> !Decides(x, day, second)
      case Some(f) =>
        && f in q && Decides(f, day, second)
        && forall x :: x in q && Decides(x, day, second) ==> x.priority <= f.priority
  {
    if q != [] {
      if Decides(q[0], day, second) {
        forall x | x in q ensures x.priority <= q[0].priority {
          var j :| 0 <= j < |q| && q[j] == x;
          assert j > 0 ==> !GoOrder()(q[j], q[0]);
        }
      } else {
        assert forall x :: x in q ==> x == q[0] || x in q[1..];
        FirstDeciderIsBest(q[1..], day, second);
      }
    }
  }

  // ---------- the schedule as the player reads it ----------

  function Floor(t: TimeOfDay): TimeOfDay { t - t % SECOND }

  function Floored(e: Entry): Entry {
    e.(slot := e.slot.(start := Floor(e.slot.start), end := Floor(e.slot.end)))
  }

  // The rows that say what to play.
  function Deciding(table: map<Id, Entry>): map<Id, Entry> {
    map i | i in table && table[i].kind != VolumeException :: table[i]
  }

  // The player passes over volume overrides and drops fractions of a second.
  function Seen(table: map<Id, Entry>): map<Id, Entry> {
    map i | i in table && table[i].kind != VolumeException :: Floored(table[i])
  }

  function WithoutVolume(s: State): State { s.(exceptions := Deciding(s.exceptions)) }

  function AsSeen(s: State): State { s.(blocks := Seen(s.blocks), exceptions := Seen(s.exceptions)) }

  lemma FloorSeconds(t: TimeOfDay, u: TimeOfDay)
    ensures Floor(t) <= u <==> t / SECOND <= u / SECOND
    ensures u < Floor(t) <==> u / SECOND < t / SECOND
  {
  }

  lemma MatchesIffSeen(s: State, id: Id, e: Entry, day: int, t: TimeOfDay)
    ensures Matches(Published(s, id, e), day, t / SECOND) <==> Covers(Floored(e), day, t)
  {
    ParseIsoTime(e.slot.start);
    ParseIsoTime(e.slot.end);
    FloorSeconds(e.slot.start, t);
    FloorSeconds(e.slot.end, t);
  }

  // Two rows that the player sees at the same instant overlap in the database too.
  lemma SeenTogetherClash(a: Entry, b: Entry, day: int, t: TimeOfDay)
    requires Covers(Floored(a), day, t) && Covers(Floored(b), day, t) && a.slot.priority == b.slot.priority
    ensures Clash(a.slot, b.slot)
  {
    FloorSeconds(a.slot.start, t);
    FloorSeconds(b.slot.start, t);
  }

  // What the player stops at is the row that the database's order puts first among those.
  lemma DeciderIsFirst(s: State, table: map<Id, Entry>, q: seq<PublishedEntry>, day: int, t: TimeOfDay, id: Id)
    requires Disjoint(table) && Lists(s, table, q) && IsFirst(Seen(table), day, t, id)
    ensures FirstDecider(StableSort(q, GoOrder()), day, t / SECOND) == Some(Published(s, id, table[id]))
  {
    var sorted := StableSort(q, GoOrder());
    GoOrderIsWeak();
    SortSorted(q, GoOrder());
    SameElements(q, sorted);
    FirstDeciderIsBest(sorted, day, t / SECOND);
    var best := Published(s, id, table[id]);
    MatchesIffSeen(s, id, table[id], day, t);
    assert best in sorted && Decides(best, day, t / SECOND);
    var x := FirstDecider(sorted, day, t / SECOND).value.id;
    MatchesIffSeen(s, x, table[x], day, t);
    assert x in Seen(table) && !Outranks(Seen(table)[x], Seen(table)[id]);
    assert table[x].slot.priority == table[id].slot.priority;
    SeenTogetherClash(table[x], table[id], day, t);
  }

  lemma NothingToDecide(s: State, table: map<Id, Entry>, q: seq<PublishedEntry>, day: int, t: TimeOfDay)
    requires Lists(s, table, q) && NoneCovers(Seen(table), day, t)
    ensures FirstDecider(StableSort(q, GoOrder()), day, t / SECOND) == None
  {
    var sorted := StableSort(q, GoOrder());
    GoOrderIsWeak();
    SortSorted(q, GoOrder());
    SameElements(q, sorted);
    FirstDeciderIsBest(sorted, day, t / SECOND);
    forall x | x in sorted ensures !Decides(x, day, t / SECOND) {
      MatchesIffSeen(s, x.id, table[x.id], day, t);
      assert x.kind != VolumeException ==> x.id in Seen(table);
    }
  }

  // What a picked entry tells the player to do; an exception that only overrides the volume
  // names nothing to play.
  function Meaning(s: State, pick: Pick): Option<Decision> {
    match pick
    case NoEntry => Some(NoContent)
    case FromException(id) =>
      if id !in s.exceptions then None
      else (match s.exceptions[id].kind
        case SilenceException => Some(Silence(pick))
        case ReplaceException => Some(Play(LatestSnapshot(s, s.exceptions[id].playlist), pick))
        case _ => None)
    case FromBlock(id) =>
      if id !in s.blocks then None
      else match s.blocks[id].kind
        case SilenceBlock => Some(Silence(pick))
        case PlaylistBlock => Some(Play(LatestSnapshot(s, s.blocks[id].playlist), pick))
        case _ => None
  }

  predicate PicksVolumeOnly(s: State, pick: Pick) {
    pick.FromException? && pick.id in s.exceptions && s.exceptions[pick.id].kind == VolumeException
  }

  lemma WeekdaysAgree(date: nat)
    ensures (GoWeekday(date) + 6) % 7 == PythonWeekday(date)
  {
  }

  // The two scans, given what each of them stopped at.
  lemma DecisionMeans(s: State, pick: Pick, exception: Option<PublishedEntry>, block: Option<PublishedEntry>)
    requires Inv(s)
    requires pick.FromException? ==>
      && pick.id in s.exceptions && s.exceptions[pick.id].kind != VolumeException
      && exception == Some(Published(s, pick.id, s.exceptions[pick.id]))
    requires !pick.FromException? ==> exception.None?
    requires pick.FromBlock? ==> pick.id in s.blocks && block == Some(Published(s, pick.id, s.blocks[pick.id]))
    requires pick.NoEntry? ==> block.None?
    ensures Meaning(s, pick) == Some(GoDecision(exception, block))
  {
  }

  // A published payload keeps blocks and exceptions apart.
  lemma PayloadIsWellKinded(s: State, p: Payload)
    requires Inv(s) && IsPayload(s, p)
    ensures WellKinded(p)
  {
    forall x | x in p.blocks ensures x.kind.IsBlock() {
      assert Sound(s, s.blocks[x.id], true);
    }
    forall x | x in p.exceptions ensures !x.kind.IsBlock() {
      assert Sound(s, s.exceptions[x.id], false);
    }
  }

  // At every instant the player does what the database would select from the schedule as the
  // player reads it: without volume overrides, and with bounds cut to whole seconds.
  lemma PlayerFollowsContent(s: State, p: Payload, date: nat, t: TimeOfDay, pick: Pick)
    requires Inv(s) && IsPayload(s, p) && DjangoPicks(AsSeen(s), date, t, pick)
    ensures Meaning(s, pick) == Some(GoResolve(p, date, t / SECOND))
  {
    WeekdaysAgree(date);
    if AppliesOn(s.validFrom, s.validUntil, date) {
      StopsAt(s, p, date, t, pick);
      DecisionMeans(s, pick, ExceptionAt(p, date, t / SECOND), BlockAt(p, date, t / SECOND));
    }
  }

  lemma StopsAt(s: State, p: Payload, date: nat, t: TimeOfDay, pick: Pick)
    requires Inv(s) && IsPayload(s, p) && DjangoPicks(AsSeen(s), date, t, pick)
    requires AppliesOn(s.validFrom, s.validUntil, date)
    ensures pick.FromException? ==>
      && pick.id in s.exceptions && s.exceptions[pick.id].kind != VolumeException
      && ExceptionAt(p, date, t / SECOND) == Some(Published(s, pick.id, s.exceptions[pick.id]))
    ensures !pick.FromException? ==> ExceptionAt(p, date, t / SECOND) == None
    ensures pick.FromBlock? ==>
      pick.id in s.blocks && BlockAt(p, date, t / SECOND) == Some(Published(s, pick.id, s.blocks[pick.id]))
    ensures pick.NoEntry? ==> BlockAt(p, date, t / SECOND) == None
  {
    WeekdaysAgree(date);
    if pick.FromException? {
      DeciderIsFirst(s, s.exceptions, p.exceptions, date, t, pick.id);
    } else {
      NothingToDecide(s, s.exceptions, p.exceptions, date, t);
      if pick.FromBlock? {
        DeciderIsFirst(s, s.blocks, p.blocks, PythonWeekday(date), t, pick.id);
      } else {
        NothingToDecide(s, s.blocks, p.blocks, PythonWeekday(date), t);
      }
    }
  }

  // The entry that the player's decision names as its reason.
  function Source(decision: Decision): Pick {
    match decision
    case NoContent => NoEntry
    case Silence(source) => source
    case Play(_, source) => source
  }

  lemma MeaningHasSource(s: State, pick: Pick, decision: Decision)
    requires Meaning(s, pick) == Some(decision)
    ensures Source(decision) == pick
  {
  }

  // The two resolvers settle on the same entry exactly when it is also first in the schedule
  // as the player reads it, and then they draw the same decision from it.
  lemma ResolversAgree(s: State, p: Payload, date: nat, t: TimeOfDay, pick: Pick)
    requires Inv(s) && IsPayload(s, p) && DjangoPicks(s, date, t, pick)
    ensures Source(GoResolve(p, date, t / SECOND)) == pick <==> DjangoPicks(AsSeen(s), date, t, pick)
    ensures DjangoPicks(AsSeen(s), date, t, pick) ==> Meaning(s, pick) == Some(GoResolve(p, date, t / SECOND))
  {
    var seen := DjangoPickExists(AsSeen(s), date, t);
    PlayerFollowsContent(s, p, date, t, seen);
    MeaningHasSource(s, seen, GoResolve(p, date, t / SECOND));
    if DjangoPicks(AsSeen(s), date, t, pick) {
      PlayerFollowsContent(s, p, date, t, pick);
      MeaningHasSource(s, pick, GoResolve(p, date, t / SECOND));
    }
  }

  // ---------- schedules on whole seconds ----------

  // A volume override comes first among the exceptions of the instant.
  ghost predicate VolumeWins(s: State, date: nat, t: TimeOfDay) {
    && AppliesOn(s.validFrom, s.validUntil, date)
    && exists v :: IsFirst(s.exceptions, date, t, v) && s.exceptions[v].kind == VolumeException
  }

  lemma VolumeWinsIffPicked(s: State, date: nat, t: TimeOfDay, pick: Pick)
    requires Inv(s) && DjangoPicks(s, date, t, pick)
    ensures VolumeWins(s, date, t) <==> PicksVolumeOnly(s, pick)
  {
    if VolumeWins(s, date, t) {
      var v :| IsFirst(s.exceptions, date, t, v) && s.exceptions[v].kind == VolumeException;
      DjangoPickUnique(s, date, t, FromException(v), pick);
    }
  }

  lemma PickWithoutVolume(s: State, date: nat, t: TimeOfDay, pick: Pick)
    requires DjangoPicks(s, date, t, pick) && !PicksVolumeOnly(s, pick)
    ensures DjangoPicks(WithoutVolume(s), date, t, pick)
  {
  }

  lemma WholeIsSeen(s: State)
    requires Inv(s) && WholeSeconds(s)
    ensures AsSeen(s) == WithoutVolume(s)
  {
    forall i | i in s.blocks ensures s.blocks[i].kind != VolumeException && Floored(s.blocks[i]) == s.blocks[i] {
      assert Sound(s, s.blocks[i], true);
    }
    assert Seen(s.blocks) == s.blocks;
    assert Seen(s.exceptions) == Deciding(s.exceptions);
  }

  // On whole seconds, nothing but a volume override that comes first separates the two.
  lemma WholeSecondsAgreeIff(s: State, p: Payload, date: nat, t: TimeOfDay, pick: Pick)
    requires Inv(s) && WholeSeconds(s) && IsPayload(s, p) && DjangoPicks(s, date, t, pick)
    ensures Source(GoResolve(p, date, t / SECOND)) == pick <==> !VolumeWins(s, date, t)
    ensures !VolumeWins(s, date, t) ==> Meaning(s, pick) == Some(GoResolve(p, date, t / SECOND))
  {
    WholeIsSeen(s);
    VolumeWinsIffPicked(s, date, t, pick);
    ResolversAgree(s, p, date, t, pick);
    if !PicksVolumeOnly(s, pick) {
      PickWithoutVolume(s, date, t, pick);
    }
  }

  // pick is the database's only selection, and it is known when the player's is the same.
  ghost predicate Compared(s: State, p: Payload, date: nat, t: TimeOfDay, pick: Pick) {
    var decision := GoResolve(p, date, t / SECOND);
    && DjangoPicks(s, date, t, pick)
    && (forall other :: DjangoPicks(s, date, t, other) ==> other == pick)
    && (Source(decision) == pick <==> DjangoPicks(AsSeen(s), date, t, pick))
    && (WholeSeconds(s) ==> (Source(decision) == pick <==> !VolumeWins(s, date, t)))
    && (Source(decision) == pick ==> Meaning(s, pick) == Some(decision))
  }

  // The claim over whole runs: publish after any edits, at any local instant.
  lemma ReachableResolversAgree(edits: seq<Edit>, p: Payload, date: nat, t: TimeOfDay)
    requires IsPayload(Run(NEW_SCHEDULE, edits), p)
    ensures exists pick :: Compared(Run(NEW_SCHEDULE, edits), p, date, t, pick)
  {
    var s := Run(NEW_SCHEDULE, edits);
    ReachableInv(edits);
    var pick := DjangoPickExists(s, date, t);
    ResolversAgree(s, p, date, t, pick);
    if WholeSeconds(s) {
      WholeSecondsAgreeIff(s, p, date, t, pick);
    }
    forall other | DjangoPicks(s, date, t, other) ensures other == pick {
      DjangoPickUnique(s, date, t, other, pick);
    }
    assert Compared(s, p, date, t, pick);
  }

  // ---------- what is selected and what plays, in plain terms ----------

  // The row holds the instant.
  predicate Holds(e: Entry, day: int, t: TimeOfDay) { e.slot.day == day && During(e.slot, t) }

  // Of the rows that hold the instant, this one has the highest priority.
  ghost predicate Leads(table: map<Id, Entry>, day: int, t: TimeOfDay, id: Id) {
    && id in table && Holds(table[id], day, t)
    && forall o :: o in table && o != id && Holds(table[o], day, t) ==> table[o].slot.priority < table[id].slot.priority
  }

  // What the database selects: within the dates the exception of highest priority, then the block
  // of highest priority of that weekday (day 1 is a Monday, weekday 0), outside them nothing.
  lemma SelectionIs(s: State, date: nat, t: TimeOfDay, pick: Pick)
    requires Inv(s)
    ensures DjangoPicks(s, date, t, pick) <==>
      var early := s.validFrom.Some? && date < s.validFrom.value;
      var late := s.validUntil.Some? && s.validUntil.value < date;
      var weekday := (date - 1) % 7;
      match pick
      case FromException(id) => !early && !late && Leads(s.exceptions, date, t, id)
      case FromBlock(id) =>
        && !early && !late && (forall o :: o in s.exceptions ==> !Holds(s.exceptions[o], date, t))
        && Leads(s.blocks, weekday, t, id)
      case NoEntry =>
        || early || late
        || ((forall o :: o in s.exceptions ==> !Holds(s.exceptions[o], date, t))
            && forall o :: o in s.blocks ==> !Holds(s.blocks[o], weekday, t))
  {
    assert PythonWeekday(date) == (date - 1) % 7;
    forall day, id ensures IsFirst(s.exceptions, day, t, id) <==> Leads(s.exceptions, day, t, id) {
      FirstLeads(s.exceptions, day, t, id);
    }
    forall day, id ensures IsFirst(s.blocks, day, t, id) <==> Leads(s.blocks, day, t, id) {
      FirstLeads(s.blocks, day, t, id);
    }
  }

  lemma FirstLeads(table: map<Id, Entry>, day: int, t: TimeOfDay, id: Id)
    requires Disjoint(table)
    ensures IsFirst(table, day, t, id) <==> Leads(table, day, t, id)
  {
    forall o | o in table && id in table && o != id && Holds(table[o], day, t) && Holds(table[id], day, t)
      ensures table[o].slot.priority != table[id].slot.priority
    {
      assert !Clash(table[o].slot, table[id].slot);
    }
  }

  // The row holds the second, and is something to play or silence.
  predicate Sounds(e: Entry, day: int, second: int) {
    && e.slot.day == day && e.slot.start / 1_000_000 <= second && second < e.slot.end / 1_000_000
    && e.kind != VolumeException
  }

  ghost predicate Tops(table: map<Id, Entry>, day: int, second: int, id: Id) {
    && id in table && Sounds(table[id], day, second)
    && forall o :: o in table && o != id && Sounds(table[o], day, second) ==> table[o].slot.priority < table[id].slot.priority
  }

  ghost predicate Quiet(table: map<Id, Entry>, day: int, second: int) {
    forall o :: o in table ==> !Sounds(table[o], day, second)
  }

  // What the row tells the player.
  ghost predicate Tells(s: State, e: Entry, source: Pick, decision: Decision) {
    match e.kind
    case SilenceBlock | SilenceException => decision == Silence(source)
    case PlaylistBlock | ReplaceException =>
      e.playlist.Some? && e.playlist.value in s.latest && decision == Play(Some(s.latest[e.playlist.value]), source)
    case _ => false
  }

  // The right decision: nothing before the first day, after the last day, and when nothing holds
  // the second; else what the leading exception tells, and without one the leading block.
  ghost predicate Right(s: State, date: nat, second: int, decision: Decision) {
    var weekday := (date - 1) % 7;
    if s.validFrom.Some? && date < s.validFrom.value then decision == NoContent
    else if s.validUntil.Some? && s.validUntil.value < date then decision == NoContent
    else if !Quiet(s.exceptions, date, second) then
      exists id :: Tops(s.exceptions, date, second, id) && Tells(s, s.exceptions[id], FromException(id), decision)
    else if !Quiet(s.blocks, weekday, second) then
      exists id :: Tops(s.blocks, weekday, second, id) && Tells(s, s.blocks[id], FromBlock(id), decision)
    else decision == NoContent
  }

  lemma SeenHolds(e: Entry, day: int, t: TimeOfDay)
    ensures e.kind != VolumeException ==> (Covers(Floored(e), day, t) <==> Sounds(e, day, t / SECOND))
  {
    FloorSeconds(e.slot.start, t);
    FloorSeconds(e.slot.end, t);
  }

  lemma FirstSeenTops(table: map<Id, Entry>, day: int, t: TimeOfDay, id: Id)
    requires Disjoint(table) && IsFirst(Seen(table), day, t, id)
    ensures Tops(table, day, t / SECOND, id)
  {
    SeenHolds(table[id], day, t);
    forall o | o in table && o != id && Sounds(table[o], day, t / SECOND)
      ensures table[o].slot.priority < table[id].slot.priority
    {
      SeenHolds(table[o], day, t);
      assert o in Seen(table) && !Outranks(Seen(table)[o], Seen(table)[id]);
      if table[o].slot.priority == table[id].slot.priority {
        SeenTogetherClash(table[o], table[id], day, t);
      }
    }
  }

  lemma NoneSeenQuiet(table: map<Id, Entry>, day: int, t: TimeOfDay)
    requires NoneCovers(Seen(table), day, t)
    ensures Quiet(table, day, t / SECOND)
  {
    forall o | o in table ensures !Sounds(table[o], day, t / SECOND) {
      SeenHolds(table[o], day, t);
      assert table[o].kind != VolumeException ==> o in Seen(table);
    }
  }

  // The player decides right at every instant, on every schedule that edits can reach.
  lemma PlayerDecidesRight(edits: seq<Edit>, p: Payload, date: nat, t: TimeOfDay)
    requires IsPayload(Run(NEW_SCHEDULE, edits), p)
    ensures Right(Run(NEW_SCHEDULE, edits), date, t / SECOND, GoResolve(p, date, t / SECOND))
  {
    var s := Run(NEW_SCHEDULE, edits);
    ReachableInv(edits);
    var pick := DjangoPickExists(AsSeen(s), date, t);
    PlayerFollowsContent(s, p, date, t, pick);
    SeenPickIsRight(s, date, t, pick, GoResolve(p, date, t / SECOND));
  }

  lemma SeenPickIsRight(s: State, date: nat, t: TimeOfDay, pick: Pick, decision: Decision)
    requires Inv(s) && DjangoPicks(AsSeen(s), date, t, pick) && Meaning(s, pick) == Some(decision)
    ensures Right(s, date, t / SECOND, decision)
  {
    var weekday := (date - 1) % 7;
    assert PythonWeekday(date) == weekday;
    if AppliesOn(s.validFrom, s.validUntil, date) {
      match pick
      case FromException(id) =>
        FirstSeenTops(s.exceptions, date, t, id);
        assert Sound(s, s.exceptions[id], false);
        assert Tells(s, s.exceptions[id], FromException(id), decision);
      case FromBlock(id) =>
        NoneSeenQuiet(s.exceptions, date, t);
        FirstSeenTops(s.blocks, weekday, t, id);
        assert Sound(s, s.blocks[id], true);
        assert Tells(s, s.blocks[id], FromBlock(id), decision);
      case NoEntry =>
        NoneSeenQuiet(s.exceptions, date, t);
        NoneSeenQuiet(s.blocks, weekday, t);
    }
  }

  // There is only one right decision.
  lemma RightIsUnique(s: State, date: nat, second: int, a: Decision, b: Decision)
    requires Right(s, date, second, a) && Right(s, date, second, b)
    ensures a == b
  {
  }

  // A block on Mondays from nine to ten, and a volume override on one Monday at the same time.
  const NINE: TimeOfDay := 32_400 * SECOND
  const TEN: TimeOfDay := 36_000 * SECOND
  const MORNING := Entry(Slot(0, NINE, TEN, 0), PlaylistBlock, Some(1), None, None, 0)
  const QUIETER := Entry(Slot(1, NINE, TEN, 0), VolumeException, None, None, Some(20), 0)
  const DIVERGING := NEW_SCHEDULE.(
    blocks := map[1 := MORNING], exceptions := map[2 := QUIETER], revision := 3, latest := map[1 := 7], published := {1})

  lemma DivergingIsReached()
    ensures Run(NEW_SCHEDULE, [PublishPlaylist(1, 7), Create(1, MORNING, 1), Create(2, QUIETER, 2)]) == DIVERGING
  {
    var edits := [PublishPlaylist(1, 7), Create(1, MORNING, 1), Create(2, QUIETER, 2)];
    assert edits[..2] == [PublishPlaylist(1, 7), Create(1, MORNING, 1)];
    assert edits[..2][..1] == [PublishPlaylist(1, 7)] && edits[..1][..0] == [];
    var s1 := NEW_SCHEDULE.(latest := map[1 := 7], published := {1});
    var s2 := s1.(blocks := map[1 := MORNING], revision := 2);
    assert Run(NEW_SCHEDULE, edits[..1]) == s1;
    assert Conflicts(s1.blocks, 1, MORNING.slot) == {};
    assert Run(NEW_SCHEDULE, edits[..2]) == s2;
    assert Conflicts(s2.exceptions, 2, QUIETER.slot) == {};
  }

  lemma DivergingFacts()
    ensures Inv(DIVERGING) && WholeSeconds(DIVERGING)
    ensures DjangoPicks(DIVERGING, 1, NINE, FromException(2))
    ensures DjangoPicks(WithoutVolume(DIVERGING), 1, NINE, FromBlock(1))
    ensures Meaning(DIVERGING, FromBlock(1)) == Some(Play(Some(7), FromBlock(1)))
  {
  }

  // There the database answers with the override, and the player plays the block.
  lemma ResolversDiverge(p: Payload)
    requires IsPayload(DIVERGING, p)
    ensures DjangoPicks(DIVERGING, 1, NINE, FromException(2))
    ensures GoResolve(p, 1, NINE / SECOND) == Play(Some(7), FromBlock(1))
  {
    DivergingFacts();
    WholeIsSeen(DIVERGING);
    PlayerFollowsContent(DIVERGING, p, 1, NINE, FromBlock(1));
  }

  // ---------- the edits in place ----------

  // A schedule's rows as the services update them: save first, then look for conflicts, and
  // roll back when there are any.
  class Schedule {
    var blocks: map<Id, Entry>
    var exceptions: map<Id, Entry>
    var revision: nat
    var validFrom: Option<int>
    var validUntil: Option<int>
    var latest: map<Id, Id>
    var published: set<Id>

    function Snapshot(): State
      reads this
    {
      State(blocks, exceptions, revision, validFrom, validUntil, latest, published)
    }

    constructor ()
      ensures Snapshot() == NEW_SCHEDULE
    {
      blocks, exceptions, revision := map[], map[], 1;
      validFrom, validUntil, latest, published := None, None, map[], {};
    }

    method SaveEntry(id: Id, e: Entry) returns (error: Option<Error>)
      modifies `blocks, `exceptions, `revision
      ensures var r := Store(old(Snapshot()), id, e);
        && Snapshot() == (if r.Ok? then r.value else old(Snapshot()))
        && error == (if r.Ok? then None else Some(r.error))
    {
      if !Clean(e) {
        return Some(Invalid);
      }
      var savedBlocks, savedExceptions := blocks, exceptions;
      var conflicts;
      if e.kind.IsBlock() {
        blocks := blocks[id := e];
        conflicts := set o | o in blocks && o != id && Clash(e.slot, blocks[o].slot);
        assert conflicts == Conflicts(savedBlocks, id, e.slot);
      } else {
        exceptions := exceptions[id := e];
        conflicts := set o | o in exceptions && o != id && Clash(e.slot, exceptions[o].slot);
        assert conflicts == Conflicts(savedExceptions, id, e.slot);
      }
      if conflicts != {} {
        blocks, exceptions := savedBlocks, savedExceptions;
        return Some(OverlapConflict);
      }
      revision := revision + 1;
      return None;
    }

    method CreateEntry(id: Id, data: Entry, expected: nat) returns (error: Option<Error>)
      requires id !in (if data.kind.IsBlock() then blocks else exceptions)
      modifies this
      ensures var edit := Create(id, data, expected);
        && Snapshot() == Step(old(Snapshot()), edit)
        && (error == None <==> Apply(old(Snapshot()), edit).Ok?)
        && (error.Some? ==> Apply(old(Snapshot()), edit) == Err(error.value))
    {
      if revision != expected {
        return Some(RevisionConflict);
      }
      var e := data.(playlist := None, channel := None);
      if data.kind.NeedsPlaylist() {
        if !Schedulable(Snapshot(), data.playlist) {
          return Some(ContentUnavailable);
        }
        e := e.(playlist := data.playlist);
      }
      error := SaveEntry(id, e);
    }

    method UpdateEntry(block: bool, id: Id, patch: Patch, expected: nat) returns (error: Option<Error>)
      requires forall i :: i in blocks ==> blocks[i].kind.IsBlock()
      requires forall i :: i in exceptions ==> !exceptions[i].kind.IsBlock()
      requires patch.kind.Some? ==> patch.kind.value.IsBlock() == block
      modifies this
      ensures var edit := Update(block, id, patch, expected);
        && Snapshot() == Step(old(Snapshot()), edit)
        && (error == None <==> Apply(old(Snapshot()), edit).Ok?)
        && (error.Some? ==> Apply(old(Snapshot()), edit) == Err(error.value))
    {
      var table := if block then blocks else exceptions;
      if id !in table {
        return Some(NotFound);
      }
      if revision != expected {
        return Some(RevisionConflict);
      }
      var e := table[id];
      if patch.kind.Some? {
        e := e.(kind := patch.kind.value, playlist := None, channel := None);
      }
      if patch.playlist.Some? {
        if patch.playlist.value.Some? && !Schedulable(Snapshot(), patch.playlist.value) {
          return Some(ContentUnavailable);
        }
        e := e.(playlist := patch.playlist.value);
      }
      e := e.(
        volume := Or(patch.volume, e.volume),
        slot := Slot(Or(patch.day, e.slot.day), Or(patch.start, e.slot.start), Or(patch.end, e.slot.end),
                     Or(patch.priority, e.slot.priority)));
      if e.kind == PlaylistBlock && e.playlist.None? {
        return Some(ContentUnavailable);
      }
      if e.kind.IsSilence() {
        e := e.(playlist := None, channel := None);
      }
      error := SaveEntry(id, e);
    }

    // The checks of publish_schedule on blocks. The overlap check never fires.
    method CheckPublishable() returns (error: Option<Error>)
      requires Inv(Snapshot())
      ensures error == if Publishable(Snapshot()) then None else Some(NotPublishable)
    {
      if blocks == map[] {
        return Some(NotPublishable);
      }
      var todo := blocks.Keys;
      while todo != {}
        invariant todo <= blocks.Keys
        invariant forall i :: i in blocks && i !in todo ==> ReadyToPlay(Snapshot(), blocks[i])
        decreases todo
      {
        var id :| id in todo;
        if !ReadyToPlay(Snapshot(), blocks[id]) {
          return Some(NotPublishable);
        }
        todo := todo - {id};
      }
      todo := blocks.Keys;
      while todo != {}
        invariant todo <= blocks.Keys
        decreases todo
      {
        var id :| id in todo;
        NoBlockConflicts(Snapshot(), id);
        if Conflicts(blocks, id, blocks[id].slot) != {} {
          return Some(OverlapConflict);
        }
        todo := todo - {id};
      }
      return None;
    }

    method DeleteEntry(block: bool, id: Id, expected: nat) returns (error: Option<Error>)
      modifies this
      ensures var edit := Delete(block, id, expected);
        && Snapshot() == Step(old(Snapshot()), edit)
        && (error == None <==> Apply(old(Snapshot()), edit).Ok?)
        && (error.Some? ==> Apply(old(Snapshot()), edit) == Err(error.value))
    {
      if id !in (if block then blocks else exceptions) {
        return Some(NotFound);
      }
      if revision != expected {
        return Some(RevisionConflict);
      }
      if block {
        blocks := blocks - {id};
      } else {
        exceptions := exceptions - {id};
      }
      revision := revision + 1;
      return None;
    }
  }
}
