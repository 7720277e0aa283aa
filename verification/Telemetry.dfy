// Device telemetry: batches of events deduplicated by id and applied by sequence number.
module Telemetry {
  import opened Wrappers

  type Id = nat

  const MAX_AGE := 86_400
  const FUTURE_SKEW := 300

  datatype Kind =
    | Heartbeat | ManifestLoaded | PlaybackStarted | PlaybackProgress | PlaybackCompleted
    | PlaybackError | Offline | Online | CommandAcknowledged

  datatype PlaybackStatus = Stopped | Playing | Paused | Buffering | Errored

  datatype Connectivity = Unknown | Connected | Disconnected

  datatype Event = Event(
    id: Id, sequence: nat, occurredAt: int, kind: Kind, manifest: Option<Id>, asset: Option<Id>,
    position: Option<nat>, volume: Option<nat>, playback: Option<PlaybackStatus>)

  // assets maps the manifest's assets to their audio contents.
  datatype Manifest = Manifest(version: nat, scheduleVersion: Option<nat>, assets: map<Id, Id>)

  // The manifests of the device's zone; manifest rows never change.
  type Manifests = map<Id, Manifest>

  datatype Device = Device(
    events: map<Id, Event>, lastSequence: nat, position: nat, volume: nat, playback: PlaybackStatus,
    manifestVersion: Option<(nat, Option<nat>)>, content: Option<Id>, connectivity: Connectivity)

  datatype Receipt = Receipt(accepted: nat, duplicates: nat, lastSequence: nat)

  // ---------- one event ----------

  predicate Timely(e: Event, now: int) { now - MAX_AGE <= e.occurredAt <= now + FUTURE_SKEW }

  // The references of an event: its manifest belongs to the zone, its asset to the manifest.
  predicate Referenced(manifests: Manifests, e: Event) {
    && (e.manifest.Some? ==> e.manifest.value in manifests)
    && (e.asset.Some? ==> e.manifest.Some? && e.asset.value in manifests[e.manifest.value].assets)
  }

  function ManifestCarried(manifests: Manifests, e: Event): Option<Option<(nat, Option<nat>)>> {
    if e.manifest.Some? && e.manifest.value in manifests then
      Some(Some((manifests[e.manifest.value].version, manifests[e.manifest.value].scheduleVersion)))
    else None
  }

  function ContentCarried(manifests: Manifests, e: Event): Option<Option<Id>> {
    if e.asset.Some? && e.manifest.Some? && e.manifest.value in manifests
       && e.asset.value in manifests[e.manifest.value].assets
    then Some(Some(manifests[e.manifest.value].assets[e.asset.value]))
    else None
  }

  function ConnectivityCarried(e: Event): Option<Connectivity> {
    match e.kind
    case Heartbeat | Online | ManifestLoaded | PlaybackStarted | PlaybackProgress | PlaybackCompleted => Some(Connected)
    case Offline => Some(Disconnected)
    case _ => None
  }

  function Updated(manifests: Manifests, d: Device, e: Event): Device {
    d.(lastSequence := e.sequence,
       position := Or(e.position, d.position),
       volume := Or(e.volume, d.volume),
       playback := Or(e.playback, d.playback),
       manifestVersion := Or(ManifestCarried(manifests, e), d.manifestVersion),
       content := Or(ContentCarried(manifests, e), d.content),
       connectivity := Or(ConnectivityCarried(e), d.connectivity))
  }

  function Receive(manifests: Manifests, d: Device, e: Event): Device {
    if e.id in d.events then d
    else
      var stored := d.(events := d.events[e.id := e]);
      if e.sequence <= d.lastSequence then stored else Updated(manifests, stored, e)
  }

  function Deliver(manifests: Manifests, d: Device, events: seq<Event>): Device
    decreases |events|
  {
    if events == [] then d else Deliver(manifests, Receive(manifests, d, events[0]), events[1..])
  }

  function NewCount(d: Device, manifests: Manifests, events: seq<Event>): nat
    decreases |events|
  {
    if events == [] then 0
    else
      (if events[0].id in d.events then 0 else 1) + NewCount(Receive(manifests, d, events[0]), manifests, events[1..])
  }

  predicate Admissible(manifests: Manifests, now: int, events: seq<Event>) {
    forall i :: 0 <= i < |events| ==> Timely(events[i], now) && Referenced(manifests, events[i])
  }

  // What one admissible event does: a known id nothing, a new one is stored, and one ahead of all
  // before it also sets each field it brings.
  lemma ReceiveIs(manifests: Manifests, d: Device, e: Event)
    requires Referenced(manifests, e)
    ensures var d' := Receive(manifests, d, e);
      if e.id in d.events then d' == d
      else if e.sequence <= d.lastSequence then d' == d.(events := d.events[e.id := e])
      else
        && d'.events == d.events[e.id := e] && d'.lastSequence == e.sequence
        && d'.position == (if e.position.Some? then e.position.value else d.position)
        && d'.volume == (if e.volume.Some? then e.volume.value else d.volume)
        && d'.playback == (if e.playback.Some? then e.playback.value else d.playback)
        && d'.manifestVersion == (
             if e.manifest.Some? then
               Some((manifests[e.manifest.value].version, manifests[e.manifest.value].scheduleVersion))
             else d.manifestVersion)
        && d'.content == (
             if e.asset.Some? then Some(manifests[e.manifest.value].assets[e.asset.value]) else d.content)
        && d'.connectivity == (
             if e.kind == Offline then Disconnected
             else if e.kind == PlaybackError || e.kind == CommandAcknowledged then d.connectivity
             else Connected)
  {
  }

  // ---------- bookkeeping ----------

  // lastSequence is the greatest stored sequence, and 0 when nothing is stored.
  ghost predicate LastIsGreatest(d: Device) {
    && (forall i :: i in d.events ==> d.events[i].sequence <= d.lastSequence)
    && (d.lastSequence == 0 || exists i :: i in d.events && d.events[i].sequence == d.lastSequence)
  }

  lemma {:induction false} DeliverKeepsLast(manifests: Manifests, d: Device, events: seq<Event>)
    requires LastIsGreatest(d)
    ensures LastIsGreatest(Deliver(manifests, d, events))
    decreases |events|
  {
    if events != [] {
      var d' := Receive(manifests, d, events[0]);
      if events[0].id !in d.events {
        assert d'.events[events[0].id] == events[0];
        if events[0].sequence <= d.lastSequence && d.lastSequence != 0 {
          var i :| i in d.events && d.events[i].sequence == d.lastSequence;
          assert d'.events[i].sequence == d'.lastSequence;
        }
      }
      DeliverKeepsLast(manifests, d', events[1..]);
    }
  }

  function IdsOf(events: seq<Event>): (ids: set<Id>)
    ensures forall id :: id in ids <==> exists e :: e in events && e.id == id
  {
    if events == [] then {}
    else
      assert events == [events[0]] + events[1..];
      {events[0].id} + IdsOf(events[1..])
  }

  // Each event id is stored once: the store holds exactly the old ids and the delivered ones,
  lemma {:induction false} DeliverStoresOnce(manifests: Manifests, d: Device, events: seq<Event>)
    ensures Deliver(manifests, d, events).events.Keys == d.events.Keys + IdsOf(events)
    decreases |events|
  {
    if events != [] {
      var mid := Receive(manifests, d, events[0]);
      DeliverStoresOnce(manifests, mid, events[1..]);
      assert mid.events.Keys == d.events.Keys + {events[0].id};
    }
  }

  // it never rewrites a stored event,
  lemma {:induction false} DeliverKeepsStored(manifests: Manifests, d: Device, events: seq<Event>, id: Id)
    requires id in d.events
    ensures var d' := Deliver(manifests, d, events); id in d'.events && d'.events[id] == d.events[id]
    decreases |events|
  {
    if events != [] {
      DeliverKeepsStored(manifests, Receive(manifests, d, events[0]), events[1..], id);
    }
  }

  // and it grows by exactly the events counted as accepted.
  lemma {:induction false} StoreGrowsByAccepted(manifests: Manifests, d: Device, events: seq<Event>)
    ensures |Deliver(manifests, d, events).events| == |d.events| + NewCount(d, manifests, events)
    ensures NewCount(d, manifests, events) <= |events|
    decreases |events|
  {
    if events != [] {
      var mid := Receive(manifests, d, events[0]);
      StoreGrowsByAccepted(manifests, mid, events[1..]);
      assert events[0].id !in d.events ==> mid.events.Keys == d.events.Keys + {events[0].id};
      assert |mid.events| == |mid.events.Keys| && |d.events| == |d.events.Keys|;
    }
  }

  // Replaying what is already stored changes nothing and counts as duplicates only.
  lemma {:induction false} ReplayChangesNothing(manifests: Manifests, d: Device, events: seq<Event>)
    requires forall i :: 0 <= i < |events| ==> events[i].id in d.events
    ensures Deliver(manifests, d, events) == d && NewCount(d, manifests, events) == 0
  {
    if events != [] {
      ReplayChangesNothing(manifests, d, events[1..]);
    }
  }

  // How the events are cut into batches is immaterial.
  lemma {:induction false} BatchingIsImmaterial(manifests: Manifests, d: Device, a: seq<Event>, b: seq<Event>)
    ensures Deliver(manifests, d, a + b) == Deliver(manifests, Deliver(manifests, d, a), b)
    decreases |a|
  {
    if a == [] {
      assert a + b == b;
    } else {
      assert (a + b)[1..] == a[1..] + b;
      BatchingIsImmaterial(manifests, Receive(manifests, d, a[0]), a[1..], b);
    }
  }

  // ---------- convergence ----------

  // get reads a field, and carry says which value of it an event brings, if any.
  ghost predicate Tracks<V(!new)>(manifests: Manifests, get: Device -> V, carry: Event -> Option<V>) {
    && (forall d, e :: get(Updated(manifests, d, e)) == Or(carry(e), get(d)))
    && (forall d: Device, events: map<Id, Event> :: get(d.(events := events)) == get(d))
  }

  lemma FieldsTrack(manifests: Manifests)
    ensures Tracks(manifests, (d: Device) => d.position, (e: Event) => e.position)
    ensures Tracks(manifests, (d: Device) => d.volume, (e: Event) => e.volume)
    ensures Tracks(manifests, (d: Device) => d.playback, (e: Event) => e.playback)
    ensures Tracks(manifests, (d: Device) => d.manifestVersion, (e: Event) => ManifestCarried(manifests, e))
    ensures Tracks(manifests, (d: Device) => d.content, (e: Event) => ContentCarried(manifests, e))
    ensures Tracks(manifests, (d: Device) => d.connectivity, (e: Event) => ConnectivityCarried(e))
  {
  }

  // One id is one event, and different events have different sequences.
  ghost predicate Consistent(events: seq<Event>) {
    forall a, b :: a in events && b in events && (a.id == b.id || a.sequence == b.sequence) ==> a == b
  }

  ghost predicate Greatest(events: seq<Event>, top: Event) {
    top in events && forall e :: e in events ==> e.sequence <= top.sequence
  }

  lemma {:induction false} OldEventsChangeNoField<V(!new)>(
    manifests: Manifests, d: Device, events: seq<Event>, get: Device -> V, carry: Event -> Option<V>)
    requires Tracks(manifests, get, carry)
    requires forall e :: e in events ==> e.sequence <= d.lastSequence
    ensures get(Deliver(manifests, d, events)) == get(d)
    decreases |events|
  {
    if events != [] {
      var d' := Receive(manifests, d, events[0]);
      assert get(d.(events := d.events[events[0].id := events[0]])) == get(d);
      OldEventsChangeNoField(manifests, d', events[1..], get, carry);
    }
  }

  lemma {:induction false} LastStays(manifests: Manifests, d: Device, events: seq<Event>)
    requires forall e :: e in events ==> e.sequence <= d.lastSequence
    ensures Deliver(manifests, d, events).lastSequence == d.lastSequence
    decreases |events|
  {
    if events != [] {
      LastStays(manifests, Receive(manifests, d, events[0]), events[1..]);
    }
  }

  // An event that would be applied if it came now.
  predicate News(d: Device, e: Event) { e.id !in d.events && d.lastSequence < e.sequence }

  // One id is one event. Different events may share a sequence number.
  ghost predicate SameIds(events: seq<Event>) {
    forall a, b :: a in events && b in events && a.id == b.id ==> a == b
  }

  // All news of this sequence bring the value.
  ghost predicate AllBring<V(!new)>(d: Device, events: seq<Event>, sequence: nat, carry: Event -> Option<V>, v: V) {
    forall e :: e in events && News(d, e) && e.sequence == sequence ==> carry(e) == Some(v)
  }

  // A value that all news of the greatest sequence bring is the one the field ends with.
  lemma {:induction false} TopsDecide<V(!new)>(
    manifests: Manifests, d: Device, events: seq<Event>, top: Event, get: Device -> V, carry: Event -> Option<V>, v: V)
    requires Tracks(manifests, get, carry) && SameIds(events) && Greatest(events, top) && News(d, top)
    requires AllBring(d, events, top.sequence, carry, v)
    ensures get(Deliver(manifests, d, events)) == v
    ensures Deliver(manifests, d, events).lastSequence == top.sequence
    decreases |events|
  {
    var e := events[0];
    var d' := Receive(manifests, d, e);
    var rest := events[1..];
    assert e in events && forall x :: x in rest ==> x in events;
    if News(d, e) && e.sequence == top.sequence {
      OldEventsChangeNoField(manifests, d', rest, get, carry);
      LastStays(manifests, d', rest);
    } else {
      assert top in rest;
      TopsDecide(manifests, d', rest, top, get, carry, v);
    }
  }

  // Every field that the event of greatest sequence carries ends with that event's value,
  // whatever the order, the batching or the repetitions.
  lemma GreatestEventWins<V(!new)>(
    manifests: Manifests, d: Device, events: seq<Event>, top: Event, get: Device -> V, carry: Event -> Option<V>)
    requires Tracks(manifests, get, carry) && Consistent(events) && Greatest(events, top)
    requires top.id !in d.events && d.lastSequence < top.sequence && carry(top).Some?
    ensures get(Deliver(manifests, d, events)) == carry(top).value
    ensures Deliver(manifests, d, events).lastSequence == top.sequence
  {
    TopsDecide(manifests, d, events, top, get, carry, carry(top).value);
  }

  // When no news brings another value, the field stays.
  lemma {:induction false} SameValueStays<V(!new)>(
    manifests: Manifests, d: Device, events: seq<Event>, get: Device -> V, carry: Event -> Option<V>)
    requires Tracks(manifests, get, carry)
    requires forall e :: e in events && News(d, e) && carry(e).Some? ==> carry(e).value == get(d)
    ensures get(Deliver(manifests, d, events)) == get(d)
    decreases |events|
  {
    if events != [] {
      var e := events[0];
      var stored := d.(events := d.events[e.id := e]);
      assert get(stored) == get(d);
      assert e in events;
      assert get(Updated(manifests, stored, e)) == Or(carry(e), get(stored));
      assert get(Receive(manifests, d, e)) == get(d);
      SameValueStays(manifests, Receive(manifests, d, e), events[1..], get, carry);
    }
  }

  // Neither order nor batching can move the field.
  ghost predicate OrderFree<V(!new)>(manifests: Manifests, d: Device, events: seq<Event>, get: Device -> V) {
    forall a, b :: multiset(a) == multiset(events) && multiset(b) == multiset(events) ==>
      get(Deliver(manifests, d, a)) == get(Deliver(manifests, d, b))
  }

  lemma Members(a: seq<Event>, b: seq<Event>)
    requires multiset(a) == multiset(b)
    ensures forall e :: e in a <==> e in b
  {
    forall e ensures e in a <==> e in b {
      assert e in a <==> e in multiset(a);
      assert e in b <==> e in multiset(b);
    }
  }

  // Moving one event to the front keeps the multiset.
  lemma ToFront(events: seq<Event>, e: Event) returns (rest: seq<Event>)
    requires e in events
    ensures multiset([e] + rest) == multiset(events)
  {
    var i :| 0 <= i < |events| && events[i] == e;
    rest := events[..i] + events[i + 1..];
    assert events == events[..i] + [e] + events[i + 1..];
  }

  // What is delivered again is what was stored.
  ghost predicate Redelivers(d: Device, events: seq<Event>) {
    forall e :: e in events && e.id in d.events ==> d.events[e.id] == e
  }

  // A field the greatest events do not carry may depend on the order of delivery. For any
  // delivery, with late and repeated events and shared sequence numbers, it is order-free exactly
  // when all news of the greatest sequence bring the same value, or no news brings another value
  // than the present one.
  lemma FieldIsOrderFreeIff<V(!new)>(
    manifests: Manifests, d: Device, events: seq<Event>, top: Event, get: Device -> V, carry: Event -> Option<V>)
    requires Tracks(manifests, get, carry) && SameIds(events) && Greatest(events, top)
    requires LastIsGreatest(d) && Redelivers(d, events)
    ensures OrderFree(manifests, d, events, get)
      <==> (exists v :: AllBring(d, events, top.sequence, carry, v))
           || forall e :: e in events && News(d, e) && carry(e).Some? ==> carry(e).value == get(d)
  {
    if forall e :: e in events && News(d, e) && carry(e).Some? ==> carry(e).value == get(d) {
      forall a | multiset(a) == multiset(events) ensures get(Deliver(manifests, d, a)) == get(d) {
        Members(a, events);
        SameValueStays(manifests, d, a, get, carry);
      }
    } else {
      var e :| e in events && News(d, e) && carry(e).Some? && carry(e).value != get(d);
      var u := NewsOfGreatest(d, events, top, e);
      if v :| AllBring(d, events, top.sequence, carry, v) {
        forall a | multiset(a) == multiset(events) ensures get(Deliver(manifests, d, a)) == v {
          Members(a, events);
          TopsDecide(manifests, d, a, u, get, carry, v);
        }
      } else {
        NotOrderFree(manifests, d, events, u, e, get, carry);
      }
    }
  }

  // With any news at all, there is news of the greatest sequence.
  lemma NewsOfGreatest(d: Device, events: seq<Event>, top: Event, e: Event) returns (u: Event)
    requires Greatest(events, top) && LastIsGreatest(d) && Redelivers(d, events) && e in events && News(d, e)
    ensures Greatest(events, u) && News(d, u) && u.sequence == top.sequence
  {
    u := top;
  }

  // Two orders that end differently.
  lemma NotOrderFree<V(!new)>(
    manifests: Manifests, d: Device, events: seq<Event>, u: Event, e: Event,
    get: Device -> V, carry: Event -> Option<V>)
    requires Tracks(manifests, get, carry) && SameIds(events) && Greatest(events, u) && News(d, u)
    requires !exists v :: AllBring(d, events, u.sequence, carry, v)
    requires e in events && News(d, e) && carry(e).Some? && carry(e).value != get(d)
    ensures !OrderFree(manifests, d, events, get)
  {
    var v := Or(carry(u), get(d));
    assert !AllBring(d, events, u.sequence, carry, v);
    var w :| w in events && News(d, w) && w.sequence == u.sequence && carry(w) != Some(v);
    var one := TopFirst(manifests, d, events, u, get, carry);
    if carry(w).None? && get(d) == v {
      var other := TopSecond(manifests, d, events, w, e, get, carry);
      TwoEndings(manifests, d, events, one, other, get);
    } else {
      var other := TopFirst(manifests, d, events, w, get, carry);
      TwoEndings(manifests, d, events, one, other, get);
    }
  }

  lemma TwoEndings<V(!new)>(
    manifests: Manifests, d: Device, events: seq<Event>, a: seq<Event>, b: seq<Event>, get: Device -> V)
    requires multiset(a) == multiset(events) && multiset(b) == multiset(events)
    requires get(Deliver(manifests, d, a)) != get(Deliver(manifests, d, b))
    ensures !OrderFree(manifests, d, events, get)
  {
  }

  // Deliver an event of the greatest sequence first, and the field has its value, or the old one.
  lemma TopFirst<V(!new)>(
    manifests: Manifests, d: Device, events: seq<Event>, top: Event, get: Device -> V, carry: Event -> Option<V>)
    returns (late: seq<Event>)
    requires Tracks(manifests, get, carry) && Greatest(events, top) && News(d, top)
    ensures multiset(late) == multiset(events) && get(Deliver(manifests, d, late)) == Or(carry(top), get(d))
  {
    var rest := ToFront(events, top);
    late := [top] + rest;
    Members(late, events);
    assert forall x :: x in rest ==> x in late;
    assert get(d.(events := d.events[top.id := top])) == get(d);
    OldEventsChangeNoField(manifests, Receive(manifests, d, top), rest, get, carry);
    assert late[1..] == rest;
  }

  // Deliver e first and then an event of the greatest sequence that does not carry the field, and
  // the field keeps what e brought.
  lemma TopSecond<V(!new)>(
    manifests: Manifests, d: Device, events: seq<Event>, top: Event, e: Event,
    get: Device -> V, carry: Event -> Option<V>)
    returns (early: seq<Event>)
    requires Tracks(manifests, get, carry) && SameIds(events) && Greatest(events, top) && carry(top).None?
    requires News(d, top) && e in events && News(d, e) && carry(e).Some?
    ensures multiset(early) == multiset(events) && get(Deliver(manifests, d, early)) == carry(e).value
  {
    if e.sequence == top.sequence {
      early := TopFirst(manifests, d, events, e, get, carry);
    } else {
      var rest := ToFront(events, e);
      Members([e] + rest, events);
      var d' := Receive(manifests, d, e);
      assert get(d.(events := d.events[e.id := e])) == get(d);
      assert e != top && top in rest;
      forall x | x in rest ensures x.sequence <= top.sequence {
        assert x in [e] + rest;
      }
      var tail := TopFirst(manifests, d', rest, top, get, carry);
      early := [e] + tail;
      assert early[1..] == tail;
      assert multiset(early) == multiset([e]) + multiset(rest);
    }
  }

  // ---------- the rows in place ----------

  class DeviceRecord {
    var events: map<Id, Event>
    var lastSequence: nat
    var position: nat
    var volume: nat
    var playback: PlaybackStatus
    var manifestVersion: Option<(nat, Option<nat>)>
    var content: Option<Id>
    var connectivity: Connectivity

    function Snapshot(): Device
      reads this
    {
      Device(events, lastSequence, position, volume, playback, manifestVersion, content, connectivity)
    }

    constructor ()
      ensures Snapshot() == Device(map[], 0, 0, 60, Stopped, None, None, Unknown)
    {
      events, lastSequence, position, volume, playback := map[], 0, 0, 60, Stopped;
      manifestVersion, content, connectivity := None, None, Unknown;
    }

    method Restore(d: Device)
      modifies this
      ensures Snapshot() == d
    {
      events, lastSequence, position, volume, playback := d.events, d.lastSequence, d.position, d.volume, d.playback;
      manifestVersion, content, connectivity := d.manifestVersion, d.content, d.connectivity;
    }

    method ApplyFields(manifests: Manifests, e: Event)
      requires Referenced(manifests, e)
      modifies this
      ensures Snapshot() == Updated(manifests, old(Snapshot()), e)
    {
      lastSequence := e.sequence;
      position := Or(e.position, position);
      volume := Or(e.volume, volume);
      playback := Or(e.playback, playback);
      if e.manifest.Some? {
        var m := manifests[e.manifest.value];
        manifestVersion := Some((m.version, m.scheduleVersion));
        if e.asset.Some? { content := Some(m.assets[e.asset.value]); }
      }
      if e.kind.Offline? {
        connectivity := Disconnected;
      } else if !e.kind.PlaybackError? && !e.kind.CommandAcknowledged? {
        connectivity := Connected;
      }
    }

    // get_or_create by event id, then the state when the sequence is news.
    method ReceiveEvent(manifests: Manifests, e: Event) returns (created: bool)
      requires Referenced(manifests, e)
      modifies this
      ensures Snapshot() == Receive(manifests, old(Snapshot()), e)
      ensures created == (e.id !in old(events))
    {
      if e.id in events {
        return false;
      }
      events := events[e.id := e];
      if e.sequence > lastSequence {
        ApplyFields(manifests, e);
      }
      return true;
    }

    // record_device_telemetry: an inadmissible event undoes the whole batch.
    method RecordTelemetry(manifests: Manifests, batch: seq<Event>, now: int) returns (r: Option<Receipt>)
      modifies this
      ensures r.Some? <==> Admissible(manifests, now, batch)
      // Admissible: at most a day old and five minutes ahead, with references that hold.
      ensures r.Some? <==> forall i :: 0 <= i < |batch| ==>
        && now - 86_400 <= batch[i].occurredAt && batch[i].occurredAt <= now + 300
        && (batch[i].manifest.Some? ==> batch[i].manifest.value in manifests)
        && (batch[i].asset.Some? ==>
              batch[i].manifest.Some? && batch[i].asset.value in manifests[batch[i].manifest.value].assets)
      ensures r.None? ==> Snapshot() == old(Snapshot())
      ensures r.Some? ==>
        && Snapshot() == Deliver(manifests, old(Snapshot()), batch)
        && r.value.accepted == NewCount(old(Snapshot()), manifests, batch)
        && r.value.accepted + r.value.duplicates == |batch|
        && r.value.lastSequence == lastSequence
    {
      var saved := Snapshot();
      var accepted, duplicates := 0, 0;
      for i := 0 to |batch|
        invariant forall j :: 0 <= j < i ==> Timely(batch[j], now) && Referenced(manifests, batch[j])
        invariant Deliver(manifests, Snapshot(), batch[i..]) == Deliver(manifests, saved, batch)
        invariant accepted + NewCount(Snapshot(), manifests, batch[i..]) == NewCount(saved, manifests, batch)
        invariant accepted + duplicates == i
      {
        assert batch[i..][0] == batch[i] && batch[i..][1..] == batch[i + 1..];
        if !Timely(batch[i], now) || !Referenced(manifests, batch[i]) {
          Restore(saved);
          return None;
        }
        var created := ReceiveEvent(manifests, batch[i]);
        if created {
          accepted := accepted + 1;
        } else {
          duplicates := duplicates + 1;
        }
      }
      return Some(Receipt(accepted, duplicates, lastSequence));
    }
  }
}
