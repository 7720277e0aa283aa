// Seats of a company: memberships and pending invitations against the plan's user limit.
module Seats {
  import opened Wrappers
  import opened Sets

  type Id = nat

  const TOKEN_LIFETIME := 7 * 86_400
  const RESEND_COOLDOWN := 120

  datatype MemberStatus = Active | Suspended | Revoked

  datatype Invitation = Invitation(email: string, expiresAt: int, lastSentAt: int, accepted: bool, cancelled: bool)

  datatype State = State(members: map<Id, MemberStatus>, invitations: map<Id, Invitation>, clock: int)

  datatype Error = SeatLimitReached | InvalidRole | Conflict | TokenInvalid | PasswordRequired | ProtectedOwner | NotFound

  // staff: platform staff; elsewhere: already a member of some company; grantable: the role
  // and the scopes of the invitation exist.
  datatype Guest = Guest(staff: bool, elsewhere: bool, grantable: bool)

  datatype Action =
    // owner: the owner role is asked for; guest: what is known of the address
    | Invite(id: Id, email: string, owner: bool, guest: Guest)
    | Accept(id: Id, user: Id, guest: Guest, password: bool)
    | Cancel(id: Id)
    | Resend(id: Id)
    | Suspend(user: Id, owner: bool)
    | Reactivate(user: Id, owner: bool)

  datatype Event = Event(elapsed: nat, action: Action)

  // ---------- what occupies a seat ----------

  predicate Pending(i: Invitation, now: int) { !i.accepted && !i.cancelled && !(i.expiresAt <= now) }

  function Seated(s: State): set<Id> { set u | u in s.members && s.members[u] != Revoked }

  function Invited(s: State): set<Id> { set i | i in s.invitations && Pending(s.invitations[i], s.clock) }

  function Used(s: State): nat { |Seated(s)| + |Invited(s)| }

  predicate Full(s: State, limit: Option<nat>) { limit.Some? && Used(s) >= limit.value }

  // ---------- operations ----------

  // Expired invitations to the same address are closed before a new one is made.
  function ExpiredClosed(s: State, email: string): map<Id, Invitation> {
    map i | i in s.invitations ::
      var v := s.invitations[i];
      if v.email == email && !v.accepted && !v.cancelled && v.expiresAt <= s.clock then v.(cancelled := true) else v
  }

  function PendingFor(s: State, email: string): set<Id> {
    set i | i in s.invitations && s.invitations[i].email == email && Pending(s.invitations[i], s.clock)
  }

  function Apply(s: State, limit: Option<nat>, a: Action): Result<State, Error> {
    match a
    case Invite(id, email, owner, guest) =>
      if owner then Err(InvalidRole)
      else if Full(s, limit) then Err(SeatLimitReached)
      else if guest.staff then Err(InvalidRole)
      else if guest.elsewhere || PendingFor(s, email) != {} || id in s.invitations then Err(Conflict)
      else if !guest.grantable then Err(InvalidRole)
      else
        Ok(s.(invitations := ExpiredClosed(s, email)[
          id := Invitation(email, s.clock + TOKEN_LIFETIME, s.clock, false, false)]))
    case Accept(id, user, guest, password) =>
      if id !in s.invitations || !Pending(s.invitations[id], s.clock) then Err(TokenInvalid)
      else if guest.staff then Err(InvalidRole)
      else if guest.elsewhere || user in s.members then Err(Conflict)
      else if !password then Err(PasswordRequired)
      else if !guest.grantable then Err(InvalidRole)
      else
        Ok(s.(members := s.members[user := Active],
              invitations := s.invitations[id := s.invitations[id].(accepted := true)]))
    case Cancel(id) =>
      if id !in s.invitations then Err(NotFound)
      else if !Pending(s.invitations[id], s.clock) then Err(Conflict)
      else Ok(s.(invitations := s.invitations[id := s.invitations[id].(cancelled := true)]))
    case Resend(id) =>
      if id !in s.invitations then Err(NotFound)
      else if !Pending(s.invitations[id], s.clock) then Err(Conflict)
      else if s.invitations[id].lastSentAt > s.clock - RESEND_COOLDOWN then Ok(s)
      else
        Ok(s.(invitations := s.invitations[
          id := s.invitations[id].(expiresAt := s.clock + TOKEN_LIFETIME, lastSentAt := s.clock)]))
    case Suspend(user, owner) =>
      if user !in s.members then Err(NotFound)
      else if owner then Err(ProtectedOwner)
      else Ok(s.(members := s.members[user := Suspended]))
    case Reactivate(user, owner) =>
      if user !in s.members then Err(NotFound)
      else if owner then Err(ProtectedOwner)
      else Ok(s.(members := s.members[user := Active]))
  }

  function Tick(s: State, elapsed: nat): State { s.(clock := s.clock + elapsed) }

  function Commit(s: State, r: Result<State, Error>): State { if r.Ok? then r.value else s }

  function Step(s: State, limit: Option<nat>, e: Event): State {
    Commit(Tick(s, e.elapsed), Apply(Tick(s, e.elapsed), limit, e.action))
  }

  function Run(s: State, limit: Option<nat>, events: seq<Event>): State {
    if events == [] then s else Step(Run(s, limit, events[..|events| - 1]), limit, events[|events| - 1])
  }

  // ---------- conservation ----------

  // Neither suspending nor reactivating distinguishes a revoked membership from a live one.
  predicate Restores(s: State, a: Action) {
    (a.Suspend? || a.Reactivate?) && !a.owner && a.user in s.members && s.members[a.user] == Revoked
  }

  // Time only lets invitations lapse.
  lemma TimeFreesSeats(s: State, elapsed: nat)
    ensures Used(Tick(s, elapsed)) <= Used(s)
  {
    SubsetSize(Invited(Tick(s, elapsed)), Invited(s));
    assert Seated(Tick(s, elapsed)) == Seated(s);
  }

  function Delta(s: State, a: Action): int {
    match a
    case Invite(_, _, _, _) => 1
    case Cancel(_) => -1
    case Suspend(_, _) => if Restores(s, a) then 1 else 0
    case Reactivate(_, _) => if Restores(s, a) then 1 else 0
    case _ => 0
  }

  lemma MembersDelta(s: State, user: Id, status: MemberStatus)
    requires status != Revoked
    ensures var s' := s.(members := s.members[user := status]);
      Invited(s') == Invited(s) && |Seated(s')| == |Seated(s)| + if user in Seated(s) then 0 else 1
  {
    var s' := s.(members := s.members[user := status]);
    assert Seated(s') == Seated(s) + {user};
    assert user in Seated(s) ==> Seated(s) + {user} == Seated(s);
  }

  lemma InvitationsDelta(s: State, id: Id, i: Invitation)
    ensures var s' := s.(invitations := s.invitations[id := i]);
      && Seated(s') == Seated(s)
      && Invited(s') == if Pending(i, s.clock) then Invited(s) + {id} else Invited(s) - {id}
  {
  }

  lemma ClosingExpiredChangesNothing(s: State, email: string)
    ensures var s' := s.(invitations := ExpiredClosed(s, email));
      Invited(s') == Invited(s) && Seated(s') == Seated(s)
  {
  }

  lemma InviteDelta(s: State, limit: Option<nat>, a: Action)
    requires a.Invite? && Apply(s, limit, a).Ok?
    ensures Used(Apply(s, limit, a).value) == Used(s) + 1
  {
    var closed := s.(invitations := ExpiredClosed(s, a.email));
    var i := Invitation(a.email, s.clock + TOKEN_LIFETIME, s.clock, false, false);
    ClosingExpiredChangesNothing(s, a.email);
    InvitationsDelta(closed, a.id, i);
    assert Apply(s, limit, a).value == closed.(invitations := closed.invitations[a.id := i]);
  }

  lemma AcceptDelta(s: State, limit: Option<nat>, a: Action)
    requires a.Accept? && Apply(s, limit, a).Ok?
    ensures Used(Apply(s, limit, a).value) == Used(s)
  {
    MembersDelta(s, a.user, Active);
    InvitationsDelta(s.(members := s.members[a.user := Active]), a.id, s.invitations[a.id].(accepted := true));
  }

  lemma ResendDelta(s: State, limit: Option<nat>, a: Action)
    requires a.Resend? && Apply(s, limit, a).Ok?
    ensures Used(Apply(s, limit, a).value) == Used(s)
  {
    InvitationsDelta(s, a.id, s.invitations[a.id].(expiresAt := s.clock + TOKEN_LIFETIME, lastSentAt := s.clock));
    assert Invited(s) + {a.id} == Invited(s);
  }

  // The exact effect of each operation on the seats in use.
  lemma SeatDelta(s: State, limit: Option<nat>, a: Action)
    requires Apply(s, limit, a).Ok?
    ensures Used(Apply(s, limit, a).value) == Used(s) + Delta(s, a)
  {
    match a
    case Invite(_, _, _, _) => InviteDelta(s, limit, a);
    case Accept(_, _, _, _) => AcceptDelta(s, limit, a);
    case Cancel(id) => InvitationsDelta(s, id, s.invitations[id].(cancelled := true));
    case Resend(_) => ResendDelta(s, limit, a);
    case Suspend(user, _) => MembersDelta(s, user, Suspended);
    case Reactivate(user, _) => MembersDelta(s, user, Active);
  }

  predicate Within(s: State, limit: nat) { Used(s) <= limit }

  // One operation keeps the limit exactly when it does not restore a revoked membership into
  // a company that has no seat left.
  lemma OperationKeepsLimitIff(s: State, limit: nat, a: Action)
    requires Within(s, limit)
    ensures Within(Commit(s, Apply(s, Some(limit), a)), limit) <==> !(Restores(s, a) && Used(s) == limit)
  {
    if Apply(s, Some(limit), a).Ok? {
      SeatDelta(s, Some(limit), a);
    }
  }

  ghost predicate NoneRevoked(s: State) { forall u :: u in s.members ==> s.members[u] != Revoked }

  // No operation revokes a membership, so from a company without revoked members the limit
  // holds over every run.
  lemma {:induction false} SeatsNeverExceedLimit(s: State, limit: nat, events: seq<Event>)
    requires Within(s, limit) && NoneRevoked(s)
    ensures Within(Run(s, Some(limit), events), limit) && NoneRevoked(Run(s, Some(limit), events))
  {
    if events != [] {
      var e := events[|events| - 1];
      var before := Run(s, Some(limit), events[..|events| - 1]);
      SeatsNeverExceedLimit(s, limit, events[..|events| - 1]);
      TimeFreesSeats(before, e.elapsed);
      OperationKeepsLimitIff(Tick(before, e.elapsed), limit, e.action);
    }
  }

  // With a revoked member the limit can be passed: the status is overwritten unchecked.
  lemma ReactivatingRevokedExceedsLimit()
    ensures var s := State(map[1 := Active, 2 := Revoked], map[], 0);
      Within(s, 1) && !Within(Run(s, Some(1), [Event(0, Reactivate(2, false))]), 1)
  {
    var s := State(map[1 := Active, 2 := Revoked], map[], 0);
    var e := Event(0, Reactivate(2, false));
    var none: seq<Event> := [];
    assert [e][..0] == none && Run(s, Some(1), none) == s;
    assert Seated(s) == {1} && Invited(s) == {};
    OperationKeepsLimitIff(Tick(s, 0), 1, e.action);
    assert Run(s, Some(1), [e]) == Commit(Tick(s, 0), Apply(Tick(s, 0), Some(1), e.action));
  }

  lemma {:induction false} RunAppend(s: State, limit: Option<nat>, a: seq<Event>, b: seq<Event>)
    ensures Run(s, limit, a + b) == Run(Run(s, limit, a), limit, b)
  {
    if b == [] {
      assert a + b == a;
    } else {
      assert (a + b)[..|a + b| - 1] == a + b[..|b| - 1];
      RunAppend(s, limit, a, b[..|b| - 1]);
    }
  }

  lemma {:induction false} Beyond(used: set<nat>) returns (b: nat)
    ensures forall x :: x in used ==> x < b
    decreases |used|
  {
    b := 0;
    if used != {} {
      var x :| x in used;
      var rest := Beyond(used - {x});
      b := if rest <= x then x + 1 else rest;
      forall y | y in used ensures y < b {
        assert y == x || y in used - {x};
      }
    }
  }

  // There is always someone left to invite.
  lemma SomeoneToInvite(s: State) returns (a: Action)
    ensures a.Invite? && !a.owner && a.guest == Guest(false, false, true)
    ensures a.id !in s.invitations && PendingFor(s, a.email) == {}
  {
    var id := Beyond(s.invitations.Keys);
    var lengths := set i | i in s.invitations :: |s.invitations[i].email|;
    var n := Beyond(lengths);
    var email := seq(n, i => 'x');
    forall i | i in s.invitations ensures s.invitations[i].email != email {
      assert |s.invitations[i].email| in lengths;
    }
    a := Invite(id, email, false, Guest(false, false, true));
    assert PendingFor(s, email) == {};
  }

  // Invitations can take every seat that is left.
  lemma {:induction false} SeatsCanBeFilled(s: State, limit: nat) returns (events: seq<Event>)
    requires Within(s, limit)
    ensures Used(Run(s, Some(limit), events)) == limit && Run(s, Some(limit), events).members == s.members
    decreases limit - Used(s)
  {
    events := [];
    if Used(s) < limit {
      var a := SomeoneToInvite(s);
      assert Tick(s, 0) == s;
      SeatDelta(s, Some(limit), a);
      var e := Event(0, a);
      var after := Step(s, Some(limit), e);
      var rest := SeatsCanBeFilled(after, limit);
      assert [e][..0] == [] && Run(s, Some(limit), [e]) == after;
      RunAppend(s, Some(limit), [e], rest);
      events := [e] + rest;
    }
  }

  // A revoked membership is enough: fill the seats, then restore it.
  lemma RevokedBreaksLimit(s: State, limit: nat, u: Id) returns (events: seq<Event>)
    requires Within(s, limit) && u in s.members && s.members[u] == Revoked
    ensures !Within(Run(s, Some(limit), events), limit)
  {
    var fill := SeatsCanBeFilled(s, limit);
    var e := Event(0, Reactivate(u, false));
    var full := Run(s, Some(limit), fill);
    events := fill + [e];
    assert events[..|fill|] == fill;
    assert Tick(full, 0) == full;
    SeatDelta(full, Some(limit), e.action);
  }

  // Every run stays within the limit exactly when no membership is revoked at the start.
  lemma LimitHoldsIff(s: State, limit: nat)
    requires Within(s, limit)
    ensures (forall events: seq<Event> :: Within(Run(s, Some(limit), events), limit)) <==> NoneRevoked(s)
  {
    if NoneRevoked(s) {
      forall events: seq<Event> ensures Within(Run(s, Some(limit), events), limit) {
        SeatsNeverExceedLimit(s, limit, events);
      }
    } else {
      var u :| u in s.members && s.members[u] == Revoked;
      var events := RevokedBreaksLimit(s, limit, u);
    }
  }

  // ---------- each operation, in plain terms ----------

  // Neither accepted nor cancelled, and not yet run out.
  predicate Waiting(i: Invitation, now: int) { !i.accepted && !i.cancelled && now < i.expiresAt }

  // A seat is a membership that is not revoked or an invitation that waits.
  lemma UsedIs(s: State)
    ensures Used(s) ==
      |set u | u in s.members && (s.members[u] == Active || s.members[u] == Suspended)|
      + |set i | i in s.invitations && Waiting(s.invitations[i], s.clock)|
  {
    assert Seated(s) == set u | u in s.members && (s.members[u] == Active || s.members[u] == Suspended);
    assert Invited(s) == set i | i in s.invitations && Waiting(s.invitations[i], s.clock);
  }

  // When each operation goes through.
  lemma AcceptedIff(s: State, limit: Option<nat>, a: Action)
    ensures Apply(s, limit, a).Ok? <==>
      match a
      case Invite(id, email, owner, guest) =>
        && !owner && (limit.Some? ==> Used(s) < limit.value)
        && !guest.staff && !guest.elsewhere && guest.grantable && id !in s.invitations
        && forall i :: i in s.invitations && s.invitations[i].email == email ==> !Waiting(s.invitations[i], s.clock)
      case Accept(id, user, guest, password) =>
        && id in s.invitations && Waiting(s.invitations[id], s.clock)
        && !guest.staff && !guest.elsewhere && guest.grantable && password && user !in s.members
      case Cancel(id) => id in s.invitations && Waiting(s.invitations[id], s.clock)
      case Resend(id) => id in s.invitations && Waiting(s.invitations[id], s.clock)
      case Suspend(user, owner) => user in s.members && !owner
      case Reactivate(user, owner) => user in s.members && !owner
  {
    if a.Invite? {
      forall i | i in s.invitations && s.invitations[i].email == a.email && Waiting(s.invitations[i], s.clock)
        ensures i in PendingFor(s, a.email)
      {
      }
    }
  }

  // What it does then: a week to accept, two minutes between two mails, and no other row changes,
  // except that a new invitation closes those of its address that have run out.
  lemma EffectIs(s: State, limit: Option<nat>, a: Action)
    requires Apply(s, limit, a).Ok?
    ensures var s' := Apply(s, limit, a).value;
      s'.clock == s.clock &&
      match a
      case Invite(id, email, _, _) =>
        && s'.members == s.members && s'.invitations.Keys == s.invitations.Keys + {id}
        && s'.invitations[id] == Invitation(email, s.clock + 604_800, s.clock, false, false)
        && forall i :: i in s.invitations ==>
             var was := s.invitations[i];
             s'.invitations[i] ==
               if was.email == email && !was.accepted && was.expiresAt <= s.clock then was.(cancelled := true) else was
      case Accept(id, user, _, _) =>
        && s'.members == s.members[user := Active]
        && s'.invitations == s.invitations[id := s.invitations[id].(accepted := true)]
      case Cancel(id) =>
        && s'.members == s.members
        && s'.invitations == s.invitations[id := s.invitations[id].(cancelled := true)]
      case Resend(id) =>
        && s'.members == s.members
        && s'.invitations ==
             if s.clock < s.invitations[id].lastSentAt + 120 then s.invitations
             else s.invitations[id := s.invitations[id].(expiresAt := s.clock + 604_800, lastSentAt := s.clock)]
      case Suspend(user, _) => s'.invitations == s.invitations && s'.members == s.members[user := Suspended]
      case Reactivate(user, _) => s'.invitations == s.invitations && s'.members == s.members[user := Active]
  {
  }

  // ---------- the rows in place ----------

  class Company {
    var members: map<Id, MemberStatus>
    var invitations: map<Id, Invitation>
    var clock: int

    function Snapshot(): State
      reads this
    {
      State(members, invitations, clock)
    }

    method InviteMember(limit: Option<nat>, id: Id, email: string, owner: bool, guest: Guest)
      returns (error: Option<Error>)
      requires id !in invitations
      modifies this
      ensures var r := Apply(old(Snapshot()), limit, Invite(id, email, owner, guest));
        Snapshot() == Commit(old(Snapshot()), r) && error == (if r.Ok? then None else Some(r.error))
    {
      if owner {
        return Some(InvalidRole);
      }
      var saved := invitations;
      var seated := set u | u in members && members[u] != Revoked;
      var invited := set i | i in invitations && Pending(invitations[i], clock);
      assert seated == Seated(Snapshot()) && invited == Invited(Snapshot());
      if limit.Some? && |seated| + |invited| >= limit.value {
        return Some(SeatLimitReached);
      }
      if guest.staff {
        return Some(InvalidRole);
      }
      if guest.elsewhere {
        return Some(Conflict);
      }
      invitations := ExpiredClosed(Snapshot(), email);
      var waiting := set i | i in invitations && invitations[i].email == email && Pending(invitations[i], clock);
      assert waiting == PendingFor(old(Snapshot()), email);
      if waiting != {} {
        invitations := saved;
        return Some(Conflict);
      }
      if !guest.grantable {
        invitations := saved;
        return Some(InvalidRole);
      }
      invitations := invitations[id := Invitation(email, clock + TOKEN_LIFETIME, clock, false, false)];
      return None;
    }

    method AcceptInvitation(id: Id, user: Id, guest: Guest, password: bool)
      returns (error: Option<Error>)
      modifies this
      ensures var r := Apply(old(Snapshot()), None, Accept(id, user, guest, password));
        Snapshot() == Commit(old(Snapshot()), r) && error == (if r.Ok? then None else Some(r.error))
    {
      if id !in invitations || !Pending(invitations[id], clock) {
        return Some(TokenInvalid);
      }
      if guest.staff {
        return Some(InvalidRole);
      }
      if guest.elsewhere || user in members {
        return Some(Conflict);
      }
      if !password {
        return Some(PasswordRequired);
      }
      var saved := members;
      members := members[user := Active];
      if !guest.grantable {
        members := saved;
        return Some(InvalidRole);
      }
      invitations := invitations[id := invitations[id].(accepted := true)];
      return None;
    }

    method CancelInvitation(id: Id) returns (error: Option<Error>)
      requires id in invitations
      modifies this
      ensures var r := Apply(old(Snapshot()), None, Cancel(id));
        Snapshot() == Commit(old(Snapshot()), r) && error == (if r.Ok? then None else Some(r.error))
    {
      if !Pending(invitations[id], clock) {
        return Some(Conflict);
      }
      invitations := invitations[id := invitations[id].(cancelled := true)];
      return None;
    }

    method ResendInvitation(id: Id) returns (error: Option<Error>)
      requires id in invitations
      modifies this
      ensures var r := Apply(old(Snapshot()), None, Resend(id));
        Snapshot() == Commit(old(Snapshot()), r) && error == (if r.Ok? then None else Some(r.error))
    {
      var invitation := invitations[id];
      if !Pending(invitation, clock) {
        return Some(Conflict);
      }
      if invitation.lastSentAt > clock - RESEND_COOLDOWN {
        return None;
      }
      invitation := invitation.(expiresAt := clock + TOKEN_LIFETIME, lastSentAt := clock);
      invitations := invitations[id := invitation];
      return None;
    }

    // suspend_member and reactivate_member
    method SetStatus(user: Id, owner: bool, suspend: bool) returns (error: Option<Error>)
      requires user in members
      modifies this
      ensures var r := Apply(old(Snapshot()), None, if suspend then Suspend(user, owner) else Reactivate(user, owner));
        Snapshot() == Commit(old(Snapshot()), r) && error == (if r.Ok? then None else Some(r.error))
    {
      if owner {
        return Some(ProtectedOwner);
      }
      members := members[user := if suspend then Suspended else Active];
      return None;
    }
  }
}
