// Company permissions: grants of roles on scopes, per-scope overrides, and the bulk index of
// the zones a member can reach.
module Authorization {
  import opened Wrappers

  type Id = nat
  type Permission = string

  datatype Target = CompanyWide | OrgUnit(unit: Id) | Site(site: Id) | Zone(zone: Id) | Group(group: Id)

  datatype Scope = Scope(id: Id, company: Id, target: Target)

  datatype Grant = Grant(
    scope: Scope, permissions: set<Permission>, active: bool, startsAt: Option<int>, endsAt: Option<int>)

  datatype Effect = Allow | Deny

  datatype Override = Override(
    scope: Id, permission: Permission, effect: Effect, startsAt: Option<int>, endsAt: Option<int>)

  datatype ZoneRow = ZoneRow(company: Id, site: Id)

  // A member's rows; overrides are in order of creation.
  datatype Member = Member(company: Id, grants: seq<Grant>, overrides: seq<Override>)

  type Zones = map<Id, ZoneRow>

  // ---------- matching ----------

  // _scope_matches
  predicate Matches(zones: Zones, grant: Scope, target: Scope) {
    if grant.company != target.company then false
    else if grant.target.CompanyWide? then true
    else if target.target.CompanyWide? then false
    else if grant.target.Site? && target.target.Site? then grant.target.site == target.target.site
    else if grant.target.Site? && target.target.Zone? then
      target.target.zone in zones && zones[target.target.zone].site == grant.target.site
    else if grant.target.Zone? then target.target.Zone? && grant.target.zone == target.target.zone
    else grant.id == target.id
  }

  // Scope rows: one id is one row, and one target has one row.
  ghost predicate SoundScopes(scopes: iset<Scope>) {
    && (forall a, b :: a in scopes && b in scopes && a.id == b.id ==> a == b)
    && (forall a, b :: a in scopes && b in scopes && a.company == b.company && a.target == b.target ==> a == b)
  }

  // Matching is a containment order on scopes.
  lemma MatchingIsContainment(zones: Zones, scopes: iset<Scope>, a: Scope, b: Scope, c: Scope)
    requires SoundScopes(scopes) && a in scopes && b in scopes && c in scopes
    ensures Matches(zones, a, a)
    ensures Matches(zones, a, b) && Matches(zones, b, c) ==> Matches(zones, a, c)
    ensures Matches(zones, a, b) && Matches(zones, b, a) ==> a == b
  {
  }

  // A scope contains another of its company if it is company-wide, is the same row, or is the site
  // of a zone.
  lemma MatchesIff(zones: Zones, scopes: iset<Scope>, a: Scope, b: Scope)
    requires SoundScopes(scopes) && a in scopes && b in scopes
    ensures Matches(zones, a, b) <==>
      && a.company == b.company
      && (a.target == CompanyWide || a == b
          || (a.target.Site? && b.target.Zone? && b.target.zone in zones
              && zones[b.target.zone].site == a.target.site))
  {
    assert a.target == b.target && a.company == b.company ==> a == b;
    assert a.id == b.id ==> a == b;
  }

  // ---------- permissions ----------

  predicate Current(startsAt: Option<int>, endsAt: Option<int>, at: int) {
    (startsAt.Some? ==> startsAt.value <= at) && (endsAt.Some? ==> endsAt.value > at)
  }

  predicate GrantApplies(zones: Zones, g: Grant, scope: Scope, at: int) {
    g.active && Current(g.startsAt, g.endsAt, at) && Matches(zones, g.scope, scope)
  }

  function Granted(zones: Zones, grants: seq<Grant>, scope: Scope, at: int): (codes: set<Permission>)
    ensures forall p :: p in codes <==> exists g :: g in grants && GrantApplies(zones, g, scope, at) && p in g.permissions
  {
    if grants == [] then {}
    else
      assert grants == [grants[0]] + grants[1..];
      (if GrantApplies(zones, grants[0], scope, at) then grants[0].permissions else {})
      + Granted(zones, grants[1..], scope, at)
  }

  predicate OverrideApplies(o: Override, scope: Scope, at: int) {
    o.scope == scope.id && Current(o.startsAt, o.endsAt, at)
  }

  function Overridden(codes: set<Permission>, overrides: seq<Override>, scope: Scope, at: int): set<Permission>
    decreases |overrides|
  {
    if overrides == [] then codes
    else
      var o := overrides[0];
      var next :=
        if !OverrideApplies(o, scope, at) then codes
        else if o.effect.Allow? then codes + {o.permission}
        else codes - {o.permission};
      Overridden(next, overrides[1..], scope, at)
  }

  function Effective(zones: Zones, m: Member, scope: Scope, at: int): set<Permission> {
    Overridden(Granted(zones, m.grants, scope, at), m.overrides, scope, at)
  }

  method ResolveEffectivePermissions(zones: Zones, m: Member, scope: Scope, at: int) returns (codes: set<Permission>)
    ensures codes == Effective(zones, m, scope, at)
  {
    codes := {};
    for i := 0 to |m.grants|
      invariant codes + Granted(zones, m.grants[i..], scope, at) == Granted(zones, m.grants, scope, at)
    {
      assert m.grants[i..][0] == m.grants[i] && m.grants[i..][1..] == m.grants[i + 1..];
      var g := m.grants[i];
      if !g.active || !Current(g.startsAt, g.endsAt, at) {
        continue;
      }
      if !Matches(zones, g.scope, scope) {
        continue;
      }
      codes := codes + g.permissions;
    }
    for i := 0 to |m.overrides|
      invariant Overridden(codes, m.overrides[i..], scope, at) == Effective(zones, m, scope, at)
    {
      assert m.overrides[i..][0] == m.overrides[i] && m.overrides[i..][1..] == m.overrides[i + 1..];
      var o := m.overrides[i];
      if o.scope != scope.id || !Current(o.startsAt, o.endsAt, at) {
        continue;
      }
      if o.effect.Allow? {
        codes := codes + {o.permission};
      } else {
        codes := codes - {o.permission};
      }
    }
  }

  // ---------- the bulk index ----------

  // A grant contributes its scope when it is current and the permission is effective there.
  predicate Contributes(zones: Zones, m: Member, g: Grant, p: Permission, at: int) {
    g.active && Current(g.startsAt, g.endsAt, at) && p in Effective(zones, m, g.scope, at)
  }

  // None stands for every zone of the company.
  ghost predicate InBulk(zones: Zones, m: Member, companyScope: Scope, p: Permission, at: int, zone: Id) {
    || p in Effective(zones, m, companyScope, at)
    || exists g :: g in m.grants && Contributes(zones, m, g, p, at)
         && (g.scope.target == Zone(zone) || (zone in zones && g.scope.target == Site(zones[zone].site)))
  }

  // zone_ids_accessible_by_membership
  method ZoneIdsAccessible(zones: Zones, m: Member, companyScope: Scope, p: Permission, at: int)
    returns (ids: Option<set<Id>>)
    ensures ids.None? <==> p in Effective(zones, m, companyScope, at)
    ensures forall z :: z in zones ==> (ids.None? || z in ids.value <==> InBulk(zones, m, companyScope, p, at, z))
  {
    var everywhere := ResolveEffectivePermissions(zones, m, companyScope, at);
    if p in everywhere {
      return None;
    }
    var zoneIds: set<Id>, siteIds: set<Id> := {}, {};
    for i := 0 to |m.grants|
      invariant forall z :: z in zoneIds <==>
        exists j :: 0 <= j < i && Contributes(zones, m, m.grants[j], p, at) && m.grants[j].scope.target == Zone(z)
      invariant forall s :: s in siteIds <==>
        exists j :: 0 <= j < i && Contributes(zones, m, m.grants[j], p, at) && m.grants[j].scope.target == Site(s)
    {
      var g := m.grants[i];
      if !g.active || !Current(g.startsAt, g.endsAt, at) {
        continue;
      }
      var there := ResolveEffectivePermissions(zones, m, g.scope, at);
      if p !in there {
        continue;
      }
      if g.scope.target.Site? {
        siteIds := siteIds + {g.scope.target.site};
      }
      if g.scope.target.Zone? {
        zoneIds := zoneIds + {g.scope.target.zone};
      }
    }
    var inSites := set z | z in zones && zones[z].site in siteIds;
    forall z | z in zones
      ensures z in zoneIds + inSites <==> InBulk(zones, m, companyScope, p, at, z)
    {
      if z in zoneIds {
        var j :| 0 <= j < |m.grants| && Contributes(zones, m, m.grants[j], p, at) && m.grants[j].scope.target == Zone(z);
        assert m.grants[j] in m.grants;
      }
      if zones[z].site in siteIds {
        var j :| 0 <= j < |m.grants| && Contributes(zones, m, m.grants[j], p, at)
          && m.grants[j].scope.target == Site(zones[z].site);
        assert m.grants[j] in m.grants;
      }
    }
    return Some(zoneIds + inSites);
  }

  // ---------- bulk and per-item agree ----------

  ghost predicate NoOverride(m: Member, p: Permission, at: int) {
    forall o :: o in m.overrides && o.permission == p ==> !Current(o.startsAt, o.endsAt, at)
  }

  // What the last override of p in force on a scope says.
  function LastOverride(overrides: seq<Override>, scope: Scope, p: Permission, at: int): Option<Effect> {
    if overrides == [] then None
    else
      var later := LastOverride(overrides[1..], scope, p, at);
      var o := overrides[0];
      if later.Some? then later
      else if OverrideApplies(o, scope, at) && o.permission == p then Some(o.effect)
      else None
  }

  lemma {:induction false} OverriddenIff(
    codes: set<Permission>, overrides: seq<Override>, scope: Scope, p: Permission, at: int)
    ensures p in Overridden(codes, overrides, scope, at) <==>
      (match LastOverride(overrides, scope, p, at)
       case Some(effect) => effect == Allow
       case None => p in codes)
    decreases |overrides|
  {
    if overrides != [] {
      var o := overrides[0];
      var next :=
        if !OverrideApplies(o, scope, at) then codes
        else if o.effect.Allow? then codes + {o.permission}
        else codes - {o.permission};
      OverriddenIff(next, overrides[1..], scope, p, at);
    }
  }

  // The last override decides, and the grants where there is none.
  predicate Kept(zones: Zones, m: Member, scope: Scope, p: Permission, at: int) {
    match LastOverride(m.overrides, scope, p, at)
    case Some(effect) => effect == Allow
    case None => p in Granted(zones, m.grants, scope, at)
  }

  lemma EffectiveIffKept(zones: Zones, m: Member, scope: Scope, p: Permission, at: int)
    ensures p in Effective(zones, m, scope, at) <==> Kept(zones, m, scope, p, at)
  {
    OverriddenIff(Granted(zones, m.grants, scope, at), m.overrides, scope, p, at);
  }

  // Override i speaks of p on the scope, is in force, and no later one is.
  ghost predicate LastWord(overrides: seq<Override>, scope: Scope, p: Permission, at: int, i: int) {
    && 0 <= i < |overrides| && Speaks(overrides[i], scope, p, at)
    && forall j :: i < j < |overrides| ==> !Speaks(overrides[j], scope, p, at)
  }

  predicate Speaks(o: Override, scope: Scope, p: Permission, at: int) {
    && o.scope == scope.id && o.permission == p
    && !(o.startsAt.Some? && at < o.startsAt.value) && !(o.endsAt.Some? && o.endsAt.value <= at)
  }

  lemma {:induction false} LastOverrideIs(overrides: seq<Override>, scope: Scope, p: Permission, at: int)
    ensures match LastOverride(overrides, scope, p, at)
      case None => forall i :: 0 <= i < |overrides| ==> !Speaks(overrides[i], scope, p, at)
      case Some(effect) => exists i :: LastWord(overrides, scope, p, at, i) && overrides[i].effect == effect
  {
    if overrides != [] {
      var rest := overrides[1..];
      LastOverrideIs(rest, scope, p, at);
      if LastOverride(rest, scope, p, at).Some? {
        var i :| LastWord(rest, scope, p, at, i) && rest[i].effect == LastOverride(rest, scope, p, at).value;
        forall j | i + 1 < j < |overrides| ensures !Speaks(overrides[j], scope, p, at) {
          assert overrides[j] == rest[j - 1];
        }
        assert LastWord(overrides, scope, p, at, i + 1);
      } else {
        forall j | 0 < j < |overrides| ensures !Speaks(overrides[j], scope, p, at) {
          assert overrides[j] == rest[j - 1];
        }
        if Speaks(overrides[0], scope, p, at) {
          assert LastWord(overrides, scope, p, at, 0);
        }
      }
    }
  }

  // A permission is effective on a scope exactly when the last override in force allows it, or
  // there is none and an active grant in force, on a scope that contains this one, includes it.
  lemma EffectiveIs(zones: Zones, m: Member, scope: Scope, p: Permission, at: int)
    ensures p in Effective(zones, m, scope, at) <==>
      || (exists i :: LastWord(m.overrides, scope, p, at, i) && m.overrides[i].effect == Allow)
      || ((forall i :: 0 <= i < |m.overrides| ==> !Speaks(m.overrides[i], scope, p, at))
          && exists g :: g in m.grants && g.active && p in g.permissions && Matches(zones, g.scope, scope)
               && !(g.startsAt.Some? && at < g.startsAt.value) && !(g.endsAt.Some? && g.endsAt.value <= at))
  {
    EffectiveIffKept(zones, m, scope, p, at);
    LastOverrideIs(m.overrides, scope, p, at);
    forall i, j | LastWord(m.overrides, scope, p, at, i) && LastWord(m.overrides, scope, p, at, j) ensures i == j {
    }
  }

  lemma {:induction false} NoneInForce(overrides: seq<Override>, scope: Scope, p: Permission, at: int)
    requires forall o :: o in overrides && o.permission == p ==> !Current(o.startsAt, o.endsAt, at)
    ensures LastOverride(overrides, scope, p, at) == None
  {
    if overrides != [] {
      assert overrides[0] in overrides;
      NoneInForce(overrides[1..], scope, p, at);
    }
  }

  // The member's grants, the company's scope and the zone's scope are rows of one store.
  ghost predicate OneStore(scopes: iset<Scope>, m: Member, companyScope: Scope, zoneScope: Scope, zone: Id) {
    && SoundScopes(scopes) && companyScope in scopes && zoneScope in scopes
    && companyScope.company == m.company && companyScope.target == CompanyWide
    && zoneScope.company == m.company && zoneScope.target == Zone(zone)
    && forall g :: g in m.grants ==> g.scope in scopes && g.scope.company == m.company
  }

  // Without overrides in force, the bulk index holds exactly the zones on whose scope the
  // permission is effective.
  lemma BulkAgreesWithItem(
    zones: Zones, scopes: iset<Scope>, m: Member, companyScope: Scope, zoneScope: Scope, zone: Id,
    p: Permission, at: int)
    requires zone in zones && OneStore(scopes, m, companyScope, zoneScope, zone) && NoOverride(m, p, at)
    ensures InBulk(zones, m, companyScope, p, at, zone) <==> p in Effective(zones, m, zoneScope, at)
  {
    forall scope: Scope
      ensures p in Effective(zones, m, scope, at) <==> p in Granted(zones, m.grants, scope, at)
    {
      EffectiveIffKept(zones, m, scope, p, at);
      NoneInForce(m.overrides, scope, p, at);
    }
    if p in Effective(zones, m, zoneScope, at) {
      ItemInBulk(zones, scopes, m, companyScope, zoneScope, zone, p, at);
    }
    if InBulk(zones, m, companyScope, p, at, zone) {
      BulkInItem(zones, scopes, m, companyScope, zoneScope, zone, p, at);
    }
  }

  lemma ItemInBulk(
    zones: Zones, scopes: iset<Scope>, m: Member, companyScope: Scope, zoneScope: Scope, zone: Id,
    p: Permission, at: int)
    requires zone in zones && OneStore(scopes, m, companyScope, zoneScope, zone)
    requires forall s: Scope :: p in Effective(zones, m, s, at) <==> p in Granted(zones, m.grants, s, at)
    requires p in Effective(zones, m, zoneScope, at)
    ensures InBulk(zones, m, companyScope, p, at, zone)
  {
  }

  lemma BulkInItem(
    zones: Zones, scopes: iset<Scope>, m: Member, companyScope: Scope, zoneScope: Scope, zone: Id,
    p: Permission, at: int)
    requires zone in zones && OneStore(scopes, m, companyScope, zoneScope, zone)
    requires forall s: Scope :: p in Effective(zones, m, s, at) <==> p in Granted(zones, m.grants, s, at)
    requires InBulk(zones, m, companyScope, p, at, zone)
    ensures p in Effective(zones, m, zoneScope, at)
  {
  }

  // A scope strictly around the zone on which the index finds the permission: the company's,
  // or the zone's site when a current grant names that site.
  ghost predicate FoundAround(zones: Zones, m: Member, companyScope: Scope, p: Permission, at: int, zone: Id) {
    || Kept(zones, m, companyScope, p, at)
    || exists g :: g in m.grants && g.active && Current(g.startsAt, g.endsAt, at)
         && zone in zones && g.scope.target == Site(zones[zone].site) && Kept(zones, m, g.scope, p, at)
  }

  // A current grant, of whatever role, names the zone itself.
  ghost predicate GrantedOnZone(m: Member, at: int, zone: Id) {
    exists g :: g in m.grants && g.active && Current(g.startsAt, g.endsAt, at) && g.scope.target == Zone(zone)
  }

  // With any overrides, the index and the check agree on a zone exactly when
  // - an Allow on the zone is seen through a grant on the zone, or made redundant from around it;
  // - a Deny on the zone meets no permission from around it;
  // - without either, what is found around is granted on the zone and the other way round,
  //   unless the grant is on the zone itself.
  ghost predicate AgreeOn(
    zones: Zones, m: Member, companyScope: Scope, zoneScope: Scope, p: Permission, at: int, zone: Id)
  {
    var around := FoundAround(zones, m, companyScope, p, at, zone);
    var granted := p in Granted(zones, m.grants, zoneScope, at);
    match LastOverride(m.overrides, zoneScope, p, at)
    case Some(Allow) => around || GrantedOnZone(m, at, zone)
    case Some(Deny) => !around
    case None => if granted then around || GrantedOnZone(m, at, zone) else !around
  }

  lemma BulkIsAroundOrOnZone(
    zones: Zones, scopes: iset<Scope>, m: Member, companyScope: Scope, zoneScope: Scope, zone: Id,
    p: Permission, at: int)
    requires zone in zones && OneStore(scopes, m, companyScope, zoneScope, zone)
    ensures InBulk(zones, m, companyScope, p, at, zone) <==>
      || FoundAround(zones, m, companyScope, p, at, zone)
      || (GrantedOnZone(m, at, zone) && Kept(zones, m, zoneScope, p, at))
  {
    forall scope: Scope ensures p in Effective(zones, m, scope, at) <==> Kept(zones, m, scope, p, at) {
      EffectiveIffKept(zones, m, scope, p, at);
    }
    forall g | g in m.grants && g.scope.target == Zone(zone) ensures g.scope == zoneScope {
    }
    if FoundAround(zones, m, companyScope, p, at, zone) && !Kept(zones, m, companyScope, p, at) {
      var g :| g in m.grants && g.active && Current(g.startsAt, g.endsAt, at)
        && g.scope.target == Site(zones[zone].site) && Kept(zones, m, g.scope, p, at);
      assert Contributes(zones, m, g, p, at);
    }
    if GrantedOnZone(m, at, zone) && Kept(zones, m, zoneScope, p, at) {
      var g :| g in m.grants && g.active && Current(g.startsAt, g.endsAt, at) && g.scope.target == Zone(zone);
      assert Contributes(zones, m, g, p, at);
    }
  }

  lemma BulkAgreesIff(
    zones: Zones, scopes: iset<Scope>, m: Member, companyScope: Scope, zoneScope: Scope, zone: Id,
    p: Permission, at: int)
    requires zone in zones && OneStore(scopes, m, companyScope, zoneScope, zone)
    ensures (InBulk(zones, m, companyScope, p, at, zone) <==> p in Effective(zones, m, zoneScope, at))
      <==> AgreeOn(zones, m, companyScope, zoneScope, p, at, zone)
  {
    BulkIsAroundOrOnZone(zones, scopes, m, companyScope, zoneScope, zone, p, at);
    EffectiveIffKept(zones, m, zoneScope, p, at);
  }

  // One zone of one site of one company, and a member with at most one grant and one override.
  const ZONES: Zones := map[5 := ZoneRow(1, 3)]
  const COMPANY := Scope(10, 1, CompanyWide)
  const SITE := Scope(11, 1, Site(3))
  const ZONE := Scope(12, 1, Zone(5))

  function Holder(scope: Scope, codes: set<Permission>): Grant { Grant(scope, codes, true, None, None) }

  lemma ExampleFacts(m: Member, p: Permission)
    requires m.company == 1 && forall g :: g in m.grants ==> g.scope in {COMPANY, SITE, ZONE}
    ensures (InBulk(ZONES, m, COMPANY, p, 0, 5) <==> p in Effective(ZONES, m, ZONE, 0))
      <==> AgreeOn(ZONES, m, COMPANY, ZONE, p, 0, 5)
    ensures p in Effective(ZONES, m, ZONE, 0) <==> Kept(ZONES, m, ZONE, p, 0)
  {
    BulkAgreesIff(ZONES, iset{COMPANY, SITE, ZONE}, m, COMPANY, ZONE, 5, p, 0);
    EffectiveIffKept(ZONES, m, ZONE, p, 0);
  }

  lemma OnlyOverride(o: Override, scope: Scope, p: Permission, at: int)
    ensures LastOverride([o], scope, p, at)
      == if OverrideApplies(o, scope, at) && o.permission == p then Some(o.effect) else None
  {
    assert [o][1..] == [];
    assert LastOverride([], scope, p, at) == None;
  }

  // The index misses an override on the zone unless a grant on that zone makes it look there,
  // and it misses that an override on the company or the site does not bind the zone.
  lemma OverridesBreakAgreement(p: Permission)
    ensures var denied := Member(1, [Holder(SITE, {p})], [Override(ZONE.id, p, Deny, None, None)]);
      InBulk(ZONES, denied, COMPANY, p, 0, 5) && p !in Effective(ZONES, denied, ZONE, 0)
    ensures var allowed := Member(1, [], [Override(ZONE.id, p, Allow, None, None)]);
      !InBulk(ZONES, allowed, COMPANY, p, 0, 5) && p in Effective(ZONES, allowed, ZONE, 0)
    ensures var seen := Member(1, [Holder(ZONE, {})], [Override(ZONE.id, p, Allow, None, None)]);
      InBulk(ZONES, seen, COMPANY, p, 0, 5) && p in Effective(ZONES, seen, ZONE, 0)
    ensures var above := Member(1, [Holder(COMPANY, {p})], [Override(COMPANY.id, p, Deny, None, None)]);
      !InBulk(ZONES, above, COMPANY, p, 0, 5) && p in Effective(ZONES, above, ZONE, 0)
  {
    var deny, allow := Override(ZONE.id, p, Deny, None, None), Override(ZONE.id, p, Allow, None, None);
    var denied := Member(1, [Holder(SITE, {p})], [deny]);
    var allowed := Member(1, [], [allow]);
    var seen := Member(1, [Holder(ZONE, {})], [allow]);
    var above := Member(1, [Holder(COMPANY, {p})], [Override(COMPANY.id, p, Deny, None, None)]);
    ExampleFacts(denied, p);
    ExampleFacts(allowed, p);
    ExampleFacts(seen, p);
    ExampleFacts(above, p);
    OnlyOverride(deny, SITE, p, 0);
    OnlyOverride(deny, ZONE, p, 0);
    OnlyOverride(allow, COMPANY, p, 0);
    OnlyOverride(allow, ZONE, p, 0);
    OnlyOverride(above.overrides[0], COMPANY, p, 0);
    OnlyOverride(above.overrides[0], ZONE, p, 0);
    assert Holder(SITE, {p}) in denied.grants && Holder(ZONE, {}) in seen.grants && Holder(COMPANY, {p}) in above.grants;
    assert GrantApplies(ZONES, Holder(SITE, {p}), SITE, 0);
    assert GrantApplies(ZONES, Holder(COMPANY, {p}), ZONE, 0);
    assert Kept(ZONES, denied, SITE, p, 0);
    assert FoundAround(ZONES, denied, COMPANY, p, 0, 5);
  }
}
