// The hierarchy of organizational units: the walk over ancestors that guards every save.
module OrgUnits {
  import opened Wrappers

  type Id = nat

  datatype Unit = Unit(company: Id, parent: Option<Id>)

  type Store = map<Id, Unit>

  datatype Error = UnknownParent | OwnParent | OtherCompany | Cycle

  // The n-th ancestor.
  ghost function Up(m: Store, u: Id, n: nat): Option<Id> {
    if n == 0 then Some(u)
    else
      var below := Up(m, u, n - 1);
      if below.Some? && below.value in m then m[below.value].parent else None
  }

  ghost predicate Closed(m: Store) {
    forall u :: u in m && m[u].parent.Some? ==> m[u].parent.value in m
  }

  // No unit is its own ancestor.
  ghost predicate Forest(m: Store) {
    Closed(m) && forall u, n: nat :: u in m && n > 0 ==> Up(m, u, n) != Some(u)
  }

  // Parents have smaller rank.
  ghost predicate Ranked(m: Store, rank: map<Id, nat>) {
    && Closed(m) && rank.Keys == m.Keys
    && forall u :: u in m && m[u].parent.Some? ==> m[u].parent.value in m && rank[m[u].parent.value] < rank[u]
  }

  // ---------- a forest is a ranked store ----------

  lemma {:induction false} UpParent(m: Store, u: Id, n: nat)
    requires u in m && Closed(m)
    ensures Up(m, u, n + 1) == if m[u].parent.Some? then Up(m, m[u].parent.value, n) else None
  {
    if n > 0 {
      UpParent(m, u, n - 1);
    }
  }

  lemma {:induction false} UpCompose(m: Store, u: Id, i: nat, j: nat)
    requires Up(m, u, i).Some?
    ensures Up(m, u, i + j) == Up(m, Up(m, u, i).value, j)
  {
    if j > 0 {
      UpCompose(m, u, i, j - 1);
    }
  }

  lemma {:induction false} UpStays(m: Store, u: Id, n: nat)
    requires u in m && Closed(m)
    ensures Up(m, u, n).Some? ==> Up(m, u, n).value in m
    ensures n > 0 && Up(m, u, n).Some? ==> Up(m, u, n - 1).Some?
  {
  }

  lemma {:induction false} UpPrefix(m: Store, u: Id, i: nat, n: nat)
    requires u in m && Closed(m) && i <= n && Up(m, u, n).Some?
    ensures Up(m, u, i).Some? && Up(m, u, i).value in m
  {
    UpStays(m, u, n);
    if i < n {
      UpPrefix(m, u, i, n - 1);
    }
  }

  lemma {:induction false} DistinctFit(s: seq<Id>, within: set<Id>)
    requires forall i :: 0 <= i < |s| ==> s[i] in within
    requires forall i, j :: 0 <= i < j < |s| ==> s[i] != s[j]
    ensures |s| <= |within|
  {
    if s != [] {
      DistinctFit(s[1..], within - {s[0]});
    }
  }

  // A chain of ancestors ends within as many steps as there are units.
  lemma ChainEnds(m: Store, u: Id)
    requires Forest(m) && u in m
    ensures Up(m, u, |m|) == None
  {
    if Up(m, u, |m|).Some? {
      forall i | 0 <= i <= |m| ensures Up(m, u, i).Some? && Up(m, u, i).value in m {
        UpPrefix(m, u, i, |m|);
      }
      var chain := seq(|m| + 1, i requires 0 <= i <= |m| => Up(m, u, i).value);
      forall i, j | 0 <= i < j < |chain| ensures chain[i] != chain[j] {
        UpCompose(m, u, i, j - i);
        assert Up(m, chain[i], j - i) != Some(chain[i]);
      }
      DistinctFit(chain, m.Keys);
    }
  }

  // Number of units from u to its root, counted from the k-th ancestor on.
  ghost function Height(m: Store, u: Id, k: nat): nat
    requires k <= |m| && Up(m, u, |m|) == None
    decreases |m| - k
  {
    if Up(m, u, k) == None then k else Height(m, u, k + 1)
  }

  lemma {:induction false} HeightOfParent(m: Store, u: Id, k: nat)
    requires Closed(m) && u in m && m[u].parent.Some? && k < |m|
    requires Up(m, u, |m|) == None && Up(m, m[u].parent.value, |m|) == None
    requires Up(m, u, |m| - 1 + 1) == Up(m, m[u].parent.value, |m| - 1)
    ensures Height(m, u, k + 1) == Height(m, m[u].parent.value, k) + 1
    decreases |m| - k
  {
    UpParent(m, u, k);
    if Up(m, u, k + 1).Some? {
      HeightOfParent(m, u, k + 1);
    }
  }

  lemma ForestHasRank(m: Store) returns (rank: map<Id, nat>)
    requires Forest(m)
    ensures Ranked(m, rank)
  {
    forall u | u in m ensures Up(m, u, |m|) == None {
      ChainEnds(m, u);
    }
    rank := map u | u in m :: Height(m, u, 0);
    forall u | u in m && m[u].parent.Some? ensures rank[m[u].parent.value] < rank[u] {
      UpParent(m, u, |m| - 1);
      HeightOfParent(m, u, 0);
    }
  }

  lemma {:induction false} RankFalls(m: Store, rank: map<Id, nat>, u: Id, n: nat)
    requires Ranked(m, rank) && u in m
    ensures Up(m, u, n).Some? ==> Up(m, u, n).value in m && rank[Up(m, u, n).value] + n <= rank[u]
  {
    if n > 0 {
      RankFalls(m, rank, u, n - 1);
    }
  }

  lemma RankMakesForest(m: Store, rank: map<Id, nat>)
    requires Ranked(m, rank)
    ensures Forest(m)
  {
    forall u, n: nat | u in m && n > 0 ensures Up(m, u, n) != Some(u) {
      RankFalls(m, rank, u, n);
    }
  }

  // ---------- hanging a unit somewhere else ----------

  // u is v or one of its ancestors.
  ghost predicate Above(m: Store, u: Id, v: Id) {
    exists n: nat :: Up(m, v, n) == Some(u)
  }

  lemma AboveOfParent(m: Store, u: Id, v: Id)
    requires Closed(m) && v in m && m[v].parent.Some?
    ensures Above(m, u, v) <==> v == u || Above(m, u, m[v].parent.value)
  {
    assert Up(m, v, 0) == Some(v);
    if Above(m, u, v) && v != u {
      var n: nat :| Up(m, v, n) == Some(u);
      UpParent(m, v, n - 1);
    }
    if Above(m, u, m[v].parent.value) {
      var n: nat :| Up(m, m[v].parent.value, n) == Some(u);
      UpParent(m, v, n);
      assert Up(m, v, n + 1) == Some(u);
    }
  }

  // Lift the moved subtree above its new parent in the ranking.
  lemma MovedIsRanked(m: Store, rank: map<Id, nat>, id: Id, unit: Unit) returns (lifted: map<Id, nat>)
    requires Ranked(m, rank)
    requires unit.parent.Some? ==> unit.parent.value in m && !Above(m, id, unit.parent.value)
    ensures Ranked(m[id := unit], lifted)
  {
    var m' := m[id := unit];
    var lift := if unit.parent.Some? then rank[unit.parent.value] + 1 else 0;
    lifted := map u | u in m' ::
      (if u in m then rank[u] else 0) + if Above(m, id, u) then lift else 0;
    assert Up(m, id, 0) == Some(id);
    forall u | u in m' && m'[u].parent.Some?
      ensures m'[u].parent.value in m' && lifted[m'[u].parent.value] < lifted[u]
    {
      if u != id {
        AboveOfParent(m, id, u);
      }
    }
  }

  // Accepted exactly when the parent is another unit of the same company that is not below id.
  ghost predicate Acceptable(m: Store, id: Id, unit: Unit) {
    unit.parent.Some? ==>
      && unit.parent.value in m && unit.parent.value != id
      && m[unit.parent.value].company == unit.company && !Above(m, id, unit.parent.value)
  }

  // A line of units, each the child of the next.
  ghost predicate Line(m: Store, path: seq<Id>) {
    |path| > 0 && forall i :: 0 <= i < |path| - 1 ==> path[i] in m && m[path[i]].parent == Some(path[i + 1])
  }

  lemma {:induction false} LineGoesUp(m: Store, path: seq<Id>, i: nat)
    requires Line(m, path) && i < |path|
    ensures Up(m, path[0], i) == Some(path[i])
  {
    if i > 0 {
      LineGoesUp(m, path, i - 1);
    }
  }

  lemma {:induction false} LineTo(m: Store, v: Id, n: nat) returns (path: seq<Id>)
    requires Up(m, v, n).Some?
    ensures Line(m, path) && path[0] == v && path[|path| - 1] == Up(m, v, n).value
  {
    if n == 0 {
      path := [v];
    } else {
      path := LineTo(m, v, n - 1);
      path := path + [Up(m, v, n).value];
    }
  }

  // Acceptable: without a parent, or under another unit of its company from which no line leads
  // up to it.
  lemma AcceptableIs(m: Store, id: Id, unit: Unit)
    ensures Acceptable(m, id, unit) <==>
      || unit.parent == None
      || (unit.parent.value in m && unit.parent.value != id && m[unit.parent.value].company == unit.company
          && forall path :: Line(m, path) && path[0] == unit.parent.value ==> path[|path| - 1] != id)
  {
    if unit.parent.Some? {
      var parent := unit.parent.value;
      if n: nat :| Up(m, parent, n) == Some(id) {
        var path := LineTo(m, parent, n);
      }
      forall path | Line(m, path) && path[0] == parent && path[|path| - 1] == id ensures Above(m, id, parent) {
        LineGoesUp(m, path, |path| - 1);
      }
    }
  }

  // The forest survives exactly the saves that put no unit above itself.
  lemma SaveKeepsForestIff(m: Store, id: Id, unit: Unit)
    requires Forest(m) && (unit.parent.Some? ==> unit.parent.value in m)
    ensures Forest(m[id := unit]) <==> (unit.parent.Some? ==> !Above(m, id, unit.parent.value))
  {
    var m' := m[id := unit];
    if unit.parent.Some? && Above(m, id, unit.parent.value) {
      var n := FirstMeeting(m, id, unit.parent.value);
      SameWalk(m, id, unit, unit.parent.value, n);
      assert Up(m', id, 0) == Some(id);
      if Closed(m') {
        UpParent(m', id, n);
        assert Up(m', id, n + 1) == Some(id);
      }
    } else {
      var rank := ForestHasRank(m);
      var lifted := MovedIsRanked(m, rank, id, unit);
      RankMakesForest(m', lifted);
    }
  }

  // The fewest steps that lead from v to id.
  lemma FirstMeeting(m: Store, id: Id, v: Id) returns (n: nat)
    requires Above(m, id, v)
    ensures Up(m, v, n) == Some(id) && forall i :: 0 <= i < n ==> Up(m, v, i) != Some(id)
  {
    var k: nat :| Up(m, v, k) == Some(id);
    n := 0;
    while Up(m, v, n) != Some(id)
      invariant n <= k && forall i :: 0 <= i < n ==> Up(m, v, i) != Some(id)
      decreases k - n
    {
      n := n + 1;
    }
  }

  lemma {:induction false} SameWalk(m: Store, id: Id, unit: Unit, v: Id, n: nat)
    requires forall i :: 0 <= i < n ==> Up(m, v, i) != Some(id)
    ensures Up(m[id := unit], v, n) == Up(m, v, n)
  {
    if n > 0 {
      SameWalk(m, id, unit, v, n - 1);
    }
  }

  // ---------- clean and save ----------

  class Hierarchy {
    var units: Store

    constructor ()
      ensures units == map[] && Forest(units)
    {
      units := map[];
    }

    // The loop of clean: does the walk up from the parent meet id?
    method MeetsAncestor(id: Id, parent: Id) returns (met: bool)
      requires Forest(units) && parent in units
      ensures met <==> Above(units, id, parent)
    {
      ghost var rank := ForestHasRank(units);
      ghost var n := 0;
      var ancestor := Some(parent);
      while ancestor.Some?
        invariant ancestor == Up(units, parent, n)
        invariant ancestor.Some? ==> ancestor.value in units
        invariant forall i :: 0 <= i < n ==> Up(units, parent, i) != Some(id)
        decreases if ancestor.Some? then 1 + rank[ancestor.value] else 0
      {
        if ancestor.value == id {
          return true;
        }
        ancestor := units[ancestor.value].parent;
        n := n + 1;
      }
      forall i: nat ensures Up(units, parent, i) != Some(id) {
        if i >= n {
          NothingAboveRoot(units, parent, n, i);
        }
      }
      return false;
    }

    method Save(id: Id, unit: Unit) returns (error: Option<Error>)
      requires Forest(units)
      modifies this
      ensures Forest(units)
      ensures error.None? <==> Acceptable(old(units), id, unit)
      ensures units == if error.None? then old(units)[id := unit] else old(units)
      ensures error == Some(Cycle) ==> Above(old(units), id, unit.parent.value)
    {
      if unit.parent.Some? {
        var parent := unit.parent.value;
        if parent !in units {
          return Some(UnknownParent);
        }
        if parent == id {
          return Some(OwnParent);
        }
        if units[parent].company != unit.company {
          return Some(OtherCompany);
        }
        var met := MeetsAncestor(id, parent);
        if met {
          return Some(Cycle);
        }
      }
      SaveKeepsForestIff(units, id, unit);
      units := units[id := unit];
      return None;
    }
  }

  lemma {:induction false} NothingAboveRoot(m: Store, u: Id, n: nat, i: nat)
    requires n <= i && Up(m, u, n) == None
    ensures Up(m, u, i) == None
  {
    if n < i {
      NothingAboveRoot(m, u, n, i - 1);
    }
  }
}
