/** The workflow stage editor of `workflow-stages.service.ts`: stages ordered by position within
    an organisation, and the edits that must leave the positions exactly 0..n-1. */
module Stages {
  import opened Common
  import Slugs

  type OrgId = nat
  type StageId = nat

  datatype Stage = Stage(org: OrgId, slug: string, position: nat, isFinal: bool)

  type Table = map<StageId, Stage>

  datatype StageError =
    | StageNotFound
    | WrongListLength
    | UnknownStage(id: StageId)
    | PositionConflictAtCommit
    | SlugTaken
    | IdTaken

  function OfOrg(t: Table, org: OrgId): set<StageId> {
    set id | id in t && t[id].org == org
  }

  function SlugsOf(t: Table, org: OrgId): set<string> {
    set id | id in OfOrg(t, org) :: t[id].slug
  }

  /** UNIQUE (organisation_id, position), checked at commit since migration 0033. */
  predicate PositionsUnique(t: Table) {
    forall a, b | a in t && b in t ::
      a != b && t[a].org == t[b].org ==> t[a].position != t[b].position
  }

  /** UNIQUE (organisation_id, slug). */
  ghost predicate SlugsUnique(t: Table) {
    forall a, b :: a in t && b in t && a != b && t[a].org == t[b].org ==> t[a].slug != t[b].slug
  }

  /** No position lies beyond the number of stages of the organisation. */
  ghost predicate InRange(t: Table, org: OrgId) {
    forall id :: id in OfOrg(t, org) ==> t[id].position < |OfOrg(t, org)|
  }

  /** What every committed table satisfies. */
  ghost predicate Valid(t: Table) {
    PositionsUnique(t) && SlugsUnique(t) && forall org :: InRange(t, org)
  }

  function Positions(t: Table, org: OrgId): set<nat> {
    set id | id in OfOrg(t, org) :: t[id].position
  }

  function PositionMap(t: Table, org: OrgId): (m: map<StageId, nat>)
    ensures m.Keys == OfOrg(t, org) && |m| == |OfOrg(t, org)|
  {
    var m: map<StageId, nat> := map id | id in OfOrg(t, org) :: t[id].position;
    assert m.Keys == OfOrg(t, org);
    m
  }

  lemma PositionMapValues(t: Table, org: OrgId)
    ensures PositionMap(t, org).Values == Positions(t, org)
  {
    var m := PositionMap(t, org);
    forall p ensures p in m.Values <==> p in Positions(t, org) {
      if p in Positions(t, org) {
        var id :| id in OfOrg(t, org) && t[id].position == p;
        assert id in m && m[id] == p;
      }
    }
  }

  lemma UniqueIsInjective(t: Table, org: OrgId)
    requires PositionsUnique(t)
    ensures var m := PositionMap(t, org); forall a, b :: a in m && b in m && a != b ==> m[a] != m[b]
  {}

  /** In a valid table the positions of an organisation's n stages are exactly 0..n-1. */
  lemma ValidIsContiguous(t: Table, org: OrgId)
    requires PositionsUnique(t) && InRange(t, org)
    ensures Positions(t, org) == Below(|OfOrg(t, org)|)
  {
    var m := PositionMap(t, org);
    UniqueIsInjective(t, org);
    assert forall id :: id in m ==> m[id] < |m|;
    Pigeonhole(m);
    PositionMapValues(t, org);
  }

  lemma StageAt(t: Table, org: OrgId, position: nat) returns (id: StageId)
    requires PositionsUnique(t) && InRange(t, org) && position < |OfOrg(t, org)|
    ensures id in OfOrg(t, org) && t[id].position == position
  {
    ValidIsContiguous(t, org);
    assert position in Positions(t, org);
    id :| id in OfOrg(t, org) && t[id].position == position;
  }

  // ----- Listing by position -----

  ghost predicate Ascending(t: Table, s: seq<StageId>) {
    && (forall i :: 0 <= i < |s| ==> s[i] in t)
    && (forall i, j :: 0 <= i < j < |s| ==> t[s[i]].position < t[s[j]].position)
  }

  /** All the organisation's stages in order of position, as ORDER BY returns them. */
  ghost predicate IsListing(t: Table, org: OrgId, s: seq<StageId>) {
    Ascending(t, s) && (forall id :: id in s <==> id in OfOrg(t, org))
  }

  predicate IsLowest(t: Table, ids: set<StageId>, m: StageId)
    requires forall id :: id in ids ==> id in t
  {
    m in ids && forall id | id in ids :: t[m].position <= t[id].position
  }

  lemma LowestExists(t: Table, ids: set<StageId>)
    requires ids != {} && forall id :: id in ids ==> id in t
    ensures exists m :: IsLowest(t, ids, m)
  {
    var m :| m in ids;
    var rest := ids - {m};
    if rest == {} {
      assert ids == {m};
      assert IsLowest(t, ids, m);
    } else {
      LowestExists(t, rest);
      var r :| IsLowest(t, rest, r);
      assert forall id :: id in ids ==> id == m || id in rest;
      assert IsLowest(t, ids, if t[r].position < t[m].position then r else m);
    }
  }

  function Lowest(t: Table, org: OrgId, ids: set<StageId>): (m: StageId)
    requires PositionsUnique(t) && ids <= OfOrg(t, org) && ids != {}
    ensures IsLowest(t, ids, m)
    ensures forall id :: id in ids && id != m ==> t[m].position < t[id].position
  {
    LowestExists(t, ids);
    var m :| IsLowest(t, ids, m);
    m
  }

  lemma Prepend(t: Table, ids: set<StageId>, m: StageId, rest: seq<StageId>)
    requires m in t && m in ids && Ascending(t, rest)
    requires forall id :: id in rest <==> id in ids - {m}
    requires forall id :: id in rest ==> t[m].position < t[id].position
    ensures Ascending(t, [m] + rest)
    ensures forall id :: id in [m] + rest <==> id in ids
  {
    var s := [m] + rest;
    forall i, j | 0 <= i < j < |s| ensures t[s[i]].position < t[s[j]].position {
      if i == 0 { assert s[j] in rest; }
    }
  }

  function Sorted(t: Table, org: OrgId, ids: set<StageId>): (s: seq<StageId>)
    requires PositionsUnique(t) && ids <= OfOrg(t, org)
    ensures forall id :: id in s <==> id in ids
    ensures Ascending(t, s) && |s| == |ids|
  {
    if ids == {} then [] else
      var m := Lowest(t, org, ids);
      var rest := Sorted(t, org, ids - {m});
      Prepend(t, ids, m, rest);
      [m] + rest
  }

  function ListStages(t: Table, org: OrgId): (s: seq<StageId>)
    requires PositionsUnique(t)
    ensures IsListing(t, org, s) && |s| == |OfOrg(t, org)|
  {
    Sorted(t, org, OfOrg(t, org))
  }

  lemma RestOf(t: Table, s: seq<StageId>)
    requires Ascending(t, s) && s != []
    ensures Ascending(t, s[1..]) && forall id :: id in s[1..] <==> id in s && id != s[0]
  {}

  /** The order by position is unique. */
  lemma {:induction false} AscendingUnique(t: Table, s: seq<StageId>, r: seq<StageId>)
    requires Ascending(t, s) && Ascending(t, r)
    requires forall id :: id in s <==> id in r
    ensures s == r
  {
    if r != [] { FirstIsLowest(t, r, s); }
    if s != [] {
      FirstIsLowest(t, s, r);
      RestOf(t, s);
      RestOf(t, r);
      AscendingUnique(t, s[1..], r[1..]);
      assert s == [s[0]] + s[1..] && r == [r[0]] + r[1..];
    }
  }

  lemma FirstIsLowest(t: Table, s: seq<StageId>, r: seq<StageId>)
    requires Ascending(t, s) && Ascending(t, r) && s != []
    requires forall id :: id in s ==> id in r
    ensures r != [] && t[r[0]].position <= t[s[0]].position
    ensures s[0] == r[0] || t[r[0]].position < t[s[0]].position
  {
    assert s[0] in r;
    var i :| 0 <= i < |r| && r[i] == s[0];
  }

  // ----- Writing positions one row at a time -----

  function WithPosition(t: Table, id: StageId, position: nat): Table
    requires id in t
  {
    t[id := t[id].(position := position)]
  }

  /** The table after the loop has given position i to the i-th id of the list, in order. An id
      that occurs twice keeps the later position. */
  function Place(t: Table, ids: seq<StageId>): (t': Table)
    requires forall id :: id in ids ==> id in t
    ensures t'.Keys == t.Keys
    ensures forall id :: id in t ==> t'[id] == t[id].(position := t'[id].position)
    ensures forall id :: id in t && id !in ids ==> t'[id] == t[id]
    ensures forall id :: id in ids ==> t'[id].position < |ids| && ids[t'[id].position] == id
  {
    if ids == [] then t else
      var last := |ids| - 1;
      assert ids == ids[..last] + [ids[last]];
      WithPosition(Place(t, ids[..last]), ids[last], last)
  }

  lemma PlaceStep(t: Table, ids: seq<StageId>, k: nat)
    requires k < |ids| && forall id :: id in ids ==> id in t
    ensures Place(t, ids[..k + 1]) == WithPosition(Place(t, ids[..k]), ids[k], k)
  {
    assert ids[..k + 1][..k] == ids[..k];
  }

  lemma PlaceKeepsOrgs(t: Table, ids: seq<StageId>, org: OrgId)
    requires forall id :: id in ids ==> id in t
    ensures OfOrg(Place(t, ids), org) == OfOrg(t, org)
  {}

  // ----- The edits -----

  /** The first id of the list that is not a stage of the organisation, if there is one. */
  function FirstUnknown(t: Table, org: OrgId, ids: seq<StageId>): (r: Option<StageId>)
    ensures r.None? <==> forall id :: id in ids ==> id in OfOrg(t, org)
    ensures r.Some? ==> r.value in ids && r.value !in OfOrg(t, org)
  {
    if ids == [] then None
    else if ids[0] !in OfOrg(t, org) then Some(ids[0])
    else
      assert ids == [ids[0]] + ids[1..];
      FirstUnknown(t, org, ids[1..])
  }

  function Reorder(t: Table, org: OrgId, ids: seq<StageId>): (r: Result<Table, StageError>) {
    if |ids| != |OfOrg(t, org)| then Err(WrongListLength)
    else
      var unknown := FirstUnknown(t, org, ids);
      if unknown.Some? then Err(UnknownStage(unknown.value))
      else if !PositionsUnique(Place(t, ids)) then Err(PositionConflictAtCommit)
      else Ok(Place(t, ids))
  }

  /** DELETE, then renumber what is left in order of position. */
  function Delete(t: Table, id: StageId): Table
    requires id in t && PositionsUnique(t)
  {
    var left := t - {id};
    Place(left, ListStages(left, t[id].org))
  }

  function Create(t: Table, org: OrgId, id: StageId, baseSlug: string): Result<Table, StageError> {
    if id in t then Err(IdTaken) else
      var slug := Slugs.FirstFree(SlugsOf(t, org), baseSlug, '_');
      Ok(t[id := Stage(org, slug, |OfOrg(t, org)|, false)])
  }

  const DEFAULT_SLUGS := ["reported", "claimed", "cleanup_scheduled", "resolved", "dismissed"]

  /** The five default stages of a new organisation; the last two are final. */
  function SeedFrom(t: Table, org: OrgId, ids: seq<StageId>, k: nat): Table
    requires |ids| == |DEFAULT_SLUGS| && k <= |ids|
  {
    if k == 0 then t else
      SeedFrom(t, org, ids, k - 1)[ids[k - 1] := Stage(org, DEFAULT_SLUGS[k - 1], k - 1, k >= 4)]
  }

  function Seed(t: Table, org: OrgId, ids: seq<StageId>): Result<Table, StageError> {
    if |ids| != |DEFAULT_SLUGS| || (exists id | id in ids :: id in t) then Err(IdTaken)
    else if exists i: nat, j: nat | i < |ids| && j < i :: ids[i] == ids[j] then Err(IdTaken)
    else if OfOrg(t, org) != {} then Err(PositionConflictAtCommit)
    else Ok(SeedFrom(t, org, ids, |ids|))
  }

  // ----- Reorder -----

  /** Whatever list passes the length and membership checks, duplicates included: if the
      deferred constraint then lets the transaction commit, the positions are 0..n-1 again. */
  lemma ReorderKeepsValid(t: Table, org: OrgId, ids: seq<StageId>)
    requires Valid(t) && Reorder(t, org, ids).Ok?
    ensures var t' := Reorder(t, org, ids).value;
            Valid(t') && OfOrg(t', org) == OfOrg(t, org) && Positions(t', org) == Below(|OfOrg(t', org)|)
  {
    var t' := Place(t, ids);
    forall o ensures InRange(t', o) {
      PlaceKeepsOrgs(t, ids, o);
      assert InRange(t, o);
    }
    PlaceKeepsOrgs(t, ids, org);
    ValidIsContiguous(t', org);
  }

  lemma PlacedInOrder(t: Table, org: OrgId, ids: seq<StageId>)
    requires Distinct(ids) && forall id :: id in ids <==> id in OfOrg(t, org)
    ensures forall i :: 0 <= i < |ids| ==> Place(t, ids)[ids[i]].position == i
    ensures IsListing(Place(t, ids), org, ids)
  {
    PlaceKeepsOrgs(t, ids, org);
  }

  /** A list of n distinct stages of an organisation with n stages names them all. */
  lemma DistinctCoversAll(t: Table, org: OrgId, ids: seq<StageId>)
    requires Distinct(ids) && |ids| == |OfOrg(t, org)|
    requires forall id :: id in ids ==> id in OfOrg(t, org)
    ensures forall id :: id in OfOrg(t, org) ==> id in ids
  {
    DistinctSize(ids);
    SubsetSize(SetOf(ids), OfOrg(t, org));
  }

  lemma PlacedInOrderUnique(t: Table, org: OrgId, ids: seq<StageId>)
    requires PositionsUnique(t) && Distinct(ids) && forall id :: id in ids <==> id in OfOrg(t, org)
    ensures PositionsUnique(Place(t, ids))
  {
    var t' := Place(t, ids);
    forall a, b | a in t' && b in t' && a != b && t'[a].org == t'[b].org
      ensures t'[a].position != t'[b].position
    {
      if t[a].org == org {
        assert a in ids && b in ids;
      }
    }
  }

  /** A list without duplicates that passes the checks always commits, moves no other
      organisation's stage, and is what `listStages` returns afterwards. */
  lemma ReorderShowsList(t: Table, org: OrgId, ids: seq<StageId>)
    requires PositionsUnique(t) && Distinct(ids)
    requires |ids| == |OfOrg(t, org)| && forall id :: id in ids ==> id in OfOrg(t, org)
    ensures Reorder(t, org, ids).Ok?
    ensures ListStages(Reorder(t, org, ids).value, org) == ids
    ensures forall id :: id in t && t[id].org != org ==> Reorder(t, org, ids).value[id] == t[id]
  {
    DistinctCoversAll(t, org, ids);
    PlacedInOrderUnique(t, org, ids);
    PlacedInOrder(t, org, ids);
    var t' := Place(t, ids);
    AscendingUnique(t', ListStages(t', org), ids);
    assert FirstUnknown(t, org, ids) == None;
  }

  // ----- Delete -----

  /** Ascending positions are at least the rank. */
  lemma {:induction false} RankBound(t: Table, s: seq<StageId>, i: nat)
    requires Ascending(t, s) && i < |s|
    ensures i <= t[s[i]].position
  {
    if i > 0 { RankBound(t, s, i - 1); }
  }

  lemma PlacedPrefixUnique(t: Table, org: OrgId, s: seq<StageId>, k: nat, a: StageId, b: StageId)
    requires PositionsUnique(t) && IsListing(t, org, s) && k <= |s|
    requires a in t && b in t && a != b && t[a].org == t[b].org
    ensures Place(t, s[..k])[a].position != Place(t, s[..k])[b].position
  {
    if t[a].org == org {
      PlacedBelow(t, s, org, k, a);
      PlacedBelow(t, s, org, k, b);
    } else {
      assert forall id :: id in s[..k] ==> id in s;
    }
  }

  /** At no point of the renumbering loop do two stages of any organisation share a position:
      the part done holds 0..k-1 and the rest keeps larger ones. */
  lemma RenumberNeverCollides(t: Table, org: OrgId, k: nat)
    requires PositionsUnique(t) && k <= |OfOrg(t, org)|
    ensures PositionsUnique(Place(t, ListStages(t, org)[..k]))
  {
    var s := ListStages(t, org);
    var t' := Place(t, s[..k]);
    forall a, b | a in t' && b in t' && a != b && t'[a].org == t'[b].org
      ensures t'[a].position != t'[b].position
    {
      PlacedPrefixUnique(t, org, s, k, a, b);
    }
  }

  lemma AscendingIsDistinct(t: Table, s: seq<StageId>)
    requires Ascending(t, s)
    ensures Distinct(s)
  {}

  lemma PlacedBelow(t: Table, s: seq<StageId>, org: OrgId, k: nat, a: StageId)
    requires IsListing(t, org, s) && k <= |s| && a in OfOrg(t, org)
    ensures a in s[..k] ==> Place(t, s[..k])[a].position < k && s[Place(t, s[..k])[a].position] == a
    ensures a !in s[..k] ==> Place(t, s[..k])[a] == t[a] && t[a].position >= k
  {
    var i :| 0 <= i < |s| && s[i] == a;
    if i < k {
      assert s[..k][i] == a;
    } else {
      AscendingIsDistinct(t, s);
      RankBound(t, s, i);
    }
  }

  /** A listing of contiguous stages has the stage at position i as its i-th entry. */
  lemma ListingIndex(t: Table, org: OrgId, s: seq<StageId>, i: nat)
    requires InRange(t, org) && IsListing(t, org, s) && |s| == |OfOrg(t, org)| && i < |s|
    ensures t[s[i]].position == i
  {
    RankBound(t, s, i);
    TopBound(t, s, i);
    assert s[|s| - 1] in s;
  }

  lemma {:induction false} TopBound(t: Table, s: seq<StageId>, i: nat)
    requires Ascending(t, s) && i < |s|
    ensures t[s[i]].position + (|s| - 1 - i) <= t[s[|s| - 1]].position
    decreases |s| - i
  {
    if i < |s| - 1 { TopBound(t, s, i + 1); }
  }

  lemma DeleteKeepsPositionsUnique(t: Table, id: StageId)
    requires PositionsUnique(t) && id in t
    ensures PositionsUnique(Delete(t, id))
  {
    var left, org := t - {id}, t[id].org;
    var order := ListStages(left, org);
    RenumberNeverCollides(left, org, |order|);
    assert order[..|order|] == order;
  }

  lemma PlaceListingInRange(left: Table, org: OrgId)
    requires PositionsUnique(left)
    ensures InRange(Place(left, ListStages(left, org)), org)
  {
    var order := ListStages(left, org);
    PlaceKeepsOrgs(left, order, org);
    assert forall a :: a in OfOrg(left, org) ==> a in order;
  }

  lemma PlaceElsewhere(left: Table, org: OrgId, other: OrgId)
    requires PositionsUnique(left) && InRange(left, other) && other != org
    ensures InRange(Place(left, ListStages(left, org)), other)
  {
    var order := ListStages(left, org);
    PlaceKeepsOrgs(left, order, other);
    assert forall a :: a in OfOrg(left, other) ==> a !in order;
  }

  lemma DeleteKeepsInRange(t: Table, id: StageId, org: OrgId)
    requires PositionsUnique(t) && InRange(t, org) && id in t
    ensures InRange(Delete(t, id), org)
  {
    var left := t - {id};
    if org == t[id].org {
      PlaceListingInRange(left, org);
    } else {
      assert OfOrg(left, org) == OfOrg(t, org);
      PlaceElsewhere(left, t[id].org, org);
    }
  }

  /** Renumbering touches positions of the one organisation and nothing else. */
  lemma DeleteFields(t: Table, id: StageId)
    requires PositionsUnique(t) && id in t
    ensures Delete(t, id).Keys == t.Keys - {id}
    ensures forall a :: a in t && a != id ==>
              a in Delete(t, id) && Delete(t, id)[a] == t[a].(position := Delete(t, id)[a].position)
    ensures forall a :: a in t && t[a].org != t[id].org ==> a in Delete(t, id) && Delete(t, id)[a] == t[a]
  {
    var left, org := t - {id}, t[id].org;
    var order := ListStages(left, org);
    forall a | a in t && t[a].org != org ensures a in left && a !in order {
      assert a !in OfOrg(left, org);
    }
  }

  lemma SlugsKept(t: Table, t': Table)
    requires SlugsUnique(t) && t'.Keys <= t.Keys
    requires forall a :: a in t' ==> t'[a].org == t[a].org && t'[a].slug == t[a].slug
    ensures SlugsUnique(t')
  {}

  /** Deleting keeps the table valid: positions become 0..n-2. */
  lemma DeleteKeepsValid(t: Table, id: StageId)
    requires Valid(t) && id in t
    ensures Valid(Delete(t, id))
    ensures Delete(t, id).Keys == t.Keys - {id}
    ensures forall a :: a in t && a != id ==> Delete(t, id)[a] == t[a].(position := Delete(t, id)[a].position)
    ensures forall a :: a in t && t[a].org != t[id].org ==> Delete(t, id)[a] == t[a]
  {
    DeleteFields(t, id);
    DeleteKeepsPositionsUnique(t, id);
    SlugsKept(t, Delete(t, id));
    forall org ensures InRange(Delete(t, id), org) { DeleteKeepsInRange(t, id, org); }
  }

  lemma WithoutIndex(s: seq<StageId>, p: nat)
    requires Distinct(s) && p < |s|
    ensures forall a :: a in s[..p] + s[p + 1..] <==> a in s && a != s[p]
  {
    var rest := s[..p] + s[p + 1..];
    assert forall i :: 0 <= i < |rest| ==> rest[i] == s[if i < p then i else i + 1];
    forall a | a in s && a != s[p] ensures a in rest {
      var i :| 0 <= i < |s| && s[i] == a;
      assert rest[if i < p then i else i - 1] == a;
    }
  }

  lemma AscendingWithout(t: Table, s: seq<StageId>, p: nat)
    requires Ascending(t, s) && Distinct(s) && p < |s|
    ensures Ascending(t - {s[p]}, s[..p] + s[p + 1..])
  {
    var rest := s[..p] + s[p + 1..];
    assert forall i :: 0 <= i < |rest| ==> rest[i] == s[if i < p then i else i + 1];
  }

  lemma ListingWithout(t: Table, org: OrgId, s: seq<StageId>, p: nat)
    requires IsListing(t, org, s) && p < |s|
    ensures IsListing(t - {s[p]}, org, s[..p] + s[p + 1..])
  {
    AscendingIsDistinct(t, s);
    WithoutIndex(s, p);
    AscendingWithout(t, s, p);
    assert s[p] in s;
    assert forall a :: a in OfOrg(t - {s[p]}, org) <==> a in OfOrg(t, org) && a != s[p];
  }

  lemma PlaceKeepsListing(t: Table, org: OrgId)
    requires PositionsUnique(t) && PositionsUnique(Place(t, ListStages(t, org)))
    ensures ListStages(Place(t, ListStages(t, org)), org) == ListStages(t, org)
  {
    var order := ListStages(t, org);
    AscendingIsDistinct(t, order);
    PlacedInOrder(t, org, order);
    var t' := Place(t, order);
    AscendingUnique(t', ListStages(t', org), order);
  }

  /** Deleting keeps the order of the rest: the listing just loses its entry. */
  lemma DeleteKeepsOrder(t: Table, id: StageId)
    requires PositionsUnique(t) && id in t && InRange(t, t[id].org)
    ensures PositionsUnique(Delete(t, id))
    ensures var s, p := ListStages(t, t[id].org), t[id].position;
            p < |s| && s[p] == id && ListStages(Delete(t, id), t[id].org) == s[..p] + s[p + 1..]
  {
    var left, org, p := t - {id}, t[id].org, t[id].position;
    var s := ListStages(t, org);
    assert id in OfOrg(t, org);
    ListingIndex(t, org, s, p);
    assert s[p] == id;
    ListingWithout(t, org, s, p);
    AscendingUnique(left, ListStages(left, org), s[..p] + s[p + 1..]);
    DeleteKeepsPositionsUnique(t, id);
    PlaceKeepsListing(left, org);
  }

  // ----- Create and seed -----

  lemma AppendKeepsInRange(t: Table, id: StageId, stage: Stage, org: OrgId)
    requires id !in t && stage.position == |OfOrg(t, stage.org)| && InRange(t, org)
    ensures InRange(t[id := stage], org)
  {
    var t' := t[id := stage];
    if org == stage.org {
      assert OfOrg(t', org) == OfOrg(t, org) + {id};
    } else {
      assert OfOrg(t', org) == OfOrg(t, org);
    }
  }

  lemma AppendKeepsUnique(t: Table, id: StageId, stage: Stage)
    requires id !in t && stage.position == |OfOrg(t, stage.org)| && InRange(t, stage.org)
    requires PositionsUnique(t) && SlugsUnique(t) && stage.slug !in SlugsOf(t, stage.org)
    ensures PositionsUnique(t[id := stage]) && SlugsUnique(t[id := stage])
  {
    forall a | a in t && t[a].org == stage.org
      ensures t[a].slug != stage.slug && t[a].position < stage.position
    {
      assert a in OfOrg(t, stage.org);
      assert t[a].slug in SlugsOf(t, stage.org);
    }
  }

  lemma CreateKeepsValid(t: Table, org: OrgId, id: StageId, baseSlug: string)
    requires Valid(t) && Create(t, org, id, baseSlug).Ok?
    ensures Valid(Create(t, org, id, baseSlug).value)
  {
    var stage := Create(t, org, id, baseSlug).value[id];
    AppendKeepsUnique(t, id, stage);
    var t' := t[id := stage];
    forall o ensures InRange(t', o) { AppendKeepsInRange(t, id, stage, o); }
  }

  /** One more default stage. */
  lemma SeedOne(t: Table, before: Table, org: OrgId, ids: seq<StageId>, k: nat)
    requires |ids| == |DEFAULT_SLUGS| && 0 < k <= |ids| && Distinct(ids)
    requires forall id :: id in ids ==> id !in t
    requires forall id :: id in before <==> id in t || id in ids[..k - 1]
    requires forall id :: id in t ==> before[id] == t[id]
    requires forall i :: 0 <= i < k - 1 ==> before[ids[i]] == Stage(org, DEFAULT_SLUGS[i], i, i >= 3)
    ensures var t' := before[ids[k - 1] := Stage(org, DEFAULT_SLUGS[k - 1], k - 1, k >= 4)];
            && (forall id :: id in t' <==> id in t || id in ids[..k])
            && (forall id :: id in t ==> t'[id] == t[id])
            && (forall i :: 0 <= i < k ==> t'[ids[i]] == Stage(org, DEFAULT_SLUGS[i], i, i >= 3))
  {
    assert ids[..k] == ids[..k - 1] + [ids[k - 1]];
    assert ids[k - 1] in ids;
  }

  lemma {:induction false} SeedFromShape(t: Table, org: OrgId, ids: seq<StageId>, k: nat)
    requires |ids| == |DEFAULT_SLUGS| && k <= |ids| && Distinct(ids)
    requires forall id :: id in ids ==> id !in t
    ensures var t' := SeedFrom(t, org, ids, k);
            && (forall id :: id in t' <==> id in t || id in ids[..k])
            && (forall id :: id in t ==> t'[id] == t[id])
            && (forall i :: 0 <= i < k ==> t'[ids[i]] == Stage(org, DEFAULT_SLUGS[i], i, i >= 3))
  {
    if k > 0 {
      SeedFromShape(t, org, ids, k - 1);
      SeedOne(t, SeedFrom(t, org, ids, k - 1), org, ids, k);
    }
  }

  lemma SeedKeepsValid(t: Table, org: OrgId, ids: seq<StageId>)
    requires Valid(t) && Seed(t, org, ids).Ok?
    ensures Valid(Seed(t, org, ids).value)
    ensures ListStages(Seed(t, org, ids).value, org) == ids
  {
    var t' := Seed(t, org, ids).value;
    SeededUnique(t, org, ids);
    forall o ensures InRange(t', o) { SeededInRange(t, org, ids, o); }
    SeededListing(t, org, ids);
    AscendingUnique(t', ListStages(t', org), ids);
  }

  lemma SeededMembers(t: Table, org: OrgId, ids: seq<StageId>)
    requires Seed(t, org, ids).Ok?
    ensures var t' := Seed(t, org, ids).value;
            && (forall id :: id in t' <==> id in t || id in ids)
            && (forall id :: id in t ==> t[id].org != org && id !in ids && t'[id] == t[id])
            && (forall i :: 0 <= i < |ids| ==> t'[ids[i]] == Stage(org, DEFAULT_SLUGS[i], i, i >= 3))
    ensures Distinct(ids)
  {
    SeedFromShape(t, org, ids, |ids|);
    assert ids[..|ids|] == ids;
    assert forall id :: id in t && t[id].org == org ==> id in OfOrg(t, org);
  }

  lemma SeededInRange(t: Table, org: OrgId, ids: seq<StageId>, o: OrgId)
    requires InRange(t, o) && Seed(t, org, ids).Ok?
    ensures InRange(Seed(t, org, ids).value, o)
  {
    var t' := Seed(t, org, ids).value;
    SeededMembers(t, org, ids);
    if o == org {
      SeededListing(t, org, ids);
      assert OfOrg(t', org) == SetOf(ids);
      DistinctSize(ids);
    } else {
      assert OfOrg(t', o) == OfOrg(t, o);
    }
  }

  lemma SeededListing(t: Table, org: OrgId, ids: seq<StageId>)
    requires Seed(t, org, ids).Ok?
    ensures IsListing(Seed(t, org, ids).value, org, ids)
  {
    SeededMembers(t, org, ids);
  }

  lemma SeededUnique(t: Table, org: OrgId, ids: seq<StageId>)
    requires Valid(t) && Seed(t, org, ids).Ok?
    ensures PositionsUnique(Seed(t, org, ids).value) && SlugsUnique(Seed(t, org, ids).value)
  {
    var n, t' := |ids|, Seed(t, org, ids).value;
    SeededMembers(t, org, ids);
    forall a, b | a in t' && b in t' && a != b && t'[a].org == t'[b].org
      ensures t'[a].position != t'[b].position && t'[a].slug != t'[b].slug
    {
      if a in ids && b in ids {
        var i :| 0 <= i < n && ids[i] == a;
        var j :| 0 <= j < n && ids[j] == b;
        assert t'[a] == Stage(org, DEFAULT_SLUGS[i], i, i >= 3);
        assert t'[b] == Stage(org, DEFAULT_SLUGS[j], j, j >= 3);
        DefaultSlugsDiffer(i, j);
      }
    }
  }

  lemma DefaultSlugsDiffer(i: nat, j: nat)
    requires i < |DEFAULT_SLUGS| && j < |DEFAULT_SLUGS| && i != j
    ensures DEFAULT_SLUGS[i] != DEFAULT_SLUGS[j]
  {
    assert |"reported"| == 8 && |"claimed"| == 7 && |"cleanup_scheduled"| == 17 && |"resolved"| == 8
        && |"dismissed"| == 9;
    assert "reported"[2] == 'p' && "resolved"[2] == 's';
  }

  // ----- The next stage -----

  /** `findNextStage`: the stage of the organisation at the next position. */
  function FindNext(t: Table, current: StageId): (r: Option<StageId>)
    requires PositionsUnique(t) && current in t
    ensures r.Some? ==> r.value in OfOrg(t, t[current].org) && t[r.value].position == t[current].position + 1
    ensures r.None? ==> forall id :: id in OfOrg(t, t[current].org) ==> t[id].position != t[current].position + 1
  {
    var ids: set<StageId> := set id | id in OfOrg(t, t[current].org) && t[id].position == t[current].position + 1;
    if ids == {} then
      assert forall id :: id in OfOrg(t, t[current].org) && t[id].position == t[current].position + 1 ==> id in ids;
      None
    else
      var m :| m in ids;
      Some(m)
  }

  /** With contiguous positions the stage at position + 1 is the one with the lowest greater
      position, and it is missing only for the last stage. */
  lemma NextIsLowestGreater(t: Table, current: StageId)
    requires Valid(t) && current in t
    ensures FindNext(t, current).Some? ==>
              forall id :: id in OfOrg(t, t[current].org) && t[id].position > t[current].position
                           ==> t[FindNext(t, current).value].position <= t[id].position
    ensures FindNext(t, current).None? <==>
              forall id :: id in OfOrg(t, t[current].org) ==> t[id].position <= t[current].position
  {
    var org := t[current].org;
    if FindNext(t, current).None? {
      forall id | id in OfOrg(t, org) ensures t[id].position <= t[current].position {
        assert InRange(t, org);
        if t[current].position + 1 < |OfOrg(t, org)| {
          var next := StageAt(t, org, t[current].position + 1);
        }
      }
    }
  }

  /** One automatic advance: nothing leaves a final stage. */
  function AutoAdvance(t: Table, current: StageId): (r: Option<StageId>)
    requires PositionsUnique(t) && current in t
    ensures r.Some? ==> r.value in t
  {
    if t[current].isFinal then None else FindNext(t, current)
  }

  function AdvanceTimes(t: Table, current: StageId, k: nat): (r: Option<StageId>)
    requires PositionsUnique(t) && current in t
    ensures r.Some? ==> r.value in t
    decreases k
  {
    if k == 0 then Some(current) else
      match AutoAdvance(t, current)
      case None => None
      case Some(next) => AdvanceTimes(t, next, k - 1)
  }

  /** k automatic advances move k positions up, so at most n-1 of them can follow each other. */
  lemma {:induction false} AdvancesAreBounded(t: Table, current: StageId, k: nat)
    requires Valid(t) && current in t && AdvanceTimes(t, current, k).Some?
    ensures var last := AdvanceTimes(t, current, k).value;
            t[last].org == t[current].org && t[last].position == t[current].position + k
    ensures k <= |OfOrg(t, t[current].org)| - 1
    decreases k
  {
    if k > 0 {
      AdvancesAreBounded(t, AutoAdvance(t, current).value, k - 1);
    }
    var last := AdvanceTimes(t, current, k).value;
    assert InRange(t, t[last].org) && last in OfOrg(t, t[last].org);
  }

  // ----- What each edit writes -----

  /** A new stage comes last, is not final, and has its base slug, or that with the smallest number from
      2 on that no stage of the organisation has. Its organisation's other stages, and all others, stay. */
  lemma CreateOutcome(t: Table, org: OrgId, id: StageId, baseSlug: string)
    requires Valid(t)
    ensures var r := Create(t, org, id, baseSlug);
            && (r.Ok? <==> id !in t)
            && (r.Ok? ==>
                  && id in r.value && r.value == t[id := r.value[id]]
                  && r.value[id].org == org && !r.value[id].isFinal
                  && (forall a :: a in t && t[a].org == org ==> t[a].position < r.value[id].position)
                  && (forall a :: a in t && t[a].org == org ==> t[a].slug != r.value[id].slug)
                  && (r.value[id].slug == baseSlug
                      || exists n: nat :: 2 <= n && r.value[id].slug == baseSlug + "_" + Slugs.Decimal(n)
                                          && forall m: nat :: 2 <= m < n ==>
                                               baseSlug + "_" + Slugs.Decimal(m) in SlugsOf(t, org))
                  && ((forall a :: a in t && t[a].org == org ==> t[a].slug != baseSlug) ==>
                        r.value[id].slug == baseSlug))
  {
    assert InRange(t, org);
    Slugs.FirstFreeOutcome(SlugsOf(t, org), baseSlug, '_');
    forall a | a in t && t[a].org == org
      ensures t[a].slug in SlugsOf(t, org) && t[a].position < |OfOrg(t, org)|
    {
      assert a in OfOrg(t, org);
    }
    forall slug | slug in SlugsOf(t, org) ensures exists a :: a in t && t[a].org == org && t[a].slug == slug {
      var a :| a in OfOrg(t, org) && t[a].slug == slug;
    }
  }

  /** Seeding takes five new ids of an organisation without stages, and gives them the default stages in
      order; the last two are final. */
  lemma SeedOutcome(t: Table, org: OrgId, ids: seq<StageId>)
    ensures Seed(t, org, ids).Ok? <==>
              && |ids| == 5 && Distinct(ids) && (forall id :: id in ids ==> id !in t)
              && (forall id :: id in t ==> t[id].org != org)
    ensures Seed(t, org, ids).Ok? ==>
              var t' := Seed(t, org, ids).value;
              && (forall id :: id in t' <==> id in t || id in ids) && (forall id :: id in t ==> t'[id] == t[id])
              && t'[ids[0]] == Stage(org, "reported", 0, false)
              && t'[ids[1]] == Stage(org, "claimed", 1, false)
              && t'[ids[2]] == Stage(org, "cleanup_scheduled", 2, false)
              && t'[ids[3]] == Stage(org, "resolved", 3, true)
              && t'[ids[4]] == Stage(org, "dismissed", 4, true)
  {
    if Seed(t, org, ids).Ok? {
      SeededMembers(t, org, ids);
    } else if |ids| == 5 && Distinct(ids) {
      assert forall i: nat, j: nat :: i < |ids| && j < i ==> ids[j] != ids[i];
    }
    assert forall id :: id in t && t[id].org == org <==> id in OfOrg(t, org);
  }

  /** Which reordering is refused, and what is named as unknown: the first id in the list that is not a
      stage of the organisation. */
  lemma ReorderRefusals(t: Table, org: OrgId, ids: seq<StageId>)
    ensures Reorder(t, org, ids) == Err(WrongListLength) <==> |ids| != |OfOrg(t, org)|
    ensures forall id :: Reorder(t, org, ids) == Err(UnknownStage(id)) <==>
              && |ids| == |OfOrg(t, org)|
              && exists i :: 0 <= i < |ids| && ids[i] == id && !(id in t && t[id].org == org)
                             && forall j :: 0 <= j < i ==> ids[j] in t && t[ids[j]].org == org
  {
    forall i | 0 <= i < |ids| && ids[i] !in OfOrg(t, org) && forall j :: 0 <= j < i ==> ids[j] in OfOrg(t, org)
      ensures FirstUnknown(t, org, ids) == Some(ids[i])
    {
      FirstUnknownAt(t, org, ids, i);
    }
    if FirstUnknown(t, org, ids).Some? {
      var i := FirstUnknownIndex(t, org, ids);
    }
  }

  lemma {:induction false} FirstUnknownIndex(t: Table, org: OrgId, ids: seq<StageId>) returns (i: nat)
    requires FirstUnknown(t, org, ids).Some?
    ensures i < |ids| && FirstUnknown(t, org, ids) == Some(ids[i]) && ids[i] !in OfOrg(t, org)
    ensures forall j :: 0 <= j < i ==> ids[j] in OfOrg(t, org)
  {
    if ids[0] !in OfOrg(t, org) {
      i := 0;
    } else {
      var k := FirstUnknownIndex(t, org, ids[1..]);
      i := k + 1;
      forall j | 0 <= j < i ensures ids[j] in OfOrg(t, org) { if j > 0 { assert ids[1..][j - 1] == ids[j]; } }
    }
  }

  lemma NotLater(before: seq<StageId>, last: StageId, id: StageId, p: nat)
    requires p < |before| && id !in before[p + 1..] && id != last
    ensures id !in (before + [last])[p + 1..]
  {
    assert (before + [last])[p + 1..] == before[p + 1..] + [last];
  }

  lemma PlacedBefore(t: Table, before: seq<StageId>, last: StageId, id: StageId)
    requires id in t && id != last && forall a :: a in before + [last] ==> a in t
    ensures forall a :: a in before ==> a in t
    ensures Place(t, before + [last])[id] == Place(t, before)[id]
  {
    assert forall a :: a in before ==> a in before + [last];
    assert (before + [last])[..|before|] == before;
  }

  /** A stage that is listed more than once is left at its last place in the list. */
  lemma {:induction false} LastPlace(t: Table, ids: seq<StageId>, id: StageId)
    requires id in ids && forall a :: a in ids ==> a in t
    ensures id !in ids[Place(t, ids)[id].position + 1..]
  {
    var last := |ids| - 1;
    if id != ids[last] {
      var before := ids[..last];
      assert ids == before + [ids[last]];
      PlacedBefore(t, before, ids[last], id);
      LastPlace(t, before, id);
      NotLater(before, ids[last], id, Place(t, before)[id].position);
    }
  }

  lemma PlacedLast(t: Table, ids: seq<StageId>, i: nat)
    requires i < |ids| && forall id :: id in ids ==> id in t
    ensures Place(t, ids)[ids[i]].position == i <==> ids[i] !in ids[i + 1..]
  {
    var p := Place(t, ids)[ids[i]].position;
    LastPlace(t, ids, ids[i]);
    if i < p { assert ids[i + 1..][p - i - 1] == ids[i]; }
  }

  /** No stage that the list leaves out stands where the list leaves another. */
  ghost predicate LeftOutAreFree(t: Table, t': Table, org: OrgId, ids: seq<StageId>)
    requires t'.Keys == t.Keys && forall id :: id in ids ==> id in t
  {
    forall m :: m in OfOrg(t, org) && m !in ids ==>
      t[m].position < |ids| && t'[ids[t[m].position]].position != t[m].position
  }

  /** The service does not look for duplicates; the deferred constraint does part of it. A list of the
      right length that names only stages of the organisation is let through exactly if each stage it
      leaves out stands at a place that the list gives to a stage it names again later. */
  lemma ReorderCommitsIff(t: Table, org: OrgId, ids: seq<StageId>)
    requires Valid(t) && |ids| == |OfOrg(t, org)| && forall id :: id in ids ==> id in OfOrg(t, org)
    ensures Reorder(t, org, ids).Ok? <==>
              forall m :: m in OfOrg(t, org) && m !in ids ==>
                t[m].position < |ids| && ids[t[m].position] in ids[t[m].position + 1..]
  {
    assert InRange(t, org);
    assert FirstUnknown(t, org, ids) == None;
    FreeIffRepeated(t, org, ids);
    UniqueIffFree(t, org, ids);
  }

  lemma PlacedTwice(t: Table, id: StageId)
    requires id in t
    ensures Place(t, [id, id]) == t[id := t[id].(position := 1)]
  {
    var none: seq<StageId> := [];
    assert [id][..0] == none && [id, id][..1] == [id] && [id, id][..2] == [id, id];
    PlaceStep(t, [id], 0);
    PlaceStep(t, [id, id], 1);
    assert [id][..1] == [id];
  }

  /** Such a list: the second of two stages named twice, the first not at all. */
  lemma RepeatedListCommits(t: Table, org: OrgId, first: StageId, second: StageId)
    requires PositionsUnique(t) && OfOrg(t, org) == {first, second} && first != second && t[second].position == 1
    ensures Reorder(t, org, [second, second]) == Ok(t)
  {
    PlacedTwice(t, second);
    assert second in OfOrg(t, org);
    assert t[second := t[second].(position := 1)] == t;
    assert forall id :: id in [second, second] ==> id in OfOrg(t, org);
  }

  lemma FreeIffRepeated(t: Table, org: OrgId, ids: seq<StageId>)
    requires InRange(t, org) && |ids| == |OfOrg(t, org)| && forall id :: id in ids ==> id in OfOrg(t, org)
    ensures LeftOutAreFree(t, Place(t, ids), org, ids) <==>
              forall m :: m in OfOrg(t, org) && m !in ids ==>
                t[m].position < |ids| && ids[t[m].position] in ids[t[m].position + 1..]
  {
    forall m | m in OfOrg(t, org) && m !in ids ensures FreeExactlyIfRepeated(t, Place(t, ids), ids, m) {
      PlacedLast(t, ids, t[m].position);
    }
  }

  ghost predicate FreeExactlyIfRepeated(t: Table, t': Table, ids: seq<StageId>, m: StageId)
    requires m in t && t'.Keys == t.Keys && forall id :: id in ids ==> id in t
  {
    && t[m].position < |ids|
    && (t'[ids[t[m].position]].position != t[m].position <==> ids[t[m].position] in ids[t[m].position + 1..])
  }

  lemma StandsApart(t: Table, t': Table, ids: seq<StageId>, m: StageId)
    requires t'.Keys == t.Keys && forall id :: id in ids ==> id in t && t[id].org == t'[id].org
    requires m in t && m !in ids && t'[m] == t[m] && t[m].position < |ids| && t[ids[t[m].position]].org == t[m].org
    requires PositionsUnique(t')
    ensures t'[ids[t[m].position]].position != t[m].position
  {
    assert ids[t[m].position] in ids;
  }

  lemma UniqueIffFree(t: Table, org: OrgId, ids: seq<StageId>)
    requires PositionsUnique(t) && InRange(t, org) && |ids| == |OfOrg(t, org)|
    requires forall id :: id in ids ==> id in OfOrg(t, org)
    ensures PositionsUnique(Place(t, ids)) <==> LeftOutAreFree(t, Place(t, ids), org, ids)
  {
    if PositionsUnique(Place(t, ids)) {
      UniqueIsFree(t, Place(t, ids), org, ids);
    } else {
      CollisionIsNotFree(t, Place(t, ids), org, ids);
    }
  }

  lemma UniqueIsFree(t: Table, t': Table, org: OrgId, ids: seq<StageId>)
    requires t'.Keys == t.Keys && forall id :: id in t ==> id in t' && t'[id].org == t[id].org
    requires InRange(t, org) && |ids| == |OfOrg(t, org)| && forall id :: id in ids ==> id in OfOrg(t, org)
    requires forall id :: id in t && id !in ids ==> id in t' && t'[id] == t[id]
    requires PositionsUnique(t')
    ensures LeftOutAreFree(t, t', org, ids)
  {
    forall m | m in OfOrg(t, org) && m !in ids
      ensures t[m].position < |ids| && ids[t[m].position] in t'
      ensures t[m].position < |ids| && ids[t[m].position] in t' ==> t'[ids[t[m].position]].position != t[m].position
    {
      StandsApart(t, t', ids, m);
    }
  }

  lemma CollisionIsNotFree(t: Table, t': Table, org: OrgId, ids: seq<StageId>)
    requires t'.Keys == t.Keys && forall id :: id in t ==> id in t' && t'[id].org == t[id].org
    requires PositionsUnique(t) && forall id :: id in ids ==> id in OfOrg(t, org)
    requires forall id :: id in t && id !in ids ==> id in t' && t'[id] == t[id]
    requires forall id :: id in ids ==> id in t' && t'[id].position < |ids| && ids[t'[id].position] == id
    requires !PositionsUnique(t')
    ensures !LeftOutAreFree(t, t', org, ids)
  {
    var a, b :| a in t' && b in t' && a != b && t'[a].org == t'[b].org && t'[a].position == t'[b].position;
    var left := if a in ids then b else a;
    assert left !in ids && left in OfOrg(t, org) && t'[ids[t[left].position]].position == t[left].position;
  }

  // ----- The edits as the service makes them, one row at a time -----

  lemma {:induction false} FirstUnknownAt(t: Table, org: OrgId, ids: seq<StageId>, i: nat)
    requires i < |ids| && ids[i] !in OfOrg(t, org)
    requires forall j :: 0 <= j < i ==> ids[j] in OfOrg(t, org)
    ensures FirstUnknown(t, org, ids) == Some(ids[i])
  {
    if i > 0 { FirstUnknownAt(t, org, ids[1..], i - 1); }
  }

  /** One turn of the renumbering loop, also where the row is in place and is skipped. */
  lemma RenumberStep(t: Table, ids: seq<StageId>, k: nat)
    requires k < |ids| && forall id :: id in ids ==> id in t
    ensures var now := Place(t, ids[..k]);
            && ids[k] in now && Place(t, ids[..k + 1]) == WithPosition(now, ids[k], k)
            && (now[ids[k]].position == k ==> Place(t, ids[..k + 1]) == now)
  {
    PlaceStep(t, ids, k);
  }

  class StageEditor {
    var stages: Table

    constructor (stages: Table)
      ensures this.stages == stages
    {
      this.stages := stages;
    }

    method CreateStage(org: OrgId, id: StageId, baseSlug: string) returns (error: Option<StageError>)
      modifies this
      ensures error == ErrorOf(Create(old(stages), org, id, baseSlug))
      ensures stages == Settle(old(stages), Create(old(stages), org, id, baseSlug))
    {
      var position := |OfOrg(stages, org)|;
      var slug, _ := Slugs.UniqueSlug(SlugsOf(stages, org), baseSlug, '_');
      if id in stages { return Some(IdTaken); }
      stages := stages[id := Stage(org, slug, position, false)];
      return None;
    }

    method WritePositions(ids: seq<StageId>)
      requires forall id :: id in ids ==> id in stages
      modifies this
      ensures stages == Place(old(stages), ids)
    {
      for position := 0 to |ids|
        invariant stages == Place(old(stages), ids[..position])
      {
        PlaceStep(old(stages), ids, position);
        stages := WithPosition(stages, ids[position], position);
      }
      assert ids[..|ids|] == ids;
    }

    method FindUnknown(org: OrgId, ids: seq<StageId>) returns (unknown: Option<StageId>)
      ensures unknown == FirstUnknown(stages, org, ids)
    {
      for i := 0 to |ids|
        invariant forall j :: 0 <= j < i ==> ids[j] in OfOrg(stages, org)
      {
        if ids[i] !in OfOrg(stages, org) {
          FirstUnknownAt(stages, org, ids, i);
          return Some(ids[i]);
        }
      }
      return None;
    }

    method ReorderStages(org: OrgId, ids: seq<StageId>) returns (error: Option<StageError>)
      modifies this
      ensures error == ErrorOf(Reorder(old(stages), org, ids))
      ensures stages == Settle(old(stages), Reorder(old(stages), org, ids))
    {
      if |ids| != |OfOrg(stages, org)| { return Some(WrongListLength); }
      var unknown := FindUnknown(org, ids);
      if unknown.Some? { return Some(UnknownStage(unknown.value)); }
      var before := stages;
      WritePositions(ids);
      if !PositionsUnique(stages) {
        stages := before;
        return Some(PositionConflictAtCommit);
      }
      return None;
    }

    /** The loop after the DELETE, which skips rows already in place. */
    method Renumber(remaining: seq<StageId>)
      requires Ascending(stages, remaining)
      modifies this
      ensures stages == Place(old(stages), remaining)
    {
      for position := 0 to |remaining|
        invariant stages == Place(old(stages), remaining[..position])
      {
        RenumberStep(old(stages), remaining, position);
        var s := remaining[position];
        if stages[s].position == position { continue; }
        stages := WithPosition(stages, s, position);
      }
      assert remaining[..|remaining|] == remaining;
    }

    method DeleteAndRenumber(id: StageId)
      requires id in stages && PositionsUnique(stages)
      modifies this
      ensures stages == Delete(old(stages), id)
    {
      var org := stages[id].org;
      stages := stages - {id};
      var remaining := ListStages(stages, org);
      Renumber(remaining);
    }
  }
}
