/** The wipe of listed condition declarations
    (alembic/versions/c5e1a9d37f02_wipe_i8_nonprod_test_rows.py).

    A declaration may amend one earlier declaration, through the self-referencing
    foreign key `supersedes`. The migration first decides which listed rows can go,
    a fixpoint, and then deletes them in passes, amendments first. */
module Amendments {
  import opened Wrappers

  type Id = string

  /** `i8_attestation`: each row's id with the id it supersedes, if any. */
  type Table = map<Id, Option<Id>>

  predicate Amends(t: Table, amendment: Id, original: Id) {
    amendment in t && t[amendment] == Some(original)
  }

  /** Every superseded id is a row of the table. */
  ghost predicate ForeignKeyHolds(t: Table) {
    forall r | r in t && t[r].Some? :: t[r].value in t
  }

  /** Each row of `p` amends the one before it. */
  ghost predicate Chain(t: Table, p: seq<Id>) {
    p != [] && forall i | 0 <= i < |p| - 1 :: Amends(t, p[i + 1], p[i])
  }

  /** A chain of amendments from `r` to a row outside `present`. */
  ghost predicate LeadsOut(t: Table, present: set<Id>, r: Id, p: seq<Id>) {
    Chain(t, p) && p[0] == r && p[|p| - 1] !in present
  }

  ghost predicate MustStay(t: Table, present: set<Id>, r: Id) {
    exists p :: LeadsOut(t, present, r, p)
  }

  /** Whatever amends a row of `s` is in `s`. */
  ghost predicate Closed(t: Table, s: set<Id>) {
    forall a, r | Amends(t, a, r) && r in s :: a in s
  }

  ghost predicate IsAmended(t: Table, r: Id) {
    exists a :: Amends(t, a, r)
  }

  /** A chain whose first row amends its last. */
  ghost predicate Cycle(t: Table, c: seq<Id>) {
    Chain(t, c) && Amends(t, c[0], c[|c| - 1])
  }

  ghost predicate HasCycleWithin(t: Table, s: set<Id>) {
    exists c :: Cycle(t, c) && forall r | r in c :: r in s
  }

  // --- deciding what can go -----------------------------------------------------

  function AmendedBy(amendedBy: map<Id, set<Id>>, r: Id): set<Id> {
    if r in amendedBy then amendedBy[r] else {}
  }

  method DeletableAttestations(t: Table, present: set<Id>) returns (deletable: set<Id>, kept: set<Id>)
    requires present <= t.Keys
    ensures deletable == present - kept && kept <= present
    ensures forall r | r in present :: r in kept <==> MustStay(t, present, r)
  {
    if present == {} {
      return {}, {};
    }
    var amendedBy: map<Id, set<Id>> := map[];
    var found := set a | a in t && t[a].Some? && t[a].value in present :: (a, t[a].value);
    while found != {}
      invariant forall e | e in found :: Amends(t, e.0, e.1) && e.1 in present
      invariant forall a, r :: a in AmendedBy(amendedBy, r) <==> Amends(t, a, r) && r in present && (a, r) !in found
    {
      var e :| e in found;
      amendedBy := amendedBy[e.1 := AmendedBy(amendedBy, e.1) + {e.0}];
      found := found - {e};
    }

    kept := {};
    var changed := true;
    while changed
      invariant kept <= present
      invariant forall r | r in kept :: MustStay(t, present, r)
      invariant !changed ==> forall r, a | r in present - kept && Amends(t, a, r) :: a in present - kept
      decreases present - kept, changed
    {
      changed := false;
      ghost var before := kept;
      var todo := present - kept;
      while todo != {}
        invariant todo <= present && before <= kept <= present
        invariant forall r | r in kept :: MustStay(t, present, r)
        invariant changed <==> kept != before
        invariant !changed ==> forall r, a | r in present - kept - todo && Amends(t, a, r) :: a in present - kept
      {
        var r :| r in todo;
        todo := todo - {r};
        if exists a | a in AmendedBy(amendedBy, r) :: a !in present || a in kept {
          ghost var a :| Amends(t, a, r) && (a !in present || a in kept);
          ExtendChain(t, present, kept, a, r);
          assert r !in before || r in kept;
          kept := kept + {r};
          changed := true;
        }
      }
    }
    deletable := present - kept;
    forall r, p | r in present && LeadsOut(t, present, r, p) ensures r in kept {
      ChainStaysOut(t, present, kept, p);
    }
  }

  lemma ExtendChain(t: Table, present: set<Id>, kept: set<Id>, a: Id, r: Id)
    requires Amends(t, a, r) && (a !in present || a in kept)
    requires forall k | k in kept :: MustStay(t, present, k)
    ensures MustStay(t, present, r)
  {
    var p := [a];
    if a in present {
      p :| LeadsOut(t, present, a, p);
    }
    assert LeadsOut(t, present, r, [r] + p);
  }

  /** A set that already holds every row it has reason to keep holds each row with a chain out. */
  lemma {:induction false} ChainStaysOut(t: Table, present: set<Id>, kept: set<Id>, p: seq<Id>)
    requires forall r, a | r in present - kept && Amends(t, a, r) :: a in present - kept
    requires Chain(t, p) && p[0] in present && p[|p| - 1] !in present
    ensures p[0] in kept
  {
    assert Amends(t, p[1], p[0]);
    if p[1] in present {
      ChainStaysOut(t, present, kept, p[1..]);
    }
  }

  /** The rows without a chain out are the greatest part of `present` closed under amendment. */
  lemma DeletableIsGreatestClosed(t: Table, present: set<Id>, deletable: set<Id>)
    requires deletable <= present
    requires forall r | r in present :: r !in deletable <==> MustStay(t, present, r)
    ensures Closed(t, deletable)
    ensures forall s | s <= present && Closed(t, s) :: s <= deletable
  {
    forall a, r | Amends(t, a, r) && r in deletable ensures a in deletable {
      if a !in deletable {
        ExtendChain(t, present, present - deletable, a, r);
      }
    }
    forall s, r | s <= present && Closed(t, s) && r in s ensures r in deletable {
      if r !in deletable {
        var p :| LeadsOut(t, present, r, p);
        ClosedHoldsChain(t, s, p);
      }
    }
  }

  lemma {:induction false} ClosedHoldsChain(t: Table, s: set<Id>, p: seq<Id>)
    requires Closed(t, s) && Chain(t, p) && p[0] in s
    ensures p[|p| - 1] in s
  {
    if |p| > 1 {
      assert Amends(t, p[1], p[0]);
      ClosedHoldsChain(t, s, p[1..]);
    }
  }

  // --- deleting in passes -------------------------------------------------------

  class AttestationTable {
    var rows: Table

    constructor (rows: Table)
      ensures this.rows == rows
    {
      this.rows := rows;
    }

    /** The ids that some row of the table supersedes, among `ids`. */
    method SelectSuperseded(ids: set<Id>) returns (amended: set<Id>)
      ensures forall r :: r in amended <==> r in ids && IsAmended(rows, r)
    {
      amended := set a | a in rows && rows[a].Some? && rows[a].value in ids :: rows[a].value;
      forall r | r in amended ensures IsAmended(rows, r) {
        var a :| a in rows && rows[a] == Some(r);
        assert Amends(rows, a, r);
      }
    }

    /** The database refuses a delete that would leave a dangling `supersedes`. */
    method Delete(ids: set<Id>)
      requires ForeignKeyHolds(rows - ids)
      modifies this
      ensures rows == old(rows) - ids && ForeignKeyHolds(rows)
    {
      rows := rows - ids;
    }
  }

  /** `r` lies on a cycle of rows of `s`. */
  ghost predicate OnCycle(t: Table, s: set<Id>, r: Id) {
    exists c :: Cycle(t, c) && (forall q | q in c :: q in s) && r in c
  }

  /** A chain of amendments from `r` into a cycle within `s`. */
  ghost predicate LeadsToCycle(t: Table, s: set<Id>, r: Id) {
    exists p :: Chain(t, p) && p[0] == r && OnCycle(t, s, p[|p| - 1])
  }

  /** From `r`, amendments lead outside `s` or into a cycle within it. */
  ghost predicate Stuck(t: Table, s: set<Id>, r: Id) {
    r in s && (MustStay(t, s, r) || LeadsToCycle(t, s, r))
  }

  ghost predicate StuckVia(t: Table, s: set<Id>, p: seq<Id>) {
    Chain(t, p) && (p[|p| - 1] !in s || OnCycle(t, s, p[|p| - 1]))
  }

  lemma StuckHasChain(t: Table, s: set<Id>, r: Id) returns (p: seq<Id>)
    requires Stuck(t, s, r)
    ensures StuckVia(t, s, p) && p[0] == r
  {
    if MustStay(t, s, r) {
      p :| LeadsOut(t, s, r, p);
    } else {
      p :| Chain(t, p) && p[0] == r && OnCycle(t, s, p[|p| - 1]);
    }
  }

  lemma ChainIsStuck(t: Table, s: set<Id>, p: seq<Id>)
    requires StuckVia(t, s, p) && p[0] in s
    ensures Stuck(t, s, p[0])
  {
    if p[|p| - 1] !in s {
      assert LeadsOut(t, s, p[0], p);
    } else {
      assert LeadsToCycle(t, s, p[0]);
    }
  }

  /** A stuck row is amended from outside the set, or by another stuck row. */
  lemma StuckIsAmended(t: Table, s: set<Id>, r: Id) returns (a: Id)
    requires Stuck(t, s, r)
    ensures Amends(t, a, r) && (a !in s || Stuck(t, s, a))
  {
    var p := StuckHasChain(t, s, r);
    if |p| > 1 {
      a := p[1];
      assert Amends(t, p[1], p[0]) && StuckVia(t, s, p[1..]);
      if a in s {
        ChainIsStuck(t, s, p[1..]);
      }
    } else {
      a := OnCycleAmended(t, s, r);
      assert StuckVia(t, s, [a]);
      ChainIsStuck(t, s, [a]);
    }
  }

  lemma OnCycleAmended(t: Table, s: set<Id>, r: Id) returns (a: Id)
    requires OnCycle(t, s, r)
    ensures Amends(t, a, r) && a in s && OnCycle(t, s, a)
  {
    var c :| Cycle(t, c) && (forall q | q in c :: q in s) && r in c;
    var i :| 0 <= i < |c| && c[i] == r;
    a := if i == |c| - 1 then c[0] else c[i + 1];
    assert a in c;
  }

  /** No row is stuck exactly when the set is closed under amendment and free of cycles. */
  lemma NothingStuck(t: Table, s: set<Id>)
    ensures (forall r :: !Stuck(t, s, r)) <==> Closed(t, s) && !HasCycleWithin(t, s)
  {
    if r :| Stuck(t, s, r) {
      var p := StuckHasChain(t, s, r);
      if Closed(t, s) {
        ClosedHoldsChain(t, s, p);
        var c :| Cycle(t, c) && (forall q | q in c :: q in s) && p[|p| - 1] in c;
        assert HasCycleWithin(t, s);
      }
    }
    if HasCycleWithin(t, s) {
      var c :| Cycle(t, c) && forall r | r in c :: r in s;
      assert c[0] in c && OnCycle(t, s, c[0]) && StuckVia(t, s, [c[0]]);
      ChainIsStuck(t, s, [c[0]]);
    }
    if !Closed(t, s) {
      var a, r :| Amends(t, a, r) && r in s && a !in s;
      assert StuckVia(t, s, [r, a]);
      ChainIsStuck(t, s, [r, a]);
    }
  }

  /** Deletes in passes the rows that no row of the table amends any more. The foreign key holds after
      every pass. The rows left are exactly those from which amendments lead outside `deletable` or into a
      cycle within it; so everything goes exactly when `deletable` is closed under amendment and free of
      cycles, and a closed set leaves rows only if they hold a cycle. */
  method DeleteAttestations(table: AttestationTable, deletable: set<Id>) returns (deleted: nat, ghost left: set<Id>)
    requires ForeignKeyHolds(table.rows) && deletable <= table.rows.Keys
    modifies table
    ensures ForeignKeyHolds(table.rows)
    ensures left <= deletable && table.rows == old(table.rows) - (deletable - left)
    ensures deleted + |left| == |deletable|
    ensures forall r :: r in left <==> Stuck(old(table.rows), deletable, r)
    ensures left == {} <==> Closed(old(table.rows), deletable) && !HasCycleWithin(old(table.rows), deletable)
    ensures Closed(old(table.rows), deletable) && left != {} ==> HasCycleWithin(old(table.rows), left)
  {
    ghost var t := table.rows;
    var remaining := deletable;
    deleted := 0;
    while remaining != {}
      invariant remaining <= deletable && deleted + |remaining| == |deletable|
      invariant table.rows == t - (deletable - remaining) && ForeignKeyHolds(table.rows)
      invariant StuckRemain(t, deletable, remaining)
    {
      var amended := table.SelectSuperseded(remaining);
      var free := remaining - amended;
      if free == {} {
        assert forall r | r in remaining :: r in free || r in amended;
        break;
      }
      FreeIsNotStuck(t, table.rows, deletable, remaining, free);
      FreeRowsCanGo(table.rows, free);
      table.Delete(free);
      deleted := deleted + |free|;
      remaining := remaining - free;
    }
    left := remaining;
    WhatIsLeft(t, table.rows, deletable, left);
  }

  ghost predicate StuckRemain(t: Table, deletable: set<Id>, remaining: set<Id>) {
    forall r | Stuck(t, deletable, r) :: r in remaining
  }

  lemma FreeIsNotStuck(t: Table, rows: Table, deletable: set<Id>, remaining: set<Id>, free: set<Id>)
    requires StuckRemain(t, deletable, remaining) && free <= remaining <= deletable
    requires rows == t - (deletable - remaining) && forall r | r in free :: !IsAmended(rows, r)
    ensures StuckRemain(t, deletable, remaining - free)
    ensures |remaining| == |remaining - free| + |free|
    ensures rows - free == t - (deletable - (remaining - free))
  {
    forall r | Stuck(t, deletable, r) ensures r !in free {
      var a := StuckIsAmended(t, deletable, r);
      assert Amends(rows, a, r);
    }
    assert free + (remaining - free) == remaining;
  }

  lemma FreeRowsCanGo(t: Table, free: set<Id>)
    requires ForeignKeyHolds(t) && forall r | r in free :: !IsAmended(t, r)
    ensures ForeignKeyHolds(t - free)
  {
    forall a | a in t && a !in free && t[a].Some? ensures t[a].value !in free {
      assert Amends(t, a, t[a].value);
    }
  }

  lemma WhatIsLeft(t: Table, rows: Table, deletable: set<Id>, left: set<Id>)
    requires left <= deletable && rows == t - (deletable - left)
    requires StuckRemain(t, deletable, left) && forall r | r in left :: IsAmended(rows, r)
    ensures forall r :: r in left <==> Stuck(t, deletable, r)
    ensures left == {} <==> Closed(t, deletable) && !HasCycleWithin(t, deletable)
    ensures Closed(t, deletable) && left != {} ==> HasCycleWithin(t, left)
  {
    hide Stuck;
    forall r | r in left ensures Stuck(t, deletable, r) {
      WalkUntilStuck(t, rows, deletable, left, [r]);
    }
    NothingStuck(t, deletable);
    if left != {} && Closed(t, deletable) {
      LeftHasCycle(t, rows, deletable, left);
    }
  }

  /** Following amendments among the rows left, one comes out of the set or back to a row passed before. */
  lemma {:induction false} WalkUntilStuck(t: Table, rows: Table, deletable: set<Id>, left: set<Id>, p: seq<Id>)
    requires left <= deletable && rows == t - (deletable - left) && forall r | r in left :: IsAmended(rows, r)
    requires Chain(t, p) && forall r | r in p :: r in left
    ensures Stuck(t, deletable, p[0])
    decreases left - (set r | r in p)
  {
    var last := p[|p| - 1];
    assert last in p && p[0] in p;
    var a :| Amends(rows, a, last);
    assert Amends(t, a, last);
    if a !in left {
      assert StuckVia(t, deletable, p + [a]);
      ChainIsStuck(t, deletable, p + [a]);
    } else if a in p {
      var i :| 0 <= i < |p| && p[i] == a;
      assert Cycle(t, p[i..]) && last in p[i..];
      assert OnCycle(t, deletable, last);
      ChainIsStuck(t, deletable, p);
    } else {
      var q := p + [a];
      assert (set r | r in q) == (set r | r in p) + {a};
      WalkUntilStuck(t, rows, deletable, left, q);
    }
  }

  lemma LeftHasCycle(t: Table, rows: Table, deletable: set<Id>, left: set<Id>)
    requires left != {} && left <= deletable && rows == t - (deletable - left)
    requires Closed(t, deletable) && forall r | r in left :: IsAmended(rows, r)
    ensures HasCycleWithin(t, left) && HasCycleWithin(t, deletable)
  {
    forall a, r | Amends(rows, a, r) && r in left ensures a in left {
      assert Amends(t, a, r);
    }
    AllAmendedHasCycle(rows, left);
    CycleOfPart(rows, t, left);
    var c :| Cycle(t, c) && forall r | r in c :: r in left;
    assert forall r | r in c :: r in deletable;
  }

  lemma CycleOfPart(part: Table, t: Table, s: set<Id>)
    requires HasCycleWithin(part, s)
    requires forall r | r in part :: r in t && t[r] == part[r]
    ensures HasCycleWithin(t, s)
  {
    var c :| Cycle(part, c) && forall r | r in c :: r in s;
    assert Cycle(t, c);
  }

  /** Pigeonhole: a finite set in which every row is amended by a row of the set holds a cycle. */
  lemma AllAmendedHasCycle(t: Table, s: set<Id>)
    requires s != {} && Closed(t, s)
    requires forall r | r in s :: IsAmended(t, r)
    ensures HasCycleWithin(t, s)
  {
    var r :| r in s;
    WalkUntilRepeat(t, s, [r]);
  }

  lemma {:induction false} WalkUntilRepeat(t: Table, s: set<Id>, p: seq<Id>)
    requires Closed(t, s) && Chain(t, p)
    requires forall r | r in s :: IsAmended(t, r)
    requires forall r | r in p :: r in s
    ensures HasCycleWithin(t, s)
    decreases s - (set r | r in p)
  {
    var last := p[|p| - 1];
    assert last in p;
    var a :| Amends(t, a, last);
    if a in p {
      var i :| 0 <= i < |p| && p[i] == a;
      assert Cycle(t, p[i..]);
    } else {
      var q := p + [a];
      assert (set r | r in q) == (set r | r in p) + {a};
      WalkUntilRepeat(t, s, q);
    }
  }

  // --- the migration ------------------------------------------------------------

  datatype Kind = NewAcquisition | OtherKind

  function TestJustifications(justifications: map<Id, Kind>, listed: set<Id>): set<Id> {
    set j | j in justifications && j in listed && justifications[j].NewAcquisition?
  }

  class Database {
    const attestations: AttestationTable
    var justifications: map<Id, Kind>

    constructor (attestations: AttestationTable, justifications: map<Id, Kind>)
      ensures this.attestations == attestations && this.justifications == justifications
    {
      this.attestations := attestations;
      this.justifications := justifications;
    }

    /** Deletes the listed test rows where they exist. A listed declaration stays exactly when a chain of
        amendments leads from it to a row that is not listed, or into a cycle of listed rows; so all that
        may go does go exactly when no listed row without such a chain out leads into a cycle. */
    method Upgrade(listedAttestations: set<Id>, listedJustifications: set<Id>)
      requires ForeignKeyHolds(attestations.rows)
      modifies this, attestations
      ensures ForeignKeyHolds(attestations.rows)
      ensures forall r | r in attestations.rows ::
                r in old(attestations.rows) && attestations.rows[r] == old(attestations.rows[r])
      ensures forall r | r in old(attestations.rows) && r !in listedAttestations :: r in attestations.rows
      ensures forall r | r in old(attestations.rows) && r in listedAttestations ::
                r in attestations.rows <==> Stuck(old(attestations.rows), listedAttestations, r)
      ensures forall j :: j in justifications <==>
                j in old(justifications) && !(j in listedJustifications && old(justifications)[j] == NewAcquisition)
      ensures forall j | j in justifications :: justifications[j] == old(justifications)[j]
    {
      ghost var t := attestations.rows;
      var present := set r | r in attestations.rows && r in listedAttestations;
      var deletable, kept := DeletableAttestations(attestations.rows, present);
      var found := TestJustifications(justifications, listedJustifications);
      assert forall j :: j in found <==> j in justifications && j in listedJustifications && justifications[j] == NewAcquisition;
      ghost var left := {};
      DeletableIsGreatestClosed(t, present, deletable);
      if deletable != {} {
        var deleted;
        deleted, left := DeleteAttestations(attestations, deletable);
      }
      WipeResult(t, attestations.rows, listedAttestations, present, deletable, left);
      if found != {} {
        justifications := justifications - found;
      }
    }
  }

  lemma WipeResult(t: Table, rows: Table, listed: set<Id>, present: set<Id>, deletable: set<Id>, left: set<Id>)
    requires present == t.Keys * listed && left <= deletable <= present
    requires rows == t - (deletable - left) && Closed(t, deletable)
    requires forall r :: r in left <==> Stuck(t, deletable, r)
    requires forall r | r in present :: r !in deletable <==> MustStay(t, present, r)
    ensures forall r | r in t && r in listed :: r in rows <==> Stuck(t, listed, r)
  {
    forall r | r in present ensures r in rows <==> Stuck(t, listed, r) {
      PresentIsListedInTable(t, listed, present, r);
      if r in deletable {
        SameCycles(t, listed, deletable, r);
      }
    }
  }

  /** From a row of a closed part, amendments lead into the same cycles within the part as within the list. */
  lemma SameCycles(t: Table, listed: set<Id>, deletable: set<Id>, r: Id)
    requires Closed(t, deletable) && deletable <= listed && r in deletable
    ensures !MustStay(t, deletable, r) && (LeadsToCycle(t, deletable, r) <==> LeadsToCycle(t, listed, r))
  {
    forall p | Chain(t, p) && p[0] == r ensures p[|p| - 1] in deletable {
      ClosedHoldsChain(t, deletable, p);
    }
    if LeadsToCycle(t, listed, r) {
      var p :| Chain(t, p) && p[0] == r && OnCycle(t, listed, p[|p| - 1]);
      CycleInClosed(t, listed, deletable, p[|p| - 1]);
    }
    if LeadsToCycle(t, deletable, r) {
      var p :| Chain(t, p) && p[0] == r && OnCycle(t, deletable, p[|p| - 1]);
      var c :| Cycle(t, c) && (forall q | q in c :: q in deletable) && p[|p| - 1] in c;
      assert OnCycle(t, listed, p[|p| - 1]);
    }
  }

  lemma CycleInClosed(t: Table, listed: set<Id>, deletable: set<Id>, r: Id)
    requires Closed(t, deletable) && r in deletable && OnCycle(t, listed, r)
    ensures OnCycle(t, deletable, r)
  {
    var c :| Cycle(t, c) && (forall q | q in c :: q in listed) && r in c;
    var i :| 0 <= i < |c| && c[i] == r;
    ClosedHoldsChain(t, deletable, c[i..]);
    assert c[i..][|c[i..]| - 1] == c[|c| - 1] && c[0] in deletable;
    forall k | 0 <= k < |c| ensures c[k] in deletable {
      ClosedHoldsChain(t, deletable, c[..k + 1]);
    }
  }

  lemma PresentIsListedInTable(t: Table, listed: set<Id>, present: set<Id>, r: Id)
    requires present == t.Keys * listed && r in t
    ensures MustStay(t, present, r) <==> MustStay(t, listed, r)
  {
    forall p | Chain(t, p) && p[0] == r ensures LeadsOut(t, present, r, p) <==> LeadsOut(t, listed, r, p) {
      ChainInTable(t, p);
    }
  }

  lemma ChainInTable(t: Table, p: seq<Id>)
    requires Chain(t, p) && p[0] in t
    ensures p[|p| - 1] in t
  {
    if |p| > 1 {
      assert Amends(t, p[|p| - 1], p[|p| - 2]);
    }
  }
}
