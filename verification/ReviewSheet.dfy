/** The blind review sheet (scripts/oar_identity_review.py): merging the arms into one record per
    candidate, shuffling, joining the answers back by pair id, and ranking per target. */
module ReviewSheet {
  import opened Wrappers
  import opened Numbering
  import opened Sequences

  type Key = nat

  datatype Arm = Old | New | Refused | Random

  datatype Scored = Scored(candidate: Key, text: Option<int>, combined: Option<int>, sameGroup: bool)

  datatype Pair = Pair(
    candidate: Key, arms: set<Arm>, oldRank: Option<nat>, newRank: Option<nat>,
    text: Option<int>, combined: Option<int>, sameGroup: bool)
  {
    function Rank(arm: Arm): Option<nat> {
      match arm case Old => oldRank case New => newRank case _ => None
    }
  }

  // --- merge_pairs ----------------------------------------------------------------

  /** One neighbour as the merge meets it: its arm and its 1-based place in that arm's list. */
  datatype Entry = Entry(arm: Arm, place: nat, scored: Scored)

  function Entries(arm: Arm, list: seq<Scored>): seq<Entry> {
    if list == [] then [] else Entries(arm, Front(list)) + [Entry(arm, |list|, Last(list))]
  }

  function AllEntries(old_: seq<Scored>, new_: seq<Scored>, refused: seq<Scored>, random: seq<Scored>): seq<Entry> {
    Entries(Old, old_) + Entries(New, new_) + Entries(Refused, refused) + Entries(Random, random)
  }

  predicate Met(es: seq<Entry>, c: Key) {
    exists e | e in es :: e.scored.candidate == c
  }

  function ArmsOf(es: seq<Entry>, c: Key): set<Arm> {
    set e | e in es && e.scored.candidate == c :: e.arm
  }

  /** The last place of the candidate in the arm's list. */
  function PlaceOf(es: seq<Entry>, arm: Arm, c: Key): Option<nat> {
    if es == [] then None
    else if Last(es).arm == arm && Last(es).scored.candidate == c then Some(Last(es).place)
    else PlaceOf(Front(es), arm, c)
  }

  function FirstText(es: seq<Entry>, c: Key): Option<int> {
    if es == [] then None
    else
      var earlier := FirstText(Front(es), c);
      if earlier.Some? || Last(es).scored.candidate != c then earlier else Last(es).scored.text
  }

  function FirstCombined(es: seq<Entry>, c: Key): Option<int> {
    if es == [] then None
    else
      var earlier := FirstCombined(Front(es), c);
      if earlier.Some? || Last(es).scored.candidate != c then earlier else Last(es).scored.combined
  }

  function LastGroup(es: seq<Entry>, c: Key): bool {
    if es == [] then false
    else if Last(es).scored.candidate == c then Last(es).scored.sameGroup
    else LastGroup(Front(es), c)
  }

  /** The record of a candidate after the entries `es`. */
  function Merged(es: seq<Entry>, c: Key): Pair {
    Pair(c, ArmsOf(es, c), PlaceOf(es, Old, c), PlaceOf(es, New, c),
         FirstText(es, c), FirstCombined(es, c), LastGroup(es, c))
  }

  ghost predicate Tracks(pairs: map<Key, Pair>, order: seq<Key>, es: seq<Entry>) {
    && (forall c :: c in pairs <==> Met(es, c))
    && (forall c | c in pairs :: pairs[c] == Merged(es, c))
    && (forall c :: c in order <==> c in pairs)
    && (forall i, j | 0 <= i < j < |order| :: order[i] != order[j])
  }

  method MergeArm(pairs0: map<Key, Pair>, order0: seq<Key>, arm: Arm, list: seq<Scored>, ghost done: seq<Entry>)
    returns (pairs: map<Key, Pair>, order: seq<Key>)
    requires Tracks(pairs0, order0, done)
    ensures Tracks(pairs, order, done + Entries(arm, list))
  {
    hide Tracks;
    pairs, order := pairs0, order0;
    assert done + Entries(arm, list[..0]) == done;
    for i := 0 to |list|
      invariant Tracks(pairs, order, done + Entries(arm, list[..i]))
    {
      var s := list[i];
      var c := s.candidate;
      var r := if c in pairs then pairs[c] else Pair(c, {}, None, None, None, None, false);
      r := r.(text := if r.text.Some? then r.text else s.text,
              combined := if r.combined.Some? then r.combined else s.combined,
              sameGroup := s.sameGroup,
              arms := r.arms + {arm});
      if arm == Old {
        r := r.(oldRank := Some(i + 1));
      } else if arm == New {
        r := r.(newRank := Some(i + 1));
      }
      MergeOne(pairs, order, done + Entries(arm, list[..i]), Entry(arm, i + 1, s), r);
      if c !in pairs {
        order := order + [c];
      }
      pairs := pairs[c := r];
      assert Front(list[..i + 1]) == list[..i];
      assert done + Entries(arm, list[..i + 1]) == done + Entries(arm, list[..i]) + [Entry(arm, i + 1, s)];
    }
    assert list[..|list|] == list;
  }

  /** A record after one more entry for its candidate. */
  function WithEntry(was: Pair, e: Entry): Pair {
    was.(arms := was.arms + {e.arm},
         oldRank := if e.arm == Old then Some(e.place) else was.oldRank,
         newRank := if e.arm == New then Some(e.place) else was.newRank,
         text := if was.text.Some? then was.text else e.scored.text,
         combined := if was.combined.Some? then was.combined else e.scored.combined,
         sameGroup := e.scored.sameGroup)
  }

  lemma MetAfter(es: seq<Entry>, e: Entry)
    ensures forall c :: Met(es + [e], c) <==> Met(es, c) || c == e.scored.candidate
  {
    forall c ensures Met(es + [e], c) <==> Met(es, c) || c == e.scored.candidate {
      if Met(es, c) {
        var x :| x in es && x.scored.candidate == c;
        assert x in es + [e];
      }
      assert e in es + [e];
    }
  }

  lemma MergedAfter(es: seq<Entry>, e: Entry, c: Key)
    ensures Merged(es + [e], c) == if c == e.scored.candidate then WithEntry(Merged(es, c), e) else Merged(es, c)
  {
    assert Front(es + [e]) == es && Last(es + [e]) == e;
    assert ArmsOf(es + [e], c) == ArmsOf(es, c) + if c == e.scored.candidate then {e.arm} else {};
  }

  lemma MergeOne(pairs: map<Key, Pair>, order: seq<Key>, es: seq<Entry>, e: Entry, r: Pair)
    requires Tracks(pairs, order, es)
    requires var c := e.scored.candidate;
             r == WithEntry(if c in pairs then pairs[c] else Pair(c, {}, None, None, None, None, false), e)
    ensures var c := e.scored.candidate;
            Tracks(pairs[c := r], if c in pairs then order else order + [c], es + [e])
  {
    hide Met, Merged, WithEntry;
    var c0 := e.scored.candidate;
    if c0 !in pairs {
      NotMet(es, c0);
    }
    MetAfter(es, e);
    forall c | c in pairs || c == c0 ensures pairs[c0 := r][c] == Merged(es + [e], c) {
      MergedAfter(es, e, c);
    }
  }

  lemma {:induction false} NotMet(es: seq<Entry>, c: Key)
    requires !Met(es, c)
    ensures Merged(es, c) == Pair(c, {}, None, None, None, None, false)
  {
    if es != [] {
      assert Last(es) in es;
      assert forall e | e in Front(es) :: e in es;
      NotMet(Front(es), c);
    }
    assert ArmsOf(es, c) == {};
  }

  method MergePairs(oldNeighbours: seq<Scored>, newNeighbours: seq<Scored>, refused: seq<Scored>,
                    randomDonors: seq<Scored>, refusedLimit: nat)
    returns (records: seq<Pair>)
    ensures var es := AllEntries(oldNeighbours, newNeighbours, FirstOf(refused, refusedLimit), randomDonors);
            IsMerge(records, es)
  {
    hide Tracks, IsMerge;
    var pairs: map<Key, Pair>, order: seq<Key> := map[], [];
    var kept := FirstOf(refused, refusedLimit);
    assert Tracks(pairs, order, []) by { NothingMet(); }
    pairs, order := MergeArm(pairs, order, Old, oldNeighbours, []);
    ghost var es := [] + Entries(Old, oldNeighbours);
    pairs, order := MergeArm(pairs, order, New, newNeighbours, es);
    es := es + Entries(New, newNeighbours);
    pairs, order := MergeArm(pairs, order, Refused, kept, es);
    es := es + Entries(Refused, kept);
    pairs, order := MergeArm(pairs, order, Random, randomDonors, es);
    es := es + Entries(Random, randomDonors);
    assert es == AllEntries(oldNeighbours, newNeighbours, kept, randomDonors);
    OrderInPairs(pairs, order, es);
    records := [];
    for i := 0 to |order|
      invariant |records| == i
      invariant forall j | 0 <= j < i :: records[j] == pairs[order[j]]
    {
      records := records + [pairs[order[i]]];
    }
    ListedIsMerge(pairs, order, es, records);
  }

  lemma NothingMet()
    ensures Tracks(map[], [], [])
  {
  }

  lemma OrderInPairs(pairs: map<Key, Pair>, order: seq<Key>, es: seq<Entry>)
    requires Tracks(pairs, order, es)
    ensures forall i | 0 <= i < |order| :: order[i] in pairs
  {
  }

  lemma ListedIsMerge(pairs: map<Key, Pair>, order: seq<Key>, es: seq<Entry>, records: seq<Pair>)
    requires Tracks(pairs, order, es) && |records| == |order|
    requires forall i | 0 <= i < |order| :: order[i] in pairs && records[i] == pairs[order[i]]
    ensures IsMerge(records, es)
  {
    forall c | Met(es, c) ensures exists r :: r in records && r.candidate == c {
      var i :| 0 <= i < |order| && order[i] == c;
      assert records[i] in records;
    }
  }

  function FirstOf<T>(s: seq<T>, n: nat): seq<T> {
    if n < |s| then s[..n] else s
  }

  /** One record for each candidate met, holding exactly what the entries say of it. */
  ghost predicate IsMerge(records: seq<Pair>, es: seq<Entry>) {
    && (forall r | r in records :: r == Merged(es, r.candidate))
    && (forall c | Met(es, c) :: exists r :: r in records && r.candidate == c)
    && (forall i, j | 0 <= i < j < |records| :: records[i].candidate != records[j].candidate)
  }

  // --- the places recorded are the places in the lists ---------------------------------

  ghost predicate DistinctCandidates(list: seq<Scored>) {
    forall i, j | 0 <= i < j < |list| :: list[i].candidate != list[j].candidate
  }

  lemma {:induction false} PlaceInOtherArm(es: seq<Entry>, arm: Arm, other: Arm, list: seq<Scored>, c: Key)
    requires arm != other
    ensures PlaceOf(es + Entries(other, list), arm, c) == PlaceOf(es, arm, c)
  {
    if list == [] {
      assert es + Entries(other, list) == es;
    } else {
      PlaceInOtherArm(es, arm, other, Front(list), c);
      assert Front(es + Entries(other, list)) == es + Entries(other, Front(list));
    }
  }

  lemma {:induction false} PlaceInArm(es: seq<Entry>, arm: Arm, list: seq<Scored>, c: Key)
    requires DistinctCandidates(list) && PlaceOf(es, arm, c) == None
    ensures forall i: nat | i < |list| ::
              PlaceOf(es + Entries(arm, list), arm, c) == Some(i + 1) <==> list[i].candidate == c
    ensures PlaceOf(es + Entries(arm, list), arm, c).Some? ==>
              1 <= PlaceOf(es + Entries(arm, list), arm, c).value <= |list|
  {
    if list == [] {
      assert es + Entries(arm, list) == es;
    } else {
      var n := |list| - 1;
      PlaceInArm(es, arm, Front(list), c);
      assert Front(es + Entries(arm, list)) == es + Entries(arm, Front(list));
      assert Last(es + Entries(arm, list)) == Entry(arm, |list|, Last(list));
      forall i: nat | i < |list|
        ensures PlaceOf(es + Entries(arm, list), arm, c) == Some(i + 1) <==> list[i].candidate == c
      {
        if i < n {
          assert Front(list)[i] == list[i];
        }
      }
    }
  }

  function ArmList(old_: seq<Scored>, new_: seq<Scored>, arm: Arm): seq<Scored>
    requires arm == Old || arm == New
  {
    if arm == Old then old_ else new_
  }

  /** A record's rank in an arm is its candidate's place in that arm's list. */
  lemma RankIsPlace(old_: seq<Scored>, new_: seq<Scored>, refused: seq<Scored>, random: seq<Scored>, arm: Arm, c: Key)
    requires arm == Old || arm == New
    requires DistinctCandidates(ArmList(old_, new_, arm))
    ensures var list, rank := ArmList(old_, new_, arm), Merged(AllEntries(old_, new_, refused, random), c).Rank(arm);
            && (forall i: nat | i < |list| :: rank == Some(i + 1) <==> list[i].candidate == c)
            && (rank.Some? ==> 1 <= rank.value <= |list|)
  {
    var es := Entries(Old, old_);
    var both := es + Entries(New, new_);
    PlaceInOtherArm(both + Entries(Refused, refused), arm, Random, random, c);
    PlaceInOtherArm(both, arm, Refused, refused, c);
    if arm == Old {
      PlaceInOtherArm(es, arm, New, new_, c);
      PlaceInArm([], Old, old_, c);
      assert [] + es == es;
    } else {
      PlaceInOtherArm([], arm, Old, old_, c);
      assert [] + es == es;
      PlaceInArm(es, New, new_, c);
    }
  }

  // --- "+"-joined arms ------------------------------------------------------------------

  const ARMS: seq<Arm> := [Old, New, Refused, Random]

  function Name(arm: Arm): string {
    match arm case Old => "old" case New => "new" case Refused => "refused" case Random => "random"
  }

  function NamesOf(arms: set<Arm>, among: seq<Arm>): seq<string> {
    if among == [] then [] else (if among[0] in arms then [Name(among[0])] else []) + NamesOf(arms, among[1..])
  }

  function Join(parts: seq<string>): string {
    if parts == [] then "" else if |parts| == 1 then parts[0] else parts[0] + "+" + Join(parts[1..])
  }

  function Split(s: string): (parts: seq<string>)
    ensures parts != []
  {
    if s == "" then [""]
    else
      var rest := Split(s[1..]);
      if s[0] == '+' then [""] + rest else [[s[0]] + rest[0]] + rest[1..]
  }

  function NonEmpty(parts: seq<string>): set<string> {
    set p | p in parts && p != ""
  }

  lemma {:induction false} SplitPiece(p: string, tail: string)
    requires '+' !in p
    ensures Split(p) == [p]
    ensures Split(p + "+" + tail) == [p] + Split(tail)
  {
    if p == "" {
      assert p + "+" + tail == "+" + tail && ("+" + tail)[1..] == tail;
    } else {
      SplitPiece(p[1..], tail);
      assert (p + "+" + tail)[1..] == p[1..] + "+" + tail;
      assert p == [p[0]] + p[1..];
    }
  }

  lemma {:induction false} SplitJoin(parts: seq<string>)
    requires parts != [] && forall p | p in parts :: '+' !in p
    ensures Split(Join(parts)) == parts
  {
    if |parts| == 1 {
      SplitPiece(parts[0], "");
    } else {
      SplitJoin(parts[1..]);
      SplitPiece(parts[0], Join(parts[1..]));
      assert parts == [parts[0]] + parts[1..];
    }
  }

  lemma {:induction false} NamesAreClean(arms: set<Arm>, among: seq<Arm>)
    ensures forall p | p in NamesOf(arms, among) :: '+' !in p && p != ""
    ensures forall p :: p in NamesOf(arms, among) <==> exists a :: a in among && a in arms && Name(a) == p
  {
    if among != [] {
      NamesAreClean(arms, among[1..]);
      assert among == [among[0]] + among[1..];
    }
  }

  /** The arms column decodes to the names of exactly the record's arms. */
  lemma ArmsRoundTrip(arms: set<Arm>)
    ensures NonEmpty(Split(Join(NamesOf(arms, ARMS)))) == set a | a in arms :: Name(a)
  {
    var names := NamesOf(arms, ARMS);
    NamesAreClean(arms, ARMS);
    if names != [] {
      SplitJoin(names);
    }
    forall a | a in arms ensures Name(a) in names {
      assert ARMS[if a == Old then 0 else if a == New then 1 else if a == Refused then 2 else 3] == a;
    }
  }

  // --- the sheet and its key ---------------------------------------------------------------

  datatype KeyRow = KeyRow(pairId: string, target: Key, candidate: Key, arms: string, oldRank: string, newRank: string)

  function Num(v: Option<nat>): string {
    match v case None => "" case Some(n) => Decimal(n)
  }

  function ParseNum(s: string): Option<nat> {
    if s == "" then None else Some(ParseNat(s))
  }

  function PairId(n: nat): string {
    "P" + RightJustified(Decimal(n), 4)
  }

  function Encode(n: nat, target: Key, r: Pair): KeyRow {
    KeyRow(PairId(n), target, r.candidate, Join(NamesOf(r.arms, ARMS)), Num(r.oldRank), Num(r.newRank))
  }

  /** What a row's `relevant` field says; `Other` is none of yes, no and unsure. */
  datatype Verdict = Yes | No | Unsure | Blank | Other

  datatype Answer = Answer(pairId: string, verdict: Verdict)

  datatype Judged = Judged(target: Key, candidate: Key, relevant: bool, arms: set<string>,
                           oldRank: Option<nat>, newRank: Option<nat>)
  {
    function Rank(arm: Arm): Option<nat> {
      match arm case Old => oldRank case New => newRank case _ => None
    }
  }

  function Decode(row: KeyRow, relevant: bool): Judged {
    Judged(row.target, row.candidate, relevant, NonEmpty(Split(row.arms)), ParseNum(row.oldRank), ParseNum(row.newRank))
  }

  /** Reading a key row back gives the record's target, candidate, arms and ranks. */
  lemma DecodeEncode(n: nat, target: Key, r: Pair, relevant: bool)
    ensures Decode(Encode(n, target, r), relevant) ==
            Judged(target, r.candidate, relevant, set a | a in r.arms :: Name(a), r.oldRank, r.newRank)
  {
    ArmsRoundTrip(r.arms);
    if r.oldRank.Some? { ParseDecimal(r.oldRank.value); }
    if r.newRank.Some? { ParseDecimal(r.newRank.value); }
  }

  lemma PairIdsDiffer(m: nat, n: nat)
    requires PairId(m) == PairId(n)
    ensures m == n
  {
    assert PairId(m)[1..] == RightJustified(Decimal(m), 4) && PairId(n)[1..] == RightJustified(Decimal(n), 4);
    JustifiedReadsBack(m, 4, 0);
    JustifiedReadsBack(n, 4, 0);
  }

  method BlindOrder(records: seq<Pair>) returns (shuffled: seq<Pair>)
    ensures multiset(shuffled) == multiset(records)
  {
    shuffled := Shuffle(records);
  }

  /** Row n of the key is the encoding of the n-th pair written. */
  ghost predicate IsKeySheet(rows: seq<KeyRow>, written: seq<(Key, Pair)>) {
    |rows| == |written| && forall i: nat | i < |rows| :: rows[i] == Encode(i + 1, written[i].0, written[i].1)
  }

  ghost predicate IsRecordOf(byTarget: seq<(Key, seq<Pair>)>, p: (Key, Pair)) {
    exists i :: 0 <= i < |byTarget| && byTarget[i].0 == p.0 && p.1 in byTarget[i].1
  }

  /** One entry per target, one record per candidate of a target. */
  ghost predicate IsSheet(byTarget: seq<(Key, seq<Pair>)>) {
    && (forall i, j | 0 <= i < j < |byTarget| :: byTarget[i].0 != byTarget[j].0)
    && forall i | 0 <= i < |byTarget| :: DistinctRecords(byTarget[i].1)
  }

  ghost predicate DistinctRecords(records: seq<Pair>) {
    forall i, j | 0 <= i < j < |records| :: records[i].candidate != records[j].candidate
  }

  ghost predicate OncePerCandidate(written: seq<(Key, Pair)>) {
    forall i, j | 0 <= i < j < |written| ::
      written[i].0 != written[j].0 || written[i].1.candidate != written[j].1.candidate
  }

  /** The key, and the review sheet: the target and the pair of each row, under the same pair number. */
  method WriteKey(byTarget: seq<(Key, seq<Pair>)>) returns (rows: seq<KeyRow>, written: seq<(Key, Pair)>)
    requires IsSheet(byTarget)
    ensures IsKeySheet(rows, written) && OncePerCandidate(written)
    ensures forall p :: p in written <==> IsRecordOf(byTarget, p)
  {
    hide IsRecordOf, IsKeySheet, Encode, OncePerCandidate, DistinctRecords;
    rows, written := [], [];
    EmptyKeySheet();
    NoRecords();
    for i := 0 to |byTarget|
      invariant IsKeySheet(rows, written) && OncePerCandidate(written)
      invariant forall p :: p in written <==> IsRecordOf(byTarget[..i], p)
    {
      var shuffled := BlindOrder(byTarget[i].1);
      SameElements(shuffled, byTarget[i].1);
      ShuffledIsDistinct(byTarget[i].1, shuffled);
      ghost var before := written;
      NewTarget(byTarget, i);
      rows, written := WriteTarget(rows, written, byTarget[i].0, shuffled);
      assert byTarget[..i + 1] == byTarget[..i] + [byTarget[i]];
      forall p ensures p in written <==> IsRecordOf(byTarget[..i + 1], p) {
        RecordOfMore(byTarget[..i], byTarget[i], p);
      }
    }
    assert byTarget[..|byTarget|] == byTarget;
  }

  /** One target's records, each under the next pair number. */
  method WriteTarget(rows0: seq<KeyRow>, written0: seq<(Key, Pair)>, target: Key, shuffled: seq<Pair>)
    returns (rows: seq<KeyRow>, written: seq<(Key, Pair)>)
    requires IsKeySheet(rows0, written0) && OncePerCandidate(written0) && DistinctRecords(shuffled)
    requires forall p | p in written0 :: p.0 != target
    ensures IsKeySheet(rows, written) && OncePerCandidate(written)
    ensures forall p :: p in written <==> p in written0 || (p.0 == target && p.1 in shuffled)
  {
    hide IsKeySheet, Encode, OncePerCandidate, DistinctRecords;
    rows, written := rows0, written0;
    for j := 0 to |shuffled|
      invariant IsKeySheet(rows, written) && OncePerCandidate(written)
      invariant forall p :: p in written <==> p in written0 || (p.0 == target && p.1 in shuffled[..j])
    {
      MoreKeySheet(rows, written, target, shuffled[j]);
      NewCandidate(shuffled, j);
      OnceMore(written, target, shuffled[j]);
      rows := rows + [Encode(|rows| + 1, target, shuffled[j])];
      written := written + [(target, shuffled[j])];
      assert shuffled[..j + 1] == shuffled[..j] + [shuffled[j]];
    }
    assert shuffled[..|shuffled|] == shuffled;
  }

  lemma NewTarget(byTarget: seq<(Key, seq<Pair>)>, i: nat)
    requires IsSheet(byTarget) && i < |byTarget|
    ensures DistinctRecords(byTarget[i].1) && forall p | IsRecordOf(byTarget[..i], p) :: p.0 != byTarget[i].0
  {
  }

  lemma NewCandidate(shuffled: seq<Pair>, j: nat)
    requires DistinctRecords(shuffled) && j < |shuffled|
    ensures forall r | r in shuffled[..j] :: r.candidate != shuffled[j].candidate
  {
  }

  lemma OnceMore(written: seq<(Key, Pair)>, target: Key, r: Pair)
    requires OncePerCandidate(written)
    requires forall p | p in written && p.0 == target :: p.1.candidate != r.candidate
    ensures OncePerCandidate(written + [(target, r)])
  {
    assert forall i | 0 <= i < |written| :: written[i] in written;
  }

  lemma ShuffledIsDistinct(records: seq<Pair>, shuffled: seq<Pair>)
    requires DistinctRecords(records) && multiset(records) == multiset(shuffled)
    ensures DistinctRecords(shuffled)
  {
    SameElements(records, shuffled);
    NoRepeatsKept(records, shuffled);
    forall i, j | 0 <= i < j < |shuffled| ensures shuffled[i].candidate != shuffled[j].candidate {
      assert shuffled[i] in records && shuffled[j] in records;
    }
  }

  lemma EmptyKeySheet()
    ensures IsKeySheet([], []) && OncePerCandidate([])
  {
  }

  lemma MoreKeySheet(rows: seq<KeyRow>, written: seq<(Key, Pair)>, target: Key, r: Pair)
    requires IsKeySheet(rows, written)
    ensures IsKeySheet(rows + [Encode(|rows| + 1, target, r)], written + [(target, r)])
  {
    hide Encode;
  }

  lemma NoRecords()
    ensures forall p :: !IsRecordOf([], p)
  {
  }

  lemma RecordOfMore(byTarget: seq<(Key, seq<Pair>)>, more: (Key, seq<Pair>), p: (Key, Pair))
    ensures IsRecordOf(byTarget + [more], p) <==> IsRecordOf(byTarget, p) || (p.0 == more.0 && p.1 in more.1)
  {
    if IsRecordOf(byTarget, p) {
      var i :| 0 <= i < |byTarget| && byTarget[i].0 == p.0 && p.1 in byTarget[i].1;
      assert (byTarget + [more])[i] == byTarget[i];
    }
    if p.0 == more.0 && p.1 in more.1 {
      assert (byTarget + [more])[|byTarget|] == more;
    }
  }

  // --- load_review ---------------------------------------------------------------------------

  function KeysById(rows: seq<KeyRow>): map<string, KeyRow> {
    if rows == [] then map[] else KeysById(Front(rows))[Last(rows).pairId := Last(rows)]
  }

  /** The answered rows, joined to the key; blank and unsure rows are left out, and so are unknown ids. */
  function JudgedFrom(review: seq<Answer>, keys: map<string, KeyRow>): seq<Judged> {
    if review == [] then []
    else
      var a := Last(review);
      JudgedFrom(Front(review), keys) +
      if (a.verdict == Yes || a.verdict == No) && a.pairId in keys then [Decode(keys[a.pairId], a.verdict == Yes)] else []
  }

  function CountVerdict(review: seq<Answer>, v: Verdict): nat {
    if review == [] then 0 else CountVerdict(Front(review), v) + if Last(review).verdict == v then 1 else 0
  }

  /** The pair ids answered yes or no that the key does not know. */
  function UnknownIds(review: seq<Answer>, keys: map<string, KeyRow>): seq<string> {
    if review == [] then []
    else
      var a := Last(review);
      UnknownIds(Front(review), keys) +
      if (a.verdict == Yes || a.verdict == No) && a.pairId !in keys then [a.pairId] else []
  }

  datatype Load = NotAVerdict(line: nat) | Load(judged: seq<Judged>, unjudged: nat, unsure: nat, unknown: seq<string>)

  method CollectKeys(rows: seq<KeyRow>) returns (keys: map<string, KeyRow>)
    ensures keys == KeysById(rows)
  {
    keys := map[];
    for i := 0 to |rows|
      invariant keys == KeysById(rows[..i])
    {
      assert Front(rows[..i + 1]) == rows[..i];
      keys := keys[rows[i].pairId := rows[i]];
    }
    assert rows[..|rows|] == rows;
  }

  predicate Says(a: Answer) {
    a.verdict == Yes || a.verdict == No
  }

  predicate Known(rows: seq<KeyRow>, id: string) {
    exists row | row in rows :: row.pairId == id
  }

  /** `row` is the key's last row for the pair id. */
  ghost predicate IsRowFor(rows: seq<KeyRow>, id: string, row: KeyRow) {
    exists n :: 0 <= n < |rows| && rows[n] == row && row.pairId == id && forall m | n < m < |rows| :: rows[m].pairId != id
  }

  /** The answer joined to its pair's key row: relevant exactly if it says yes. */
  ghost predicate Joins(j: Judged, a: Answer, rows: seq<KeyRow>) {
    && (j.relevant <==> a.verdict == Yes)
    && exists row :: IsRowFor(rows, a.pairId, row)
         && j.target == row.target && j.candidate == row.candidate && j.arms == NonEmpty(Split(row.arms))
         && j.oldRank == ParseNum(row.oldRank) && j.newRank == ParseNum(row.newRank)
  }

  /** The places, in order, of the rows that say yes or no to a pair the key knows, or to one it does not. */
  ghost predicate PlacesOf(places: seq<nat>, review: seq<Answer>, rows: seq<KeyRow>, known: bool) {
    && (forall k, l | 0 <= k < l < |places| :: places[k] < places[l])
    && (forall k | 0 <= k < |places| :: places[k] < |review|)
    && forall i: nat | i < |review| :: i in places <==> Says(review[i]) && (Known(rows, review[i].pairId) <==> known)
  }

  /** The judged rows join, in order, the answers at `places` to the key. */
  ghost predicate JoinsAll(judged: seq<Judged>, places: seq<nat>, review: seq<Answer>, rows: seq<KeyRow>) {
    && |judged| == |places|
    && forall k | 0 <= k < |places| :: places[k] < |review| && Joins(judged[k], review[places[k]], rows)
  }

  ghost predicate NamesAll(unknown: seq<string>, places: seq<nat>, review: seq<Answer>) {
    && |unknown| == |places| && forall k | 0 <= k < |places| :: places[k] < |review| && unknown[k] == review[places[k]].pairId
  }

  lemma {:induction false} LastRowCounts(rows: seq<KeyRow>, id: string)
    ensures id in KeysById(rows) <==> Known(rows, id)
    ensures id in KeysById(rows) ==> IsRowFor(rows, id, KeysById(rows)[id])
  {
    if rows != [] {
      LastRowCounts(Front(rows), id);
      assert rows == Front(rows) + [Last(rows)];
      if Last(rows).pairId == id {
        assert IsRowFor(rows, id, Last(rows));
      } else if id in KeysById(rows) {
        var row := KeysById(rows)[id];
        var n :| 0 <= n < |Front(rows)| && Front(rows)[n] == row && row.pairId == id &&
                 forall m | n < m < |Front(rows)| :: Front(rows)[m].pairId != id;
        assert rows[n] == row;
      }
    }
  }

  lemma DecodeJoins(a: Answer, rows: seq<KeyRow>)
    requires Says(a) && a.pairId in KeysById(rows)
    ensures Joins(Decode(KeysById(rows)[a.pairId], a.verdict == Yes), a, rows)
  {
    LastRowCounts(rows, a.pairId);
  }

  lemma OnePlaceMore(places: seq<nat>, review: seq<Answer>, rows: seq<KeyRow>, known: bool)
    requires review != [] && PlacesOf(places, Front(review), rows, known)
    ensures var a := Last(review);
            PlacesOf(if Says(a) && (Known(rows, a.pairId) <==> known) then places + [|review| - 1] else places, review, rows, known)
  {
    hide Known, Says;
    var a := Last(review);
    var more := if Says(a) && (Known(rows, a.pairId) <==> known) then places + [|review| - 1] else places;
    forall i: nat | i < |review| ensures i in more <==> Says(review[i]) && (Known(rows, review[i].pairId) <==> known) {
      if i < |review| - 1 {
        assert review[i] == Front(review)[i];
      }
    }
  }

  /** Which answers were judged, and as what; and which were not known. */
  lemma {:induction false} JudgedJoins(review: seq<Answer>, rows: seq<KeyRow>) returns (known: seq<nat>, stray: seq<nat>)
    ensures PlacesOf(known, review, rows, true) && JoinsAll(JudgedFrom(review, KeysById(rows)), known, review, rows)
    ensures PlacesOf(stray, review, rows, false) && NamesAll(UnknownIds(review, KeysById(rows)), stray, review)
  {
    hide KeysById, Joins, Decode, PlacesOf, JoinsAll, NamesAll;
    NoJoins(review, rows);
    if review == [] {
      known, stray := [], [];
      NoPlaces(rows, true);
      NoPlaces(rows, false);
    } else {
      var keys, a := KeysById(rows), Last(review);
      var judged, unknown := JudgedFrom(Front(review), keys), UnknownIds(Front(review), keys);
      known, stray := JudgedJoins(Front(review), rows);
      JoinsGrow(judged, known, unknown, stray, review, rows);
      OnePlaceMore(known, review, rows, true);
      OnePlaceMore(stray, review, rows, false);
      LastRowCounts(rows, a.pairId);
      hide Known;
      assert JudgedFrom(review, keys) == if Says(a) && a.pairId in keys then judged + [Decode(keys[a.pairId], a.verdict == Yes)] else judged;
      assert UnknownIds(review, keys) == if Says(a) && a.pairId !in keys then unknown + [a.pairId] else unknown;
      if Says(a) {
        if a.pairId in keys {
          DecodeJoins(a, rows);
          JoinsMore(judged, known, review, rows, Decode(keys[a.pairId], a.verdict == Yes));
          known := known + [|review| - 1];
        } else {
          NamesMore(unknown, stray, review);
          stray := stray + [|review| - 1];
        }
      }
    }
  }

  lemma NoJoins(review: seq<Answer>, rows: seq<KeyRow>)
    ensures JoinsAll([], [], review, rows) && NamesAll([], [], review)
  {
  }

  lemma JoinsGrow(judged: seq<Judged>, known: seq<nat>, unknown: seq<string>, stray: seq<nat>, review: seq<Answer>,
                  rows: seq<KeyRow>)
    requires review != [] && JoinsAll(judged, known, Front(review), rows) && NamesAll(unknown, stray, Front(review))
    ensures JoinsAll(judged, known, review, rows) && NamesAll(unknown, stray, review)
  {
    hide Joins;
    assert forall i | 0 <= i < |Front(review)| :: Front(review)[i] == review[i];
  }

  lemma JoinsMore(judged: seq<Judged>, known: seq<nat>, review: seq<Answer>, rows: seq<KeyRow>, j: Judged)
    requires review != [] && JoinsAll(judged, known, review, rows) && Joins(j, Last(review), rows)
    ensures JoinsAll(judged + [j], known + [|review| - 1], review, rows)
  {
    hide Joins;
  }

  lemma NamesMore(unknown: seq<string>, stray: seq<nat>, review: seq<Answer>)
    requires review != [] && NamesAll(unknown, stray, review)
    ensures NamesAll(unknown + [Last(review).pairId], stray + [|review| - 1], review)
  {
  }

  lemma NoPlaces(rows: seq<KeyRow>, known: bool)
    ensures PlacesOf([], [], rows, known)
  {
  }

  /** The rows that say so. */
  ghost function Saying(review: seq<Answer>, v: Verdict): set<nat> {
    set i: nat | i < |review| && review[i].verdict == v
  }

  lemma {:induction false} CountsRows(review: seq<Answer>, v: Verdict)
    ensures CountVerdict(review, v) == |Saying(review, v)|
  {
    if review == [] {
      assert Saying(review, v) == {};
    } else {
      CountsRows(Front(review), v);
      var n := |review| - 1;
      assert Saying(review, v) == Saying(Front(review), v) + if Last(review).verdict == v then {n} else {};
    }
  }

  /** Every row is counted as what it says, and the first that says none of it stops the reading with its
      line, the first row being line 2. The judged rows are the answers to known pairs in order, each joined to
      its key row and relevant exactly if it says yes. */
  method LoadReview(review: seq<Answer>, rows: seq<KeyRow>) returns (load: Load, ghost known: seq<nat>, ghost stray: seq<nat>)
    ensures load.NotAVerdict? <==> exists i :: 0 <= i < |review| && review[i].verdict == Other
    ensures load.NotAVerdict? ==>
              && 0 <= load.line - 2 < |review| && review[load.line - 2].verdict == Other
              && forall i | 0 <= i < load.line - 2 :: review[i].verdict != Other
    ensures load.Load? ==>
              && PlacesOf(known, review, rows, true) && JoinsAll(load.judged, known, review, rows)
              && PlacesOf(stray, review, rows, false) && NamesAll(load.unknown, stray, review)
              && load.unjudged == |Saying(review, Blank)| && load.unsure == |Saying(review, Unsure)|
              && |load.judged| + load.unjudged + load.unsure + |load.unknown| == |review|
              && load.judged == JudgedFrom(review, KeysById(rows))
  {
    var keys := CollectKeys(rows);
    known, stray := JudgedJoins(review, rows);
    CountsRows(review, Blank);
    CountsRows(review, Unsure);
    hide PlacesOf, JoinsAll, NamesAll, Saying, KeysById, Decode;
    var judged: seq<Judged>, unjudged: nat, unsure: nat, unknown: seq<string> := [], 0, 0, [];
    for i := 0 to |review|
      invariant forall k | 0 <= k < i :: review[k].verdict != Other
      invariant judged == JudgedFrom(review[..i], keys) && unknown == UnknownIds(review[..i], keys)
      invariant unjudged == CountVerdict(review[..i], Blank) && unsure == CountVerdict(review[..i], Unsure)
      invariant |judged| + unjudged + unsure + |unknown| == i
    {
      assert Front(review[..i + 1]) == review[..i];
      var a := review[i];
      match a.verdict {
        case Blank => unjudged := unjudged + 1;
        case Unsure => unsure := unsure + 1;
        case Other =>
          load := NotAVerdict(i + 2);
          return;
        case _ =>
          if a.pairId !in keys {
            unknown := unknown + [a.pairId];
          } else {
            judged := judged + [Decode(keys[a.pairId], a.verdict == Yes)];
          }
      }
    }
    assert review[..|review|] == review;
    load := Load(judged, unjudged, unsure, unknown);
  }

  // --- rankings --------------------------------------------------------------------------------

  /** A target's judged candidates with their ranks in the arm, in the order they were judged. */
  function Ranked(judged: seq<Judged>, arm: Arm, target: Key): seq<(nat, Key)> {
    if judged == [] then []
    else
      var j := Last(judged);
      Ranked(Front(judged), arm, target) +
      if j.target == target && j.Rank(arm).Some? then [(j.Rank(arm).value, j.candidate)] else []
  }

  predicate PairLe(a: (nat, Key), b: (nat, Key)) {
    a.0 < b.0 || (a.0 == b.0 && a.1 <= b.1)
  }

  function InsertPair(p: (nat, Key), s: seq<(nat, Key)>): seq<(nat, Key)> {
    if s == [] || PairLe(p, s[0]) then [p] + s else [s[0]] + InsertPair(p, s[1..])
  }

  function SortPairs(s: seq<(nat, Key)>): seq<(nat, Key)> {
    if s == [] then [] else InsertPair(Last(s), SortPairs(Front(s)))
  }

  function Candidates(s: seq<(nat, Key)>): seq<Key> {
    if s == [] then [] else [s[0].1] + Candidates(s[1..])
  }

  function Ranking(judged: seq<Judged>, arm: Arm, target: Key): seq<Key> {
    Candidates(SortPairs(Ranked(judged, arm, target)))
  }

  method Rankings(judged: seq<Judged>, arm: Arm) returns (out: map<Key, seq<Key>>)
    ensures forall t :: t in out <==> Ranked(judged, arm, t) != []
    ensures forall t | t in out :: out[t] == Ranking(judged, arm, t)
  {
    var ranked: map<Key, seq<(nat, Key)>> := map[];
    for i := 0 to |judged|
      invariant forall t :: t in ranked <==> Ranked(judged[..i], arm, t) != []
      invariant forall t | t in ranked :: ranked[t] == Ranked(judged[..i], arm, t)
    {
      assert Front(judged[..i + 1]) == judged[..i];
      var j := judged[i];
      var rank := j.Rank(arm);
      if rank.Some? {
        ranked := ranked[j.target := (if j.target in ranked then ranked[j.target] else []) + [(rank.value, j.candidate)]];
      }
    }
    assert judged[..|judged|] == judged;
    out := map t | t in ranked :: Candidates(SortPairs(ranked[t]));
  }

  // --- the round trip --------------------------------------------------------------------------

  function JudgedCandidates(judged: seq<Judged>, target: Key): set<Key> {
    set j | j in judged && j.target == target :: j.candidate
  }

  /** The candidates of a list that are in `kept`, in the list's order. */
  function KeptOf(list: seq<Scored>, kept: set<Key>): seq<Key> {
    if list == [] then []
    else KeptOf(Front(list), kept) + if Last(list).candidate in kept then [Last(list).candidate] else []
  }

  /** The same with each candidate's place. */
  function KeptPlaces(list: seq<Scored>, kept: set<Key>): seq<(nat, Key)> {
    if list == [] then []
    else KeptPlaces(Front(list), kept) + if Last(list).candidate in kept then [(|list|, Last(list).candidate)] else []
  }

  lemma {:induction false} KeptHasPlaces(list: seq<Scored>, kept: set<Key>)
    ensures forall p :: p in KeptPlaces(list, kept) <==> IsKeptPlace(list, kept, p)
    ensures Increasing(KeptPlaces(list, kept))
    ensures Candidates(KeptPlaces(list, kept)) == KeptOf(list, kept)
  {
    if list != [] {
      KeptHasPlaces(Front(list), kept);
      var before: seq<(nat, Key)>, last: (nat, Key) := KeptPlaces(Front(list), kept), (|list|, Last(list).candidate);
      assert KeptPlaces(list, kept) == if Last(list).candidate in kept then before + [last] else before;
      hide KeptPlaces, IsKeptPlace, Increasing;
      CandidatesAppend(before, last);
      OneMoreKept(list, kept, before);
    }
  }

  ghost predicate IsKeptPlace(list: seq<Scored>, kept: set<Key>, p: (nat, Key)) {
    1 <= p.0 <= |list| && list[p.0 - 1].candidate == p.1 && p.1 in kept
  }

  lemma KeptPlaceOf(list: seq<Scored>, kept: set<Key>, p: (nat, Key))
    requires list != []
    ensures IsKeptPlace(list, kept, p) <==>
              IsKeptPlace(Front(list), kept, p) || (p == (|list|, Last(list).candidate) && Last(list).candidate in kept)
  {
  }

  lemma OneMoreKept(list: seq<Scored>, kept: set<Key>, before: seq<(nat, Key)>)
    requires list != [] && Increasing(before) && forall p :: p in before <==> IsKeptPlace(Front(list), kept, p)
    ensures var last: (nat, Key) := (|list|, Last(list).candidate);
            var after := if Last(list).candidate in kept then before + [last] else before;
            (forall p :: p in after <==> IsKeptPlace(list, kept, p)) && Increasing(after)
  {
    var last: (nat, Key) := (|list|, Last(list).candidate);
    forall i | 0 <= i < |before| ensures before[i].0 < |list| {
      assert before[i] in before;
      assert IsKeptPlace(Front(list), kept, before[i]);
    }
    hide IsKeptPlace;
    var after := if Last(list).candidate in kept then before + [last] else before;
    forall p ensures p in after <==> IsKeptPlace(list, kept, p) {
      KeptPlaceOf(list, kept, p);
    }
  }

  ghost predicate Increasing(s: seq<(nat, Key)>) {
    forall i, j | 0 <= i < j < |s| :: s[i].0 < s[j].0
  }

  lemma {:induction false} CandidatesAppend(s: seq<(nat, Key)>, p: (nat, Key))
    ensures Candidates(s + [p]) == Candidates(s) + [p.1]
  {
    if s != [] {
      assert (s + [p])[1..] == s[1..] + [p];
      CandidatesAppend(s[1..], p);
    }
  }

  ghost predicate SortedPairs(s: seq<(nat, Key)>) {
    forall i, j | 0 <= i < j < |s| :: PairLe(s[i], s[j])
  }

  lemma {:induction false} SortPairsSorts(s: seq<(nat, Key)>)
    ensures multiset(SortPairs(s)) == multiset(s) && SortedPairs(SortPairs(s))
  {
    hide InsertPair, SortedPairs;
    if s != [] {
      SortPairsSorts(Front(s));
      InsertPairKeeps(Last(s), SortPairs(Front(s)));
      InsertPairSorts(Last(s), SortPairs(Front(s)));
      assert s == Front(s) + [Last(s)];
    } else {
      assert SortedPairs([]) by { NoPairsSorted(); }
    }
  }

  lemma NoPairsSorted()
    ensures SortedPairs([])
  {
  }

  lemma {:induction false} InsertPairKeeps(p: (nat, Key), s: seq<(nat, Key)>)
    ensures multiset(InsertPair(p, s)) == multiset(s) + multiset{p}
    ensures forall x :: x in InsertPair(p, s) <==> x == p || x in s
  {
    if s != [] && !PairLe(p, s[0]) {
      InsertPairKeeps(p, s[1..]);
      WithoutFirst(s);
      assert s == [s[0]] + s[1..];
    }
  }

  lemma {:induction false} InsertPairSorts(p: (nat, Key), s: seq<(nat, Key)>)
    requires SortedPairs(s)
    ensures SortedPairs(InsertPair(p, s))
  {
    if s == [] || PairLe(p, s[0]) {
      FirstIsLeast(p, s);
    } else {
      var rest := InsertPair(p, s[1..]);
      InsertPairSorts(p, s[1..]);
      InsertPairKeeps(p, s[1..]);
      hide InsertPair;
      forall i | 0 <= i < |rest| ensures PairLe(s[0], rest[i]) {
        assert rest[i] in rest;
      }
      FirstIsLeast(s[0], rest);
    }
  }

  lemma FirstIsLeast(p: (nat, Key), s: seq<(nat, Key)>)
    requires SortedPairs(s) && (s == [] || PairLe(p, s[0]))
    ensures SortedPairs([p] + s)
  {
  }

  /** Two increasing sequences with the same elements are equal. */
  lemma {:induction false} IncreasingIsUnique(a: seq<(nat, Key)>, b: seq<(nat, Key)>)
    requires Increasing(a) && Increasing(b) && forall x :: x in a <==> x in b
    ensures a == b
  {
    assert a == [] || a[0] in b;
    assert b == [] || b[0] in a;
    if a != [] && b != [] {
      assert a[0] == b[0];
      forall x ensures x in a[1..] <==> x in b[1..] {
        assert x in a[1..] <==> x in a && x != a[0];
        assert x in b[1..] <==> x in b && x != b[0];
      }
      IncreasingIsUnique(a[1..], b[1..]);
      assert a == [a[0]] + a[1..] && b == [b[0]] + b[1..];
    }
  }

  // --- which record a judged row comes from ---------------------------------------------

  /** `j` is the answer to the pair written `n`-th. */
  ghost predicate ComesFrom(j: Judged, written: seq<(Key, Pair)>, n: nat) {
    n < |written| && j.target == written[n].0 && j.candidate == written[n].1.candidate
    && j.oldRank == written[n].1.oldRank && j.newRank == written[n].1.newRank
    && j.arms == set a | a in written[n].1.arms :: Name(a)
  }

  lemma {:induction false} RowOfId(rows: seq<KeyRow>, id: string) returns (n: nat)
    requires id in KeysById(rows)
    ensures n < |rows| && rows[n].pairId == id && KeysById(rows)[id] == rows[n]
  {
    if Last(rows).pairId == id {
      n := |rows| - 1;
    } else {
      n := RowOfId(Front(rows), id);
    }
  }

  /** Each judged row answers one of the pairs written, through one of the answers given. */
  lemma {:induction false} JudgedComesFrom(review: seq<Answer>, rows: seq<KeyRow>, written: seq<(Key, Pair)>, j: Judged)
    returns (i: nat, n: nat)
    requires IsKeySheet(rows, written) && j in JudgedFrom(review, KeysById(rows))
    ensures i < |review| && ComesFrom(j, written, n) && review[i].pairId == PairId(n + 1)
    ensures review[i].verdict == if j.relevant then Yes else No
  {
    hide PairId, KeysById, Decode;
    var a := Last(review);
    if j in JudgedFrom(Front(review), KeysById(rows)) {
      i, n := JudgedComesFrom(Front(review), rows, written, j);
    } else {
      i := |review| - 1;
      n := RowOfId(rows, a.pairId);
      DecodeEncode(n + 1, written[n].0, written[n].1, a.verdict == Yes);
    }
  }

  ghost predicate OncePerTarget(judged: seq<Judged>) {
    forall i, j | 0 <= i < j < |judged| ::
      judged[i].target != judged[j].target || judged[i].candidate != judged[j].candidate
  }

  lemma {:induction false} JudgedOnce(review: seq<Answer>, rows: seq<KeyRow>, written: seq<(Key, Pair)>)
    requires IsKeySheet(rows, written) && OncePerCandidate(written)
    requires forall i, j | 0 <= i < j < |review| :: review[i].pairId != review[j].pairId
    ensures OncePerTarget(JudgedFrom(review, KeysById(rows)))
  {
    hide KeysById, Decode, PairId;
    if review != [] {
      var keys, a := KeysById(rows), Last(review);
      var before := JudgedFrom(Front(review), keys);
      JudgedOnce(Front(review), rows, written);
      if (a.verdict == Yes || a.verdict == No) && a.pairId in keys {
        var last := Decode(keys[a.pairId], a.verdict == Yes);
        forall k | 0 <= k < |before| ensures before[k].target != last.target || before[k].candidate != last.candidate {
          var i, n := JudgedComesFrom(Front(review), rows, written, before[k]);
          assert Front(review)[i].pairId != a.pairId;
          OtherAnswerOtherPair(rows, written, n, a, before[k]);
        }
        assert JudgedFrom(review, keys) == before + [last];
      } else {
        assert JudgedFrom(review, keys) == before;
      }
    }
  }

  lemma OtherAnswerOtherPair(rows: seq<KeyRow>, written: seq<(Key, Pair)>, n: nat, a: Answer, j: Judged)
    requires IsKeySheet(rows, written) && OncePerCandidate(written) && ComesFrom(j, written, n)
    requires a.pairId in KeysById(rows) && a.pairId != PairId(n + 1)
    ensures var last := Decode(KeysById(rows)[a.pairId], a.verdict == Yes);
            j.target != last.target || j.candidate != last.candidate
  {
    hide PairId;
    var m := RowOfId(rows, a.pairId);
    DecodeEncode(m + 1, written[m].0, written[m].1, a.verdict == Yes);
    assert m != n;
  }

  // --- the ranking is the judged part of the list ---------------------------------------------

  lemma {:induction false} InRanked(judged: seq<Judged>, arm: Arm, target: Key)
    ensures forall p :: p in Ranked(judged, arm, target) <==>
              exists j :: j in judged && j.target == target && j.candidate == p.1 && j.Rank(arm) == Some(p.0)
    ensures OncePerTarget(judged) ==> NoRepeats(Ranked(judged, arm, target))
  {
    if judged != [] {
      InRanked(Front(judged), arm, target);
      var j := Last(judged);
      assert judged == Front(judged) + [j];
      if OncePerTarget(judged) && j.target == target && j.Rank(arm).Some? {
        assert forall i | 0 <= i < |Front(judged)| :: Front(judged)[i] == judged[i];
        assert (j.Rank(arm).value, j.candidate) !in Ranked(Front(judged), arm, target);
      }
    }
  }

  ghost predicate RanksAgree(judged: seq<Judged>, arm: Arm, target: Key, es: seq<Entry>) {
    forall j | j in judged && j.target == target :: j.Rank(arm) == Merged(es, j.candidate).Rank(arm)
  }

  /** The judged pairs of an arm, each with the rank it carries, are the kept places of the arm's list. */
  lemma RankedIsPlace(judged: seq<Judged>, arm: Arm, target: Key, old_: seq<Scored>, new_: seq<Scored>,
                      refused: seq<Scored>, random: seq<Scored>, p: (nat, Key))
    requires arm == Old || arm == New
    requires DistinctCandidates(ArmList(old_, new_, arm)) && RanksAgree(judged, arm, target, AllEntries(old_, new_, refused, random))
    ensures p in Ranked(judged, arm, target) <==>
              p in KeptPlaces(ArmList(old_, new_, arm), JudgedCandidates(judged, target))
  {
    var list, kept := ArmList(old_, new_, arm), JudgedCandidates(judged, target);
    InRanked(judged, arm, target);
    KeptHasPlaces(list, kept);
    RankIsPlace(old_, new_, refused, random, arm, p.1);
    hide Merged, AllEntries, Ranked, KeptPlaces, KeptOf;
    if p in KeptPlaces(list, kept) {
      var j :| j in judged && j.target == target && j.candidate == p.1;
    }
  }

  lemma RankingIsJudgedPart(judged: seq<Judged>, arm: Arm, target: Key, old_: seq<Scored>, new_: seq<Scored>,
                            refused: seq<Scored>, random: seq<Scored>)
    requires arm == Old || arm == New
    requires DistinctCandidates(ArmList(old_, new_, arm)) && OncePerTarget(judged)
    requires RanksAgree(judged, arm, target, AllEntries(old_, new_, refused, random))
    ensures Ranking(judged, arm, target) == KeptOf(ArmList(old_, new_, arm), JudgedCandidates(judged, target))
  {
    hide RanksAgree, Merged, AllEntries, KeptPlaces, KeptOf, Ranked, JudgedCandidates;
    var list, kept := ArmList(old_, new_, arm), JudgedCandidates(judged, target);
    var ranked := Ranked(judged, arm, target);
    var sorted, places := SortPairs(ranked), KeptPlaces(list, kept);
    InRanked(judged, arm, target);
    KeptHasPlaces(list, kept);
    SortPairsSorts(ranked);
    SameElements(sorted, ranked);
    NoRepeatsKept(ranked, sorted);
    forall p ensures p in ranked <==> p in places {
      RankedIsPlace(judged, arm, target, old_, new_, refused, random, p);
    }
    forall i, j | 0 <= i < j < |sorted| ensures sorted[i].0 < sorted[j].0 {
      assert sorted[i] in places && sorted[j] in places;
      assert sorted[i] != sorted[j];
    }
    IncreasingIsUnique(sorted, places);
  }

  /** A known pair answered yes or no is judged, and as what was answered. */
  lemma {:induction false} JudgedWhenAnswered(review: seq<Answer>, rows: seq<KeyRow>, written: seq<(Key, Pair)>, i: nat, n: nat)
    returns (j: Judged)
    requires IsKeySheet(rows, written) && i < |review| && n < |rows| && review[i].pairId == PairId(n + 1)
    requires review[i].verdict == Yes || review[i].verdict == No
    ensures j in JudgedFrom(review, KeysById(rows)) && ComesFrom(j, written, n)
    ensures j.relevant <==> review[i].verdict == Yes
  {
    if i < |review| - 1 {
      j := JudgedWhenAnswered(Front(review), rows, written, i, n);
    } else {
      KnownId(rows, written, n);
      DecodeEncode(n + 1, written[n].0, written[n].1, review[i].verdict == Yes);
      j := Decode(rows[n], review[i].verdict == Yes);
    }
  }

  lemma {:induction false} KnownId(rows: seq<KeyRow>, written: seq<(Key, Pair)>, n: nat)
    requires IsKeySheet(rows, written) && n < |rows|
    ensures PairId(n + 1) in KeysById(rows) && KeysById(rows)[PairId(n + 1)] == rows[n]
  {
    hide PairId;
    if n < |rows| - 1 {
      KnownId(Front(rows), Front(written), n);
      if PairId(n + 1) == PairId(|rows|) {
        PairIdsDiffer(n + 1, |rows|);
      }
    }
  }

  predicate Answered(review: seq<Answer>, id: string, verdicts: set<Verdict>) {
    exists i :: 0 <= i < |review| && review[i].pairId == id && review[i].verdict in verdicts
  }

  /** The candidates of a target whose pair was answered with one of the verdicts. */
  ghost function AnsweredCandidates(review: seq<Answer>, written: seq<(Key, Pair)>, target: Key,
                                    verdicts: set<Verdict>): set<Key> {
    set n | 0 <= n < |written| && written[n].0 == target && Answered(review, PairId(n + 1), verdicts) :: written[n].1.candidate
  }

  /** The candidates of a target judged relevant, or judged not to be. */
  function JudgedAs(judged: seq<Judged>, target: Key, relevant: bool): set<Key> {
    set j | j in judged && j.target == target && j.relevant == relevant :: j.candidate
  }

  /** What counts as judged, and as what, is decided by the answers alone: relevant are exactly the known
      pairs answered yes, not relevant exactly those answered no, and no other is judged. */
  lemma JudgedExactly(review: seq<Answer>, rows: seq<KeyRow>, written: seq<(Key, Pair)>, target: Key)
    requires IsKeySheet(rows, written)
    ensures var judged := JudgedFrom(review, KeysById(rows));
            && JudgedCandidates(judged, target) == AnsweredCandidates(review, written, target, {Yes, No})
            && JudgedAs(judged, target, true) == AnsweredCandidates(review, written, target, {Yes})
            && JudgedAs(judged, target, false) == AnsweredCandidates(review, written, target, {No})
  {
    hide PairId, KeysById, JudgedFrom, AnsweredCandidates;
    JudgedAsAnswered(review, rows, written, target, true);
    JudgedAsAnswered(review, rows, written, target, false);
    EitherAnswer(review, written, target);
    var judged := JudgedFrom(review, KeysById(rows));
    assert JudgedCandidates(judged, target) == JudgedAs(judged, target, true) + JudgedAs(judged, target, false);
  }

  lemma EitherAnswer(review: seq<Answer>, written: seq<(Key, Pair)>, target: Key)
    ensures AnsweredCandidates(review, written, target, {Yes, No}) ==
            AnsweredCandidates(review, written, target, {Yes}) + AnsweredCandidates(review, written, target, {No})
  {
    hide PairId;
  }

  lemma JudgedAsAnswered(review: seq<Answer>, rows: seq<KeyRow>, written: seq<(Key, Pair)>, target: Key, relevant: bool)
    requires IsKeySheet(rows, written)
    ensures JudgedAs(JudgedFrom(review, KeysById(rows)), target, relevant) ==
            AnsweredCandidates(review, written, target, {if relevant then Yes else No})
  {
    hide PairId, KeysById, JudgedFrom, IsKeySheet, AnsweredCandidates, JudgedAs;
    var judged, verdict := JudgedFrom(review, KeysById(rows)), if relevant then Yes else No;
    forall c ensures c in JudgedAs(judged, target, relevant) <==> c in AnsweredCandidates(review, written, target, {verdict}) {
      if c in JudgedAs(judged, target, relevant) {
        JudgedIsAnswered(review, rows, written, target, relevant, c);
      }
      if c in AnsweredCandidates(review, written, target, {verdict}) {
        AnsweredIsJudged(review, rows, written, target, relevant, c);
      }
    }
  }

  lemma JudgedIsAnswered(review: seq<Answer>, rows: seq<KeyRow>, written: seq<(Key, Pair)>, target: Key, relevant: bool, c: Key)
    requires IsKeySheet(rows, written) && c in JudgedAs(JudgedFrom(review, KeysById(rows)), target, relevant)
    ensures c in AnsweredCandidates(review, written, target, {if relevant then Yes else No})
  {
    hide PairId, KeysById, JudgedFrom, IsKeySheet;
    var j :| j in JudgedFrom(review, KeysById(rows)) && j.target == target && j.relevant == relevant && j.candidate == c;
    var i, n := JudgedComesFrom(review, rows, written, j);
    assert Answered(review, PairId(n + 1), {if relevant then Yes else No});
  }

  lemma AnsweredIsJudged(review: seq<Answer>, rows: seq<KeyRow>, written: seq<(Key, Pair)>, target: Key, relevant: bool, c: Key)
    requires IsKeySheet(rows, written) && c in AnsweredCandidates(review, written, target, {if relevant then Yes else No})
    ensures c in JudgedAs(JudgedFrom(review, KeysById(rows)), target, relevant)
  {
    hide PairId, KeysById, JudgedFrom;
    var verdict := if relevant then Yes else No;
    var n: nat :| n < |written| && written[n].0 == target && Answered(review, PairId(n + 1), {verdict}) && written[n].1.candidate == c;
    var i: nat :| i < |review| && review[i].pairId == PairId(n + 1) && review[i].verdict in {verdict};
    var j := JudgedWhenAnswered(review, rows, written, i, n);
  }

  /** The round trip. Merge the arms of each target, shuffle, write the sheet and its key, have any of
      its rows answered in any order, and join the answers back: for each target and arm the ranking is
      exactly the part of that arm's neighbour list answered yes or no, in the list's own order, and relevant
      are exactly the candidates answered yes. */
  lemma RoundTrip(byTarget: seq<(Key, seq<Pair>)>, rows: seq<KeyRow>, written: seq<(Key, Pair)>, review: seq<Answer>,
                  k: nat, arm: Arm, old_: seq<Scored>, new_: seq<Scored>, refused: seq<Scored>, random: seq<Scored>)
    requires IsSheet(byTarget) && k < |byTarget|
    requires IsMerge(byTarget[k].1, AllEntries(old_, new_, refused, random))
    requires (arm == Old || arm == New) && DistinctCandidates(ArmList(old_, new_, arm))
    requires IsKeySheet(rows, written) && OncePerCandidate(written)
    requires forall p :: p in written <==> IsRecordOf(byTarget, p)
    requires forall i, j | 0 <= i < j < |review| :: review[i].pairId != review[j].pairId
    ensures var judged, target := JudgedFrom(review, KeysById(rows)), byTarget[k].0;
            && Ranking(judged, arm, target) == KeptOf(ArmList(old_, new_, arm), AnsweredCandidates(review, written, target, {Yes, No}))
            && JudgedAs(judged, target, true) == AnsweredCandidates(review, written, target, {Yes})
            && JudgedAs(judged, target, false) == AnsweredCandidates(review, written, target, {No})
  {
    JudgedExactly(review, rows, written, byTarget[k].0);
    hide AllEntries, Merged, Ranking, KeptOf, JudgedCandidates, AnsweredCandidates, JudgedAs;
    var judged, target := JudgedFrom(review, KeysById(rows)), byTarget[k].0;
    JudgedOnce(review, rows, written);
    forall j | j in judged && j.target == target
      ensures j.Rank(arm) == Merged(AllEntries(old_, new_, refused, random), j.candidate).Rank(arm)
    {
      var i, n := JudgedComesFrom(review, rows, written, j);
      assert written[n] in written;
      var m :| 0 <= m < |byTarget| && byTarget[m].0 == written[n].0 && written[n].1 in byTarget[m].1;
      assert m == k;
    }
    RankingIsJudgedPart(judged, arm, target, old_, new_, refused, random);
  }
}
