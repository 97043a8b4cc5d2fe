/** Watching fired extracts land (live_checks/csv_live_check.py, `Job` and `watch`): a polling loop
    over files that grow, or are new each day, with a quiet time, a first timeout and a cap. */
module Watch {
  import opened Wrappers

  type Path = nat
  type TableName = nat

  datatype Status = Pending | Delivered | TimedOut | FireFailed | Skipped

  /** What polling round n finds: the time, the paths a table may land under, and their sizes. */
  datatype World = World(
    clock: nat -> int,
    paths: (nat, TableName) -> seq<Path>,
    size: (nat, TableName, Path) -> nat)

  datatype Limits = Limits(poll: int, quiet: int, firstTimeout: int, maxWait: int)

  datatype JobState = JobState(
    table: TableName, firedAt: int, baseline: map<Path, nat>, seen: map<Path, nat>,
    firstGrowth: Option<int>, lastGrowth: Option<int>, status: Status)
  {
    /** The size last recorded for a path: what was seen, else its baseline, else nothing. */
    function Level(p: Path): nat {
      if p in seen then seen[p] else if p in baseline then baseline[p] else 0
    }
  }

  // --- one job, one round ------------------------------------------------------------

  function Look(s: JobState, p: Path, size: nat, now: int): JobState {
    var t := if p in s.baseline then s else s.(baseline := s.baseline[p := 0]);
    if size > t.Level(p) then
      t.(seen := t.seen[p := size],
         firstGrowth := if t.firstGrowth.Some? then t.firstGrowth else Some(now),
         lastGrowth := Some(now))
    else t
  }

  function LookAll(s: JobState, w: World, n: nat, ps: seq<Path>): JobState {
    if ps == [] then s
    else
      var p := ps[|ps| - 1];
      Look(LookAll(s, w, n, ps[..|ps| - 1]), p, w.size(n, s.table, p), w.clock(n))
  }

  lemma NoLooks(s: JobState, w: World, n: nat, ps: seq<Path>)
    ensures LookAll(s, w, n, ps[..0]) == s
  {
  }

  lemma OneMoreLook(s: JobState, w: World, n: nat, ps: seq<Path>, i: nat)
    requires i < |ps|
    ensures LookAll(s, w, n, ps[..i + 1]) == Look(LookAll(s, w, n, ps[..i]), ps[i], w.size(n, s.table, ps[i]), w.clock(n))
  {
    assert ps[..i + 1][..i] == ps[..i];
  }

  function Settle(s: JobState, now: int, limits: Limits): JobState {
    if s.lastGrowth.Some? && now - s.lastGrowth.value >= limits.quiet then s.(status := Delivered)
    else if s.firstGrowth == None && now - s.firedAt >= limits.firstTimeout then s.(status := TimedOut)
    else s
  }

  function Round(s: JobState, w: World, limits: Limits, n: nat): JobState {
    if s.status != Pending then s
    else Settle(LookAll(s, w, n, w.paths(n, s.table)), w.clock(n), limits)
  }

  function AfterRounds(s: JobState, w: World, limits: Limits, n: nat): JobState {
    if n == 0 then s else Round(AfterRounds(s, w, limits, n - 1), w, limits, n - 1)
  }

  /** At the cap a job still pending counts as delivered if anything arrived. */
  function Stop(s: JobState): JobState {
    if s.status != Pending then s
    else s.(status := if s.firstGrowth == None then TimedOut else Delivered)
  }

  // --- the job and the loop ----------------------------------------------------------

  /** `after` has the sizes for the paths, and is as before for every other. */
  ghost predicate TakesSizes(before: map<Path, nat>, after: map<Path, nat>, paths: seq<Path>, sizes: Path -> nat) {
    && (forall p | p in paths :: p in after && after[p] == sizes(p))
    && forall p | p !in paths :: (p in after <==> p in before) && (p in before ==> after[p] == before[p])
  }

  class Job {
    const table: TableName
    var firedAt: int
    var baseline: map<Path, nat>
    var seen: map<Path, nat>
    var firstGrowth: Option<int>
    var lastGrowth: Option<int>
    var status: Status

    function State(): JobState
      reads this
    {
      JobState(table, firedAt, baseline, seen, firstGrowth, lastGrowth, status)
    }

    constructor (table: TableName)
      ensures State() == JobState(table, 0, map[], map[], None, None, Pending)
    {
      this.table := table;
      firedAt, baseline, seen, firstGrowth, lastGrowth, status := 0, map[], map[], None, None, Pending;
    }

    /** Takes the baselines just before the request is fired. */
    method Fire(paths: seq<Path>, sizes: Path -> nat, now: int, accepted: bool)
      modifies this
      ensures firedAt == now && status == if accepted then old(status) else FireFailed
      ensures firstGrowth == old(firstGrowth) && lastGrowth == old(lastGrowth)
      ensures TakesSizes(old(baseline), baseline, paths, sizes) && TakesSizes(old(seen), seen, paths, sizes)
      ensures forall p | p in paths :: State().Level(p) == sizes(p)
    {
      for i := 0 to |paths|
        invariant firstGrowth == old(firstGrowth) && lastGrowth == old(lastGrowth) && status == old(status)
        invariant TakesSizes(old(baseline), baseline, paths[..i], sizes)
        invariant TakesSizes(old(seen), seen, paths[..i], sizes)
      {
        var p := paths[i];
        assert paths[..i + 1] == paths[..i] + [p];
        baseline := baseline[p := sizes(p)];
        seen := seen[p := sizes(p)];
      }
      assert paths[..|paths|] == paths;
      firedAt := now;
      if !accepted {
        status := FireFailed;
      }
    }

    method LookAround(w: World, n: nat)
      modifies this
      ensures State() == LookAll(old(State()), w, n, w.paths(n, table))
    {
      hide LookAll;
      var ps, now := w.paths(n, table), w.clock(n);
      ghost var was := State();
      assert LookAll(was, w, n, ps[..0]) == was by { NoLooks(was, w, n, ps); }
      for i := 0 to |ps|
        invariant State() == LookAll(was, w, n, ps[..i])
      {
        var p := ps[i];
        OneMoreLook(was, w, n, ps, i);
        LookKeeps(was, w, n, ps[..i]);
        if p !in baseline {
          baseline := baseline[p := 0];
        }
        var size := w.size(n, table, p);
        if size > (if p in seen then seen[p] else baseline[p]) {
          seen := seen[p := size];
          if firstGrowth == None {
            firstGrowth := Some(now);
          }
          lastGrowth := Some(now);
        }
      }
      assert ps[..|ps|] == ps;
    }

    method Poll(w: World, n: nat, limits: Limits)
      modifies this
      ensures State() == Round(old(State()), w, limits, n)
    {
      if status == Pending {
        var now := w.clock(n);
        LookKeeps(State(), w, n, w.paths(n, table));
        LookAround(w, n);
        if lastGrowth.Some? && now - lastGrowth.value >= limits.quiet {
          status := Delivered;
        } else if firstGrowth == None && now - firedAt >= limits.firstTimeout {
          status := TimedOut;
        }
      }
    }

    method StopIfPending()
      modifies this
      ensures State() == Stop(old(State()))
    {
      if status == Pending {
        status := if firstGrowth == None then TimedOut else Delivered;
      }
    }
  }

  lemma {:induction false} LookKeeps(s: JobState, w: World, n: nat, ps: seq<Path>)
    ensures var t := LookAll(s, w, n, ps);
            t.table == s.table && t.firedAt == s.firedAt && t.status == s.status
  {
    if ps != [] {
      LookKeeps(s, w, n, ps[..|ps| - 1]);
    }
  }

  ghost predicate ClockAdvances(w: World, started: int, limits: Limits) {
    && limits.poll > 0
    && started <= w.clock(0)
    && forall n: nat, m: nat | m == n + 1 :: w.clock(n) + limits.poll <= w.clock(m)
  }

  /** Returns after `rounds` rounds; each job is where its own rounds left it, and if the cap was
      reached, stopped there. */
  method Watch(w: World, jobs: seq<Job>, limits: Limits, started: int)
    returns (ghost rounds: nat, ghost capped: bool)
    requires ClockAdvances(w, started, limits)
    requires forall i, j | 0 <= i < j < |jobs| :: jobs[i] != jobs[j]
    modifies jobs
    ensures forall j | j in jobs :: j.status != Pending
    ensures forall j | j in jobs ::
              var s := AfterRounds(old(j.State()), w, limits, rounds);
              j.State() == if capped then Stop(s) else s
    ensures capped ==> rounds > 0 && w.clock(rounds - 1) - started > limits.maxWait
    ensures forall m: nat | m < (if capped then rounds - 1 else rounds) :: w.clock(m) - started <= limits.maxWait
  {
    hide Round;
    rounds, capped := 0, false;
    var n := 0;
    while true
      invariant n == rounds && !capped
      invariant forall m: nat | m < n :: w.clock(m) - started <= limits.maxWait
      invariant forall j | j in jobs :: j.State() == AfterRounds(old(j.State()), w, limits, n)
      decreases started + limits.maxWait - w.clock(n)
    {
      if forall i | 0 <= i < |jobs| :: jobs[i].status != Pending {
        return;
      }
      var now := w.clock(n);
      PollAll(w, jobs, limits, n);
      n := n + 1;
      rounds := n;
      if now - started > limits.maxWait {
        StopAll(jobs);
        capped := true;
        return;
      }
    }
  }

  method PollAll(w: World, jobs: seq<Job>, limits: Limits, n: nat)
    requires forall i, j | 0 <= i < j < |jobs| :: jobs[i] != jobs[j]
    modifies jobs
    ensures forall j | j in jobs :: j.State() == Round(old(j.State()), w, limits, n)
  {
    hide Round;
    for i := 0 to |jobs|
      invariant forall k | 0 <= k < i :: jobs[k].State() == Round(old(jobs[k].State()), w, limits, n)
      invariant forall k | i <= k < |jobs| :: jobs[k].State() == old(jobs[k].State())
    {
      jobs[i].Poll(w, n, limits);
    }
  }

  method StopAll(jobs: seq<Job>)
    requires forall i, j | 0 <= i < j < |jobs| :: jobs[i] != jobs[j]
    modifies jobs
    ensures forall j | j in jobs :: j.State() == Stop(old(j.State()))
  {
    hide Stop;
    for i := 0 to |jobs|
      invariant forall k | 0 <= k < i :: jobs[k].State() == Stop(old(jobs[k].State()))
      invariant forall k | i <= k < |jobs| :: jobs[k].State() == old(jobs[k].State())
    {
      jobs[i].StopIfPending();
    }
  }

  // --- what one job's rounds say --------------------------------------------------------

  /** In round `n` the job, still pending, finds a file above its level on entry. */
  ghost predicate GrowthSeen(s: JobState, w: World, limits: Limits, n: nat) {
    AfterRounds(s, w, limits, n).status == Pending &&
    exists p :: p in w.paths(n, s.table) && w.size(n, s.table, p) > s.Level(p)
  }

  /** The largest size of `p` among the looks `ps` of round `n`, at least `least`. */
  function Highest(w: World, table: TableName, n: nat, ps: seq<Path>, p: Path, least: nat): nat {
    if ps == [] then least
    else
      var h := Highest(w, table, n, ps[..|ps| - 1], p, least);
      if ps[|ps| - 1] == p && w.size(n, table, p) > h then w.size(n, table, p) else h
  }

  /** The running maximum of `p` over the first `n` rounds in which the job was pending. */
  function RunningMaximum(s: JobState, w: World, limits: Limits, n: nat, p: Path): nat {
    if n == 0 then s.Level(p)
    else
      var m := RunningMaximum(s, w, limits, n - 1, p);
      if AfterRounds(s, w, limits, n - 1).status != Pending then m
      else Highest(w, s.table, n - 1, w.paths(n - 1, s.table), p, m)
  }

  lemma {:induction false} LookAllIsHighest(s: JobState, w: World, n: nat, ps: seq<Path>, p: Path)
    ensures LookAll(s, w, n, ps).Level(p) == Highest(w, s.table, n, ps, p, s.Level(p))
  {
    LookKeeps(s, w, n, ps);
    if ps != [] {
      LookKeeps(s, w, n, ps[..|ps| - 1]);
      LookAllIsHighest(s, w, n, ps[..|ps| - 1], p);
    }
  }

  lemma {:induction false} RoundsKeep(s: JobState, w: World, limits: Limits, n: nat)
    ensures var t := AfterRounds(s, w, limits, n); t.table == s.table && t.firedAt == s.firedAt
  {
    if n > 0 {
      RoundsKeep(s, w, limits, n - 1);
      var t := AfterRounds(s, w, limits, n - 1);
      LookKeeps(t, w, n - 1, w.paths(n - 1, t.table));
    }
  }

  lemma SettleKeepsLevel(s: JobState, now: int, limits: Limits, p: Path)
    ensures Settle(s, now, limits).Level(p) == s.Level(p) && Stop(s).Level(p) == s.Level(p)
  {
  }

  /** What is recorded for a path is the running maximum of what was seen, from its level on entry. */
  lemma {:induction false} LevelIsRunningMaximum(s: JobState, w: World, limits: Limits, n: nat, p: Path)
    ensures AfterRounds(s, w, limits, n).Level(p) == RunningMaximum(s, w, limits, n, p)
    ensures Stop(AfterRounds(s, w, limits, n)).Level(p) == RunningMaximum(s, w, limits, n, p)
  {
    hide LookAll, Highest, Settle, Stop;
    SettleKeepsLevel(AfterRounds(s, w, limits, n), 0, limits, p);
    if n > 0 {
      LevelIsRunningMaximum(s, w, limits, n - 1, p);
      RoundsKeep(s, w, limits, n - 1);
      var t := AfterRounds(s, w, limits, n - 1);
      var ps := w.paths(n - 1, t.table);
      LookAllIsHighest(t, w, n - 1, ps, p);
      SettleKeepsLevel(LookAll(t, w, n - 1, ps), w.clock(n - 1), limits, p);
    }
  }

  /** The growth of `p` that the looks `ps` of round `n` report, starting from `level`. */
  function GrowthIn(w: World, table: TableName, n: nat, ps: seq<Path>, p: Path, level: nat): nat {
    if ps == [] then 0
    else
      var front := ps[..|ps| - 1];
      var before := Highest(w, table, n, front, p, level);
      var size := w.size(n, table, p);
      GrowthIn(w, table, n, front, p, level) + if ps[|ps| - 1] == p && size > before then size - before else 0
  }

  function ReportedGrowth(s: JobState, w: World, limits: Limits, n: nat, p: Path): nat {
    if n == 0 then 0
    else
      var t := AfterRounds(s, w, limits, n - 1);
      ReportedGrowth(s, w, limits, n - 1, p) +
      if t.status != Pending then 0 else GrowthIn(w, t.table, n - 1, w.paths(n - 1, t.table), p, t.Level(p))
  }

  lemma {:induction false} GrowthInTelescopes(w: World, table: TableName, n: nat, ps: seq<Path>, p: Path, level: nat)
    ensures level + GrowthIn(w, table, n, ps, p, level) == Highest(w, table, n, ps, p, level)
  {
    if ps != [] {
      GrowthInTelescopes(w, table, n, ps[..|ps| - 1], p, level);
    }
  }

  /** The growth reported for a path adds up to what is recorded less its level on entry. */
  lemma {:induction false} GrowthTelescopes(s: JobState, w: World, limits: Limits, n: nat, p: Path)
    ensures s.Level(p) + ReportedGrowth(s, w, limits, n, p) == AfterRounds(s, w, limits, n).Level(p)
  {
    hide LookAll, Highest, GrowthIn, Settle;
    if n > 0 {
      GrowthTelescopes(s, w, limits, n - 1, p);
      var t := AfterRounds(s, w, limits, n - 1);
      var ps := w.paths(n - 1, t.table);
      LookAllIsHighest(t, w, n - 1, ps, p);
      GrowthInTelescopes(w, t.table, n - 1, ps, p, t.Level(p));
      SettleKeepsLevel(LookAll(t, w, n - 1, ps), w.clock(n - 1), limits, p);
    }
  }

  // --- outcomes ------------------------------------------------------------------------

  ghost predicate Grows(s: JobState, w: World, n: nat, ps: seq<Path>) {
    exists p :: p in ps && w.size(n, s.table, p) > s.Level(p)
  }

  lemma {:induction false} LookAllGrowth(s: JobState, w: World, n: nat, ps: seq<Path>)
    ensures var t := LookAll(s, w, n, ps);
            if Grows(s, w, n, ps)
            then t.lastGrowth == Some(w.clock(n))
                 && t.firstGrowth == (if s.firstGrowth.Some? then s.firstGrowth else Some(w.clock(n)))
            else t.firstGrowth == s.firstGrowth && t.lastGrowth == s.lastGrowth && forall p :: t.Level(p) == s.Level(p)
  {
    if ps != [] {
      var front, last := ps[..|ps| - 1], ps[|ps| - 1];
      LookAllGrowth(s, w, n, front);
      LookKeeps(s, w, n, front);
      LookAllIsHighest(s, w, n, front, last);
      HighestAtLeast(w, s.table, n, front, last, s.Level(last));
      assert ps == front + [last];
      if Grows(s, w, n, front) {
        var p :| p in front && w.size(n, s.table, p) > s.Level(p);
        assert p in ps;
      }
    }
  }

  lemma {:induction false} HighestAtLeast(w: World, table: TableName, n: nat, ps: seq<Path>, p: Path, least: nat)
    ensures Highest(w, table, n, ps, p, least) >= least
  {
    if ps != [] {
      HighestAtLeast(w, table, n, ps[..|ps| - 1], p, least);
    }
  }

  /** Growth is recorded exactly when some round, with the job still pending, found a file above its
      level on entry, and the status then follows. */
  lemma {:induction false} GrowthRecorded(s: JobState, w: World, limits: Limits, n: nat)
    requires s.status == Pending && s.firstGrowth == None && s.lastGrowth == None
    ensures var t := AfterRounds(s, w, limits, n);
            && (t.firstGrowth.Some? <==> exists m: nat :: m < n && GrowthSeen(s, w, limits, m))
            && (t.firstGrowth.Some? <==> t.lastGrowth.Some?)
            && (t.firstGrowth == None ==> forall p :: t.Level(p) == s.Level(p))
            && (t.status == Delivered ==> t.firstGrowth.Some?)
            && (t.status == TimedOut ==> t.firstGrowth == None)
            && t.status in {Pending, Delivered, TimedOut}
  {
    hide LookAll, Grows, GrowthSeen;
    if n > 0 {
      GrowthRecorded(s, w, limits, n - 1);
      RoundsKeep(s, w, limits, n - 1);
      var t := AfterRounds(s, w, limits, n - 1);
      SeenIsGrowth(s, w, limits, n - 1);
      if t.status == Pending {
        var ps := w.paths(n - 1, t.table);
        LookAllGrowth(t, w, n - 1, ps);
        LookKeeps(t, w, n - 1, ps);
        var looked := LookAll(t, w, n - 1, ps);
        var settled := Settle(looked, w.clock(n - 1), limits);
        forall p ensures settled.Level(p) == looked.Level(p) {
          SettleKeepsLevel(looked, w.clock(n - 1), limits, p);
        }
      }
    }
  }

  /** While nothing has grown, growth above the entry level is growth above the recorded level. */
  lemma SeenIsGrowth(s: JobState, w: World, limits: Limits, n: nat)
    ensures var t := AfterRounds(s, w, limits, n);
            && (GrowthSeen(s, w, limits, n) ==> t.status == Pending)
            && (t.status == Pending && t.table == s.table && (forall p :: t.Level(p) == s.Level(p)) ==>
                  (GrowthSeen(s, w, limits, n) <==> Grows(t, w, n, w.paths(n, t.table))))
  {
    hide AfterRounds;
  }

  /** Every job ends delivered exactly when growth above its level on entry was seen while it was
      pending, and timed out otherwise, whether or not the cap was reached. */
  lemma DeliveredIffGrowthSeen(s: JobState, w: World, limits: Limits, n: nat, capped: bool)
    requires s.status == Pending && s.firstGrowth == None && s.lastGrowth == None
    requires capped || AfterRounds(s, w, limits, n).status != Pending
    ensures var t := AfterRounds(s, w, limits, n);
            var end := if capped then Stop(t) else t;
            && (end.status == Delivered <==> exists m: nat :: m < n && GrowthSeen(s, w, limits, m))
            && (end.status == TimedOut <==> forall m: nat | m < n :: !GrowthSeen(s, w, limits, m))
  {
    GrowthRecorded(s, w, limits, n);
  }

  /** In round `m` the job, still pending, finds a file above the level recorded so far. */
  ghost predicate GrewIn(s: JobState, w: World, limits: Limits, m: nat) {
    var t := AfterRounds(s, w, limits, m);
    t.status == Pending && Grows(t, w, m, w.paths(m, t.table))
  }

  lemma {:induction false} ClockIsMonotone(w: World, started: int, limits: Limits, m: nat, n: nat)
    requires ClockAdvances(w, started, limits) && m <= n
    ensures w.clock(m) <= w.clock(n)
  {
    if m < n {
      ClockIsMonotone(w, started, limits, m, n - 1);
      var k := n - 1;
      assert w.clock(k) + limits.poll <= w.clock(n);
    }
  }

  /** What one more round does to the time of the last growth. */
  lemma RoundGrowth(s: JobState, w: World, limits: Limits, n: nat)
    requires n > 0
    ensures AfterRounds(s, w, limits, n).lastGrowth ==
            if GrewIn(s, w, limits, n - 1) then Some(w.clock(n - 1)) else AfterRounds(s, w, limits, n - 1).lastGrowth
  {
    hide LookAll, Grows;
    var t := AfterRounds(s, w, limits, n - 1);
    LookAllGrowth(t, w, n - 1, w.paths(n - 1, t.table));
  }

  lemma {:induction false} LastGrowthIsLatest(s: JobState, w: World, started: int, limits: Limits, n: nat)
    requires ClockAdvances(w, started, limits) && s.lastGrowth == None
    ensures var t := AfterRounds(s, w, limits, n);
            && (forall m: nat | m < n && GrewIn(s, w, limits, m) :: t.lastGrowth.Some? && w.clock(m) <= t.lastGrowth.value)
            && (t.lastGrowth.Some? ==> exists m: nat :: m < n && GrewIn(s, w, limits, m) && t.lastGrowth == Some(w.clock(m)))
  {
    hide GrewIn, Round;
    if n > 0 {
      LastGrowthIsLatest(s, w, started, limits, n - 1);
      hide AfterRounds;
      RoundGrowth(s, w, limits, n);
      forall m: nat | m < n ensures w.clock(m) <= w.clock(n - 1) {
        ClockIsMonotone(w, started, limits, m, n - 1);
      }
    }
  }

  /** The first growth recorded is the earliest there was. */
  lemma {:induction false} FirstGrowthIsEarliest(s: JobState, w: World, started: int, limits: Limits, n: nat)
    requires ClockAdvances(w, started, limits) && s.firstGrowth == None
    ensures var t := AfterRounds(s, w, limits, n);
            && (forall m: nat | m < n && GrewIn(s, w, limits, m) :: t.firstGrowth.Some? && t.firstGrowth.value <= w.clock(m))
            && (t.firstGrowth.Some? ==> exists m: nat :: m < n && GrewIn(s, w, limits, m) && t.firstGrowth == Some(w.clock(m)))
  {
    hide GrewIn, Round;
    if n > 0 {
      FirstGrowthIsEarliest(s, w, started, limits, n - 1);
      hide AfterRounds;
      RoundFirstGrowth(s, w, limits, n);
      forall m: nat | m < n ensures w.clock(m) <= w.clock(n - 1) {
        ClockIsMonotone(w, started, limits, m, n - 1);
      }
    }
  }

  lemma RoundFirstGrowth(s: JobState, w: World, limits: Limits, n: nat)
    requires n > 0
    ensures AfterRounds(s, w, limits, n).firstGrowth ==
            if GrewIn(s, w, limits, n - 1) && AfterRounds(s, w, limits, n - 1).firstGrowth == None
            then Some(w.clock(n - 1)) else AfterRounds(s, w, limits, n - 1).firstGrowth
  {
    hide LookAll, Grows;
    var t := AfterRounds(s, w, limits, n - 1);
    LookAllGrowth(t, w, n - 1, w.paths(n - 1, t.table));
  }

  /** A job that is settled in round `n` as delivered saw growth, and none within the last `quiet`
      seconds; one settled as timed out saw none at all for `firstTimeout` seconds after it was fired. */
  lemma SettledWhenDue(s: JobState, w: World, started: int, limits: Limits, n: nat)
    requires ClockAdvances(w, started, limits)
    requires s.status == Pending && s.firstGrowth == None && s.lastGrowth == None
    requires AfterRounds(s, w, limits, n).status == Pending
    ensures var t := AfterRounds(s, w, limits, n + 1);
            && (t.status == Delivered ==>
                  && (exists m: nat :: m <= n && GrewIn(s, w, limits, m))
                  && forall m: nat | m <= n && GrewIn(s, w, limits, m) :: w.clock(n) - w.clock(m) >= limits.quiet)
            && (t.status == TimedOut ==>
                  && w.clock(n) - s.firedAt >= limits.firstTimeout
                  && forall m: nat | m <= n :: !GrowthSeen(s, w, limits, m))
            && (t.status == Pending && t.firstGrowth == None ==> w.clock(n) - s.firedAt < limits.firstTimeout)
            && (t.status == Pending && t.lastGrowth.Some? ==> w.clock(n) - t.lastGrowth.value < limits.quiet)
  {
    hide LookAll, Grows, GrowthSeen, GrewIn;
    LastGrowthIsLatest(s, w, started, limits, n + 1);
    GrowthRecorded(s, w, limits, n + 1);
    RoundsKeep(s, w, limits, n);
    var t := AfterRounds(s, w, limits, n);
    LookKeeps(t, w, n, w.paths(n, t.table));
  }
}
