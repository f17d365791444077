/** The OpenMP runtime's pool of processors: teams fetch idle ones and give them back. Each critical section
    on the global record is one step; a bit mask is modelled as the set of its bits. */
module TeamPool {

  /** A team descriptor: the processors by thread number, master first, and the thread number of each. */
  datatype Team = Team(master: nat, nthreads: nat, mask: set<nat>, procIds: seq<nat>, threadIds: map<nat, nat>)

  /** Processors 1.. of the machine with a clear bit, from i on. */
  function Clear(pool: set<nat>, i: nat, nprocs: nat): nat
    decreases nprocs - i
  {
    if i >= nprocs then 0 else (if i in pool then 0 else 1) + Clear(pool, i + 1, nprocs)
  }

  /** The first n processors with a clear bit, from i on. */
  function Fetch(pool: set<nat>, i: nat, nprocs: nat, n: nat): seq<nat>
    decreases nprocs - i
  {
    if i >= nprocs || n == 0 then []
    else if i in pool then Fetch(pool, i + 1, nprocs, n)
    else [i] + Fetch(pool, i + 1, nprocs, n - 1)
  }

  function Resolve(idle: int, specified: nat): int {
    if specified != 0 && specified < idle + 1 then specified else idle + 1
  }

  function Members(s: seq<nat>): set<nat> { set x | x in s }

  /** Slaves of a team: everyone but its master. */
  function Slaves(t: Team): set<nat> { t.mask - {t.master} }

  // ----- the search -----

  lemma {:induction false} FetchIsExact(pool: set<nat>, i: nat, nprocs: nat, n: nat)
    requires n <= Clear(pool, i, nprocs)
    ensures var f := Fetch(pool, i, nprocs, n);
      && |f| == n
      && (forall k :: 0 <= k < |f| ==> i <= f[k] < nprocs && f[k] !in pool)
      && (forall j, k :: 0 <= j < k < |f| ==> f[j] < f[k])
    decreases nprocs - i
  {
    if i < nprocs && n > 0 { FetchIsExact(pool, i + 1, nprocs, if i in pool then n else n - 1); }
  }

  /** The search takes the first idle processors: whichever it passes over has a higher number. */
  lemma {:induction false} FetchTakesFirst(pool: set<nat>, i: nat, nprocs: nat, n: nat, p: nat)
    requires i <= p < nprocs && p !in pool && p !in Fetch(pool, i, nprocs, n)
    ensures forall q :: q in Fetch(pool, i, nprocs, n) ==> q < p
    decreases nprocs - i
  {
    if n > 0 {
      if i < p || i in pool { FetchTakesFirst(pool, i + 1, nprocs, if i in pool then n else n - 1, p); }
    }
  }

  function Between(s: set<nat>, lo: nat, hi: nat): set<nat> { set x | x in s && lo <= x < hi }

  /** Setting bits that were clear lowers the count by as many. */
  lemma {:induction false} ClearAfter(pool: set<nat>, more: set<nat>, i: nat, nprocs: nat)
    requires more !! pool
    ensures Clear(pool, i, nprocs) == Clear(pool + more, i, nprocs) + |Between(more, i, nprocs)|
    decreases nprocs - i
  {
    var here := Between(more, i, nprocs);
    if i < nprocs {
      ClearAfter(pool, more, i + 1, nprocs);
      var rest := Between(more, i + 1, nprocs);
      if i in more { assert here == rest + {i}; } else { assert here == rest; }
    } else {
      assert here == {};
    }
  }

  /** The recursive count is the number of processors with a clear bit. */
  lemma {:induction false} ClearCounts(pool: set<nat>, i: nat, nprocs: nat)
    ensures Clear(pool, i, nprocs) == |set p | i <= p < nprocs && p !in pool|
    decreases nprocs - i
  {
    var here := set p | i <= p < nprocs && p !in pool;
    if i < nprocs {
      ClearCounts(pool, i + 1, nprocs);
      var rest := set p | i + 1 <= p < nprocs && p !in pool;
      if i in pool { assert here == rest; } else { assert here == rest + {i}; }
    } else {
      assert here == {};
    }
  }

  lemma {:induction false} DistinctCount(s: seq<nat>)
    requires forall j, k :: 0 <= j < k < |s| ==> s[j] != s[k]
    ensures |Members(s)| == |s|
  {
    if s == [] {
      assert Members(s) == {};
    } else {
      var n := |s| - 1;
      DistinctCount(s[..n]);
      assert Members(s) == Members(s[..n]) + {s[n]};
      assert s[n] !in s[..n];
    }
  }

  // ----- teams -----

  /** Thread numbers and processors correspond one to one on the team. */
  ghost predicate TeamOk(t: Team, nprocs: nat) {
    && |t.procIds| == t.nthreads >= 1 && t.procIds[0] == t.master
    && t.mask == Members(t.procIds) && t.threadIds.Keys == t.mask
    && (forall k :: 0 <= k < t.nthreads ==> t.threadIds[t.procIds[k]] == k)
    && (forall p :: p in t.mask ==> t.threadIds[p] < t.nthreads && t.procIds[t.threadIds[p]] == p)
    && forall p :: p in Slaves(t) ==> 1 <= p < nprocs
  }

  function ThreadIds(procIds: seq<nat>): map<nat, nat>
  {
    if |procIds| == 0 then map[] else ThreadIds(procIds[..|procIds|-1])[procIds[|procIds|-1] := |procIds| - 1]
  }

  /** The team a processor gets together. */
  function NewTeam(pool: set<nat>, master: nat, nthreads: nat, nprocs: nat): Team
    requires nthreads >= 1
  {
    var procIds := [master] + Fetch(pool, 1, nprocs, nthreads - 1);
    Team(master, nthreads, Members(procIds), procIds, ThreadIds(procIds))
  }

  lemma {:induction false} ThreadIdsInverse(procIds: seq<nat>)
    requires forall j, k :: 0 <= j < k < |procIds| ==> procIds[j] != procIds[k]
    ensures ThreadIds(procIds).Keys == Members(procIds)
    ensures forall k :: 0 <= k < |procIds| ==> ThreadIds(procIds)[procIds[k]] == k
  {
    var n := |procIds|;
    if n > 0 {
      ThreadIdsInverse(procIds[..n-1]);
      assert Members(procIds) == Members(procIds[..n-1]) + {procIds[n-1]};
      forall k | 0 <= k < n ensures ThreadIds(procIds)[procIds[k]] == k {
        if k < n - 1 { assert procIds[..n-1][k] == procIds[k]; }
      }
    }
  }

  /** The master was busy and the others idle, so the master is not among its slaves. */
  lemma SlavesAreFetched(t: Team, f: seq<nat>)
    requires t.mask == Members([t.master] + f) && t.master !in f
    ensures Slaves(t) == Members(f)
  {
    assert forall x :: x in Members([t.master] + f) <==> x == t.master || x in Members(f);
  }

  /** A new team has exactly the size resolved, and its slaves were idle. */
  lemma NewTeamIsOk(pool: set<nat>, master: nat, nthreads: nat, nprocs: nat)
    requires nthreads >= 1 && nthreads - 1 <= Clear(pool, 1, nprocs) && master in pool
    ensures var t := NewTeam(pool, master, nthreads, nprocs);
      TeamOk(t, nprocs) && Slaves(t) !! pool && |Slaves(t)| == nthreads - 1 && t.nthreads == nthreads
      && Slaves(t) == Members(Fetch(pool, 1, nprocs, nthreads - 1))
  {
    hide Fetch, Clear, ThreadIds, Slaves, TeamOk;
    var f := Fetch(pool, 1, nprocs, nthreads - 1);
    var t := NewTeam(pool, master, nthreads, nprocs);
    FetchIsExact(pool, 1, nprocs, nthreads - 1);
    SlavesAreFetched(t, f);
    DistinctCount(f);
    FilledIn(t, f, nprocs);
  }

  lemma FilledIn(t: Team, f: seq<nat>, nprocs: nat)
    requires t.procIds == [t.master] + f && t.nthreads == |f| + 1
    requires t.mask == Members(t.procIds) && t.threadIds == ThreadIds(t.procIds)
    requires Slaves(t) == Members(f) && t.master !in f
    requires forall k :: 0 <= k < |f| ==> 1 <= f[k] < nprocs
    requires forall j, k :: 0 <= j < k < |f| ==> f[j] != f[k]
    ensures TeamOk(t, nprocs)
  {
    hide ThreadIds, Slaves;
    ThreadIdsInverse(t.procIds);
  }

  // ----- the whole machine -----

  /** The global record and the live teams. */
  datatype Machine = Machine(nprocs: nat, idle: int, pool: set<nat>, live: seq<Team>)

  function Start(m: Machine, master: nat, specified: nat): Machine
    requires m.idle >= 0
  {
    var nthreads := Resolve(m.idle, specified);
    var t := NewTeam(m.pool, master, nthreads, m.nprocs);
    m.(idle := m.idle - (nthreads - 1), pool := m.pool + Slaves(t), live := m.live + [t])
  }

  /** The end of the k-th live team: all its bits but the master's are cleared. */
  function End(m: Machine, k: nat): Machine
    requires k < |m.live| && m.live[k].nthreads >= 1
  {
    var t := m.live[k];
    m.(idle := m.idle + (t.nthreads - 1), pool := m.pool - Slaves(t), live := m.live[..k] + m.live[k+1..])
  }

  /** The slaves of all live teams. */
  ghost function AllSlaves(live: seq<Team>): set<nat> {
    set k, p | 0 <= k < |live| && p in Slaves(live[k]) :: p
  }

  ghost predicate MemberOk(t: Team, nprocs: nat) {
    TeamOk(t, nprocs) && t.master !in Slaves(t) && |Slaves(t)| == t.nthreads - 1
  }

  /** Every live team is in order and no processor serves two of them. */
  ghost predicate LiveOk(live: seq<Team>, nprocs: nat) {
    && (forall k :: 0 <= k < |live| ==> MemberOk(live[k], nprocs))
    && forall j, k :: 0 <= j < k < |live| ==> Slaves(live[j]) !! Slaves(live[k])
  }

  /** The idle count is the number of clear bits, and the pool is processor 0 plus the live teams' slaves,
      none of which serves two teams. */
  ghost predicate Accounted(m: Machine) {
    && 1 <= m.nprocs <= 32
    && m.idle == Clear(m.pool, 1, m.nprocs)
    && m.pool == {0} + AllSlaves(m.live)
    && LiveOk(m.live, m.nprocs)
  }

  lemma LiveGrows(live: seq<Team>, t: Team, nprocs: nat)
    requires LiveOk(live, nprocs) && MemberOk(t, nprocs) && Slaves(t) !! AllSlaves(live)
    ensures LiveOk(live + [t], nprocs) && AllSlaves(live + [t]) == AllSlaves(live) + Slaves(t)
  {
    hide MemberOk, Slaves;
    var live' := live + [t];
    forall k | 0 <= k < |live| ensures Slaves(live[k]) !! Slaves(t) {
      assert forall p :: p in Slaves(live[k]) ==> p in AllSlaves(live);
    }
    forall p | p in AllSlaves(live) ensures p in AllSlaves(live') {
      var k :| 0 <= k < |live| && p in Slaves(live[k]);
      assert live'[k] == live[k];
    }
    forall p | p in Slaves(t) ensures p in AllSlaves(live') { assert live'[|live|] == t; }
  }

  lemma LiveShrinks(live: seq<Team>, k: nat, nprocs: nat)
    requires LiveOk(live, nprocs) && k < |live|
    ensures var live' := live[..k] + live[k+1..];
      LiveOk(live', nprocs) && AllSlaves(live') == AllSlaves(live) - Slaves(live[k])
    ensures Slaves(live[k]) <= AllSlaves(live) && MemberOk(live[k], nprocs)
  {
    hide MemberOk, Slaves;
    var live' := live[..k] + live[k+1..];
    forall p | p in AllSlaves(live) && p !in Slaves(live[k]) ensures p in AllSlaves(live') {
      var j :| 0 <= j < |live| && p in Slaves(live[j]);
      assert live'[if j < k then j else j - 1] == live[j];
    }
    forall p | p in AllSlaves(live') ensures p in AllSlaves(live) && p !in Slaves(live[k]) {
      var i :| 0 <= i < |live'| && p in Slaves(live'[i]);
      assert live'[i] == live[if i < k then i else i + 1];
    }
  }

  lemma InRangeCount(s: set<nat>, nprocs: nat)
    requires forall p :: p in s ==> 1 <= p < nprocs
    ensures Between(s, 1, nprocs) == s
  {}

  /** Any processor at work may start a team, whatever the number of threads it asks for. */
  lemma StartAccounted(m: Machine, master: nat, specified: nat)
    requires Accounted(m) && master in m.pool
    ensures Accounted(Start(m, master, specified))
    ensures var t := NewTeam(m.pool, master, Resolve(m.idle, specified), m.nprocs);
      Slaves(t) !! m.pool && |Slaves(t)| == Resolve(m.idle, specified) - 1 && TeamOk(t, m.nprocs)
  {
    hide Clear, Between, Fetch, NewTeam, TeamOk, Slaves, LiveOk, AllSlaves;
    var n := Resolve(m.idle, specified);
    var t := NewTeam(m.pool, master, n, m.nprocs);
    NewTeamIsOk(m.pool, master, n, m.nprocs);
    SlavesInRange(t, m.nprocs);
    ClearAfter(m.pool, Slaves(t), 1, m.nprocs);
    InRangeCount(Slaves(t), m.nprocs);
    LiveGrows(m.live, t, m.nprocs);
  }

  lemma PoolSplits(pool: set<nat>, s: set<nat>, all: set<nat>)
    requires pool == {0} + all && s <= all && 0 !in s
    ensures pool == (pool - s) + s && pool - s == {0} + (all - s) && s !! (pool - s)
  {}

  /** Ending a team, in any order, gives back its slaves and nobody else's. */
  lemma EndAccounted(m: Machine, k: nat)
    requires Accounted(m) && k < |m.live| && m.live[k].nthreads >= 1
    ensures Accounted(End(m, k))
  {
    var t := m.live[k];
    var m' := End(m, k);
    hide Clear, Between, TeamOk, Slaves, LiveOk, AllSlaves;
    LiveShrinks(m.live, k, m.nprocs);
    SlavesInRange(t, m.nprocs);
    PoolSplits(m.pool, Slaves(t), AllSlaves(m.live));
    ClearAfter(m'.pool, Slaves(t), 1, m.nprocs);
    InRangeCount(Slaves(t), m.nprocs);
  }

  lemma SlavesInRange(t: Team, nprocs: nat)
    requires TeamOk(t, nprocs)
    ensures 0 !in Slaves(t) && t.master !in Slaves(t) && forall p :: p in Slaves(t) ==> 1 <= p < nprocs
  {}

  // ----- runs -----

  ghost predicate Step(m: Machine, m': Machine) {
    || (m.idle >= 0 && exists master, specified :: master in m.pool && m' == Start(m, master, specified))
    || (exists k :: 0 <= k < |m.live| && m.live[k].nthreads >= 1 && m' == End(m, k))
  }

  /** The runtime's start-up state, and any interleaving of starts and ends from there. */
  ghost predicate IsRun(run: seq<Machine>) {
    && |run| > 0 && 1 <= run[0].nprocs <= 32
    && run[0] == Machine(run[0].nprocs, run[0].nprocs - 1, {0}, [])
    && forall i :: 0 <= i < |run| - 1 ==> Step(run[i], run[i+1])
  }

  lemma {:induction false} AllClear(i: nat, nprocs: nat)
    requires 1 <= i <= nprocs
    ensures Clear({0}, i, nprocs) == nprocs - i
    decreases nprocs - i
  {
    if i < nprocs { AllClear(i + 1, nprocs); }
  }

  /** In every interleaving of team starts and ends the accounts stay exact. */
  lemma {:induction false} PoolStaysAccounted(run: seq<Machine>, i: nat)
    requires IsRun(run) && i < |run|
    ensures Accounted(run[i])
    decreases i
  {
    if i == 0 {
      AllClear(1, run[0].nprocs);
      assert AllSlaves([]) == {};
    } else {
      PoolStaysAccounted(run, i - 1);
      var m, m' := run[i-1], run[i-1+1];
      assert Step(m, m');
      hide Accounted, Start, End;
      if m.idle >= 0 && exists master, specified :: master in m.pool && m' == Start(m, master, specified) {
        var master, specified :| master in m.pool && m' == Start(m, master, specified);
        StartAccounted(m, master, specified);
      } else {
        var k :| 0 <= k < |m.live| && m.live[k].nthreads >= 1 && m' == End(m, k);
        EndAccounted(m, k);
      }
    }
  }

  /** The processors with a clear bit, but for the first. */
  ghost function IdleProcessors(m: Machine): set<nat> { set p | 1 <= p < m.nprocs && p !in m.pool }

  /** A team of n threads started with `idle` processors idle is as large as was asked for, or as large as it can
      be: never larger than asked, and smaller only if it took every idle processor. */
  ghost predicate SizedAsAsked(n: nat, specified: nat, idle: nat) {
    && 1 <= n <= idle + 1
    && (specified != 0 ==> n <= specified)
    && (specified == 0 || n < specified ==> n == idle + 1)
  }

  /** The slaves taken are idle, and no idle processor of lower number is passed over. */
  ghost predicate TakesLowest(idle: set<nat>, slaves: set<nat>) {
    slaves <= idle && forall p, q :: p in idle && p !in slaves && q in slaves ==> q < p
  }

  lemma LowestAreTaken(m: Machine, master: nat, nthreads: nat)
    requires Accounted(m) && master in m.pool && 1 <= nthreads <= m.idle + 1
    ensures TakesLowest(IdleProcessors(m), Slaves(NewTeam(m.pool, master, nthreads, m.nprocs)))
  {
    hide Clear, NewTeam, Slaves, LiveOk, AllSlaves, Fetch, TeamOk;
    var t := NewTeam(m.pool, master, nthreads, m.nprocs);
    NewTeamIsOk(m.pool, master, nthreads, m.nprocs);
    SlavesInRange(t, m.nprocs);
    forall p, q | p in IdleProcessors(m) && p !in Slaves(t) && q in Slaves(t) ensures q < p {
      FetchTakesFirst(m.pool, 1, m.nprocs, nthreads - 1, p);
    }
  }

  lemma IdleAreCounted(m: Machine)
    requires Accounted(m)
    ensures m.idle == |IdleProcessors(m)|
  {
    ClearCounts(m.pool, 1, m.nprocs);
    hide Clear, LiveOk, AllSlaves;
  }

  /** In every interleaving, whenever a team is started by a processor at work, it has the master and as many idle
      processors as were asked for, or all of them, those of lowest number first. */
  lemma TeamsAsAsked(run: seq<Machine>, i: nat, master: nat, specified: nat)
    requires IsRun(run) && i < |run| && master in run[i].pool
    ensures run[i].idle >= 0
    ensures var m, m' := run[i], Start(run[i], master, specified);
      && |m'.live| == |m.live| + 1 && m'.live[..|m.live|] == m.live
      && var t := m'.live[|m.live|];
        && t.master == master && |t.procIds| == t.nthreads && SizedAsAsked(t.nthreads, specified, |IdleProcessors(m)|)
        && TakesLowest(IdleProcessors(m), Slaves(t)) && |Slaves(t)| == t.nthreads - 1
        && m'.pool == m.pool + Slaves(t) && m'.idle == |IdleProcessors(m)| - (t.nthreads - 1)
  {
    hide IsRun, Accounted, Slaves, TakesLowest, IdleProcessors, Clear, Fetch;
    PoolStaysAccounted(run, i);
    var m := run[i];
    IdleAreCounted(m);
    StartAccounted(m, master, specified);
    LowestAreTaken(m, master, Resolve(m.idle, specified));
  }

  // ----- the program -----

  lemma FetchNext(pool: set<nat>, i: nat, nprocs: nat, n: nat)
    ensures n == 0 || i >= nprocs ==> Fetch(pool, i, nprocs, n) == []
    ensures n > 0 && i < nprocs && i in pool ==> Fetch(pool, i, nprocs, n) == Fetch(pool, i + 1, nprocs, n)
    ensures n > 0 && i < nprocs && i !in pool ==> Fetch(pool, i, nprocs, n) == [i] + Fetch(pool, i + 1, nprocs, n - 1)
  {}

  /** How far the search has come: the processors fetched, and as many left to fetch. */
  ghost predicate Searching(pool: set<nat>, nprocs: nat, nthreads: nat, i: nat, left: nat, slaves: seq<nat>) {
    && 1 <= i && left + |slaves| + 1 == nthreads
    && Fetch(pool, 1, nprocs, nthreads - 1) == slaves + Fetch(pool, i, nprocs, left)
    && forall k :: 0 <= k < |slaves| ==> slaves[k] < i
  }

  lemma SearchGoesOn(pool: set<nat>, nprocs: nat, nthreads: nat, i: nat, left: nat, slaves: seq<nat>)
    requires Searching(pool, nprocs, nthreads, i, left, slaves) && i < nprocs && left > 0
    ensures i in pool ==> Searching(pool, nprocs, nthreads, i + 1, left, slaves)
    ensures i !in pool ==> Searching(pool, nprocs, nthreads, i + 1, left - 1, slaves + [i])
    ensures i !in Members(slaves)
  {
    FetchNext(pool, i, nprocs, left);
    hide Fetch;
    if i !in pool {
      assert slaves + ([i] + Fetch(pool, i + 1, nprocs, left - 1)) == (slaves + [i]) + Fetch(pool, i + 1, nprocs, left - 1);
    }
  }

  lemma SearchEnds(pool: set<nat>, nprocs: nat, nthreads: nat, i: nat, left: nat, slaves: seq<nat>)
    requires Searching(pool, nprocs, nthreads, i, left, slaves) && (i >= nprocs || left == 0)
    requires nthreads - 1 <= Clear(pool, 1, nprocs)
    ensures left == 0 && slaves == Fetch(pool, 1, nprocs, nthreads - 1)
  {
    FetchNext(pool, i, nprocs, left);
    FetchIsExact(pool, 1, nprocs, nthreads - 1);
    hide Fetch, Clear;
  }

  lemma MembersGrow(s: seq<nat>, i: nat)
    ensures Members(s + [i]) == Members(s) + {i}
  {
    assert forall x :: x in s + [i] <==> x in s || x == i;
  }

  lemma ThreadIdsGrow(procIds: seq<nat>, i: nat)
    ensures ThreadIds(procIds + [i]) == ThreadIds(procIds)[i := |procIds|]
  {
    assert (procIds + [i])[..|procIds|] == procIds;
  }

  /** The descriptor's lists hold the master and the slaves fetched so far. */
  ghost predicate Filled(master: nat, slaves: seq<nat>, mask: set<nat>, procIds: seq<nat>, threadIds: map<nat, nat>) {
    procIds == [master] + slaves && mask == Members(procIds) && threadIds == ThreadIds(procIds)
  }

  /** One more slave in a team's lists. */
  lemma OneMore(master: nat, slaves: seq<nat>, i: nat, mask: set<nat>, procIds: seq<nat>, threadIds: map<nat, nat>)
    requires Filled(master, slaves, mask, procIds, threadIds)
    ensures Filled(master, slaves + [i], mask + {i}, procIds + [i], threadIds[i := |procIds|])
    ensures Members(slaves + [i]) == Members(slaves) + {i}
  {
    hide Members, ThreadIds;
    assert [master] + (slaves + [i]) == procIds + [i];
    MembersGrow(procIds, i);
    MembersGrow(slaves, i);
    ThreadIdsGrow(procIds, i);
  }

  lemma JustMaster(master: nat)
    ensures Filled(master, [], {master}, [master], map[master := 0]) && Members([]) == {}
  {
    assert [master] + [] == [master];
    assert [master][..0] == [];
  }

  lemma AllFilled(pool: set<nat>, master: nat, nthreads: nat, nprocs: nat, slaves: seq<nat>, t: Team)
    requires Filled(master, slaves, t.mask, t.procIds, t.threadIds) && t.master == master && t.nthreads == nthreads
    requires nthreads >= 1 && nthreads - 1 <= Clear(pool, 1, nprocs) && master in pool
    requires slaves == Fetch(pool, 1, nprocs, nthreads - 1)
    ensures t == NewTeam(pool, master, nthreads, nprocs) && Members(slaves) == Slaves(t)
  {
    hide Clear, Fetch, Members, ThreadIds, Slaves;
    NewTeamIsOk(pool, master, nthreads, nprocs);
  }

  /** The bits of 0xFFFF, whatever the number of processors. */
  const MAIN_MASK: set<nat> := {0, 1, 2, 3, 4, 5, 6, 7, 8, 9, 10, 11, 12, 13, 14, 15}

  /** The global record shared by all processors. */
  class GlobalInfos {
    const nprocs: nat
    var idleCores: int
    var threadPool: set<nat>

    constructor (nprocs: nat)
      requires 1 <= nprocs <= 32
      ensures this.nprocs == nprocs && idleCores == nprocs - 1 && threadPool == {0}
    {
      this.nprocs := nprocs;
      idleCores := nprocs - 1;
      threadPool := {0};
    }

    /** Take at most `specified` idle processors off the count (all of them if none is specified). */
    method ResolveNumThreads(specified: nat) returns (nthr: nat)
      requires idleCores >= 0
      modifies this`idleCores
      ensures SizedAsAsked(nthr, specified, old(idleCores)) && idleCores == old(idleCores) - (nthr - 1) >= 0
      ensures nthr == Resolve(old(idleCores), specified)
    {
      nthr := idleCores + 1;
      if specified != 0 && specified < nthr { nthr := specified; }
      idleCores := idleCores - (nthr - 1);
    }

    /** The main program's team, started once by processor 0: it lists every processor under its own number but
        takes none from the pool, and since it asks for one thread the accounts stay those of the start-up. */
    method MasterRegionStart(specified: nat) returns (team: Team)
      requires idleCores == nprocs - 1 >= 0
      modifies this`idleCores
      ensures team.nthreads == Resolve(old(idleCores), specified) && team.master == 0 && team.mask == MAIN_MASK
      ensures |team.procIds| == nprocs && team.threadIds.Keys == Members(team.procIds)
      ensures forall p :: 0 <= p < nprocs ==> team.procIds[p] == p && p in team.threadIds && team.threadIds[p] == p
      ensures idleCores == old(idleCores) - (team.nthreads - 1) && (specified == 1 ==> idleCores == old(idleCores))
    {
      var numThreads := ResolveNumThreads(specified);
      var procIds: seq<nat>, threadIds: map<nat, nat> := [0], map[0 := 0];
      var i := 1;
      while i < nprocs
        invariant 1 <= i <= nprocs && |procIds| == i && idleCores == old(idleCores) - (numThreads - 1)
        invariant forall p :: 0 <= p < i ==> procIds[p] == p
        invariant threadIds.Keys == Members(procIds) && forall p :: 0 <= p < i ==> p in threadIds && threadIds[p] == p
      {
        MembersGrow(procIds, i);
        procIds, threadIds := procIds + [i], threadIds[i := i];
        i := i + 1;
      }
      team := Team(0, numThreads, MAIN_MASK, procIds, threadIds);
    }

    /** The critical section of a team start: fetch the processors and fill in the descriptor. */
    method TeamStart(myid: nat, specified: nat) returns (team: Team)
      requires idleCores == Clear(threadPool, 1, nprocs) && myid in threadPool
      modifies this
      ensures SizedAsAsked(team.nthreads, specified, old(idleCores))
      ensures team == NewTeam(old(threadPool), myid, Resolve(old(idleCores), specified), nprocs)
      ensures threadPool == old(threadPool) + Slaves(team)
      ensures idleCores == old(idleCores) - (team.nthreads - 1)
    {
      hide Clear, NewTeam, Slaves, Fetch, Members, ThreadIds, Filled, Resolve, SizedAsAsked;
      ghost var pool := threadPool;
      ghost var slaves: seq<nat> := [];
      var nthreads := ResolveNumThreads(specified);
      var numThreads: nat := nthreads - 1;
      var mask: set<nat>, procIds: seq<nat>, threadIds: map<nat, nat> := {myid}, [myid], map[myid := 0];
      assert Searching(pool, nprocs, nthreads, 1, numThreads, slaves);
      hide Searching;
      JustMaster(myid);
      var i := 1;
      while i < nprocs && numThreads > 0
        invariant Searching(pool, nprocs, nthreads, i, numThreads, slaves)
        invariant Filled(myid, slaves, mask, procIds, threadIds)
        invariant threadPool == pool + Members(slaves)
        invariant idleCores == old(idleCores) - (nthreads - 1)
      {
        SearchGoesOn(pool, nprocs, nthreads, i, numThreads, slaves);
        if i !in threadPool {
          OneMore(myid, slaves, i, mask, procIds, threadIds);
          threadPool := threadPool + {i};
          mask := mask + {i};
          threadIds := threadIds[i := |procIds|];
          procIds := procIds + [i];
          slaves := slaves + [i];
          numThreads := numThreads - 1;
        }
        i := i + 1;
      }
      SearchEnds(pool, nprocs, nthreads, i, numThreads, slaves);
      team := Team(myid, nthreads, mask, procIds, threadIds);
      AllFilled(pool, myid, nthreads, nprocs, slaves, team);
    }

    /** The critical section of a team end: count its slaves idle again and clear their bits. */
    method TeamEnd(team: Team)
      requires team.nthreads >= 1
      modifies this
      ensures threadPool == old(threadPool) - Slaves(team) && idleCores == old(idleCores) + (team.nthreads - 1)
    {
      idleCores := idleCores + (team.nthreads - 1);
      threadPool := threadPool - (team.mask - {team.master});
    }
  }
}
