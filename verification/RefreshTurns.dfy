/** The refresh timers: the ranks are due for a refresh in turn, each one a refresh interval after its last. */
module RefreshTurns {
  import opened Arithmetic
  import opened DramTypes
  import opened CommandQueueSpec
  import opened BankTiming
  import opened RankSpec
  import opened SystemSpec
  import opened SystemFrames
  import opened Refinement
  import opened WriteTimetable

  datatype Turn = Turn(rank: nat, round: nat)

  function Next(cfg: Config, t: Turn): Turn {
    if t.rank + 1 == cfg.numRanks then Turn(0, t.round + 1) else Turn(t.rank + 1, t.round)
  }

  /** Whose turn it is after x requests for a refresh. */
  function TurnAt(cfg: Config, x: nat): (t: Turn)
    ensures cfg.numRanks >= 1 ==> t.rank < cfg.numRanks
  {
    if x == 0 then Turn(0, 0) else Next(cfg, TurnAt(cfg, x - 1))
  }

  /** When a rank is due for the refresh of a round. */
  function DueAt(cfg: Config, rank: nat, round: nat): nat { cfg.refreshStagger * (rank + 1) + cfg.refreshInterval * round }

  /** The ranks' first refreshes are spread over one interval. */
  predicate Spread(cfg: Config) { cfg.refreshStagger >= 1 && cfg.refreshStagger * cfg.numRanks <= cfg.refreshInterval }

  /** The timers when it is rank t.rank's turn in round t.round. */
  ghost predicate Timers(cfg: Config, timers: seq<nat>, t: Turn, now: nat) {
    && |timers| == cfg.numRanks && t.rank < cfg.numRanks && now <= DueAt(cfg, t.rank, t.round)
    && forall r :: 0 <= r < cfg.numRanks ==> now + timers[r] == DueAt(cfg, r, if r < t.rank then t.round + 1 else t.round)
  }

  predicate Asks(s: System) { s.refreshRank < |s.refreshCountdown| && s.refreshCountdown[s.refreshRank] == 0 }

  // ----- one cycle -----

  function TimersAfter(cfg: Config, timers: seq<nat>, turn: nat): seq<nat>
    requires turn < |timers|
  {
    DecrementAll(if timers[turn] == 0 then timers[turn := cfg.refreshInterval] else timers)
  }

  lemma LaterDue(cfg: Config, r: nat, q: nat, round: nat)
    requires Spread(cfg) && r < q < cfg.numRanks
    ensures DueAt(cfg, r, round) + 1 <= DueAt(cfg, q, round) && DueAt(cfg, q, round) + 1 <= DueAt(cfg, r, round + 1)
  {
    MulMonotone(r + 2, q + 1, cfg.refreshStagger);
    MulMonotone(q + 1, cfg.numRanks, cfg.refreshStagger);
    assert cfg.refreshStagger * (r + 2) == cfg.refreshStagger * (r + 1) + cfg.refreshStagger;
    MulCommutes(r + 2, cfg.refreshStagger);
    MulCommutes(q + 1, cfg.refreshStagger);
    MulCommutes(cfg.numRanks, cfg.refreshStagger);
    assert cfg.refreshStagger * (r + 1) >= 1;
    assert cfg.refreshInterval * (round + 1) == cfg.refreshInterval * round + cfg.refreshInterval;
  }


  /** The next due time of any other rank lies ahead. */
  lemma OthersLater(cfg: Config, timers: seq<nat>, t: Turn, now: nat, r: nat)
    requires Spread(cfg) && Timers(cfg, timers, t, now) && r < cfg.numRanks && r != t.rank
    ensures timers[r] >= 1 && DueAt(cfg, r, if r < t.rank then t.round + 1 else t.round) >= DueAt(cfg, t.rank, t.round) + 1
  {
    hide DueAt, Spread;
    if r < t.rank { LaterDue(cfg, r, t.rank, t.round); } else { LaterDue(cfg, t.rank, r, t.round); }
  }

  lemma NextDue(cfg: Config, t: Turn)
    requires Spread(cfg) && t.rank < cfg.numRanks
    ensures DueAt(cfg, Next(cfg, t).rank, Next(cfg, t).round) >= DueAt(cfg, t.rank, t.round) + 1
    ensures DueAt(cfg, t.rank, t.round + 1) == DueAt(cfg, t.rank, t.round) + cfg.refreshInterval && cfg.refreshInterval >= 1
  {
    assert cfg.refreshInterval * (t.round + 1) == cfg.refreshInterval * t.round + cfg.refreshInterval;
    MulMonotone(1, cfg.numRanks, cfg.refreshStagger);
    MulCommutes(cfg.numRanks, cfg.refreshStagger);
    if t.rank + 1 < cfg.numRanks { LaterDue(cfg, t.rank, t.rank + 1, t.round); }
    else if t.rank > 0 { LaterDue(cfg, 0, t.rank, t.round); }
  }

  lemma TimersStep(cfg: Config, timers: seq<nat>, t: Turn, now: nat)
    requires Spread(cfg) && Timers(cfg, timers, t, now)
    ensures Timers(cfg, TimersAfter(cfg, timers, t.rank), if timers[t.rank] == 0 then Next(cfg, t) else t, now + 1)
    ensures timers[t.rank] == 0 <==> now == DueAt(cfg, t.rank, t.round)
  {
    hide DueAt, Spread;
    NextDue(cfg, t);
    var timers' := TimersAfter(cfg, timers, t.rank);
    var t' := if timers[t.rank] == 0 then Next(cfg, t) else t;
    forall r | 0 <= r < cfg.numRanks ensures now + 1 + timers'[r] == DueAt(cfg, r, if r < t'.rank then t'.round + 1 else t'.round) {
      if r != t.rank { OthersLater(cfg, timers, t, now, r); }
    }
  }

  // ----- a cycle of the system -----

  ghost predicate SameTimers(s: System, m: System) {
    && m.refreshCountdown == s.refreshCountdown && m.refreshRank == s.refreshRank && m.q == s.q && m.powerDown == s.powerDown
    && |m.ranks| == |s.ranks| && forall r :: 0 <= r < |s.ranks| ==> m.ranks[r].refreshWaiting ==> s.ranks[r].refreshWaiting
  }

  lemma UpdateKeepsWaiting(cfg: Config, r: RankState)
    requires Parallel(r)
    ensures Update(cfg, r).0.refreshWaiting == r.refreshWaiting
  {}

  lemma ReceiveKeepsWaiting(cfg: Config, r: RankState, p: BusPacket, now: nat)
    requires cfg.Valid()
    ensures Receive(cfg, r, p, now).refreshWaiting ==> r.refreshWaiting
  {}

  lemma RanksTimers(cfg: Config, s: System)
    requires s.Shape(cfg)
    ensures SameTimers(s, BacklogPhase(cfg, RanksPhase(cfg, s)))
  {
    hide Delivered, Update;
    forall r | 0 <= r < |s.ranks| ensures Update(cfg, s.ranks[r]).0.refreshWaiting == s.ranks[r].refreshWaiting {
      UpdateKeepsWaiting(cfg, s.ranks[r]);
    }
  }

  lemma CommandTimers(cfg: Config, s: System)
    requires s.Shape(cfg)
    ensures SameTimers(s, CommandPhase(cfg, TickPhase(cfg, s)))
  {
    hide Accepts, Receive, TickTable;
    if s.outgoingCmd.Some? { ReceiveKeepsWaiting(cfg, s.ranks[s.outgoingCmd.value.rank], s.outgoingCmd.value, s.now); }
  }

  lemma BusTimers(cfg: Config, s: System)
    requires s.Shape(cfg)
    ensures SameTimers(s, WritePhase(cfg, DataPhase(cfg, s)))
  {}

  /** The rank whose turn it is has to wake up for it. */
  predicate Wakes(cfg: Config, s: System)
    requires s.Shape(cfg)
  {
    s.powerDown[s.refreshRank] && s.refreshCountdown[s.refreshRank] <= cfg.tXP
  }

  /** A rank whose timer is zero at its turn asks: the command queue is told, and the rank. A rank that is down is told
      alone, tXP cycles ahead. */
  ghost predicate Asked(cfg: Config, s: System, m: System)
    requires s.Shape(cfg) && m.Shape(cfg)
  {
    && (Wakes(cfg, s) ==> m.ranks[s.refreshRank].refreshWaiting)
    && (forall r :: 0 <= r < cfg.numRanks ==>
          m.ranks[r].refreshWaiting ==> s.ranks[r].refreshWaiting || (r == s.refreshRank && (Asks(s) || Wakes(cfg, s))))
    && if Asks(s) then
      && m.q == s.q.(refreshWaiting := true, refreshRank := s.refreshRank) && m.ranks[s.refreshRank].refreshWaiting
      && m.refreshCountdown == s.refreshCountdown[s.refreshRank := cfg.refreshInterval]
      && m.refreshRank == if s.refreshRank + 1 == cfg.numRanks then 0 else s.refreshRank + 1
    else m.q == s.q && m.refreshCountdown == s.refreshCountdown && m.refreshRank == s.refreshRank
  }

  lemma FirstHalfAsks(cfg: Config, s: System)
    requires s.Shape(cfg) && FirstHalf(cfg, s).halted.None?
    ensures Asked(cfg, s, FirstHalf(cfg, s))
  {
    hide RanksPhase, BacklogPhase, TickPhase, CommandPhase, DataPhase, WritePhase;
    var s0 := BacklogPhase(cfg, RanksPhase(cfg, s));
    RanksTimers(cfg, s);
    CommandTimers(cfg, s0);
    BusTimers(cfg, CommandPhase(cfg, TickPhase(cfg, s0)));
  }

  lemma SecondHalfTimers(cfg: Config, m: System)
    requires m.Shape(cfg) && m.outgoingCmd.None? && m.halted.None? && SecondHalf(cfg, m).halted.None?
    ensures var s' := SecondHalf(cfg, m); s'.refreshCountdown == DecrementAll(m.refreshCountdown) && s'.refreshRank == m.refreshRank
  {
    hide IssuePhase, SplitFrom, PowerFrom, Pop, FindPending;
    IssueTimers(cfg, m);
    var s1 := IssuePhase(cfg, m);
    SplitFrame(cfg, s1, 0);
    PowerFrame(cfg, SplitFrom(cfg, s1, 0), 0);
  }

  lemma IssueTimers(cfg: Config, m: System)
    requires m.Shape(cfg) && m.outgoingCmd.None? && m.halted.None?
    ensures var s1 := IssuePhase(cfg, m); s1.halted.None? && s1.refreshCountdown == m.refreshCountdown && s1.refreshRank == m.refreshRank
  {
    hide Pop, SentTable;
  }

  lemma CycleTimers(cfg: Config, s: System)
    requires s.Shape(cfg) && Inv(cfg, s) && Cycle(cfg, s).halted.None?
    ensures var s' := Cycle(cfg, s);
      && Asked(cfg, s, FirstHalf(cfg, s)) && s'.now == s.now + 1
      && s'.refreshCountdown == TimersAfter(cfg, s.refreshCountdown, s.refreshRank)
      && s'.refreshRank == if !Asks(s) then s.refreshRank else if s.refreshRank + 1 == cfg.numRanks then 0 else s.refreshRank + 1
  {
    hide FirstHalf, SecondHalf, RankAgrees, Following;
    FirstHalfAgrees(cfg, s);
    FirstHalfAsks(cfg, s);
    SecondHalfTimers(cfg, FirstHalf(cfg, s));
    CycleClock(cfg, s);
  }

  // ----- runs -----

  /** How many times the first i steps of a run asked for a refresh. */
  ghost function Requests(run: seq<System>, i: nat): nat
    requires i < |run|
  {
    if i == 0 then 0 else Requests(run, i - 1) + if run[i].now == run[i-1].now + 1 && Asks(run[i-1]) then 1 else 0
  }

  /** The timers as the memory controller sets them up. */
  ghost predicate Staggered(cfg: Config, s: System) {
    && s.refreshRank == 0 && |s.refreshCountdown| == cfg.numRanks
    && forall r :: 0 <= r < cfg.numRanks ==> s.refreshCountdown[r] == cfg.refreshStagger * (r + 1)
  }

  ghost predicate InTurnAt(cfg: Config, s: System, x: nat) {
    var t := TurnAt(cfg, x);
    s.refreshRank == t.rank && Timers(cfg, s.refreshCountdown, t, s.now)
  }

  lemma TurnNext(cfg: Config, x: nat)
    ensures TurnAt(cfg, x + 1) == Next(cfg, TurnAt(cfg, x))
  {}

  lemma TurnFits(cfg: Config, timers: seq<nat>, t: Turn, now: nat)
    requires Timers(cfg, timers, t, now)
    ensures t.rank < |timers|
  {}

  lemma StepTurns(cfg: Config, s: System, s': System, x: nat)
    requires Spread(cfg) && s.Shape(cfg) && s'.Shape(cfg) && Inv(cfg, s) && Step(cfg, s, s') && s'.halted.None? && InTurnAt(cfg, s, x)
    ensures InTurnAt(cfg, s', if s'.now == s.now + 1 && Asks(s) then x + 1 else x)
  {
    hide Inv, Cycle, Spread, Timers, Asked, TurnAt, TimersAfter, FirstHalf;
    if s' == Cycle(cfg, s) {
      CycleTimers(cfg, s);
      TurnFits(cfg, s.refreshCountdown, TurnAt(cfg, x), s.now);
      TimersStep(cfg, s.refreshCountdown, TurnAt(cfg, x), s.now);
      TurnNext(cfg, x);
    }
  }

  lemma FirstTurn(cfg: Config, s: System)
    requires Initial(cfg, s) && Staggered(cfg, s)
    ensures InTurnAt(cfg, s, 0)
  {}

  lemma {:induction false} AlwaysInTurn(cfg: Config, run: seq<System>, i: nat)
    requires Spread(cfg) && IsRun(cfg, run) && Staggered(cfg, run[0]) && i < |run| && run[i].halted.None?
    ensures InTurnAt(cfg, run[i], Requests(run, i))
    decreases i
  {
    hide Inv, Step, Initial, System.Shape, Spread, InTurnAt, Asks, Staggered;
    if i == 0 {
      FirstTurn(cfg, run[0]);
    } else {
      RunStep(cfg, run, i - 1);
      AlwaysInTurn(cfg, run, i - 1);
      StepTurns(cfg, run[i-1], run[i], Requests(run, i - 1));
    }
  }

  /** At the call of pop, in the cycle that starts in s, the refresh of turn t has been asked for exactly if its time
      has come; and that time has not passed before. The rank, and no other, has been told then or, if it is down, tXP
      cycles ahead. */
  ghost predicate AsksOnTime(cfg: Config, s: System, m: System, t: Turn) {
    var due := cfg.refreshStagger * (t.rank + 1) + cfg.refreshInterval * t.round;
    && s.now <= due
    && (forall r :: 0 <= r < |s.ranks| && r < |m.ranks| ==>
          var told := r == t.rank && (s.now == due || (r < |s.powerDown| && s.powerDown[r] && due - s.now <= cfg.tXP));
          (told ==> m.ranks[r].refreshWaiting) && (m.ranks[r].refreshWaiting ==> s.ranks[r].refreshWaiting || told))
    && if s.now == due then
         && m.q == s.q.(refreshWaiting := true, refreshRank := t.rank)
         && t.rank < |m.ranks| && m.ranks[t.rank].refreshWaiting
       else m.q == s.q
  }

  lemma TurnAsks(cfg: Config, s: System, m: System, t: Turn)
    requires s.Shape(cfg) && m.Shape(cfg) && Asked(cfg, s, m) && Spread(cfg)
    requires s.refreshRank == t.rank && Timers(cfg, s.refreshCountdown, t, s.now)
    ensures AsksOnTime(cfg, s, m, t)
  {
    TimersStep(cfg, s.refreshCountdown, t, s.now);
    hide Spread;
  }

  /** In every run from timers set up as the controller sets them up, the ranks ask for refreshes in turn, and rank r
      in round k exactly in the cycle at time stagger * (r + 1) + interval * k; no timer is ever missed. */
  lemma RefreshesInTurn(cfg: Config, run: seq<System>, i: nat)
    requires Spread(cfg) && IsRun(cfg, run) && Staggered(cfg, run[0]) && i + 1 < |run| && run[i+1].halted.None? && run[i+1].now == run[i].now + 1
    requires run[i].Shape(cfg)
    ensures AsksOnTime(cfg, run[i], FirstHalf(cfg, run[i]), TurnAt(cfg, Requests(run, i)))
  {
    hide Inv, Cycle, Spread, Initial, Staggered, FirstHalf, TurnAt, TimersAfter, Asked, AsksOnTime, Timers;
    RunStep(cfg, run, i);
    AlwaysInTurn(cfg, run, i);
    CycleTimers(cfg, run[i]);
    TurnAsks(cfg, run[i], FirstHalf(cfg, run[i]), TurnAt(cfg, Requests(run, i)));
  }
}
