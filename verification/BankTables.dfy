/** How one cycle changes the controller's whole bank table: the countdowns, the command sent, the power moves. */
module BankTables {
  import opened DramTypes
  import opened CommandQueueSpec
  import opened BankTiming
  import opened QueueInvariant
  import opened RankSpec
  import opened SystemSpec
  import opened SystemFrames
  import opened Refinement
  import opened BusTiming

  /** A rank goes down only when all its banks are idle, and up only when all of them are down and have been so
      for long enough; without the low-power mode it does neither. */
  ghost predicate MoveFits(cfg: Config, banks: BankRow, move: PowerMove, now: nat) {
    && (move.GoDown? ==> AllIdle(banks))
    && (move.GoUp? ==> forall b :: 0 <= b < |banks| ==> banks[b].phase.PowerDown? && banks[b].nextPowerUp <= now)
    && (!cfg.useLowPower ==> move.Stay?)
    && (!move.Stay? ==> forall b :: 0 <= b < |banks| ==> banks[b].countdown == 0)
  }

  lemma DecisionFits(cfg: Config, s: System, r: nat, t: nat)
    requires Following(cfg, s, t) && r < cfg.numRanks
    ensures MoveFits(cfg, s.banks[r], PowerMoveOf(cfg, s, r), s.now)
  {
    assert PowerAgrees(s.powerDown[r], s.banks[r], s.ranks[r].isPowerDown);
  }

  function Flag(powerDown: bool, move: PowerMove): bool {
    match move
    case Stay => powerDown
    case GoDown => true
    case GoUp => false
  }

  lemma OwnMove(cfg: Config, s: System, r: nat)
    requires s.Shape(cfg) && r < cfg.numRanks && s.halted.None? && PowerRank(cfg, s, r).halted.None?
    ensures var s' := PowerRank(cfg, s, r);
      && s'.now == s.now && s'.banks[r] == PowerBanks(cfg, s.banks[r], PowerMoveOf(cfg, s, r), s.now)
      && s'.powerDown[r] == Flag(s.powerDown[r], PowerMoveOf(cfg, s, r))
  {
    hide PowerMoveOf;
  }

  /** A power move touches one rank only, and the decisions for the others do not depend on it. */
  lemma OtherMove(cfg: Config, s: System, k: nat, r: nat)
    requires s.Shape(cfg) && k < cfg.numRanks && r < cfg.numRanks && k != r
    ensures var s' := PowerRank(cfg, s, k);
      && s'.now == s.now && s'.banks[r] == s.banks[r] && s'.powerDown[r] == s.powerDown[r]
      && PowerMoveOf(cfg, s', r) == PowerMoveOf(cfg, s, r)
  {
    hide PowerBanks, AllIdle, IsEmpty, MayPowerDown, MayPowerUp, PoweredDown, PoweredUp;
  }

  /** What the power manager does to one rank: what it decides at the start. */
  lemma {:induction false} PowerRow(cfg: Config, s: System, k: nat, r: nat, t: nat)
    requires s.Shape(cfg) && s.halted.None? && Following(cfg, s, t) && r < cfg.numRanks
    ensures var s' := PowerFrom(cfg, s, k);
      && s'.banks[r] == (if k <= r then PowerBanks(cfg, s.banks[r], PowerMoveOf(cfg, s, r), s.now) else s.banks[r])
      && s'.powerDown[r] == (if k <= r then Flag(s.powerDown[r], PowerMoveOf(cfg, s, r)) else s.powerDown[r])
    decreases cfg.numRanks - k
  {
    hide Following, PowerRank, PowerMoveOf, PowerBanks, Flag;
    if k < cfg.numRanks {
      PowerRankFollows(cfg, s, k, t);
      if k == r { OwnMove(cfg, s, r); } else { OtherMove(cfg, s, k, r); }
      PowerRow(cfg, PowerRank(cfg, s, k), k + 1, r, t);
    }
  }

  ghost predicate Moved(cfg: Config, banks: BankRow, move: PowerMove, banks': BankRow, now: nat) {
    MoveFits(cfg, banks, move, now) && banks' == PowerBanks(cfg, banks, move, now)
  }

  function OnceSent(cfg: Config, banks: BankRow, rank: nat, p: Option<BusPacket>, now: nat): BankRow
    requires cfg.Valid()
  {
    if p.Some? then SentRow(cfg, banks, rank, p.value, now) else banks
  }

  /** One rank's records from one call of pop to the end of the cycle. */
  ghost predicate RowAfter(cfg: Config, banks: BankRow, rank: nat, p: Option<BusPacket>, banks': BankRow, now: nat)
    requires cfg.Valid()
  {
    exists move: PowerMove :: Moved(cfg, OnceSent(cfg, banks, rank, p, now), move, banks', now)
  }

  lemma SecondHalfTable(cfg: Config, m: System, r: nat)
    requires Agree(cfg, m) && SecondHalf(cfg, m).halted.None? && r < cfg.numRanks
    ensures RowAfter(cfg, m.banks[r], r, Pop(cfg, m.q, m.banks, m.now).1, SecondHalf(cfg, m).banks[r], m.now)
  {
    hide Following, Pop, IssuePhase, SplitFrom, PowerFrom, PowerMoveOf, PowerBanks, MoveFits, FindPending, RankAgrees, SameReadData;
    IssueBuses(cfg, m);
    IssueFollows(cfg, m);
    var s1 := IssuePhase(cfg, m);
    SplitFollows(cfg, s1, 0, m.now + 1);
    SplitFrame(cfg, s1, 0);
    var s2 := SplitFrom(cfg, s1, 0);
    PowerRow(cfg, s2, 0, r, m.now + 1);
    DecisionFits(cfg, s2, r, m.now + 1);
    assert s1.banks[r] == OnceSent(cfg, m.banks[r], r, Pop(cfg, m.q, m.banks, m.now).1, m.now);
    assert Moved(cfg, s1.banks[r], PowerMoveOf(cfg, s2, r), SecondHalf(cfg, m).banks[r], m.now);
  }

  /** A whole cycle: the countdowns run, a command that suits its banks is sent or none is, and the power
      manager moves the rank or leaves it. */
  lemma CycleTable(cfg: Config, s: System, r: nat)
    requires s.Shape(cfg) && Inv(cfg, s) && Buses(cfg, s) && Cycle(cfg, s).halted.None? && r < cfg.numRanks
    ensures RowAfter(cfg, TickRow(cfg, s.banks[r]), r, Cycle(cfg, s).outgoingCmd, Cycle(cfg, s).banks[r], s.now)
  {
    hide FirstHalf, SecondHalf, Pop, RankAgrees, ReadsWillBeInTime, SameReadData, TickRow, RowAfter, QueuesOk;
    FirstHalfAgrees(cfg, s);
    FirstHalfBuses(cfg, s);
    var m := FirstHalf(cfg, s);
    SecondHalfFrame(cfg, m);
    SecondHalfTable(cfg, m, r);
  }

  // ----- the power manager -----

  /** Nothing is queued for the rank and no refresh is waiting for it. */
  predicate Unneeded(cfg: Config, s: System, r: nat)
    requires s.Shape(cfg) && r < cfg.numRanks
  {
    IsEmpty(cfg, s.q, r) && !s.ranks[r].refreshWaiting
  }

  /** At the end of a cycle that began with flag `was`: with the low-power mode an unneeded rank is down unless a
      bank is busy, a needed one is up unless it has not been down for tCKE, and nothing else moves
      it; its banks can be activated tXP after it came up. */
  ghost predicate PowerSettled(cfg: Config, was: bool, s: System, r: nat, now: nat)
    requires s.Shape(cfg) && r < cfg.numRanks
  {
    && (cfg.useLowPower && Unneeded(cfg, s, r) ==> !AllIdle(s.banks[r]))
    && (cfg.useLowPower && !Unneeded(cfg, s, r) && s.powerDown[r] ==> was && now < s.banks[r][0].nextPowerUp)
    && (s.powerDown[r] != was ==> cfg.useLowPower && (s.powerDown[r] <==> Unneeded(cfg, s, r)))
    && (s.powerDown[r] && !was ==> forall b :: 0 <= b < cfg.numBanks ==> s.banks[r][b].nextPowerUp == now + cfg.tCKE)
    && (!s.powerDown[r] && was ==> forall b :: 0 <= b < cfg.numBanks ==> s.banks[r][b].nextActivate == now + cfg.tXP)
  }

  lemma DecisionSettles(cfg: Config, s: System, r: nat, t: nat, s': System)
    requires s.Shape(cfg) && s.halted.None? && Following(cfg, s, t) && r < cfg.numRanks && s'.Shape(cfg)
    requires s'.banks[r] == PowerBanks(cfg, s.banks[r], PowerMoveOf(cfg, s, r), s.now) && s'.q == s.q
    requires s'.powerDown[r] == Flag(s.powerDown[r], PowerMoveOf(cfg, s, r)) && s'.ranks[r].refreshWaiting == s.ranks[r].refreshWaiting
    ensures PowerSettled(cfg, s.powerDown[r], s', r, s.now)
  {
    hide IsEmpty, QueuesOk, CommandOk, RankFollows;
    assert PowerAgrees(s.powerDown[r], s.banks[r], s.ranks[r].isPowerDown);
    assert IsEmpty(cfg, s'.q, r) == IsEmpty(cfg, s.q, r);
    assert |s'.banks[r]| == |s.banks[r]| && s'.banks[r][0] == PowerBanks(cfg, s.banks[r], PowerMoveOf(cfg, s, r), s.now)[0];
  }

  lemma SecondHalfSettles(cfg: Config, m: System, r: nat)
    requires Agree(cfg, m) && SecondHalf(cfg, m).halted.None? && r < cfg.numRanks
    ensures PowerSettled(cfg, m.powerDown[r], SecondHalf(cfg, m), r, m.now)
  {
    hide Following, Pop, IssuePhase, SplitFrom, PowerFrom, PowerMoveOf, PowerBanks, PowerSettled, FindPending, RankAgrees, Flag, QueuesOk;
    IssueFollows(cfg, m);
    IssuePhaseFields(cfg, m);
    var s1 := IssuePhase(cfg, m);
    SplitFollows(cfg, s1, 0, m.now + 1);
    SplitFrame(cfg, s1, 0);
    var s2 := SplitFrom(cfg, s1, 0);
    PowerRow(cfg, s2, 0, r, m.now + 1);
    PowerFrame(cfg, s2, 0);
    DecisionSettles(cfg, s2, r, m.now + 1, SecondHalf(cfg, m));
  }

  /** Every cycle leaves every rank as the power manager wants it. */
  lemma CyclePower(cfg: Config, s: System, r: nat)
    requires s.Shape(cfg) && s.halted.None? && Inv(cfg, s) && Cycle(cfg, s).halted.None? && r < cfg.numRanks
    ensures PowerSettled(cfg, s.powerDown[r], Cycle(cfg, s), r, s.now)
  {
    hide FirstHalf, SecondHalf, RankAgrees, QueuesOk, PowerSettled, Following;
    FirstHalfAgrees(cfg, s);
    FirstHalfFrame(cfg, s);
    FirstHalfFlags(cfg, s);
    SecondHalfSettles(cfg, FirstHalf(cfg, s), r);
  }

  lemma CommandFlags(cfg: Config, s: System)
    requires s.Shape(cfg)
    ensures CommandPhase(cfg, TickPhase(cfg, s)).powerDown == s.powerDown
  {
    hide Accepts, Receive, TickTable;
  }

  lemma FirstHalfFlags(cfg: Config, s: System)
    requires s.Shape(cfg) && s.halted.None? && Inv(cfg, s)
    ensures FirstHalf(cfg, s).powerDown == s.powerDown
  {
    hide RanksPhase, BacklogPhase, TickPhase, CommandPhase, DataPhase, WritePhase, Following;
    RanksCore(cfg, s);
    BacklogCore(cfg, RanksPhase(cfg, s));
    var s0 := BacklogPhase(cfg, RanksPhase(cfg, s));
    CommandFlags(cfg, s0);
    var s1 := CommandPhase(cfg, TickPhase(cfg, s0));
    if s1.halted.None? { BusesCore(cfg, s1); }
  }

  /** In every run, after every clock cycle, every rank is as the power manager wants it. */
  lemma RanksFollowNeed(cfg: Config, run: seq<System>, i: nat, r: nat)
    requires IsRun(cfg, run) && i + 1 < |run| && run[i+1].halted.None? && run[i+1].now == run[i].now + 1 && r < cfg.numRanks
    requires run[i].Shape(cfg) && run[i+1].Shape(cfg)
    ensures PowerSettled(cfg, run[i].powerDown[r], run[i+1], r, run[i].now)
  {
    hide Inv, Cycle, PowerSettled, Initial;
    RunStep(cfg, run, i);
    CyclePower(cfg, run[i], r);
  }
}
