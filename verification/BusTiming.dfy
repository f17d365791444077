/** The controller's spacing of column commands keeps every rank's read bus, and, with one rank or bursts
    short enough, the write bus, free of overlaps. */
module BusTiming {
  import opened DramTypes
  import opened CommandQueueSpec
  import opened BankTiming
  import opened ColumnSpacing
  import opened QueueInvariant
  import opened QueuePreservation
  import opened RankSpec
  import opened DataLane
  import opened SystemSpec
  import opened SystemFrames
  import opened Refinement

  // ----- one rank -----

  /** Between the arrival of a command and the call of pop: the rank's bus is orderly, and no read can be
      sent that would need it before it is free. */
  ghost predicate ReadsInTime(cfg: Config, r: RankState, banks: BankRow, now: nat) {
    && ReadBusOk(cfg, r)
    && Busy(cfg.Burst(), ReadLane(r)) <= cfg.ReadLatency() + cfg.Burst()
    && forall b :: 0 <= b < |banks| ==> Spaced(cfg, banks[b], true, now + Busy(cfg.Burst(), ReadLane(r)) - cfg.ReadLatency() - 1, now)
  }

  /** The same between cycles, with the command still on its way. */
  ghost predicate ReadsWillBeInTime(cfg: Config, r: RankState, banks: BankRow, readComing: bool, now: nat) {
    var busy := Busy(cfg.Burst(), ReadLane(r));
    && ReadBusOk(cfg, r) && busy <= cfg.ReadLatency() + cfg.Burst()
    && (readComing ==> busy <= cfg.ReadLatency() + 1)
    && forall b :: 0 <= b < |banks| ==>
         Spaced(cfg, TickBank(cfg, banks[b]), true, if readComing then now - 1 + cfg.Burst() else now + busy - cfg.ReadLatency() - 2, now)
  }

  /** The rank after its update and the arrival of the command on the bus. */
  function ArrivedRank(cfg: Config, r: RankState, rank: nat, cmd: Option<BusPacket>, now: nat): RankState
    requires cfg.Valid() && Parallel(r)
  {
    var r1 := Update(cfg, r).0;
    if cmd.Some? && cmd.value.rank == rank then Receive(cfg, r1, cmd.value, now) else r1
  }

  predicate ReadFor(cmd: Option<BusPacket>, rank: nat) {
    cmd.Some? && cmd.value.rank == rank && cmd.value.kind.IsRead()
  }

  lemma ReadsArriveInTime(cfg: Config, r: RankState, banks: BankRow, rank: nat, cmd: Option<BusPacket>, now: nat)
    requires cfg.Valid() && ReadsWillBeInTime(cfg, r, banks, ReadFor(cmd, rank), now)
    ensures ReadsInTime(cfg, ArrivedRank(cfg, r, rank, cmd, now), TickRow(cfg, banks), now)
  {
    hide Update, Receive, LaneOk, StepLane, TickBank;
    UpdateHandsOver(cfg, r);
    StepKeepsLane(cfg.Burst(), ReadLane(r));
    if cmd.Some? && cmd.value.rank == rank { ReceiveJoins(cfg, Update(cfg, r).0, cmd.value, now); }
    if ReadFor(cmd, rank) { PushKeepsLane(cfg.Burst(), ReadLane(Update(cfg, r).0), cfg.ReadLatency()); }
  }

  lemma ReadsIdle(cfg: Config, r: RankState, banks: BankRow, now: nat)
    requires cfg.Valid() && ReadsInTime(cfg, r, banks, now)
    ensures ReadsWillBeInTime(cfg, r, banks, false, now + 1)
  {
    hide TickBank, Spaced, ReadBusOk;
    var bound := now + Busy(cfg.Burst(), ReadLane(r)) - cfg.ReadLatency() - 1;
    forall b | 0 <= b < |banks| ensures Spaced(cfg, TickBank(cfg, banks[b]), true, bound, now + 1) {
      SpacedIdles(cfg, banks[b], true, bound, now);
    }
  }

  lemma ReadsGoOn(cfg: Config, r: RankState, banks: BankRow, accesses: seq<nat>, rank: nat, p: BusPacket, now: nat)
    requires cfg.Valid() && ReadsInTime(cfg, r, banks, now) && |accesses| == |banks| && p.bank < |banks|
    requires forall b :: 0 <= b < |banks| ==> BankOk(cfg, banks[b], accesses[b], now)
    requires rank == p.rank ==>
      forall b :: 0 <= b < |banks| && (b == p.bank || p.kind.Refresh?) ==> Suits(cfg, banks[b], accesses[b], p, now)
    ensures ReadsWillBeInTime(cfg, r, SentRow(cfg, banks, rank, p, now), ReadFor(Some(p), rank), now + 1)
  {
    hide TickBank, Sent, Spaced, ReadBusOk, BankOk, Suits;
    var busy := Busy(cfg.Burst(), ReadLane(r));
    var bound := now + busy - cfg.ReadLatency() - 1;
    if ReadFor(Some(p), rank) { SuitedIsNotEarly(cfg, banks[p.bank], accesses[p.bank], p, bound, now); }
    forall b | 0 <= b < |banks|
      ensures Spaced(cfg, TickBank(cfg, Sent(cfg, banks[b], rank, b, p, now)), true,
                     if ReadFor(Some(p), rank) then now + cfg.Burst() else bound, now + 1)
    {
      BurstApart(cfg, banks[b], accesses[b], rank, b, p, true, bound, now);
    }
  }

  // ----- the system -----

  /** The two states of a rank agree on its read data. */
  ghost predicate SameReadData(r: RankState, r': RankState) {
    r' == r.(banks := r'.banks, isPowerDown := r'.isPowerDown, refreshWaiting := r'.refreshWaiting)
  }

  function WriteLane(s: System): Lane {
    Lane(if s.outgoingData.Some? then s.dataCyclesLeft else 0, s.writeDataCountdown)
  }

  lemma DeliveredTo(cfg: Config, s: System)
    requires Inv(cfg, s)
    ensures var m := AtCommand(cfg, s);
      && m.halted.None? && m.now == s.now && m.banks == TickTable(cfg, s.banks)
      && m.outgoingData == s.outgoingData && m.dataCyclesLeft == s.dataCyclesLeft && m.writeDataCountdown == s.writeDataCountdown
      && forall r :: 0 <= r < cfg.numRanks ==> m.ranks[r] == ArrivedRank(cfg, s.ranks[r], r, s.outgoingCmd, s.now)
  {
    CommandArrives(cfg, s);
    hide Update, Receive, TickTable, Accepts, Delivered, Inv, QueuesOk, RankAgrees;
  }

  lemma DataPhases(cfg: Config, s: System)
    requires s.Shape(cfg) && s.halted.None? && (s.outgoingData.Some? ==> s.dataCyclesLeft >= 1)
    ensures var m := WritePhase(cfg, DataPhase(cfg, s));
      && m.now == s.now && m.banks == s.banks && m.ranks == s.ranks
      && (m.halted.None? ==> WriteLane(m) == StepLane(cfg.Burst(), WriteLane(s)) && (m.outgoingData.Some? ==> m.dataCyclesLeft >= 1))
      && (m.halted.Some? ==> |s.writeDataCountdown| > 0 && Decrement(s.writeDataCountdown[0]) == 0 && WriteLane(s).left > 1)
  {}

  lemma RefreshBuses(cfg: Config, s: System)
    requires s.Shape(cfg)
    ensures var m := RefreshPhase(cfg, s);
      && m.now == s.now && m.banks == s.banks && m.halted == s.halted && |m.ranks| == |s.ranks|
      && m.outgoingData == s.outgoingData && m.dataCyclesLeft == s.dataCyclesLeft && m.writeDataCountdown == s.writeDataCountdown
      && forall r :: 0 <= r < cfg.numRanks ==> SameReadData(s.ranks[r], m.ranks[r])
  {}

  /** The buses at the call of pop. */
  ghost predicate ReachesPop(cfg: Config, s: System, m: System)
    requires s.Shape(cfg)
  {
    && m.now == s.now && m.banks == TickTable(cfg, s.banks) && |m.ranks| == cfg.numRanks
    && WriteLane(m) == StepLane(cfg.Burst(), WriteLane(s)) && (m.outgoingData.Some? ==> m.dataCyclesLeft >= 1)
    && forall r :: 0 <= r < cfg.numRanks ==> SameReadData(ArrivedRank(cfg, s.ranks[r], r, s.outgoingCmd, s.now), m.ranks[r])
  }

  lemma FirstHalfBuses(cfg: Config, s: System)
    requires Inv(cfg, s) && (s.outgoingData.Some? ==> s.dataCyclesLeft >= 1)
    ensures var m := FirstHalf(cfg, s);
      if m.halted.None? then ReachesPop(cfg, s, m)
      else |s.writeDataCountdown| > 0 && Decrement(s.writeDataCountdown[0]) == 0 && WriteLane(s).left > 1
  {
    hide RanksPhase, BacklogPhase, TickPhase, CommandPhase, DataPhase, WritePhase, RefreshPhase, ArrivedRank, StepLane, TickTable;
    var s1 := AtCommand(cfg, s);
    DeliveredTo(cfg, s);
    hide Inv, SameReadData;
    DataPhases(cfg, s1);
    var s2 := WritePhase(cfg, DataPhase(cfg, s1));
    RefreshBuses(cfg, s2);
  }

  /** The buses and records from pop to the end of the cycle. */
  ghost predicate FollowsPop(cfg: Config, m: System, p: Option<BusPacket>, s': System)
    requires m.Shape(cfg)
  {
    var banks: Table := if p.Some? then SentTable(cfg, m.banks, p.value, m.now) else m.banks;
    && s'.now == m.now + 1 && s'.outgoingCmd == p && |s'.ranks| == |s'.banks| == cfg.numRanks
    && s'.outgoingData == m.outgoingData && s'.dataCyclesLeft == m.dataCyclesLeft
    && s'.writeDataCountdown == m.writeDataCountdown + (if p.Some? && p.value.kind.IsWrite() then [cfg.WriteLatency()] else [])
    && (forall r :: 0 <= r < cfg.numRanks ==> SameReadData(m.ranks[r], s'.ranks[r]) && |s'.banks[r]| == cfg.numBanks)
    && forall r, b :: 0 <= r < cfg.numRanks && 0 <= b < cfg.numBanks ==> SameSpacing(banks[r][b], s'.banks[r][b])
  }

  lemma IssueBuses(cfg: Config, m: System)
    requires m.Shape(cfg) && m.outgoingCmd.None? && m.halted.None?
    ensures var p := Pop(cfg, m.q, m.banks, m.now).1;
      var s1 := IssuePhase(cfg, m);
      && s1.halted.None? && s1.outgoingCmd == p && s1.ranks == m.ranks && s1.now == m.now
      && s1.banks == (if p.Some? then SentTable(cfg, m.banks, p.value, m.now) else m.banks)
      && s1.outgoingData == m.outgoingData && s1.dataCyclesLeft == m.dataCyclesLeft
      && s1.writeDataCountdown == m.writeDataCountdown + (if p.Some? && p.value.kind.IsWrite() then [cfg.WriteLatency()] else [])
  {
    hide Pop, SentTable;
  }

  /** The rest of the cycle leaves the buses and the spacing alone. */
  ghost predicate BusesKept(s: System, s': System) {
    && s'.outgoingCmd == s.outgoingCmd && |s'.ranks| == |s.ranks| && |s'.banks| == |s.banks|
    && s'.outgoingData == s.outgoingData && s'.dataCyclesLeft == s.dataCyclesLeft && s'.writeDataCountdown == s.writeDataCountdown
    && (forall r :: 0 <= r < |s.ranks| ==> SameReadData(s.ranks[r], s'.ranks[r]))
    && (forall r :: 0 <= r < |s.banks| ==> |s'.banks[r]| == |s.banks[r]|)
    && forall r, b :: 0 <= r < |s.banks| && 0 <= b < |s.banks[r]| ==> SameSpacing(s.banks[r][b], s'.banks[r][b])
  }

  lemma MovedKeepsBuses(s: System, s1: System, s': System)
    requires SplitMoved(s, s1) && PowerMoved(s1, s')
    ensures s'.now == s.now && BusesKept(s, s')
  {
    hide SameSpacing;
  }

  lemma SplitAndPowerBuses(cfg: Config, s: System)
    requires s.Shape(cfg)
    ensures var s' := PowerFrom(cfg, SplitFrom(cfg, s, 0), 0); s'.now == s.now && BusesKept(s, s')
  {
    hide SplitFrom, PowerFrom, SplitMoved, PowerMoved, BusesKept;
    SplitFrame(cfg, s, 0);
    PowerFrame(cfg, SplitFrom(cfg, s, 0), 0);
    MovedKeepsBuses(s, SplitFrom(cfg, s, 0), PowerFrom(cfg, SplitFrom(cfg, s, 0), 0));
  }

  lemma TailBuses(cfg: Config, s: System, s': System)
    requires s'.Shape(cfg) && BusesKept(s, s')
    ensures var s2 := ClockPhase(cfg, AnswerPhase(cfg, s')); s2.now == s'.now + 1 && BusesKept(s, s2)
  {
    hide FindPending, SameSpacing, SameReadData;
  }

  lemma SecondHalfKeepsBuses(cfg: Config, m: System)
    requires m.Shape(cfg) && IssuePhase(cfg, m).halted.None? && SecondHalf(cfg, m).halted.None?
    ensures var s' := SecondHalf(cfg, m); s'.now == IssuePhase(cfg, m).now + 1 && BusesKept(IssuePhase(cfg, m), s')
  {
    hide IssuePhase, SplitFrom, PowerFrom, AnswerPhase, ClockPhase, BusesKept;
    var s1 := IssuePhase(cfg, m);
    SplitAndPowerBuses(cfg, s1);
    TailBuses(cfg, s1, PowerFrom(cfg, SplitFrom(cfg, s1, 0), 0));
  }

  lemma SecondHalfBuses(cfg: Config, m: System)
    requires m.Shape(cfg) && m.outgoingCmd.None? && m.halted.None? && SecondHalf(cfg, m).halted.None?
    ensures FollowsPop(cfg, m, Pop(cfg, m.q, m.banks, m.now).1, SecondHalf(cfg, m))
  {
    hide IssuePhase, SecondHalf, Pop, SentTable, SameSpacing, SameReadData;
    IssueBuses(cfg, m);
    SecondHalfKeepsBuses(cfg, m);
  }

  // ----- read data -----

  /** What holds of the buses between cycles. */
  ghost predicate Buses(cfg: Config, s: System)
    requires s.Shape(cfg)
  {
    && (s.outgoingData.Some? ==> s.dataCyclesLeft >= 1)
    && forall r :: 0 <= r < cfg.numRanks ==>
         ReadsWillBeInTime(cfg, s.ranks[r], s.banks[r], ReadFor(s.outgoingCmd, r), s.now)
  }

  lemma SameSpacingSpaced(cfg: Config, b: BankState, b': BankState, forReads: bool, bound: int, now: nat)
    requires SameSpacing(b, b') && Spaced(cfg, TickBank(cfg, b), forReads, bound, now)
    ensures Spaced(cfg, TickBank(cfg, b'), forReads, bound, now)
  {}

  lemma SameReadsInTime(cfg: Config, r: RankState, r': RankState, banks: BankRow, banks': BankRow, readComing: bool, now: nat)
    requires ReadsWillBeInTime(cfg, r, banks, readComing, now) && SameReadData(r, r') && |banks'| == |banks|
    requires forall b :: 0 <= b < |banks| ==> SameSpacing(banks[b], banks'[b])
    ensures ReadsWillBeInTime(cfg, r', banks', readComing, now)
  {
    hide LaneOk, Spaced, TickBank, SameSpacing;
    var bound := if readComing then now - 1 + cfg.Burst() else now + Busy(cfg.Burst(), ReadLane(r)) - cfg.ReadLatency() - 2;
    forall b | 0 <= b < |banks| ensures Spaced(cfg, TickBank(cfg, banks'[b]), true, bound, now) {
      SameSpacingSpaced(cfg, banks[b], banks'[b], true, bound, now);
    }
  }

  /** From pop to the end of the cycle, for one rank. */
  lemma RankReadsGoOn(cfg: Config, m: System, s': System, r: nat)
    requires Agree(cfg, m) && r < cfg.numRanks && ReadsInTime(cfg, m.ranks[r], m.banks[r], m.now)
    requires FollowsPop(cfg, m, Pop(cfg, m.q, m.banks, m.now).1, s')
    ensures ReadsWillBeInTime(cfg, s'.ranks[r], s'.banks[r], ReadFor(s'.outgoingCmd, r), s'.now)
  {
    hide Pop, BankOk, Suits, ReadsInTime, ReadsWillBeInTime, QueueOk, RankAgrees, SameSpacing, SameReadData;
    PopKeepsQueues(cfg, m.q, m.banks, m.now);
    assert RankOk(cfg, m.q.queues[r], ViewOf(m.q, m.banks, r), m.now);
    var p := s'.outgoingCmd;
    if p.Some? {
      ReadsGoOn(cfg, m.ranks[r], m.banks[r], m.q.rowAccess[r], r, p.value, m.now);
      SameReadsInTime(cfg, m.ranks[r], s'.ranks[r], SentTable(cfg, m.banks, p.value, m.now)[r], s'.banks[r], ReadFor(p, r), s'.now);
    } else {
      ReadsIdle(cfg, m.ranks[r], m.banks[r], m.now);
      SameReadsInTime(cfg, m.ranks[r], s'.ranks[r], m.banks[r], s'.banks[r], false, s'.now);
    }
  }

  lemma SameDataInTime(cfg: Config, r: RankState, r': RankState, banks: BankRow, now: nat)
    requires ReadsInTime(cfg, r, banks, now) && SameReadData(r, r')
    ensures ReadsInTime(cfg, r', banks, now)
  {
    hide LaneOk, Spaced;
  }

  /** Every cycle keeps the buses orderly. */
  lemma CycleKeepsBuses(cfg: Config, s: System)
    requires s.Shape(cfg) && Inv(cfg, s) && Buses(cfg, s) && Cycle(cfg, s).halted.None?
    ensures Buses(cfg, Cycle(cfg, s))
  {
    hide FirstHalf, SecondHalf, ReadsInTime, ReadsWillBeInTime, SameReadData, SameSpacing, StepLane, TickRow, Following, Pop, ReadFor;
    var m, s' := FirstHalf(cfg, s), Cycle(cfg, s);
    FirstHalfAgrees(cfg, s);
    FirstHalfBuses(cfg, s);
    SecondHalfBuses(cfg, m);
    forall r | 0 <= r < cfg.numRanks
      ensures ReadsWillBeInTime(cfg, s'.ranks[r], s'.banks[r], ReadFor(s'.outgoingCmd, r), s'.now)
    {
      ReadsArriveInTime(cfg, s.ranks[r], s.banks[r], r, s.outgoingCmd, s.now);
      SameDataInTime(cfg, ArrivedRank(cfg, s.ranks[r], r, s.outgoingCmd, s.now), m.ranks[r], m.banks[r], m.now);
      RankReadsGoOn(cfg, m, s', r);
    }
  }
}