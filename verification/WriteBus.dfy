/** Write data never collides on the bus in a system with one rank, or with bursts short enough for the time it
    takes to open a row, so that no error exit is left at all. */
module WriteBus {
  import opened DramTypes
  import opened CommandQueueSpec
  import opened BankTiming
  import opened ColumnSpacing
  import opened QueueInvariant
  import opened QueuePreservation
  import opened DataLane
  import opened SystemSpec
  import opened SystemFrames
  import opened Refinement
  import opened BusTiming

  /** The bus is safe from writes to different ranks: a row cannot be opened and written to during a burst. */
  predicate ShortBursts(cfg: Config) { cfg.numRanks == 1 || cfg.Burst() <= 1 + Reach(cfg) }

  // The write lane: the packet on the bus, the waiting countdowns, and the earliest time for another write
  // command to any bank of a row of banks.

  ghost predicate WritesInTime(cfg: Config, l: Lane, banks: BankRow, now: nat) {
    && LaneOk(cfg.Burst(), l) && Busy(cfg.Burst(), l) <= cfg.WriteLatency() + cfg.Burst()
    && forall b :: 0 <= b < |banks| ==> Spaced(cfg, banks[b], false, now + Busy(cfg.Burst(), l) - cfg.WriteLatency(), now)
  }

  ghost predicate WritesWillBeInTime(cfg: Config, l: Lane, banks: BankRow, now: nat) {
    && LaneOk(cfg.Burst(), l) && Busy(cfg.Burst(), l) <= cfg.WriteLatency() + cfg.Burst()
    && forall b :: 0 <= b < |banks| ==> Spaced(cfg, TickBank(cfg, banks[b]), false, now + Busy(cfg.Burst(), l) - cfg.WriteLatency() - 1, now)
  }

  lemma WritesMoveUp(cfg: Config, l: Lane, banks: BankRow, now: nat)
    requires cfg.Valid() && WritesWillBeInTime(cfg, l, banks, now)
    ensures WritesInTime(cfg, StepLane(cfg.Burst(), l), TickRow(cfg, banks), now)
  {
    hide LaneOk, StepLane, TickBank;
    StepKeepsLane(cfg.Burst(), l);
  }

  lemma WritesIdle(cfg: Config, l: Lane, banks: BankRow, now: nat)
    requires cfg.Valid() && WritesInTime(cfg, l, banks, now)
    ensures WritesWillBeInTime(cfg, l, banks, now + 1)
  {
    hide TickBank, Spaced, LaneOk;
    var bound := now + Busy(cfg.Burst(), l) - cfg.WriteLatency();
    forall b | 0 <= b < |banks| ensures Spaced(cfg, TickBank(cfg, banks[b]), false, bound, now + 1) {
      SpacedIdles(cfg, banks[b], false, bound, now);
    }
  }

  /** A write command, to whatever rank, finds the lane ready for its data. */
  lemma WriteJoins(cfg: Config, l: Lane, banks: BankRow, accesses: nat, p: BusPacket, now: nat)
    requires cfg.Valid() && WritesInTime(cfg, l, banks, now) && p.bank < |banks| && p.kind.IsWrite()
    requires Suits(cfg, banks[p.bank], accesses, p, now)
    ensures LaneOk(cfg.Burst(), Push(l, cfg.WriteLatency()))
    ensures Busy(cfg.Burst(), Push(l, cfg.WriteLatency())) == cfg.WriteLatency() + cfg.Burst()
  {
    hide Spaced, LaneOk, Suits;
    SuitedIsNotEarly(cfg, banks[p.bank], accesses, p, now + Busy(cfg.Burst(), l) - cfg.WriteLatency(), now);
    PushKeepsLane(cfg.Burst(), l, cfg.WriteLatency());
  }

  function NextLane(cfg: Config, l: Lane, p: BusPacket): Lane
    requires cfg.Valid()
  {
    if p.kind.IsWrite() then Push(l, cfg.WriteLatency()) else l
  }

  /** One rank's banks when a command is sent to any rank. */
  lemma WritesGoOn(cfg: Config, l: Lane, banks: BankRow, accesses: seq<nat>, rank: nat, p: BusPacket, now: nat)
    requires cfg.Valid() && ShortBursts(cfg) && WritesInTime(cfg, l, banks, now) && |accesses| == |banks|
    requires rank < cfg.numRanks && p.rank < cfg.numRanks
    requires forall b :: 0 <= b < |banks| ==> BankOk(cfg, banks[b], accesses[b], now)
    requires rank == p.rank ==>
      forall b :: 0 <= b < |banks| && (b == p.bank || p.kind.Refresh?) ==> Suits(cfg, banks[b], accesses[b], p, now)
    requires p.kind.IsWrite() ==> LaneOk(cfg.Burst(), NextLane(cfg, l, p)) && Busy(cfg.Burst(), NextLane(cfg, l, p)) == cfg.WriteLatency() + cfg.Burst()
    ensures WritesWillBeInTime(cfg, NextLane(cfg, l, p), SentRow(cfg, banks, rank, p, now), now + 1)
  {
    hide TickBank, Sent, Spaced, LaneOk, BankOk, Suits, Busy;
    var bound := now + Busy(cfg.Burst(), l) - cfg.WriteLatency();
    forall b | 0 <= b < |banks|
      ensures Spaced(cfg, TickBank(cfg, Sent(cfg, banks[b], rank, b, p, now)), false,
                     if p.kind.IsWrite() then now + cfg.Burst() else bound, now + 1)
    {
      BurstApart(cfg, banks[b], accesses[b], rank, b, p, false, bound, now);
    }
  }

  lemma SameWritesInTime(cfg: Config, l: Lane, banks: BankRow, banks': BankRow, now: nat)
    requires WritesWillBeInTime(cfg, l, banks, now) && |banks'| == |banks|
    requires forall b :: 0 <= b < |banks| ==> SameSpacing(banks[b], banks'[b])
    ensures WritesWillBeInTime(cfg, l, banks', now)
  {
    hide LaneOk, Spaced, TickBank, SameSpacing;
    var bound := now + Busy(cfg.Burst(), l) - cfg.WriteLatency() - 1;
    forall b | 0 <= b < |banks| ensures Spaced(cfg, TickBank(cfg, banks'[b]), false, bound, now) {
      SameSpacingSpaced(cfg, banks[b], banks'[b], false, bound, now);
    }
  }

  // ----- the system -----

  ghost predicate WriteBusOk(cfg: Config, s: System)
    requires s.Shape(cfg)
  {
    && (s.outgoingData.Some? ==> s.dataCyclesLeft >= 1)
    && forall r :: 0 <= r < cfg.numRanks ==> WritesWillBeInTime(cfg, WriteLane(s), s.banks[r], s.now)
  }

  /** The same at the call of pop. */
  ghost predicate WritesReachPop(cfg: Config, m: System)
    requires m.Shape(cfg)
  {
    forall r :: 0 <= r < cfg.numRanks ==> WritesInTime(cfg, WriteLane(m), m.banks[r], m.now)
  }

  /** The head of the waiting write data finds the bus free. */
  lemma NoCollision(cfg: Config, s: System)
    requires s.Shape(cfg) && Inv(cfg, s) && WriteBusOk(cfg, s)
    ensures FirstHalf(cfg, s).halted.None? && ReachesPop(cfg, s, FirstHalf(cfg, s)) && WritesReachPop(cfg, FirstHalf(cfg, s))
  {
    hide FirstHalf, Inv, Spaced, StepLane, ArrivedRank, SameReadData;
    FirstHalfBuses(cfg, s);
    assert WritesWillBeInTime(cfg, WriteLane(s), s.banks[0], s.now);
    StepKeepsLane(cfg.Burst(), WriteLane(s));
    hide TickRow, WritesInTime, WritesWillBeInTime;
    forall r | 0 <= r < cfg.numRanks
      ensures WritesInTime(cfg, StepLane(cfg.Burst(), WriteLane(s)), TickRow(cfg, s.banks[r]), s.now)
    {
      WritesMoveUp(cfg, WriteLane(s), s.banks[r], s.now);
    }
  }

  /** From pop to the end of the cycle, for one rank. */
  lemma RankWritesGoOn(cfg: Config, m: System, s': System, r: nat)
    requires Agree(cfg, m) && ShortBursts(cfg) && WritesReachPop(cfg, m) && r < cfg.numRanks
    requires FollowsPop(cfg, m, Pop(cfg, m.q, m.banks, m.now).1, s')
    ensures WritesWillBeInTime(cfg, WriteLane(s'), s'.banks[r], s'.now)
  {
    hide Pop, BankOk, Suits, WritesInTime, WritesWillBeInTime, QueueOk, RankAgrees, SameSpacing, SameReadData, LaneOk, Busy;
    PopKeepsQueues(cfg, m.q, m.banks, m.now);
    assert RankOk(cfg, m.q.queues[r], ViewOf(m.q, m.banks, r), m.now);
    var p := s'.outgoingCmd;
    if p.Some? {
      assert WriteLane(s') == NextLane(cfg, WriteLane(m), p.value);
      if p.value.kind.IsWrite() {
        WriteJoins(cfg, WriteLane(m), m.banks[p.value.rank], m.q.rowAccess[p.value.rank][p.value.bank], p.value, m.now);
      }
      WritesGoOn(cfg, WriteLane(m), m.banks[r], m.q.rowAccess[r], r, p.value, m.now);
      SameWritesInTime(cfg, WriteLane(s'), SentTable(cfg, m.banks, p.value, m.now)[r], s'.banks[r], s'.now);
    } else {
      assert WriteLane(s') == WriteLane(m);
      WritesIdle(cfg, WriteLane(m), m.banks[r], m.now);
      SameWritesInTime(cfg, WriteLane(m), m.banks[r], s'.banks[r], s'.now);
    }
  }

  lemma CycleKeepsWriteBus(cfg: Config, s: System)
    requires s.Shape(cfg) && Inv(cfg, s) && WriteBusOk(cfg, s) && ShortBursts(cfg)
    ensures Cycle(cfg, s).halted.None? && Inv(cfg, Cycle(cfg, s)) && WriteBusOk(cfg, Cycle(cfg, s))
  {
    hide FirstHalf, SecondHalf, WritesInTime, WritesWillBeInTime, SameReadData, SameSpacing, StepLane, TickTable, Pop, ShortBursts;
    var m := FirstHalf(cfg, s);
    NoCollision(cfg, s);
    FirstHalfAgrees(cfg, s);
    SecondHalfFollows(cfg, m);
    hide Following, WritesReachPop;
    SecondHalfBuses(cfg, m);
    var s' := SecondHalf(cfg, m);
    forall r | 0 <= r < cfg.numRanks ensures WritesWillBeInTime(cfg, WriteLane(s'), s'.banks[r], s'.now) {
      RankWritesGoOn(cfg, m, s', r);
    }
  }

  lemma StepKeepsWriteBus(cfg: Config, s: System, s': System)
    requires s.Shape(cfg) && s'.Shape(cfg) && Inv(cfg, s) && Step(cfg, s, s') && s.halted.None? && WriteBusOk(cfg, s) && ShortBursts(cfg)
    ensures s'.halted.None? && WriteBusOk(cfg, s')
  {
    hide Inv, Cycle, WritesWillBeInTime, ShortBursts;
    if s' == Cycle(cfg, s) { CycleKeepsWriteBus(cfg, s); }
  }

  lemma InitialWriteBus(cfg: Config, s: System)
    requires s.Shape(cfg) && Initial(cfg, s)
    ensures WriteBusOk(cfg, s) && s.halted.None?
  {}

  /** In every run of a system with one rank, or with any number of ranks and bursts short enough, no error
      exit is ever taken. */
  lemma {:induction false} ShortBurstsNeverHalt(cfg: Config, run: seq<System>, i: nat)
    requires ShortBursts(cfg) && IsRun(cfg, run) && i < |run|
    ensures run[i].halted.None? && run[i].Shape(cfg) && WriteBusOk(cfg, run[i])
    decreases i
  {
    hide Inv, Step, Initial, WriteBusOk, System.Shape, ShortBursts;
    if i == 0 {
      InitialWriteBus(cfg, run[0]);
    } else {
      RunStep(cfg, run, i - 1);
      ShortBurstsNeverHalt(cfg, run, i - 1);
      StepKeepsWriteBus(cfg, run[i-1], run[i]);
    }
  }

  /** In every run no error exit is ever taken if there is one rank, or if BL/2 is at most one more than the
      time from an ACTIVATE to a column command, max(1, tRCD - AL). */
  lemma NoExitIsTaken(cfg: Config, run: seq<System>, i: nat)
    requires IsRun(cfg, run) && i < |run|
    requires cfg.numRanks == 1 || cfg.bl / 2 <= 1 + Max(1, cfg.tRCD - cfg.al)
    ensures run[i].halted.None?
  {
    ShortBurstsNeverHalt(cfg, run, i);
  }
}
