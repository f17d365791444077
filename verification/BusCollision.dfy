/** With several ranks and long bursts write data can collide: a run in which two writes to different ranks meet on
    the data bus, because the second rank's row was still closed when the first write was sent. */
module BusCollision {
  import opened Arithmetic
  import opened DramTypes
  import opened CommandQueueSpec
  import opened BankTiming
  import opened ColumnSpacing
  import opened RankSpec
  import opened DataLane
  import opened SystemSpec
  import opened Refinement
  import opened BusTiming
  import opened WriteBus
  import opened RestingSystem

  // ----- one write -----

  function RankOf(cfg: Config, t: Transaction): nat { cfg.locate(t.address).rank }

  ghost predicate Untouched(banks: Table, r: nat) {
    r < |banks| && forall b :: 0 <= b < |banks[r]| ==> banks[r][b] == INITIAL_BANK
  }

  /** Nothing has happened in this rank. */
  ghost predicate Quiet(s: System, r: nat) { Untouched(s.banks, r) && r < |s.q.faw| && s.q.faw[r] == [] }

  /** A bank that a command has opened at a time. */
  function Opened(cfg: Config, row: nat, at: nat): BankState
    requires cfg.Valid()
  {
    INITIAL_BANK.(phase := RowActive, lastCommand := Activate, openRow := row, nextActivate := at + cfg.tRC, nextPrecharge := at + cfg.tRAS,
                  nextRead := at + (cfg.tRCD - cfg.al), nextWrite := at + (cfg.tRCD - cfg.al))
  }

  ghost predicate IsOpen(cfg: Config, banks: Table, p: BusPacket, at: nat)
    requires cfg.Valid()
  {
    p.rank < |banks| && p.bank < |banks[p.rank]| && banks[p.rank][p.bank] == Opened(cfg, p.row, at)
  }

  lemma TickTables(cfg: Config, banks: Table, r: nat, p: BusPacket, at: nat)
    requires cfg.Valid()
    ensures Untouched(banks, r) ==> Untouched(TickTable(cfg, banks), r)
    ensures IsOpen(cfg, banks, p, at) ==> IsOpen(cfg, TickTable(cfg, banks), p, at)
  {}

  lemma SentElsewhere(cfg: Config, banks: Table, p: BusPacket, now: nat, r: nat)
    requires cfg.Valid() && Untouched(banks, r) && p.rank != r
    ensures Untouched(SentTable(cfg, banks, p, now), r)
  {}

  lemma OpensBank(cfg: Config, banks: Table, p: BusPacket, now: nat)
    requires cfg.Valid() && Untouched(banks, p.rank) && p.bank < |banks[p.rank]| && p.kind.Activate?
    ensures IsOpen(cfg, SentTable(cfg, banks, p, now), p, now)
  {}

  lemma StaysOpen(cfg: Config, banks: Table, p: BusPacket, at: nat, pre: BusPacket, now: nat)
    requires cfg.Valid() && IsOpen(cfg, banks, p, at) && pre.kind.Precharge? && (pre.rank != p.rank || pre.bank != p.bank)
    ensures IsOpen(cfg, SentTable(cfg, banks, pre, now), p, at)
  {}

  /** Both commands of a transaction wait, and nothing has happened in their rank. */
  ghost predicate PairWaits(cfg: Config, s: System, t: Transaction)
    requires cfg.Valid()
  {
    var (a, c) := CommandsOf(cfg, t);
    OnlyQueue(cfg, s.q, a.rank, cfg.SlotOf(a.bank), [a, c]) && Quiet(s, a.rank)
  }

  /** The write waits for the row that was opened for it. */
  ghost predicate WriteWaits(cfg: Config, s: System, t: Transaction, at: nat)
    requires cfg.Valid()
  {
    var (a, c) := CommandsOf(cfg, t);
    OnlyQueue(cfg, s.q, a.rank, cfg.SlotOf(a.bank), [c]) && IsOpen(cfg, s.banks, c, at)
  }

  lemma FrontEligible(cfg: Config, v: RankView, que: seq<BusPacket>, now: nat)
    requires |que| > 0 && Fits(cfg, v, que) && IsIssuable(cfg, v, que[0], now)
    ensures Eligible(cfg, v, que, 0, now)
  {}

  /** The ACTIVATE goes out at once. */
  lemma Opens(cfg: Config, s: System, now: nat, t: Transaction, other: nat)
    requires Base(cfg, s, now) && now + 2 <= cfg.refreshStagger && !Colliding(s) && PairWaits(cfg, s, t) && s.transactions == []
    requires cfg.cmdQueueDepth >= 2 && other < cfg.numRanks && other != RankOf(cfg, t)
    ensures var s' := Cycle(cfg, s);
      && Base(cfg, s', now + 1) && s'.transactions == [] && WriteWaits(cfg, s', t, now) && (Quiet(s, other) ==> Quiet(s', other))
      && WriteLane(s') == StepLane(cfg.Burst(), WriteLane(s))
  {
    hide OnlyQueue, Inv, Resting, StepLane, Cycle, Colliding, Eligible;
    var (a, c) := CommandsOf(cfg, t);
    var banks := TickTable(cfg, s.banks);
    var v := ViewOf(s.q.(faw := TickWindows(s.q.faw)), banks, a.rank);
    TickTables(cfg, s.banks, a.rank, a, 0);
    TickTables(cfg, s.banks, other, a, 0);
    FrontEligible(cfg, v, [a, c], now);
    SendCycle(cfg, s, now, a.rank, cfg.SlotOf(a.bank), a.bank, [a, c]);
    hide TickTable, SentTable;
    if Quiet(s, other) { SentElsewhere(cfg, banks, a, now, other); }
    OpensBank(cfg, banks, a, now);
    assert [a, c][1..] == [c];
  }

  /** Until the row may be written to the write stays where it is. */
  lemma WaitsOn(cfg: Config, s: System, now: nat, t: Transaction, at: nat, other: nat)
    requires Base(cfg, s, now) && now + 2 <= cfg.refreshStagger && !Colliding(s) && WriteWaits(cfg, s, t, at) && s.transactions == []
    requires now < at + (cfg.tRCD - cfg.al) && !t.isRead && cfg.cmdQueueDepth >= 2
    requires other < cfg.numRanks && other != RankOf(cfg, t)
    ensures var s' := Cycle(cfg, s);
      && Base(cfg, s', now + 1) && s'.transactions == [] && WriteWaits(cfg, s', t, at) && (Quiet(s, other) ==> Quiet(s', other))
      && WriteLane(s') == StepLane(cfg.Burst(), WriteLane(s))
  {
    hide OnlyQueue, Inv, Resting, StepLane, Cycle, Colliding;
    var (a, c) := CommandsOf(cfg, t);
    var banks := TickTable(cfg, s.banks);
    TickTables(cfg, s.banks, other, c, at);
    WaitCycle(cfg, s, now, a.rank, cfg.SlotOf(a.bank), [c]);
    hide TickTable, SentTable;
    var p := Cycle(cfg, s).outgoingCmd;
    if p.Some? {
      StaysOpen(cfg, banks, c, at, p.value, now);
      if Quiet(s, other) { SentElsewhere(cfg, banks, p.value, now, other); }
    }
  }

  lemma WriteIssuable(cfg: Config, s: System, now: nat, t: Transaction, at: nat)
    requires s.Shape(cfg) && WriteWaits(cfg, s, t, at) && now >= at + (cfg.tRCD - cfg.al) && !t.isRead
    ensures var c := CommandsOf(cfg, t).1;
      var v := ViewOf(s.q.(faw := TickWindows(s.q.faw)), TickTable(cfg, s.banks), c.rank);
      Fits(cfg, v, [c]) && Eligible(cfg, v, [c], 0, now)
  {
    var c := CommandsOf(cfg, t).1;
    TickTables(cfg, s.banks, c.rank, c, at);
    FrontEligible(cfg, ViewOf(s.q.(faw := TickWindows(s.q.faw)), TickTable(cfg, s.banks), c.rank), [c], now);
  }

  /** The write goes out, and a transaction for another rank is broken up behind it. */
  lemma Writes(cfg: Config, s: System, now: nat, t: Transaction, at: nat, other: nat)
    requires Base(cfg, s, now) && now + 2 <= cfg.refreshStagger && !Colliding(s) && WriteWaits(cfg, s, t, at)
    requires now >= at + (cfg.tRCD - cfg.al) && !t.isRead && cfg.cmdQueueDepth >= 2 && |s.transactions| <= 1
    requires other < cfg.numRanks && other != RankOf(cfg, t)
    ensures var s' := Cycle(cfg, s);
      && Base(cfg, s', now + 1) && s'.transactions == []
      && WriteLane(s') == Push(StepLane(cfg.Burst(), WriteLane(s)), cfg.WriteLatency())
      && (s.transactions == [] ==> OnlyQueue(cfg, s'.q, RankOf(cfg, t), cfg.SlotOf(CommandsOf(cfg, t).0.bank), []))
      && (s.transactions != [] && RankOf(cfg, s.transactions[0]) == other && Quiet(s, other) ==> PairWaits(cfg, s', s.transactions[0]))
  {
    hide OnlyQueue, Inv, Resting, StepLane, Cycle, Colliding, Eligible;
    var (a, c) := CommandsOf(cfg, t);
    var banks := TickTable(cfg, s.banks);
    TickTables(cfg, s.banks, other, c, at);
    WriteIssuable(cfg, s, now, t, at);
    SendCycle(cfg, s, now, a.rank, cfg.SlotOf(a.bank), a.bank, [c]);
    hide TickTable, SentTable;
    if Quiet(s, other) { SentElsewhere(cfg, banks, c, now, other); }
    assert [c][1..] == [];
  }

  /** With nothing left to send the write data go on. */
  lemma DrainsOn(cfg: Config, s: System, now: nat, r: nat, k: nat)
    requires Base(cfg, s, now) && now + 2 <= cfg.refreshStagger && !Colliding(s) && s.transactions == []
    requires OnlyQueue(cfg, s.q, r, k, []) && cfg.cmdQueueDepth >= 2
    ensures var s' := Cycle(cfg, s);
      && Base(cfg, s', now + 1) && s'.transactions == [] && OnlyQueue(cfg, s'.q, r, k, [])
      && WriteLane(s') == StepLane(cfg.Burst(), WriteLane(s))
  {
    hide OnlyQueue, Inv, Resting, StepLane, Cycle, Colliding;
    WaitCycle(cfg, s, now, r, k, []);
  }

  // ----- the write data of two writes -----

  /** The write bus j cycles after a write was sent (negative: before). */
  function OneWrite(cfg: Config, j: int): Lane
    requires cfg.Valid() && j < cfg.WriteLatency() + cfg.Burst()
  {
    if j < 0 then Lane(0, [])
    else if j < cfg.WriteLatency() then Lane(0, [cfg.WriteLatency() - j])
    else Lane(cfg.Burst() - (j - cfg.WriteLatency()), [])
  }

  /** And with another write sent as soon as its row was open. */
  function TwoWrites(cfg: Config, j: int): Lane
    requires cfg.Valid() && 1 + Reach(cfg) <= j <= Reach(cfg) + cfg.WriteLatency() && Reach(cfg) < cfg.Burst()
  {
    var l := OneWrite(cfg, j);
    l.(countdowns := l.countdowns + [cfg.WriteLatency() - (j - 1 - Reach(cfg))])
  }

  lemma OneWriteMoves(cfg: Config, j: int)
    requires cfg.Valid() && j + 1 < cfg.WriteLatency() + cfg.Burst() && j != -1
    ensures StepLane(cfg.Burst(), OneWrite(cfg, j)) == OneWrite(cfg, j + 1)
  {}

  lemma TwoWritesMove(cfg: Config, j: int)
    requires cfg.Valid() && 1 + Reach(cfg) <= j < Reach(cfg) + cfg.WriteLatency() && Reach(cfg) < cfg.Burst()
    ensures StepLane(cfg.Burst(), TwoWrites(cfg, j)) == TwoWrites(cfg, j + 1)
  {}

  lemma Meeting(cfg: Config, s: System, j: int)
    requires cfg.Valid() && 1 + Reach(cfg) <= j <= Reach(cfg) + cfg.WriteLatency() && !ShortBursts(cfg) && WriteLane(s) == TwoWrites(cfg, j)
    ensures Colliding(s) <==> j == Reach(cfg) + cfg.WriteLatency()
  {}

  // ----- the run -----

  function EmptyQueues(cfg: Config, r: nat): (queues: seq<seq<BusPacket>>)
    ensures |queues| >= cfg.Slots() && forall k :: 0 <= k < |queues| ==> queues[k] == []
  {
    MulMonotone(1, r + 1, cfg.Slots());
    seq((r + 1) * cfg.Slots(), _ => [])
  }

  function Staggered(cfg: Config, r: nat): nat { cfg.refreshStagger * (r + 1) }

  /** The system as it is built. */
  function PowerOn(cfg: Config): System {
    var queues := seq(cfg.numRanks, r requires 0 <= r < cfg.numRanks => EmptyQueues(cfg, r));
    var banks: BankRow := seq(cfg.numBanks, _ => INITIAL_BANK);
    var q := QueueState(queues, 0, 0, 0, 0, 0, false, seq(cfg.numRanks, _ => []), seq(cfg.numRanks, _ => seq(cfg.numBanks, _ => 0)), true);
    System(0, q, seq(cfg.numRanks, _ => banks), seq(cfg.numRanks, _ => false),
           seq(cfg.numRanks, _ => RankState(banks, false, false, [], [], None, 0)),
           None, 0, None, 0, [], [], seq(cfg.numRanks, r requires 0 <= r < cfg.numRanks => Staggered(cfg, r)), 0, [], [], [], [], None, None)
  }

  lemma PowerOnQueues(cfg: Config)
    requires cfg.Valid()
    ensures PowerOn(cfg).q.Shape(cfg)
  {
    hide EmptyQueues;
  }

  lemma PowerOnIsInitial(cfg: Config)
    requires cfg.Valid()
    ensures Initial(cfg, PowerOn(cfg))
  {
    PowerOnQueues(cfg);
    hide EmptyQueues, QueueState.Shape, Staggered;
  }

  function Last(run: seq<System>): System
    requires |run| > 0
  {
    run[|run|-1]
  }

  ghost predicate FromPowerOn(cfg: Config, run: seq<System>) { |run| > 0 && IsRun(cfg, run) && run[0] == PowerOn(cfg) }

  lemma OneMore(cfg: Config, run: seq<System>, s: System)
    requires FromPowerOn(cfg, run) && Last(run).Shape(cfg) && Last(run).halted.None? && Step(cfg, Last(run), s) && s.Shape(cfg)
    ensures FromPowerOn(cfg, run + [s]) && Last(run + [s]) == s
  {
    hide Step, Initial, System.Shape;
    var run' := run + [s];
    forall i | 0 <= i < |run'| - 1 ensures run'[i].halted.None? && Step(cfg, run'[i], run'[i+1]) {
      if i < |run| - 1 { assert run'[i] == run[i] && run'[i+1] == run[i+1]; }
    }
  }

  lemma OneCycle(cfg: Config, run: seq<System>, now: nat)
    requires FromPowerOn(cfg, run) && Base(cfg, Last(run), now)
    ensures FromPowerOn(cfg, run + [Cycle(cfg, Last(run))]) && Last(run + [Cycle(cfg, Last(run))]) == Cycle(cfg, Last(run))
  {
    hide Cycle, Initial, Inv;
    OneMore(cfg, run, Cycle(cfg, Last(run)));
  }

  /** Two writes to different ranks, queues for them, and time before the first refresh. */
  ghost predicate TwoTargets(cfg: Config, t0: Transaction, t1: Transaction) {
    && cfg.Valid() && !cfg.useLowPower && !t0.isRead && !t1.isRead && RankOf(cfg, t0) != RankOf(cfg, t1)
    && cfg.cmdQueueDepth >= 2 && cfg.transQueueDepth >= 1
    && cfg.refreshStagger >= 2 * Reach(cfg) + cfg.WriteLatency() + 8
  }

  /** The run has come to a time; a write was sent at `sent`, or will be. */
  ghost predicate Comes(cfg: Config, run: seq<System>, now: nat, sent: int) {
    && FromPowerOn(cfg, run) && Base(cfg, Last(run), now) && Last(run).transactions == []
    && now - sent - 1 < cfg.WriteLatency() + cfg.Burst() && WriteLane(Last(run)) == OneWrite(cfg, now - sent - 1)
  }

  lemma Alone(cfg: Config, s: System, j: int)
    requires cfg.Valid() && j < cfg.WriteLatency() + cfg.Burst() && WriteLane(s) == OneWrite(cfg, j)
    ensures !Colliding(s)
  {}

  ghost predicate AllQuiet(cfg: Config, s: System) { forall r :: 0 <= r < cfg.numRanks ==> Quiet(s, r) }

  lemma EmptyQueue(cfg: Config)
    requires cfg.Valid()
    ensures OnlyQueue(cfg, PowerOn(cfg).q, 0, 0, [])
  {
    PowerOnQueues(cfg);
    hide EmptyQueues, InRange, QueueState.Shape;
  }

  lemma PowerOnRests(cfg: Config)
    requires cfg.Valid() && !cfg.useLowPower && cfg.refreshStagger >= 1
    ensures Resting(cfg, PowerOn(cfg)) && PowerOn(cfg).refreshCountdown[0] == cfg.refreshStagger
    ensures AllQuiet(cfg, PowerOn(cfg)) && WriteLane(PowerOn(cfg)) == Lane(0, [])
  {
    PowerOnIsInitial(cfg);
    hide EmptyQueues, InRange, QueueState.Shape;
  }

  lemma RequestIs(cfg: Config, t: Transaction)
    requires cfg.Valid() && cfg.transQueueDepth >= 1
    ensures AddTransaction(cfg, PowerOn(cfg), t) == PowerOn(cfg).(transactions := [t])
    ensures Inv(cfg, AddTransaction(cfg, PowerOn(cfg), t))
  {
    PowerOnIsInitial(cfg);
    InitialInv(cfg, PowerOn(cfg));
    hide Following;
    StepInv(cfg, PowerOn(cfg), AddTransaction(cfg, PowerOn(cfg), t));
  }

  lemma FirstRequest(cfg: Config, t: Transaction)
    requires cfg.Valid() && !cfg.useLowPower && cfg.transQueueDepth >= 1 && cfg.refreshStagger >= 1
    ensures var s := AddTransaction(cfg, PowerOn(cfg), t);
      && Base(cfg, s, 0) && OnlyQueue(cfg, s.q, 0, 0, []) && AllQuiet(cfg, s) && !Colliding(s)
      && s.transactions == [t] && WriteLane(s) == Lane(0, [])
  {
    hide Inv, OnlyQueue, QueueState.Shape, EmptyQueues;
    PowerOnIsInitial(cfg);
    RequestIs(cfg, t);
    EmptyQueue(cfg);
    PowerOnRests(cfg);
  }

  /** The first cycle only breaks up the transaction. */
  lemma FirstCycle(cfg: Config, s: System, t: Transaction)
    requires Base(cfg, s, 0) && 2 <= cfg.refreshStagger && OnlyQueue(cfg, s.q, 0, 0, []) && AllQuiet(cfg, s) && !Colliding(s)
    requires s.transactions == [t] && cfg.cmdQueueDepth >= 2 && WriteLane(s) == Lane(0, [])
    ensures var s' := Cycle(cfg, s);
      && Base(cfg, s', 1) && s'.transactions == [] && PairWaits(cfg, s', t) && AllQuiet(cfg, s') && WriteLane(s') == Lane(0, [])
  {
    hide OnlyQueue, Inv, Resting, Cycle, Colliding;
    WaitCycle(cfg, s, 0, 0, 0, []);
    forall r | 0 <= r < cfg.numRanks ensures Untouched(TickTable(cfg, s.banks), r) {
      assert Quiet(s, r);
      TickTables(cfg, s.banks, r, CommandsOf(cfg, t).0, 0);
    }
    var s' := Cycle(cfg, s);
    hide TickTable, SentTable;
    var banks := TickTable(cfg, s.banks);
    forall r, b | 0 <= r < |banks| && 0 <= b < |banks[r]| ensures banks[r][b] == INITIAL_BANK { assert Untouched(banks, r); }
    NothingOpen(banks, s'.outgoingCmd);
    forall r | 0 <= r < cfg.numRanks ensures Quiet(s', r) {
      assert Quiet(s, r);
    }
  }

  lemma NothingOpen(banks: Table, p: Option<BusPacket>)
    requires (forall r, b :: 0 <= r < |banks| && 0 <= b < |banks[r]| ==> banks[r][b] == INITIAL_BANK) && ClosesAtMost(banks, p, 0, [])
    ensures p.None?
  {}

  lemma Starts(cfg: Config, t0: Transaction, t1: Transaction) returns (run: seq<System>)
    requires TwoTargets(cfg, t0, t1)
    ensures Comes(cfg, run, 1, 1 + Reach(cfg)) && PairWaits(cfg, Last(run), t0) && Quiet(Last(run), RankOf(cfg, t1))
  {
    hide Inv, Cycle, PowerOn, Initial, OnlyQueue, CommandsOf;
    PowerOnIsInitial(cfg);
    var s0 := PowerOn(cfg);
    run := [s0];
    InitialRun(cfg);
    var s1 := AddTransaction(cfg, s0, t0);
    OneMore(cfg, run, s1);
    FirstRequest(cfg, t0);
    FirstCycle(cfg, s1, t0);
    OneMore(cfg, run + [s1], Cycle(cfg, s1));
    run := run + [s1] + [Cycle(cfg, s1)];
  }

  lemma InitialRun(cfg: Config)
    requires cfg.Valid()
    ensures FromPowerOn(cfg, [PowerOn(cfg)]) && PowerOn(cfg).halted.None? && PowerOn(cfg).Shape(cfg)
  {
    PowerOnIsInitial(cfg);
  }

  /** Waiting for the row to be writable. */
  lemma {:induction false} WaitOut(cfg: Config, run: seq<System>, now: nat, t: Transaction, at: nat, sent: int, other: nat)
    returns (run': seq<System>)
    requires Comes(cfg, run, now, sent) && WriteWaits(cfg, Last(run), t, at) && at < now <= at + Reach(cfg) && !t.isRead
    requires cfg.cmdQueueDepth >= 2 && cfg.refreshStagger >= at + Reach(cfg) + 2 && other < cfg.numRanks && other != RankOf(cfg, t)
    requires at + Reach(cfg) - sent - 1 < cfg.WriteLatency() + cfg.Burst() && (sent < at || at + Reach(cfg) <= sent)
    ensures Comes(cfg, run', at + Reach(cfg), sent) && WriteWaits(cfg, Last(run'), t, at)
    ensures Quiet(Last(run), other) ==> Quiet(Last(run'), other)
    decreases at + Reach(cfg) - now
  {
    hide Inv, Resting, Cycle, WriteWaits, Quiet, Step, Initial, OneWrite, Colliding;
    if now == at + Reach(cfg) {
      run' := run;
    } else {
      var s := Last(run);
      Alone(cfg, s, now - sent - 1);
      WaitsOn(cfg, s, now, t, at, other);
      OneWriteMoves(cfg, now - sent - 1);
      OneCycle(cfg, run, now);
      run' := WaitOut(cfg, run + [Cycle(cfg, s)], now + 1, t, at, sent, other);
    }
  }

  /** The first write goes out just when the second transaction arrives. */
  lemma SecondArrives(cfg: Config, run: seq<System>, t0: Transaction, t1: Transaction) returns (run': seq<System>)
    requires TwoTargets(cfg, t0, t1) && Comes(cfg, run, 1 + Reach(cfg), 1 + Reach(cfg))
    requires WriteWaits(cfg, Last(run), t0, 1) && Quiet(Last(run), RankOf(cfg, t1))
    ensures Comes(cfg, run', 2 + Reach(cfg), 1 + Reach(cfg)) && PairWaits(cfg, Last(run'), t1)
  {
    hide Inv, Resting, Cycle, Step, Initial, Colliding, QueueState.Shape;
    var s, now := Last(run), 1 + Reach(cfg);
    var s1 := AddTransaction(cfg, s, t1);
    Requested(cfg, run, now, t1);
    Alone(cfg, s1, -1);
    SameWaits(cfg, s, s1, t0, 1);
    Writes(cfg, s1, now, t0, 1, RankOf(cfg, t1));
    OneCycle(cfg, run + [s1], now);
    run' := run + [s1] + [Cycle(cfg, s1)];
    assert Push(Lane(0, []), cfg.WriteLatency()) == OneWrite(cfg, 0);
  }

  lemma SameWaits(cfg: Config, s: System, s': System, t: Transaction, at: nat)
    requires cfg.Valid() && WriteWaits(cfg, s, t, at) && s'.q == s.q && s'.banks == s.banks
    ensures WriteWaits(cfg, s', t, at) && forall r :: Quiet(s, r) ==> Quiet(s', r)
  {}

  lemma Requested(cfg: Config, run: seq<System>, now: nat, t: Transaction)
    requires FromPowerOn(cfg, run) && Base(cfg, Last(run), now) && Last(run).transactions == [] && cfg.transQueueDepth >= 1
    ensures var s1 := AddTransaction(cfg, Last(run), t);
      FromPowerOn(cfg, run + [s1]) && Last(run + [s1]) == s1 && Base(cfg, s1, now) && s1 == Last(run).(transactions := [t])
  {
    hide Inv, Initial, Cycle;
    var s1 := AddTransaction(cfg, Last(run), t);
    OneMore(cfg, run, s1);
    StepInv(cfg, Last(run), s1);
  }

  /** Its row is opened while the first write's data are still to come, or on the bus. */
  lemma SecondOpens(cfg: Config, run: seq<System>, t0: Transaction, t1: Transaction) returns (run': seq<System>)
    requires TwoTargets(cfg, t0, t1) && !ShortBursts(cfg)
    requires Comes(cfg, run, 2 + Reach(cfg), 1 + Reach(cfg)) && PairWaits(cfg, Last(run), t1)
    ensures Comes(cfg, run', 2 + 2 * Reach(cfg), 1 + Reach(cfg)) && WriteWaits(cfg, Last(run'), t1, 2 + Reach(cfg))
  {
    hide Inv, Resting, Cycle, Colliding, OneWrite, IsRun, PairWaits, WriteWaits, PowerOn;
    var now := 2 + Reach(cfg);
    Alone(cfg, Last(run), 0);
    Opens(cfg, Last(run), now, t1, RankOf(cfg, t0));
    OneWriteMoves(cfg, 0);
    OneCycle(cfg, run, now);
    run' := WaitOut(cfg, run + [Cycle(cfg, Last(run))], now + 1, t1, now, 1 + Reach(cfg), RankOf(cfg, t0));
  }

  /** And written to as soon as it may be. */
  lemma SecondWrites(cfg: Config, run: seq<System>, t0: Transaction, t1: Transaction) returns (run': seq<System>)
    requires TwoTargets(cfg, t0, t1) && !ShortBursts(cfg)
    requires Comes(cfg, run, 2 + 2 * Reach(cfg), 1 + Reach(cfg)) && WriteWaits(cfg, Last(run), t1, 2 + Reach(cfg))
    ensures BothSent(cfg, run', 3 + 2 * Reach(cfg), 1 + Reach(cfg))
  {
    hide Inv, Resting, Cycle, Colliding, OneWrite, TwoWrites, IsRun, WriteWaits, OnlyQueue, PowerOn, CommandsOf;
    var now := 2 + 2 * Reach(cfg);
    Alone(cfg, Last(run), Reach(cfg));
    Writes(cfg, Last(run), now, t1, 2 + Reach(cfg), RankOf(cfg, t0));
    OneWriteMoves(cfg, Reach(cfg));
    OneCycle(cfg, run, now);
    SecondJoins(cfg);
    run' := run + [Cycle(cfg, Last(run))];
  }

  lemma SecondJoins(cfg: Config)
    requires cfg.Valid() && Reach(cfg) + 1 < cfg.Burst()
    ensures Push(OneWrite(cfg, 1 + Reach(cfg)), cfg.WriteLatency()) == TwoWrites(cfg, 1 + Reach(cfg))
  {}

  /** Both writes have been sent and no command waits. */
  ghost predicate BothSent(cfg: Config, run: seq<System>, now: nat, sent: int) {
    && FromPowerOn(cfg, run) && Base(cfg, Last(run), now) && Last(run).transactions == []
    && 1 + Reach(cfg) <= now - sent - 1 <= Reach(cfg) + cfg.WriteLatency() && Reach(cfg) < cfg.Burst()
    && WriteLane(Last(run)) == TwoWrites(cfg, now - sent - 1)
    && exists r: nat, k: nat :: OnlyQueue(cfg, Last(run).q, r, k, [])
  }

  /** The data move up until they meet. */
  lemma {:induction false} DataMeet(cfg: Config, run: seq<System>, now: nat, sent: int) returns (run': seq<System>)
    requires BothSent(cfg, run, now, sent) && !ShortBursts(cfg) && cfg.cmdQueueDepth >= 2
    requires sent >= 0 && cfg.refreshStagger >= sent + Reach(cfg) + cfg.WriteLatency() + 4
    ensures FromPowerOn(cfg, run') && Last(run').Shape(cfg) && Inv(cfg, Last(run')) && Last(run').halted.None?
    ensures Cycle(cfg, Last(run')).halted.Some?
    decreases sent + Reach(cfg) + cfg.WriteLatency() + 1 - now
  {
    hide Inv, Resting, Cycle, Step, Initial, Colliding, OneWrite, OnlyQueue, TwoWrites;
    var s, j := Last(run), now - sent - 1;
    Meeting(cfg, s, j);
    if Colliding(s) {
      run' := run;
      Collide(cfg, s, now);
    } else {
      var r: nat, k: nat :| OnlyQueue(cfg, s.q, r, k, []);
      DrainsOn(cfg, s, now, r, k);
      TwoWritesMove(cfg, j);
      OneCycle(cfg, run, now);
      run' := DataMeet(cfg, run + [Cycle(cfg, s)], now + 1, sent);
    }
  }

  lemma Collide(cfg: Config, s: System, now: nat)
    requires Base(cfg, s, now) && Colliding(s)
    ensures Cycle(cfg, s).halted.Some? && s.halted.None?
  {
    hide FirstHalf, Inv, Colliding;
    FirstHalfIs(cfg, s);
  }

  lemma FirstOpens(cfg: Config, t0: Transaction, t1: Transaction) returns (run: seq<System>)
    requires TwoTargets(cfg, t0, t1)
    ensures Comes(cfg, run, 2, 1 + Reach(cfg)) && WriteWaits(cfg, Last(run), t0, 1) && Quiet(Last(run), RankOf(cfg, t1))
  {
    hide Inv, Resting, Cycle, Colliding, Quiet, WriteWaits, PairWaits, OneWrite, IsRun, PowerOn;
    var start := Starts(cfg, t0, t1);
    Alone(cfg, Last(start), -1 - Reach(cfg));
    Opens(cfg, Last(start), 1, t0, RankOf(cfg, t1));
    OneWriteMoves(cfg, -1 - Reach(cfg));
    OneCycle(cfg, start, 1);
    run := start + [Cycle(cfg, Last(start))];
  }

  lemma TwoAreSent(cfg: Config, t0: Transaction, t1: Transaction) returns (run: seq<System>)
    requires TwoTargets(cfg, t0, t1) && !ShortBursts(cfg)
    ensures BothSent(cfg, run, 3 + 2 * Reach(cfg), 1 + Reach(cfg))
  {
    hide Base, PairWaits, Quiet, WriteWaits, OneWrite, PowerOn, BothSent, IsRun;
    run := FirstOpens(cfg, t0, t1);
    run := WaitOut(cfg, run, 2, t0, 1, 1 + Reach(cfg), RankOf(cfg, t1));
    run := SecondArrives(cfg, run, t0, t1);
    run := SecondOpens(cfg, run, t0, t1);
    run := SecondWrites(cfg, run, t0, t1);
  }

  /** Whenever bursts are long enough for a row of another rank to be opened and written to during one, two writes
      that come at the right times collide. */
  lemma LongBurstsCollide(cfg: Config, t0: Transaction, t1: Transaction) returns (run: seq<System>)
    requires TwoTargets(cfg, t0, t1) && !ShortBursts(cfg)
    ensures FromPowerOn(cfg, run) && Last(run).halted == Some(DataBusCollision)
  {
    hide Inv, BothSent, PowerOn, IsRun, Cycle;
    run := TwoAreSent(cfg, t0, t1);
    run := DataMeet(cfg, run, 3 + 2 * Reach(cfg), 1 + Reach(cfg));
    EndsThere(cfg, run);
    run := run + [Cycle(cfg, Last(run))];
  }

  lemma EndsThere(cfg: Config, run: seq<System>)
    requires FromPowerOn(cfg, run) && Last(run).Shape(cfg) && Inv(cfg, Last(run)) && Last(run).halted.None?
    requires Cycle(cfg, Last(run)).halted.Some?
    ensures var run' := run + [Cycle(cfg, Last(run))]; FromPowerOn(cfg, run') && Last(run').halted == Some(DataBusCollision)
  {
    hide Cycle, Inv, Initial;
    OneMore(cfg, run, Cycle(cfg, Last(run)));
    StepInv(cfg, Last(run), Cycle(cfg, Last(run)));
  }

  /** A system without low power, with writes to two ranks, room for them and time before the first refresh, never
      takes an error exit in any run if and only if its bursts are short: BL/2 is at most one more than the time
      from an ACTIVATE to a column command, max(1, tRCD - AL). */
  lemma NoExitExactly(cfg: Config, t0: Transaction, t1: Transaction)
    requires TwoTargets(cfg, t0, t1)
    ensures (forall run: seq<System>, i: nat :: IsRun(cfg, run) && i < |run| ==> run[i].halted.None?) <==>
      cfg.bl / 2 <= 1 + Max(1, cfg.tRCD - cfg.al)
  {
    hide IsRun, PowerOn;
    if cfg.bl / 2 <= 1 + Max(1, cfg.tRCD - cfg.al) {
      forall run: seq<System>, i: nat | IsRun(cfg, run) && i < |run| ensures run[i].halted.None? {
        NoExitIsTaken(cfg, run, i);
      }
    } else {
      SeveralRanks(cfg, t0, t1);
      var run := LongBurstsCollide(cfg, t0, t1);
      var end: nat := |run| - 1;
      assert IsRun(cfg, run) && run[end].halted.Some?;
    }
  }

  lemma SeveralRanks(cfg: Config, t0: Transaction, t1: Transaction)
    requires TwoTargets(cfg, t0, t1)
    ensures cfg.numRanks >= 2
  {}

  /** Bursts of four cycles, but two cycles are enough to open a row and write to it. */
  const BURSTY := Config(
    numRanks := 2, numBanks := 1, policy := ClosePage, structure := PerRank, scheduling := RankThenBank, useLowPower := false,
    cl := 2, al := 0, bl := 8, tRAS := 1, tRCD := 1, tRRD := 1, tRC := 1, tRP := 1, tCCD := 1, tRTP := 1,
    tWTR := 1, tWR := 1, tRTRS := 1, tRFC := 1, tFAW := 1, tCKE := 1, tXP := 1, tCMD := 1,
    refreshInterval := 1000, refreshStagger := 1000, transQueueDepth := 1, cmdQueueDepth := 2, totalRowAccesses := 1,
    locate := (a: nat) => Location(if a == 0 then 0 else 1, 0, 0, 0))

  lemma BurstyFits()
    ensures TwoTargets(BURSTY, Transaction(false, 0, 0), Transaction(false, 1, 1)) && !ShortBursts(BURSTY)
  {}

  /** Such a system and such a run exist. */
  lemma CollisionExample() returns (run: seq<System>)
    ensures FromPowerOn(BURSTY, run) && Last(run).halted == Some(DataBusCollision)
  {
    hide IsRun, PowerOn, TwoTargets, ShortBursts;
    BurstyFits();
    run := LongBurstsCollide(BURSTY, Transaction(false, 0, 0), Transaction(false, 1, 1));
  }
}
