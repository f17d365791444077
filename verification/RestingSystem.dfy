/** A memory system with nothing to read, to refresh or to power down, and what its cycles do while only one queue
    holds anything. */
module RestingSystem {
  import opened DramTypes
  import opened RoundRobin
  import opened CommandQueueSpec
  import opened BankTiming
  import opened RankSpec
  import opened DataLane
  import opened SystemSpec
  import opened Refinement
  import opened BusTiming
  import opened ScanComplete

  // ----- a system with nothing to read, to refresh or to power down -----

  ghost predicate Resting(cfg: Config, s: System) {
    && s.Shape(cfg) && !cfg.useLowPower
    && (forall r :: 0 <= r < |s.ranks| ==> s.ranks[r].outgoingData.None? && s.ranks[r].readReturnCountdown == [])
    && s.overflow == [] && s.returned == [] && s.answered.None? && s.halted.None? && !s.q.refreshWaiting
    && s.refreshRank == 0 && s.refreshCountdown[0] >= 1 && !s.powerDown[0]
    && (s.outgoingCmd.Some? ==> !s.outgoingCmd.value.kind.IsRead())
    && (s.outgoingData.Some? ==> s.dataCyclesLeft >= 1)
  }

  lemma {:induction false} NothingDelivered(cfg: Config, ranks: seq<RankState>)
    requires forall r :: 0 <= r < |ranks| ==> Parallel(ranks[r]) && ranks[r].outgoingData.None? && ranks[r].readReturnCountdown == []
    ensures Delivered(cfg, ranks) == []
  {
    if |ranks| > 0 { NothingDelivered(cfg, ranks[..|ranks|-1]); }
  }

  lemma RanksRest(cfg: Config, s: System)
    requires Resting(cfg, s)
    ensures BacklogPhase(cfg, RanksPhase(cfg, s)) == s
  {
    NothingDelivered(cfg, s.ranks);
    forall r | 0 <= r < |s.ranks| ensures Update(cfg, s.ranks[r]).0 == s.ranks[r] {}
    assert s.returned + [] == s.returned;
    assert RanksPhase(cfg, s).ranks == s.ranks;
  }

  lemma NoRefresh(cfg: Config, s: System)
    requires Resting(cfg, s)
    ensures RefreshPhase(cfg, s) == s
  {}

  lemma {:induction false} NoPower(cfg: Config, s: System, r: nat)
    requires s.Shape(cfg) && !cfg.useLowPower
    ensures PowerFrom(cfg, s, r) == s
    decreases cfg.numRanks - r
  {
    if r < cfg.numRanks && s.halted.None? { NoPower(cfg, s, r + 1); }
  }

  // ----- up to pop -----

  lemma Arrives(cfg: Config, s: System)
    requires Inv(cfg, s) && Resting(cfg, s)
    ensures var m := AtCommand(cfg, s);
      && Resting(cfg, m) && m.outgoingCmd.None?
      && m == s.(banks := TickTable(cfg, s.banks), ranks := m.ranks, outgoingCmd := None, cmdCyclesLeft := m.cmdCyclesLeft)
  {
    RanksRest(cfg, s);
    CommandArrives(cfg, s);
    hide TickTable, BacklogPhase, RanksPhase, Following, RankAgrees, RankSpec.Accepts, ReceiveBank, Config.Valid;
  }

  /** Two packets of write data are about to meet. */
  ghost predicate Colliding(s: System) {
    |s.writeDataCountdown| > 0 && s.writeDataCountdown[0] == 1 && WriteLane(s).left > 1
  }

  /** Up to pop only the tables, the bus and the write data have moved. */
  ghost predicate AtPop(cfg: Config, s: System, m: System) {
    && Resting(cfg, m) && m.outgoingCmd.None? && m.now == s.now && m.q == s.q && m.banks == TickTable(cfg, s.banks)
    && m.transactions == s.transactions && m.refreshCountdown == s.refreshCountdown
    && WriteLane(m) == StepLane(cfg.Burst(), WriteLane(s))
  }

  lemma WriteDataMove(cfg: Config, s: System)
    requires Resting(cfg, s)
    ensures var m := WritePhase(cfg, DataPhase(cfg, s));
      if Colliding(s) then m.halted.Some?
      else Resting(cfg, m) && WriteLane(m) == StepLane(cfg.Burst(), WriteLane(s)) &&
           m == s.(outgoingData := m.outgoingData, dataCyclesLeft := m.dataCyclesLeft,
                   writeDataToSend := m.writeDataToSend, writeDataCountdown := m.writeDataCountdown)
  {}

  lemma FirstHalfIs(cfg: Config, s: System)
    requires s.Shape(cfg) && Inv(cfg, s) && Resting(cfg, s)
    ensures if Colliding(s) then FirstHalf(cfg, s).halted.Some? else AtPop(cfg, s, FirstHalf(cfg, s))
  {
    hide TickTable, Following, RanksPhase, BacklogPhase, TickPhase, CommandPhase, DataPhase, WritePhase, RefreshPhase, StepLane, Resting;
    Arrives(cfg, s);
    WriteDataMove(cfg, AtCommand(cfg, s));
    if !Colliding(s) { NoRefresh(cfg, WritePhase(cfg, DataPhase(cfg, AtCommand(cfg, s)))); }
  }

  // ----- from pop on -----

  /** The only transaction, if there is one, finds its queue empty after pop. */
  ghost predicate FindsRoom(cfg: Config, q: QueueState, ts: seq<Transaction>)
    requires q.Shape(cfg) && cfg.Valid()
  {
    |ts| <= 1 && cfg.cmdQueueDepth >= 2
    && (|ts| == 1 ==> q.queues[cfg.locate(ts[0].address).rank][cfg.SlotOf(cfg.locate(ts[0].address).bank)] == [])
  }

  function WithTransaction(cfg: Config, q: QueueState, ts: seq<Transaction>): (q': QueueState)
    requires q.Shape(cfg) && cfg.Valid()
    ensures q'.Shape(cfg)
  {
    if |ts| == 0 then q
    else
      var (a, c) := CommandsOf(cfg, ts[0]);
      SystemSpec.Enqueue(cfg, SystemSpec.Enqueue(cfg, q, a), c)
  }

  lemma SplitIs(cfg: Config, s: System)
    requires s.Shape(cfg) && s.halted.None? && FindsRoom(cfg, s.q, s.transactions)
    ensures var s' := SplitFrom(cfg, s, 0);
      s' == s.(q := WithTransaction(cfg, s.q, s.transactions), transactions := [], pendingReads := s'.pendingReads)
  {
    if |s.transactions| == 1 {
      assert s.transactions[..0] + s.transactions[1..] == [];
      assert SplitAt(cfg, s, 0) == SplitOne(cfg, s, 0);
    }
  }

  lemma IssueIs(cfg: Config, m: System)
    requires Resting(cfg, m) && m.outgoingCmd.None?
    ensures var (q', p) := Pop(cfg, m.q, m.banks, m.now);
      var s := IssuePhase(cfg, m);
      && s == m.(q := q', banks := s.banks, outgoingCmd := p, cmdCyclesLeft := s.cmdCyclesLeft,
                 writeDataToSend := s.writeDataToSend, writeDataCountdown := s.writeDataCountdown)
      && s.banks == (if p.Some? then SentTable(cfg, m.banks, p.value, m.now) else m.banks)
      && s.writeDataCountdown == m.writeDataCountdown + if p.Some? && p.value.kind.IsWrite() then [cfg.WriteLatency()] else []
  {
    hide Pop, SentTable;
  }

  /** A command sent in this cycle and a transaction broken up in it have left their marks. */
  ghost predicate AfterPop(cfg: Config, m: System, q': QueueState, p: Option<BusPacket>, s': System)
    requires cfg.Valid() && q'.Shape(cfg)
  {
    && s'.halted.None? && s'.now == m.now + 1 && s'.outgoingCmd == p && s'.transactions == []
    && s'.banks == (if p.Some? then SentTable(cfg, m.banks, p.value, m.now) else m.banks)
    && s'.q == WithTransaction(cfg, q', m.transactions)
    && s'.refreshCountdown == DecrementAll(m.refreshCountdown)
    && WriteLane(s') == (if p.Some? && p.value.kind.IsWrite() then Push(WriteLane(m), cfg.WriteLatency()) else WriteLane(m))
    && s'.outgoingData == m.outgoingData && s'.dataCyclesLeft == m.dataCyclesLeft && s'.ranks == m.ranks
    && s'.returned == [] && s'.overflow == [] && s'.answered.None? && s'.refreshRank == 0 && s'.powerDown == m.powerDown
  }

  lemma SecondHalfIs(cfg: Config, m: System)
    requires Resting(cfg, m) && m.outgoingCmd.None? && FindsRoom(cfg, Pop(cfg, m.q, m.banks, m.now).0, m.transactions)
    ensures var (q', p) := Pop(cfg, m.q, m.banks, m.now); AfterPop(cfg, m, q', p, SecondHalf(cfg, m))
  {
    hide Pop, SentTable, WithTransaction, IssuePhase, SplitFrom, PowerFrom, FindsRoom, Config.Valid;
    IssueIs(cfg, m);
    var s1 := IssuePhase(cfg, m);
    SplitIs(cfg, s1);
    NoPower(cfg, SplitFrom(cfg, s1, 0), 0);
  }

  /** A whole cycle of a resting system in which pop gives p. */
  lemma CycleIs(cfg: Config, s: System, q': QueueState, p: Option<BusPacket>)
    requires s.Shape(cfg) && Inv(cfg, s) && Resting(cfg, s) && !Colliding(s) && (p.Some? ==> !p.value.kind.IsRead())
    requires Pop(cfg, s.q, TickTable(cfg, s.banks), s.now) == (q', p) && q'.Shape(cfg) && FindsRoom(cfg, q', s.transactions)
    requires !WithTransaction(cfg, q', s.transactions).refreshWaiting && s.refreshCountdown[0] >= 2
    ensures var s' := Cycle(cfg, s);
      && Inv(cfg, s') && Resting(cfg, s') && s'.now == s.now + 1 && s'.outgoingCmd == p && s'.transactions == []
      && s'.q == WithTransaction(cfg, q', s.transactions)
      && s'.banks == (if p.Some? then SentTable(cfg, TickTable(cfg, s.banks), p.value, s.now) else TickTable(cfg, s.banks))
      && WriteLane(s') == (var l := StepLane(cfg.Burst(), WriteLane(s)); if p.Some? && p.value.kind.IsWrite() then Push(l, cfg.WriteLatency()) else l)
      && s'.refreshCountdown[0] == s.refreshCountdown[0] - 1
  {
    hide FirstHalf, SecondHalf, Pop, SentTable, TickTable, WithTransaction, FindsRoom, Following, StepLane, Config.Valid;
    FirstHalfIs(cfg, s);
    var m := FirstHalf(cfg, s);
    SecondHalfIs(cfg, m);
    StepInv(cfg, s, Cycle(cfg, s));
  }

  // ----- what pop does when only one queue holds anything -----

  /** All queues are empty but one, and no row has been used beyond its first access. */
  ghost predicate OnlyQueue(cfg: Config, q: QueueState, r: nat, k: nat, que: seq<BusPacket>) {
    && q.Shape(cfg) && !q.refreshWaiting && r < cfg.numRanks && k < cfg.Slots() && q.queues[r][k] == que
    && (forall i, j :: 0 <= i < cfg.numRanks && 0 <= j < cfg.Slots() && (i != r || j != k) ==> q.queues[i][j] == [])
    && (forall i, b :: 0 <= i < cfg.numRanks && 0 <= b < cfg.numBanks ==> q.rowAccess[i][b] == 0)
  }

  /** The front of the only queue goes out if it may. */
  lemma ChoosesFront(cfg: Config, q: QueueState, t: Table, now: nat, r: nat, k: nat, b: nat, que: seq<BusPacket>)
    requires Ready(cfg, q, t) && OnlyQueue(cfg, q, r, k, que) && b < cfg.numBanks && k == cfg.SlotOf(b) && |que| > 0
    requires Fits(cfg, ViewOf(q, t, r), que) && Eligible(cfg, ViewOf(q, t, r), que, 0, now)
    ensures var (issue, q1) := Choose(cfg, q, t, now);
      issue == FromQueue(r, k, 0, false) && q1 == q.(nextRank := q1.nextRank, nextBank := q1.nextBank)
  {
    hide Eligible, FirstEligible, NextQueue, SearchClose;
    var c := Cursor(q.nextRank, q.nextBank);
    SearchIsComplete(cfg, q, t, c, now);
    assert !Blocked(q, r) && que == QueueAt(cfg, q, Cursor(r, b));
    assert InGrid(cfg, Cursor(r, b));
    var (d, issue) := Search(cfg, q, t, c, QueueCount(cfg), now);
    assert !issue.NoIssue?;
    assert QueueAt(cfg, q, d) != [];
    assert FirstEligible(cfg, ViewOf(q, t, r), que, 0, now) == 0;
  }

  lemma FrontTaken(cfg: Config, q: QueueState, r: nat, k: nat, que: seq<BusPacket>)
    requires cfg.Valid() && OnlyQueue(cfg, q, r, k, que) && |que| > 0
    ensures var (q', p) := Carry(cfg, q, FromQueue(r, k, 0, false));
      && p == Some(que[0]) && OnlyQueue(cfg, q', r, k, que[1..])
      && forall i :: 0 <= i < cfg.numRanks && (i != r || !que[0].kind.Activate?) ==> q'.faw[i] == q.faw[i]
  {
    assert que[..0] + que[1..] == que[1..];
    hide NextRankAndBank, InRange, Config.Valid;
  }

  lemma TickedQueue(cfg: Config, q: QueueState, t: Table, r: nat, k: nat, que: seq<BusPacket>)
    requires Ready(cfg, q, t) && OnlyQueue(cfg, q, r, k, que)
    ensures var q0 := q.(faw := TickWindows(q.faw)); Ready(cfg, q0, t) && OnlyQueue(cfg, q0, r, k, que)
  {}

  /** Pop sends the front and leaves the rest. */
  lemma PopSends(cfg: Config, q: QueueState, t: Table, now: nat, r: nat, k: nat, b: nat, que: seq<BusPacket>)
    requires Ready(cfg, q, t) && OnlyQueue(cfg, q, r, k, que) && b < cfg.numBanks && k == cfg.SlotOf(b) && |que| > 0
    requires var v := ViewOf(q.(faw := TickWindows(q.faw)), t, r); Fits(cfg, v, que) && Eligible(cfg, v, que, 0, now)
    ensures var (q', p) := Pop(cfg, q, t, now);
      && p == Some(que[0]) && OnlyQueue(cfg, q', r, k, que[1..])
      && forall i :: 0 <= i < cfg.numRanks && (i != r || !que[0].kind.Activate?) ==> q'.faw[i] == TickWindow(q.faw[i])
  {
    hide OnlyQueue, Eligible, Carry, Choose;
    TickedQueue(cfg, q, t, r, k, que);
    var q0 := q.(faw := TickWindows(q.faw));
    ChoosesFront(cfg, q0, t, now, r, k, b, que);
    var q1 := Choose(cfg, q0, t, now).1;
    SameOnly(cfg, q0, q1, r, k, que);
    FrontTaken(cfg, q1, r, k, que);
  }

  lemma SameOnly(cfg: Config, q: QueueState, q': QueueState, r: nat, k: nat, que: seq<BusPacket>)
    requires OnlyQueue(cfg, q, r, k, que) && q'.Shape(cfg) && q'.queues == q.queues && q'.rowAccess == q.rowAccess
    requires q'.refreshWaiting == q.refreshWaiting
    ensures OnlyQueue(cfg, q', r, k, que)
  {}

  // A queue with at most one packet, a column command for its row.

  /** Nothing may go yet, and no row that the packet waits for is closed meanwhile. */
  ghost predicate Waits(cfg: Config, q: QueueState, t: Table, now: nat, r: nat, que: seq<BusPacket>)
    requires q.Shape(cfg) && TableShape(cfg, t) && r < cfg.numRanks
  {
    |que| <= 1 && (|que| == 1 ==>
      && que[0].rank == r && que[0].bank < cfg.numBanks && que[0].kind.IsColumn()
      && !IsIssuable(cfg, ViewOf(q, t, r), que[0], now) && t[r][que[0].bank].openRow == que[0].row)
  }

  /** While the packet waits pop sends nothing, or closes another row. */
  lemma ChoosesNothing(cfg: Config, q: QueueState, t: Table, now: nat, r: nat, k: nat, que: seq<BusPacket>)
    requires Ready(cfg, q, t) && OnlyQueue(cfg, q, r, k, que) && Waits(cfg, q, t, now, r, que)
    requires |que| == 1 ==> k == cfg.SlotOf(que[0].bank)
    ensures var (issue, q1) := Choose(cfg, q, t, now);
      && (issue.NoIssue?
          || (issue.CloseRow? && t[issue.rank][issue.bank].phase.RowActive?
              && (|que| == 1 ==> issue.rank != r || issue.bank != que[0].bank)))
      && q1 == q.(nextRank := q1.nextRank, nextBank := q1.nextBank, nextRankPRE := q1.nextRankPRE, nextBankPRE := q1.nextBankPRE)
  {
    hide FirstEligible, NextQueue, SearchClose, IsIssuable, Search;
    var c := Cursor(q.nextRank, q.nextBank);
    SearchIsComplete(cfg, q, t, c, now);
    forall d, i | InGrid(cfg, d) && !Blocked(q, d.rank) && 0 <= i < |QueueAt(cfg, q, d)|
      ensures !Eligible(cfg, ViewOf(q, t, d.rank), QueueAt(cfg, q, d), i, now)
    {}
    if cfg.policy.OpenPage? {
      var start := Cursor(q.nextRankPRE, q.nextBankPRE);
      var (e, closing) := SearchClose(cfg, q, t, start, CloseStop(cfg, start), now);
    }
  }

  lemma NothingTaken(cfg: Config, q: QueueState, issue: Issue, r: nat, k: nat, que: seq<BusPacket>)
    requires cfg.Valid() && OnlyQueue(cfg, q, r, k, que) && Names(cfg, q, issue) && (issue.NoIssue? || issue.CloseRow?)
    ensures var (q', p) := Carry(cfg, q, issue);
      && OnlyQueue(cfg, q', r, k, que) && q'.faw == q.faw
      && p == (if issue.NoIssue? then None else Some(BusPacket(Precharge, 0, 0, 0, issue.rank, issue.bank, 0)))
  {
    hide NextRankAndBank, InRange, Config.Valid;
  }

  /** Nothing was sent, or a PRECHARGE for an open row nobody waits for. */
  ghost predicate ClosesAtMost(t: Table, p: Option<BusPacket>, r: nat, que: seq<BusPacket>) {
    p.Some? ==>
      && p.value.kind.Precharge? && p.value.rank < |t| && p.value.bank < |t[p.value.rank]|
      && t[p.value.rank][p.value.bank].phase.RowActive?
      && (|que| == 1 ==> p.value.rank != r || p.value.bank != que[0].bank)
  }

  lemma PopWaits(cfg: Config, q: QueueState, t: Table, now: nat, r: nat, k: nat, que: seq<BusPacket>)
    requires Ready(cfg, q, t) && OnlyQueue(cfg, q, r, k, que) && (|que| == 1 ==> k == cfg.SlotOf(que[0].bank))
    requires Waits(cfg, q.(faw := TickWindows(q.faw)), t, now, r, que)
    ensures var (q', p) := Pop(cfg, q, t, now);
      && OnlyQueue(cfg, q', r, k, que) && q'.faw == TickWindows(q.faw) && ClosesAtMost(t, p, r, que)
  {
    hide OnlyQueue, Waits, Carry, Choose;
    TickedQueue(cfg, q, t, r, k, que);
    var q0 := q.(faw := TickWindows(q.faw));
    ChoosesNothing(cfg, q0, t, now, r, k, que);
    var (issue, q1) := Choose(cfg, q0, t, now);
    SameOnly(cfg, q0, q1, r, k, que);
    NothingTaken(cfg, q1, issue, r, k, que);
  }

  // ----- cycles of the run -----

  ghost predicate Base(cfg: Config, s: System, now: nat) {
    s.Shape(cfg) && Inv(cfg, s) && Resting(cfg, s) && s.now == now && s.refreshCountdown[0] + now == cfg.refreshStagger
  }

  /** A cycle in which the front of the only queue goes out. */
  lemma SendCycle(cfg: Config, s: System, now: nat, r: nat, k: nat, b: nat, que: seq<BusPacket>)
    requires Base(cfg, s, now) && now + 2 <= cfg.refreshStagger && !Colliding(s) && OnlyQueue(cfg, s.q, r, k, que)
    requires b < cfg.numBanks && k == cfg.SlotOf(b) && |que| > 0 && !que[0].kind.IsRead()
    requires |s.transactions| <= 1 && cfg.cmdQueueDepth >= 2 && (s.transactions != [] ==> |que| == 1)
    requires var v := ViewOf(s.q.(faw := TickWindows(s.q.faw)), TickTable(cfg, s.banks), r);
      Fits(cfg, v, que) && Eligible(cfg, v, que, 0, now)
    ensures var s' := Cycle(cfg, s);
      && Base(cfg, s', now + 1) && s'.transactions == [] && s'.outgoingCmd == Some(que[0])
      && s'.banks == SentTable(cfg, TickTable(cfg, s.banks), que[0], now)
      && WriteLane(s') == (var l := StepLane(cfg.Burst(), WriteLane(s)); if que[0].kind.IsWrite() then Push(l, cfg.WriteLatency()) else l)
      && (forall i :: 0 <= i < cfg.numRanks && (i != r || !que[0].kind.Activate?) ==> s'.q.faw[i] == TickWindow(s.q.faw[i]))
      && (s.transactions == [] ==> OnlyQueue(cfg, s'.q, r, k, que[1..]))
      && (s.transactions != [] ==>
            var (a, c) := CommandsOf(cfg, s.transactions[0]); OnlyQueue(cfg, s'.q, a.rank, cfg.SlotOf(a.bank), [a, c]))
  {
    hide Pop, SentTable, TickTable, OnlyQueue, Eligible, Inv, Resting, StepLane, CommandsOf, Cycle, TickWindow, Fits, Enqueue;
    TickedReady(cfg, s);
    PopSends(cfg, s.q, TickTable(cfg, s.banks), now, r, k, b, que);
    var (q', p) := Pop(cfg, s.q, TickTable(cfg, s.banks), now);
    TransactionAdded(cfg, q', r, k, que[1..], s.transactions);
    CycleIs(cfg, s, q', p);
  }

  lemma TickedReady(cfg: Config, s: System)
    requires s.Shape(cfg)
    ensures Ready(cfg, s.q, TickTable(cfg, s.banks))
  {}

  lemma TransactionAdded(cfg: Config, q: QueueState, r: nat, k: nat, que: seq<BusPacket>, ts: seq<Transaction>)
    requires cfg.Valid() && OnlyQueue(cfg, q, r, k, que) && |ts| <= 1 && (ts != [] ==> que == []) && cfg.cmdQueueDepth >= 2
    ensures FindsRoom(cfg, q, ts)
    ensures var q' := WithTransaction(cfg, q, ts);
      && q'.faw == q.faw && !q'.refreshWaiting
      && (ts == [] ==> OnlyQueue(cfg, q', r, k, que))
      && (ts != [] ==> var (a, c) := CommandsOf(cfg, ts[0]); OnlyQueue(cfg, q', a.rank, cfg.SlotOf(a.bank), [a, c]))
  {
    hide InRange;
    if ts != [] {
      var (a, c) := CommandsOf(cfg, ts[0]);
      assert [] + [a] == [a];
      assert [a] + [c] == [a, c];
    }
  }

  /** A cycle in which nothing, or only a PRECHARGE for another row, goes out. */
  lemma WaitCycle(cfg: Config, s: System, now: nat, r: nat, k: nat, que: seq<BusPacket>)
    requires Base(cfg, s, now) && now + 2 <= cfg.refreshStagger && !Colliding(s) && OnlyQueue(cfg, s.q, r, k, que)
    requires (|que| == 1 ==> k == cfg.SlotOf(que[0].bank)) && cfg.cmdQueueDepth >= 2
    requires Waits(cfg, s.q.(faw := TickWindows(s.q.faw)), TickTable(cfg, s.banks), now, r, que)
    requires |s.transactions| <= 1 && (s.transactions != [] ==> que == [])
    ensures var s' := Cycle(cfg, s);
      && Base(cfg, s', now + 1) && s'.transactions == [] && s'.q.faw == TickWindows(s.q.faw)
      && ClosesAtMost(TickTable(cfg, s.banks), s'.outgoingCmd, r, que)
      && s'.banks == (if s'.outgoingCmd.Some? then SentTable(cfg, TickTable(cfg, s.banks), s'.outgoingCmd.value, now) else TickTable(cfg, s.banks))
      && WriteLane(s') == StepLane(cfg.Burst(), WriteLane(s))
      && (s.transactions == [] ==> OnlyQueue(cfg, s'.q, r, k, que))
      && (s.transactions != [] ==>
            var (a, c) := CommandsOf(cfg, s.transactions[0]); OnlyQueue(cfg, s'.q, a.rank, cfg.SlotOf(a.bank), [a, c]))
  {
    hide Pop, SentTable, TickTable, OnlyQueue, Waits, Inv, Resting, StepLane, CommandsOf, Cycle, TickWindow, Enqueue;
    TickedReady(cfg, s);
    PopWaits(cfg, s.q, TickTable(cfg, s.banks), now, r, k, que);
    var (q', p) := Pop(cfg, s.q, TickTable(cfg, s.banks), now);
    TransactionAdded(cfg, q', r, k, que, s.transactions);
    CycleIs(cfg, s, q', p);
  }
}
