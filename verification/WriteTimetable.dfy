/** Write data goes onto the bus exactly when its latency is over, and stays there for the burst. */
module WriteTimetable {
  import opened DramTypes
  import opened CommandQueueSpec
  import opened BankTiming
  import opened RankSpec
  import opened SystemSpec
  import opened SystemFrames
  import opened Refinement
  import opened BusTiming
  import opened ReadTimetable
  import opened CommandTiming

  /** The write data bus and the queue before it. */
  datatype WriteSide = WriteSide(onBus: Option<BusPacket>, left: nat, packets: seq<BusPacket>, countdowns: seq<nat>)

  function SideOf(s: System): WriteSide { WriteSide(s.outgoingData, s.dataCyclesLeft, s.writeDataToSend, s.writeDataCountdown) }

  /** At most one write is sent per cycle, so the waiting data are due one after the other. */
  ghost predicate InTurn(cfg: Config, w: WriteSide) {
    && |w.packets| == |w.countdowns| && (w.onBus.Some? ==> w.left >= 1)
    && (forall k :: 0 <= k < |w.countdowns| ==> 1 <= w.countdowns[k] <= cfg.cl + cfg.al - 1)
    && (forall k, l :: 0 <= k < l < |w.countdowns| ==> w.countdowns[k] < w.countdowns[l])
  }

  // ----- one cycle -----

  /** The bus and the queue from the start of a cycle to the call of pop. */
  ghost predicate Ages(cfg: Config, w: WriteSide, w': WriteSide) {
    var goes := |w.countdowns| > 0 && w.countdowns[0] == 1;
    && |w.packets| == |w.countdowns|
    && w'.packets == (if goes then w.packets[1..] else w.packets)
    && w'.countdowns == (if goes then DecrementAll(w.countdowns)[1..] else DecrementAll(w.countdowns))
    && (goes ==> w'.onBus == Some(w.packets[0]) && w'.left == cfg.bl / 2)
    && (w.onBus.Some? && w.left > 1 ==> w'.onBus == w.onBus && w'.left == w.left - 1)
    && (w'.onBus.Some? ==> w'.left >= 1)
  }

  lemma DataAges(cfg: Config, s: System)
    requires s.Shape(cfg) && InTurn(cfg, SideOf(s)) && WritePhase(cfg, DataPhase(cfg, s)).halted == s.halted == None
    ensures Ages(cfg, SideOf(s), SideOf(WritePhase(cfg, DataPhase(cfg, s))))
  {}

  lemma SideUntouched(cfg: Config, s: System)
    requires s.Shape(cfg)
    ensures SideOf(CommandPhase(cfg, TickPhase(cfg, BacklogPhase(cfg, RanksPhase(cfg, s))))) == SideOf(s)
  {
    hide Delivered, Update, Accepts, Receive, TickTable;
  }

  lemma RefreshLeavesSide(cfg: Config, s: System)
    requires s.Shape(cfg)
    ensures SideOf(RefreshPhase(cfg, s)) == SideOf(s)
  {}

  lemma FirstHalfAges(cfg: Config, s: System)
    requires s.Shape(cfg) && s.halted.None? && Inv(cfg, s) && InTurn(cfg, SideOf(s)) && FirstHalf(cfg, s).halted.None?
    ensures Ages(cfg, SideOf(s), SideOf(FirstHalf(cfg, s)))
  {
    hide RanksPhase, BacklogPhase, TickPhase, CommandPhase, DataPhase, WritePhase, RefreshPhase, Following, Ages, InTurn;
    SideUntouched(cfg, s);
    CommandArrives(cfg, s);
    var s1 := AtCommand(cfg, s);
    DataAges(cfg, s1);
    RefreshLeavesSide(cfg, WritePhase(cfg, DataPhase(cfg, s1)));
  }

  /** A write sent in this cycle queues up its data. */
  ghost predicate Queues(cfg: Config, w: WriteSide, c: Option<BusPacket>, w': WriteSide) {
    var writes := c.Some? && c.value.kind.IsWrite();
    && w'.onBus == w.onBus && w'.left == w.left
    && w'.packets == w.packets + (if writes then [c.value.(kind := Data)] else [])
    && w'.countdowns == w.countdowns + (if writes then [cfg.cl + cfg.al - 1] else [])
  }

  lemma IssueQueues(cfg: Config, m: System)
    requires m.Shape(cfg) && m.outgoingCmd.None? && m.halted.None?
    ensures var s1 := IssuePhase(cfg, m); s1.halted.None? && Queues(cfg, SideOf(m), s1.outgoingCmd, SideOf(s1))
  {
    hide Pop, SentTable;
  }

  lemma SecondHalfQueues(cfg: Config, m: System)
    requires m.Shape(cfg) && m.outgoingCmd.None? && m.halted.None? && SecondHalf(cfg, m).halted.None?
    ensures var s' := SecondHalf(cfg, m); Queues(cfg, SideOf(m), s'.outgoingCmd, SideOf(s'))
  {
    hide IssuePhase, SplitFrom, PowerFrom, Pop, FindPending, Queues;
    IssueQueues(cfg, m);
    var s1 := IssuePhase(cfg, m);
    SplitFrame(cfg, s1, 0);
    PowerFrame(cfg, SplitFrom(cfg, s1, 0), 0);
  }

  /** A whole cycle. */
  ghost predicate Goes(cfg: Config, w: WriteSide, c: Option<BusPacket>, w': WriteSide) {
    exists m :: Ages(cfg, w, m) && Queues(cfg, m, c, w')
  }

  lemma CycleWrites(cfg: Config, s: System)
    requires s.Shape(cfg) && s.halted.None? && Inv(cfg, s) && InTurn(cfg, SideOf(s)) && Cycle(cfg, s).halted.None?
    ensures Goes(cfg, SideOf(s), Cycle(cfg, s).outgoingCmd, SideOf(Cycle(cfg, s)))
  {
    hide FirstHalf, SecondHalf, RankAgrees, Following, Ages, Queues, InTurn;
    FirstHalfAgrees(cfg, s);
    FirstHalfAges(cfg, s);
    SecondHalfQueues(cfg, FirstHalf(cfg, s));
  }

  /** Between the two halves of a cycle no countdown is at its start any more. */
  ghost predicate Aged(cfg: Config, m: WriteSide) {
    InTurn(cfg, m) && forall k :: 0 <= k < |m.countdowns| ==> m.countdowns[k] < cfg.cl + cfg.al - 1
  }

  lemma AgesInTurn(cfg: Config, w: WriteSide, m: WriteSide)
    requires InTurn(cfg, w) && Ages(cfg, w, m)
    ensures Aged(cfg, m)
  {
    hide DecrementAll, Decrement;
    AgedCountdowns(cfg, w, m);
  }

  /** What is left of the countdowns, one lower each. */
  lemma AgedCountdowns(cfg: Config, w: WriteSide, m: WriteSide)
    requires InTurn(cfg, w) && Ages(cfg, w, m)
    ensures var cut := if |w.countdowns| > 0 && w.countdowns[0] == 1 then 1 else 0;
      && |m.countdowns| == |w.countdowns| - cut
      && forall k :: 0 <= k < |m.countdowns| ==> m.countdowns[k] == w.countdowns[k + cut] - 1
  {
    var cut := if |w.countdowns| > 0 && w.countdowns[0] == 1 then 1 else 0;
    var d := DecrementAll(w.countdowns);
    assert m.countdowns == d[cut..];
    forall k | 0 <= k < |m.countdowns| ensures m.countdowns[k] == w.countdowns[k + cut] - 1 {
      assert d[k + cut] == Decrement(w.countdowns[k + cut]);
    }
  }

  lemma QueuesInTurn(cfg: Config, m: WriteSide, c: Option<BusPacket>, w': WriteSide)
    requires cfg.Valid() && Aged(cfg, m) && Queues(cfg, m, c, w')
    ensures InTurn(cfg, w')
  {}

  lemma TurnsKept(cfg: Config, w: WriteSide, c: Option<BusPacket>, w': WriteSide)
    requires cfg.Valid() && InTurn(cfg, w) && Goes(cfg, w, c, w')
    ensures InTurn(cfg, w')
  {
    hide Ages, Queues, InTurn, Aged;
    var m :| Ages(cfg, w, m) && Queues(cfg, m, c, w');
    AgesInTurn(cfg, w, m);
    QueuesInTurn(cfg, m, c, w');
  }

  /** The packet is waiting for the bus, and will be due at that time. */
  ghost predicate Waits(w: WriteSide, p: BusPacket, now: nat, time: nat) {
    |w.packets| == |w.countdowns| && exists k :: 0 <= k < |w.packets| && w.packets[k] == p && now + w.countdowns[k] == time
  }

  lemma WaitsOn(cfg: Config, w: WriteSide, c: Option<BusPacket>, w': WriteSide, p: BusPacket, now: nat, time: nat)
    requires cfg.Valid() && InTurn(cfg, w) && Goes(cfg, w, c, w') && Waits(w, p, now, time)
    ensures time > now + 1 ==> Waits(w', p, now + 1, time)
    ensures time == now + 1 ==> w'.onBus == Some(p) && w'.left == cfg.bl / 2
  {
    var m :| Ages(cfg, w, m) && Queues(cfg, m, c, w');
    AgedCountdowns(cfg, w, m);
    hide DecrementAll, Decrement;
    var k :| 0 <= k < |w.packets| && w.packets[k] == p && now + w.countdowns[k] == time;
    if time > now + 1 {
      var l := if w.countdowns[0] == 1 then k - 1 else k;
      assert m.packets[l] == p && now + 1 + m.countdowns[l] == time;
      assert w'.packets[l] == p && now + 1 + w'.countdowns[l] == time;
    }
  }

  lemma StartsWaiting(cfg: Config, w: WriteSide, p: BusPacket, w': WriteSide, now: nat)
    requires cfg.Valid() && Goes(cfg, w, Some(p), w') && p.kind.IsWrite() && InTurn(cfg, w')
    ensures Waits(w', p.(kind := Data), now + 1, now + 1 + (cfg.cl + cfg.al - 1))
  {
    var m :| Ages(cfg, w, m) && Queues(cfg, m, Some(p), w');
    assert w'.packets[|w'.packets|-1] == p.(kind := Data);
  }

  lemma BusGoesOn(cfg: Config, w: WriteSide, c: Option<BusPacket>, w': WriteSide)
    requires Goes(cfg, w, c, w') && w.onBus.Some? && w.left > 1
    ensures w'.onBus == w.onBus && w'.left == w.left - 1
  {}

  // ----- runs -----

  lemma StepWrites(cfg: Config, s: System, s': System)
    requires s.Shape(cfg) && s'.Shape(cfg) && s.halted.None? && Inv(cfg, s) && Step(cfg, s, s') && s'.halted.None? && InTurn(cfg, SideOf(s))
    ensures InTurn(cfg, SideOf(s'))
    ensures s'.now == s.now + 1 ==> Goes(cfg, SideOf(s), s'.outgoingCmd, SideOf(s'))
    ensures s'.now != s.now + 1 ==> SideOf(s') == SideOf(s)
  {
    hide Inv, Cycle, Goes, InTurn;
    if s' == Cycle(cfg, s) {
      CycleWrites(cfg, s);
      TurnsKept(cfg, SideOf(s), s'.outgoingCmd, SideOf(s'));
      CycleClock(cfg, s);
    }
  }

  lemma CycleClock(cfg: Config, s: System)
    requires s.Shape(cfg) && Inv(cfg, s) && Cycle(cfg, s).halted.None?
    ensures Cycle(cfg, s).now == s.now + 1
  {
    hide FirstHalf, SecondHalf, RankAgrees, Following;
    FirstHalfAgrees(cfg, s);
    FirstHalfFrame(cfg, s);
    SecondHalfFrame(cfg, FirstHalf(cfg, s));
  }

  lemma InitialSide(cfg: Config, s: System)
    requires Initial(cfg, s)
    ensures InTurn(cfg, SideOf(s))
  {}

  lemma {:induction false} AlwaysInTurn(cfg: Config, run: seq<System>, i: nat)
    requires IsRun(cfg, run) && i < |run| && run[i].halted.None?
    ensures InTurn(cfg, SideOf(run[i]))
    decreases i
  {
    hide Inv, Step, Initial, InTurn, System.Shape, Goes;
    if i == 0 {
      InitialSide(cfg, run[0]);
    } else {
      RunStep(cfg, run, i - 1);
      AlwaysInTurn(cfg, run, i - 1);
      StepWrites(cfg, run[i-1], run[i]);
    }
  }

  /** Where the data of a write sent at time t are at the beginning of the cycle at time `now`: in the queue, or on
      the bus with as much of the burst left. */
  ghost predicate OnTime(cfg: Config, w: WriteSide, data: BusPacket, t: nat, now: nat) {
    var start := t + (cfg.cl + cfg.al - 1);
    if now <= start then Waits(w, data, now, start + 1)
    else now <= start + cfg.bl / 2 ==> w.onBus == Some(data) && w.left == cfg.bl / 2 - (now - start - 1)
  }

  lemma StaysOnTime(cfg: Config, w: WriteSide, c: Option<BusPacket>, w': WriteSide, data: BusPacket, t: nat, now: nat)
    requires cfg.Valid() && InTurn(cfg, w) && Goes(cfg, w, c, w') && OnTime(cfg, w, data, t, now)
    ensures OnTime(cfg, w', data, t, now + 1)
  {
    hide Waits, InTurn, Goes;
    var start := t + (cfg.cl + cfg.al - 1);
    if now <= start {
      WaitsOn(cfg, w, c, w', data, now, start + 1);
    } else if now < start + cfg.bl / 2 {
      BusGoesOn(cfg, w, c, w');
    }
  }

  /** In every run the data of a write sent in the cycle at time t are put on the bus in the cycle at time t + WL, with
      WL = CL + AL - 1, and are there for BL/2 cycles, unless the run ends in the collision exit. */
  lemma {:induction false} WriteTakesItsLatency(cfg: Config, run: seq<System>, i: nat, j: nat, p: BusPacket)
    requires IsRun(cfg, run) && i < j < |run| && run[j].halted.None? && SentAt(run, i, p) && p.kind.IsWrite()
    ensures OnTime(cfg, SideOf(run[j]), p.(kind := Data), run[i].now, run[j].now)
    decreases j
  {
    hide IsRun, Inv, Step, Initial, InTurn, System.Shape, Goes, OnTime, Buses;
    RunBusStep(cfg, run, j - 1);
    AlwaysInTurn(cfg, run, j - 1);
    StepWrites(cfg, run[j-1], run[j]);
    RunIsValid(cfg, run);
    if i == j - 1 {
      AlwaysInTurn(cfg, run, j);
      NewDataOnTime(cfg, SideOf(run[i]), p, SideOf(run[j]), run[i].now);
    } else {
      WriteTakesItsLatency(cfg, run, i, j - 1, p);
      if run[j].now == run[j-1].now + 1 {
        StaysOnTime(cfg, SideOf(run[j-1]), run[j].outgoingCmd, SideOf(run[j]), p.(kind := Data), run[i].now, run[j-1].now);
      } else {
        StepKeepsBuses(cfg, run[j-1], run[j]);
      }
    }
  }

  lemma RunIsValid(cfg: Config, run: seq<System>)
    requires IsRun(cfg, run)
    ensures cfg.Valid()
  {
    assert run[0].Shape(cfg);
  }

  lemma NewDataOnTime(cfg: Config, w: WriteSide, p: BusPacket, w': WriteSide, t: nat)
    requires cfg.Valid() && Goes(cfg, w, Some(p), w') && p.kind.IsWrite() && InTurn(cfg, w')
    ensures OnTime(cfg, w', p.(kind := Data), t, t + 1)
  {
    StartsWaiting(cfg, w, p, w', t);
    hide Waits, InTurn, Goes;
  }
}
