/** Every command goes where the address map puts its address, and column commands only to the row of their own
    address. */
module PacketPlaces {
  import opened DramTypes
  import opened CommandQueueSpec
  import opened BankTiming
  import opened QueuePreservation
  import opened SystemSpec
  import opened SystemFrames
  import opened Refinement
  import opened BusTiming
  import opened ReadTimetable
  import opened CommandOrder
  import opened DataLane

  /** The packet names the place that the address map gives its address. */
  ghost predicate AtItsPlace(cfg: Config, p: BusPacket) {
    cfg.locate(p.address) == Location(p.rank, p.bank, p.row, p.column)
  }

  ghost predicate QueueAtPlace(cfg: Config, que: seq<BusPacket>) {
    forall i :: 0 <= i < |que| ==> AtItsPlace(cfg, que[i])
  }

  ghost predicate QueuesAtPlace(cfg: Config, q: QueueState) {
    forall r, k :: 0 <= r < |q.queues| && 0 <= k < |q.queues[r]| ==> QueueAtPlace(cfg, q.queues[r][k])
  }

  /** A command for a row, that is, any but a PRECHARGE or a REFRESH, which carry no address. */
  predicate HasAddress(p: BusPacket) { p.kind.Activate? || p.kind.IsColumn() }

  lemma SentAtPlace(cfg: Config, q: QueueState, issue: Issue)
    requires q.Shape(cfg) && Names(cfg, q, issue) && QueuesAtPlace(cfg, q)
    ensures QueuesAtPlace(cfg, Carry(cfg, q, issue).0)
    ensures !issue.NoIssue? && HasAddress(PacketOf(cfg, q, issue)) ==> AtItsPlace(cfg, PacketOf(cfg, q, issue))
  {
    hide AtItsPlace, Advance;
    if !issue.NoIssue? { AdvanceKeeps(cfg, Take(cfg, q, issue)); }
    if issue.FromQueue? {
      assert QueueAtPlace(cfg, q.queues[issue.rank][issue.slot]);
      var que := q.queues[issue.rank][issue.slot];
      var rest := Without(que, issue.index, issue.dropActivate);
      assert QueueAtPlace(cfg, rest);
    }
  }

  lemma PopAtPlace(cfg: Config, q: QueueState, t: Table, now: nat)
    requires Ready(cfg, q, t) && QueuesAtPlace(cfg, q)
    ensures var (q', p) := Pop(cfg, q, t, now);
      QueuesAtPlace(cfg, q') && (p.Some? && HasAddress(p.value) ==> AtItsPlace(cfg, p.value))
  {
    hide Choose, Carry, AtItsPlace;
    var (issue, q1) := Choose(cfg, q.(faw := TickWindows(q.faw)), t, now);
    SentAtPlace(cfg, q1, issue);
    SentPacket(cfg, q1, issue);
  }

  lemma SentPacket(cfg: Config, q: QueueState, issue: Issue)
    requires q.Shape(cfg) && Names(cfg, q, issue)
    ensures Carry(cfg, q, issue).1 == if issue.NoIssue? then None else Some(PacketOf(cfg, q, issue))
  {}

  /** Both commands of a transaction are for the place of its address, and carry its address and number. */
  lemma CommandsAtPlace(cfg: Config, t: Transaction)
    requires cfg.Valid()
    ensures var (a, c) := CommandsOf(cfg, t);
      && AtItsPlace(cfg, a) && AtItsPlace(cfg, c) && a.address == c.address == t.address && a.id == c.id == t.id
      && a.kind.Activate? && c.kind.IsColumn() && (c.kind.IsRead() <==> t.isRead) && (c.kind.AutoPrecharges() <==> cfg.policy.ClosePage?)
  {}

  lemma SplitAtPlace(cfg: Config, s: System, i: nat)
    requires s.Shape(cfg) && i < |s.transactions| && QueuesAtPlace(cfg, s.q)
    ensures QueuesAtPlace(cfg, SplitAt(cfg, s, i).q)
  {
    CommandsAtPlace(cfg, s.transactions[i]);
    hide CommandsOf, HasRoomFor, AtItsPlace;
  }

  lemma {:induction false} SplitsAtPlace(cfg: Config, s: System, i: nat)
    requires s.Shape(cfg) && QueuesAtPlace(cfg, s.q)
    ensures QueuesAtPlace(cfg, SplitFrom(cfg, s, i).q)
    decreases |s.transactions| - i
  {
    hide SplitAt, QueuesAtPlace;
    if i < |s.transactions| && s.halted.None? {
      SplitAtPlace(cfg, s, i);
      SplitsAtPlace(cfg, SplitAt(cfg, s, i), i + 1);
    }
  }

  // ----- runs -----

  /** Everything that waits in a queue or is on the command bus is at its place. */
  ghost predicate AllAtPlace(cfg: Config, s: System) {
    && QueuesAtPlace(cfg, s.q)
    && (s.outgoingCmd.Some? && HasAddress(s.outgoingCmd.value) ==> AtItsPlace(cfg, s.outgoingCmd.value))
  }

  lemma SecondHalfAtPlace(cfg: Config, m: System)
    requires m.Shape(cfg) && m.outgoingCmd.None? && m.halted.None? && SecondHalf(cfg, m).halted.None? && QueuesAtPlace(cfg, m.q)
    ensures AllAtPlace(cfg, SecondHalf(cfg, m))
  {
    hide IssuePhase, SplitFrom, PowerFrom, Pop, FindPending, QueuesAtPlace, AtItsPlace;
    PopAtPlace(cfg, m.q, m.banks, m.now);
    IssueQueues(cfg, m);
    SecondHalfFrame(cfg, m);
    SplitsAtPlace(cfg, IssuePhase(cfg, m), 0);
    PowerFrame(cfg, SplitFrom(cfg, IssuePhase(cfg, m), 0), 0);
  }

  lemma SameQueuesAtPlace(cfg: Config, q: QueueState, q': QueueState)
    requires QueuesAtPlace(cfg, q) && q'.queues == q.queues
    ensures QueuesAtPlace(cfg, q')
  {}

  lemma StepAtPlace(cfg: Config, s: System, s': System)
    requires s.Shape(cfg) && s'.Shape(cfg) && Inv(cfg, s) && Step(cfg, s, s') && s'.halted.None? && AllAtPlace(cfg, s)
    ensures AllAtPlace(cfg, s')
  {
    hide FirstHalf, SecondHalf, Following, QueuesAtPlace, AtItsPlace, RankAgrees, Pop;
    if s' == Cycle(cfg, s) {
      FirstHalfAgrees(cfg, s);
      FirstHalfFrame(cfg, s);
      var m := FirstHalf(cfg, s);
      SameQueuesAtPlace(cfg, s.q, m.q);
      SecondHalfAtPlace(cfg, m);
    }
  }

  lemma InitialAtPlace(cfg: Config, s: System)
    requires Initial(cfg, s)
    ensures AllAtPlace(cfg, s)
  {}

  /** At every point of every run each ACTIVATE and each column command, in the queues and on the command bus, is
      for the rank, bank, row and column of its own address. */
  lemma {:induction false} CommandsStayAtPlace(cfg: Config, run: seq<System>, i: nat)
    requires IsRun(cfg, run) && i < |run| && run[i].halted.None?
    ensures AllAtPlace(cfg, run[i])
    decreases i
  {
    hide Inv, Step, Initial, AllAtPlace, System.Shape;
    if i == 0 {
      InitialAtPlace(cfg, run[0]);
    } else {
      RunStep(cfg, run, i - 1);
      CommandsStayAtPlace(cfg, run, i - 1);
      StepAtPlace(cfg, run[i-1], run[i]);
    }
  }

  /** What a cycle sends suits the bank it goes to. */
  lemma CycleSuits(cfg: Config, s: System)
    requires s.Shape(cfg) && Inv(cfg, s) && Buses(cfg, s) && Cycle(cfg, s).halted.None?
    ensures var p := Cycle(cfg, s).outgoingCmd;
      && Ready(cfg, s.q, TickTable(cfg, s.banks))
      && (p.Some? ==> CommandSuits(cfg, s.q, TickTable(cfg, s.banks), p.value, s.now))
  {
    hide FirstHalf, SecondHalf, Pop, RankAgrees, Suits, TickTable, ReadsWillBeInTime, SameReadData, StepLane;
    FirstHalfAgrees(cfg, s);
    var m := FirstHalf(cfg, s);
    FirstHalfFrame(cfg, s);
    FirstHalfBuses(cfg, s);
    SecondHalfFrame(cfg, m);
    PopKeepsQueues(cfg, m.q, m.banks, m.now);
  }

  /** The column command goes to the bank and the row of its address, and that row is open. */
  ghost predicate ToItsRow(cfg: Config, s: System, p: BusPacket) {
    var place := cfg.locate(p.address);
    && place == Location(p.rank, p.bank, p.row, p.column)
    && place.rank < |s.banks| && place.bank < |s.banks[place.rank]|
    && var b := TickBank(cfg, s.banks[place.rank][place.bank]);
       b.Usable() && b.openRow == place.row
  }

  lemma SuitsItsRow(cfg: Config, s: System, p: BusPacket)
    requires Ready(cfg, s.q, TickTable(cfg, s.banks)) && CommandSuits(cfg, s.q, TickTable(cfg, s.banks), p, s.now)
    requires p.kind.IsColumn() && AtItsPlace(cfg, p)
    ensures ToItsRow(cfg, s, p)
  {
    assert Suits(cfg, TickTable(cfg, s.banks)[p.rank][p.bank], s.q.rowAccess[p.rank][p.bank], p, s.now);
  }

  /** In every run a column command is sent only while the row of its own address is open in the bank of its own
      address. */
  lemma OnlyToItsRow(cfg: Config, run: seq<System>, i: nat)
    requires IsRun(cfg, run) && i + 1 < |run| && run[i+1].halted.None? && run[i+1].now == run[i].now + 1
    requires run[i+1].outgoingCmd.Some? && run[i+1].outgoingCmd.value.kind.IsColumn()
    ensures ToItsRow(cfg, run[i], run[i+1].outgoingCmd.value)
  {
    hide Initial, Inv, Buses, Cycle, CommandSuits, Ready, QueuesAtPlace, TickTable, ToItsRow;
    RunBusStep(cfg, run, i);
    CommandsStayAtPlace(cfg, run, i + 1);
    CycleSuits(cfg, run[i]);
    SuitsItsRow(cfg, run[i], run[i+1].outgoingCmd.value);
  }
}
