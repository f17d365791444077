/** Column commands leave the command queue in the order they entered it: per rank, bank and row under open
    page, per rank and bank under close page. */
module CommandOrder {
  import opened DramTypes
  import opened BankTiming
  import opened CommandQueueSpec
  import opened QueueInvariant
  import opened QueuePreservation
  import opened SystemSpec
  import opened SystemFrames
  import opened Refinement

  /** Commands whose order matters to each other: one bank, and under open page one row. */
  datatype Stream = Stream(rank: nat, bank: nat, row: nat)

  predicate InStream(cfg: Config, st: Stream, p: BusPacket) {
    p.kind.IsColumn() && p.bank == st.bank && (cfg.policy.OpenPage? ==> p.row == st.row)
  }

  /** The commands of a stream waiting in a queue, oldest first. */
  function Waiting(cfg: Config, st: Stream, que: seq<BusPacket>): seq<BusPacket> {
    if |que| == 0 then []
    else Waiting(cfg, st, que[..|que|-1]) + if InStream(cfg, st, que[|que|-1]) then [que[|que|-1]] else []
  }

  lemma {:induction false} WaitingAppend(cfg: Config, st: Stream, a: seq<BusPacket>, b: seq<BusPacket>)
    ensures Waiting(cfg, st, a + b) == Waiting(cfg, st, a) + Waiting(cfg, st, b)
    decreases |b|
  {
    if |b| == 0 {
      assert a + b == a;
    } else {
      assert (a + b)[..|a + b|-1] == a + b[..|b|-1];
      WaitingAppend(cfg, st, a, b[..|b|-1]);
    }
  }

  lemma WaitingOne(cfg: Config, st: Stream, p: BusPacket)
    ensures Waiting(cfg, st, [p]) == if InStream(cfg, st, p) then [p] else []
  {
    assert [p][..0] == [];
  }

  lemma {:induction false} NobodyWaits(cfg: Config, st: Stream, que: seq<BusPacket>)
    requires forall i :: 0 <= i < |que| ==> !InStream(cfg, st, que[i])
    ensures Waiting(cfg, st, que) == []
  {
    if |que| > 0 { NobodyWaits(cfg, st, que[..|que|-1]); }
  }

  /** Taking a packet of the stream that no other of the stream precedes, or one of another stream. */
  lemma WithoutKeepsOrder(cfg: Config, st: Stream, que: seq<BusPacket>, i: nat, drop: bool)
    requires i < |que| && (drop ==> i > 0 && que[i-1].kind.Activate?)
    requires InStream(cfg, st, que[i]) ==> forall j :: 0 <= j < i ==> !InStream(cfg, st, que[j])
    ensures Waiting(cfg, st, que) == (if InStream(cfg, st, que[i]) then [que[i]] else []) + Waiting(cfg, st, Without(que, i, drop))
  {
    hide InStream, Waiting;
    var front := que[..if drop then i - 1 else i];
    assert que == que[..i] + [que[i]] + que[i+1..];
    WaitingAppend(cfg, st, que[..i] + [que[i]], que[i+1..]);
    WaitingAppend(cfg, st, que[..i], [que[i]]);
    WaitingAppend(cfg, st, front, que[i+1..]);
    WaitingOne(cfg, st, que[i]);
    assert Without(que, i, drop) == front + que[i+1..];
    if drop {
      DropActivate(cfg, st, que[..i]);
      assert que[..i][..i-1] == front;
    }
    assert Waiting(cfg, st, que[..i]) == Waiting(cfg, st, front);
    if InStream(cfg, st, que[i]) { NobodyWaits(cfg, st, que[..i]); }
  }

  lemma DropActivate(cfg: Config, st: Stream, que: seq<BusPacket>)
    requires |que| > 0 && que[|que|-1].kind.Activate?
    ensures Waiting(cfg, st, que[..|que|-1]) == Waiting(cfg, st, que)
  {}

  /** A safe choice is the oldest of its stream. */
  lemma GoodPickIsOldest(cfg: Config, v: RankView, que: seq<BusPacket>, slot: nat, i: nat, drop: bool, now: nat, st: Stream)
    requires QueueOk(cfg, que, slot, v) && i < |que| && GoodPick(cfg, v, que, i, drop, now) && InStream(cfg, st, que[i])
    ensures forall j :: 0 <= j < i ==> !InStream(cfg, st, que[j])
  {
    if cfg.policy.ClosePage? { assert FirstOfBank(que, i); }
  }

  lemma PickInOrder(cfg: Config, v: RankView, que: seq<BusPacket>, slot: nat, i: nat, drop: bool, now: nat, st: Stream)
    requires QueueOk(cfg, que, slot, v) && i < |que| && GoodPick(cfg, v, que, i, drop, now) && (drop ==> i > 0)
    ensures Waiting(cfg, st, que) == (if InStream(cfg, st, que[i]) then [que[i]] else []) + Waiting(cfg, st, Without(que, i, drop))
    ensures cfg.structure.PerRankPerBank? ==> que[i].bank == slot
  {
    hide Waiting, InStream, Without, IsIssuable, LonesHeld, FirstOfBank;
    if InStream(cfg, st, que[i]) { GoodPickIsOldest(cfg, v, que, slot, i, drop, now, st); }
    WithoutKeepsOrder(cfg, st, que, i, drop);
  }

  function WaitingAt(cfg: Config, q: QueueState, st: Stream): seq<BusPacket>
    requires q.Shape(cfg) && st.rank < cfg.numRanks && st.bank < cfg.numBanks
  {
    Waiting(cfg, st, q.queues[st.rank][cfg.SlotOf(st.bank)])
  }

  function SentIn(cfg: Config, st: Stream, p: Option<BusPacket>): seq<BusPacket> {
    if p.Some? && p.value.rank == st.rank && InStream(cfg, st, p.value) then [p.value] else []
  }

  lemma TakeTouches(cfg: Config, q: QueueState, issue: Issue, r: nat, k: nat)
    requires q.Shape(cfg) && Names(cfg, q, issue) && r < cfg.numRanks && k < cfg.Slots()
    ensures Take(cfg, q, issue).queues[r][k] ==
      if issue.FromQueue? && r == issue.rank && k == issue.slot then Without(q.queues[r][k], issue.index, issue.dropActivate)
      else q.queues[r][k]
  {
    hide Without;
  }

  lemma TakeInOrder(cfg: Config, q: QueueState, t: Table, issue: Issue, now: nat, st: Stream)
    requires QueuesOk(cfg, q, t, now) && GoodIssue(cfg, q, t, issue, now) && !issue.NoIssue?
    requires st.rank < cfg.numRanks && st.bank < cfg.numBanks
    ensures WaitingAt(cfg, q, st) == SentIn(cfg, st, Some(PacketOf(cfg, q, issue))) + WaitingAt(cfg, Take(cfg, q, issue), st)
  {
    hide GoodPick, Waiting, Without, QueueOk, BankOk, Take;
    TakeTouches(cfg, q, issue, st.rank, cfg.SlotOf(st.bank));
    if issue.FromQueue? {
      var r, k := issue.rank, issue.slot;
      var v := ViewOf(q, t, r);
      assert RankOk(cfg, q.queues[r], v, now);
      assert QueueOk(cfg, q.queues[r][k], k, v);
      PickInOrder(cfg, v, q.queues[r][k], k, issue.index, issue.dropActivate, now, st);
    }
  }

  /** One call of pop: what it sends of a stream is the oldest command waiting there. */
  lemma PopInOrder(cfg: Config, q: QueueState, t: Table, now: nat, st: Stream)
    requires QueuesOk(cfg, q, t, now) && st.rank < cfg.numRanks && st.bank < cfg.numBanks
    ensures var (q', p) := Pop(cfg, q, t, now);
      WaitingAt(cfg, q, st) == SentIn(cfg, st, p) + WaitingAt(cfg, q', st)
  {
    hide Choose, TickWindow, Take, Advance, RankOk, Waiting, GoodIssue, InStream;
    var q0 := q.(faw := TickWindows(q.faw));
    SameQueuesOk(cfg, q, q0, t, now);
    ChoiceIsGood(cfg, q0, t, now);
    var (issue, q1) := Choose(cfg, q0, t, now);
    SameQueuesOk(cfg, q0, q1, t, now);
    if !issue.NoIssue? {
      SameGoodIssue(cfg, q0, q1, t, issue, now);
      TakeInOrder(cfg, q1, t, issue, now, st);
      AdvanceKeeps(cfg, Take(cfg, q1, issue));
    }
  }

  lemma AdvanceKeeps(cfg: Config, q: QueueState)
    requires q.Shape(cfg)
    ensures Advance(cfg, q).queues == q.queues
  {}

  // ----- breaking up transactions only appends -----

  ghost predicate Grown(queues: seq<seq<seq<BusPacket>>>, queues': seq<seq<seq<BusPacket>>>) {
    && |queues'| == |queues|
    && (forall r :: 0 <= r < |queues| ==> |queues'[r]| == |queues[r]|)
    && forall r, k :: 0 <= r < |queues| && 0 <= k < |queues[r]| ==> queues[r][k] <= queues'[r][k]
  }

  lemma EnqueueGrows(cfg: Config, q: QueueState, p: BusPacket)
    requires q.Shape(cfg) && p.rank < cfg.numRanks && p.bank < cfg.numBanks && (p.kind.Activate? || p.kind.IsColumn())
    ensures Grown(q.queues, Enqueue(cfg, q, p).queues)
  {}

  lemma GrownTwice(a: seq<seq<seq<BusPacket>>>, b: seq<seq<seq<BusPacket>>>, c: seq<seq<seq<BusPacket>>>)
    requires Grown(a, b) && Grown(b, c)
    ensures Grown(a, c)
  {
    forall r, k | 0 <= r < |a| && 0 <= k < |a[r]| ensures a[r][k] <= c[r][k] {
      assert a[r][k] <= b[r][k] && b[r][k] <= c[r][k];
    }
  }

  lemma SplitAtGrows(cfg: Config, s: System, i: nat)
    requires s.Shape(cfg) && i < |s.transactions|
    ensures Grown(s.q.queues, SplitAt(cfg, s, i).q.queues)
  {
    hide Enqueue, HasRoomFor, Grown;
    var (a, c) := CommandsOf(cfg, s.transactions[i]);
    var q1 := Enqueue(cfg, s.q, a);
    EnqueueGrows(cfg, s.q, a);
    EnqueueGrows(cfg, q1, c);
    GrownTwice(s.q.queues, q1.queues, Enqueue(cfg, q1, c).queues);
    NotGrown(s.q.queues);
  }

  lemma NotGrown(queues: seq<seq<seq<BusPacket>>>)
    ensures Grown(queues, queues)
  {}

  lemma {:induction false} SplitGrows(cfg: Config, s: System, i: nat)
    requires s.Shape(cfg)
    ensures Grown(s.q.queues, SplitFrom(cfg, s, i).q.queues)
    decreases |s.transactions| - i
  {
    hide SplitAt, Grown;
    NotGrown(s.q.queues);
    if i < |s.transactions| && s.halted.None? {
      SplitAtGrows(cfg, s, i);
      SplitGrows(cfg, SplitAt(cfg, s, i), i + 1);
      GrownTwice(s.q.queues, SplitAt(cfg, s, i).q.queues, SplitFrom(cfg, s, i).q.queues);
    }
  }

  lemma SecondHalfGrows(cfg: Config, m: System)
    requires m.Shape(cfg) && m.outgoingCmd.None? && m.halted.None? && SecondHalf(cfg, m).halted.None?
    ensures Grown(Pop(cfg, m.q, m.banks, m.now).0.queues, SecondHalf(cfg, m).q.queues)
    ensures SecondHalf(cfg, m).outgoingCmd == Pop(cfg, m.q, m.banks, m.now).1 && SecondHalf(cfg, m).now == m.now + 1
  {
    hide IssuePhase, SplitFrom, PowerFrom, Pop, FindPending, Grown;
    SecondHalfFrame(cfg, m);
    IssueQueues(cfg, m);
    var s1 := IssuePhase(cfg, m);
    SplitGrows(cfg, s1, 0);
    PowerFrame(cfg, SplitFrom(cfg, s1, 0), 0);
  }

  lemma IssueQueues(cfg: Config, m: System)
    requires m.Shape(cfg) && m.outgoingCmd.None? && m.halted.None?
    ensures IssuePhase(cfg, m).q == Pop(cfg, m.q, m.banks, m.now).0 && IssuePhase(cfg, m).halted.None?
  {
    hide Pop, SentTable;
  }

  lemma GrownWaiting(cfg: Config, q: QueueState, q': QueueState, st: Stream)
    requires q.Shape(cfg) && q'.Shape(cfg) && Grown(q.queues, q'.queues) && st.rank < cfg.numRanks && st.bank < cfg.numBanks
    ensures WaitingAt(cfg, q, st) <= WaitingAt(cfg, q', st)
  {
    var a, b := q.queues[st.rank][cfg.SlotOf(st.bank)], q'.queues[st.rank][cfg.SlotOf(st.bank)];
    assert a <= b;
    assert b == a + b[|a|..];
    WaitingAppend(cfg, st, a, b[|a|..]);
  }

  // ----- runs -----

  /** A cycle sends the oldest command of the stream or none, and new ones queue behind the rest. */
  lemma CycleInOrder(cfg: Config, s: System, st: Stream)
    requires s.Shape(cfg) && Inv(cfg, s) && Cycle(cfg, s).halted.None? && st.rank < cfg.numRanks && st.bank < cfg.numBanks
    ensures var s' := Cycle(cfg, s);
      s'.now == s.now + 1 && WaitingAt(cfg, s.q, st) <= SentIn(cfg, st, s'.outgoingCmd) + WaitingAt(cfg, s'.q, st)
  {
    hide FirstHalf, SecondHalf, Pop, Waiting, InStream, RankOk, RankAgrees, Following, SentIn, Grown;
    FirstHalfAgrees(cfg, s);
    FirstHalfFrame(cfg, s);
    var m := FirstHalf(cfg, s);
    SecondHalfGrows(cfg, m);
    PopInOrder(cfg, m.q, m.banks, m.now, st);
    GrownWaiting(cfg, Pop(cfg, m.q, m.banks, m.now).0, SecondHalf(cfg, m).q, st);
  }

  /** The commands of a stream that the first i steps of a run sent, in order. */
  ghost function SentSoFar(cfg: Config, run: seq<System>, i: nat, st: Stream): seq<BusPacket>
    requires i < |run|
  {
    if i == 0 then []
    else SentSoFar(cfg, run, i - 1, st) +
         if run[i].now == run[i-1].now + 1 then SentIn(cfg, st, run[i].outgoingCmd) else []
  }

  lemma StepInOrder(cfg: Config, s: System, s': System, st: Stream)
    requires s.Shape(cfg) && s'.Shape(cfg) && Inv(cfg, s) && Step(cfg, s, s') && s'.halted.None?
    requires st.rank < cfg.numRanks && st.bank < cfg.numBanks
    ensures WaitingAt(cfg, s.q, st) <=
      (if s'.now == s.now + 1 then SentIn(cfg, st, s'.outgoingCmd) else []) + WaitingAt(cfg, s'.q, st)
  {
    hide Inv, Cycle, Waiting, SentIn;
    if s' == Cycle(cfg, s) { CycleInOrder(cfg, s, st); }
  }

  /** The commands of a stream sent so far followed by those still waiting: as a run goes on this list only
      grows at its end. So each command leaves in the order it was enqueued, exactly once. */
  lemma {:induction false} FirstInFirstOut(cfg: Config, run: seq<System>, i: nat, j: nat, st: Stream)
    requires IsRun(cfg, run) && i <= j < |run| && run[j].halted.None?
    requires run[i].Shape(cfg) && run[j].Shape(cfg) && st.rank < cfg.numRanks && st.bank < cfg.numBanks
    ensures SentSoFar(cfg, run, i, st) + WaitingAt(cfg, run[i].q, st) <= SentSoFar(cfg, run, j, st) + WaitingAt(cfg, run[j].q, st)
    decreases j
  {
    hide Inv, Step, Initial, Waiting, SentIn, System.Shape;
    if i < j {
      RunStep(cfg, run, j - 1);
      FirstInFirstOut(cfg, run, i, j - 1, st);
      StepInOrder(cfg, run[j-1], run[j], st);
    }
  }
}
