/** No read is lost or invented: at every moment of every run the reads the controller still has to answer
    are exactly those in the queues, on the command bus, in the ranks and among the returned data. */
module ReadConservation {
  import opened DramTypes
  import opened CommandQueueSpec
  import opened BankTiming
  import opened QueueInvariant
  import opened RankSpec
  import opened DataLane
  import opened SystemSpec
  import opened SystemFrames
  import opened Refinement
  import opened BusTiming
  import opened ReadTimetable

  // ----- adding up addresses -----

  function Sum<T>(f: T -> multiset<nat>, xs: seq<T>): multiset<nat> {
    if |xs| == 0 then multiset{} else Sum(f, xs[..|xs|-1]) + f(xs[|xs|-1])
  }

  lemma {:induction false} SumAppend<T>(f: T -> multiset<nat>, xs: seq<T>, ys: seq<T>)
    ensures Sum(f, xs + ys) == Sum(f, xs) + Sum(f, ys)
    decreases |ys|
  {
    if |ys| == 0 {
      assert xs + ys == xs;
    } else {
      assert (xs + ys)[..|xs + ys|-1] == xs + ys[..|ys|-1];
      SumAppend(f, xs, ys[..|ys|-1]);
    }
  }

  lemma SumOne<T>(f: T -> multiset<nat>, x: T)
    ensures Sum(f, [x]) == f(x)
  {
    assert [x][..0] == [];
  }

  lemma SumUpdate<T>(f: T -> multiset<nat>, xs: seq<T>, i: nat, y: T)
    requires i < |xs|
    ensures Sum(f, xs[i := y]) + f(xs[i]) == Sum(f, xs) + f(y)
  {
    hide Sum;
    assert xs == xs[..i] + [xs[i]] + xs[i+1..];
    assert xs[i := y] == xs[..i] + [y] + xs[i+1..];
    SumAppend(f, xs[..i] + [xs[i]], xs[i+1..]);
    SumAppend(f, xs[..i] + [y], xs[i+1..]);
    SumAppend(f, xs[..i], [xs[i]]);
    SumAppend(f, xs[..i], [y]);
    SumOne(f, xs[i]);
    SumOne(f, y);
  }

  lemma SumWithout<T>(f: T -> multiset<nat>, xs: seq<T>, i: nat)
    requires i < |xs|
    ensures Sum(f, xs[..i] + xs[i+1..]) + f(xs[i]) == Sum(f, xs)
  {
    hide Sum;
    assert xs == xs[..i] + [xs[i]] + xs[i+1..];
    SumAppend(f, xs[..i] + [xs[i]], xs[i+1..]);
    SumAppend(f, xs[..i], [xs[i]]);
    SumAppend(f, xs[..i], xs[i+1..]);
    SumOne(f, xs[i]);
    assert Sum(f, xs) == Sum(f, xs[..i]) + f(xs[i]) + Sum(f, xs[i+1..]);
  }

  lemma {:induction false} SumSame<T>(f: T -> multiset<nat>, xs: seq<T>, ys: seq<T>)
    requires |xs| == |ys| && forall i :: 0 <= i < |xs| ==> f(xs[i]) == f(ys[i])
    ensures Sum(f, xs) == Sum(f, ys)
  {
    if |xs| > 0 { SumSame(f, xs[..|xs|-1], ys[..|ys|-1]); }
  }

  // ----- where reads are -----

  function ReadOf(p: BusPacket): multiset<nat> { if p.kind.IsRead() then multiset{p.address} else multiset{} }
  function AddressOf(p: BusPacket): multiset<nat> { multiset{p.address} }
  function PendingOf(t: Transaction): multiset<nat> { multiset{t.address} }
  function QueueReads(que: seq<BusPacket>): multiset<nat> { Sum(ReadOf, que) }
  function RowReads(row: seq<seq<BusPacket>>): multiset<nat> { Sum(QueueReads, row) }
  function TableReads(queues: seq<seq<seq<BusPacket>>>): multiset<nat> { Sum(RowReads, queues) }
  function RankReads(r: RankState): multiset<nat> { Sum(AddressOf, InFlight(r)) }
  function RanksReads(ranks: seq<RankState>): multiset<nat> { Sum(RankReads, ranks) }
  function BusReads(cmd: Option<BusPacket>): multiset<nat> { if cmd.Some? then ReadOf(cmd.value) else multiset{} }
  function PendingReads(ts: seq<Transaction>): multiset<nat> { Sum(PendingOf, ts) }

  function Outstanding(s: System): multiset<nat> {
    TableReads(s.q.queues) + BusReads(s.outgoingCmd) + RanksReads(s.ranks) + multiset(s.returned)
  }

  ghost predicate Balanced(s: System) { PendingReads(s.pendingReads) == Outstanding(s) }

  // ----- queues -----

  /** Replacing one queue changes the total by that queue only. */
  lemma QueueReplaced(queues: seq<seq<seq<BusPacket>>>, r: nat, k: nat, que: seq<BusPacket>)
    requires r < |queues| && k < |queues[r]|
    ensures TableReads(queues[r := queues[r][k := que]]) + QueueReads(queues[r][k]) == TableReads(queues) + QueueReads(que)
  {
    SumUpdate(QueueReads, queues[r], k, que);
    SumUpdate(RowReads, queues, r, queues[r][k := que]);
    assert RowReads(queues[r][k := que]) + QueueReads(queues[r][k]) == RowReads(queues[r]) + QueueReads(que);
    hide Sum, RowReads, QueueReads;
    var a, b, c, d, e, f := TableReads(queues[r := queues[r][k := que]]), RowReads(queues[r]), TableReads(queues),
                            RowReads(queues[r][k := que]), QueueReads(queues[r][k]), QueueReads(que);
    Exchange(a, b, c, d, e, f);
  }

  lemma Exchange(a: multiset<nat>, b: multiset<nat>, c: multiset<nat>, d: multiset<nat>, e: multiset<nat>, f: multiset<nat>)
    requires a + b == c + d && d + e == b + f
    ensures a + e == c + f
  {
    forall x ensures (a + e)[x] == (c + f)[x] {
      assert (a + b)[x] == (c + d)[x] && (d + e)[x] == (b + f)[x];
    }
  }

  lemma WithoutReads(que: seq<BusPacket>, i: nat, drop: bool)
    requires i < |que| && (drop ==> i > 0 && que[i-1].kind.Activate?)
    ensures QueueReads(Without(que, i, drop)) + ReadOf(que[i]) == QueueReads(que)
  {
    SumWithout(ReadOf, que, i);
    if drop {
      var rest := que[..i] + que[i+1..];
      SumWithout(ReadOf, rest, i - 1);
      assert rest[..i-1] + rest[i..] == Without(que, i, true);
    }
  }

  /** Whatever pop sends, the queues lose exactly the read it carries. */
  lemma PopConserves(cfg: Config, q: QueueState, t: Table, now: nat)
    requires Ready(cfg, q, t)
    ensures var (q', p) := Pop(cfg, q, t, now); TableReads(q'.queues) + BusReads(p) == TableReads(q.queues)
  {
    hide TickWindow, Choose, Advance, Without, TableReads;
    var (issue, q1) := Choose(cfg, q.(faw := TickWindows(q.faw)), t, now);
    if issue.FromQueue? {
      var que := q.queues[issue.rank][issue.slot];
      WithoutReads(que, issue.index, issue.dropActivate);
      QueueReplaced(q.queues, issue.rank, issue.slot, Without(que, issue.index, issue.dropActivate));
      AdvanceKeepsQueues(cfg, Take(cfg, q1, issue));
      CancelRead(TableReads(Take(cfg, q1, issue).queues), QueueReads(que), TableReads(q.queues),
                 QueueReads(Without(que, issue.index, issue.dropActivate)), ReadOf(que[issue.index]));
    } else if !issue.NoIssue? {
      AdvanceKeepsQueues(cfg, Take(cfg, q1, issue));
    }
  }

  lemma CancelRead(a: multiset<nat>, b: multiset<nat>, c: multiset<nat>, d: multiset<nat>, e: multiset<nat>)
    requires a + b == c + d && d + e == b
    ensures a + e == c
  {
    forall x ensures (a + e)[x] == c[x] {
      assert (a + b)[x] == (c + d)[x] && (d + e)[x] == b[x];
    }
  }

  lemma AdvanceKeepsQueues(cfg: Config, q: QueueState)
    requires q.Shape(cfg)
    ensures Advance(cfg, q).queues == q.queues
  {}

  // ----- the phases -----

  lemma EnqueueReads(cfg: Config, q: QueueState, p: BusPacket)
    requires q.Shape(cfg) && p.rank < cfg.numRanks && p.bank < cfg.numBanks && (p.kind.Activate? || p.kind.IsColumn())
    ensures TableReads(Enqueue(cfg, q, p).queues) == TableReads(q.queues) + ReadOf(p)
  {
    hide TableReads;
    var que := q.queues[p.rank][cfg.SlotOf(p.bank)];
    SumAppend(ReadOf, que, [p]);
    SumOne(ReadOf, p);
    QueueReplaced(q.queues, p.rank, cfg.SlotOf(p.bank), que + [p]);
    Exchange(TableReads(Enqueue(cfg, q, p).queues), QueueReads(que), TableReads(q.queues), QueueReads(que + [p]), multiset{}, ReadOf(p));
  }

  /** The parts of the balance a phase leaves alone. */
  ghost predicate SameReads(s: System, s': System) {
    && s'.q.queues == s.q.queues && s'.outgoingCmd == s.outgoingCmd && s'.returned == s.returned && s'.pendingReads == s.pendingReads
    && |s'.ranks| == |s.ranks| && forall r :: 0 <= r < |s.ranks| ==> SameReadData(s.ranks[r], s'.ranks[r])
  }

  lemma SameReadsBalance(s: System, s': System)
    requires SameReads(s, s') && Balanced(s)
    ensures Balanced(s')
  {
    hide TableReads, BusReads, PendingReads, Sum;
    forall r | 0 <= r < |s.ranks| ensures RankReads(s.ranks[r]) == RankReads(s'.ranks[r]) {
      assert SameReadData(s.ranks[r], s'.ranks[r]);
    }
    hide RankReads;
    SumSame(RankReads, s.ranks, s'.ranks);
  }

  lemma SplitOneReads(cfg: Config, s: System, i: nat)
    requires s.Shape(cfg) && i < |s.transactions|
    ensures var s' := SplitOne(cfg, s, i);
      exists added :: TableReads(s'.q.queues) == TableReads(s.q.queues) + added && PendingReads(s'.pendingReads) == PendingReads(s.pendingReads) + added
    ensures var s' := SplitOne(cfg, s, i);
      s'.outgoingCmd == s.outgoingCmd && s'.returned == s.returned && s'.ranks == s.ranks
  {
    hide Enqueue, TableReads;
    var t := s.transactions[i];
    var (a, c) := CommandsOf(cfg, t);
    EnqueueReads(cfg, s.q, a);
    EnqueueReads(cfg, Enqueue(cfg, s.q, a), c);
    var added := ReadOf(c);
    if t.isRead {
      SumAppend(PendingOf, s.pendingReads, [t]);
      SumOne(PendingOf, t);
    }
    hide CommandsOf;
    assert TableReads(SplitOne(cfg, s, i).q.queues) == TableReads(s.q.queues) + added;
  }

  lemma AddBoth(a: multiset<nat>, b: multiset<nat>, c: multiset<nat>, d: multiset<nat>, added: multiset<nat>)
    ensures (a + added) + b + c + d == (a + b + c + d) + added
  {
    forall x ensures ((a + added) + b + c + d)[x] == ((a + b + c + d) + added)[x] {}
  }

  lemma SplitAtBalance(cfg: Config, s: System, i: nat)
    requires s.Shape(cfg) && i < |s.transactions| && Balanced(s)
    ensures Balanced(SplitAt(cfg, s, i))
  {
    SplitOneReads(cfg, s, i);
    hide SplitOne, HasRoomFor, CommandsOf, TableReads, BusReads, RanksReads, PendingReads;
    var s' := SplitOne(cfg, s, i);
    var added :| TableReads(s'.q.queues) == TableReads(s.q.queues) + added && PendingReads(s'.pendingReads) == PendingReads(s.pendingReads) + added;
    AddBoth(TableReads(s.q.queues), BusReads(s.outgoingCmd), RanksReads(s.ranks), multiset(s.returned), added);
  }

  lemma {:induction false} SplitBalance(cfg: Config, s: System, i: nat)
    requires s.Shape(cfg) && Balanced(s)
    ensures Balanced(SplitFrom(cfg, s, i))
    decreases |s.transactions| - i
  {
    hide SplitAt, Balanced;
    if i < |s.transactions| && s.halted.None? {
      SplitAtBalance(cfg, s, i);
      SplitBalance(cfg, SplitAt(cfg, s, i), i + 1);
    }
  }

  lemma {:induction false} PendingHas(ts: seq<Transaction>, address: nat)
    requires address in PendingReads(ts)
    ensures exists i :: 0 <= i < |ts| && ts[i].address == address
  {
    var n := |ts|;
    if n > 0 && ts[n-1].address != address {
      PendingHas(ts[..n-1], address);
      var i :| 0 <= i < n - 1 && ts[..n-1][i].address == address;
      assert ts[i].address == address;
    }
  }

  /** The search for the transaction of a returned read always succeeds. */
  lemma AnswerFindsItsRead(s: System)
    requires Balanced(s) && |s.returned| > 0
    ensures FindPending(s.pendingReads, s.returned[0], 0) < |s.pendingReads|
  {
    assert s.returned[0] in multiset(s.returned);
    PendingHas(s.pendingReads, s.returned[0]);
  }

  lemma AnswerBalance(cfg: Config, s: System)
    requires s.Shape(cfg) && Balanced(s)
    ensures Balanced(AnswerPhase(cfg, s))
  {
    hide FindPending, TableReads, BusReads, RanksReads, PendingReads, System.Shape;
    if |s.returned| > 0 {
      AnswerFindsItsRead(s);
      var i := FindPending(s.pendingReads, s.returned[0], 0);
      var rest := s.pendingReads[..i] + s.pendingReads[i+1..];
      PendingWithout(s.pendingReads, i);
      ReturnedWithout(s.returned);
      RemoveBoth(PendingReads(rest), TableReads(s.q.queues) + BusReads(s.outgoingCmd) + RanksReads(s.ranks),
                 multiset(s.returned[1..]), s.returned[0]);
    }
  }

  lemma PendingWithout(ts: seq<Transaction>, i: nat)
    requires i < |ts|
    ensures PendingReads(ts[..i] + ts[i+1..]) + multiset{ts[i].address} == PendingReads(ts)
  {
    SumWithout(PendingOf, ts, i);
  }

  lemma ReturnedWithout(xs: seq<nat>)
    requires |xs| > 0
    ensures multiset(xs) == multiset{xs[0]} + multiset(xs[1..])
  {
    assert xs == [xs[0]] + xs[1..];
  }

  lemma RemoveBoth(a: multiset<nat>, b: multiset<nat>, c: multiset<nat>, x: nat)
    requires a + multiset{x} == b + (multiset{x} + c)
    ensures a == b + c
  {
    forall y ensures a[y] == (b + c)[y] {
      assert (a + multiset{x})[y] == (b + (multiset{x} + c))[y];
    }
  }

  // ----- the ranks -----

  function Handed(d: Option<BusPacket>): multiset<nat> { if d.Some? then AddressOf(d.value) else multiset{} }

  lemma UpdateReads(cfg: Config, r: RankState)
    requires cfg.Valid() && Parallel(r) && ReadBusOk(cfg, r)
    ensures var (r', d) := Update(cfg, r); RankReads(r') + Handed(d) == RankReads(r)
  {
    hide LaneOk, StepLane, InFlight, Update, ReadBusOk;
    UpdateHandsOver(cfg, r);
    var (r', d) := Update(cfg, r);
    SumAppend(AddressOf, if d.Some? then [d.value] else [], InFlight(r'));
    if d.Some? { SumOne(AddressOf, d.value); }
  }

  lemma ReceiveReads(cfg: Config, r: RankState, p: BusPacket, now: nat)
    requires cfg.Valid() && ReadBusOk(cfg, r) && (p.kind.IsRead() ==> Busy(cfg.Burst(), ReadLane(r)) <= cfg.ReadLatency())
    ensures RankReads(Receive(cfg, r, p, now)) == RankReads(r) + ReadOf(p)
  {
    hide InFlight, Receive, ReadBusOk, Busy;
    ReceiveJoins(cfg, r, p, now);
    SumAppend(AddressOf, InFlight(r), if p.kind.IsRead() then [p.(kind := Data)] else []);
    if p.kind.IsRead() { SumOne(AddressOf, p.(kind := Data)); }
  }

  lemma RankBalance(cfg: Config, r: RankState, rank: nat, cmd: Option<BusPacket>, now: nat)
    requires cfg.Valid() && ReadBusOk(cfg, r) && (ReadFor(cmd, rank) ==> Busy(cfg.Burst(), ReadLane(r)) <= cfg.ReadLatency() + 1)
    ensures RankReads(ArrivedRank(cfg, r, rank, cmd, now)) + Handed(Update(cfg, r).1)
         == RankReads(r) + if cmd.Some? && cmd.value.rank == rank then ReadOf(cmd.value) else multiset{}
  {
    hide LaneOk, StepLane, Busy, RankReads, Receive, Update;
    UpdateReads(cfg, r);
    UpdateHandsOver(cfg, r);
    StepKeepsLane(cfg.Burst(), ReadLane(r));
    if cmd.Some? && cmd.value.rank == rank { ReceiveReads(cfg, Update(cfg, r).0, cmd.value, now); }
  }

  lemma AddPairs(a: multiset<nat>, b: multiset<nat>, c: multiset<nat>, d: multiset<nat>,
                 a': multiset<nat>, b': multiset<nat>, c': multiset<nat>, d': multiset<nat>)
    requires a + b == c + d && a' + b' == c' + d'
    ensures (a + a') + (b + b') == (c + c') + (d + d')
  {
    forall x ensures ((a + a') + (b + b'))[x] == ((c + c') + (d + d'))[x] {
      assert (a + b)[x] == (c + d)[x] && (a' + b')[x] == (c' + d')[x];
    }
  }

  function Arrives(cmd: Option<BusPacket>, n: nat): multiset<nat> {
    if cmd.Some? && cmd.value.rank < n then ReadOf(cmd.value) else multiset{}
  }

  /** What the first n ranks hold before and after an update and the arrival of the command. */
  lemma {:induction false} ArrivalsBalance(cfg: Config, ranks: seq<RankState>, ranks': seq<RankState>, cmd: Option<BusPacket>, now: nat)
    requires cfg.Valid() && |ranks| == |ranks'|
    requires forall r :: 0 <= r < |ranks| ==> Parallel(ranks[r]) && ReadBusOk(cfg, ranks[r])
    requires forall r :: 0 <= r < |ranks| ==> ranks'[r] == ArrivedRank(cfg, ranks[r], r, cmd, now)
    requires forall r :: 0 <= r < |ranks| && ReadFor(cmd, r) ==> Busy(cfg.Burst(), ReadLane(ranks[r])) <= cfg.ReadLatency() + 1
    ensures RanksReads(ranks') + multiset(Delivered(cfg, ranks)) == RanksReads(ranks) + Arrives(cmd, |ranks|)
  {
    hide ArrivedRank, ReadBusOk, Busy, RankReads, Update, ReadFor, Arrives, RanksReads, Handed;
    var n := |ranks|;
    if n == 0 {
      NobodyArrives(ranks', cmd);
    } else {
      ArrivalsBalance(cfg, ranks[..n-1], ranks'[..n-1], cmd, now);
      RankBalance(cfg, ranks[n-1], n - 1, cmd, now);
      LastRank(cfg, ranks, cmd);
      LastReads(ranks);
      LastReads(ranks');
      hide Delivered;
      AddPairs(RanksReads(ranks'[..n-1]), multiset(Delivered(cfg, ranks[..n-1])), RanksReads(ranks[..n-1]), Arrives(cmd, n - 1),
               RankReads(ranks'[n-1]), Handed(Update(cfg, ranks[n-1]).1), RankReads(ranks[n-1]),
               if cmd.Some? && cmd.value.rank == n - 1 then ReadOf(cmd.value) else multiset{});
    }
  }

  lemma NobodyArrives(ranks: seq<RankState>, cmd: Option<BusPacket>)
    requires ranks == []
    ensures RanksReads(ranks) == multiset{} && Arrives(cmd, 0) == multiset{}
  {}

  lemma LastReads(ranks: seq<RankState>)
    requires |ranks| > 0
    ensures RanksReads(ranks) == RanksReads(ranks[..|ranks|-1]) + RankReads(ranks[|ranks|-1])
  {}

  lemma LastRank(cfg: Config, ranks: seq<RankState>, cmd: Option<BusPacket>)
    requires |ranks| > 0 && forall r :: 0 <= r < |ranks| ==> Parallel(ranks[r])
    ensures var n := |ranks|;
      && multiset(Delivered(cfg, ranks)) == multiset(Delivered(cfg, ranks[..n-1])) + Handed(Update(cfg, ranks[n-1]).1)
      && Arrives(cmd, n) == Arrives(cmd, n - 1) + if cmd.Some? && cmd.value.rank == n - 1 then ReadOf(cmd.value) else multiset{}
  {
    hide Update;
  }

  // ----- the cycle -----

  lemma AtCommandFrame(cfg: Config, s: System)
    requires Inv(cfg, s)
    ensures var m := AtCommand(cfg, s);
      && m.q == s.q && m.pendingReads == s.pendingReads && m.outgoingCmd.None?
      && m.returned == s.returned + Delivered(cfg, s.ranks) && |m.ranks| == cfg.numRanks
  {
    CommandArrives(cfg, s);
    hide Update, Receive, TickTable, RankSpec.Accepts, Delivered, Inv, QueuesOk, RankAgrees;
  }

  lemma ArrivalBalance(cfg: Config, s: System)
    requires s.Shape(cfg) && Inv(cfg, s) && Buses(cfg, s) && Balanced(s)
    ensures Balanced(AtCommand(cfg, s))
  {
    hide AtCommand, ArrivedRank, Inv, ReadBusOk, Busy, Delivered, RanksReads, TableReads, PendingReads;
    var m := AtCommand(cfg, s);
    AtCommandFrame(cfg, s);
    DeliveredTo(cfg, s);
    forall r | 0 <= r < cfg.numRanks
      ensures ReadBusOk(cfg, s.ranks[r])
      ensures ReadFor(s.outgoingCmd, r) ==> Busy(cfg.Burst(), ReadLane(s.ranks[r])) <= cfg.ReadLatency() + 1
    {
      assert ReadsWillBeInTime(cfg, s.ranks[r], s.banks[r], ReadFor(s.outgoingCmd, r), s.now);
    }
    ArrivalsBalance(cfg, s.ranks, m.ranks, s.outgoingCmd, s.now);
    Rebalance(TableReads(s.q.queues), BusReads(s.outgoingCmd), RanksReads(s.ranks), multiset(s.returned),
              RanksReads(m.ranks), multiset(Delivered(cfg, s.ranks)));
  }

  lemma Rebalance(a: multiset<nat>, b: multiset<nat>, c: multiset<nat>, d: multiset<nat>, c': multiset<nat>, e: multiset<nat>)
    requires c' + e == c + b
    ensures a + multiset{} + c' + (d + e) == a + b + c + d
  {
    forall x ensures (a + multiset{} + c' + (d + e))[x] == (a + b + c + d)[x] {
      assert (c' + e)[x] == (c + b)[x];
    }
  }

  lemma DataReads(cfg: Config, s: System)
    requires s.Shape(cfg)
    ensures SameReads(s, DataPhase(cfg, s))
  {}

  lemma WriteReads(cfg: Config, s: System)
    requires s.Shape(cfg)
    ensures SameReads(s, WritePhase(cfg, s))
  {}

  lemma RefreshReads(cfg: Config, s: System)
    requires s.Shape(cfg)
    ensures SameReads(s, RefreshPhase(cfg, s))
  {}

  lemma FirstHalfBalance(cfg: Config, s: System)
    requires s.Shape(cfg) && Inv(cfg, s) && Buses(cfg, s) && Balanced(s)
    ensures Balanced(FirstHalf(cfg, s))
  {
    hide CommandPhase, BacklogPhase, RanksPhase, TickPhase, DataPhase, WritePhase, RefreshPhase, Balanced, SameReads, Inv, Buses;
    ArrivalBalance(cfg, s);
    var s1 := AtCommand(cfg, s);
    var s2 := WritePhase(cfg, DataPhase(cfg, s1));
    DataReads(cfg, s1);
    SameReadsBalance(s1, DataPhase(cfg, s1));
    WriteReads(cfg, DataPhase(cfg, s1));
    SameReadsBalance(DataPhase(cfg, s1), s2);
    RefreshReads(cfg, s2);
    SameReadsBalance(s2, RefreshPhase(cfg, s2));
  }

  lemma IssueFrame(cfg: Config, m: System)
    requires m.Shape(cfg) && m.outgoingCmd.None? && m.halted.None?
    ensures var (q', p) := Pop(cfg, m.q, m.banks, m.now);
      var s1 := IssuePhase(cfg, m);
      s1.q == q' && s1.outgoingCmd == p && s1.ranks == m.ranks && s1.returned == m.returned && s1.pendingReads == m.pendingReads
  {
    hide Pop, SentTable;
  }

  lemma IssueBalance(cfg: Config, m: System)
    requires m.Shape(cfg) && m.outgoingCmd.None? && m.halted.None? && Balanced(m)
    ensures Balanced(IssuePhase(cfg, m))
  {
    hide Pop, IssuePhase, TableReads, RanksReads, PendingReads;
    IssueFrame(cfg, m);
    PopConserves(cfg, m.q, m.banks, m.now);
    var (q', p) := Pop(cfg, m.q, m.banks, m.now);
    assert TableReads(m.q.queues) + BusReads(m.outgoingCmd) == TableReads(m.q.queues);
  }

  lemma PowerReads(s: System, s': System)
    requires PowerMoved(s, s')
    ensures SameReads(s, s')
  {}

  lemma ClockReads(cfg: Config, s: System)
    requires s.Shape(cfg)
    ensures SameReads(s, ClockPhase(cfg, s))
  {}

  /** The state in which a cycle answers a read. */
  function BeforeAnswer(cfg: Config, m: System): (s: System)
    requires m.Shape(cfg)
    ensures s.Shape(cfg)
  {
    PowerFrom(cfg, SplitFrom(cfg, IssuePhase(cfg, m), 0), 0)
  }

  lemma BeforeAnswerBalance(cfg: Config, m: System)
    requires m.Shape(cfg) && m.outgoingCmd.None? && m.halted.None? && Balanced(m)
    ensures Balanced(BeforeAnswer(cfg, m))
  {
    hide IssuePhase, SplitFrom, PowerFrom, Balanced, SameReads, PowerMoved;
    IssueBalance(cfg, m);
    var s1 := IssuePhase(cfg, m);
    SplitBalance(cfg, s1, 0);
    var s2 := SplitFrom(cfg, s1, 0);
    PowerFrame(cfg, s2, 0);
    PowerReads(s2, PowerFrom(cfg, s2, 0));
    SameReadsBalance(s2, PowerFrom(cfg, s2, 0));
  }

  lemma SecondHalfBalance(cfg: Config, m: System)
    requires m.Shape(cfg) && m.outgoingCmd.None? && m.halted.None? && Balanced(m)
    ensures Balanced(SecondHalf(cfg, m))
  {
    hide IssuePhase, SplitFrom, PowerFrom, AnswerPhase, ClockPhase, Balanced, SameReads;
    IssueBalance(cfg, m);
    SplitBalance(cfg, IssuePhase(cfg, m), 0);
    BeforeAnswerBalance(cfg, m);
    var s3 := BeforeAnswer(cfg, m);
    AnswerBalance(cfg, s3);
    ClockReads(cfg, AnswerPhase(cfg, s3));
    SameReadsBalance(AnswerPhase(cfg, s3), ClockPhase(cfg, AnswerPhase(cfg, s3)));
  }

  lemma CycleBalance(cfg: Config, s: System)
    requires s.Shape(cfg) && Inv(cfg, s) && Buses(cfg, s) && Balanced(s)
    ensures Balanced(Cycle(cfg, s))
  {
    hide FirstHalf, SecondHalf, Balanced, Inv, Buses;
    FirstHalfBalance(cfg, s);
    FirstHalfAgrees(cfg, s);
    var m := FirstHalf(cfg, s);
    if m.halted.None? { SecondHalfBalance(cfg, m); }
  }

  // ----- runs -----

  lemma StepBalance(cfg: Config, s: System, s': System)
    requires s.Shape(cfg) && Inv(cfg, s) && Buses(cfg, s) && Balanced(s) && Step(cfg, s, s')
    ensures Balanced(s')
  {
    hide Cycle, Balanced, Inv, Buses, SameReads;
    if s' == Cycle(cfg, s) {
      CycleBalance(cfg, s);
    } else {
      AddedReads(cfg, s, s');
      SameReadsBalance(s, s');
    }
  }

  lemma AddedReads(cfg: Config, s: System, s': System)
    requires s.Shape(cfg) && exists t :: s' == AddTransaction(cfg, s, t)
    ensures SameReads(s, s')
  {}

  lemma {:induction false} NoReads(cfg: Config, queues: seq<seq<seq<BusPacket>>>, ranks: seq<RankState>)
    requires forall r, k :: 0 <= r < |queues| && 0 <= k < |queues[r]| ==> queues[r][k] == []
    requires forall r :: 0 <= r < |ranks| ==> InFlight(ranks[r]) == []
    ensures TableReads(queues) == multiset{} && RanksReads(ranks) == multiset{}
    decreases |queues| + |ranks|
  {
    hide InFlight;
    if |queues| > 0 {
      var n := |queues|;
      NoReads(cfg, queues[..n-1], ranks);
      EmptyRow(queues[n-1]);
    } else if |ranks| > 0 {
      NoReads(cfg, queues, ranks[..|ranks|-1]);
    }
  }

  lemma {:induction false} EmptyRow(row: seq<seq<BusPacket>>)
    requires forall k :: 0 <= k < |row| ==> row[k] == []
    ensures RowReads(row) == multiset{}
  {
    if |row| > 0 { EmptyRow(row[..|row|-1]); }
  }

  lemma InitialBalance(cfg: Config, s: System)
    requires Initial(cfg, s)
    ensures Balanced(s)
  {
    forall r | 0 <= r < cfg.numRanks ensures InFlight(s.ranks[r]) == [] {}
    hide InFlight, TableReads, RanksReads;
    NoReads(cfg, s.q.queues, s.ranks);
  }

  /** In every run, at every cycle, the reads awaiting an answer are, address by address, exactly those in
      the command queues, on the command bus, in the ranks and among the returned data. */
  lemma {:induction false} ReadsConserved(cfg: Config, run: seq<System>, i: nat)
    requires IsRun(cfg, run) && i < |run|
    ensures Balanced(run[i])
    decreases i
  {
    hide Inv, Step, Initial, Buses, Balanced, System.Shape;
    if i == 0 {
      InitialBalance(cfg, run[0]);
    } else {
      RunStep(cfg, run, i - 1);
      BusesStayOrderly(cfg, run, i - 1);
      ReadsConserved(cfg, run, i - 1);
      StepBalance(cfg, run[i-1], run[i]);
    }
  }
}
