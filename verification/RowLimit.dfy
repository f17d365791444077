/** The counter of accesses to an open row is exact, so no row is used more often than it may be. */
module RowLimit {
  import opened DramTypes
  import opened CommandQueueSpec
  import opened BankTiming
  import opened QueueInvariant
  import opened QueuePreservation
  import opened SystemSpec
  import opened SystemFrames
  import opened Refinement
  import opened BusTiming
  import opened ReadTimetable
  import opened CommandOrder
  import opened CommandTiming

  /** A column command for the bank is waiting whose ACTIVATE has gone out. */
  ghost predicate HasLone(que: seq<BusPacket>, bank: nat) {
    exists i :: 0 <= i < |que| && Lone(que, i) && que[i].bank == bank
  }

  // ----- one queue -----

  /** Where a packet that stays will stand. */
  function NewIndex(i: nat, drop: bool, k: nat): nat
    requires k != i && (drop ==> i > 0 && k != i - 1)
  {
    if k < i then k else if drop then k - 2 else k - 1
  }

  lemma LoneStays(que: seq<BusPacket>, i: nat, drop: bool, k: nat)
    requires Paired(que) && i < |que| && k < |que| && k != i && Lone(que, k)
    requires if que[i].kind.Activate? then !drop else if drop then i > 0 && que[i-1].kind.Activate? else Lone(que, i)
    ensures var n := NewIndex(i, drop, k); n < |Without(que, i, drop)| && Without(que, i, drop)[n] == que[k] && Lone(Without(que, i, drop), n)
  {
    var r, n := Without(que, i, drop), NewIndex(i, drop, k);
    if n > 0 { assert r[n-1] == que[OldIndex(i, drop, n - 1)]; }
  }

  lemma TakenOther(que: seq<BusPacket>, i: nat, drop: bool, bank: nat)
    requires Paired(que) && i < |que| && que[i].bank != bank
    requires if que[i].kind.Activate? then !drop else if drop then i > 0 && que[i-1].kind.Activate? else Lone(que, i)
    ensures HasLone(Without(que, i, drop), bank) <==> HasLone(que, bank)
  {
    var r := Without(que, i, drop);
    if k: nat :| k < |que| && Lone(que, k) && que[k].bank == bank { LoneStays(que, i, drop, k); }
    if k: nat :| k < |r| && Lone(r, k) && r[k].bank == bank {
      if que[i].kind.Activate? {
        assert SameTarget(que[i], que[i+1]);
        assert Lone(que, OldIndex(i, false, k));
      } else {
        LoneWithout(que, i, drop, k);
        assert Lone(que, OldIndex(i, drop, k));
      }
    }
  }

  lemma TakenOwn(cfg: Config, que: seq<BusPacket>, slot: nat, v: RankView, i: nat, drop: bool, now: nat)
    requires QueueOk(cfg, que, slot, v) && i < |que| && GoodPick(cfg, v, que, i, drop, now)
    ensures HasLone(Without(que, i, drop), que[i].bank) <==> que[i].kind.Activate?
    ensures !que[i].kind.Activate? ==> (HasLone(que, que[i].bank) <==> !drop)
  {
    var r := Without(que, i, drop);
    if que[i].kind.Activate? {
      assert SameTarget(que[i], que[i+1]);
      assert r[i] == que[i+1] && Lone(r, i);
    } else {
      forall k | 0 <= k < |que| && Lone(que, k) && que[k].bank == que[i].bank ensures k == i && !drop {
        assert RowHeld(v, que[k]) && FirstOfBank(que, k);
      }
      forall k | 0 <= k < |r| && Lone(r, k) ensures r[k].bank != que[i].bank {
        LoneWithout(que, i, drop, k);
        var o := OldIndex(i, drop, k);
        assert Lone(que, o) && o != i;
      }
    }
  }

  // ----- a call of pop -----

  predicate For(c: Option<BusPacket>, rank: nat, bank: nat) { c.Some? && c.value.rank == rank && c.value.bank == bank }

  /** The column commands sent to a bank since its row was opened (or closed), after one more command. */
  function Count(n: nat, c: Option<BusPacket>, rank: nat, bank: nat): nat {
    if !For(c, rank, bank) then n
    else if c.value.kind.Activate? || c.value.kind.Precharge? then 0
    else if c.value.kind.IsColumn() then n + 1
    else n
  }

  /** The counter of an open row is the number of column commands that found it open. */
  ghost predicate Counted(b: BankState, accesses: nat, que: seq<BusPacket>, bank: nat, n: nat) {
    && n <= accesses + 1
    && (b.phase.RowActive? ==> n == accesses + if HasLone(que, bank) then 0 else 1)
  }

  /** Whether the bank's row is open after the command and the next tick. */
  lemma OpenAfter(cfg: Config, b: BankState, accesses: nat, rank: nat, bank: nat, c: Option<BusPacket>, move: PowerMove, now: nat)
    requires GoesOn(cfg, b, accesses, rank, bank, c, move, now)
    ensures var b' := CommandTiming.BankAfter(cfg, b, rank, bank, c, move, now);
      b'.phase.RowActive? ==> if For(c, rank, bank) then c.value.kind.Activate? || c.value.kind.IsColumn() else b.phase.RowActive?
  {}

  lemma OwnCounted(cfg: Config, b: BankState, b': BankState, accesses: nat, accesses': nat, que: seq<BusPacket>, slot: nat, v: RankView,
                   i: nat, drop: bool, n: nat, now: nat)
    requires QueueOk(cfg, que, slot, v) && i < |que| && GoodPick(cfg, v, que, i, drop, now)
    requires v.banks[que[i].bank] == b && v.accesses[que[i].bank] == accesses && BankOk(cfg, b, accesses, now)
    requires accesses' == if drop then accesses + 1 else accesses
    requires Counted(b, accesses, que, que[i].bank, n)
    ensures Counted(b', accesses', Without(que, i, drop), que[i].bank, if que[i].kind.Activate? then 0 else n + 1)
  {
    TakenOwn(cfg, que, slot, v, i, drop, now);
    hide HasLone, Without, LonesHeld;
  }

  lemma TakeAccesses(cfg: Config, q: QueueState, issue: Issue, r: nat, b: nat)
    requires q.Shape(cfg) && Names(cfg, q, issue) && r < cfg.numRanks && b < cfg.numBanks
    requires issue.FromQueue? && cfg.structure.PerRankPerBank? ==> q.queues[issue.rank][issue.slot][issue.index].bank == issue.slot
    ensures Take(cfg, q, issue).rowAccess[r][b] ==
      match issue
      case CloseRow(i, j) => if i == r && j == b then 0 else q.rowAccess[r][b]
      case FromQueue(i, k, x, drop) => if drop && i == r && q.queues[i][k][x].bank == b then q.rowAccess[r][b] + 1 else q.rowAccess[r][b]
      case _ => q.rowAccess[r][b]
  {
    hide Without;
  }

  /** A queued packet that is taken, seen from any bank. */
  lemma QueuedCounts(cfg: Config, q: QueueState, t: Table, issue: Issue, r: nat, b: nat, b': BankState, n: nat, now: nat)
    requires QueuesOk(cfg, q, t, now) && GoodIssue(cfg, q, t, issue, now) && issue.FromQueue? && r < cfg.numRanks && b < cfg.numBanks
    requires Counted(t[r][b], q.rowAccess[r][b], q.queues[r][cfg.SlotOf(b)], b, n)
    requires b'.phase.RowActive? ==> For(Some(PacketOf(cfg, q, issue)), r, b) || t[r][b].phase.RowActive?
    ensures var q' := Take(cfg, q, issue);
      Counted(b', q'.rowAccess[r][b], q'.queues[r][cfg.SlotOf(b)], b, Count(n, Some(PacketOf(cfg, q, issue)), r, b))
  {
    hide HasLone, Without, GoodPick, BankOk, QueueOk, Take, Fits;
    var k := cfg.SlotOf(b);
    var v := ViewOf(q, t, issue.rank);
    var que := q.queues[issue.rank][issue.slot];
    assert RankOk(cfg, q.queues[issue.rank], v, now);
    assert QueueOk(cfg, que, issue.slot, v);
    PickedKind(cfg, que, issue.slot, v, issue.index, issue.dropActivate, now);
    TakeTouches(cfg, q, issue, r, k);
    TakeAccesses(cfg, q, issue, r, b);
    var p := que[issue.index];
    if p.rank == r && p.bank == b {
      OwnCounted(cfg, t[r][b], b', q.rowAccess[r][b], Take(cfg, q, issue).rowAccess[r][b], que, k, v, issue.index, issue.dropActivate, n, now);
    } else if issue.rank == r && issue.slot == k {
      TakenOther(que, issue.index, issue.dropActivate, b);
    }
  }

  lemma TakeCounts(cfg: Config, q: QueueState, t: Table, issue: Issue, r: nat, b: nat, b': BankState, n: nat, now: nat)
    requires QueuesOk(cfg, q, t, now) && GoodIssue(cfg, q, t, issue, now) && !issue.NoIssue? && r < cfg.numRanks && b < cfg.numBanks
    requires Counted(t[r][b], q.rowAccess[r][b], q.queues[r][cfg.SlotOf(b)], b, n)
    requires var p := PacketOf(cfg, q, issue);
      b'.phase.RowActive? ==> if For(Some(p), r, b) then p.kind.Activate? || p.kind.IsColumn() else t[r][b].phase.RowActive?
    ensures var q' := Take(cfg, q, issue);
      Counted(b', q'.rowAccess[r][b], q'.queues[r][cfg.SlotOf(b)], b, Count(n, Some(PacketOf(cfg, q, issue)), r, b))
  {
    hide HasLone, RankOk;
    if issue.FromQueue? {
      hide Take, Counted;
      QueuedCounts(cfg, q, t, issue, r, b, b', n, now);
    }
  }

  lemma PickedKind(cfg: Config, que: seq<BusPacket>, slot: nat, v: RankView, i: nat, drop: bool, now: nat)
    requires QueueOk(cfg, que, slot, v) && i < |que| && GoodPick(cfg, v, que, i, drop, now)
    ensures que[i].kind.Activate? || que[i].kind.IsColumn()
    ensures cfg.structure.PerRankPerBank? ==> que[i].bank == slot
    ensures Paired(que) && if que[i].kind.Activate? then !drop else if drop then i > 0 && que[i-1].kind.Activate? else Lone(que, i)
  {}

  /** One call of pop keeps the count, with the bank's record b' at the next one. */
  lemma PopCounts(cfg: Config, q: QueueState, t: Table, r: nat, b: nat, b': BankState, n: nat, now: nat)
    requires QueuesOk(cfg, q, t, now) && r < cfg.numRanks && b < cfg.numBanks
    requires Counted(t[r][b], q.rowAccess[r][b], q.queues[r][cfg.SlotOf(b)], b, n)
    requires var p := Pop(cfg, q, t, now).1;
      b'.phase.RowActive? ==> if For(p, r, b) then p.value.kind.Activate? || p.value.kind.IsColumn() else t[r][b].phase.RowActive?
    ensures var (q', p) := Pop(cfg, q, t, now);
      Counted(b', q'.rowAccess[r][b], q'.queues[r][cfg.SlotOf(b)], b, Count(n, p, r, b))
  {
    hide Choose, TickWindow, Take, Advance, RankOk, GoodIssue, HasLone;
    var q0 := q.(faw := TickWindows(q.faw));
    SameQueuesOk(cfg, q, q0, t, now);
    ChoiceIsGood(cfg, q0, t, now);
    var (issue, q1) := Choose(cfg, q0, t, now);
    SameQueuesOk(cfg, q0, q1, t, now);
    if !issue.NoIssue? {
      SameGoodIssue(cfg, q0, q1, t, issue, now);
      TakeCounts(cfg, q1, t, issue, r, b, b', n, now);
      AdvanceLeaves(cfg, Take(cfg, q1, issue));
    }
  }

  lemma AdvanceLeaves(cfg: Config, q: QueueState)
    requires q.Shape(cfg)
    ensures Advance(cfg, q).queues == q.queues && Advance(cfg, q).rowAccess == q.rowAccess
  {}

  // ----- breaking up transactions -----

  lemma PairIsNotLone(que: seq<BusPacket>, a: BusPacket, c: BusPacket, bank: nat)
    requires a.kind.Activate?
    ensures HasLone(que + [a, c], bank) <==> HasLone(que, bank)
  {
    var r := que + [a, c];
    if i: nat :| i < |que| && Lone(que, i) && que[i].bank == bank { assert Lone(r, i) && r[i].bank == bank; }
    if i: nat :| i < |r| && Lone(r, i) && r[i].bank == bank { assert Lone(que, i); }
  }

  lemma SplitAtLones(cfg: Config, s: System, i: nat, r: nat, b: nat)
    requires s.Shape(cfg) && i < |s.transactions| && r < cfg.numRanks && b < cfg.numBanks
    ensures HasLone(SplitAt(cfg, s, i).q.queues[r][cfg.SlotOf(b)], b) <==> HasLone(s.q.queues[r][cfg.SlotOf(b)], b)
  {
    hide HasLone, HasRoomFor, CommandsOf;
    var (a, c) := CommandsOf(cfg, s.transactions[i]);
    var que := s.q.queues[r][cfg.SlotOf(b)];
    assert que + [a] + [c] == que + [a, c];
    PairIsNotLone(que, a, c, b);
  }

  lemma {:induction false} SplitLones(cfg: Config, s: System, i: nat, r: nat, b: nat)
    requires s.Shape(cfg) && r < cfg.numRanks && b < cfg.numBanks
    ensures HasLone(SplitFrom(cfg, s, i).q.queues[r][cfg.SlotOf(b)], b) <==> HasLone(s.q.queues[r][cfg.SlotOf(b)], b)
    decreases |s.transactions| - i
  {
    hide SplitAt, HasLone;
    if i < |s.transactions| && s.halted.None? {
      SplitAtLones(cfg, s, i, r, b);
      SplitLones(cfg, SplitAt(cfg, s, i), i + 1, r, b);
    }
  }

  lemma SecondHalfLones(cfg: Config, m: System, r: nat, b: nat)
    requires m.Shape(cfg) && m.outgoingCmd.None? && m.halted.None? && SecondHalf(cfg, m).halted.None? && r < cfg.numRanks && b < cfg.numBanks
    ensures var (q', p) := Pop(cfg, m.q, m.banks, m.now);
      var s' := SecondHalf(cfg, m);
      && s'.outgoingCmd == p && s'.q.rowAccess == q'.rowAccess
      && (HasLone(s'.q.queues[r][cfg.SlotOf(b)], b) <==> HasLone(q'.queues[r][cfg.SlotOf(b)], b))
  {
    hide IssuePhase, SplitFrom, PowerFrom, Pop, FindPending, HasLone;
    IssueQueues(cfg, m);
    SecondHalfFrame(cfg, m);
    SplitLones(cfg, IssuePhase(cfg, m), 0, r, b);
    PowerFrame(cfg, SplitFrom(cfg, IssuePhase(cfg, m), 0), 0);
  }

  // ----- runs -----

  ghost predicate CountedAt(cfg: Config, s: System, r: nat, b: nat, n: nat) {
    && s.q.Shape(cfg) && TableShape(cfg, s.banks) && r < cfg.numRanks && b < cfg.numBanks
    && Counted(TickBank(cfg, s.banks[r][b]), s.q.rowAccess[r][b], s.q.queues[r][cfg.SlotOf(b)], b, n)
  }

  lemma SameLonesCounted(b: BankState, accesses: nat, que: seq<BusPacket>, que': seq<BusPacket>, bank: nat, n: nat)
    requires Counted(b, accesses, que, bank, n) && (HasLone(que', bank) <==> HasLone(que, bank))
    ensures Counted(b, accesses, que', bank, n)
  {}

  lemma RecordOpenAfter(cfg: Config, s: System, r: nat, b: nat)
    requires s.Shape(cfg) && Inv(cfg, s) && Buses(cfg, s) && Cycle(cfg, s).halted.None? && r < cfg.numRanks && b < cfg.numBanks
    ensures var c := Cycle(cfg, s).outgoingCmd;
      TickBank(cfg, Cycle(cfg, s).banks[r][b]).phase.RowActive? ==>
        if For(c, r, b) then c.value.kind.Activate? || c.value.kind.IsColumn() else TickBank(cfg, s.banks[r][b]).phase.RowActive?
  {
    hide Cycle, Inv, Buses, TickBank, GoesOn, CommandTiming.BankAfter;
    var move := CycleGoesOn(cfg, s, r);
    var banks, banks' := TickRow(cfg, s.banks[r]), TickRow(cfg, Cycle(cfg, s).banks[r]);
    assert banks'[b] == TickBank(cfg, Cycle(cfg, s).banks[r][b]);
    OpenAfter(cfg, banks[b], s.q.rowAccess[r][b], r, b, Cycle(cfg, s).outgoingCmd, move, s.now);
  }

  lemma SecondHalfCounts(cfg: Config, m: System, r: nat, b: nat, b': BankState, n: nat)
    requires Agree(cfg, m) && SecondHalf(cfg, m).halted.None? && r < cfg.numRanks && b < cfg.numBanks
    requires Counted(m.banks[r][b], m.q.rowAccess[r][b], m.q.queues[r][cfg.SlotOf(b)], b, n)
    requires var c := Pop(cfg, m.q, m.banks, m.now).1;
      b'.phase.RowActive? ==> if For(c, r, b) then c.value.kind.Activate? || c.value.kind.IsColumn() else m.banks[r][b].phase.RowActive?
    ensures var s' := SecondHalf(cfg, m);
      Counted(b', s'.q.rowAccess[r][b], s'.q.queues[r][cfg.SlotOf(b)], b, Count(n, s'.outgoingCmd, r, b))
  {
    hide SecondHalf, Pop, RankAgrees, QueuesOk, Counted, HasLone, Count;
    SecondHalfLones(cfg, m, r, b);
    var (q', c) := Pop(cfg, m.q, m.banks, m.now);
    PopCounts(cfg, m.q, m.banks, r, b, b', n, m.now);
    SameLonesCounted(b', q'.rowAccess[r][b], q'.queues[r][cfg.SlotOf(b)], SecondHalf(cfg, m).q.queues[r][cfg.SlotOf(b)], b, Count(n, c, r, b));
  }

  lemma CycleCounts(cfg: Config, s: System, r: nat, b: nat, n: nat)
    requires s.Shape(cfg) && Inv(cfg, s) && Buses(cfg, s) && Cycle(cfg, s).halted.None? && CountedAt(cfg, s, r, b, n)
    ensures CountedAt(cfg, Cycle(cfg, s), r, b, Count(n, Cycle(cfg, s).outgoingCmd, r, b))
  {
    RecordOpenAfter(cfg, s, r, b);
    hide FirstHalf, SecondHalf, Pop, TickBank, RankAgrees, ReadsWillBeInTime, SameReadData, QueuesOk, Following, Counted, ArrivedRank, Count;
    FirstHalfAgrees(cfg, s);
    FirstHalfFrame(cfg, s);
    FirstHalfBuses(cfg, s);
    var m := FirstHalf(cfg, s);
    SecondHalfFrame(cfg, m);
    SecondHalfCounts(cfg, m, r, b, TickBank(cfg, Cycle(cfg, s).banks[r][b]), n);
  }

  /** The column commands that the first j steps of a run sent to a bank since its row was last opened or closed. */
  ghost function SentToRow(run: seq<System>, j: nat, r: nat, b: nat): nat
    requires j < |run|
  {
    if j == 0 then 0
    else Count(SentToRow(run, j - 1, r, b), if run[j].now == run[j-1].now + 1 then run[j].outgoingCmd else None, r, b)
  }

  lemma FirstCount(cfg: Config, s: System, r: nat, b: nat)
    requires Initial(cfg, s) && r < cfg.numRanks && b < cfg.numBanks
    ensures CountedAt(cfg, s, r, b, 0)
  {}

  lemma StepCounts(cfg: Config, s: System, s': System, r: nat, b: nat, n: nat)
    requires s.Shape(cfg) && s'.Shape(cfg) && Inv(cfg, s) && Buses(cfg, s) && Step(cfg, s, s') && s'.halted.None?
    requires CountedAt(cfg, s, r, b, n)
    ensures CountedAt(cfg, s', r, b, Count(n, if s'.now == s.now + 1 then s'.outgoingCmd else None, r, b))
  {
    hide Inv, Cycle, Buses, Counted;
    if s' == Cycle(cfg, s) {
      StepKeepsBuses(cfg, s, s');
      CycleCounts(cfg, s, r, b, n);
      CycleTakesTime(cfg, s);
    }
  }

  lemma CycleTakesTime(cfg: Config, s: System)
    requires s.Shape(cfg) && Inv(cfg, s) && Buses(cfg, s) && Cycle(cfg, s).halted.None?
    ensures Cycle(cfg, s).now == s.now + 1
  {
    hide Inv, Cycle, Buses;
    CycleReadData(cfg, s, 0);
  }

  lemma {:induction false} CounterIsExact(cfg: Config, run: seq<System>, j: nat, r: nat, b: nat)
    requires IsRun(cfg, run) && j < |run| && run[j].halted.None? && r < cfg.numRanks && b < cfg.numBanks
    ensures CountedAt(cfg, run[j], r, b, SentToRow(run, j, r, b))
    decreases j
  {
    hide Inv, Step, Initial, Buses, System.Shape, CountedAt, Count;
    if j == 0 {
      FirstCount(cfg, run[0], r, b);
    } else {
      RunBusStep(cfg, run, j - 1);
      CounterIsExact(cfg, run, j - 1, r, b);
      StepCounts(cfg, run[j-1], run[j], r, b, SentToRow(run, j - 1, r, b));
    }
  }

  /** In every run no row is read and written more than totalRowAccesses + 1 times while it is open: the first
      access after the ACTIVATE is not counted, and the limit applies to the others. */
  lemma RowsAreNotOverused(cfg: Config, run: seq<System>, j: nat, r: nat, b: nat)
    requires IsRun(cfg, run) && j < |run| && run[j].halted.None? && r < cfg.numRanks && b < cfg.numBanks
    ensures SentToRow(run, j, r, b) <= cfg.totalRowAccesses + 1
  {
    CounterIsExact(cfg, run, j, r, b);
    RanksNeverReject(cfg, run, j);
    hide IsRun, RankFollows, CommandOk, PowerAgrees, QueueOk;
    var s, t := run[j], TickTable(cfg, run[j].banks);
    assert RankOk(cfg, s.q.queues[r], ViewOf(s.q, t, r), s.now);
    assert BankOk(cfg, t[r][b], s.q.rowAccess[r][b], s.now);
  }
}
