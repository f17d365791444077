/** What becomes of a read request: in every run each one is waiting, pending or answered, exactly once, and every
    piece of returned data answers a read of its address. */
module ReadAnswers {
  import opened DramTypes
  import opened BankTiming
  import opened CommandQueueSpec
  import opened RankSpec
  import opened SystemSpec
  import opened SystemFrames
  import opened Refinement
  import opened BusTiming
  import opened ReadTimetable
  import opened ReadConservation

  // ----- requests -----

  /** The reads among some transactions. */
  function ReadsOf(ts: seq<Transaction>): multiset<Transaction> {
    if |ts| == 0 then multiset{}
    else ReadsOf(ts[..|ts|-1]) + if ts[|ts|-1].isRead then multiset{ts[|ts|-1]} else multiset{}
  }

  /** Reads that have not been broken up into commands. */
  function WaitingReads(s: System): multiset<Transaction> { ReadsOf(s.overflow) + ReadsOf(s.transactions) }

  lemma {:induction false} ReadsOfAppend(a: seq<Transaction>, b: seq<Transaction>)
    ensures ReadsOf(a + b) == ReadsOf(a) + ReadsOf(b)
    decreases |b|
  {
    if |b| == 0 {
      assert a + b == a;
    } else {
      assert (a + b)[..|a + b|-1] == a + b[..|b|-1];
      ReadsOfAppend(a, b[..|b|-1]);
    }
  }

  lemma ReadsOfOne(t: Transaction)
    ensures ReadsOf([t]) == if t.isRead then multiset{t} else multiset{}
  {
    assert [t][..0] == [];
  }

  lemma ReadsOfWithout(ts: seq<Transaction>, i: nat)
    requires i < |ts|
    ensures ReadsOf(ts) == ReadsOf(ts[..i] + ts[i+1..]) + if ts[i].isRead then multiset{ts[i]} else multiset{}
  {
    hide ReadsOf;
    assert ts == ts[..i] + [ts[i]] + ts[i+1..];
    ReadsOfAppend(ts[..i] + [ts[i]], ts[i+1..]);
    ReadsOfAppend(ts[..i], [ts[i]]);
    ReadsOfAppend(ts[..i], ts[i+1..]);
    ReadsOfOne(ts[i]);
  }

  // ----- the phases -----

  ghost predicate SameRequests(s: System, s': System) {
    && s'.overflow == s.overflow && s'.transactions == s.transactions && s'.pendingReads == s.pendingReads
    && s'.returned == s.returned && s'.answered == s.answered
  }

  lemma BacklogKeepsReads(cfg: Config, s: System)
    requires s.Shape(cfg)
    ensures WaitingReads(BacklogPhase(cfg, s)) == WaitingReads(s)
  {
    hide ReadsOf;
    if |s.overflow| > 0 {
      assert s.overflow == [s.overflow[0]] + s.overflow[1..];
      ReadsOfAppend([s.overflow[0]], s.overflow[1..]);
      ReadsOfAppend(s.transactions, [s.overflow[0]]);
    }
  }

  lemma CommandRequests(cfg: Config, s: System)
    requires s.Shape(cfg)
    ensures SameRequests(s, CommandPhase(cfg, TickPhase(cfg, s)))
  {
    hide RankSpec.Accepts, Receive, TickTable;
  }

  lemma BusRequests(cfg: Config, s: System)
    requires s.Shape(cfg)
    ensures SameRequests(s, WritePhase(cfg, DataPhase(cfg, s)))
  {}

  lemma RefreshRequests(cfg: Config, s: System)
    requires s.Shape(cfg)
    ensures SameRequests(s, RefreshPhase(cfg, s))
  {}

  lemma FirstHalfRequests(cfg: Config, s: System)
    requires s.Shape(cfg)
    ensures SameRequests(BacklogPhase(cfg, RanksPhase(cfg, s)), FirstHalf(cfg, s))
  {
    hide RanksPhase, BacklogPhase, TickPhase, CommandPhase, DataPhase, WritePhase, RefreshPhase;
    var s0 := BacklogPhase(cfg, RanksPhase(cfg, s));
    var s1 := CommandPhase(cfg, TickPhase(cfg, s0));
    CommandRequests(cfg, s0);
    BusRequests(cfg, s1);
    RefreshRequests(cfg, WritePhase(cfg, DataPhase(cfg, s1)));
  }

  /** Until pop is called nothing is lost, nothing is answered, and the ranks' data are there. */
  lemma ReachPopRequests(cfg: Config, s: System)
    requires s.Shape(cfg)
    ensures var m := FirstHalf(cfg, s);
      && WaitingReads(m) == WaitingReads(s) && m.pendingReads == s.pendingReads
      && m.returned == s.returned + Delivered(cfg, s.ranks) && m.answered.None?
  {
    FirstHalfRequests(cfg, s);
    hide FirstHalf, Delivered, ReadsOf;
    BacklogKeepsReads(cfg, RanksPhase(cfg, s));
  }

  /** The reads that were waiting in s and not in s' any more have become pending. */
  ghost predicate BrokenUp(s: System, s': System) {
    && WaitingReads(s') <= WaitingReads(s)
    && multiset(s'.pendingReads) == multiset(s.pendingReads) + (WaitingReads(s) - WaitingReads(s'))
  }

  lemma BrokenUpBy(s: System, s': System, added: multiset<Transaction>)
    requires WaitingReads(s) == WaitingReads(s') + added && multiset(s'.pendingReads) == multiset(s.pendingReads) + added
    ensures BrokenUp(s, s')
  {
    hide WaitingReads;
    assert WaitingReads(s) - WaitingReads(s') == added;
  }

  lemma BrokenUpTwice(s: System, s1: System, s2: System)
    requires BrokenUp(s, s1) && BrokenUp(s1, s2)
    ensures BrokenUp(s, s2)
  {
    hide WaitingReads;
    assert WaitingReads(s) - WaitingReads(s2) == (WaitingReads(s) - WaitingReads(s1)) + (WaitingReads(s1) - WaitingReads(s2));
  }

  /** A read that is broken up becomes pending; a write does not. */
  lemma SplitAtBreaksUp(cfg: Config, s: System, i: nat)
    requires s.Shape(cfg) && i < |s.transactions|
    ensures BrokenUp(s, SplitAt(cfg, s, i))
  {
    hide ReadsOf, HasRoomFor, CommandsOf, Enqueue, BrokenUp;
    var t := s.transactions[i];
    ReadsOfWithout(s.transactions, i);
    BrokenUpBy(s, SplitOne(cfg, s, i), if t.isRead then multiset{t} else multiset{});
    BrokenUpBy(s, s, multiset{});
  }

  lemma {:induction false} SplitBreaksUp(cfg: Config, s: System, i: nat)
    requires s.Shape(cfg)
    ensures BrokenUp(s, SplitFrom(cfg, s, i))
    decreases |s.transactions| - i
  {
    hide SplitAt, BrokenUp, WaitingReads;
    if i < |s.transactions| && s.halted.None? {
      SplitAtBreaksUp(cfg, s, i);
      SplitBreaksUp(cfg, SplitAt(cfg, s, i), i + 1);
      BrokenUpTwice(s, SplitAt(cfg, s, i), SplitFrom(cfg, s, i));
    } else {
      BrokenUpBy(s, s, multiset{});
    }
  }

  lemma IssueRequests(cfg: Config, m: System)
    requires m.Shape(cfg)
    ensures SameRequests(m, IssuePhase(cfg, m))
  {
    hide Pop, SentTable;
  }

  lemma BeforeAnswerBreaksUp(cfg: Config, m: System)
    requires m.Shape(cfg)
    ensures BrokenUp(m, BeforeAnswer(cfg, m)) && BeforeAnswer(cfg, m).returned == m.returned
  {
    hide IssuePhase, SplitFrom, PowerFrom, ReadsOf;
    IssueRequests(cfg, m);
    SplitFrame(cfg, IssuePhase(cfg, m), 0);
    SplitBreaksUp(cfg, IssuePhase(cfg, m), 0);
    PowerFrame(cfg, SplitFrom(cfg, IssuePhase(cfg, m), 0), 0);
  }

  function AnswerOf(s: System): multiset<Transaction> { if s.answered.Some? then multiset{s.answered.value} else multiset{} }

  lemma TakenOut(ts: seq<Transaction>, i: nat)
    requires i < |ts|
    ensures multiset(ts) == multiset(ts[..i] + ts[i+1..]) + multiset{ts[i]}
  {
    assert ts == ts[..i] + [ts[i]] + ts[i+1..];
  }

  /** The search finds a pending read of the address, and that one is answered and no other touched. */
  lemma AnswerTakesOne(cfg: Config, s: System)
    requires s.Shape(cfg) && Balanced(s)
    ensures var s' := ClockPhase(cfg, AnswerPhase(cfg, s));
      && WaitingReads(s') == WaitingReads(s)
      && (if s.returned == [] then s'.answered == s.answered && s'.returned == [] && s'.pendingReads == s.pendingReads
          else
            && s'.answered.Some? && s'.answered.value.address == s.returned[0] && s'.returned == s.returned[1..]
            && multiset(s.pendingReads) == multiset(s'.pendingReads) + AnswerOf(s'))
  {
    hide Balanced, ReadsOf;
    if s.returned != [] {
      AnswerFindsItsRead(s);
      TakenOut(s.pendingReads, FindPending(s.pendingReads, s.returned[0], 0));
    }
  }

  // ----- a cycle -----

  /** What is broken up from s to s' joins the pending reads, and what is answered leaves them. */
  ghost predicate Accounted(s: System, s': System) {
    && WaitingReads(s') <= WaitingReads(s)
    && multiset(s.pendingReads) + (WaitingReads(s) - WaitingReads(s')) == multiset(s'.pendingReads) + AnswerOf(s')
  }

  /** The oldest of the returned data, if there are any, is answered, and a read of its address is called back. */
  ghost predicate OldestAnswered(returned: seq<nat>, s': System) {
    if returned == [] then s'.answered.None? && s'.returned == []
    else s'.answered.Some? && s'.answered.value.address == returned[0] && s'.returned == returned[1..]
  }

  lemma SecondHalfAnswers(cfg: Config, m: System)
    requires m.Shape(cfg) && m.outgoingCmd.None? && m.halted.None? && m.answered.None? && Balanced(m)
    requires SecondHalf(cfg, m).halted.None?
    ensures Accounted(m, SecondHalf(cfg, m)) && OldestAnswered(m.returned, SecondHalf(cfg, m))
  {
    hide IssuePhase, SplitFrom, PowerFrom, AnswerPhase, ClockPhase, Balanced, WaitingReads;
    BeforeAnswerBalance(cfg, m);
    BeforeAnswerBreaksUp(cfg, m);
    BeforeAnswerFrame(cfg, m);
    AnswerTakesOne(cfg, BeforeAnswer(cfg, m));
  }

  lemma BeforeAnswerFrame(cfg: Config, m: System)
    requires m.Shape(cfg)
    ensures BeforeAnswer(cfg, m).answered == m.answered
    ensures SecondHalf(cfg, m).halted.None? ==> SecondHalf(cfg, m) == ClockPhase(cfg, AnswerPhase(cfg, BeforeAnswer(cfg, m)))
  {
    hide IssuePhase, SplitFrom, PowerFrom, AnswerPhase, ClockPhase;
    IssueRequests(cfg, m);
    SplitFrame(cfg, IssuePhase(cfg, m), 0);
    PowerFrame(cfg, SplitFrom(cfg, IssuePhase(cfg, m), 0), 0);
  }

  /** Whenever returned data are there when a cycle comes to answer, the oldest of them finds its read. */
  lemma CycleAnswers(cfg: Config, s: System)
    requires s.Shape(cfg) && Inv(cfg, s) && Buses(cfg, s) && Balanced(s) && Cycle(cfg, s).halted.None?
    ensures Accounted(s, Cycle(cfg, s)) && Cycle(cfg, s).now == s.now + 1
    ensures OldestAnswered(s.returned + Delivered(cfg, s.ranks), Cycle(cfg, s))
  {
    hide FirstHalf, SecondHalf, Delivered, Balanced, Buses, WaitingReads, RankAgrees, Following, Pop;
    FirstHalfAgrees(cfg, s);
    FirstHalfBalance(cfg, s);
    ReachPopRequests(cfg, s);
    var m := FirstHalf(cfg, s);
    SecondHalfAnswers(cfg, m);
    FirstHalfFrame(cfg, s);
    SecondHalfFrame(cfg, m);
  }

  // ----- runs -----

  /** In every run, a cycle that has returned data when it comes to answer calls back a read of the oldest data's
      address: the search never fails, and nothing is called back otherwise. */
  lemma EveryReturnIsAnswered(cfg: Config, run: seq<System>, i: nat)
    requires IsRun(cfg, run) && i + 1 < |run| && run[i+1].halted.None? && run[i+1].now == run[i].now + 1
    ensures forall r :: 0 <= r < |run[i].ranks| ==> Parallel(run[i].ranks[r])
    ensures OldestAnswered(run[i].returned + Delivered(cfg, run[i].ranks), run[i+1])
  {
    hide Inv, Buses, Balanced, Cycle, Delivered, Initial;
    RunBusStep(cfg, run, i);
    ReadsConserved(cfg, run, i);
    CycleAnswers(cfg, run[i]);
  }

  /** The request that arrived from s to s', if any. */
  function Arrival(s: System, s': System): multiset<Transaction> {
    if |s'.transactions| > |s.transactions| then ReadsOf([s'.transactions[|s'.transactions|-1]])
    else if |s'.overflow| > |s.overflow| then ReadsOf([s'.overflow[|s'.overflow|-1]])
    else multiset{}
  }

  /** The reads requested in the first i steps of a run. */
  ghost function Requested(run: seq<System>, i: nat): multiset<Transaction>
    requires i < |run|
  {
    if i == 0 then multiset{}
    else Requested(run, i - 1) + if run[i].now == run[i-1].now then Arrival(run[i-1], run[i]) else multiset{}
  }

  /** The reads broken up into commands, cycle by cycle. */
  ghost function Split(run: seq<System>, i: nat): multiset<Transaction>
    requires i < |run|
  {
    if i == 0 then multiset{}
    else Split(run, i - 1) + if run[i].now == run[i-1].now then multiset{} else WaitingReads(run[i-1]) - WaitingReads(run[i])
  }

  /** The reads called back, cycle by cycle. */
  ghost function Answered(run: seq<System>, i: nat): multiset<Transaction>
    requires i < |run|
  {
    if i == 0 then multiset{}
    else Answered(run, i - 1) + if run[i].now == run[i-1].now then multiset{} else AnswerOf(run[i])
  }

  lemma ArrivalWaits(cfg: Config, s: System, t: Transaction)
    requires s.Shape(cfg)
    ensures var s' := AddTransaction(cfg, s, t);
      && s'.now == s.now && s'.pendingReads == s.pendingReads && WaitingReads(s') == WaitingReads(s) + Arrival(s, s')
  {
    hide ReadsOf;
    ReadsOfAppend(s.transactions, [t]);
    ReadsOfAppend(s.overflow, [t]);
  }

  /** One step of a run, on the three accounts. */
  ghost predicate StepAccounted(s: System, s': System) {
    if s'.now == s.now then s'.pendingReads == s.pendingReads && WaitingReads(s') == WaitingReads(s) + Arrival(s, s')
    else Accounted(s, s')
  }

  lemma RunStepAccounted(cfg: Config, run: seq<System>, i: nat)
    requires IsRun(cfg, run) && i + 1 < |run| && run[i+1].halted.None?
    ensures StepAccounted(run[i], run[i+1])
  {
    hide Inv, Buses, Balanced, Cycle, Initial, WaitingReads, Arrival, Accounted;
    RunBusStep(cfg, run, i);
    ReadsConserved(cfg, run, i);
    var s, s' := run[i], run[i+1];
    if s' == Cycle(cfg, s) {
      CycleAnswers(cfg, s);
    } else {
      var t :| s' == AddTransaction(cfg, s, t);
      ArrivalWaits(cfg, s, t);
    }
  }

  /** The accounts of a run: what was split is pending or answered, and what was requested waits or was split. */
  ghost predicate Settled(s: System, requested: multiset<Transaction>, split: multiset<Transaction>, answered: multiset<Transaction>) {
    && split == multiset(s.pendingReads) + answered
    && requested == WaitingReads(s) + split
  }

  lemma SettledStep(s: System, s': System, requested: multiset<Transaction>, split: multiset<Transaction>, answered: multiset<Transaction>)
    requires Settled(s, requested, split, answered) && StepAccounted(s, s')
    ensures if s'.now == s.now then Settled(s', requested + Arrival(s, s'), split, answered)
            else Settled(s', requested, split + (WaitingReads(s) - WaitingReads(s')), answered + AnswerOf(s'))
  {
    hide WaitingReads, Arrival, AnswerOf;
    if s'.now == s.now {
      MoveOver(WaitingReads(s), Arrival(s, s'), split);
    } else {
      var d := WaitingReads(s) - WaitingReads(s');
      assert WaitingReads(s) == WaitingReads(s') + d;
      MoveOver(WaitingReads(s'), d, split);
      Shift(multiset(s.pendingReads), answered, d, multiset(s'.pendingReads), AnswerOf(s'));
    }
  }

  lemma MoveOver(a: multiset<Transaction>, b: multiset<Transaction>, c: multiset<Transaction>)
    ensures (a + b) + c == a + (c + b) && (a + c) + b == (a + b) + c
  {}

  lemma Shift(pending: multiset<Transaction>, answered: multiset<Transaction>, d: multiset<Transaction>,
              pending': multiset<Transaction>, answer: multiset<Transaction>)
    requires pending + d == pending' + answer
    ensures (pending + answered) + d == pending' + (answered + answer)
  {
    assert (pending + answered) + d == (pending + d) + answered;
  }

  lemma {:induction false} RunSettled(cfg: Config, run: seq<System>, i: nat)
    requires IsRun(cfg, run) && i < |run| && run[i].halted.None?
    ensures Settled(run[i], Requested(run, i), Split(run, i), Answered(run, i))
    decreases i
  {
    hide Step, Initial, System.Shape, WaitingReads, StepAccounted, AnswerOf, Arrival;
    if i == 0 {
      NothingWaits(cfg, run[0]);
    } else {
      RunSettled(cfg, run, i - 1);
      RunStepAccounted(cfg, run, i - 1);
      hide IsRun, Settled;
      SettledStep(run[i-1], run[i], Requested(run, i - 1), Split(run, i - 1), Answered(run, i - 1));
    }
  }

  /** At every point of every run, each read broken up so far is either still pending or has been called back, and
      each read requested so far is waiting, pending or called back, as often as it was requested: no read is
      called back twice, and none is lost. */
  lemma EachReadOnce(cfg: Config, run: seq<System>, i: nat)
    requires IsRun(cfg, run) && i < |run| && run[i].halted.None?
    ensures Split(run, i) == multiset(run[i].pendingReads) + Answered(run, i)
    ensures Requested(run, i) == WaitingReads(run[i]) + multiset(run[i].pendingReads) + Answered(run, i)
  {
    hide IsRun, Split, Requested, Answered, WaitingReads;
    RunSettled(cfg, run, i);
  }

  lemma NothingWaits(cfg: Config, s: System)
    requires Initial(cfg, s)
    ensures WaitingReads(s) == multiset{} && s.pendingReads == []
  {}
}
