/** Reads of one address are called back in the order in which they were broken up into commands. */
module AnswerOrder {
  import opened DramTypes
  import opened SystemSpec
  import opened SystemFrames
  import opened Refinement
  import opened BusTiming
  import opened ReadTimetable
  import opened ReadConservation
  import opened ReadAnswers

  /** The transactions of one address, oldest first. */
  function OfAddress(ts: seq<Transaction>, address: nat): seq<Transaction> {
    if |ts| == 0 then []
    else OfAddress(ts[..|ts|-1], address) + if ts[|ts|-1].address == address then [ts[|ts|-1]] else []
  }

  lemma {:induction false} OfAddressAppend(a: seq<Transaction>, b: seq<Transaction>, address: nat)
    ensures OfAddress(a + b, address) == OfAddress(a, address) + OfAddress(b, address)
    decreases |b|
  {
    if |b| == 0 {
      assert a + b == a;
    } else {
      assert (a + b)[..|a + b|-1] == a + b[..|b|-1];
      OfAddressAppend(a, b[..|b|-1], address);
    }
  }

  lemma {:induction false} NoneOfAddress(ts: seq<Transaction>, address: nat)
    requires forall i :: 0 <= i < |ts| ==> ts[i].address != address
    ensures OfAddress(ts, address) == []
  {
    if |ts| > 0 { NoneOfAddress(ts[..|ts|-1], address); }
  }

  lemma OfAddressOne(t: Transaction, address: nat)
    ensures OfAddress([t], address) == if t.address == address then [t] else []
  {
    assert [t][..0] == [];
  }

  lemma Regroup(f: seq<Transaction>, x: seq<Transaction>, r: seq<Transaction>)
    requires f == [] || x == []
    ensures (f + x) + r == x + (f + r)
  {}

  /** Taking out the first of an address. */
  lemma FirstTakenOut(ts: seq<Transaction>, i: nat, address: nat)
    requires i < |ts| && forall j :: 0 <= j < i ==> ts[j].address != ts[i].address
    ensures OfAddress(ts, address) == (if ts[i].address == address then [ts[i]] else []) + OfAddress(ts[..i] + ts[i+1..], address)
  {
    hide OfAddress;
    var front, rest := ts[..i], ts[i+1..];
    assert ts == front + [ts[i]] + rest;
    OfAddressAppend(front + [ts[i]], rest, address);
    OfAddressAppend(front, [ts[i]], address);
    OfAddressAppend(front, rest, address);
    OfAddressOne(ts[i], address);
    if ts[i].address == address { NoneOfAddress(front, address); }
    Regroup(OfAddress(front, address), OfAddress([ts[i]], address), OfAddress(rest, address));
  }

  function Answered(s: System, address: nat): seq<Transaction> {
    if s.answered.Some? && s.answered.value.address == address then [s.answered.value] else []
  }

  // ----- a cycle -----

  lemma SplitAtAppends(cfg: Config, s: System, i: nat)
    requires s.Shape(cfg) && i < |s.transactions|
    ensures s.pendingReads <= SplitAt(cfg, s, i).pendingReads
  {
    hide HasRoomFor, CommandsOf, Enqueue;
  }

  lemma {:induction false} SplitAppends(cfg: Config, s: System, i: nat)
    requires s.Shape(cfg)
    ensures s.pendingReads <= SplitFrom(cfg, s, i).pendingReads
    decreases |s.transactions| - i
  {
    hide SplitAt;
    if i < |s.transactions| && s.halted.None? {
      SplitAtAppends(cfg, s, i);
      SplitAppends(cfg, SplitAt(cfg, s, i), i + 1);
    }
  }

  lemma BeforeAnswerAppends(cfg: Config, m: System)
    requires m.Shape(cfg)
    ensures m.pendingReads <= BeforeAnswer(cfg, m).pendingReads && BeforeAnswer(cfg, m).answered == m.answered
  {
    hide IssuePhase, SplitFrom, PowerFrom;
    IssueRequests(cfg, m);
    SplitFrame(cfg, IssuePhase(cfg, m), 0);
    SplitAppends(cfg, IssuePhase(cfg, m), 0);
    PowerFrame(cfg, SplitFrom(cfg, IssuePhase(cfg, m), 0), 0);
  }

  lemma AnswerInOrder(cfg: Config, s: System, address: nat)
    requires s.Shape(cfg) && s.answered.None?
    ensures var s' := ClockPhase(cfg, AnswerPhase(cfg, s));
      OfAddress(s.pendingReads, address) == Answered(s', address) + OfAddress(s'.pendingReads, address)
  {
    hide OfAddress;
    if s.returned != [] {
      var i := FindPending(s.pendingReads, s.returned[0], 0);
      if i < |s.pendingReads| { FirstTakenOut(s.pendingReads, i, address); }
    }
  }

  lemma CycleAnswersInOrder(cfg: Config, s: System, address: nat)
    requires s.Shape(cfg) && Inv(cfg, s) && Cycle(cfg, s).halted.None?
    ensures var s' := Cycle(cfg, s);
      OfAddress(s.pendingReads, address) <= Answered(s', address) + OfAddress(s'.pendingReads, address)
  {
    hide FirstHalf, SecondHalf, OfAddress, Answered, RankAgrees, Following, AnswerPhase, ClockPhase, BeforeAnswer, WaitingReads;
    FirstHalfAgrees(cfg, s);
    ReachPopRequests(cfg, s);
    var m := FirstHalf(cfg, s);
    BeforeAnswerAppends(cfg, m);
    BeforeAnswerFrame(cfg, m);
    var b := BeforeAnswer(cfg, m);
    AnswerInOrder(cfg, b, address);
    assert b.pendingReads == s.pendingReads + b.pendingReads[|s.pendingReads|..];
    OfAddressAppend(s.pendingReads, b.pendingReads[|s.pendingReads|..], address);
  }

  // ----- runs -----

  /** The reads of an address called back in the first i steps of a run, in order. */
  ghost function AnsweredSoFar(run: seq<System>, i: nat, address: nat): seq<Transaction>
    requires i < |run|
  {
    if i == 0 then []
    else AnsweredSoFar(run, i - 1, address) + if run[i].now == run[i-1].now then [] else Answered(run[i], address)
  }

  lemma StepAnswersInOrder(cfg: Config, s: System, s': System, address: nat)
    requires s.Shape(cfg) && s'.Shape(cfg) && Inv(cfg, s) && Buses(cfg, s) && Step(cfg, s, s') && s'.halted.None?
    ensures OfAddress(s.pendingReads, address) <=
      (if s'.now == s.now then [] else Answered(s', address)) + OfAddress(s'.pendingReads, address)
  {
    hide Inv, Cycle, OfAddress, Answered, Buses;
    if s' == Cycle(cfg, s) {
      CycleAnswersInOrder(cfg, s, address);
      CycleReadData(cfg, s, 0);
    }
  }

  /** The reads of an address called back so far followed by those still pending: as a run goes on this list only grows
      at its end. So reads of one address are called back in the order in which they were broken up. */
  lemma {:induction false} AnsweredInOrder(cfg: Config, run: seq<System>, i: nat, j: nat, address: nat)
    requires IsRun(cfg, run) && i <= j < |run| && run[j].halted.None?
    ensures AnsweredSoFar(run, i, address) + OfAddress(run[i].pendingReads, address)
         <= AnsweredSoFar(run, j, address) + OfAddress(run[j].pendingReads, address)
    decreases j
  {
    hide IsRun, Inv, Buses, Step, OfAddress, Answered, System.Shape;
    if i < j {
      RunBusStep(cfg, run, j - 1);
      AnsweredInOrder(cfg, run, i, j - 1, address);
      StepAnswersInOrder(cfg, run[j-1], run[j], address);
    }
  }
}
