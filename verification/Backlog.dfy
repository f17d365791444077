/** Requests on their way into the controller: the controller never holds more than its depth, and the others wait
    their turn. */
module Backlog {
  import opened DramTypes
  import opened SystemSpec
  import opened SystemFrames
  import opened Refinement
  import opened ReadAnswers

  /** What moves up at the beginning of a cycle. */
  ghost predicate MovesUp(cfg: Config, s: System, m: System) {
    if s.overflow != [] && |s.transactions| < cfg.transQueueDepth then
      m.transactions == s.transactions + [s.overflow[0]] && s.overflow == [s.overflow[0]] + m.overflow
    else m.transactions == s.transactions && m.overflow == s.overflow
  }

  lemma FirstHalfMovesUp(cfg: Config, s: System)
    requires s.Shape(cfg)
    ensures MovesUp(cfg, s, FirstHalf(cfg, s))
  {
    hide FirstHalf, Delivered;
    FirstHalfRequests(cfg, s);
  }

  lemma {:induction false} SplitShrinks(cfg: Config, s: System, i: nat)
    requires s.Shape(cfg)
    ensures |SplitFrom(cfg, s, i).transactions| <= |s.transactions|
    decreases |s.transactions| - i
  {
    hide SplitAt;
    if i < |s.transactions| && s.halted.None? { SplitShrinks(cfg, SplitAt(cfg, s, i), i + 1); }
  }

  lemma SecondHalfShrinks(cfg: Config, m: System)
    requires m.Shape(cfg) && m.outgoingCmd.None? && m.halted.None?
    ensures |SecondHalf(cfg, m).transactions| <= |m.transactions| && SecondHalf(cfg, m).overflow == m.overflow
  {
    hide IssuePhase, SplitFrom, PowerFrom, FindPending;
    IssueRequests(cfg, m);
    SplitFrame(cfg, IssuePhase(cfg, m), 0);
    SplitShrinks(cfg, IssuePhase(cfg, m), 0);
    PowerFrame(cfg, SplitFrom(cfg, IssuePhase(cfg, m), 0), 0);
  }

  // ----- runs -----

  /** In every run the controller's list is never longer than its depth. */
  lemma {:induction false} NeverTooMany(cfg: Config, run: seq<System>, i: nat)
    requires IsRun(cfg, run) && i < |run| && run[i].halted.None?
    ensures |run[i].transactions| <= cfg.transQueueDepth
    decreases i
  {
    hide Inv, Cycle, Initial, System.Shape;
    if i == 0 {
      StartsEmpty(cfg, run[0]);
    } else {
      RunStep(cfg, run, i - 1);
      NeverTooMany(cfg, run, i - 1);
      if run[i] == Cycle(cfg, run[i-1]) { CycleMovesUp(cfg, run[i-1]); }
    }
  }

  lemma StartsEmpty(cfg: Config, s: System)
    requires Initial(cfg, s)
    ensures s.transactions == []
  {}

  lemma CycleMovesUp(cfg: Config, s: System)
    requires s.Shape(cfg) && Inv(cfg, s) && Cycle(cfg, s).halted.None?
    ensures var m, s' := FirstHalf(cfg, s), Cycle(cfg, s);
      MovesUp(cfg, s, m) && s'.overflow == m.overflow && |s'.transactions| <= |m.transactions|
  {
    hide FirstHalf, SecondHalf, Following, RankAgrees;
    FirstHalfAgrees(cfg, s);
    FirstHalfMovesUp(cfg, s);
    SecondHalfShrinks(cfg, FirstHalf(cfg, s));
  }

  /** In every run a request is put off only while the controller's list is full, the oldest one put off moves up at the
      beginning of the next cycle in which the list is not full, and otherwise requests stay where they are. */
  lemma PutOffOnlyWhenFull(cfg: Config, run: seq<System>, i: nat)
    requires IsRun(cfg, run) && i + 1 < |run| && run[i+1].halted.None? && run[i].Shape(cfg)
    ensures var s, s' := run[i], run[i+1];
      || (MovesUp(cfg, s, FirstHalf(cfg, s)) && s'.overflow == FirstHalf(cfg, s).overflow)
      || (exists t :: s'.overflow == s.overflow + [t] && |s.transactions| == cfg.transQueueDepth && s'.transactions == s.transactions)
      || (exists t :: s'.transactions == s.transactions + [t] && |s.transactions| < cfg.transQueueDepth && s'.overflow == s.overflow)
  {
    hide Inv, Cycle, Initial, MovesUp, FirstHalf;
    RunStep(cfg, run, i);
    NeverTooMany(cfg, run, i);
    if run[i+1] == Cycle(cfg, run[i]) { CycleMovesUp(cfg, run[i]); }
  }
}
