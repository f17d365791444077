/** The four-activate window: in every run five ACTIVATEs to one rank take at least tFAW cycles. */
module ActivateWindow {
  import opened DramTypes
  import opened RoundRobin
  import opened CommandQueueSpec
  import opened QueueInvariant
  import opened SystemSpec
  import opened SystemFrames
  import opened Refinement

  ghost predicate Increasing(w: seq<nat>) { forall i, j :: 0 <= i < j < |w| ==> w[i] < w[j] }

  ghost predicate Positive(w: seq<nat>) { forall i :: 0 <= i < |w| ==> w[i] >= 1 }

  lemma TickWindowIncreasing(w: seq<nat>)
    requires Increasing(w) && Positive(w)
    ensures Increasing(TickWindow(w)) && Positive(TickWindow(w))
  {
    forall i | 0 <= i < |w| ensures DecrementAll(w)[i] == w[i] - 1 {}
  }

  /** Erasing only the head loses nothing: every counter above one survives, one lower, and nothing else does. */
  lemma TickWindowExact(w: seq<nat>, x: nat)
    requires Increasing(w) && Positive(w)
    ensures x in TickWindow(w) <==> x >= 1 && x + 1 in w
  {
    var d := DecrementAll(w);
    var t := TickWindow(w);
    var cut := if |d| > 0 && d[0] == 0 then 1 else 0;
    assert t == d[cut..];
    if x in t {
      var i :| 0 <= i < |t| && t[i] == x;
      assert w[i + cut] == x + 1;
    }
    if x >= 1 && x + 1 in w {
      var i :| 0 <= i < |w| && w[i] == x + 1;
      assert t[i - cut] == x;
    }
  }

  lemma ChosenActivateFits(cfg: Config, q: QueueState, t: Table, now: nat)
    requires Ready(cfg, q, t)
    ensures var (issue, q') := Choose(cfg, q, t, now);
      issue.FromQueue? && q.queues[issue.rank][issue.slot][issue.index].kind.Activate? ==> |q.faw[issue.rank]| < 4
  {
    hide SearchClose, TickWindow;
    var (issue, q') := Choose(cfg, q, t, now);
    if issue.FromQueue? && Urgent(cfg, q, t, now).NoIssue? {
      var (c, found) := Search(cfg, q, t, Cursor(q.nextRank, q.nextBank), QueueCount(cfg), now);
      hide Search;
      assert found == issue;
    }
  }

  /** An ACTIVATE is popped only while fewer than four others are in its rank's window. */
  lemma ActivateNeedsRoom(cfg: Config, q: QueueState, t: Table, now: nat)
    requires Ready(cfg, q, t)
    ensures var p := Pop(cfg, q, t, now).1;
      p.Some? && p.value.kind.Activate? ==> |TickWindow(q.faw[p.value.rank])| < 4
  {
    var q0 := q.(faw := TickWindows(q.faw));
    hide TickWindow, Choose, Take, Advance;
    ChosenActivateFits(cfg, q0, t, now);
  }

  /** What pop does to one rank's window. */
  lemma PopWindow(cfg: Config, q: QueueState, t: Table, now: nat, r: nat)
    requires Ready(cfg, q, t) && r < cfg.numRanks
    ensures var (q', p) := Pop(cfg, q, t, now);
      q'.faw[r] == TickWindow(q.faw[r]) + if p.Some? && p.value.kind.Activate? && p.value.rank == r then [cfg.tFAW] else []
  {
    hide Choose, PacketOf, TickWindow;
  }

  // ----- the history of one rank -----

  /** Times strictly increase and lie in the past. */
  ghost predicate History(times: seq<int>, now: int) {
    && (forall i, j :: 0 <= i < j < |times| ==> times[i] < times[j])
    && (forall i :: 0 <= i < |times| ==> times[i] < now)
  }

  ghost predicate Entry(tFAW: nat, w: seq<nat>, times: seq<int>, now: int, x: nat) {
    x in w <==> x >= 1 && now - 1 - tFAW + x in times
  }

  /** The counters are exactly tFAW less the age of each ACTIVATE at most that old (which the next pop
      lowers first). */
  ghost predicate Exact(tFAW: nat, w: seq<nat>, times: seq<int>, now: int) {
    Increasing(w) && Positive(w) && forall x: nat :: Entry(tFAW, w, times, now, x)
  }

  ghost predicate FifthWaits(tFAW: nat, times: seq<int>) {
    forall k :: 0 <= k && k + 4 < |times| ==> times[k+4] - times[k] >= tFAW
  }

  lemma EntryStep(tFAW: nat, w: seq<nat>, times: seq<int>, now: int, sent: bool, x: nat)
    requires tFAW >= 1 && History(times, now) && Exact(tFAW, w, times, now)
    ensures Entry(tFAW, TickWindow(w) + (if sent then [tFAW] else []), if sent then times + [now] else times, now + 1, x)
  {
    TickWindowExact(w, x);
    assert Entry(tFAW, w, times, now, x + 1);
    hide TickWindow;
    assert now in times + [now];
  }

  lemma WindowStep(tFAW: nat, w: seq<nat>, times: seq<int>, now: int, sent: bool)
    requires tFAW >= 1 && History(times, now) && Exact(tFAW, w, times, now)
    ensures var times' := if sent then times + [now] else times;
      History(times', now + 1) && Exact(tFAW, TickWindow(w) + (if sent then [tFAW] else []), times', now + 1)
  {
    var t := TickWindow(w);
    TickWindowIncreasing(w);
    forall i | 0 <= i < |t| ensures t[i] < tFAW {
      TickWindowExact(w, t[i]);
      assert Entry(tFAW, w, times, now, t[i] + 1);
    }
    hide Entry, TickWindow;
    forall x: nat {:trigger Entry(tFAW, t + (if sent then [tFAW] else []), if sent then times + [now] else times, now + 1, x)}
      ensures Entry(tFAW, t + (if sent then [tFAW] else []), if sent then times + [now] else times, now + 1, x)
    {
      EntryStep(tFAW, w, times, now, sent, x);
    }
  }

  lemma FourMembers(w: seq<nat>, a: nat, b: nat, c: nat, d: nat)
    requires Increasing(w) && a < b < c < d && a in w && b in w && c in w && d in w
    ensures |w| >= 4
  {
    var i :| 0 <= i < |w| && w[i] == a;
    var j :| 0 <= j < |w| && w[j] == b;
    var k :| 0 <= k < |w| && w[k] == c;
    var l :| 0 <= l < |w| && w[l] == d;
    assert i < j < k < l;
  }

  lemma RecentIsCounted(tFAW: nat, w: seq<nat>, times: seq<int>, now: int, i: nat)
    requires History(times, now) && Exact(tFAW, w, times, now) && i < |times| && now - times[i] < tFAW
    ensures tFAW - (now - times[i]) in TickWindow(w)
  {
    TickWindowExact(w, tFAW - (now - times[i]));
    assert Entry(tFAW, w, times, now, tFAW - (now - times[i]) + 1);
  }

  /** While the ACTIVATE four back is not old enough the window is full. */
  lemma WindowFull(tFAW: nat, w: seq<nat>, times: seq<int>, now: int)
    requires History(times, now) && Exact(tFAW, w, times, now) && |times| >= 4 && now - times[|times|-4] < tFAW
    ensures |TickWindow(w)| >= 4
  {
    var n := |times|;
    TickWindowIncreasing(w);
    hide Exact, TickWindow;
    RecentIsCounted(tFAW, w, times, now, n - 4);
    RecentIsCounted(tFAW, w, times, now, n - 3);
    RecentIsCounted(tFAW, w, times, now, n - 2);
    RecentIsCounted(tFAW, w, times, now, n - 1);
    FourMembers(TickWindow(w), tFAW - (now - times[n-4]), tFAW - (now - times[n-3]),
                tFAW - (now - times[n-2]), tFAW - (now - times[n-1]));
  }

  lemma CountedIsRecent(tFAW: nat, w: seq<nat>, times: seq<int>, now: int, k: nat) returns (i: nat)
    requires History(times, now) && Exact(tFAW, w, times, now) && k < |TickWindow(w)|
    ensures i < |times| && times[i] == now - tFAW + TickWindow(w)[k] && TickWindow(w)[k] >= 1
  {
    var x := TickWindow(w)[k];
    TickWindowExact(w, x);
    assert Entry(tFAW, w, times, now, x + 1);
    i :| 0 <= i < |times| && times[i] == now - tFAW + x;
  }

  /** And it is full only then. */
  lemma FullIsRecent(tFAW: nat, w: seq<nat>, times: seq<int>, now: int)
    requires History(times, now) && Exact(tFAW, w, times, now) && |TickWindow(w)| >= 4
    ensures |times| >= 4 && now - times[|times|-4] < tFAW
  {
    TickWindowIncreasing(w);
    var a := CountedIsRecent(tFAW, w, times, now, 0);
    var b := CountedIsRecent(tFAW, w, times, now, 1);
    var c := CountedIsRecent(tFAW, w, times, now, 2);
    var d := CountedIsRecent(tFAW, w, times, now, 3);
    hide TickWindow, Exact;
    assert a < b < c < d;
  }

  /** One cycle keeps the account exact and the ACTIVATEs apart. */
  lemma AccountStep(tFAW: nat, w: seq<nat>, times: seq<int>, now: int, sent: bool)
    requires tFAW >= 1 && History(times, now) && Exact(tFAW, w, times, now) && FifthWaits(tFAW, times)
    requires sent ==> |TickWindow(w)| < 4
    ensures var times' := if sent then times + [now] else times;
      && History(times', now + 1) && FifthWaits(tFAW, times')
      && Exact(tFAW, TickWindow(w) + (if sent then [tFAW] else []), times', now + 1)
  {
    WindowStep(tFAW, w, times, now, sent);
    if sent && |times| >= 4 && now - times[|times|-4] < tFAW { WindowFull(tFAW, w, times, now); }
    hide Exact, TickWindow, History;
  }

  // ----- runs -----

  /** Going from s to s' was a clock cycle and sent an ACTIVATE to rank r. */
  ghost predicate ActivateSent(s: System, s': System, r: nat) {
    && s'.now == s.now + 1
    && s'.outgoingCmd.Some? && s'.outgoingCmd.value.kind.Activate? && s'.outgoingCmd.value.rank == r
  }

  /** When the first i steps of a run sent ACTIVATEs to rank r. */
  ghost function ActivateTimes(run: seq<System>, i: nat, r: nat): seq<int>
    requires i < |run|
  {
    if i == 0 then []
    else ActivateTimes(run, i - 1, r) + if ActivateSent(run[i-1], run[i], r) then [run[i-1].now] else []
  }

  lemma CycleWindow(cfg: Config, s: System, r: nat)
    requires s.Shape(cfg) && Inv(cfg, s) && r < cfg.numRanks && Cycle(cfg, s).halted.None?
    ensures var s' := Cycle(cfg, s);
      && s'.now == s.now + 1
      && s'.q.faw[r] == TickWindow(s.q.faw[r]) + (if ActivateSent(s, s', r) then [cfg.tFAW] else [])
      && (ActivateSent(s, s', r) ==> |TickWindow(s.q.faw[r])| < 4)
  {
    hide FirstHalf, SecondHalf, Pop, TickWindow, Following, QueuesOk, RankAgrees;
    FirstHalfAgrees(cfg, s);
    FirstHalfFrame(cfg, s);
    var m := FirstHalf(cfg, s);
    if m.halted.None? {
      SecondHalfFrame(cfg, m);
      PopWindow(cfg, m.q, m.banks, m.now, r);
      ActivateNeedsRoom(cfg, m.q, m.banks, m.now);
    }
  }

  /** A step is a cycle, or leaves the clock and the windows alone. */
  lemma StepWindow(cfg: Config, s: System, s': System, r: nat)
    requires s.Shape(cfg) && s'.Shape(cfg) && Inv(cfg, s) && Step(cfg, s, s') && s'.halted.None? && r < cfg.numRanks
    ensures r < |s.q.faw| && r < |s'.q.faw|
    ensures if s'.now == s.now + 1 then
              && s'.q.faw[r] == TickWindow(s.q.faw[r]) + (if ActivateSent(s, s', r) then [cfg.tFAW] else [])
              && (ActivateSent(s, s', r) ==> |TickWindow(s.q.faw[r])| < 4)
            else s'.now == s.now && s'.q.faw == s.q.faw && !ActivateSent(s, s', r)
  {
    hide Inv, Cycle, TickWindow;
    if s' == Cycle(cfg, s) { CycleWindow(cfg, s, r); }
  }

  lemma InitialWindow(cfg: Config, s: System, r: nat)
    requires Initial(cfg, s) && r < cfg.numRanks
    ensures r < |s.q.faw| && s.q.faw[r] == []
  {}

  lemma {:induction false} WindowStaysExact(cfg: Config, run: seq<System>, i: nat, r: nat)
    requires cfg.tFAW >= 1 && IsRun(cfg, run) && i < |run| && run[i].halted.None? && r < cfg.numRanks && r < |run[i].q.faw|
    ensures History(ActivateTimes(run, i, r), run[i].now)
    ensures Exact(cfg.tFAW, run[i].q.faw[r], ActivateTimes(run, i, r), run[i].now)
    ensures FifthWaits(cfg.tFAW, ActivateTimes(run, i, r))
    decreases i
  {
    hide Inv, Step, Initial, TickWindow, ActivateSent, System.Shape, Config.Valid;
    InitialWindow(cfg, run[0], r);
    if i > 0 {
      var s, s' := run[i-1], run[i];
      hide Exact, History, FifthWaits;
      RunStep(cfg, run, i - 1);
      StepWindow(cfg, s, s', r);
      WindowStaysExact(cfg, run, i - 1, r);
      var times := ActivateTimes(run, i - 1, r);
      assert ActivateTimes(run, i, r) == if ActivateSent(s, s', r) then times + [s.now] else times;
      if s'.now == s.now + 1 {
        AccountStep(cfg.tFAW, s.q.faw[r], times, s.now, ActivateSent(s, s', r));
      }
    }
  }

  /** In every run, whatever the requests and policies, the fifth ACTIVATE to a rank is sent at least
      tFAW cycles after the first. */
  lemma FourActivateWindow(cfg: Config, run: seq<System>, i: nat, r: nat, k: nat)
    requires IsRun(cfg, run) && i < |run| && run[i].halted.None? && r < cfg.numRanks
    requires k + 4 < |ActivateTimes(run, i, r)|
    ensures ActivateTimes(run, i, r)[k+4] - ActivateTimes(run, i, r)[k] >= cfg.tFAW
  {
    WindowStaysExact(cfg, run, i, r);
  }

  /** In every run the window holds back ACTIVATEs to a rank exactly while the fourth last ACTIVATE to it is less than
      tFAW cycles old. */
  lemma WindowIsFullExactly(cfg: Config, run: seq<System>, i: nat, r: nat)
    requires cfg.tFAW >= 1 && IsRun(cfg, run) && i < |run| && run[i].halted.None? && r < cfg.numRanks && r < |run[i].q.faw|
    ensures var times := ActivateTimes(run, i, r);
      |TickWindow(run[i].q.faw[r])| >= 4 <==> |times| >= 4 && run[i].now - times[|times|-4] < cfg.tFAW
  {
    hide IsRun, ActivateTimes, TickWindow, History, Exact, FifthWaits, System.Shape, Config.Valid;
    WindowStaysExact(cfg, run, i, r);
    var w, times := run[i].q.faw[r], ActivateTimes(run, i, r);
    if |TickWindow(w)| >= 4 { FullIsRecent(cfg.tFAW, w, times, run[i].now); }
    if |times| >= 4 && run[i].now - times[|times|-4] < cfg.tFAW { WindowFull(cfg.tFAW, w, times, run[i].now); }
  }
}
