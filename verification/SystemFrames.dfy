/** What the phases of a cycle leave alone. */
module SystemFrames {
  import opened DramTypes
  import opened BankTiming
  import opened CommandQueueSpec
  import opened RankSpec
  import opened SystemSpec

  /** Breaking up transactions changes the queues, the transactions and the pending reads only. */
  ghost predicate SplitMoved(s: System, s': System) {
    s' == s.(q := s.q.(queues := s'.q.queues), transactions := s'.transactions, pendingReads := s'.pendingReads, halted := s'.halted)
  }

  lemma SplitAtFrame(cfg: Config, s: System, i: nat)
    requires s.Shape(cfg) && i < |s.transactions|
    ensures SplitMoved(s, SplitAt(cfg, s, i))
  {}

  lemma {:induction false} SplitFrame(cfg: Config, s: System, i: nat)
    requires s.Shape(cfg)
    ensures SplitMoved(s, SplitFrom(cfg, s, i))
    decreases |s.transactions| - i
  {
    hide SplitAt;
    if i < |s.transactions| && s.halted.None? {
      SplitAtFrame(cfg, s, i);
      SplitFrame(cfg, SplitAt(cfg, s, i), i + 1);
    }
  }

  /** The transactions before index i stay where they are. */
  lemma {:induction false} SplitKeepsBefore(cfg: Config, s: System, i: nat)
    requires s.Shape(cfg) && i <= |s.transactions|
    ensures i <= |SplitFrom(cfg, s, i).transactions| && SplitFrom(cfg, s, i).transactions[..i] == s.transactions[..i]
    decreases |s.transactions| - i
  {
    hide SplitAt, RoomFor;
    if i < |s.transactions| && s.halted.None? {
      var s1 := SplitAt(cfg, s, i);
      SplitAtMoves(cfg, s, i);
      if i + 1 <= |s1.transactions| {
        SplitKeepsBefore(cfg, s1, i + 1);
        assert SplitFrom(cfg, s, i).transactions[..i] == SplitFrom(cfg, s, i).transactions[..i + 1][..i];
      }
    }
  }

  /** The queue of a transaction has room for its two commands. */
  predicate RoomFor(cfg: Config, s: System, t: Transaction)
    requires s.Shape(cfg)
  {
    var place := cfg.locate(t.address);
    |s.q.queues[place.rank][cfg.SlotOf(place.bank)]| + 2 <= cfg.cmdQueueDepth
  }

  /** With no queue overfull, a transaction is broken up exactly if its queue has room for two commands. */
  lemma SplitAtMoves(cfg: Config, s: System, i: nat)
    requires s.Shape(cfg) && i < |s.transactions|
    ensures var ts, ts' := s.transactions, SplitAt(cfg, s, i).transactions;
      && (ts' == ts[..i] + ts[i+1..] || ts' == ts)
      && (var place := cfg.locate(ts[i].address);
          |s.q.queues[place.rank][cfg.SlotOf(place.bank)]| <= cfg.cmdQueueDepth ==>
            ts' == if RoomFor(cfg, s, ts[i]) then ts[..i] + ts[i+1..] else ts)
  {}

  /** A transaction is broken up if there is room; the one after it is then passed over, and still there. */
  lemma NextIsPassedOver(cfg: Config, s: System, i: nat)
    requires s.Shape(cfg) && s.halted.None? && i + 1 < |s.transactions|
    requires var place := cfg.locate(s.transactions[i].address); |s.q.queues[place.rank][cfg.SlotOf(place.bank)]| <= cfg.cmdQueueDepth
    ensures var ts, ts' := s.transactions, SplitFrom(cfg, s, i).transactions;
      i < |ts'| && ts'[..i+1] == if RoomFor(cfg, s, ts[i]) then ts[..i] + [ts[i+1]] else ts[..i+1]
  {
    SplitAtMoves(cfg, s, i);
    hide SplitAt, RoomFor;
    var s1 := SplitAt(cfg, s, i);
    SplitKeepsBefore(cfg, s1, i + 1);
  }

  /** The two records agree on everything the spacing of column commands depends on. */
  ghost predicate SameSpacing(b: BankState, b': BankState) {
    && b' == b.(phase := b'.phase, nextActivate := b'.nextActivate, nextPowerUp := b'.nextPowerUp)
    && (b'.phase == b.phase || b'.phase.Idle? || b'.phase.PowerDown?)
  }

  /** Power moves change the bank tables and the power flags only. */
  ghost predicate PowerMoved(s: System, s': System) {
    && s' == s.(banks := s'.banks, powerDown := s'.powerDown, ranks := s'.ranks, halted := s'.halted)
    && |s'.ranks| == |s.ranks| && |s'.banks| == |s.banks|
    && (forall r :: 0 <= r < |s.ranks| ==> s'.ranks[r] == s.ranks[r].(banks := s'.ranks[r].banks, isPowerDown := s'.ranks[r].isPowerDown))
    && (forall r :: 0 <= r < |s.banks| ==> |s'.banks[r]| == |s.banks[r]|)
    && forall r, b :: 0 <= r < |s.banks| && 0 <= b < |s.banks[r]| ==> SameSpacing(s.banks[r][b], s'.banks[r][b])
  }

  lemma PowerKeepsSpacing(cfg: Config, banks: BankRow, move: PowerMove, now: nat)
    ensures forall b :: 0 <= b < |banks| ==> SameSpacing(banks[b], PowerBanks(cfg, banks, move, now)[b])
  {}

  lemma PoweredFrame(cfg: Config, r: RankState, now: nat)
    ensures var d := PoweredDown(cfg, r, now); d == r.(banks := d.banks, isPowerDown := d.isPowerDown)
    ensures var u := PoweredUp(cfg, r, now); u == r.(banks := u.banks, isPowerDown := u.isPowerDown)
  {}

  lemma PowerRankFrame(cfg: Config, s: System, r: nat)
    requires s.Shape(cfg) && r < cfg.numRanks
    ensures PowerMoved(s, PowerRank(cfg, s, r))
  {
    hide PowerMoveOf, MayPowerDown, MayPowerUp, PowerBanks, SameSpacing, PoweredDown, PoweredUp;
    PoweredFrame(cfg, s.ranks[r], s.now);
    PowerKeepsSpacing(cfg, s.banks[r], PowerMoveOf(cfg, s, r), s.now);
    forall b: BankState ensures SameSpacing(b, b) { SpacingIsSame(b); }
  }

  lemma SpacingIsSame(b: BankState)
    ensures SameSpacing(b, b)
  {}

  lemma {:induction false} PowerFrame(cfg: Config, s: System, r: nat)
    requires s.Shape(cfg)
    ensures PowerMoved(s, PowerFrom(cfg, s, r))
    decreases cfg.numRanks - r
  {
    hide PowerRank;
    if r < cfg.numRanks && s.halted.None? {
      PowerRankFrame(cfg, s, r);
      PowerFrame(cfg, PowerRank(cfg, s, r), r + 1);
    }
  }

  /** The phases before pop do not touch the queues or the pending reads. */
  ghost predicate Quiet(s: System, s': System) {
    && s'.now == s.now && s'.pendingReads == s.pendingReads
    && s'.q == s.q.(refreshWaiting := s'.q.refreshWaiting, refreshRank := s'.q.refreshRank)
  }

  lemma CommandQuiet(cfg: Config, s: System)
    requires s.Shape(cfg)
    ensures Quiet(s, CommandPhase(cfg, TickPhase(cfg, BacklogPhase(cfg, RanksPhase(cfg, s)))))
  {
    hide RankSpec.Accepts, Receive, TickTable, Delivered;
  }

  lemma BusQuiet(cfg: Config, s: System)
    requires s.Shape(cfg)
    ensures Quiet(s, WritePhase(cfg, DataPhase(cfg, s)))
  {}

  lemma RefreshQuiet(cfg: Config, s: System)
    requires s.Shape(cfg)
    ensures Quiet(s, RefreshPhase(cfg, s))
  {}

  lemma FirstHalfFrame(cfg: Config, s: System)
    requires s.Shape(cfg)
    ensures Quiet(s, FirstHalf(cfg, s))
  {
    hide RanksPhase, BacklogPhase, TickPhase, CommandPhase, DataPhase, WritePhase, RefreshPhase;
    var s1 := CommandPhase(cfg, TickPhase(cfg, BacklogPhase(cfg, RanksPhase(cfg, s))));
    CommandQuiet(cfg, s);
    BusQuiet(cfg, s1);
    RefreshQuiet(cfg, WritePhase(cfg, DataPhase(cfg, s1)));
  }

  /** The command just popped is on the bus and the queue is as pop left it. */
  ghost predicate Popped(cfg: Config, s: System, s': System)
    requires s.Shape(cfg)
  {
    var (q', p) := Pop(cfg, s.q, s.banks, s.now);
    s'.outgoingCmd == p && s'.q == q'.(queues := s'.q.queues)
  }

  lemma IssuePopped(cfg: Config, s: System)
    requires s.Shape(cfg) && s.outgoingCmd.None? && s.halted.None?
    ensures var s' := IssuePhase(cfg, s); s'.halted.None? && s'.now == s.now && Popped(cfg, s, s')
  {
    hide Pop, SentTable;
  }

  /** At the end of a cycle, too, apart from what was enqueued meanwhile. */
  lemma SecondHalfFrame(cfg: Config, s: System)
    requires s.Shape(cfg) && s.outgoingCmd.None? && s.halted.None?
    ensures var s' := SecondHalf(cfg, s); s'.halted.None? ==> s'.now == s.now + 1 && Popped(cfg, s, s')
  {
    hide IssuePhase, SplitFrom, PowerFrom, Pop, FindPending;
    IssuePopped(cfg, s);
    var s1 := IssuePhase(cfg, s);
    SplitFrame(cfg, s1, 0);
    PowerFrame(cfg, SplitFrom(cfg, s1, 0), 0);
  }
}
