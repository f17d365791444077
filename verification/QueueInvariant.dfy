/** What the queues and the controller's bank table guarantee each other: ACTIVATEs stay paired with
    their column command, and a column command whose ACTIVATE has gone finds its row open. */
module QueueInvariant {
  import opened DramTypes
  import opened RoundRobin
  import opened CommandQueueSpec

  // ----- one bank, one queue -----

  /** Consistency of the controller's record of one bank just before the queue is asked for a command. */
  ghost predicate BankOk(cfg: Config, b: BankState, accesses: nat, now: nat) {
    && accesses <= cfg.totalRowAccesses
    && (b.phase.RowActive? || accesses == 0)
    && (cfg.policy.ClosePage? ==> accesses == 0)
    && (cfg.policy.OpenPage? ==> !b.lastCommand.AutoPrecharges())
    && match b.phase
       case RowActive => b.countdown > 0 <==> b.lastCommand.AutoPrecharges()
       case Idle => b.countdown == 0
       case PowerDown => b.countdown == 0
       case Precharging => b.countdown > 0 && b.lastCommand.Precharge?
       case Refreshing => b.countdown > 0 && b.lastCommand.Refresh? && b.nextActivate >= now + b.countdown
  }

  predicate Wanted(cfg: Config, kind: Kind) {
    kind.Activate? || (if cfg.policy.OpenPage? then kind.Read? || kind.Write? else kind.ReadP? || kind.WriteP?)
  }

  ghost predicate SameTarget(a: BusPacket, c: BusPacket) {
    a.address == c.address && a.rank == c.rank && a.bank == c.bank && a.row == c.row && a.column == c.column && a.id == c.id
  }

  /** Every ACTIVATE is followed at once by its own column command. */
  ghost predicate Paired(que: seq<BusPacket>) {
    forall i :: 0 <= i < |que| && que[i].kind.Activate? ==>
      i + 1 < |que| && que[i+1].kind.IsColumn() && SameTarget(que[i], que[i+1])
  }

  /** A column command whose ACTIVATE is no longer in the queue. */
  ghost predicate Lone(que: seq<BusPacket>, i: nat)
    requires i < |que|
  {
    !que[i].kind.Activate? && (i == 0 || !que[i-1].kind.Activate?)
  }

  ghost predicate FirstOfBank(que: seq<BusPacket>, i: nat)
    requires i < |que|
  {
    forall j :: 0 <= j < i ==> que[j].bank != que[i].bank
  }

  ghost predicate RowHeld(v: RankView, p: BusPacket)
    requires p.bank < |v.banks| && p.bank < |v.accesses|
  {
    v.banks[p.bank].Usable() && v.banks[p.bank].openRow == p.row && v.accesses[p.bank] == 0
  }

  ghost predicate Mine(cfg: Config, que: seq<BusPacket>, slot: nat) {
    forall i :: 0 <= i < |que| ==>
      && que[i].bank < cfg.numBanks && Wanted(cfg, que[i].kind)
      && (cfg.structure.PerRankPerBank? ==> que[i].bank == slot)
  }

  ghost predicate LonesHeld(que: seq<BusPacket>, v: RankView)
    requires forall i :: 0 <= i < |que| ==> que[i].bank < |v.banks| && que[i].bank < |v.accesses|
  {
    forall i :: 0 <= i < |que| && Lone(que, i) ==> RowHeld(v, que[i]) && FirstOfBank(que, i)
  }

  ghost predicate QueueOk(cfg: Config, que: seq<BusPacket>, slot: nat, v: RankView) {
    Mine(cfg, que, slot) && Fits(cfg, v, que) && Paired(que) && LonesHeld(que, v)
  }

  // ----- consequences for the choice -----

  /** An ACTIVATE found by the search is the oldest packet of its bank. */
  lemma FoundActivateIsFirst(cfg: Config, v: RankView, que: seq<BusPacket>, slot: nat, i: nat, now: nat)
    requires QueueOk(cfg, que, slot, v) && i < |que|
    requires Eligible(cfg, v, que, i, now) && que[i].kind.Activate?
    requires forall j :: 0 <= j < i ==> !Eligible(cfg, v, que, j, now)
    ensures FirstOfBank(que, i)
  {
    if !FirstOfBank(que, i) {
      var j := FirstIndexOf(que, que[i].bank, i);
      assert !Eligible(cfg, v, que, j, now);
      if que[j].kind.Activate? {
        assert IsIssuable(cfg, v, que[j], now);
      }
      assert false;
    }
  }

  lemma FirstIndexOf(que: seq<BusPacket>, bank: nat, end: nat) returns (j: nat)
    requires end <= |que| && exists k :: 0 <= k < end && que[k].bank == bank
    ensures j < end && que[j].bank == bank
    ensures forall k :: 0 <= k < j ==> que[k].bank != bank
  {
    j := 0;
    while que[j].bank != bank
      invariant j < end
      invariant forall k :: 0 <= k < j ==> que[k].bank != bank
      decreases end - j
    {
      j := j + 1;
    }
  }

  /** Nothing earlier in the queue is a column command for the same bank and row. */
  ghost predicate OldestForRow(que: seq<BusPacket>, i: nat)
    requires i < |que|
  {
    forall j :: 0 <= j < i && que[j].bank == que[i].bank && que[j].row == que[i].row ==> que[j].kind.Activate?
  }

  /** What makes taking packet i safe. */
  ghost predicate GoodPick(cfg: Config, v: RankView, que: seq<BusPacket>, i: nat, drop: bool, now: nat)
    requires Fits(cfg, v, que) && i < |que|
  {
    && IsIssuable(cfg, v, que[i], now)
    && (drop <==> cfg.policy.OpenPage? && i > 0 && que[i-1].kind.Activate?)
    && (if que[i].kind.Activate? then FirstOfBank(que, i) && !drop
        else OldestForRow(que, i) && v.banks[que[i].bank].Usable() && (!drop ==> Lone(que, i)))
  }

  lemma SearchPickIsGood(cfg: Config, v: RankView, que: seq<BusPacket>, slot: nat, i: nat, now: nat)
    requires QueueOk(cfg, que, slot, v) && i < |que|
    requires forall b :: 0 <= b < cfg.numBanks ==> BankOk(cfg, v.banks[b], v.accesses[b], now)
    requires Eligible(cfg, v, que, i, now)
    requires forall j :: 0 <= j < i ==> !Eligible(cfg, v, que, j, now)
    ensures GoodPick(cfg, v, que, i, cfg.policy.OpenPage? && i > 0 && que[i-1].kind.Activate?, now)
  {
    if que[i].kind.Activate? {
      FoundActivateIsFirst(cfg, v, que, slot, i, now);
      assert i > 0 ==> !que[i-1].kind.Activate?;
    } else if cfg.policy.ClosePage? {
      assert Lone(que, i);
      assert FirstOfBank(que, i);
    } else {
      forall j | 0 <= j < i && que[j].bank == que[i].bank && que[j].row == que[i].row
        ensures que[j].kind.Activate?
      {
        assert GoesTo(cfg, que[j], que[i].bank, que[i].row);
      }
    }
  }

  /** The first packet for an open row, if it is a column command, has lost its ACTIVATE. */
  lemma FirstToIsLone(cfg: Config, v: RankView, que: seq<BusPacket>, slot: nat, bank: nat, row: nat)
    requires QueueOk(cfg, que, slot, v) && slot == cfg.SlotOf(bank)
    ensures var j := FirstTo(cfg, que, bank, row, 0);
      && (j < |que| ==> que[j].bank == bank && que[j].row == row)
      && (j < |que| && !que[j].kind.Activate? ==> Lone(que, j))
      && (j == |que| || que[j].kind.Activate? ==>
            forall i :: 0 <= i < |que| && Lone(que, i) && que[i].bank == bank ==> que[i].row != row)
  {
    var j := FirstTo(cfg, que, bank, row, 0);
    assert j > 0 ==> !GoesTo(cfg, que[j-1], bank, row);
    if j == |que| || que[j].kind.Activate? {
      forall i | 0 <= i < |que| && Lone(que, i) && que[i].bank == bank
        ensures que[i].row != row
      {
        assert GoesTo(cfg, que[i], bank, row) ==> j < i;
      }
    }
  }

  /** No waiting column command relies on the row open in this bank. */
  ghost predicate NobodyRelies(que: seq<BusPacket>, bank: nat) {
    forall i :: 0 <= i < |que| && Lone(que, i) ==> que[i].bank != bank
  }

  // ----- the whole queue -----

  ghost predicate RankOk(cfg: Config, queues: seq<seq<BusPacket>>, v: RankView, now: nat)
    requires |queues| >= cfg.Slots()
  {
    && |v.banks| == |v.accesses| == cfg.numBanks
    && (forall k :: 0 <= k < cfg.Slots() ==> QueueOk(cfg, queues[k], k, v) && |queues[k]| <= cfg.cmdQueueDepth)
    && (forall b :: 0 <= b < cfg.numBanks ==> BankOk(cfg, v.banks[b], v.accesses[b], now))
    && OneMode(v.banks)
  }

  /** Power-down is a state of a whole rank. */
  ghost predicate OneMode(banks: BankRow) {
    forall b, c :: 0 <= b < |banks| && 0 <= c < |banks| ==> banks[b].phase.PowerDown? == banks[c].phase.PowerDown?
  }

  ghost predicate QueuesOk(cfg: Config, q: QueueState, t: Table, now: nat) {
    && Ready(cfg, q, t)
    && forall r :: 0 <= r < cfg.numRanks ==> RankOk(cfg, q.queues[r], ViewOf(q, t, r), now)
  }

  /** What makes a chosen command safe for the bank table and the queues. */
  ghost predicate GoodIssue(cfg: Config, q: QueueState, t: Table, issue: Issue, now: nat)
    requires Ready(cfg, q, t)
  {
    && Names(cfg, q, issue)
    && match issue
       case NoIssue => true
       case SendRefresh(r) =>
         (forall b :: 0 <= b < cfg.numBanks ==> !t[r][b].phase.RowActive? && now >= t[r][b].nextActivate) && !t[r][0].phase.PowerDown?
       case CloseRow(r, b) =>
         && cfg.policy.OpenPage? && t[r][b].phase.RowActive? && now >= t[r][b].nextPrecharge
         && NobodyRelies(q.queues[r][cfg.SlotOf(b)], b)
       case FromQueue(r, k, i, drop) =>
         && Fits(cfg, ViewOf(q, t, r), q.queues[r][k])
         && GoodPick(cfg, ViewOf(q, t, r), q.queues[r][k], i, drop, now)
  }

  lemma UrgentIsGood(cfg: Config, q: QueueState, t: Table, now: nat)
    requires QueuesOk(cfg, q, t, now)
    ensures GoodIssue(cfg, q, t, Urgent(cfg, q, t, now), now)
  {
    if q.refreshWaiting {
      var r := q.refreshRank;
      var v := ViewOf(q, t, r);
      assert RankOk(cfg, q.queues[r], v, now);
      var b := FirstHolding(v.banks, 0, now);
      if b < |v.banks| && v.banks[b].phase.RowActive? {
        var k := cfg.SlotOf(b);
        assert QueueOk(cfg, q.queues[r][k], k, v);
        RowCloserIsGood(cfg, v, q.queues[r][k], k, b, now);
      }
    }
  }

  /** The refresh path's treatment of one open bank. */
  lemma RowCloserIsGood(cfg: Config, v: RankView, que: seq<BusPacket>, slot: nat, bank: nat, now: nat)
    requires QueueOk(cfg, que, slot, v) && slot == cfg.SlotOf(bank) && bank < cfg.numBanks
    ensures var j := FirstTo(cfg, que, bank, v.banks[bank].openRow, 0);
      if j < |que| && !que[j].kind.Activate? then IsIssuable(cfg, v, que[j], now) ==> GoodPick(cfg, v, que, j, false, now)
      else NobodyRelies(que, bank)
  {
    var j := FirstTo(cfg, que, bank, v.banks[bank].openRow, 0);
    FirstToIsLone(cfg, v, que, slot, bank, v.banks[bank].openRow);
    if j < |que| && !que[j].kind.Activate? { assert FirstOfBank(que, j); }
  }

  lemma ClosableIsGood(cfg: Config, q: QueueState, t: Table, c: Cursor, now: nat)
    requires QueuesOk(cfg, q, t, now) && InGrid(cfg, c) && Closable(cfg, q, t, c, now) && cfg.policy.OpenPage?
    ensures GoodIssue(cfg, q, t, CloseRow(c.rank, c.bank), now)
  {
    var k := cfg.SlotOf(c.bank);
    assert RankOk(cfg, q.queues[c.rank], ViewOf(q, t, c.rank), now);
    assert QueueOk(cfg, q.queues[c.rank][k], k, ViewOf(q, t, c.rank));
    FirstToIsLone(cfg, ViewOf(q, t, c.rank), q.queues[c.rank][k], k, c.bank, t[c.rank][c.bank].openRow);
  }

  lemma PickIsGood(cfg: Config, q: QueueState, t: Table, c: Cursor, now: nat)
    requires QueuesOk(cfg, q, t, now) && InGrid(cfg, c)
    ensures GoodIssue(cfg, q, t, Pick(cfg, q, t, c, now), now)
  {
    var k := cfg.SlotOf(c.bank);
    var v := ViewOf(q, t, c.rank);
    var que := q.queues[c.rank][k];
    assert RankOk(cfg, q.queues[c.rank], v, now);
    assert QueueOk(cfg, que, k, v);
    var i := FirstEligible(cfg, v, que, 0, now);
    if i < |que| { SearchPickIsGood(cfg, v, que, k, i, now); }
  }

  /** Whatever pop chooses is safe, in all four combinations of page policy and queue structure. */
  lemma ChoiceIsGood(cfg: Config, q: QueueState, t: Table, now: nat)
    requires QueuesOk(cfg, q, t, now)
    ensures GoodIssue(cfg, q, t, Choose(cfg, q, t, now).0, now)
  {
    UrgentIsGood(cfg, q, t, now);
    if Urgent(cfg, q, t, now).NoIssue? {
      var (c, found) := Search(cfg, q, t, Cursor(q.nextRank, q.nextBank), QueueCount(cfg), now);
      if !found.NoIssue? {
        PickIsGood(cfg, q, t, c, now);
      } else if cfg.policy.OpenPage? {
        var s := Cursor(q.nextRankPRE, q.nextBankPRE);
        var (d, closing) := SearchClose(cfg, q, t, s, CloseStop(cfg, s), now);
        if !closing.NoIssue? { ClosableIsGood(cfg, q, t, d, now); }
      }
    }
  }
}
