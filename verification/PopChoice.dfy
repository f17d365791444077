/** What one call of pop decides, seen from outside: when it refreshes, what it holds back for a refresh, which queue
    it takes from, and when it sends nothing. */
module PopChoice {
  import opened DramTypes
  import opened RoundRobin
  import opened CommandQueueSpec
  import opened QueueInvariant
  import opened QueuePreservation
  import opened ScanComplete

  /** Every row of the rank is closed and may be opened again, and the rank is up. */
  ghost predicate ReadyForRefresh(banks: BankRow, now: nat) {
    && |banks| > 0 && !banks[0].phase.PowerDown?
    && forall b :: 0 <= b < |banks| ==> !banks[b].phase.RowActive? && banks[b].nextActivate <= now
  }

  lemma RefreshIsUrgent(cfg: Config, q: QueueState, t: Table, now: nat)
    requires Ready(cfg, q, t)
    ensures Urgent(cfg, q, t, now).SendRefresh? <==> q.refreshWaiting && ReadyForRefresh(t[q.refreshRank], now)
    ensures Urgent(cfg, q, t, now).SendRefresh? ==> Urgent(cfg, q, t, now).rank == q.refreshRank
  {
    if q.refreshWaiting {
      var b := FirstHolding(t[q.refreshRank], 0, now);
      assert b < cfg.numBanks ==> HoldsBackRefresh(t[q.refreshRank][b], now);
    }
  }

  lemma QueuedKind(cfg: Config, q: QueueState, issue: Issue)
    requires q.Shape(cfg) && Names(cfg, q, issue) && !issue.NoIssue?
    ensures PacketOf(cfg, q, issue).kind.Refresh? <==> issue.SendRefresh?
    ensures PacketOf(cfg, q, issue).rank == issue.rank
  {
    if issue.FromQueue? { assert InRange(cfg, q.queues[issue.rank][issue.slot], issue.rank); }
  }

  lemma CarryLeaves(cfg: Config, q: QueueState, issue: Issue)
    requires q.Shape(cfg) && Names(cfg, q, issue)
    ensures var (q', p) := Carry(cfg, q, issue);
      && p == (if issue.NoIssue? then None else Some(PacketOf(cfg, q, issue)))
      && q'.refreshWaiting == q.refreshWaiting && q'.refreshRank == q.refreshRank
  {
    hide PacketOf, NextRankAndBank, Without;
  }

  /** What pop sends and what it leaves of the refresh flags. */
  lemma PopIssue(cfg: Config, q: QueueState, t: Table, now: nat) returns (q0: QueueState, issue: Issue, q1: QueueState)
    requires Ready(cfg, q, t)
    ensures q0 == q.(faw := TickWindows(q.faw)) && Ready(cfg, q0, t) && (issue, q1) == Choose(cfg, q0, t, now)
    ensures var (q', p) := Pop(cfg, q, t, now);
      && q1.Shape(cfg) && Names(cfg, q1, issue)
      && p == (if issue.NoIssue? then None else Some(PacketOf(cfg, q1, issue)))
      && q'.refreshWaiting == q1.refreshWaiting && q'.refreshRank == q1.refreshRank
  {
    hide Choose, Carry, PacketOf;
    q0 := q.(faw := TickWindows(q.faw));
    issue, q1 := Choose(cfg, q0, t, now).0, Choose(cfg, q0, t, now).1;
    CarryLeaves(cfg, q1, issue);
  }

  /** Pop refreshes a rank exactly when its refresh is waiting and the whole rank is ready for it; only then is
      the refresh no longer waiting afterwards. */
  lemma PopRefreshes(cfg: Config, q: QueueState, t: Table, now: nat)
    requires Ready(cfg, q, t)
    ensures var (q', p) := Pop(cfg, q, t, now);
      && ((p.Some? && p.value.kind.Refresh?) <==> (q.refreshWaiting && ReadyForRefresh(t[q.refreshRank], now)))
      && (p.Some? && p.value.kind.Refresh? ==> p.value.rank == q.refreshRank)
      && (q'.refreshWaiting <==> q.refreshWaiting && !ReadyForRefresh(t[q.refreshRank], now))
      && (q'.refreshWaiting ==> q'.refreshRank == q.refreshRank)
  {
    var q0, issue, q1 := PopIssue(cfg, q, t, now);
    RefreshIsUrgent(cfg, q0, t, now);
    if !issue.NoIssue? { QueuedKind(cfg, q1, issue); }
    hide Pop, ReadyForRefresh, Search, SearchClose, RefreshChoice;
    if !Urgent(cfg, q0, t, now).NoIssue? { hide Normal; }
  }

  /** The packet is a column command for the open row of the first bank that holds the refresh back. */
  ghost predicate ClearsTheWay(banks: BankRow, p: BusPacket, now: nat) {
    && p.kind.IsColumn() && p.bank < |banks| && banks[p.bank].phase.RowActive? && banks[p.bank].openRow == p.row
    && forall b :: 0 <= b < p.bank ==> !banks[b].phase.RowActive? && banks[b].nextActivate <= now
  }

  lemma UrgentClearsTheWay(cfg: Config, q: QueueState, t: Table, now: nat)
    requires QueuesOk(cfg, q, t, now) && Urgent(cfg, q, t, now).FromQueue?
    ensures var issue := Urgent(cfg, q, t, now);
      issue.rank == q.refreshRank && ClearsTheWay(t[q.refreshRank], PacketOf(cfg, q, issue), now)
  {
    var r := q.refreshRank;
    var v := ViewOf(q, t, r);
    assert RankOk(cfg, q.queues[r], v, now);
    var b := FirstHolding(v.banks, 0, now);
    var k := cfg.SlotOf(b);
    assert QueueOk(cfg, q.queues[r][k], k, v);
    assert forall c :: 0 <= c < b ==> !HoldsBackRefresh(v.banks[c], now);
  }

  /** While a refresh is waiting its rank is sent no ACTIVATE, and of the column commands only those for the open
      row of the first bank in the way. */
  lemma PopHoldsBack(cfg: Config, q: QueueState, t: Table, now: nat)
    requires QueuesOk(cfg, q, t, now)
    ensures var p := Pop(cfg, q, t, now).1;
      p.Some? && Blocked(q, p.value.rank) ==>
        p.value.kind.Refresh? || p.value.kind.Precharge? || ClearsTheWay(t[p.value.rank], p.value, now)
  {
    var q0, issue, q1 := PopIssue(cfg, q, t, now);
    SameQueuesOk(cfg, q, q0, t, now);
    if Urgent(cfg, q0, t, now).FromQueue? { UrgentClearsTheWay(cfg, q0, t, now); }
    if !issue.NoIssue? { QueuedKind(cfg, q1, issue); }
    hide Pop, ClearsTheWay, Search, SearchClose, RefreshChoice, QueuesOk;
    if !Urgent(cfg, q0, t, now).NoIssue? { hide Normal; }
  }

  // ----- the search -----

  /** How many queues the search passes over on its way from c to d. */
  ghost function Passed(cfg: Config, c: Cursor, d: Cursor): nat
    requires InGrid(cfg, c) && InGrid(cfg, d)
  {
    SerialInRange(cfg, c);
    SerialInRange(cfg, d);
    Gap(QueueCount(cfg), QueueSerial(cfg, c), QueueSerial(cfg, d))
  }

  lemma PassedNext(cfg: Config, c: Cursor, d: Cursor, turns: nat)
    requires InGrid(cfg, c) && InGrid(cfg, d) && InGrid(cfg, NextQueue(cfg, c)) && Passed(cfg, NextQueue(cfg, c), d) < turns - 1 && turns <= QueueCount(cfg)
    ensures Passed(cfg, c, d) == Passed(cfg, NextQueue(cfg, c), d) + 1
  {
    SerialInRange(cfg, c);
    SerialInRange(cfg, d);
    NextIsSuccessor(cfg, c);
    GapStep(QueueCount(cfg), QueueSerial(cfg, c), QueueSerial(cfg, d));
  }

  /** A queue that the search passes over on its way from c to d. */
  ghost predicate Earlier(cfg: Config, c: Cursor, e: Cursor, d: Cursor)
    requires InGrid(cfg, c) && InGrid(cfg, d) && InGrid(cfg, e)
  {
    Passed(cfg, c, e) < Passed(cfg, c, d)
  }

  lemma EarlierNext(cfg: Config, c: Cursor, e: Cursor, d: Cursor, turns: nat)
    requires InGrid(cfg, c) && InGrid(cfg, d) && InGrid(cfg, e) && InGrid(cfg, NextQueue(cfg, c))
    requires Passed(cfg, NextQueue(cfg, c), d) < turns - 1 && turns <= QueueCount(cfg) && Earlier(cfg, c, e, d)
    ensures QueueSerial(cfg, c) == QueueSerial(cfg, e) || Earlier(cfg, NextQueue(cfg, c), e, d)
  {
    PassedNext(cfg, c, d, turns);
    SerialInRange(cfg, c);
    SerialInRange(cfg, e);
    NextIsSuccessor(cfg, c);
    GapStep(QueueCount(cfg), QueueSerial(cfg, c), QueueSerial(cfg, e));
  }

  lemma {:induction false} SearchFindsFirst(cfg: Config, q: QueueState, t: Table, c: Cursor, turns: nat, now: nat)
    requires Ready(cfg, q, t) && InGrid(cfg, c) && turns <= QueueCount(cfg) && !Search(cfg, q, t, c, turns, now).1.NoIssue?
    ensures var d := Search(cfg, q, t, c, turns, now).0;
      && Passed(cfg, c, d) < turns
      && forall e :: InGrid(cfg, e) && Earlier(cfg, c, e, d) ==> Pick(cfg, q, t, e, now).NoIssue?
    decreases turns
  {
    hide Pick, Ready, QueueSerial, NextQueue, InGrid, Passed, Earlier;
    if Pick(cfg, q, t, c, now).NoIssue? {
      NextIsSuccessor(cfg, c);
      SearchFindsFirst(cfg, q, t, NextQueue(cfg, c), turns - 1, now);
      var d := Search(cfg, q, t, c, turns, now).0;
      PassedNext(cfg, c, d, turns);
      forall e | InGrid(cfg, e) && Earlier(cfg, c, e, d) ensures Pick(cfg, q, t, e, now).NoIssue? {
        EarlierNext(cfg, c, e, d, turns);
        if QueueSerial(cfg, c) == QueueSerial(cfg, e) { SameQueue(cfg, q, t, c, e, now); }
      }
    } else {
      NothingEarlier(cfg, c);
    }
  }

  lemma NothingEarlier(cfg: Config, c: Cursor)
    requires InGrid(cfg, c) && QueueCount(cfg) > 0
    ensures Passed(cfg, c, c) == 0 && forall e :: InGrid(cfg, e) ==> !Earlier(cfg, c, e, c)
  {}

  // ----- pop -----

  /** The queue state that pop decides on. */
  function AtStart(q: QueueState): QueueState { q.(faw := TickWindows(q.faw)) }

  /** Packet i of a queue is issuable and not held back: under open page by an earlier column command for its row, under
      close page by its own ACTIVATE just before it or, with one queue per bank, by not being at the front. */
  ghost predicate MayGo(cfg: Config, v: RankView, que: seq<BusPacket>, i: nat, now: nat)
    requires Fits(cfg, v, que) && i < |que|
  {
    && IsIssuable(cfg, v, que[i], now)
    && if cfg.policy.OpenPage? then
         forall j :: 0 <= j < i && que[j].row == que[i].row && (cfg.structure.PerRankPerBank? || que[j].bank == que[i].bank) ==>
           que[j].kind.Activate?
       else if cfg.structure.PerRank? then i == 0 || !que[i-1].kind.Activate? || que[i-1].address != que[i].address
       else i == 0
  }

  lemma EligibleMayGo(cfg: Config, v: RankView, que: seq<BusPacket>, i: nat, now: nat)
    requires Fits(cfg, v, que) && i < |que|
    ensures Eligible(cfg, v, que, i, now) <==> MayGo(cfg, v, que, i, now)
  {
    hide IsIssuable;
    if cfg.policy.OpenPage? && !Depends(cfg, que, i) {
      forall j | 0 <= j < i && que[j].row == que[i].row && (cfg.structure.PerRankPerBank? || que[j].bank == que[i].bank)
        ensures que[j].kind.Activate?
      {
        assert GoesTo(cfg, que[j], que[i].bank, que[i].row);
      }
    }
  }

  /** A queue, not of the rank waiting for its refresh, holds a packet that may go. */
  ghost predicate Offers(cfg: Config, q: QueueState, t: Table, d: Cursor, i: nat, now: nat)
    requires Ready(cfg, q, t)
  {
    && InGrid(cfg, d) && !Blocked(q, d.rank) && i < |QueueAt(cfg, q, d)|
    && MayGo(cfg, ViewOf(q, t, d.rank), QueueAt(cfg, q, d), i, now)
  }

  lemma PickIsOffer(cfg: Config, q: QueueState, t: Table, d: Cursor, now: nat)
    requires Ready(cfg, q, t) && InGrid(cfg, d)
    ensures Pick(cfg, q, t, d, now).NoIssue? <==> forall i: nat :: !Offers(cfg, q, t, d, i, now)
    ensures var pick := Pick(cfg, q, t, d, now);
      pick.FromQueue? ==>
        && pick.rank == d.rank && pick.slot == cfg.SlotOf(d.bank)
        && Offers(cfg, q, t, d, pick.index, now) && forall j: nat :: j < pick.index ==> !Offers(cfg, q, t, d, j, now)
  {
    hide Eligible, MayGo;
    forall i | 0 <= i < |QueueAt(cfg, q, d)|
      ensures Eligible(cfg, ViewOf(q, t, d.rank), QueueAt(cfg, q, d), i, now) <==> MayGo(cfg, ViewOf(q, t, d.rank), QueueAt(cfg, q, d), i, now)
    {
      EligibleMayGo(cfg, ViewOf(q, t, d.rank), QueueAt(cfg, q, d), i, now);
    }
    var i := FirstEligible(cfg, ViewOf(q, t, d.rank), QueueAt(cfg, q, d), 0, now);
    if !Blocked(q, d.rank) && i < |QueueAt(cfg, q, d)| { assert Offers(cfg, q, t, d, i, now); }
  }

  /** Where the cursor goes once a command has been sent. */
  lemma CursorMoves(cfg: Config, q: QueueState, issue: Issue)
    requires q.Shape(cfg) && Names(cfg, q, issue) && !issue.NoIssue?
    ensures var q' := Carry(cfg, q, issue).0;
      var c := Cursor(q.nextRank, q.nextBank);
      var stays := cfg.al > 0 && q.sendAct;
      Cursor(q'.nextRank, q'.nextBank) == (if stays then c else NextRankAndBank(cfg, c)) && q'.sendAct == !stays
  {
    hide PacketOf, NextRankAndBank, Without;
  }

  /** With nothing urgent to send and something on offer, pop takes the first eligible packet of the first queue
      that has one, in the order of the scan from the cursor; the cursor moves there, and on to the next pair
      (with posted CAS every other time only). */
  lemma PopTakesNext(cfg: Config, q: QueueState, t: Table, now: nat, e: Cursor, j: nat) returns (d: Cursor, i: nat)
    requires Ready(cfg, q, t) && Ready(cfg, AtStart(q), t) && Urgent(cfg, AtStart(q), t, now).NoIssue? && Offers(cfg, AtStart(q), t, e, j, now)
    ensures Offers(cfg, AtStart(q), t, d, i, now) && forall k: nat :: k < i ==> !Offers(cfg, AtStart(q), t, d, k, now)
    ensures forall f, k: nat :: InGrid(cfg, f) && Earlier(cfg, Cursor(q.nextRank, q.nextBank), f, d) ==> !Offers(cfg, AtStart(q), t, f, k, now)
    ensures var (q', p) := Pop(cfg, q, t, now);
      var stays := cfg.al > 0 && q.sendAct;
      && p == Some(QueueAt(cfg, q, d)[i])
      && Cursor(q'.nextRank, q'.nextBank) == (if stays then d else NextRankAndBank(cfg, d)) && q'.sendAct == !stays
  {
    var q0 := AtStart(q);
    var c := Cursor(q.nextRank, q.nextBank);
    var found := Search(cfg, q0, t, c, QueueCount(cfg), now);
    SearchOffers(cfg, q0, t, c, now, e, j);
    SearchFindsFirst(cfg, q0, t, c, QueueCount(cfg), now);
    d := found.0;
    PickIsOffer(cfg, q0, t, d, now);
    i := found.1.index;
    forall f, k: nat | InGrid(cfg, f) && Earlier(cfg, c, f, d) ensures !Offers(cfg, q0, t, f, k, now) {
      PickIsOffer(cfg, q0, t, f, now);
    }
    CursorMoves(cfg, Choose(cfg, q0, t, now).1, found.1);
    hide Search, Offers, Urgent, Earlier, Pick, Carry, Eligible;
    PopCarries(cfg, q, t, now);
  }

  lemma PopCarries(cfg: Config, q: QueueState, t: Table, now: nat)
    requires Ready(cfg, q, t) && Ready(cfg, AtStart(q), t)
    ensures var (issue, q1) := Choose(cfg, AtStart(q), t, now);
      && Pop(cfg, q, t, now) == Carry(cfg, q1, issue)
      && (Pop(cfg, q, t, now).1 == if issue.NoIssue? then None else Some(PacketOf(cfg, q1, issue)))
  {
    hide Choose, Take, Advance;
  }

  lemma SearchOffers(cfg: Config, q: QueueState, t: Table, c: Cursor, now: nat, e: Cursor, j: nat)
    requires Ready(cfg, q, t) && InGrid(cfg, c) && Offers(cfg, q, t, e, j, now)
    ensures !Search(cfg, q, t, c, QueueCount(cfg), now).1.NoIssue?
  {
    hide Search, Eligible, MayGo;
    EligibleMayGo(cfg, ViewOf(q, t, e.rank), QueueAt(cfg, q, e), j, now);
    SearchIsComplete(cfg, q, t, c, now);
  }

  /** Some queue offers a packet. */
  ghost predicate AnyOffer(cfg: Config, q: QueueState, t: Table, now: nat)
    requires Ready(cfg, q, t)
  {
    exists d, i: nat :: Offers(cfg, q, t, d, i, now)
  }

  /** The bank's row is open and past its earliest PRECHARGE, and it is unwanted, no packet in its queue being for it,
      or used to the limit. */
  ghost predicate RowDone(cfg: Config, q: QueueState, t: Table, d: Cursor, now: nat)
    requires Ready(cfg, q, t) && InGrid(cfg, d)
  {
    var b, que := t[d.rank][d.bank], q.queues[d.rank][cfg.SlotOf(d.bank)];
    && b.phase.RowActive? && b.nextPrecharge <= now
    && (q.rowAccess[d.rank][d.bank] == cfg.totalRowAccesses
        || forall i :: 0 <= i < |que| && que[i].row == b.openRow ==> cfg.structure.PerRank? && que[i].bank != d.bank)
  }

  /** The scan for rows, from its cursor on, looks at a bank whose row is done with. */
  ghost predicate AnyClosable(cfg: Config, q: QueueState, t: Table, now: nat)
    requires Ready(cfg, q, t)
  {
    var start := Cursor(q.nextRankPRE, q.nextBankPRE);
    exists d :: InGrid(cfg, d) && Near(cfg, start, d, MovesLeft(cfg, start, CloseStop(cfg, start))) && RowDone(cfg, q, t, d, now)
  }

  lemma ClosableIsDone(cfg: Config, q: QueueState, t: Table, d: Cursor, now: nat)
    requires Ready(cfg, q, t) && InGrid(cfg, d)
    ensures Closable(cfg, q, t, d, now) <==> RowDone(cfg, q, t, d, now)
  {
    var b, que := t[d.rank][d.bank], QueueAt(cfg, q, d);
    var j := FirstTo(cfg, que, d.bank, b.openRow, 0);
    assert j < |que| ==> GoesTo(cfg, que[j], d.bank, b.openRow);
    if j == |que| {
      forall i | 0 <= i < |que| && que[i].row == b.openRow ensures cfg.structure.PerRank? && que[i].bank != d.bank {
        assert !GoesTo(cfg, que[i], d.bank, b.openRow);
      }
    }
  }

  lemma SearchIdles(cfg: Config, q: QueueState, t: Table, c: Cursor, now: nat)
    requires Ready(cfg, q, t) && InGrid(cfg, c)
    ensures Search(cfg, q, t, c, QueueCount(cfg), now).1.NoIssue? <==> !AnyOffer(cfg, q, t, now)
  {
    hide Search, Offers, Pick;
    var (d, found) := Search(cfg, q, t, c, QueueCount(cfg), now);
    if e, j: nat :| Offers(cfg, q, t, e, j, now) {
      SearchOffers(cfg, q, t, c, now, e, j);
    } else if !found.NoIssue? {
      PickIsOffer(cfg, q, t, d, now);
    }
  }

  lemma ScanIdles(cfg: Config, q: QueueState, t: Table, now: nat)
    requires Ready(cfg, q, t)
    ensures var start := Cursor(q.nextRankPRE, q.nextBankPRE);
      SearchClose(cfg, q, t, start, CloseStop(cfg, start), now).1.NoIssue? <==> !AnyClosable(cfg, q, t, now)
  {
    var start := Cursor(q.nextRankPRE, q.nextBankPRE);
    CloseScanSees(cfg, q, t, start, CloseStop(cfg, start), now);
    forall d | InGrid(cfg, d) ensures Closable(cfg, q, t, d, now) <==> RowDone(cfg, q, t, d, now) { ClosableIsDone(cfg, q, t, d, now); }
    hide SearchClose, Near, Closable, MovesLeft, CloseStop, RowDone;
  }

  /** Pop sends nothing exactly when nothing is urgent, no queue offers anything and, under open page, no row that the
      scan for rows looks at is done with. */
  lemma PopIdles(cfg: Config, q: QueueState, t: Table, now: nat)
    requires Ready(cfg, q, t) && Ready(cfg, AtStart(q), t)
    ensures Pop(cfg, q, t, now).1.None? <==>
      && Urgent(cfg, AtStart(q), t, now).NoIssue? && !AnyOffer(cfg, AtStart(q), t, now)
      && (cfg.policy.OpenPage? ==> !AnyClosable(cfg, AtStart(q), t, now))
  {
    var q0 := AtStart(q);
    SearchIdles(cfg, q0, t, Cursor(q.nextRank, q.nextBank), now);
    ScanIdles(cfg, q0, t, now);
    PopCarries(cfg, q, t, now);
    hide Pop, Search, SearchClose, Urgent, AnyOffer, AnyClosable, CloseStop, Carry;
  }
}
