/** The command queue as the program has it: an object whose pop searches its queues and cursors in place. */
module CommandQueues {
  import opened Arithmetic
  import opened DramTypes
  import opened RoundRobin
  import opened CommandQueueSpec
  import opened SystemSpec

  /** The bank records the memory controller owns and its command queue looks at. */
  class BankTable {
    var states: Table

    constructor (states: Table)
      ensures this.states == states
    {
      this.states := states;
    }
  }

  /** Moving on along a circle, seen from where the walk began. */
  lemma GapAhead(n: nat, from: nat, at: nat)
    requires from < n && at < n
    ensures Gap(n, from, Successor(n, at)) == if Gap(n, from, at) + 1 == n then 0 else Gap(n, from, at) + 1
    ensures Gap(n, from, at) == 0 <==> from == at
  {}

  class CommandQueue {
    const cfg: Config
    const bankStates: BankTable
    var currentClockCycle: nat
    var queues: seq<seq<seq<BusPacket>>>
    var nextRank: nat
    var nextBank: nat
    var nextRankPRE: nat
    var nextBankPRE: nat
    var refreshRank: nat
    var refreshWaiting: bool
    var tFAWCountdown: seq<seq<nat>>
    var rowAccessCounters: seq<seq<nat>>
    var sendAct: bool

    ghost function View(): QueueState
      reads this
    {
      QueueState(queues, nextRank, nextBank, nextRankPRE, nextBankPRE, refreshRank, refreshWaiting,
                 tFAWCountdown, rowAccessCounters, sendAct)
    }

    ghost predicate Valid()
      reads this
    {
      cfg.Valid() && View().Shape(cfg)
    }

    /** The program never clears the row of queues it copies for each rank, so later ranks get more. */
    constructor (cfg: Config, bankStates: BankTable)
      requires cfg.Valid()
      ensures Valid() && this.cfg == cfg && this.bankStates == bankStates
      ensures View() == QueueState(queues, 0, 0, 0, 0, 0, false, seq(cfg.numRanks, _ => []),
                                   seq(cfg.numRanks, _ => seq(cfg.numBanks, _ => 0)), true)
      ensures forall r, k :: 0 <= r < |queues| && 0 <= k < |queues[r]| ==> queues[r][k] == []
      ensures forall r :: 0 <= r < |queues| ==> |queues[r]| == (r + 1) * cfg.Slots()
      ensures currentClockCycle == 0
    {
      this.cfg := cfg;
      this.bankStates := bankStates;
      currentClockCycle := 0;
      nextRank, nextBank, nextRankPRE, nextBankPRE, refreshRank := 0, 0, 0, 0, 0;
      refreshWaiting := false;
      sendAct := true;
      rowAccessCounters := seq(cfg.numRanks, _ => seq(cfg.numBanks, _ => 0));
      tFAWCountdown := seq(cfg.numRanks, _ => []);
      queues := [];
      new;
      var perBankQueue: seq<seq<BusPacket>> := [];
      var rank := 0;
      while rank < cfg.numRanks
        invariant rank == |queues| <= cfg.numRanks
        invariant |perBankQueue| == rank * cfg.Slots()
        invariant forall k :: 0 <= k < |perBankQueue| ==> perBankQueue[k] == []
        invariant forall r, k :: 0 <= r < |queues| && 0 <= k < |queues[r]| ==> queues[r][k] == []
        invariant forall r :: 0 <= r < |queues| ==> |queues[r]| == (r + 1) * cfg.Slots()
        invariant View() == QueueState(queues, 0, 0, 0, 0, 0, false, seq(cfg.numRanks, _ => []),
                                       seq(cfg.numRanks, _ => seq(cfg.numBanks, _ => 0)), true)
        invariant currentClockCycle == 0
      {
        perBankQueue := perBankQueue + seq(cfg.Slots(), _ => []);
        assert (rank + 1) * cfg.Slots() == rank * cfg.Slots() + cfg.Slots();
        queues := queues + [perBankQueue];
        rank := rank + 1;
      }
      forall r | 0 <= r < |queues| ensures |queues[r]| >= cfg.Slots() {
        MulMonotone(1, r + 1, cfg.Slots());
      }
    }

    // ----- the small operations -----

    method Enqueue(p: BusPacket) returns (overflow: bool)
      requires Valid() && p.rank < cfg.numRanks && p.bank < cfg.numBanks && (p.kind.Activate? || p.kind.IsColumn())
      modifies this`queues
      ensures Valid() && View() == SystemSpec.Enqueue(cfg, old(View()), p)
      ensures overflow <==> |queues[p.rank][cfg.SlotOf(p.bank)]| > cfg.cmdQueueDepth
    {
      var slot := cfg.SlotOf(p.bank);
      queues := queues[p.rank := queues[p.rank][slot := queues[p.rank][slot] + [p]]];
      overflow := |queues[p.rank][slot]| > cfg.cmdQueueDepth;
    }

    /** The subtraction is unsigned, so a queue past its depth has room for anything. */
    method HasRoomFor(numberToEnqueue: nat, rank: nat, bank: nat) returns (ok: bool)
      requires Valid() && rank < cfg.numRanks && bank < cfg.numBanks
      ensures ok == SystemSpec.HasRoomFor(cfg, View(), numberToEnqueue, rank, bank)
    {
      var size := |queues[rank][cfg.SlotOf(bank)]|;
      ok := size > cfg.cmdQueueDepth || cfg.cmdQueueDepth - size >= numberToEnqueue;
    }

    method IsEmpty(rank: nat) returns (empty: bool)
      requires Valid() && rank < cfg.numRanks
      ensures empty == SystemSpec.IsEmpty(cfg, View(), rank)
    {
      var i := 0;
      while i < cfg.Slots()
        invariant i <= cfg.Slots()
        invariant forall k :: 0 <= k < i ==> queues[rank][k] == []
      {
        if queues[rank][i] != [] { return false; }
        i := i + 1;
      }
      return true;
    }

    method NeedRefresh(rank: nat)
      requires Valid() && rank < cfg.numRanks
      modifies this`refreshWaiting, this`refreshRank
      ensures Valid() && View() == old(View()).(refreshWaiting := true, refreshRank := rank)
    {
      refreshWaiting := true;
      refreshRank := rank;
    }

    method NextRankAndBank(rank: nat, bank: nat) returns (rank': nat, bank': nat)
      requires rank < cfg.numRanks && bank < cfg.numBanks
      ensures Cursor(rank', bank') == RoundRobin.NextRankAndBank(cfg, Cursor(rank, bank))
      ensures rank' < cfg.numRanks && bank' < cfg.numBanks
    {
      rank', bank' := rank, bank;
      if cfg.scheduling.RankThenBank? {
        rank' := rank' + 1;
        if rank' == cfg.numRanks {
          rank' := 0;
          bank' := bank' + 1;
          if bank' == cfg.numBanks { bank' := 0; }
        }
      } else {
        bank' := bank' + 1;
        if bank' == cfg.numBanks {
          bank' := 0;
          rank' := rank' + 1;
          if rank' == cfg.numRanks { rank' := 0; }
        }
      }
    }

    method IsIssuable(p: BusPacket) returns (ok: bool)
      requires Valid() && TableShape(cfg, bankStates.states) && p.rank < cfg.numRanks && p.bank < cfg.numBanks
      ensures ok == CommandQueueSpec.IsIssuable(cfg, ViewOf(View(), bankStates.states, p.rank), p, currentClockCycle)
    {
      var b := bankStates.states[p.rank][p.bank];
      match p.kind {
        case Activate =>
          ok := (b.phase.Idle? || b.phase.Refreshing?) && currentClockCycle >= b.nextActivate && |tFAWCountdown[p.rank]| < 4;
        case Write | WriteP =>
          ok := b.phase.RowActive? && currentClockCycle >= b.nextWrite && p.row == b.openRow
                && rowAccessCounters[p.rank][p.bank] < cfg.totalRowAccesses;
        case Read | ReadP =>
          ok := b.phase.RowActive? && currentClockCycle >= b.nextRead && p.row == b.openRow
                && rowAccessCounters[p.rank][p.bank] < cfg.totalRowAccesses;
        case Precharge =>
          ok := b.phase.RowActive? && currentClockCycle >= b.nextPrecharge;
        case _ =>
          ok := false;
      }
    }

    // ----- pop -----

    /** Every counter of every window drops by one; a head at zero leaves. */
    method TickActivateWindows()
      modifies this`tFAWCountdown
      ensures tFAWCountdown == TickWindows(old(tFAWCountdown)) && |tFAWCountdown| == |old(tFAWCountdown)|
    {
      ghost var before := tFAWCountdown;
      var i := 0;
      while i < |tFAWCountdown|
        invariant i <= |tFAWCountdown| == |before|
        invariant forall r :: 0 <= r < i ==> tFAWCountdown[r] == TickWindow(before[r])
        invariant forall r :: i <= r < |before| ==> tFAWCountdown[r] == before[r]
      {
        var j := 0;
        while j < |tFAWCountdown[i]|
          invariant i < |tFAWCountdown| == |before| && j <= |tFAWCountdown[i]| == |before[i]|
          invariant forall r :: 0 <= r < i ==> tFAWCountdown[r] == TickWindow(before[r])
          invariant forall r :: i < r < |before| ==> tFAWCountdown[r] == before[r]
          invariant forall k :: 0 <= k < j ==> tFAWCountdown[i][k] == Decrement(before[i][k])
          invariant forall k :: j <= k < |before[i]| ==> tFAWCountdown[i][k] == before[i][k]
        {
          var window: seq<nat> := tFAWCountdown[i][j := Decrement(tFAWCountdown[i][j])];
          tFAWCountdown := tFAWCountdown[i := window];
          j := j + 1;
        }
        assert tFAWCountdown[i] == DecrementAll(before[i]);
        if |tFAWCountdown[i]| > 0 && tFAWCountdown[i][0] == 0 {
          tFAWCountdown := tFAWCountdown[i := tFAWCountdown[i][1..]];
        }
        i := i + 1;
      }
      assert tFAWCountdown == TickWindows(before);
    }

    /** Is an earlier column command to the same row still waiting? */
    method HasDependency(que: seq<BusPacket>, i: nat) returns (found: bool)
      requires i < |que|
      ensures found == Depends(cfg, que, i)
    {
      var j := 0;
      while j < i
        invariant j <= i
        invariant forall k :: 0 <= k < j ==> que[k].kind.Activate? || !GoesTo(cfg, que[k], que[i].bank, que[i].row)
      {
        if !que[j].kind.Activate? && GoesTo(cfg, que[j], que[i].bank, que[i].row) { return true; }
        j := j + 1;
      }
      return false;
    }

    /** The first packet of a queue that may go, under the current policies. */
    method FindIssuable(rank: nat, slot: nat) returns (i: nat)
      requires Valid() && TableShape(cfg, bankStates.states) && rank < cfg.numRanks && slot < cfg.Slots()
      ensures Fits(cfg, ViewOf(View(), bankStates.states, rank), queues[rank][slot])
      ensures i == FirstEligible(cfg, ViewOf(View(), bankStates.states, rank), queues[rank][slot], 0, currentClockCycle)
    {
      var que := queues[rank][slot];
      ghost var v := ViewOf(View(), bankStates.states, rank);
      assert InRange(cfg, que, rank);
      if cfg.policy.ClosePage? && cfg.structure.PerRankPerBank? {
        i := |que|;
        if que != [] {
          var front := IsIssuable(que[0]);
          if front { return 0; }
        }
        OnlyFront(v, que);
        return;
      }
      i := 0;
      while i < |que|
        invariant i <= |que|
        invariant FirstEligible(cfg, v, que, 0, currentClockCycle) == FirstEligible(cfg, v, que, i, currentClockCycle)
      {
        var issuable := IsIssuable(que[i]);
        if issuable {
          var waits: bool;
          if cfg.policy.OpenPage? {
            waits := HasDependency(que, i);
          } else {
            waits := i > 0 && que[i-1].kind.Activate? && que[i-1].address == que[i].address;
          }
          if !waits { return; }
        }
        i := i + 1;
      }
    }

    /** With one queue per bank and close page only the front can go. */
    lemma OnlyFront(v: RankView, que: seq<BusPacket>)
      requires Fits(cfg, v, que) && cfg.policy.ClosePage? && cfg.structure.PerRankPerBank?
      requires que != [] ==> !Eligible(cfg, v, que, 0, currentClockCycle)
      ensures FirstEligible(cfg, v, que, 0, currentClockCycle) == |que|
    {}

    /** Hand out a packet; the ACTIVATE it made unnecessary goes too and its row counts one more access. */
    method Erase(rank: nat, slot: nat, i: nat, withActivate: bool) returns (busPacket: BusPacket)
      requires Valid() && Names(cfg, View(), FromQueue(rank, slot, i, withActivate))
      modifies this`queues, this`rowAccessCounters
      ensures Valid() && View() == Take(cfg, old(View()), FromQueue(rank, slot, i, withActivate))
      ensures busPacket == PacketOf(cfg, old(View()), FromQueue(rank, slot, i, withActivate))
    {
      ghost var before := View();
      assert InRange(cfg, queues[rank][slot], rank);
      var que := queues[rank][slot];
      busPacket := que[i];
      if withActivate {
        var bank := if cfg.structure.PerRank? then busPacket.bank else slot;
        var counters: seq<nat> := rowAccessCounters[rank][bank := rowAccessCounters[rank][bank] + 1];
        rowAccessCounters := rowAccessCounters[rank := counters];
        queues := queues[rank := queues[rank][slot := que[..i-1] + que[i+1..]]];
      } else {
        queues := queues[rank := queues[rank][slot := que[..i] + que[i+1..]]];
      }
      assert View() == Take(cfg, before, FromQueue(rank, slot, i, withActivate));
    }

    method CloseBank(rank: nat, bank: nat) returns (busPacket: BusPacket)
      requires Valid() && rank < cfg.numRanks && bank < cfg.numBanks
      modifies this`rowAccessCounters
      ensures Valid() && View() == Take(cfg, old(View()), CloseRow(rank, bank))
      ensures busPacket == PacketOf(cfg, old(View()), CloseRow(rank, bank))
    {
      var counters: seq<nat> := rowAccessCounters[rank][bank := 0];
      rowAccessCounters := rowAccessCounters[rank := counters];
      busPacket := BusPacket(Precharge, 0, 0, 0, rank, bank, 0);
    }

    /** The first packet in a queue for a bank's open row. */
    method FindForRow(que: seq<BusPacket>, bank: nat, row: nat) returns (j: nat)
      ensures j == FirstTo(cfg, que, bank, row, 0)
    {
      j := 0;
      while j < |que|
        invariant j <= |que|
        invariant FirstTo(cfg, que, bank, row, 0) == FirstTo(cfg, que, bank, row, j)
      {
        if GoesTo(cfg, que[j], bank, row) { return; }
        j := j + 1;
      }
    }

    /** The packet of a carried-out choice, if there was one. */
    ghost function Result(q: QueueState, issue: Issue): Option<BusPacket>
      requires q.Shape(cfg) && Names(cfg, q, issue)
    {
      if issue.NoIssue? then None else Some(PacketOf(cfg, q, issue))
    }

    /** The queue after the urgent command of the refresh path, before the cursors move. */
    ghost function Served(q: QueueState, issue: Issue): QueueState {
      if issue.SendRefresh? then q.(refreshRank := UINT_MAX, refreshWaiting := false) else q
    }

    /** The first bank in the way of a refresh is open: send a command that still needs its row, or, under
        open page, close it. */
    method HelpClose(b: nat) returns (busPacket: Option<BusPacket>)
      requires Valid() && TableShape(cfg, bankStates.states) && refreshWaiting && b < cfg.numBanks
      requires b == FirstHolding(bankStates.states[refreshRank], 0, currentClockCycle)
      requires bankStates.states[refreshRank][b].phase.RowActive?
      modifies this`queues, this`rowAccessCounters
      ensures Valid()
      ensures var issue := Urgent(cfg, old(View()), bankStates.states, currentClockCycle);
        && !issue.SendRefresh? && View() == Take(cfg, old(View()), issue)
        && busPacket == Result(old(View()), issue)
    {
      var slot := cfg.SlotOf(b);
      var que := queues[refreshRank][slot];
      var bank := bankStates.states[refreshRank][b];
      assert InRange(cfg, que, refreshRank);
      var j := FindForRow(que, b, bank.openRow);
      if j < |que| && !que[j].kind.Activate? {
        var issuable := IsIssuable(que[j]);
        if issuable {
          var p := Erase(refreshRank, slot, j, false);
          return Some(p);
        }
      } else if cfg.policy.OpenPage? && currentClockCycle >= bank.nextPrecharge {
        var p := CloseBank(refreshRank, b);
        return Some(p);
      }
      return None;
    }

    /** While a rank waits for its refresh: refresh it, or help the first bank in the way to close. */
    method ServeRefresh() returns (busPacket: Option<BusPacket>)
      requires Valid() && TableShape(cfg, bankStates.states)
      modifies this`queues, this`rowAccessCounters, this`refreshRank, this`refreshWaiting
      ensures Valid()
      ensures var issue := Urgent(cfg, old(View()), bankStates.states, currentClockCycle);
        var q := Served(old(View()), issue);
        && View() == Take(cfg, q, issue)
        && busPacket == Result(q, issue)
    {
      if !refreshWaiting { return None; }
      var banks := bankStates.states[refreshRank];
      var i := 0;
      while i < cfg.numBanks
        invariant i <= cfg.numBanks && View() == old(View())
        invariant FirstHolding(banks, 0, currentClockCycle) == FirstHolding(banks, i, currentClockCycle)
      {
        if banks[i].phase.RowActive? {
          busPacket := HelpClose(i);
          return;
        } else if banks[i].nextActivate > currentClockCycle {
          return None;
        }
        i := i + 1;
      }
      if banks[0].phase.PowerDown? { return None; }
      busPacket := Some(BusPacket(Refresh, 0, 0, 0, refreshRank, 0, 0));
      refreshRank := UINT_MAX;
      refreshWaiting := false;
    }

    lemma TakeNothing()
      ensures forall q: QueueState {:trigger Take(cfg, q, NoIssue)} :: q.Shape(cfg) ==> Take(cfg, q, NoIssue) == q
    {}

    /** Send from the queue under the cursor, unless its rank waits for a refresh. */
    method TryQueue() returns (busPacket: Option<BusPacket>)
      requires Valid() && TableShape(cfg, bankStates.states)
      modifies this`queues, this`rowAccessCounters
      ensures Valid()
      ensures var issue := Pick(cfg, old(View()), bankStates.states, Cursor(nextRank, nextBank), currentClockCycle);
        View() == Take(cfg, old(View()), issue) && busPacket == Result(old(View()), issue)
    {
      TakeNothing();
      hide Take, PacketOf, FirstEligible;
      if refreshWaiting && nextRank == refreshRank { return None; }
      var slot := cfg.SlotOf(nextBank);
      var i := FindIssuable(nextRank, slot);
      if i == |queues[nextRank][slot]| { return None; }
      var withActivate := cfg.policy.OpenPage? && i > 0 && queues[nextRank][slot][i-1].kind.Activate?;
      var p := Erase(nextRank, slot, i, withActivate);
      return Some(p);
    }

    method MoveToNextQueue()
      requires Valid()
      modifies this`nextRank, this`nextBank
      ensures Valid() && Cursor(nextRank, nextBank) == NextQueue(cfg, old(Cursor(nextRank, nextBank)))
    {
      if cfg.structure.PerRank? {
        nextRank := nextRank + 1;
        if nextRank == cfg.numRanks { nextRank := 0; }
      } else {
        nextRank, nextBank := NextRankAndBank(nextRank, nextBank);
      }
    }

    lemma PickIgnoresCursor(q: QueueState, t: Table, c: Cursor, at: Cursor)
      requires Ready(cfg, q, t) && InGrid(cfg, c) && InGrid(cfg, at)
      ensures Ready(cfg, q.(nextRank := at.rank, nextBank := at.bank), t)
      ensures Pick(cfg, q.(nextRank := at.rank, nextBank := at.bank), t, c, currentClockCycle) == Pick(cfg, q, t, c, currentClockCycle)
    {}

    /** How far the walk round the queues has come. */
    ghost predicate Walked(start: Cursor, c: Cursor, moved: nat) {
      && InGrid(cfg, start) && InGrid(cfg, c) && moved < QueueCount(cfg)
      && QueueSerial(cfg, start) < QueueCount(cfg) && QueueSerial(cfg, c) < QueueCount(cfg)
      && Gap(QueueCount(cfg), QueueSerial(cfg, start), QueueSerial(cfg, c)) == moved
      && (cfg.structure.PerRank? ==> c.bank == start.bank)
    }

    lemma WalkOn(start: Cursor, c: Cursor, moved: nat)
      requires Walked(start, c, moved)
      ensures var n := NextQueue(cfg, c);
        && InGrid(cfg, n)
        && (n == start <==> moved + 1 == QueueCount(cfg)) && (n != start ==> Walked(start, n, moved + 1))
    {
      var n := NextQueue(cfg, c);
      NextIsSuccessor(cfg, c);
      GapAhead(QueueCount(cfg), QueueSerial(cfg, start), QueueSerial(cfg, c));
      SerialInRange(cfg, n);
      Returned(start, n);
    }

    /** Go round the queues from the cursor on until one has a packet to send. */
    method SearchQueues() returns (busPacket: Option<BusPacket>)
      requires Valid() && TableShape(cfg, bankStates.states)
      modifies this`queues, this`rowAccessCounters, this`nextRank, this`nextBank
      ensures Valid()
      ensures var q := old(View());
        var (c, issue) := Search(cfg, q, bankStates.states, Cursor(q.nextRank, q.nextBank), QueueCount(cfg), currentClockCycle);
        var q1 := q.(nextRank := c.rank, nextBank := c.bank);
        View() == Take(cfg, q1, issue) && busPacket == Result(q1, issue)
    {
      TakeNothing();
      hide Pick, Take, PacketOf, Walked, NextQueue, QueueCount;
      ghost var q, t := View(), bankStates.states;
      ghost var start := Cursor(nextRank, nextBank);
      ghost var moved := 0;
      var startingRank, startingBank := nextRank, nextBank;
      NotWalked(start);
      while true
        invariant Valid() && View() == q.(nextRank := nextRank, nextBank := nextBank)
        invariant moved < QueueCount(cfg) && Walked(start, Cursor(nextRank, nextBank), moved)
        invariant Search(cfg, q, t, start, QueueCount(cfg), currentClockCycle)
               == Search(cfg, q, t, Cursor(nextRank, nextBank), QueueCount(cfg) - moved, currentClockCycle)
        decreases QueueCount(cfg) - moved
      {
        PickIgnoresCursor(q, t, Cursor(nextRank, nextBank), Cursor(nextRank, nextBank));
        busPacket := TryQueue();
        if busPacket.Some? { return; }
        WalkOn(start, Cursor(nextRank, nextBank), moved);
        MoveToNextQueue();
        if nextRank == startingRank && nextBank == startingBank { return; }
        moved := moved + 1;
      }
    }

    lemma NotWalked(start: Cursor)
      requires InGrid(cfg, start)
      ensures 0 < QueueCount(cfg) && Walked(start, start, 0)
    {
      SerialInRange(cfg, start);
    }

    /** The walk is back at its start exactly when the serial numbers agree. */
    lemma Returned(start: Cursor, c: Cursor)
      requires InGrid(cfg, start) && InGrid(cfg, c) && (cfg.structure.PerRank? ==> c.bank == start.bank)
      ensures c == start <==> QueueSerial(cfg, start) == QueueSerial(cfg, c)
    {
      if cfg.structure.PerRankPerBank? && QueueSerial(cfg, start) == QueueSerial(cfg, c) { SerialInjective(cfg, start, c); }
    }

    /** Close the bank under the cursor if nobody waits for its row or it was used too often. */
    method TryClose() returns (busPacket: Option<BusPacket>)
      requires Valid() && TableShape(cfg, bankStates.states)
      modifies this`rowAccessCounters
      ensures Valid()
      ensures var c := Cursor(nextRankPRE, nextBankPRE);
        var issue := if Closable(cfg, old(View()), bankStates.states, c, currentClockCycle) then CloseRow(c.rank, c.bank) else NoIssue;
        View() == Take(cfg, old(View()), issue) && busPacket == Result(old(View()), issue)
    {
      var bank := bankStates.states[nextRankPRE][nextBankPRE];
      if bank.phase.RowActive? {
        var que := queues[nextRankPRE][cfg.SlotOf(nextBankPRE)];
        var j := FindForRow(que, nextBankPRE, bank.openRow);
        if j == |que| || rowAccessCounters[nextRankPRE][nextBankPRE] == cfg.totalRowAccesses {
          if currentClockCycle >= bank.nextPrecharge {
            var p := CloseBank(nextRankPRE, nextBankPRE);
            return Some(p);
          }
        }
      }
      return None;
    }

    lemma ClosableIgnoresCursor(q: QueueState, t: Table, c: Cursor, at: Cursor)
      requires Ready(cfg, q, t) && InGrid(cfg, c) && InGrid(cfg, at)
      ensures Ready(cfg, q.(nextRankPRE := at.rank, nextBankPRE := at.bank), t)
      ensures Closable(cfg, q.(nextRankPRE := at.rank, nextBankPRE := at.bank), t, c, currentClockCycle) == Closable(cfg, q, t, c, currentClockCycle)
    {}

    /** Under open page with nothing else to do: walk round the banks for one to close. With one queue per bank
        the start of the walk is kept in bools. */
    method SearchToClose() returns (busPacket: Option<BusPacket>)
      requires Valid() && TableShape(cfg, bankStates.states)
      modifies this`rowAccessCounters, this`nextRankPRE, this`nextBankPRE
      ensures Valid()
      ensures var q := old(View());
        var start := Cursor(q.nextRankPRE, q.nextBankPRE);
        var (d, issue) := SearchClose(cfg, q, bankStates.states, start, CloseStop(cfg, start), currentClockCycle);
        var q1 := q.(nextRankPRE := d.rank, nextBankPRE := d.bank);
        Names(cfg, q1, issue) && View() == Take(cfg, q1, issue) && busPacket == Result(q1, issue)
    {
      TakeNothing();
      hide Closable, Take, PacketOf, MovesLeft, RoundRobin.NextRankAndBank;
      ghost var q, t := View(), bankStates.states;
      ghost var start := Cursor(nextRankPRE, nextBankPRE);
      var startingRank := if cfg.structure.PerRank? then nextRankPRE else Truth(nextRankPRE);
      var startingBank := if cfg.structure.PerRank? then nextBankPRE else Truth(nextBankPRE);
      ghost var stop := CloseStop(cfg, start);
      while true
        invariant Valid() && View() == q.(nextRankPRE := nextRankPRE, nextBankPRE := nextBankPRE)
        invariant stop == Cursor(startingRank, startingBank) && InGrid(cfg, stop)
        invariant SearchClose(cfg, q, t, start, stop, currentClockCycle)
               == SearchClose(cfg, q, t, Cursor(nextRankPRE, nextBankPRE), stop, currentClockCycle)
        decreases MovesLeft(cfg, Cursor(nextRankPRE, nextBankPRE), stop)
      {
        ClosableIgnoresCursor(q, t, Cursor(nextRankPRE, nextBankPRE), Cursor(nextRankPRE, nextBankPRE));
        busPacket := TryClose();
        if busPacket.Some? { return; }
        MovesLeftDecreases(cfg, Cursor(nextRankPRE, nextBankPRE), stop);
        nextRankPRE, nextBankPRE := NextRankAndBank(nextRankPRE, nextBankPRE);
        if nextRankPRE == startingRank && nextBankPRE == startingBank { return; }
      }
    }

    /** Without an urgent command: the search, and under open page the walk for a row to close. */
    method ServeQueues() returns (busPacket: Option<BusPacket>)
      requires Valid() && TableShape(cfg, bankStates.states)
      modifies this`queues, this`rowAccessCounters, this`nextRank, this`nextBank, this`nextRankPRE, this`nextBankPRE
      ensures Valid()
      ensures var (issue, q1) := Normal(cfg, old(View()), bankStates.states, currentClockCycle);
        View() == Take(cfg, q1, issue) && busPacket == Result(q1, issue)
    {
      ghost var q, t := View(), bankStates.states;
      busPacket := SearchQueues();
      if busPacket.None? && cfg.policy.OpenPage? {
        CloseIgnoresQueueCursor(q, t, Cursor(nextRank, nextBank));
        busPacket := SearchToClose();
      }
    }

    lemma {:induction false} SearchCloseIgnoresCursor(q: QueueState, t: Table, at: Cursor, c: Cursor, stop: Cursor)
      requires Ready(cfg, q, t) && InGrid(cfg, at) && InGrid(cfg, c) && InGrid(cfg, stop)
      ensures Ready(cfg, q.(nextRank := at.rank, nextBank := at.bank), t)
      ensures SearchClose(cfg, q.(nextRank := at.rank, nextBank := at.bank), t, c, stop, currentClockCycle)
           == SearchClose(cfg, q, t, c, stop, currentClockCycle)
      decreases MovesLeft(cfg, c, stop)
    {
      var n := RoundRobin.NextRankAndBank(cfg, c);
      MovesLeftDecreases(cfg, c, stop);
      if n != stop { SearchCloseIgnoresCursor(q, t, at, n, stop); }
    }

    lemma CloseIgnoresQueueCursor(q: QueueState, t: Table, at: Cursor)
      requires Ready(cfg, q, t) && InGrid(cfg, at)
      ensures var start := Cursor(q.nextRankPRE, q.nextBankPRE);
        && Ready(cfg, q.(nextRank := at.rank, nextBank := at.bank), t)
        && SearchClose(cfg, q.(nextRank := at.rank, nextBank := at.bank), t, start, CloseStop(cfg, start), currentClockCycle)
        == SearchClose(cfg, q, t, start, CloseStop(cfg, start), currentClockCycle)
    {
      var start := Cursor(q.nextRankPRE, q.nextBankPRE);
      SearchCloseIgnoresCursor(q, t, at, start, CloseStop(cfg, start));
    }

    /** With posted CAS the cursor stays put after an ACTIVATE so that its column command follows. */
    method AdvanceCursor()
      requires Valid()
      modifies this`sendAct, this`nextRank, this`nextBank
      ensures Valid() && View() == Advance(cfg, old(View()))
    {
      if cfg.al > 0 && sendAct {
        sendAct := false;
      } else {
        sendAct := true;
        nextRank, nextBank := NextRankAndBank(nextRank, nextBank);
      }
    }

    method CountActivate(p: BusPacket)
      requires Valid() && p.rank < cfg.numRanks
      modifies this`tFAWCountdown
      ensures Valid() && View() == NoteActivate(cfg, old(View()), p)
    {
      if p.kind.Activate? {
        tFAWCountdown := tFAWCountdown[p.rank := tFAWCountdown[p.rank] + [cfg.tFAW]];
      }
    }

    /** The next command for the bus, if any can go this cycle. */
    method Pop() returns (busPacket: Option<BusPacket>)
      requires Valid() && TableShape(cfg, bankStates.states)
      modifies this`queues, this`rowAccessCounters, this`refreshRank, this`refreshWaiting, this`tFAWCountdown,
               this`nextRank, this`nextBank, this`nextRankPRE, this`nextBankPRE, this`sendAct
      ensures Valid()
      ensures (View(), busPacket) == CommandQueueSpec.Pop(cfg, old(View()), bankStates.states, currentClockCycle)
    {
      TakeNothing();
      hide Urgent, Normal, Take, Advance, NoteActivate, TickWindows, PacketOf;
      TickActivateWindows();
      busPacket := ServeRefresh();
      if busPacket.None? {
        busPacket := ServeQueues();
        if busPacket.None? { return; }
      }
      AdvanceCursor();
      CountActivate(busPacket.value);
    }
  }
}
