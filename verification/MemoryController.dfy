/** The memory controller as the program has it: an object that steps its buses, bank records, queues and
    ranks in place, phase by phase. */
module MemoryControllers {
  import opened DramTypes
  import opened CommandQueueSpec
  import opened BankTiming
  import opened RankSpec
  import opened SystemSpec
  import opened CommandQueues
  import opened Ranks

  class MemoryController {
    const cfg: Config
    const bankStates: BankTable
    const commandQueue: CommandQueue
    const ranks: seq<Rank>
    var currentClockCycle: nat
    var powerDown: seq<bool>
    var outgoingCmdPacket: Option<BusPacket>
    var cmdCyclesLeft: nat
    var outgoingDataPacket: Option<BusPacket>
    var dataCyclesLeft: nat
    var writeDataToSend: seq<BusPacket>
    var writeDataCountdown: seq<nat>
    var refreshCountdown: seq<nat>
    var refreshRank: nat
    var transactionQueue: seq<Transaction>
    var pendingReadTransactions: seq<Transaction>
    var returnTransaction: seq<nat>
    /** The transaction called back in this cycle. */
    var answered: Option<Transaction>
    /** The error exit taken, if any. */
    var halted: Option<Error>
    /** The memory system's transactions that did not fit yet. */
    ghost var backlog: seq<Transaction>

    ghost function RankViews(): seq<RankState>
      reads ranks
    {
      seq(|ranks|, r requires 0 <= r < |ranks| reads ranks => ranks[r].View())
    }

    ghost function View(): System
      reads this, bankStates, commandQueue, ranks
    {
      System(currentClockCycle, commandQueue.View(), bankStates.states, powerDown, RankViews(),
             outgoingCmdPacket, cmdCyclesLeft, outgoingDataPacket, dataCyclesLeft,
             writeDataToSend, writeDataCountdown, refreshCountdown, refreshRank,
             backlog, transactionQueue, pendingReadTransactions, returnTransaction, answered, halted)
    }

    /** The objects share one configuration and one bank table, and no rank appears twice. */
    ghost predicate Wired() {
      && commandQueue.cfg == cfg && commandQueue.bankStates == bankStates
      && (forall r :: 0 <= r < |ranks| ==> ranks[r].cfg == cfg)
      && forall i, j :: 0 <= i < j < |ranks| ==> ranks[i] != ranks[j]
    }

    /** Their clocks show the same cycle. */
    ghost predicate InStep()
      reads this`currentClockCycle, commandQueue`currentClockCycle, ranks
    {
      && commandQueue.currentClockCycle == currentClockCycle
      && forall r :: 0 <= r < |ranks| ==> ranks[r].currentClockCycle == currentClockCycle
    }

    ghost predicate Valid()
      reads this, bankStates, commandQueue, ranks
    {
      Wired() && InStep() && View().Shape(cfg)
    }

    /** What the array bounds in the methods below rely on. */
    lemma Bounds()
      requires Valid()
      ensures cfg.Valid() && TableShape(cfg, bankStates.states)
      ensures commandQueue.Valid() && commandQueue.cfg == cfg && commandQueue.bankStates == bankStates
      ensures |ranks| == |RankViews()| == |powerDown| == |refreshCountdown| == |bankStates.states| == cfg.numRanks
      ensures refreshRank < cfg.numRanks && |writeDataToSend| == |writeDataCountdown|
      ensures outgoingCmdPacket.Some? ==> outgoingCmdPacket.value.rank < cfg.numRanks && outgoingCmdPacket.value.bank < cfg.numBanks
    {}

    lemma RankBounds(r: nat)
      requires Valid() && r < |ranks|
      ensures r < |RankViews()| && RankViews()[r] == ranks[r].View() && ranks[r].Valid()
    {
      assert RankViews()[r] == ranks[r].View();
    }

    constructor (cfg: Config, bankStates: BankTable, commandQueue: CommandQueue, ranks: seq<Rank>)
      requires cfg.Valid() && |ranks| == cfg.numRanks && (forall i, j :: 0 <= i < j < |ranks| ==> ranks[i] != ranks[j])
      requires forall r :: 0 <= r < |ranks| ==> ranks[r].Valid() && ranks[r].cfg == cfg && ranks[r].currentClockCycle == 0
      requires TableShape(cfg, bankStates.states)
      requires commandQueue.Valid() && commandQueue.cfg == cfg && commandQueue.bankStates == bankStates && commandQueue.currentClockCycle == 0
      ensures Valid() && this.ranks == ranks && this.commandQueue == commandQueue && this.bankStates == bankStates
      ensures View() == System(0, commandQueue.View(), bankStates.states, seq(cfg.numRanks, _ => false), RankViews(),
                               None, 0, None, 0, [], [], refreshCountdown, 0, [], [], [], [], None, None)
      ensures refreshCountdown == seq(cfg.numRanks, i requires 0 <= i < cfg.numRanks => cfg.refreshStagger * (i + 1))
    {
      this.cfg, this.bankStates, this.commandQueue, this.ranks := cfg, bankStates, commandQueue, ranks;
      currentClockCycle := 0;
      powerDown := seq(cfg.numRanks, _ => false);
      outgoingCmdPacket, cmdCyclesLeft, outgoingDataPacket, dataCyclesLeft := None, 0, None, 0;
      writeDataToSend, writeDataCountdown, refreshRank := [], [], 0;
      transactionQueue, pendingReadTransactions, returnTransaction, backlog := [], [], [], [];
      answered, halted := None, None;
      refreshCountdown := seq(cfg.numRanks, i requires 0 <= i < cfg.numRanks => cfg.refreshStagger * (i + 1));
    }

    // ----- bank records -----

    method TickBank(i: nat, j: nat)
      requires i < |bankStates.states| && j < |bankStates.states[i]|
      modifies bankStates
      ensures bankStates.states == old(bankStates.states)[i := old(bankStates.states)[i][j := BankTiming.TickBank(cfg, old(bankStates.states)[i][j])]]
    {
      var b := bankStates.states[i][j];
      if b.countdown > 0 {
        b := b.(countdown := b.countdown - 1);
        if b.countdown == 0 {
          match b.lastCommand {
            case WriteP | ReadP =>
              b := b.(phase := Precharging, lastCommand := Precharge, countdown := cfg.tRP);
            case Refresh | Precharge =>
              b := b.(phase := Idle);
            case _ =>
          }
        }
      }
      bankStates.states := bankStates.states[i := bankStates.states[i][j := b]];
    }

    method TickBanks(i: nat)
      requires i < |bankStates.states|
      modifies bankStates
      ensures bankStates.states == old(bankStates.states)[i := TickRow(cfg, old(bankStates.states)[i])]
    {
      hide BankTiming.TickBank;
      ghost var before := bankStates.states;
      var j := 0;
      while j < |bankStates.states[i]|
        invariant |bankStates.states| == |before| && j <= |bankStates.states[i]| == |before[i]|
        invariant bankStates.states == before[i := bankStates.states[i]]
        invariant forall k :: 0 <= k < j ==> bankStates.states[i][k] == BankTiming.TickBank(cfg, before[i][k])
        invariant forall k :: j <= k < |before[i]| ==> bankStates.states[i][k] == before[i][k]
      {
        TickBank(i, j);
        j := j + 1;
      }
      assert bankStates.states[i] == TickRow(cfg, before[i]);
    }

    method TickBankStates()
      modifies bankStates
      ensures bankStates.states == TickTable(cfg, old(bankStates.states))
    {
      hide TickRow;
      ghost var before := bankStates.states;
      var i := 0;
      while i < |bankStates.states|
        invariant i <= |bankStates.states| == |before|
        invariant forall r :: 0 <= r < i ==> bankStates.states[r] == TickRow(cfg, before[r])
        invariant forall r :: i <= r < |before| ==> bankStates.states[r] == before[r]
      {
        TickBanks(i);
        i := i + 1;
      }
      assert bankStates.states == TickTable(cfg, before);
    }

    method SetBank(r: nat, b: nat, bank: BankState)
      requires r < |bankStates.states| && b < |bankStates.states[r]|
      modifies bankStates
      ensures bankStates.states == old(bankStates.states)[r := old(bankStates.states)[r][b := bank]]
    {
      bankStates.states := bankStates.states[r := bankStates.states[r][b := bank]];
    }

    /** A column command's effect on the bank it addresses, before the spacing. */
    method ColumnOwnBank(p: BusPacket)
      requires cfg.Valid() && TableShape(cfg, bankStates.states) && p.rank < cfg.numRanks && p.bank < cfg.numBanks && p.kind.IsColumn()
      modifies bankStates
      ensures bankStates.states == old(bankStates.states)[p.rank := old(bankStates.states)[p.rank][p.bank :=
                BankTiming.OwnColumn(cfg, old(bankStates.states)[p.rank][p.bank], p.kind, currentClockCycle)]]
    {
      var now := currentClockCycle;
      var b := bankStates.states[p.rank][p.bank];
      match p.kind {
        case ReadP => b := b.(nextActivate := Max(now + cfg.ReadAutoPre(), b.nextActivate), lastCommand := ReadP, countdown := cfg.ReadToPre());
        case WriteP => b := b.(nextActivate := Max(now + cfg.WriteAutoPre(), b.nextActivate), lastCommand := WriteP, countdown := cfg.WriteToPre());
        case Read => b := b.(nextPrecharge := Max(now + cfg.ReadToPre(), b.nextPrecharge), lastCommand := Read);
        case Write => b := b.(nextPrecharge := Max(now + cfg.WriteToPre(), b.nextPrecharge), lastCommand := Write);
      }
      SetBank(p.rank, p.bank, b);
    }

    /** The spacing a column command imposes on the banks of rank i. */
    method SpaceRank(p: BusPacket, i: nat)
      requires cfg.Valid() && i < |bankStates.states| && p.kind.IsColumn()
      modifies bankStates
      ensures |bankStates.states| == |old(bankStates.states)| && |bankStates.states[i]| == |old(bankStates.states)[i]|
      ensures bankStates.states == old(bankStates.states)[i := bankStates.states[i]]
      ensures forall j :: 0 <= j < |bankStates.states[i]| ==>
        bankStates.states[i][j] == SpaceColumns(cfg, old(bankStates.states)[i][j], i == p.rank, p, currentClockCycle)
    {
      var now := currentClockCycle;
      ghost var before := bankStates.states;
      var j := 0;
      while j < |bankStates.states[i]|
        invariant |bankStates.states| == |before| && j <= |bankStates.states[i]| == |before[i]|
        invariant bankStates.states == before[i := bankStates.states[i]]
        invariant forall k :: 0 <= k < j ==> bankStates.states[i][k] == SpaceColumns(cfg, before[i][k], i == p.rank, p, now)
        invariant forall k :: j <= k < |before[i]| ==> bankStates.states[i][k] == before[i][k]
      {
        var b := bankStates.states[i][j];
        if i != p.rank {
          if b.phase.RowActive? {
            if p.kind.IsRead() {
              b := b.(nextRead := Max(now + cfg.Burst() + cfg.tRTRS, b.nextRead), nextWrite := Max(now + cfg.ReadToWrite(), b.nextWrite));
            } else {
              b := b.(nextWrite := Max(now + cfg.Burst() + cfg.tRTRS, b.nextWrite), nextRead := Max(now + cfg.WriteToReadOtherRank(), b.nextRead));
            }
          }
        } else if p.kind.IsRead() {
          b := b.(nextRead := Max(now + cfg.ColumnGap(), b.nextRead), nextWrite := Max(now + cfg.ReadToWrite(), b.nextWrite));
        } else {
          b := b.(nextWrite := Max(now + cfg.ColumnGap(), b.nextWrite), nextRead := Max(now + cfg.WriteToReadSameRank(), b.nextRead));
        }
        SetBank(i, j, b);
        j := j + 1;
      }
    }

    /** The records after a column command has been sent. */
    method SendColumn(p: BusPacket)
      requires cfg.Valid() && TableShape(cfg, bankStates.states) && p.rank < cfg.numRanks && p.bank < cfg.numBanks && p.kind.IsColumn()
      modifies bankStates
      ensures bankStates.states == SentTable(cfg, old(bankStates.states), p, currentClockCycle)
    {
      hide SpaceColumns, BankTiming.OwnColumn;
      ghost var before := bankStates.states;
      var now := currentClockCycle;
      ColumnOwnBank(p);
      ghost var owned := bankStates.states;
      var i := 0;
      while i < cfg.numRanks
        invariant i <= cfg.numRanks == |bankStates.states|
        invariant forall r :: 0 <= r < |owned| ==> |bankStates.states[r]| == |owned[r]|
        invariant forall r, b :: 0 <= r < i && 0 <= b < cfg.numBanks ==>
          bankStates.states[r][b] == SpaceColumns(cfg, owned[r][b], r == p.rank, p, now)
        invariant forall r :: i <= r < |owned| ==> bankStates.states[r] == owned[r]
      {
        SpaceRank(p, i);
        i := i + 1;
      }
      if p.kind.AutoPrecharges() {
        var b := bankStates.states[p.rank][p.bank];
        SetBank(p.rank, p.bank, b.(nextRead := b.nextActivate, nextWrite := b.nextActivate));
      }
      SameTables(bankStates.states, SentTable(cfg, before, p, now));
    }

    lemma SameTables(t: Table, t': Table)
      requires TableShape(cfg, t) && TableShape(cfg, t')
      requires forall r, b :: 0 <= r < cfg.numRanks && 0 <= b < cfg.numBanks ==> t[r][b] == t'[r][b]
      ensures t == t'
    {
      forall r | 0 <= r < |t| ensures t[r] == t'[r] {}
    }

    method SendActivate(p: BusPacket)
      requires cfg.Valid() && TableShape(cfg, bankStates.states) && p.rank < cfg.numRanks && p.bank < cfg.numBanks && p.kind.Activate?
      modifies bankStates
      ensures bankStates.states == SentTable(cfg, old(bankStates.states), p, currentClockCycle)
    {
      ghost var before := bankStates.states;
      var now := currentClockCycle;
      var b := bankStates.states[p.rank][p.bank];
      b := b.(phase := RowActive, lastCommand := Activate, openRow := p.row,
              nextActivate := Max(now + cfg.tRC, b.nextActivate), nextPrecharge := Max(now + cfg.tRAS, b.nextPrecharge));
      b := b.(nextRead := Max(now + (cfg.tRCD - cfg.al), b.nextRead), nextWrite := Max(now + (cfg.tRCD - cfg.al), b.nextWrite));
      SetBank(p.rank, p.bank, b);
      var i := 0;
      while i < cfg.numBanks
        invariant i <= cfg.numBanks && TableShape(cfg, bankStates.states)
        invariant forall r :: 0 <= r < |before| && r != p.rank ==> bankStates.states[r] == before[r]
        invariant forall k :: 0 <= k < cfg.numBanks ==>
          bankStates.states[p.rank][k] == if k < i || k == p.bank then Sent(cfg, before[p.rank][k], p.rank, k, p, now) else before[p.rank][k]
      {
        if i != p.bank {
          var other := bankStates.states[p.rank][i];
          SetBank(p.rank, i, other.(nextActivate := Max(now + cfg.tRRD, other.nextActivate)));
        }
        i := i + 1;
      }
      SameTables(bankStates.states, SentTable(cfg, before, p, now));
    }

    method SendPrecharge(p: BusPacket)
      requires cfg.Valid() && TableShape(cfg, bankStates.states) && p.rank < cfg.numRanks && p.bank < cfg.numBanks && p.kind.Precharge?
      modifies bankStates
      ensures bankStates.states == SentTable(cfg, old(bankStates.states), p, currentClockCycle)
    {
      ghost var before := bankStates.states;
      var b := bankStates.states[p.rank][p.bank];
      SetBank(p.rank, p.bank, b.(phase := Precharging, lastCommand := Precharge, countdown := cfg.tRP,
                                 nextActivate := Max(currentClockCycle + cfg.tRP, b.nextActivate)));
      SameTables(bankStates.states, SentTable(cfg, before, p, currentClockCycle));
    }

    method SendRefresh(p: BusPacket)
      requires cfg.Valid() && TableShape(cfg, bankStates.states) && p.rank < cfg.numRanks && p.kind.Refresh?
      modifies bankStates
      ensures bankStates.states == SentTable(cfg, old(bankStates.states), p, currentClockCycle)
    {
      ghost var before := bankStates.states;
      var now := currentClockCycle;
      var i := 0;
      while i < cfg.numBanks
        invariant i <= cfg.numBanks && TableShape(cfg, bankStates.states)
        invariant forall r :: 0 <= r < |before| && r != p.rank ==> bankStates.states[r] == before[r]
        invariant forall k :: 0 <= k < cfg.numBanks ==>
          bankStates.states[p.rank][k] == if k < i then Sent(cfg, before[p.rank][k], p.rank, k, p, now) else before[p.rank][k]
      {
        var b := bankStates.states[p.rank][i];
        SetBank(p.rank, i, b.(nextActivate := now + cfg.tRFC, phase := Refreshing, lastCommand := Kind.Refresh, countdown := cfg.tRFC));
        i := i + 1;
      }
      SameTables(bankStates.states, SentTable(cfg, before, p, now));
    }

    /** The records after any command has been sent. */
    method UpdateTable(p: BusPacket)
      requires cfg.Valid() && TableShape(cfg, bankStates.states) && p.rank < cfg.numRanks && p.bank < cfg.numBanks && !p.kind.Data?
      modifies bankStates
      ensures bankStates.states == SentTable(cfg, old(bankStates.states), p, currentClockCycle)
    {
      hide SentTable;
      if p.kind.IsColumn() { SendColumn(p); }
      else if p.kind.Activate? { SendActivate(p); }
      else if p.kind.Precharge? { SendPrecharge(p); }
      else { SendRefresh(p); }
    }

    // ----- the phases of a cycle -----

    method Deliver(p: BusPacket) returns (ok: bool)
      requires Wired() && InStep() && p.rank < |ranks| && p.bank < cfg.numBanks && ranks[p.rank].Valid()
      modifies ranks
      ensures Wired() && InStep() && ok == RankSpec.Accepts(cfg, old(RankViews())[p.rank], p, currentClockCycle)
      ensures RankViews() == if ok then old(RankViews())[p.rank := Receive(cfg, old(RankViews())[p.rank], p, currentClockCycle)]
                             else old(RankViews())
    {
      hide Receive, RankSpec.Accepts;
      ok := ranks[p.rank].ReceiveFromBus(p);
      assert RankViews() == old(RankViews())[p.rank := ranks[p.rank].View()];
    }

    method FlagRank(r: nat)
      requires Wired() && InStep() && r < |ranks|
      modifies ranks
      ensures Wired() && InStep() && RankViews() == old(RankViews())[r := old(RankViews())[r].(refreshWaiting := true)]
    {
      ranks[r].refreshWaiting := true;
      assert RankViews() == old(RankViews())[r := ranks[r].View()];
    }

    /** The command bus: when its cycles are over the addressed rank receives the packet. */
    method CommandBus()
      requires Valid()
      modifies this`outgoingCmdPacket, this`cmdCyclesLeft, this`halted, ranks
      ensures View() == CommandPhase(cfg, old(View())) && Valid()
    {
      hide Receive, RankSpec.Accepts, Wired, System.Shape, RankViews, QueueState.Shape, TableShape;
      Bounds();
      if outgoingCmdPacket.Some? {
        var p := outgoingCmdPacket.value;
        RankBounds(p.rank);
        cmdCyclesLeft := Decrement(cmdCyclesLeft);
        if cmdCyclesLeft == 0 {
          var ok := Deliver(p);
          outgoingCmdPacket := None;
          if !ok { halted := Some(RankRejectedCommand); }
        }
      }
    }

    /** The write data bus: a packet that is done frees it. */
    method DataBus()
      requires Valid()
      modifies this`outgoingDataPacket, this`dataCyclesLeft
      ensures View() == DataPhase(cfg, old(View())) && Valid()
    {
      if outgoingDataPacket.Some? {
        dataCyclesLeft := Decrement(dataCyclesLeft);
        if dataCyclesLeft == 0 { outgoingDataPacket := None; }
      }
    }

    method AgeWriteData()
      modifies this`writeDataCountdown
      ensures writeDataCountdown == DecrementAll(old(writeDataCountdown))
    {
      ghost var before := writeDataCountdown;
      var i := 0;
      while i < |writeDataCountdown|
        invariant i <= |writeDataCountdown| == |before|
        invariant forall k :: 0 <= k < i ==> writeDataCountdown[k] == Decrement(before[k])
        invariant forall k :: i <= k < |before| ==> writeDataCountdown[k] == before[k]
      {
        var left: nat := Decrement(writeDataCountdown[i]);
        writeDataCountdown := writeDataCountdown[i := left];
        i := i + 1;
      }
      assert writeDataCountdown == DecrementAll(before);
    }

    /** Age the waiting write data; the head goes on the bus at zero, which must be free then. */
    method WriteData()
      requires Valid()
      modifies this`outgoingDataPacket, this`dataCyclesLeft, this`writeDataToSend, this`writeDataCountdown, this`halted
      ensures View() == WritePhase(cfg, old(View())) && Valid()
    {
      hide Wired, System.Shape, RankViews, QueueState.Shape, TableShape, DecrementAll;
      Bounds();
      AgeWriteData();
      if |writeDataCountdown| > 0 && writeDataCountdown[0] == 0 {
        if outgoingDataPacket.Some? {
          halted := Some(DataBusCollision);
          return;
        }
        outgoingDataPacket := Some(writeDataToSend[0]);
        dataCyclesLeft := cfg.Burst();
        writeDataCountdown := writeDataCountdown[1..];
        writeDataToSend := writeDataToSend[1..];
      }
    }

    /** The rank's turn for a refresh has come. */
    method AskForRefresh()
      requires Valid()
      modifies this`refreshCountdown, this`refreshRank, commandQueue`refreshWaiting, commandQueue`refreshRank, ranks
      ensures Wired() && InStep()
      ensures old(refreshRank) < |old(RankViews())| && old(refreshRank) < |old(refreshCountdown)|
      ensures var r := old(refreshRank);
        && commandQueue.View() == old(commandQueue.View()).(refreshWaiting := true, refreshRank := r)
        && RankViews() == old(RankViews())[r := old(RankViews())[r].(refreshWaiting := true)]
        && refreshCountdown == old(refreshCountdown)[r := cfg.refreshInterval]
        && refreshRank == if r + 1 == cfg.numRanks then 0 else r + 1
    {
      var r := refreshRank;
      hide Wired, System.Shape, QueueState.Shape, TableShape, RankViews;
      Bounds();
      commandQueue.NeedRefresh(r);
      FlagRank(r);
      refreshCountdown := refreshCountdown[r := cfg.refreshInterval];
      refreshRank := refreshRank + 1;
      if refreshRank == cfg.numRanks { refreshRank := 0; }
    }

    /** Ask for a refresh in time; a rank that is powered down is told early enough to wake up. */
    method RefreshTimer()
      requires Valid()
      modifies this`refreshCountdown, this`refreshRank, commandQueue`refreshWaiting, commandQueue`refreshRank, ranks
      ensures View() == RefreshPhase(cfg, old(View())) && Valid()
    {
      hide Wired, System.Shape, QueueState.Shape, TableShape, RankViews;
      Bounds();
      if refreshCountdown[refreshRank] == 0 {
        AskForRefresh();
      } else if powerDown[refreshRank] && refreshCountdown[refreshRank] <= cfg.tXP {
        FlagRank(refreshRank);
      }
    }

    /** Send the popped command: schedule its write data, update the records, take the command bus. */
    method Send(p: BusPacket)
      requires Valid() && p.rank < cfg.numRanks && p.bank < cfg.numBanks && !p.kind.Data?
      modifies this`writeDataToSend, this`writeDataCountdown, this`outgoingCmdPacket, this`cmdCyclesLeft, this`halted, bankStates
      ensures View() == SendPhase(cfg, old(View()), p) && Valid()
    {
      hide Wired, SentTable, System.Shape, QueueState.Shape, TableShape, RankViews;
      Bounds();
      ScheduleWriteData(p);
      UpdateTable(p);
      TakeCommandBus(p);
    }

    method ScheduleWriteData(p: BusPacket)
      requires cfg.Valid()
      modifies this`writeDataToSend, this`writeDataCountdown
      ensures writeDataToSend == if p.kind.IsWrite() then old(writeDataToSend) + [p.(kind := Data)] else old(writeDataToSend)
      ensures writeDataCountdown == if p.kind.IsWrite() then old(writeDataCountdown) + [cfg.WriteLatency()] else old(writeDataCountdown)
    {
      if p.kind.IsWrite() {
        writeDataToSend := writeDataToSend + [p.(kind := Data)];
        writeDataCountdown := writeDataCountdown + [cfg.WriteLatency()];
      }
    }

    method TakeCommandBus(p: BusPacket)
      modifies this`outgoingCmdPacket, this`cmdCyclesLeft, this`halted
      ensures if old(outgoingCmdPacket).Some?
        then halted == Some(CommandBusCollision) && outgoingCmdPacket == old(outgoingCmdPacket) && cmdCyclesLeft == old(cmdCyclesLeft)
        else halted == old(halted) && outgoingCmdPacket == Some(p) && cmdCyclesLeft == cfg.tCMD
    {
      if outgoingCmdPacket.Some? {
        halted := Some(CommandBusCollision);
      } else {
        outgoingCmdPacket := Some(p);
        cmdCyclesLeft := cfg.tCMD;
      }
    }

    method Issue()
      requires Valid()
      modifies this`writeDataToSend, this`writeDataCountdown, this`outgoingCmdPacket, this`cmdCyclesLeft, this`halted,
               bankStates, commandQueue
      ensures View() == IssuePhase(cfg, old(View())) && Valid()
    {
      hide SendPhase, System.Shape, QueueState.Shape, TableShape, SentTable, RankViews, Wired;
      hide CommandQueueSpec.Pop;
      Bounds();
      PoppedIsCommand(cfg, View());
      var poppedBusPacket := commandQueue.Pop();
      ShapeWithQueue(cfg, old(View()), commandQueue.View());
      if poppedBusPacket.Some? { Send(poppedBusPacket.value); }
    }

    // ----- transactions -----

    /** Break up transaction i into an ACTIVATE and a column command if its queue has room for both. */
    method SplitTransaction(i: nat)
      requires Valid() && i < |transactionQueue|
      modifies this`pendingReadTransactions, this`transactionQueue, this`halted, commandQueue`queues
      ensures View() == SplitAt(cfg, old(View()), i) && Valid()
    {
      hide Wired, System.Shape, QueueState.Shape, TableShape, RankViews, SplitOne, SystemSpec.HasRoomFor;
      Bounds();
      var place := cfg.locate(transactionQueue[i].address);
      var room := commandQueue.HasRoomFor(2, place.rank, place.bank);
      if room { BreakUp(i, place); }
    }

    method BreakUp(i: nat, place: Location)
      requires Valid() && i < |transactionQueue| && place == cfg.locate(transactionQueue[i].address)
      modifies this`pendingReadTransactions, this`transactionQueue, this`halted, commandQueue`queues
      ensures View() == SplitOne(cfg, old(View()), i) && Valid()
    {
      hide Wired, System.Shape, QueueState.Shape, TableShape, RankViews, SystemSpec.Enqueue, CommandsOf;
      Bounds();
      var transaction := transactionQueue[i];
      if transaction.isRead { pendingReadTransactions := pendingReadTransactions + [transaction]; }
      transactionQueue := transactionQueue[..i] + transactionQueue[i+1..];
      var overflow := EnqueuePair(transaction, place);
      if overflow { halted := Some(QueueOverflow); }
    }

    method EnqueuePair(transaction: Transaction, place: Location) returns (overflow: bool)
      requires commandQueue.Valid() && commandQueue.cfg == cfg && place == cfg.locate(transaction.address)
      modifies commandQueue`queues
      ensures commandQueue.Valid()
      ensures var (a, c) := CommandsOf(cfg, transaction);
        && commandQueue.View() == SystemSpec.Enqueue(cfg, SystemSpec.Enqueue(cfg, old(commandQueue.View()), a), c)
        && overflow == (|commandQueue.View().queues[a.rank][cfg.SlotOf(a.bank)]| > cfg.cmdQueueDepth)
    {
      var command := BusPacket(Activate, transaction.address, place.column, place.row, place.rank, place.bank, transaction.id);
      var tooMany := commandQueue.Enqueue(command);
      if transaction.isRead {
        command := command.(kind := if cfg.policy.OpenPage? then Read else ReadP);
      } else {
        command := command.(kind := if cfg.policy.OpenPage? then Write else WriteP);
      }
      hide QueueState.Shape;
      overflow := commandQueue.Enqueue(command);
    }

    /** Erasing a transaction moves the next one to its index, which the loop then skips. */
    method SplitTransactions()
      requires Valid()
      modifies this`pendingReadTransactions, this`transactionQueue, this`halted, commandQueue`queues
      ensures View() == SplitFrom(cfg, old(View()), 0) && Valid()
    {
      hide SplitAt, Wired, System.Shape, RankViews;
      ghost var start := View();
      var i := 0;
      while i < |transactionQueue| && halted.None?
        invariant Valid() && SplitFrom(cfg, start, 0) == SplitFrom(cfg, View(), i)
        decreases |transactionQueue| - i
      {
        SplitTransaction(i);
        i := i + 1;
      }
    }

    /** Answer one returned read: the first pending transaction with its address is called back. */
    method AnswerRead()
      requires Valid()
      modifies this`pendingReadTransactions, this`returnTransaction, this`answered
      ensures View() == AnswerPhase(cfg, old(View())) && Valid()
    {
      hide Wired, System.Shape, RankViews;
      if |returnTransaction| == 0 { return; }
      var i := FindRead(returnTransaction[0]);
      if i < |pendingReadTransactions| {
        answered := Some(pendingReadTransactions[i]);
        pendingReadTransactions := pendingReadTransactions[..i] + pendingReadTransactions[i+1..];
      }
      returnTransaction := returnTransaction[1..];
    }

    method FindRead(address: nat) returns (i: nat)
      ensures i == FindPending(pendingReadTransactions, address, 0)
    {
      i := 0;
      while i < |pendingReadTransactions|
        invariant i <= |pendingReadTransactions|
        invariant FindPending(pendingReadTransactions, address, 0) == FindPending(pendingReadTransactions, address, i)
      {
        if pendingReadTransactions[i].address == address { return; }
        i := i + 1;
      }
    }

    method ReceiveFromBus(bpacket: BusPacket)
      modifies this`returnTransaction
      ensures returnTransaction == old(returnTransaction) + [bpacket.address]
    {
      returnTransaction := returnTransaction + [bpacket.address];
    }

    predicate WillAcceptTransaction()
      reads this
    {
      |transactionQueue| < cfg.transQueueDepth
    }

    method AddTransaction(trans: Transaction) returns (accepted: bool)
      modifies this`transactionQueue
      ensures accepted == old(WillAcceptTransaction())
      ensures transactionQueue == if accepted then old(transactionQueue) + [trans] else old(transactionQueue)
    {
      accepted := WillAcceptTransaction();
      if accepted { transactionQueue := transactionQueue + [trans]; }
    }

    method CountDownRefreshes()
      modifies this`refreshCountdown
      ensures refreshCountdown == DecrementAll(old(refreshCountdown))
    {
      ghost var before := refreshCountdown;
      var i := 0;
      while i < |refreshCountdown|
        invariant i <= |refreshCountdown| == |before|
        invariant forall k :: 0 <= k < i ==> refreshCountdown[k] == Decrement(before[k])
        invariant forall k :: i <= k < |before| ==> refreshCountdown[k] == before[k]
      {
        var left: nat := Decrement(refreshCountdown[i]);
        refreshCountdown := refreshCountdown[i := left];
        i := i + 1;
      }
      assert refreshCountdown == DecrementAll(before);
    }

    // ----- power -----

    method AllBanksIdle(i: nat) returns (allIdle: bool)
      requires i < |bankStates.states|
      ensures allIdle == AllIdle(bankStates.states[i])
    {
      allIdle := true;
      var j := 0;
      while j < |bankStates.states[i]|
        invariant j <= |bankStates.states[i]|
        invariant allIdle <==> forall k :: 0 <= k < j ==> bankStates.states[i][k].phase.Idle?
      {
        if !bankStates.states[i][j].phase.Idle? { allIdle := false; }
        j := j + 1;
      }
    }

    method PowerRow(i: nat, move: PowerMove)
      requires i < |bankStates.states| && !move.Stay?
      modifies bankStates
      ensures bankStates.states == old(bankStates.states)[i := PowerBanks(cfg, old(bankStates.states)[i], move, currentClockCycle)]
    {
      ghost var before := bankStates.states;
      ghost var powered := PowerBanks(cfg, before[i], move, currentClockCycle);
      var j := 0;
      while j < |bankStates.states[i]|
        invariant |bankStates.states| == |before| && j <= |bankStates.states[i]| == |before[i]|
        invariant bankStates.states == before[i := bankStates.states[i]]
        invariant forall k :: 0 <= k < j ==> bankStates.states[i][k] == powered[k]
        invariant forall k :: j <= k < |before[i]| ==> bankStates.states[i][k] == before[i][k]
      {
        var b := bankStates.states[i][j];
        if move.GoDown? {
          SetBank(i, j, b.(phase := PowerDown, nextPowerUp := currentClockCycle + cfg.tCKE));
        } else {
          SetBank(i, j, b.(phase := Idle, nextActivate := currentClockCycle + cfg.tXP));
        }
        j := j + 1;
      }
      assert bankStates.states[i] == powered;
    }

    /** Power rank i down or up in its own table, or report that it refused. */
    method PowerRankTable(i: nat, move: PowerMove) returns (ok: bool)
      requires Wired() && InStep() && i < |ranks| && ranks[i].Valid() && !move.Stay?
      modifies ranks
      ensures Wired() && InStep()
      ensures var r := old(RankViews())[i];
        && ok == (if move.GoDown? then MayPowerDown(r) else MayPowerUp(r, currentClockCycle))
        && (ok ==> RankViews() == old(RankViews())[i :=
              if move.GoDown? then PoweredDown(cfg, r, currentClockCycle) else PoweredUp(cfg, r, currentClockCycle)])
    {
      hide PoweredDown, PoweredUp, MayPowerDown, MayPowerUp;
      if move.GoDown? { ok := ranks[i].PowerDown(); } else { ok := ranks[i].PowerUp(); }
      assert RankViews() == old(RankViews())[i := ranks[i].View()];
    }

    /** The power manager's decision for rank i. */
    method DecidePower(i: nat) returns (move: PowerMove)
      requires Valid() && i < cfg.numRanks
      ensures move == PowerMoveOf(cfg, View(), i)
    {
      if !cfg.useLowPower { return Stay; }
      assert RankViews()[i] == ranks[i].View();
      var empty := commandQueue.IsEmpty(i);
      if empty && !ranks[i].refreshWaiting {
        var allIdle := AllBanksIdle(i);
        return if allIdle then GoDown else Stay;
      }
      return if currentClockCycle >= bankStates.states[i][0].nextPowerUp && powerDown[i] then GoUp else Stay;
    }

    /** The state s has been reached, or the error exit it names has been taken. */
    ghost predicate Reached(s: System)
      reads this, bankStates, commandQueue, ranks
    {
      if s.halted.Some? then halted == s.halted else View() == s && Valid()
    }

    method PowerRank(i: nat)
      requires Valid() && halted.None? && i < cfg.numRanks
      modifies this`powerDown, this`halted, bankStates, ranks
      ensures Reached(SystemSpec.PowerRank(cfg, old(View()), i))
    {
      hide Wired, System.Shape, QueueState.Shape, TableShape, RankViews, PowerMoveOf, PowerBanks, PoweredDown, PoweredUp, MayPowerDown, MayPowerUp;
      Bounds();
      RankBounds(i);
      var move := DecidePower(i);
      if move.Stay? { return; }
      powerDown := powerDown[i := move.GoDown?];
      var ok := PowerRankTable(i, move);
      if ok {
        PowerRow(i, move);
      } else {
        halted := Some(if move.GoDown? then PowerDownWhileBusy else PowerUpTooEarly);
      }
    }

    method ManagePower()
      requires Valid() && halted.None?
      modifies this`powerDown, this`halted, bankStates, ranks
      ensures Reached(PowerFrom(cfg, old(View()), 0))
    {
      hide Wired, System.Shape, RankViews, SystemSpec.PowerRank;
      ghost var start := View();
      var i := 0;
      while i < cfg.numRanks
        invariant i <= cfg.numRanks && halted.None? && Valid()
        invariant PowerFrom(cfg, start, 0) == PowerFrom(cfg, View(), i)
      {
        PowerRank(i);
        i := i + 1;
        if halted.Some? { return; }
      }
    }

    // ----- the update -----

    method UpdateToPop()
      requires Valid() && halted.None?
      modifies this, bankStates, commandQueue, ranks
      ensures Reached(UpToPop(cfg, old(View()))) && halted == UpToPop(cfg, old(View())).halted && backlog == old(backlog)
    {
      hide Wired, System.Shape, RankViews, CommandPhase, DataPhase, WritePhase, RefreshPhase, TickTable;
      UpdateRecords();
      CommandBus();
      if halted.Some? { return; }
      DataBus();
      WriteData();
      if halted.Some? { return; }
      RefreshTimer();
    }

    method UpdateRecords()
      requires Valid()
      modifies bankStates
      ensures View() == TickPhase(cfg, old(View())) && Valid()
    {
      hide System.Shape, TickTable, RankViews;
      TickBankStates();
    }

    method UpdateFromPop()
      requires Valid() && halted.None?
      modifies this, bankStates, commandQueue, ranks
      ensures Reached(FromPop(cfg, old(View()))) && halted == FromPop(cfg, old(View())).halted && backlog == old(backlog)
    {
      hide Wired, System.Shape, RankViews, IssuePhase, SplitFrom, PowerFrom, AnswerPhase;
      Issue();
      if halted.Some? { return; }
      SplitTransactions();
      if halted.Some? {
        PowerStops(cfg, View());
        return;
      }
      ManagePower();
      if halted.Some? { return; }
      AnswerRead();
      CountDown();
    }

    method CountDown()
      requires Valid()
      modifies this`refreshCountdown
      ensures View() == old(View()).(refreshCountdown := DecrementAll(old(refreshCountdown))) && Valid()
    {
      CountDownRefreshes();
    }

    /** One update of the controller; its clock is stepped afterwards, with everyone else's. */
    method Update()
      requires Valid() && halted.None?
      modifies this, bankStates, commandQueue, ranks
      ensures Reached(ControllerCycle(cfg, old(View()))) && halted == ControllerCycle(cfg, old(View())).halted && backlog == old(backlog)
    {
      hide UpToPop, FromPop, Wired, System.Shape, RankViews;
      UpdateToPop();
      if halted.Some? { return; }
      UpdateFromPop();
    }
  }

  /** The controller's part of a cycle up to the call of pop. */
  function UpToPop(cfg: Config, s: System): (s': System)
    requires s.Shape(cfg)
    ensures s'.Shape(cfg)
  {
    var s1 := CommandPhase(cfg, TickPhase(cfg, s));
    if s1.halted.Some? then s1
    else
      var s2 := WritePhase(cfg, DataPhase(cfg, s1));
      if s2.halted.Some? then s2 else RefreshPhase(cfg, s2)
  }

  /** And from there to the end, but for the clock. */
  function FromPop(cfg: Config, s: System): (s': System)
    requires s.Shape(cfg)
    ensures s'.Shape(cfg)
  {
    var s1 := IssuePhase(cfg, s);
    if s1.halted.Some? then s1
    else
      var s2 := PowerFrom(cfg, SplitFrom(cfg, s1, 0), 0);
      if s2.halted.Some? then s2
      else
        var s3 := AnswerPhase(cfg, s2);
        s3.(refreshCountdown := DecrementAll(s3.refreshCountdown))
  }

  function ControllerCycle(cfg: Config, s: System): (s': System)
    requires s.Shape(cfg)
    ensures s'.Shape(cfg)
  {
    var m := UpToPop(cfg, s);
    if m.halted.Some? then m else FromPop(cfg, m)
  }

  lemma PowerStops(cfg: Config, s: System)
    requires s.Shape(cfg) && s.halted.Some?
    ensures PowerFrom(cfg, s, 0) == s
  {}

  lemma FirstHalfIsUpToPop(cfg: Config, s: System)
    requires s.Shape(cfg)
    ensures FirstHalf(cfg, s) == UpToPop(cfg, BacklogPhase(cfg, RanksPhase(cfg, s)))
  {
    hide RanksPhase, BacklogPhase, TickPhase, CommandPhase, DataPhase, WritePhase, RefreshPhase;
  }

  lemma SecondHalfIsFromPop(cfg: Config, s: System)
    requires s.Shape(cfg)
    ensures var c := FromPop(cfg, s); SecondHalf(cfg, s) == if c.halted.Some? then c else c.(now := c.now + 1)
  {
    hide IssuePhase, SplitFrom, PowerFrom;
  }

  /** A cycle of the system is the ranks' update, the backlog, the controller's update and the clock. */
  lemma CycleIsControllerCycle(cfg: Config, s: System)
    requires s.Shape(cfg)
    ensures var c := ControllerCycle(cfg, BacklogPhase(cfg, RanksPhase(cfg, s)));
      Cycle(cfg, s) == if c.halted.Some? then c else c.(now := c.now + 1)
  {
    hide FirstHalf, SecondHalf, UpToPop, FromPop, RanksPhase, BacklogPhase;
    FirstHalfIsUpToPop(cfg, s);
    SecondHalfIsFromPop(cfg, FirstHalf(cfg, s));
  }

  lemma ShapeWithQueue(cfg: Config, s: System, q: QueueState)
    requires s.Shape(cfg) && q.Shape(cfg)
    ensures s.(q := q).Shape(cfg)
  {}

  lemma PoppedIsCommand(cfg: Config, s: System)
    requires s.Shape(cfg)
    ensures var p := CommandQueueSpec.Pop(cfg, s.q, s.banks, s.now).1;
      p.Some? ==> p.value.rank < cfg.numRanks && p.value.bank < cfg.numBanks && !p.value.kind.Data?
  {
    hide Choose, TickWindow, Advance, Take;
    var (issue, q1) := Choose(cfg, s.q.(faw := TickWindows(s.q.faw)), s.banks, s.now);
    if issue.FromQueue? { assert InRange(cfg, s.q.queues[issue.rank][issue.slot], issue.rank); }
  }
}
