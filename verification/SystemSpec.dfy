/** One clock cycle of the whole memory system, phase by phase, as functions of its fields. */
module SystemSpec {
  import opened DramTypes
  import opened CommandQueueSpec
  import opened BankTiming
  import opened RankSpec

  datatype Transaction = Transaction(isRead: bool, address: nat, id: int)

  /** The simulator's error exits. */
  datatype Error = RankRejectedCommand | CommandBusCollision | DataBusCollision | QueueOverflow
                 | PowerDownWhileBusy | PowerUpTooEarly

  datatype System = System(
    now: nat,
    q: QueueState, banks: Table, powerDown: seq<bool>, ranks: seq<RankState>,
    outgoingCmd: Option<BusPacket>, cmdCyclesLeft: nat,
    outgoingData: Option<BusPacket>, dataCyclesLeft: nat,
    writeDataToSend: seq<BusPacket>, writeDataCountdown: seq<nat>,
    refreshCountdown: seq<nat>, refreshRank: nat,
    overflow: seq<Transaction>, transactions: seq<Transaction>,
    pendingReads: seq<Transaction>, returned: seq<nat>,
    answered: Option<Transaction>, halted: Option<Error>)
  {
    ghost predicate Shape(cfg: Config) {
      && cfg.Valid() && q.Shape(cfg) && TableShape(cfg, banks)
      && |powerDown| == |ranks| == |refreshCountdown| == cfg.numRanks
      && refreshRank < cfg.numRanks
      && (forall r :: 0 <= r < |ranks| ==> |ranks[r].banks| == cfg.numBanks && Parallel(ranks[r]))
      && (outgoingCmd.Some? ==> outgoingCmd.value.rank < cfg.numRanks && outgoingCmd.value.bank < cfg.numBanks)
      && (outgoingData.Some? ==> outgoingData.value.rank < cfg.numRanks)
      && |writeDataToSend| == |writeDataCountdown|
      && (forall i :: 0 <= i < |writeDataToSend| ==> writeDataToSend[i].rank < cfg.numRanks)
    }
  }

  // ----- ranks, before the controller -----

  function Delivered(cfg: Config, ranks: seq<RankState>): seq<nat>
    requires forall r :: 0 <= r < |ranks| ==> Parallel(ranks[r])
  {
    if |ranks| == 0 then []
    else
      var last := Update(cfg, ranks[|ranks|-1]).1;
      Delivered(cfg, ranks[..|ranks|-1]) + if last.Some? then [last.value.address] else []
  }

  function RanksPhase(cfg: Config, s: System): (s': System)
    requires s.Shape(cfg)
    ensures s'.Shape(cfg)
  {
    s.(returned := s.returned + Delivered(cfg, s.ranks), answered := None,
       ranks := seq(|s.ranks|, r requires 0 <= r < |s.ranks| => Update(cfg, s.ranks[r]).0))
  }

  /** Transactions that did not fit earlier move up one per cycle. */
  function BacklogPhase(cfg: Config, s: System): (s': System)
    requires s.Shape(cfg)
    ensures s'.Shape(cfg)
  {
    if |s.overflow| > 0 && |s.transactions| < cfg.transQueueDepth then
      s.(transactions := s.transactions + [s.overflow[0]], overflow := s.overflow[1..])
    else s
  }

  // ----- the controller, up to the call of pop -----

  function TickPhase(cfg: Config, s: System): (s': System)
    requires s.Shape(cfg)
    ensures s'.Shape(cfg)
  {
    s.(banks := TickTable(cfg, s.banks))
  }

  /** The command bus: when its cycles are over the addressed rank receives the packet. */
  function CommandPhase(cfg: Config, s: System): (s': System)
    requires s.Shape(cfg)
    ensures s'.Shape(cfg)
  {
    if s.outgoingCmd.None? then s
    else
      var left := Decrement(s.cmdCyclesLeft);
      if left != 0 then s.(cmdCyclesLeft := left)
      else
        var p := s.outgoingCmd.value;
        var s1 := s.(outgoingCmd := None, cmdCyclesLeft := 0);
        if Accepts(cfg, s.ranks[p.rank], p, s.now) then
          s1.(ranks := s.ranks[p.rank := Receive(cfg, s.ranks[p.rank], p, s.now)])
        else s1.(halted := Some(RankRejectedCommand))
  }

  /** The write data bus: a packet that is done frees it. The rank's storage is not modelled. */
  function DataPhase(cfg: Config, s: System): (s': System)
    requires s.Shape(cfg)
    ensures s'.Shape(cfg)
  {
    if s.outgoingData.None? then s
    else
      var left := Decrement(s.dataCyclesLeft);
      if left != 0 then s.(dataCyclesLeft := left) else s.(outgoingData := None, dataCyclesLeft := 0)
  }

  function WritePhase(cfg: Config, s: System): (s': System)
    requires s.Shape(cfg)
    ensures s'.Shape(cfg)
  {
    var c := DecrementAll(s.writeDataCountdown);
    if |c| == 0 || c[0] != 0 then s.(writeDataCountdown := c)
    else if s.outgoingData.Some? then s.(writeDataCountdown := c, halted := Some(DataBusCollision))
    else s.(outgoingData := Some(s.writeDataToSend[0]), dataCyclesLeft := cfg.Burst(),
            writeDataToSend := s.writeDataToSend[1..], writeDataCountdown := c[1..])
  }

  function RefreshPhase(cfg: Config, s: System): (s': System)
    requires s.Shape(cfg)
    ensures s'.Shape(cfg)
  {
    var r := s.refreshRank;
    if s.refreshCountdown[r] == 0 then
      s.(q := s.q.(refreshWaiting := true, refreshRank := r),
         ranks := s.ranks[r := s.ranks[r].(refreshWaiting := true)],
         refreshCountdown := s.refreshCountdown[r := cfg.refreshInterval],
         refreshRank := if r + 1 == cfg.numRanks then 0 else r + 1)
    else if s.powerDown[r] && s.refreshCountdown[r] <= cfg.tXP then
      s.(ranks := s.ranks[r := s.ranks[r].(refreshWaiting := true)])
    else s
  }

  // ----- the controller, from pop on -----

  /** Send the popped command: schedule its write data, update the bank table, take the command bus. */
  function SendPhase(cfg: Config, s: System, p: BusPacket): (s': System)
    requires s.Shape(cfg) && p.rank < cfg.numRanks && p.bank < cfg.numBanks
    ensures s'.Shape(cfg)
  {
    var s1 :=
      if p.kind.IsWrite() then
        s.(writeDataToSend := s.writeDataToSend + [p.(kind := Data)],
           writeDataCountdown := s.writeDataCountdown + [cfg.WriteLatency()])
      else s;
    var s2 := s1.(banks := SentTable(cfg, s.banks, p, s.now));
    if s.outgoingCmd.Some? then s2.(halted := Some(CommandBusCollision))
    else s2.(outgoingCmd := Some(p), cmdCyclesLeft := cfg.tCMD)
  }

  function IssuePhase(cfg: Config, s: System): (s': System)
    requires s.Shape(cfg)
    ensures s'.Shape(cfg)
  {
    var (q', p) := Pop(cfg, s.q, s.banks, s.now);
    var s1 := s.(q := q');
    if p.None? then s1 else SendPhase(cfg, s1, p.value)
  }

  function HasRoomFor(cfg: Config, q: QueueState, n: nat, rank: nat, bank: nat): bool
    requires q.Shape(cfg) && rank < cfg.numRanks && bank < cfg.numBanks
  {
    var size := |q.queues[rank][cfg.SlotOf(bank)]|;
    size > cfg.cmdQueueDepth || cfg.cmdQueueDepth - size >= n
  }

  function Enqueue(cfg: Config, q: QueueState, p: BusPacket): (q': QueueState)
    requires q.Shape(cfg) && p.rank < cfg.numRanks && p.bank < cfg.numBanks
    requires p.kind.Activate? || p.kind.IsColumn()
    ensures q'.Shape(cfg)
  {
    var k := cfg.SlotOf(p.bank);
    q.(queues := q.queues[p.rank := q.queues[p.rank][k := q.queues[p.rank][k] + [p]]])
  }

  function ColumnKind(cfg: Config, isRead: bool): Kind {
    match (cfg.policy, isRead)
    case (OpenPage, true) => Read
    case (OpenPage, false) => Write
    case (ClosePage, true) => ReadP
    case (ClosePage, false) => WriteP
  }

  /** The ACTIVATE and the column command of a transaction. */
  function CommandsOf(cfg: Config, t: Transaction): (c: (BusPacket, BusPacket))
    requires cfg.Valid()
    ensures c.0.rank < cfg.numRanks && c.0.bank < cfg.numBanks && c.1 == c.0.(kind := ColumnKind(cfg, t.isRead))
    ensures c.0.kind.Activate? && c.0.address == t.address
  {
    var loc := cfg.locate(t.address);
    var a := BusPacket(Activate, t.address, loc.column, loc.row, loc.rank, loc.bank, t.id);
    (a, a.(kind := ColumnKind(cfg, t.isRead)))
  }

  /** Break up one transaction into commands. */
  function SplitOne(cfg: Config, s: System, i: nat): (s': System)
    requires s.Shape(cfg) && i < |s.transactions|
    ensures s'.Shape(cfg) && |s'.transactions| == |s.transactions| - 1
  {
    var t := s.transactions[i];
    var (a, c) := CommandsOf(cfg, t);
    var q' := Enqueue(cfg, Enqueue(cfg, s.q, a), c);
    var s1 := s.(q := q', transactions := s.transactions[..i] + s.transactions[i+1..],
                 pendingReads := if t.isRead then s.pendingReads + [t] else s.pendingReads);
    if |q'.queues[a.rank][cfg.SlotOf(a.bank)]| > cfg.cmdQueueDepth then s1.(halted := Some(QueueOverflow)) else s1
  }

  /** Transaction i is broken up if its queue has room for two commands. */
  function SplitAt(cfg: Config, s: System, i: nat): (s': System)
    requires s.Shape(cfg) && i < |s.transactions|
    ensures s'.Shape(cfg) && |s'.transactions| <= |s.transactions|
  {
    var (a, c) := CommandsOf(cfg, s.transactions[i]);
    if HasRoomFor(cfg, s.q, 2, a.rank, a.bank) then SplitOne(cfg, s, i) else s
  }

  /** Go through the transactions from index i. Erasing one moves the next to index i, which is then skipped. */
  function SplitFrom(cfg: Config, s: System, i: nat): (s': System)
    requires s.Shape(cfg)
    ensures s'.Shape(cfg)
    decreases |s.transactions| - i
  {
    if i >= |s.transactions| || s.halted.Some? then s else SplitFrom(cfg, SplitAt(cfg, s, i), i + 1)
  }

  predicate IsEmpty(cfg: Config, q: QueueState, rank: nat)
    requires q.Shape(cfg) && rank < cfg.numRanks
  {
    forall k :: 0 <= k < cfg.Slots() ==> q.queues[rank][k] == []
  }

  predicate AllIdle(banks: BankRow) { forall b :: 0 <= b < |banks| ==> banks[b].phase.Idle? }

  /** What the power manager decides for a rank. */
  datatype PowerMove = Stay | GoDown | GoUp

  function PowerMoveOf(cfg: Config, s: System, r: nat): PowerMove
    requires s.Shape(cfg) && r < cfg.numRanks
  {
    if !cfg.useLowPower then Stay
    else if IsEmpty(cfg, s.q, r) && !s.ranks[r].refreshWaiting then
      if AllIdle(s.banks[r]) then GoDown else Stay
    else if s.now >= s.banks[r][0].nextPowerUp && s.powerDown[r] then GoUp
    else Stay
  }

  function PowerBanks(cfg: Config, banks: BankRow, move: PowerMove, now: nat): (banks': BankRow)
    ensures |banks'| == |banks|
  {
    match move
    case Stay => banks
    case GoDown => seq(|banks|, b requires 0 <= b < |banks| => banks[b].(phase := PowerDown, nextPowerUp := now + cfg.tCKE))
    case GoUp => seq(|banks|, b requires 0 <= b < |banks| => banks[b].(phase := Idle, nextActivate := now + cfg.tXP))
  }

  function PowerRank(cfg: Config, s: System, r: nat): (s': System)
    requires s.Shape(cfg) && r < cfg.numRanks
    ensures s'.Shape(cfg)
  {
    var move := PowerMoveOf(cfg, s, r);
    match move
    case Stay => s
    case GoDown =>
      if MayPowerDown(s.ranks[r]) then
        s.(powerDown := s.powerDown[r := true], ranks := s.ranks[r := PoweredDown(cfg, s.ranks[r], s.now)],
           banks := s.banks[r := PowerBanks(cfg, s.banks[r], move, s.now)])
      else s.(halted := Some(PowerDownWhileBusy))
    case GoUp =>
      if MayPowerUp(s.ranks[r], s.now) then
        s.(powerDown := s.powerDown[r := false], ranks := s.ranks[r := PoweredUp(cfg, s.ranks[r], s.now)],
           banks := s.banks[r := PowerBanks(cfg, s.banks[r], move, s.now)])
      else s.(halted := Some(PowerUpTooEarly))
  }

  function PowerFrom(cfg: Config, s: System, r: nat): (s': System)
    requires s.Shape(cfg)
    ensures s'.Shape(cfg)
    decreases cfg.numRanks - r
  {
    if r >= cfg.numRanks || s.halted.Some? then s else PowerFrom(cfg, PowerRank(cfg, s, r), r + 1)
  }

  /** The first pending read of an address. */
  function FindPending(pending: seq<Transaction>, address: nat, i: nat): (r: nat)
    requires i <= |pending|
    ensures i <= r <= |pending|
    ensures r < |pending| ==> pending[r].address == address
    ensures forall j :: i <= j < r ==> pending[j].address != address
    decreases |pending| - i
  {
    if i == |pending| || pending[i].address == address then i else FindPending(pending, address, i + 1)
  }

  /** Answer one returned read: its pending transaction is called back and both leave. */
  function AnswerPhase(cfg: Config, s: System): (s': System)
    requires s.Shape(cfg)
    ensures s'.Shape(cfg)
  {
    if |s.returned| == 0 then s
    else
      var i := FindPending(s.pendingReads, s.returned[0], 0);
      var s1 := s.(returned := s.returned[1..]);
      if i == |s.pendingReads| then s1
      else s1.(answered := Some(s.pendingReads[i]), pendingReads := s.pendingReads[..i] + s.pendingReads[i+1..])
  }

  function ClockPhase(cfg: Config, s: System): (s': System)
    requires s.Shape(cfg)
    ensures s'.Shape(cfg)
  {
    s.(refreshCountdown := DecrementAll(s.refreshCountdown), now := s.now + 1)
  }

  // ----- the cycle -----

  /** From the start of a cycle to the moment pop is called. */
  function FirstHalf(cfg: Config, s: System): (s': System)
    requires s.Shape(cfg)
    ensures s'.Shape(cfg)
  {
    var s1 := CommandPhase(cfg, TickPhase(cfg, BacklogPhase(cfg, RanksPhase(cfg, s))));
    if s1.halted.Some? then s1
    else
      var s2 := WritePhase(cfg, DataPhase(cfg, s1));
      if s2.halted.Some? then s2 else RefreshPhase(cfg, s2)
  }

  /** From pop to the end of the cycle. */
  function SecondHalf(cfg: Config, s: System): (s': System)
    requires s.Shape(cfg)
    ensures s'.Shape(cfg)
  {
    var s1 := IssuePhase(cfg, s);
    if s1.halted.Some? then s1
    else
      var s2 := PowerFrom(cfg, SplitFrom(cfg, s1, 0), 0);
      if s2.halted.Some? then s2 else ClockPhase(cfg, AnswerPhase(cfg, s2))
  }

  function Cycle(cfg: Config, s: System): (s': System)
    requires s.Shape(cfg)
    ensures s'.Shape(cfg)
  {
    var s1 := FirstHalf(cfg, s);
    if s1.halted.Some? then s1 else SecondHalf(cfg, s1)
  }
}
