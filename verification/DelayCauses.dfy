/** The other half of the command timing: nothing is held back longer than the parameters ask for. Every earliest
    time in the controller's table, and every countdown, goes back to one command sent before. */
module DelayCauses {
  import opened DramTypes
  import opened CommandQueueSpec
  import opened BankTiming
  import opened ColumnSpacing
  import opened QueueInvariant
  import opened QueuePreservation
  import opened SystemSpec
  import opened Refinement
  import opened BusTiming
  import opened ReadTimetable
  import opened CommandTiming

  /** What a bank may be waiting for: its earliest times, the end of an open row that is about to close, and the
      end of closing or refreshing. */
  datatype Wait = ForRead | ForWrite | ForPrecharge | ForActivate | ForClosing | ForRest

  /** Command p makes the bank wait d cycles before it can be activated. */
  ghost predicate DelaysActivate(cfg: Config, p: BusPacket, own: bool, d: int) {
    match p.kind
    case Activate => d == if own then cfg.tRC else cfg.tRRD
    case ReadP => own && d == cfg.al + cfg.tRTP + cfg.tRP
    case WriteP => own && d == (cfg.cl + cfg.al - 1) + cfg.bl / 2 + cfg.tWR + cfg.tRP
    case Precharge => own && d == cfg.tRP
    case Refresh => d == cfg.tRFC
    case _ => false
  }

  /** Command p makes the bank wait d cycles. Under close page a bank whose row is closing waits for its next
      ACTIVATE with column commands, too. */
  ghost predicate Delays(cfg: Config, p: BusPacket, rank: nat, bank: nat, what: Wait, d: int) {
    var sameRank := p.rank == rank;
    var own := sameRank && p.bank == bank;
    var toPre := if p.kind.IsRead() then cfg.al + cfg.bl / 2 + Max(cfg.tRTP, 2) - 2 else (cfg.cl + cfg.al - 1) + cfg.bl / 2 + cfg.tWR;
    match what
    case ForPrecharge => own && ((p.kind.Activate? && d == cfg.tRAS) || ((p.kind.Read? || p.kind.Write?) && d == toPre))
    case ForActivate => sameRank && DelaysActivate(cfg, p, own, d)
    case ForClosing => own && p.kind.AutoPrecharges() && d == toPre
    case ForRest =>
      || (own && p.kind.AutoPrecharges() && d == toPre + cfg.tRP)
      || (own && p.kind.Precharge? && d == cfg.tRP) || (sameRank && p.kind.Refresh? && d == cfg.tRFC)
    case _ =>
      || (own && p.kind.Activate? && d == cfg.tRCD - cfg.al)
      || (p.kind.IsColumn() && d == DataGap(cfg, p.kind.IsRead(), what.ForRead?, sameRank))
      || (cfg.policy.ClosePage? && sameRank && DelaysActivate(cfg, p, own, d))
  }

  // ----- one bank -----

  /** The time is as before, or the command just sent asks for it, or the power-up does. */
  ghost predicate Sourced(cfg: Config, was: int, v: int, rank: nat, bank: nat, c: Option<BusPacket>, move: PowerMove, what: Wait, now: nat) {
    || v == was
    || (c.Some? && Delays(cfg, c.value, rank, bank, what, v - now))
    || (move.GoUp? && what.ForActivate? && v == now + cfg.tXP)
  }

  lemma PrechargeSourced(cfg: Config, b: BankState, accesses: nat, rank: nat, bank: nat, c: Option<BusPacket>, move: PowerMove, now: nat)
    requires GoesOn(cfg, b, accesses, rank, bank, c, move, now)
    ensures var b' := BankAfter(cfg, b, rank, bank, c, move, now);
      Sourced(cfg, b.nextPrecharge, b'.nextPrecharge, rank, bank, c, move, ForPrecharge, now)
  {
    hide DataGap, BankOk, DelaysActivate;
  }

  lemma ActivateSourced(cfg: Config, b: BankState, accesses: nat, rank: nat, bank: nat, c: Option<BusPacket>, move: PowerMove, now: nat)
    requires GoesOn(cfg, b, accesses, rank, bank, c, move, now)
    ensures var b' := BankAfter(cfg, b, rank, bank, c, move, now);
      Sourced(cfg, b.nextActivate, b'.nextActivate, rank, bank, c, move, ForActivate, now)
  {
    hide DataGap, BankOk;
  }

  function ColumnTime(b: BankState, isRead: bool): nat { if isRead then b.nextRead else b.nextWrite }

  function ForColumn(isRead: bool): Wait { if isRead then ForRead else ForWrite }

  lemma OwnColumnSourced(cfg: Config, b: BankState, p: BusPacket, isRead: bool, now: nat)
    requires cfg.Valid() && p.kind.IsColumn() && (p.kind.AutoPrecharges() ==> cfg.policy.ClosePage?)
    ensures var v := ColumnTime(Sent(cfg, b, p.rank, p.bank, p, now), isRead);
      || v == ColumnTime(b, isRead) || Delays(cfg, p, p.rank, p.bank, ForColumn(isRead), v - now)
      || (cfg.policy.ClosePage? && v == b.nextActivate)
  {}

  lemma ColumnTimeSourced(cfg: Config, b: BankState, accesses: nat, rank: nat, bank: nat, c: Option<BusPacket>, move: PowerMove,
                          isRead: bool, now: nat)
    requires GoesOn(cfg, b, accesses, rank, bank, c, move, now)
    ensures var v := ColumnTime(BankAfter(cfg, b, rank, bank, c, move, now), isRead);
      || Sourced(cfg, ColumnTime(b, isRead), v, rank, bank, c, move, ForColumn(isRead), now)
      || (cfg.policy.ClosePage? && v == b.nextActivate)
  {
    hide BankTiming.OwnColumn, BankOk;
    if c.Some? && c.value.kind.IsColumn() && rank == c.value.rank && bank == c.value.bank {
      hide Sent, Delays;
      OwnColumnSourced(cfg, b, c.value, isRead, now);
    }
  }

  /** The end of the running countdown: the row closes then, or the bank is idle then. */
  function Ending(b: BankState, now: nat): int { now + b.countdown }

  function Stage(b: BankState): Wait { if b.phase.RowActive? then ForClosing else ForRest }

  /** A countdown runs on, or its second part starts, or the command just sent starts it. */
  lemma CountdownSourced(cfg: Config, b: BankState, accesses: nat, rank: nat, bank: nat, c: Option<BusPacket>, move: PowerMove, now: nat)
    requires GoesOn(cfg, b, accesses, rank, bank, c, move, now)
    ensures var b' := BankAfter(cfg, b, rank, bank, c, move, now);
      b'.countdown > 0 ==>
        || (c.Some? && Delays(cfg, c.value, rank, bank, Stage(b'), Ending(b', now + 1) - now))
        || (b.countdown > 0 && Stage(b') == Stage(b) && Ending(b', now + 1) == Ending(b, now))
        || (b.countdown > 0 && Stage(b).ForClosing? && Stage(b').ForRest? && Ending(b', now + 1) == Ending(b, now) + cfg.tRP)
  {}

  // ----- runs -----

  /** The record of a bank as the next call of pop will find it. */
  function Record(cfg: Config, s: System, rank: nat, bank: nat): BankState
    requires rank < |s.banks| && bank < |s.banks[rank]|
  {
    TickBank(cfg, s.banks[rank][bank])
  }

  ghost predicate HasBank(run: seq<System>, j: nat, rank: nat, bank: nat) {
    j < |run| && rank < |run[j].banks| && bank < |run[j].banks[rank]|
  }

  /** Step i sends p, which makes the bank wait until v. */
  ghost predicate CausedAt(cfg: Config, run: seq<System>, i: nat, p: BusPacket, rank: nat, bank: nat, what: Wait, v: int) {
    SentAt(run, i, p) && Delays(cfg, p, rank, bank, what, v - run[i].now)
  }

  /** Step i powers the bank up, and it can be activated tXP cycles later. */
  ghost predicate WokenAt(cfg: Config, run: seq<System>, i: nat, rank: nat, bank: nat, v: int) {
    && HasBank(run, i, rank, bank) && HasBank(run, i + 1, rank, bank) && run[i+1].now == run[i].now + 1
    && Record(cfg, run[i], rank, bank).phase.PowerDown? && Record(cfg, run[i+1], rank, bank).phase.Idle?
    && v == run[i].now + cfg.tXP
  }

  predicate WaitsForActivate(cfg: Config, what: Wait) { what.ForActivate? || (cfg.policy.ClosePage? && (what.ForRead? || what.ForWrite?)) }

  /** One of the first j steps is the cause of the bank's waiting until v. */
  ghost predicate Explained(cfg: Config, run: seq<System>, j: nat, rank: nat, bank: nat, what: Wait, v: int) {
    || v == 0
    || (exists i: nat, p: BusPacket :: i < j && CausedAt(cfg, run, i, p, rank, bank, what, v))
    || (WaitsForActivate(cfg, what) && exists i: nat :: i < j && WokenAt(cfg, run, i, rank, bank, v))
  }

  ghost predicate RecordExplained(cfg: Config, run: seq<System>, j: nat, rank: nat, bank: nat) {
    && HasBank(run, j, rank, bank)
    && var b := Record(cfg, run[j], rank, bank);
       && Explained(cfg, run, j, rank, bank, ForRead, b.nextRead) && Explained(cfg, run, j, rank, bank, ForWrite, b.nextWrite)
       && Explained(cfg, run, j, rank, bank, ForPrecharge, b.nextPrecharge) && Explained(cfg, run, j, rank, bank, ForActivate, b.nextActivate)
       && (b.countdown > 0 ==> Explained(cfg, run, j, rank, bank, Stage(b), Ending(b, run[j].now)))
  }

  /** The step from run[j]: sends c, moves the bank's rank, and takes its record from b to b'. */
  ghost predicate BankStepAt(cfg: Config, run: seq<System>, j: nat, rank: nat, bank: nat, accesses: nat, c: Option<BusPacket>, move: PowerMove) {
    && HasBank(run, j, rank, bank) && HasBank(run, j + 1, rank, bank) && run[j+1].now == run[j].now + 1 && run[j+1].outgoingCmd == c
    && GoesOn(cfg, Record(cfg, run[j], rank, bank), accesses, rank, bank, c, move, run[j].now)
    && Record(cfg, run[j+1], rank, bank) == BankAfter(cfg, Record(cfg, run[j], rank, bank), rank, bank, c, move, run[j].now)
  }

  lemma WokenNow(cfg: Config, run: seq<System>, j: nat, rank: nat, bank: nat, accesses: nat, c: Option<BusPacket>, move: PowerMove)
    requires BankStepAt(cfg, run, j, rank, bank, accesses, c, move) && move.GoUp?
    ensures WokenAt(cfg, run, j, rank, bank, run[j].now + cfg.tXP)
  {
    hide BankOk, Suits;
  }

  lemma SourcedIsExplained(cfg: Config, run: seq<System>, j: nat, rank: nat, bank: nat, accesses: nat, c: Option<BusPacket>,
                           move: PowerMove, what: Wait, was: int, v: int)
    requires BankStepAt(cfg, run, j, rank, bank, accesses, c, move) && Explained(cfg, run, j, rank, bank, what, was)
    requires Sourced(cfg, was, v, rank, bank, c, move, what, run[j].now)
    ensures Explained(cfg, run, j + 1, rank, bank, what, v)
  {
    hide Delays, GoesOn, BankAfter, Record;
    if v == was {
    } else if c.Some? && Delays(cfg, c.value, rank, bank, what, v - run[j].now) {
      assert CausedAt(cfg, run, j, c.value, rank, bank, what, v);
    } else {
      WokenNow(cfg, run, j, rank, bank, accesses, c, move);
    }
  }

  /** What holds back an ACTIVATE may, under close page, hold back a column command. */
  lemma ActivateExplainsColumn(cfg: Config, run: seq<System>, j: nat, rank: nat, bank: nat, isRead: bool, v: int)
    requires Explained(cfg, run, j, rank, bank, ForActivate, v) && cfg.policy.ClosePage?
    ensures Explained(cfg, run, j + 1, rank, bank, ForColumn(isRead), v)
  {
    hide WokenAt, DataGap, DelaysActivate;
    if i: nat, p: BusPacket :| i < j && CausedAt(cfg, run, i, p, rank, bank, ForActivate, v) {
      assert CausedAt(cfg, run, i, p, rank, bank, ForColumn(isRead), v);
    }
  }

  /** A closed row is precharged for tRP more cycles. */
  lemma ClosingExplainsRest(cfg: Config, run: seq<System>, j: nat, rank: nat, bank: nat, v: int)
    requires Explained(cfg, run, j, rank, bank, ForClosing, v) && v > 0
    ensures Explained(cfg, run, j + 1, rank, bank, ForRest, v + cfg.tRP)
  {
    var i: nat, p: BusPacket :| i < j && CausedAt(cfg, run, i, p, rank, bank, ForClosing, v);
    assert CausedAt(cfg, run, i, p, rank, bank, ForRest, v + cfg.tRP);
  }

  lemma ColumnTimeExplained(cfg: Config, run: seq<System>, j: nat, rank: nat, bank: nat, accesses: nat, c: Option<BusPacket>,
                            move: PowerMove, isRead: bool)
    requires BankStepAt(cfg, run, j, rank, bank, accesses, c, move) && RecordExplained(cfg, run, j, rank, bank)
    ensures Explained(cfg, run, j + 1, rank, bank, ForColumn(isRead), ColumnTime(Record(cfg, run[j+1], rank, bank), isRead))
  {
    hide Explained, Sourced, GoesOn, BankAfter;
    var b, b' := Record(cfg, run[j], rank, bank), Record(cfg, run[j+1], rank, bank);
    ColumnTimeSourced(cfg, b, accesses, rank, bank, c, move, isRead, run[j].now);
    if Sourced(cfg, ColumnTime(b, isRead), ColumnTime(b', isRead), rank, bank, c, move, ForColumn(isRead), run[j].now) {
      SourcedIsExplained(cfg, run, j, rank, bank, accesses, c, move, ForColumn(isRead), ColumnTime(b, isRead), ColumnTime(b', isRead));
    } else {
      ActivateExplainsColumn(cfg, run, j, rank, bank, isRead, b.nextActivate);
    }
  }

  lemma CountdownExplained(cfg: Config, run: seq<System>, j: nat, rank: nat, bank: nat, accesses: nat, c: Option<BusPacket>, move: PowerMove)
    requires BankStepAt(cfg, run, j, rank, bank, accesses, c, move) && RecordExplained(cfg, run, j, rank, bank)
    requires Record(cfg, run[j+1], rank, bank).countdown > 0
    ensures var b' := Record(cfg, run[j+1], rank, bank); Explained(cfg, run, j + 1, rank, bank, Stage(b'), Ending(b', run[j+1].now))
  {
    hide Delays, GoesOn, BankAfter, Record, WokenAt;
    var b, b' := Record(cfg, run[j], rank, bank), Record(cfg, run[j+1], rank, bank);
    CountdownSourced(cfg, b, accesses, rank, bank, c, move, run[j].now);
    if c.Some? && Delays(cfg, c.value, rank, bank, Stage(b'), Ending(b', run[j+1].now) - run[j].now) {
      assert CausedAt(cfg, run, j, c.value, rank, bank, Stage(b'), Ending(b', run[j+1].now));
    } else if Stage(b') != Stage(b) {
      ClosingExplainsRest(cfg, run, j, rank, bank, Ending(b, run[j].now));
    }
  }

  lemma BankStaysExplained(cfg: Config, run: seq<System>, j: nat, rank: nat, bank: nat, accesses: nat, c: Option<BusPacket>, move: PowerMove)
    requires BankStepAt(cfg, run, j, rank, bank, accesses, c, move) && RecordExplained(cfg, run, j, rank, bank)
    ensures RecordExplained(cfg, run, j + 1, rank, bank)
  {
    hide Explained, Sourced, GoesOn, BankAfter;
    var b, b' := Record(cfg, run[j], rank, bank), Record(cfg, run[j+1], rank, bank);
    PrechargeSourced(cfg, b, accesses, rank, bank, c, move, run[j].now);
    ActivateSourced(cfg, b, accesses, rank, bank, c, move, run[j].now);
    SourcedIsExplained(cfg, run, j, rank, bank, accesses, c, move, ForPrecharge, b.nextPrecharge, b'.nextPrecharge);
    SourcedIsExplained(cfg, run, j, rank, bank, accesses, c, move, ForActivate, b.nextActivate, b'.nextActivate);
    ColumnTimeExplained(cfg, run, j, rank, bank, accesses, c, move, true);
    ColumnTimeExplained(cfg, run, j, rank, bank, accesses, c, move, false);
    if b'.countdown > 0 { CountdownExplained(cfg, run, j, rank, bank, accesses, c, move); }
  }

  lemma StepExplained(cfg: Config, run: seq<System>, j: nat, rank: nat, bank: nat)
    requires IsRun(cfg, run) && j + 1 < |run| && run[j+1].halted.None? && rank < cfg.numRanks && bank < cfg.numBanks
    requires RecordExplained(cfg, run, j, rank, bank)
    ensures RecordExplained(cfg, run, j + 1, rank, bank)
  {
    hide Inv, Buses, Cycle, Explained, GoesOn, BankAfter, Initial, TickBank;
    RunBusStep(cfg, run, j);
    StepKeepsBuses(cfg, run[j], run[j+1]);
    if run[j+1].now == run[j].now + 1 {
      var move := CycleGoesOn(cfg, run[j], rank);
      CycleRecord(cfg, run, j, rank, bank, move);
      BankStaysExplained(cfg, run, j, rank, bank, run[j].q.rowAccess[rank][bank], run[j+1].outgoingCmd, move);
    } else {
      SameRecordExplained(cfg, run, j, rank, bank);
    }
  }

  lemma CycleRecord(cfg: Config, run: seq<System>, j: nat, rank: nat, bank: nat, move: PowerMove)
    requires cfg.Valid() && HasBank(run, j, rank, bank) && HasBank(run, j + 1, rank, bank) && run[j+1].now == run[j].now + 1
    requires rank < |run[j].q.rowAccess| && bank < |run[j].q.rowAccess[rank]|
    requires RowGoesOn(cfg, TickRow(cfg, run[j].banks[rank]), run[j].q.rowAccess[rank], rank, run[j+1].outgoingCmd, move, run[j].now)
    requires TickRow(cfg, run[j+1].banks[rank]) == RowOnward(cfg, TickRow(cfg, run[j].banks[rank]), rank, run[j+1].outgoingCmd, move, run[j].now)
    ensures BankStepAt(cfg, run, j, rank, bank, run[j].q.rowAccess[rank][bank], run[j+1].outgoingCmd, move)
  {
    hide TickBank, GoesOn, BankAfter;
    assert Record(cfg, run[j+1], rank, bank) == TickRow(cfg, run[j+1].banks[rank])[bank];
  }

  lemma SameRecordExplained(cfg: Config, run: seq<System>, j: nat, rank: nat, bank: nat)
    requires RecordExplained(cfg, run, j, rank, bank) && HasBank(run, j + 1, rank, bank)
    requires run[j+1].banks == run[j].banks && run[j+1].now == run[j].now
    ensures RecordExplained(cfg, run, j + 1, rank, bank)
  {
    hide CausedAt, WokenAt, TickBank;
  }

  lemma FirstRecord(cfg: Config, run: seq<System>, rank: nat, bank: nat)
    requires IsRun(cfg, run) && rank < cfg.numRanks && bank < cfg.numBanks
    ensures RecordExplained(cfg, run, 0, rank, bank)
  {
    assert run[0].Shape(cfg) && run[0].banks[rank][bank] == INITIAL_BANK;
  }

  /** In every run each bank's record is explained by the commands sent and the power-ups so far. */
  lemma {:induction false} AlwaysExplained(cfg: Config, run: seq<System>, j: nat, rank: nat, bank: nat)
    requires IsRun(cfg, run) && j < |run| && run[j].halted.None? && rank < cfg.numRanks && bank < cfg.numBanks
    ensures RecordExplained(cfg, run, j, rank, bank)
    decreases j
  {
    hide RecordExplained, Step, Initial, System.Shape;
    if j == 0 {
      FirstRecord(cfg, run, rank, bank);
    } else {
      AlwaysExplained(cfg, run, j - 1, rank, bank);
      StepExplained(cfg, run, j - 1, rank, bank);
    }
  }

  function WaitOf(kind: Kind): Wait {
    if kind.IsRead() then ForRead else if kind.IsWrite() then ForWrite else if kind.Precharge? then ForPrecharge else ForActivate
  }

  /** Some step's command, or power-up, makes the bank wait for longer than the first j steps took. */
  ghost predicate StillHeld(cfg: Config, run: seq<System>, j: nat, rank: nat, bank: nat, what: Wait)
    requires j < |run|
  {
    exists v: int :: v > run[j].now && Explained(cfg, run, j, rank, bank, what, v)
  }

  /** The record, the window or the access counter does not fit the packet, whatever the time. */
  predicate Unfit(cfg: Config, v: RankView, c: BusPacket)
    requires c.bank < |v.banks| && c.bank < |v.accesses|
  {
    var b := v.banks[c.bank];
    match c.kind
    case Activate => (!b.phase.Idle? && !b.phase.Refreshing?) || v.activates >= 4
    case Precharge => !b.phase.RowActive?
    case _ => !b.phase.RowActive? || b.openRow != c.row || v.accesses[c.bank] >= cfg.totalRowAccesses
  }

  /** In every run a packet that may not be sent does not fit the bank's record, the rank's window or the row's counter,
      or else a command sent before, or a power-up, asks for just that: one of their delays is not over. */
  lemma HeldBackForAReason(cfg: Config, run: seq<System>, j: nat, c: BusPacket, v: RankView)
    requires IsRun(cfg, run) && j < |run| && run[j].halted.None? && c.rank < cfg.numRanks && c.bank < cfg.numBanks
    requires HasBank(run, j, c.rank, c.bank) && v.banks == TickRow(cfg, run[j].banks[c.rank]) && c.bank < |v.accesses|
    requires c.kind.Activate? || c.kind.Precharge? || c.kind.IsColumn()
    requires !IsIssuable(cfg, v, c, run[j].now)
    ensures Unfit(cfg, v, c) || StillHeld(cfg, run, j, c.rank, c.bank, WaitOf(c.kind))
  {
    hide IsRun, Explained, TickBank;
    AlwaysExplained(cfg, run, j, c.rank, c.bank);
    var b := Record(cfg, run[j], c.rank, c.bank);
    assert v.banks[c.bank] == b;
    match WaitOf(c.kind)
    case ForRead => assert Explained(cfg, run, j, c.rank, c.bank, ForRead, b.nextRead);
    case ForWrite => assert Explained(cfg, run, j, c.rank, c.bank, ForWrite, b.nextWrite);
    case ForPrecharge => assert Explained(cfg, run, j, c.rank, c.bank, ForPrecharge, b.nextPrecharge);
    case ForActivate => assert Explained(cfg, run, j, c.rank, c.bank, ForActivate, b.nextActivate);
  }

  /** In every run a bank that is neither idle, nor powered down, nor open for use is closing, precharging or
      refreshing because of a command whose time is not over. */
  lemma BusyForAReason(cfg: Config, run: seq<System>, j: nat, rank: nat, bank: nat)
    requires IsRun(cfg, run) && j < |run| && run[j].halted.None? && rank < cfg.numRanks && bank < cfg.numBanks
    requires HasBank(run, j, rank, bank)
    ensures var b := Record(cfg, run[j], rank, bank);
      b.phase.Idle? || b.phase.PowerDown? || b.Usable() || StillHeld(cfg, run, j, rank, bank, Stage(b))
  {
    RanksNeverReject(cfg, run, j);
    AlwaysExplained(cfg, run, j, rank, bank);
    hide IsRun, Explained, RankFollows, PowerAgrees, CommandOk, QueueOk;
    var s := run[j];
    var t := TickTable(cfg, s.banks);
    assert RankOk(cfg, s.q.queues[rank], ViewOf(s.q, t, rank), s.now);
    var b := Record(cfg, s, rank, bank);
    assert t[rank][bank] == b && BankOk(cfg, b, s.q.rowAccess[rank][bank], s.now);
    if b.countdown > 0 { assert Explained(cfg, run, j, rank, bank, Stage(b), Ending(b, s.now)); }
  }
}
