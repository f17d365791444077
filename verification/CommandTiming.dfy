/** How far apart any two commands are sent, over whole runs: each distance the timing parameters ask for. */
module CommandTiming {
  import opened DramTypes
  import opened CommandQueueSpec
  import opened BankTiming
  import opened ColumnSpacing
  import opened QueueInvariant
  import opened QueuePreservation
  import opened SystemSpec
  import opened Refinement
  import opened BusTiming
  import opened BankTables
  import opened ReadTimetable
  import opened PacketPlaces

  // ----- the distances -----

  /** From a command to the PRECHARGE of its bank. */
  function LeastToPrecharge(cfg: Config, p: BusPacket): int {
    match p.kind
    case Activate => cfg.tRAS
    case Read => cfg.al + cfg.bl / 2 + Max(cfg.tRTP, 2) - 2
    case Write => (cfg.cl + cfg.al - 1) + cfg.bl / 2 + cfg.tWR
    case _ => 0
  }

  /** Going down and up again makes a bank forget when it may be activated; it takes this long once it is closed. */
  function Detour(cfg: Config, plain: int, closed: int): int {
    if cfg.useLowPower then Min(plain, closed + Max(1, cfg.tCKE) + Max(1, cfg.tXP)) else plain
  }

  /** From an ACTIVATE until its row can be closed again. */
  function LeastOpen(cfg: Config): int {
    if cfg.policy.OpenPage? then cfg.tRAS
    else Reach(cfg) + Min(cfg.al + cfg.bl / 2 + Max(cfg.tRTP, 2) - 2, (cfg.cl + cfg.al - 1) + cfg.bl / 2 + cfg.tWR)
  }

  /** From a command to an ACTIVATE of its bank, or of another bank of its rank. */
  function LeastToActivate(cfg: Config, p: BusPacket, own: bool): int {
    match p.kind
    case Activate => Detour(cfg, if own then cfg.tRC else cfg.tRRD, LeastOpen(cfg) + cfg.tRP)
    case ReadP => if own then Detour(cfg, cfg.al + cfg.tRTP + cfg.tRP, cfg.al + cfg.bl / 2 + Max(cfg.tRTP, 2) - 2 + cfg.tRP) else 0
    case WriteP => if own then (cfg.cl + cfg.al - 1) + cfg.bl / 2 + cfg.tWR + cfg.tRP else 0
    case Precharge => if own then cfg.tRP else 0
    case Refresh => cfg.tRFC
    case _ => 0
  }

  /** How many cycles after command p command c is sent at least. A REFRESH waits for every bank of its rank. */
  function Least(cfg: Config, p: BusPacket, c: BusPacket): int {
    var sameRank := c.rank == p.rank;
    var own := sameRank && c.bank == p.bank;
    match c.kind
    case Activate => if sameRank then LeastToActivate(cfg, p, own) else 0
    case Refresh => if sameRank then LeastToActivate(cfg, p, true) else 0
    case Precharge => if own then LeastToPrecharge(cfg, p) else 0
    case Data => 0
    case _ => LeastToColumn(cfg, p, own, sameRank, c.kind.IsRead())
  }

  // ----- one bank: a whole cycle -----

  function MoveBank(cfg: Config, b: BankState, move: PowerMove, now: nat): BankState {
    match move
    case Stay => b
    case GoDown => b.(phase := PowerDown, nextPowerUp := now + cfg.tCKE)
    case GoUp => b.(phase := Idle, nextActivate := now + cfg.tXP)
  }

  function Once(cfg: Config, b: BankState, rank: nat, bank: nat, p: Option<BusPacket>, now: nat): BankState
    requires cfg.Valid()
  {
    if p.Some? then Sent(cfg, b, rank, bank, p.value, now) else b
  }

  /** From one call of pop to the next. */
  function BankAfter(cfg: Config, b: BankState, rank: nat, bank: nat, p: Option<BusPacket>, move: PowerMove, now: nat): BankState
    requires cfg.Valid()
  {
    TickBank(cfg, MoveBank(cfg, Once(cfg, b, rank, bank, p, now), move, now))
  }

  /** The command, if any is for this bank, suits it, and the power move fits it. */
  ghost predicate GoesOn(cfg: Config, b: BankState, accesses: nat, rank: nat, bank: nat, p: Option<BusPacket>, move: PowerMove, now: nat) {
    && cfg.Valid() && BankOk(cfg, b, accesses, now)
    && (p.Some? && rank == p.value.rank && (bank == p.value.bank || p.value.kind.Refresh?) ==> Suits(cfg, b, accesses, p.value, now))
    && var sent := Once(cfg, b, rank, bank, p, now);
       match move
       case Stay => true
       case GoDown => sent.phase.Idle? && sent.countdown == 0
       case GoUp => sent.phase.PowerDown? && sent.nextPowerUp <= now && sent.countdown == 0
  }

  lemma MoveSpaced(cfg: Config, b: BankState, move: PowerMove, forReads: bool, bound: int, now: nat)
    requires Spaced(cfg, TickBank(cfg, b), forReads, bound, now + 1)
    ensures Spaced(cfg, TickBank(cfg, MoveBank(cfg, b, move, now)), forReads, bound, now + 1)
  {}

  /** A bound for column commands stands. */
  lemma SpacedStands(cfg: Config, b: BankState, accesses: nat, rank: nat, bank: nat, p: Option<BusPacket>, move: PowerMove,
                     forReads: bool, bound: int, gap: int, now: nat)
    requires GoesOn(cfg, b, accesses, rank, bank, p, move, now)
    requires Kept(cfg, forReads, gap) && Spaced(cfg, b, forReads, bound, now) && bound <= now + gap
    ensures Spaced(cfg, BankAfter(cfg, b, rank, bank, p, move, now), forReads, bound, now + 1)
  {
    hide Sent, TickBank, MoveBank, Spaced, BankOk, Suits, Kept;
    if p.Some? { SpacedStays(cfg, b, accesses, rank, bank, p.value, forReads, bound, gap, now); }
    else { SpacedIdles(cfg, b, forReads, bound, now); }
    MoveSpaced(cfg, Once(cfg, b, rank, bank, p, now), move, forReads, bound, now);
  }

  /** A bound for the PRECHARGE stands. */
  lemma PrechargeStands(cfg: Config, b: BankState, rank: nat, bank: nat, p: Option<BusPacket>, move: PowerMove, now: nat)
    requires cfg.Valid()
    ensures BankAfter(cfg, b, rank, bank, p, move, now).nextPrecharge >= b.nextPrecharge
  {}

  /** A bound for ACTIVATEs stands, unless the rank is powered up. */
  lemma ActivateStands(cfg: Config, b: BankState, accesses: nat, rank: nat, bank: nat, p: Option<BusPacket>, move: PowerMove,
                       bound: int, now: nat)
    requires GoesOn(cfg, b, accesses, rank, bank, p, move, now)
    requires bound <= Max(b.nextActivate, now) && (move.GoUp? ==> bound <= now + Max(1, cfg.tXP))
    ensures bound <= Max(BankAfter(cfg, b, rank, bank, p, move, now).nextActivate, now + 1)
  {}

  /** When the bank can be activated at the earliest if its rank goes down and comes up again meanwhile. */
  function Comeback(cfg: Config, b: BankState, now: nat): int {
    var away := Max(1, cfg.tCKE) + Max(1, cfg.tXP);
    match b.phase
    case Idle => now + away
    case PowerDown => Max(b.nextPowerUp, now) + Max(1, cfg.tXP)
    case RowActive =>
      (if b.AutoPending() then now + b.countdown
       else if cfg.policy.OpenPage? then Max(b.nextPrecharge, now)
       else Max(Min(b.nextRead, b.nextWrite), now) + Min(cfg.ReadToPre(), cfg.WriteToPre())) + cfg.tRP + away
    case _ => now + b.countdown + away
  }

  /** Only a row about to close has a countdown while it is open, and none runs in an idle bank. */
  ghost predicate Sound(b: BankState) {
    && (b.phase.RowActive? && b.countdown > 0 ==> b.lastCommand.AutoPrecharges())
    && (b.phase.Idle? || b.phase.PowerDown? ==> b.countdown == 0)
    && (b.phase.Precharging? ==> b.lastCommand.Precharge?)
  }

  /** The command alone, before the power move and the countdown. */
  lemma ComebackSent(cfg: Config, b: BankState, accesses: nat, rank: nat, bank: nat, p: Option<BusPacket>, now: nat)
    requires GoesOn(cfg, b, accesses, rank, bank, p, Stay, now) && !(p.Some? && rank == p.value.rank && p.value.kind.Refresh?)
    ensures Comeback(cfg, Once(cfg, b, rank, bank, p, now), now) >= Comeback(cfg, b, now) && Sound(Once(cfg, b, rank, bank, p, now))
  {}

  /** The power move and the countdown. */
  lemma ComebackTicks(cfg: Config, b: BankState, move: PowerMove, now: nat)
    requires cfg.Valid() && Sound(b)
    requires match move case Stay => true case GoDown => b.phase.Idle? case GoUp => b.phase.PowerDown? && b.nextPowerUp <= now
    ensures Comeback(cfg, TickBank(cfg, MoveBank(cfg, b, move, now)), now + 1) >= Comeback(cfg, b, now)
  {}

  /** That time only moves on, unless the rank is refreshed. */
  lemma ComebackStands(cfg: Config, b: BankState, accesses: nat, rank: nat, bank: nat, p: Option<BusPacket>, move: PowerMove, now: nat)
    requires GoesOn(cfg, b, accesses, rank, bank, p, move, now)
    requires !(p.Some? && rank == p.value.rank && p.value.kind.Refresh?)
    ensures Comeback(cfg, BankAfter(cfg, b, rank, bank, p, move, now), now + 1) >= Comeback(cfg, b, now)
  {
    hide Comeback, Once, TickBank, MoveBank, Sound, BankOk, Suits;
    ComebackSent(cfg, b, accesses, rank, bank, p, now);
    ComebackTicks(cfg, Once(cfg, b, rank, bank, p, now), move, now);
  }

  /** A command to the bank's rank sets the bounds for the ACTIVATEs that follow it. */
  lemma ActivateStarts(cfg: Config, b: BankState, accesses: nat, bank: nat, p: BusPacket, now: nat)
    requires GoesOn(cfg, b, accesses, p.rank, bank, Some(p), Stay, now)
    ensures now + LeastToActivate(cfg, p, bank == p.bank) <= Max(BankAfter(cfg, b, p.rank, bank, Some(p), Stay, now).nextActivate, now + 1)
  {}

  lemma ComebackStarts(cfg: Config, b: BankState, accesses: nat, p: BusPacket, own: bool, now: nat)
    requires GoesOn(cfg, b, accesses, p.rank, p.bank, Some(p), Stay, now) && cfg.useLowPower
    ensures now + LeastToActivate(cfg, p, own) <= Comeback(cfg, BankAfter(cfg, b, p.rank, p.bank, Some(p), Stay, now), now + 1)
  {}

  lemma PrechargeStarts(cfg: Config, b: BankState, p: BusPacket, move: PowerMove, now: nat)
    requires cfg.Valid()
    ensures now + LeastToPrecharge(cfg, p) <= Max(BankAfter(cfg, b, p.rank, p.bank, Some(p), move, now).nextPrecharge, now + 1)
  {}

  // ----- what is owed to a command sent before -----

  /** The bank holds back every command that would come too soon after p, sent at time t; if its rank can go
      down, so does the bank that p went to. */
  ghost predicate Owes(cfg: Config, b: BankState, addressed: BankState, own: bool, sameRank: bool, p: BusPacket, t: nat, now: nat) {
    && Spaced(cfg, b, true, t + LeastToColumn(cfg, p, own, sameRank, true), now)
    && Spaced(cfg, b, false, t + LeastToColumn(cfg, p, own, sameRank, false), now)
    && (own ==> t + LeastToPrecharge(cfg, p) <= Max(b.nextPrecharge, now))
    && (sameRank ==> t + LeastToActivate(cfg, p, own) <= Max(b.nextActivate, now))
    && (sameRank && cfg.useLowPower ==> t + LeastToActivate(cfg, p, own) <= Comeback(cfg, addressed, now))
  }

  /** The command suits every bank of the rank it is for, and the power move fits them all. */
  ghost predicate RowGoesOn(cfg: Config, banks: BankRow, accesses: seq<nat>, rank: nat, c: Option<BusPacket>, move: PowerMove, now: nat) {
    && |accesses| == |banks| && (!cfg.useLowPower ==> move.Stay?)
    && forall b :: 0 <= b < |banks| ==> GoesOn(cfg, banks[b], accesses[b], rank, b, c, move, now)
  }

  function RowOnward(cfg: Config, banks: BankRow, rank: nat, c: Option<BusPacket>, move: PowerMove, now: nat): BankRow
    requires cfg.Valid()
  {
    seq(|banks|, b requires 0 <= b < |banks| => BankAfter(cfg, banks[b], rank, b, c, move, now))
  }

  ghost predicate RowOwes(cfg: Config, banks: BankRow, rank: nat, p: BusPacket, t: nat, now: nat) {
    && p.bank < |banks|
    && forall b :: 0 <= b < |banks| ==> Owes(cfg, banks[b], banks[p.bank], rank == p.rank && b == p.bank, rank == p.rank, p, t, now)
  }

  /** What is owed for ACTIVATEs, one cycle on. */
  lemma ActivateOwed(cfg: Config, banks: BankRow, accesses: seq<nat>, c: Option<BusPacket>, move: PowerMove, p: BusPacket, b: nat,
                     t: nat, now: nat)
    requires cfg.Valid() && RowGoesOn(cfg, banks, accesses, p.rank, c, move, now) && b < |banks| && p.bank < |banks|
    requires Owes(cfg, banks[b], banks[p.bank], b == p.bank, true, p, t, now)
    ensures var banks' := RowOnward(cfg, banks, p.rank, c, move, now);
      && t + LeastToActivate(cfg, p, b == p.bank) <= Max(banks'[b].nextActivate, now + 1)
      && (cfg.useLowPower ==> t + LeastToActivate(cfg, p, b == p.bank) <= Comeback(cfg, banks'[p.bank], now + 1))
  {
    hide Spaced, LeastToActivate, LeastToColumn, BankAfter, BankOk;
    assert GoesOn(cfg, banks[b], accesses[b], p.rank, b, c, move, now);
    assert GoesOn(cfg, banks[p.bank], accesses[p.bank], p.rank, p.bank, c, move, now);
    if c.Some? && c.value.rank == p.rank && c.value.kind.Refresh? {
      assert t + LeastToActivate(cfg, p, b == p.bank) <= now;
    } else {
      ComebackStands(cfg, banks[p.bank], accesses[p.bank], p.rank, p.bank, c, move, now);
    }
    ActivateStands(cfg, banks[b], accesses[b], p.rank, b, c, move, t + LeastToActivate(cfg, p, b == p.bank), now);
  }

  /** What is owed stays owed, one cycle on. */
  lemma RowStillOwes(cfg: Config, banks: BankRow, accesses: seq<nat>, rank: nat, c: Option<BusPacket>, move: PowerMove, p: BusPacket,
                     t: nat, now: nat)
    requires cfg.Valid() && RowGoesOn(cfg, banks, accesses, rank, c, move, now) && RowOwes(cfg, banks, rank, p, t, now) && t <= now
    ensures RowOwes(cfg, RowOnward(cfg, banks, rank, c, move, now), rank, p, t, now + 1)
  {
    hide GoesOn, Spaced, LeastToActivate, LeastToColumn, LeastToPrecharge, BankAfter, Comeback, Kept;
    var banks' := RowOnward(cfg, banks, rank, c, move, now);
    forall b | 0 <= b < |banks|
      ensures Owes(cfg, banks'[b], banks'[p.bank], rank == p.rank && b == p.bank, rank == p.rank, p, t, now + 1)
    {
      var own, sameRank := rank == p.rank && b == p.bank, rank == p.rank;
      assert Owes(cfg, banks[b], banks[p.bank], own, sameRank, p, t, now);
      LeastIsKept(cfg, p, own, sameRank, true);
      LeastIsKept(cfg, p, own, sameRank, false);
      SpacedStands(cfg, banks[b], accesses[b], rank, b, c, move, true, t + LeastToColumn(cfg, p, own, sameRank, true), LeastToColumn(cfg, p, own, sameRank, true), now);
      SpacedStands(cfg, banks[b], accesses[b], rank, b, c, move, false, t + LeastToColumn(cfg, p, own, sameRank, false), LeastToColumn(cfg, p, own, sameRank, false), now);
      PrechargeStands(cfg, banks[b], rank, b, c, move, now);
      if sameRank { ActivateOwed(cfg, banks, accesses, c, move, p, b, t, now); }
    }
  }

  /** A command sent now is owed its distances from the next cycle on. */
  lemma RowStartsOwing(cfg: Config, banks: BankRow, accesses: seq<nat>, rank: nat, p: BusPacket, move: PowerMove, now: nat)
    requires cfg.Valid() && RowGoesOn(cfg, banks, accesses, rank, Some(p), move, now) && p.bank < |banks|
    requires rank == p.rank ==> move.Stay?
    ensures RowOwes(cfg, RowOnward(cfg, banks, rank, Some(p), move, now), rank, p, now, now + 1)
  {
    hide Spaced, LeastToActivate, LeastToColumn, LeastToPrecharge, Comeback, Kept, Sent, TickBank, MoveBank, BankOk, Suits;
    var banks' := RowOnward(cfg, banks, rank, Some(p), move, now);
    forall b | 0 <= b < |banks|
      ensures Owes(cfg, banks'[b], banks'[p.bank], rank == p.rank && b == p.bank, rank == p.rank, p, now, now + 1)
    {
      assert GoesOn(cfg, banks[b], accesses[b], rank, b, Some(p), move, now);
      assert GoesOn(cfg, banks[p.bank], accesses[p.bank], rank, p.bank, Some(p), move, now);
      ColumnStarts(cfg, banks[b], accesses[b], rank, b, p, true, now);
      ColumnStarts(cfg, banks[b], accesses[b], rank, b, p, false, now);
      var sent := Sent(cfg, banks[b], rank, b, p, now);
      MoveSpaced(cfg, sent, move, true, now + LeastToColumn(cfg, p, rank == p.rank && b == p.bank, rank == p.rank, true), now);
      MoveSpaced(cfg, sent, move, false, now + LeastToColumn(cfg, p, rank == p.rank && b == p.bank, rank == p.rank, false), now);
      if rank == p.rank {
        ActivateStarts(cfg, banks[b], accesses[b], b, p, now);
        PrechargeStarts(cfg, banks[b], p, move, now);
        if cfg.useLowPower { ComebackStarts(cfg, banks[p.bank], accesses[p.bank], p, b == p.bank, now); }
      }
    }
  }

  /** A command that suits its banks keeps all the distances owed. */
  lemma SuitedIsInTime(cfg: Config, banks: BankRow, accesses: seq<nat>, p: BusPacket, t: nat, c: BusPacket, now: nat)
    requires RowOwes(cfg, banks, c.rank, p, t, now) && |accesses| == |banks| && c.bank < |banks| && t <= now
    requires forall b :: 0 <= b < |banks| && (b == c.bank || c.kind.Refresh?) ==> Suits(cfg, banks[b], accesses[b], c, now)
    ensures now - t >= Least(cfg, p, c)
  {
    hide Spaced, LeastToActivate, LeastToColumn, LeastToPrecharge, Comeback;
    var own, sameRank := c.rank == p.rank && c.bank == p.bank, c.rank == p.rank;
    assert Owes(cfg, banks[c.bank], banks[p.bank], own, sameRank, p, t, now);
    assert Owes(cfg, banks[p.bank], banks[p.bank], sameRank, sameRank, p, t, now);
    assert Suits(cfg, banks[c.bank], accesses[c.bank], c, now);
    if c.kind.IsColumn() {
      SuitedIsNotEarly(cfg, banks[c.bank], accesses[c.bank], c, t + LeastToColumn(cfg, p, own, sameRank, c.kind.IsRead()), now);
    }
  }

  // ----- a cycle -----

  lemma RowMoves(cfg: Config, banks: BankRow, accesses: seq<nat>, rank: nat, c: Option<BusPacket>, banks': BankRow, now: nat)
    returns (move: PowerMove)
    requires cfg.Valid() && RowAfter(cfg, banks, rank, c, banks', now) && |accesses| == |banks|
    requires forall b :: 0 <= b < |banks| ==> BankOk(cfg, banks[b], accesses[b], now)
    requires c.Some? && c.value.rank == rank ==> c.value.bank < |banks|
    requires c.Some? && c.value.rank == rank ==>
      forall b :: 0 <= b < |banks| && (b == c.value.bank || c.value.kind.Refresh?) ==> Suits(cfg, banks[b], accesses[b], c.value, now)
    ensures RowGoesOn(cfg, banks, accesses, rank, c, move, now) && (c.Some? && c.value.rank == rank ==> move.Stay?)
    ensures TickRow(cfg, banks') == RowOnward(cfg, banks, rank, c, move, now)
  {
    var sent := OnceSent(cfg, banks, rank, c, now);
    move :| Moved(cfg, sent, move, banks', now);
    hide Suits, TickBank, BankOk;
    forall b | 0 <= b < |banks| ensures GoesOn(cfg, banks[b], accesses[b], rank, b, c, move, now) {
      assert sent[b] == Once(cfg, banks[b], rank, b, c, now);
    }
    if c.Some? && c.value.rank == rank {
      SentPhase(cfg, banks[c.value.bank], accesses[c.value.bank], rank, c.value.bank, c.value, now);
      assert !sent[c.value.bank].phase.Idle? && !sent[c.value.bank].phase.PowerDown?;
    }
  }

  /** What a cycle does to the records of one rank, as pop finds them in this cycle and in the next. */
  lemma CycleGoesOn(cfg: Config, s: System, r: nat) returns (move: PowerMove)
    requires s.Shape(cfg) && Inv(cfg, s) && Buses(cfg, s) && Cycle(cfg, s).halted.None? && r < cfg.numRanks
    ensures var c := Cycle(cfg, s).outgoingCmd;
      && RowGoesOn(cfg, TickRow(cfg, s.banks[r]), s.q.rowAccess[r], r, c, move, s.now) && (c.Some? && c.value.rank == r ==> move.Stay?)
      && TickRow(cfg, Cycle(cfg, s).banks[r]) == RowOnward(cfg, TickRow(cfg, s.banks[r]), r, c, move, s.now)
  {
    hide Cycle, TickBank, BankOk, Suits, RowGoesOn, RowOnward, RankFollows, PowerAgrees, CommandOk, RowAfter, QueueOk, ReadsWillBeInTime;
    CycleTable(cfg, s, r);
    CycleSuits(cfg, s);
    assert RankOk(cfg, s.q.queues[r], ViewOf(s.q, TickTable(cfg, s.banks), r), s.now);
    move := RowMoves(cfg, TickRow(cfg, s.banks[r]), s.q.rowAccess[r], r, Cycle(cfg, s).outgoingCmd, Cycle(cfg, s).banks[r], s.now);
  }

  /** Every bank owes p, sent at time t, its distances. */
  ghost predicate AllOwe(cfg: Config, s: System, p: BusPacket, t: nat) {
    |s.banks| == cfg.numRanks && forall r :: 0 <= r < cfg.numRanks ==> RowOwes(cfg, TickRow(cfg, s.banks[r]), r, p, t, s.now)
  }

  lemma CycleStillOwes(cfg: Config, s: System, p: BusPacket, t: nat)
    requires s.Shape(cfg) && Inv(cfg, s) && Buses(cfg, s) && Cycle(cfg, s).halted.None? && AllOwe(cfg, s, p, t) && t <= s.now
    requires Cycle(cfg, s).now == s.now + 1
    ensures AllOwe(cfg, Cycle(cfg, s), p, t)
  {
    hide Cycle, Inv, Buses, TickRow, RowOwes, RowGoesOn, RowOnward;
    forall r | 0 <= r < cfg.numRanks ensures RowOwes(cfg, TickRow(cfg, Cycle(cfg, s).banks[r]), r, p, t, s.now + 1) {
      var move := CycleGoesOn(cfg, s, r);
      RowStillOwes(cfg, TickRow(cfg, s.banks[r]), s.q.rowAccess[r], r, Cycle(cfg, s).outgoingCmd, move, p, t, s.now);
    }
  }

  lemma CycleStartsOwing(cfg: Config, s: System)
    requires s.Shape(cfg) && Inv(cfg, s) && Buses(cfg, s) && Cycle(cfg, s).halted.None?
    requires Cycle(cfg, s).now == s.now + 1 && Cycle(cfg, s).outgoingCmd.Some?
    ensures AllOwe(cfg, Cycle(cfg, s), Cycle(cfg, s).outgoingCmd.value, s.now)
  {
    hide Cycle, Inv, Buses, RowOwes, RowGoesOn, RowOnward, TickBank;
    var p := Cycle(cfg, s).outgoingCmd.value;
    forall r | 0 <= r < cfg.numRanks ensures RowOwes(cfg, TickRow(cfg, Cycle(cfg, s).banks[r]), r, p, s.now, s.now + 1) {
      var move := CycleGoesOn(cfg, s, r);
      RowStartsOwing(cfg, TickRow(cfg, s.banks[r]), s.q.rowAccess[r], r, p, move, s.now);
    }
  }

  lemma CycleIsInTime(cfg: Config, s: System, p: BusPacket, t: nat)
    requires s.Shape(cfg) && Inv(cfg, s) && Buses(cfg, s) && Cycle(cfg, s).halted.None? && AllOwe(cfg, s, p, t) && t <= s.now
    requires Cycle(cfg, s).outgoingCmd.Some?
    ensures s.now - t >= Least(cfg, p, Cycle(cfg, s).outgoingCmd.value)
  {
    hide Cycle, Inv, Buses, TickBank, Least, Suits, Owes;
    CycleSuits(cfg, s);
    var c := Cycle(cfg, s).outgoingCmd.value;
    SuitedIsInTime(cfg, TickRow(cfg, s.banks[c.rank]), s.q.rowAccess[c.rank], p, t, c, s.now);
  }

  // ----- runs -----

  /** Step i of the run is a clock cycle and sends p. */
  ghost predicate SentAt(run: seq<System>, i: nat, p: BusPacket) {
    i + 1 < |run| && run[i+1].now == run[i].now + 1 && run[i+1].outgoingCmd == Some(p)
  }

  lemma StepStillOwes(cfg: Config, s: System, s': System, p: BusPacket, t: nat)
    requires s.Shape(cfg) && s'.Shape(cfg) && Inv(cfg, s) && Buses(cfg, s) && Step(cfg, s, s') && s'.halted.None?
    requires AllOwe(cfg, s, p, t) && t <= s.now
    ensures AllOwe(cfg, s', p, t)
  {
    hide Inv, Cycle, Buses, RowOwes;
    StepKeepsBuses(cfg, s, s');
    if s'.now == s.now + 1 { CycleStillOwes(cfg, s, p, t); }
  }

  lemma {:induction false} StaysOwed(cfg: Config, run: seq<System>, i: nat, j: nat, p: BusPacket)
    requires IsRun(cfg, run) && i < j < |run| && run[j].halted.None? && SentAt(run, i, p)
    ensures run[i].now < run[j].now && AllOwe(cfg, run[j], p, run[i].now)
    decreases j
  {
    hide IsRun, Inv, Step, Buses, System.Shape, AllOwe, Cycle;
    RunBusStep(cfg, run, j - 1);
    if i == j - 1 {
      StepKeepsBuses(cfg, run[i], run[j]);
      CycleStartsOwing(cfg, run[i]);
    } else {
      StaysOwed(cfg, run, i, j - 1, p);
      StepStillOwes(cfg, run[j-1], run[j], p, run[i].now);
    }
  }

  /** In every run, whatever the requests, the policies and the power mode: a command is sent at least its distance
      after each command sent before it. */
  lemma CommandsKeepTheirDistance(cfg: Config, run: seq<System>, i: nat, j: nat, p: BusPacket, c: BusPacket)
    requires IsRun(cfg, run) && i < j < |run| - 1 && run[j+1].halted.None? && SentAt(run, i, p) && SentAt(run, j, c)
    ensures run[j].now - run[i].now >= Least(cfg, p, c)
  {
    hide IsRun, Inv, Step, Buses, System.Shape, AllOwe, Least, Cycle;
    RunBusStep(cfg, run, j);
    StaysOwed(cfg, run, i, j, p);
    StepKeepsBuses(cfg, run[j], run[j+1]);
    CycleIsInTime(cfg, run[j], p, run[i].now);
  }

  predicate SameBank(p: BusPacket, c: BusPacket) { p.rank == c.rank && p.bank == c.bank }

  /** The distances by name around opening and closing a row. With the low-power mode tRC and tRRD hold under open
      page if tRAS and tRP together take that long anyway. */
  ghost predicate RowsApart(cfg: Config, p: BusPacket, c: BusPacket, d: int) {
    && (p.kind.Activate? && c.kind.IsColumn() && SameBank(p, c) ==> d >= cfg.tRCD - cfg.al)
    && (p.kind.Activate? && c.kind.Precharge? && SameBank(p, c) ==> d >= cfg.tRAS)
    && (p.kind.Read? && c.kind.Precharge? && SameBank(p, c) ==> d >= cfg.al + cfg.bl / 2 + Max(cfg.tRTP, 2) - 2)
    && (p.kind.Write? && c.kind.Precharge? && SameBank(p, c) ==> d >= (cfg.cl + cfg.al - 1) + cfg.bl / 2 + cfg.tWR)
    && (p.kind.Precharge? && c.kind.Activate? && SameBank(p, c) ==> d >= cfg.tRP)
    && (p.kind.ReadP? && c.kind.Activate? && SameBank(p, c) && !cfg.useLowPower ==> d >= cfg.al + cfg.tRTP + cfg.tRP)
    && (p.kind.WriteP? && c.kind.Activate? && SameBank(p, c) ==> d >= (cfg.cl + cfg.al - 1) + cfg.bl / 2 + cfg.tWR + cfg.tRP)
    && (p.kind.Refresh? && (c.kind.Activate? || c.kind.Refresh?) && p.rank == c.rank ==> d >= cfg.tRFC)
    && (p.kind.Activate? && c.kind.Activate? && p.rank == c.rank ==>
          var needed := if p.bank == c.bank then cfg.tRC else cfg.tRRD;
          !cfg.useLowPower || (cfg.policy.OpenPage? && needed <= cfg.tRAS + cfg.tRP) ==> d >= needed)
  }

  /** The distances by name between column commands to one rank: all of them under open page; under close page each
      one that closing the row and opening it again takes anyway, and BL/2 in any case. */
  ghost predicate ColumnsApart(cfg: Config, p: BusPacket, c: BusPacket, d: int) {
    var open := cfg.policy.OpenPage?;
    var afterRead, afterWrite := Reopening(cfg, true), Reopening(cfg, false);
    var burst, readLatency, writeLatency := cfg.bl / 2, cfg.cl + cfg.al, cfg.cl + cfg.al - 1;
    p.rank == c.rank && p.kind.IsColumn() && c.kind.IsColumn() ==>
      match (p.kind.IsRead(), c.kind.IsRead())
      case (false, true) => open || writeLatency + burst + cfg.tWTR <= afterWrite ==> d >= writeLatency + burst + cfg.tWTR
      case (true, false) =>
        open || readLatency + burst + cfg.tRTRS - writeLatency <= afterRead ==> d >= readLatency + burst + cfg.tRTRS - writeLatency
      case _ => d >= burst && (open || Max(cfg.tCCD, burst) <= Min(afterRead, afterWrite) ==> d >= Max(cfg.tCCD, burst))
  }

  lemma LeastByName(cfg: Config, p: BusPacket, c: BusPacket, d: int)
    requires cfg.Valid() && d >= Least(cfg, p, c)
    ensures RowsApart(cfg, p, c, d) && ColumnsApart(cfg, p, c, d)
  {
    if c.kind.IsColumn() { hide LeastToActivate, LeastToPrecharge; } else { hide LeastToColumn; }
  }

  /** In every run any two commands are as far apart as the parameters ask for, distance by distance. */
  lemma DistancesByName(cfg: Config, run: seq<System>, i: nat, j: nat, p: BusPacket, c: BusPacket)
    requires IsRun(cfg, run) && i < j < |run| - 1 && run[j+1].halted.None? && SentAt(run, i, p) && SentAt(run, j, c)
    ensures RowsApart(cfg, p, c, run[j].now - run[i].now) && ColumnsApart(cfg, p, c, run[j].now - run[i].now)
  {
    hide Least, RowsApart, ColumnsApart, SentAt, Step, Initial;
    assert cfg.Valid() by { assert run[0].Shape(cfg); }
    CommandsKeepTheirDistance(cfg, run, i, j, p, c);
    LeastByName(cfg, p, c, run[j].now - run[i].now);
  }
}
