/** How column commands are kept apart by the records of single banks. */
module ColumnSpacing {
  import opened DramTypes
  import opened BankTiming
  import opened QueueInvariant
  import opened QueuePreservation

  // ----- the distances -----

  /** How long it takes at least from an ACTIVATE to a column command. */
  function Reach(cfg: Config): nat { Max(1, cfg.tRCD - cfg.al) }

  /** The data buses: from one column command to another, of these directions, to the same or another rank. */
  function DataGap(cfg: Config, firstIsRead: bool, isRead: bool, sameRank: bool): int {
    match (firstIsRead, isRead)
    case (true, false) => (cfg.cl + cfg.al) + cfg.bl / 2 + cfg.tRTRS - (cfg.cl + cfg.al - 1)
    case (false, true) =>
      if sameRank then (cfg.cl + cfg.al - 1) + cfg.bl / 2 + cfg.tWTR
      else (cfg.cl + cfg.al - 1) + cfg.bl / 2 + cfg.tRTRS - (cfg.cl + cfg.al)
    case _ => if sameRank then Max(cfg.tCCD, cfg.bl / 2) else cfg.bl / 2 + cfg.tRTRS
  }

  /** From a column command that closes its row to the next column command that can follow in that bank. */
  function Reopening(cfg: Config, afterRead: bool): int {
    if afterRead then Max(cfg.al + cfg.tRTP + cfg.tRP, (cfg.al + cfg.bl / 2 + Max(cfg.tRTP, 2) - 2) + Reach(cfg))
    else (cfg.cl + cfg.al - 1) + cfg.bl / 2 + cfg.tWR + Max(cfg.tRP, Reach(cfg))
  }

  /** From a command to a column command. Under close page a bank forgets the distance when its row is closed by
      a column command of the other direction; a closed bank of another rank is not told of it at all. */
  function LeastToColumn(cfg: Config, p: BusPacket, own: bool, sameRank: bool, isRead: bool): int {
    if p.kind.Activate? then if own then cfg.tRCD - cfg.al else 0
    else if !p.kind.IsColumn() then 0
    else
      var gap := DataGap(cfg, p.kind.IsRead(), isRead, sameRank);
      var kept := if cfg.policy.OpenPage? then gap else Min(gap, Min(Reopening(cfg, p.kind.IsRead()), Reopening(cfg, !isRead)));
      if sameRank then kept else Min(kept, 1 + Reach(cfg))
  }

  // ----- the records -----

  /** How long the bank cannot take a column command because its row is closing or closed. */
  function Reopens(cfg: Config, b: BankState): nat {
    (if b.lastCommand.AutoPrecharges() then b.countdown else 0) + if b.Usable() then 0 else Reach(cfg)
  }

  /** No column command of this direction can go to the bank before `bound`: the record says so itself,
      or there is no open row until then. */
  ghost predicate Spaced(cfg: Config, b: BankState, forReads: bool, bound: int, now: nat) {
    bound <= Max(if forReads then b.nextRead else b.nextWrite, now + Reopens(cfg, b))
  }

  lemma SpacedIdles(cfg: Config, b: BankState, forReads: bool, bound: int, now: nat)
    requires cfg.Valid() && Spaced(cfg, b, forReads, bound, now)
    ensures Spaced(cfg, TickBank(cfg, b), forReads, bound, now + 1)
  {}

  /** A column command that suits its bank is not early. */
  lemma SuitedIsNotEarly(cfg: Config, b: BankState, accesses: nat, p: BusPacket, bound: int, now: nat)
    requires p.kind.IsColumn() && Suits(cfg, b, accesses, p, now) && Spaced(cfg, b, p.kind.IsRead(), bound, now)
    ensures bound <= now
  {}

  /** No own column command of the other direction makes the bank forget a bound this far ahead. */
  ghost predicate Kept(cfg: Config, forReads: bool, gap: int) {
    cfg.policy.ClosePage? ==> gap <= Reopening(cfg, !forReads)
  }

  lemma LeastIsKept(cfg: Config, p: BusPacket, own: bool, sameRank: bool, isRead: bool)
    requires cfg.Valid()
    ensures Kept(cfg, isRead, LeastToColumn(cfg, p, own, sameRank, isRead))
  {
    hide DataGap;
  }

  lemma OwnColumnKeeps(cfg: Config, b: BankState, accesses: nat, p: BusPacket, forReads: bool, bound: int, gap: int, now: nat)
    requires cfg.Valid() && Kept(cfg, forReads, gap) && BankOk(cfg, b, accesses, now) && p.kind.IsColumn()
    requires Spaced(cfg, b, forReads, bound, now) && bound <= now + gap && Suits(cfg, b, accesses, p, now)
    ensures Spaced(cfg, TickBank(cfg, Sent(cfg, b, p.rank, p.bank, p, now)), forReads, bound, now + 1)
  {
    if p.kind.IsRead() == forReads { SuitedIsNotEarly(cfg, b, accesses, p, bound, now); }
  }

  lemma SpacedStays(cfg: Config, b: BankState, accesses: nat, rank: nat, bank: nat, p: BusPacket, forReads: bool,
                    bound: int, gap: int, now: nat)
    requires cfg.Valid() && Kept(cfg, forReads, gap) && BankOk(cfg, b, accesses, now)
    requires Spaced(cfg, b, forReads, bound, now) && bound <= now + gap
    requires rank == p.rank && (bank == p.bank || p.kind.Refresh?) ==> Suits(cfg, b, accesses, p, now)
    ensures Spaced(cfg, TickBank(cfg, Sent(cfg, b, rank, bank, p, now)), forReads, bound, now + 1)
  {
    hide BankTiming.OwnColumn, Kept;
    if p.kind.IsColumn() && rank == p.rank && bank == p.bank {
      OwnColumnKeeps(cfg, b, accesses, p, forReads, bound, gap, now);
    }
  }

  lemma OwnStarts(cfg: Config, b: BankState, accesses: nat, p: BusPacket, isRead: bool, now: nat)
    requires cfg.Valid() && BankOk(cfg, b, accesses, now) && p.kind.IsColumn() && Suits(cfg, b, accesses, p, now)
    ensures Spaced(cfg, TickBank(cfg, Sent(cfg, b, p.rank, p.bank, p, now)), isRead,
                   now + LeastToColumn(cfg, p, true, true, isRead), now + 1)
  {}

  lemma OtherStarts(cfg: Config, b: BankState, accesses: nat, rank: nat, bank: nat, p: BusPacket, isRead: bool, now: nat)
    requires cfg.Valid() && BankOk(cfg, b, accesses, now) && p.kind.IsColumn() && !(rank == p.rank && bank == p.bank)
    ensures Spaced(cfg, TickBank(cfg, Sent(cfg, b, rank, bank, p, now)), isRead,
                   now + LeastToColumn(cfg, p, false, rank == p.rank, isRead), now + 1)
  {
    hide BankTiming.OwnColumn, Reopening;
  }

  /** A command sent now sets the bounds for the column commands that follow it. */
  lemma ColumnStarts(cfg: Config, b: BankState, accesses: nat, rank: nat, bank: nat, p: BusPacket, isRead: bool, now: nat)
    requires cfg.Valid() && BankOk(cfg, b, accesses, now)
    requires rank == p.rank && (bank == p.bank || p.kind.Refresh?) ==> Suits(cfg, b, accesses, p, now)
    ensures Spaced(cfg, TickBank(cfg, Sent(cfg, b, rank, bank, p, now)), isRead,
                   now + LeastToColumn(cfg, p, rank == p.rank && bank == p.bank, rank == p.rank, isRead), now + 1)
  {
    if p.kind.IsColumn() {
      hide Sent, TickBank, Spaced, BankOk, Suits, LeastToColumn;
      if rank == p.rank && bank == p.bank { OwnStarts(cfg, b, accesses, p, isRead, now); }
      else { OtherStarts(cfg, b, accesses, rank, bank, p, isRead, now); }
    } else {
      hide DataGap, SpaceColumns, BankTiming.OwnColumn;
    }
  }

  /** BL/2 is never too far ahead: a command keeps such a bound, and a column command moves the bound of its
      direction and rank that far on; that of the other ranks, too, if a row is not opened and reached sooner. */
  lemma BurstApart(cfg: Config, b: BankState, accesses: nat, rank: nat, bank: nat, p: BusPacket, forReads: bool, bound: int, now: nat)
    requires cfg.Valid() && BankOk(cfg, b, accesses, now) && Spaced(cfg, b, forReads, bound, now) && bound <= now + cfg.Burst()
    requires rank == p.rank && (bank == p.bank || p.kind.Refresh?) ==> Suits(cfg, b, accesses, p, now)
    ensures Spaced(cfg, TickBank(cfg, Sent(cfg, b, rank, bank, p, now)), forReads, bound, now + 1)
    ensures p.kind.IsColumn() && p.kind.IsRead() == forReads && (rank == p.rank || cfg.Burst() <= 1 + Reach(cfg)) ==>
      Spaced(cfg, TickBank(cfg, Sent(cfg, b, rank, bank, p, now)), forReads, now + cfg.Burst(), now + 1)
  {
    hide Sent, TickBank, BankOk, Suits;
    SpacedStays(cfg, b, accesses, rank, bank, p, forReads, bound, cfg.Burst(), now);
    ColumnStarts(cfg, b, accesses, rank, bank, p, forReads, now);
  }
}
