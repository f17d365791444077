/** How the memory controller's table of bank records changes: its countdowns, and the effect of a
    command it has just sent. */
module BankTiming {
  import opened DramTypes

  function TickBank(cfg: Config, b: BankState): BankState {
    if b.countdown == 0 then b
    else if b.countdown > 1 then b.(countdown := b.countdown - 1)
    else
      match b.lastCommand
      case WriteP => b.(phase := Precharging, lastCommand := Precharge, countdown := cfg.tRP)
      case ReadP => b.(phase := Precharging, lastCommand := Precharge, countdown := cfg.tRP)
      case Refresh => b.(phase := Idle, countdown := 0)
      case Precharge => b.(phase := Idle, countdown := 0)
      case _ => b.(countdown := 0)
  }

  function TickRow(cfg: Config, banks: BankRow): BankRow {
    seq(|banks|, b requires 0 <= b < |banks| => TickBank(cfg, banks[b]))
  }

  function TickTable(cfg: Config, t: Table): (t': Table)
    ensures |t'| == |t| && forall r :: 0 <= r < |t| ==> |t'[r]| == |t[r]|
  {
    seq(|t|, r requires 0 <= r < |t| => TickRow(cfg, t[r]))
  }

  /** Spacing of column commands imposed on every bank of the rank, and on the open banks of the others. */
  function SpaceColumns(cfg: Config, b: BankState, sameRank: bool, p: BusPacket, now: nat): BankState
    requires cfg.Valid()
  {
    if !sameRank && !b.phase.RowActive? then b
    else
      var (r, w) := match (p.kind.IsRead(), sameRank)
        case (true, true) => (cfg.ColumnGap(), cfg.ReadToWrite())
        case (true, false) => (cfg.Burst() + cfg.tRTRS, cfg.ReadToWrite())
        case (false, true) => (cfg.WriteToReadSameRank(), cfg.ColumnGap())
        case (false, false) => (cfg.WriteToReadOtherRank(), cfg.Burst() + cfg.tRTRS);
      b.(nextRead := Max(now + r, b.nextRead), nextWrite := Max(now + w, b.nextWrite))
  }

  /** A column command's effect on the bank it addresses, before the spacing. */
  function OwnColumn(cfg: Config, b: BankState, kind: Kind, now: nat): BankState
    requires cfg.Valid() && kind.IsColumn()
  {
    match kind
    case ReadP => b.(nextActivate := Max(now + cfg.ReadAutoPre(), b.nextActivate), lastCommand := ReadP, countdown := cfg.ReadToPre())
    case WriteP => b.(nextActivate := Max(now + cfg.WriteAutoPre(), b.nextActivate), lastCommand := WriteP, countdown := cfg.WriteToPre())
    case Read => b.(nextPrecharge := Max(now + cfg.ReadToPre(), b.nextPrecharge), lastCommand := Read)
    case Write => b.(nextPrecharge := Max(now + cfg.WriteToPre(), b.nextPrecharge), lastCommand := Write)
  }

  /** What sending packet p at time `now` does to the record of bank `bank` of rank `rank`. */
  function Sent(cfg: Config, b: BankState, rank: nat, bank: nat, p: BusPacket, now: nat): BankState
    requires cfg.Valid()
  {
    var own := rank == p.rank && bank == p.bank;
    match p.kind
    case Activate =>
      if own then
        b.(phase := RowActive, lastCommand := Activate, openRow := p.row,
           nextActivate := Max(now + cfg.tRC, b.nextActivate), nextPrecharge := Max(now + cfg.tRAS, b.nextPrecharge),
           nextRead := Max(now + (cfg.tRCD - cfg.al), b.nextRead), nextWrite := Max(now + (cfg.tRCD - cfg.al), b.nextWrite))
      else if rank == p.rank then b.(nextActivate := Max(now + cfg.tRRD, b.nextActivate))
      else b
    case Precharge =>
      if own then b.(phase := Precharging, lastCommand := Precharge, countdown := cfg.tRP,
                     nextActivate := Max(now + cfg.tRP, b.nextActivate))
      else b
    case Refresh =>
      if rank == p.rank then b.(nextActivate := now + cfg.tRFC, phase := Refreshing, lastCommand := Refresh, countdown := cfg.tRFC)
      else b
    case Data => b
    case _ =>
      var b1 := SpaceColumns(cfg, if own then OwnColumn(cfg, b, p.kind, now) else b, rank == p.rank, p, now);
      if own && p.kind.AutoPrecharges() then b1.(nextRead := b1.nextActivate, nextWrite := b1.nextActivate) else b1
  }

  function SentRow(cfg: Config, banks: BankRow, rank: nat, p: BusPacket, now: nat): BankRow
    requires cfg.Valid()
  {
    seq(|banks|, b requires 0 <= b < |banks| => Sent(cfg, banks[b], rank, b, p, now))
  }

  function SentTable(cfg: Config, t: Table, p: BusPacket, now: nat): (t': Table)
    requires cfg.Valid()
    ensures |t'| == |t| && forall r :: 0 <= r < |t| ==> |t'[r]| == |t[r]|
  {
    seq(|t|, r requires 0 <= r < |t| => SentRow(cfg, t[r], r, p, now))
  }
}
