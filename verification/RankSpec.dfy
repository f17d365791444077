/** A rank of DRAM: the table it checks commands against, and its queue of read data on the way back. */
module RankSpec {
  import opened DramTypes

  datatype RankState = RankState(banks: BankRow, isPowerDown: bool, refreshWaiting: bool,
                                 readReturnPacket: seq<BusPacket>, readReturnCountdown: seq<nat>,
                                 outgoingData: Option<BusPacket>, dataCyclesLeft: nat)

  /** None of the error exits of the rank's receiver is taken. */
  predicate Accepts(cfg: Config, r: RankState, p: BusPacket, now: nat)
    requires p.bank < |r.banks|
  {
    var b := r.banks[p.bank];
    match p.kind
    case Read => b.phase.RowActive? && now >= b.nextRead && p.row == b.openRow
    case ReadP => b.phase.RowActive? && now >= b.nextRead && p.row == b.openRow
    case Write => b.phase.RowActive? && now >= b.nextWrite && p.row == b.openRow
    case WriteP => b.phase.RowActive? && now >= b.nextWrite && p.row == b.openRow
    case Activate => b.phase.Idle? && now >= b.nextActivate
    case Precharge => b.phase.RowActive? && now >= b.nextPrecharge
    case Refresh => forall i :: 0 <= i < |r.banks| ==> r.banks[i].phase.Idle?
    case Data => true
  }

  function OwnColumn(cfg: Config, b: BankState, kind: Kind, now: nat): BankState
    requires cfg.Valid() && kind.IsColumn()
  {
    match kind
    case Read => b.(nextPrecharge := Max(b.nextPrecharge, now + cfg.ReadToPre()))
    case Write => b.(nextPrecharge := Max(b.nextPrecharge, now + cfg.WriteToPre()))
    case ReadP => b.(phase := Idle, nextActivate := Max(b.nextActivate, now + cfg.ReadAutoPre()))
    case WriteP => b.(phase := Idle, nextActivate := Max(b.nextActivate, now + cfg.WriteAutoPre()))
  }

  function SpaceBank(cfg: Config, b: BankState, afterRead: bool, now: nat): BankState
    requires cfg.Valid()
  {
    var r := if afterRead then cfg.ColumnGap() else cfg.WriteToReadSameRank();
    var w := if afterRead then cfg.ReadToWrite() else cfg.ColumnGap();
    b.(nextRead := Max(b.nextRead, now + r), nextWrite := Max(b.nextWrite, now + w))
  }

  /** The record of one bank after the rank has received packet p. */
  function ReceiveBank(cfg: Config, b: BankState, bank: nat, p: BusPacket, now: nat): BankState
    requires cfg.Valid()
  {
    var own := bank == p.bank;
    match p.kind
    case Activate =>
      if own then b.(phase := RowActive, nextActivate := now + cfg.tRC, openRow := p.row,
                     nextWrite := now + (cfg.tRCD - cfg.al), nextRead := now + (cfg.tRCD - cfg.al),
                     nextPrecharge := now + cfg.tRAS)
      else b.(nextActivate := Max(b.nextActivate, now + cfg.tRRD))
    case Precharge =>
      if own then b.(phase := Idle, nextActivate := Max(b.nextActivate, now + cfg.tRP)) else b
    case Refresh => b.(nextActivate := now + cfg.tRFC)
    case Data => b
    case _ => SpaceBank(cfg, if own then OwnColumn(cfg, b, p.kind, now) else b, p.kind.IsRead(), now)
  }

  function Receive(cfg: Config, r: RankState, p: BusPacket, now: nat): (r': RankState)
    requires cfg.Valid()
    ensures |r'.banks| == |r.banks|
  {
    var r1 := r.(banks := seq(|r.banks|, b requires 0 <= b < |r.banks| => ReceiveBank(cfg, r.banks[b], b, p, now)));
    match p.kind
    case Refresh => r1.(refreshWaiting := false)
    case Read => r1.(readReturnPacket := r.readReturnPacket + [p.(kind := Data)],
                     readReturnCountdown := r.readReturnCountdown + [cfg.ReadLatency()])
    case ReadP => r1.(readReturnPacket := r.readReturnPacket + [p.(kind := Data)],
                      readReturnCountdown := r.readReturnCountdown + [cfg.ReadLatency()])
    case _ => r1
  }

  /** The data bus half of a rank's update: the packet handed to the controller this cycle, if any. */
  function StepBus(r: RankState): (RankState, Option<BusPacket>) {
    if r.outgoingData.None? then (r, None)
    else if Decrement(r.dataCyclesLeft) == 0 then (r.(outgoingData := None, dataCyclesLeft := 0), r.outgoingData)
    else (r.(dataCyclesLeft := Decrement(r.dataCyclesLeft)), None)
  }

  ghost predicate Parallel(r: RankState) { |r.readReturnPacket| == |r.readReturnCountdown| }

  /** The other half: age the waiting read data and put the head on the bus when its time has come. */
  function StepReturns(cfg: Config, r: RankState): (r': RankState)
    requires Parallel(r)
    ensures Parallel(r')
  {
    var c := DecrementAll(r.readReturnCountdown);
    if |c| > 0 && c[0] == 0 then
      r.(outgoingData := Some(r.readReturnPacket[0]), dataCyclesLeft := cfg.Burst(),
         readReturnPacket := r.readReturnPacket[1..], readReturnCountdown := c[1..])
    else r.(readReturnCountdown := c)
  }

  function Update(cfg: Config, r: RankState): (s: (RankState, Option<BusPacket>))
    requires Parallel(r)
    ensures Parallel(s.0)
  {
    var (r1, delivered) := StepBus(r);
    (StepReturns(cfg, r1), delivered)
  }

  predicate MayPowerDown(r: RankState) {
    forall b :: 0 <= b < |r.banks| ==> r.banks[b].phase.Idle?
  }

  function PoweredDown(cfg: Config, r: RankState, now: nat): RankState {
    r.(isPowerDown := true,
       banks := seq(|r.banks|, b requires 0 <= b < |r.banks| => r.banks[b].(nextPowerUp := now + cfg.tCKE, phase := PowerDown)))
  }

  predicate MayPowerUp(r: RankState, now: nat) {
    r.isPowerDown && forall b :: 0 <= b < |r.banks| ==> r.banks[b].nextPowerUp <= now
  }

  function PoweredUp(cfg: Config, r: RankState, now: nat): RankState {
    r.(isPowerDown := false,
       banks := seq(|r.banks|, b requires 0 <= b < |r.banks| => r.banks[b].(nextActivate := now + cfg.tXP, phase := Idle)))
  }
}
