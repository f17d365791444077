/** A rank as the program has it: an object that checks and obeys commands, and delays read data. */
module Ranks {
  import opened DramTypes
  import opened RankSpec

  class Rank {
    const cfg: Config
    var currentClockCycle: nat
    var bankStates: BankRow
    var isPowerDown: bool
    var refreshWaiting: bool
    var readReturnPacket: seq<BusPacket>
    var readReturnCountdown: seq<nat>
    var outgoingDataPacket: Option<BusPacket>
    var dataCyclesLeft: nat

    ghost function View(): RankState
      reads this
    {
      RankState(bankStates, isPowerDown, refreshWaiting, readReturnPacket, readReturnCountdown, outgoingDataPacket, dataCyclesLeft)
    }

    ghost predicate Valid()
      reads this
    {
      cfg.Valid() && |bankStates| == cfg.numBanks && Parallel(View())
    }

    constructor (cfg: Config)
      requires cfg.Valid()
      ensures Valid() && this.cfg == cfg && currentClockCycle == 0
      ensures View() == RankState(seq(cfg.numBanks, _ => INITIAL_BANK), false, false, [], [], None, 0)
    {
      this.cfg := cfg;
      currentClockCycle := 0;
      bankStates := seq(cfg.numBanks, _ => INITIAL_BANK);
      isPowerDown, refreshWaiting := false, false;
      readReturnPacket, readReturnCountdown := [], [];
      outgoingDataPacket, dataCyclesLeft := None, 0;
    }

    // ----- receiving a packet -----

    /** Is the packet allowed now? A refresh finds all banks idle. */
    method Allowed(packet: BusPacket) returns (ok: bool)
      requires Valid() && packet.bank < cfg.numBanks
      ensures ok == Accepts(cfg, View(), packet, currentClockCycle)
    {
      var b := bankStates[packet.bank];
      match packet.kind {
        case Read | ReadP => ok := !(!b.phase.RowActive? || currentClockCycle < b.nextRead || packet.row != b.openRow);
        case Write | WriteP => ok := !(!b.phase.RowActive? || currentClockCycle < b.nextWrite || packet.row != b.openRow);
        case Activate => ok := !(!b.phase.Idle? || currentClockCycle < b.nextActivate);
        case Precharge => ok := !(!b.phase.RowActive? || currentClockCycle < b.nextPrecharge);
        case Refresh =>
          var i := 0;
          while i < cfg.numBanks
            invariant i <= cfg.numBanks
            invariant forall k :: 0 <= k < i ==> bankStates[k].phase.Idle?
          {
            if !bankStates[i].phase.Idle? { return false; }
            i := i + 1;
          }
          ok := true;
        case Data => ok := true;
      }
    }

    /** The packet's effect on the bank it addresses alone. */
    method UpdateOwnBank(packet: BusPacket) returns (b: BankState)
      requires Valid() && packet.bank < cfg.numBanks && !packet.kind.Refresh?
      ensures packet.kind.IsColumn() ==> b == OwnColumn(cfg, bankStates[packet.bank], packet.kind, currentClockCycle)
      ensures !packet.kind.IsColumn() ==> b == ReceiveBank(cfg, bankStates[packet.bank], packet.bank, packet, currentClockCycle)
    {
      var now := currentClockCycle;
      b := bankStates[packet.bank];
      match packet.kind {
        case Read => b := b.(nextPrecharge := Max(b.nextPrecharge, now + cfg.ReadToPre()));
        case Write => b := b.(nextPrecharge := Max(b.nextPrecharge, now + cfg.WriteToPre()));
        case ReadP => b := b.(phase := Idle, nextActivate := Max(b.nextActivate, now + cfg.ReadAutoPre()));
        case WriteP => b := b.(phase := Idle, nextActivate := Max(b.nextActivate, now + cfg.WriteAutoPre()));
        case Activate =>
          b := b.(phase := RowActive, nextActivate := now + cfg.tRC, openRow := packet.row);
          b := b.(nextWrite := now + (cfg.tRCD - cfg.al), nextRead := now + (cfg.tRCD - cfg.al));
          b := b.(nextPrecharge := now + cfg.tRAS);
        case Precharge => b := b.(phase := Idle, nextActivate := Max(b.nextActivate, now + cfg.tRP));
        case _ =>
      }
    }

    /** The packet's effect on every bank. */
    method UpdateBanks(packet: BusPacket)
      requires Valid() && packet.bank < cfg.numBanks
      modifies this`bankStates
      ensures |bankStates| == |old(bankStates)|
      ensures forall b :: 0 <= b < |bankStates| ==> bankStates[b] == ReceiveBank(cfg, old(bankStates)[b], b, packet, currentClockCycle)
    {
      var now := currentClockCycle;
      ghost var before := bankStates;
      if !packet.kind.Refresh? {
        var own := UpdateOwnBank(packet);
        bankStates := bankStates[packet.bank := own];
      }
      hide OwnColumn;
      var i := 0;
      while i < cfg.numBanks
        invariant i <= cfg.numBanks == |bankStates| == |before|
        invariant forall b :: 0 <= b < i ==> bankStates[b] == ReceiveBank(cfg, before[b], b, packet, now)
        invariant forall b :: i <= b < |before| && b != packet.bank ==> bankStates[b] == before[b]
        invariant i <= packet.bank ==>
          (packet.kind.IsColumn() ==> bankStates[packet.bank] == OwnColumn(cfg, before[packet.bank], packet.kind, now))
          && (packet.kind.Refresh? ==> bankStates[packet.bank] == before[packet.bank])
          && (!packet.kind.IsColumn() && !packet.kind.Refresh? ==>
                bankStates[packet.bank] == ReceiveBank(cfg, before[packet.bank], packet.bank, packet, now))
      {
        var b := bankStates[i];
        match packet.kind {
          case Read | ReadP =>
            b := b.(nextRead := Max(b.nextRead, now + cfg.ColumnGap()), nextWrite := Max(b.nextWrite, now + cfg.ReadToWrite()));
          case Write | WriteP =>
            b := b.(nextRead := Max(b.nextRead, now + cfg.WriteToReadSameRank()), nextWrite := Max(b.nextWrite, now + cfg.ColumnGap()));
          case Activate =>
            if i != packet.bank { b := b.(nextActivate := Max(b.nextActivate, now + cfg.tRRD)); }
          case Refresh => b := b.(nextActivate := now + cfg.tRFC);
          case _ =>
        }
        bankStates := bankStates[i := b];
        i := i + 1;
      }
    }

    /** Obey a packet from the bus, or report that it was not allowed. */
    method ReceiveFromBus(packet: BusPacket) returns (ok: bool)
      requires Valid() && packet.bank < cfg.numBanks
      modifies this`bankStates, this`refreshWaiting, this`readReturnPacket, this`readReturnCountdown
      ensures Valid()
      ensures ok == Accepts(cfg, old(View()), packet, currentClockCycle)
      ensures View() == if ok then Receive(cfg, old(View()), packet, currentClockCycle) else old(View())
    {
      hide ReceiveBank, OwnColumn;
      ok := Allowed(packet);
      if !ok { return; }
      UpdateBanks(packet);
      if packet.kind.IsRead() {
        readReturnPacket := readReturnPacket + [packet.(kind := Data)];
        readReturnCountdown := readReturnCountdown + [cfg.ReadLatency()];
      } else if packet.kind.Refresh? {
        refreshWaiting := false;
      }
      assert bankStates == Receive(cfg, old(View()), packet, currentClockCycle).banks;
    }

    // ----- every cycle -----

    /** Age the data on the bus and the waiting data; the packet handed to the controller, if any. */
    method Update() returns (delivered: Option<BusPacket>)
      requires Valid()
      modifies this`outgoingDataPacket, this`dataCyclesLeft, this`readReturnPacket, this`readReturnCountdown
      ensures Valid() && (View(), delivered) == RankSpec.Update(cfg, old(View()))
    {
      ghost var before := View();
      delivered := None;
      if outgoingDataPacket.Some? {
        dataCyclesLeft := Decrement(dataCyclesLeft);
        if dataCyclesLeft == 0 {
          delivered := outgoingDataPacket;
          outgoingDataPacket := None;
        }
      }
      assert (View(), delivered) == StepBus(before);
      ghost var afterBus := View();
      ghost var countdown := readReturnCountdown;
      var i := 0;
      while i < |readReturnCountdown|
        invariant i <= |readReturnCountdown| == |countdown|
        invariant View() == afterBus.(readReturnCountdown := readReturnCountdown)
        invariant forall k :: 0 <= k < i ==> readReturnCountdown[k] == Decrement(countdown[k])
        invariant forall k :: i <= k < |countdown| ==> readReturnCountdown[k] == countdown[k]
      {
        var left: nat := Decrement(readReturnCountdown[i]);
        readReturnCountdown := readReturnCountdown[i := left];
        i := i + 1;
      }
      assert readReturnCountdown == DecrementAll(countdown);
      if |readReturnCountdown| > 0 && readReturnCountdown[0] == 0 {
        outgoingDataPacket := Some(readReturnPacket[0]);
        dataCyclesLeft := cfg.Burst();
        readReturnPacket := readReturnPacket[1..];
        readReturnCountdown := readReturnCountdown[1..];
      }
    }

    method Step()
      modifies this`currentClockCycle
      ensures currentClockCycle == old(currentClockCycle) + 1
    {
      currentClockCycle := currentClockCycle + 1;
    }

    // ----- power -----

    /** Refused (and then possibly half done) unless every bank is idle. */
    method PowerDown() returns (ok: bool)
      requires Valid()
      modifies this`bankStates, this`isPowerDown
      ensures Valid() && ok == MayPowerDown(old(View()))
      ensures ok ==> View() == PoweredDown(cfg, old(View()), currentClockCycle)
    {
      ghost var before := bankStates;
      var i := 0;
      while i < cfg.numBanks
        invariant i <= cfg.numBanks == |bankStates| == |before|
        invariant forall b :: 0 <= b < i ==> before[b].phase.Idle?
        invariant forall b :: 0 <= b < i ==> bankStates[b] == before[b].(nextPowerUp := currentClockCycle + cfg.tCKE, phase := Phase.PowerDown)
        invariant forall b :: i <= b < |before| ==> bankStates[b] == before[b]
      {
        if !bankStates[i].phase.Idle? { return false; }
        bankStates := bankStates[i := bankStates[i].(nextPowerUp := currentClockCycle + cfg.tCKE, phase := Phase.PowerDown)];
        i := i + 1;
      }
      isPowerDown := true;
      ok := true;
      assert bankStates == PoweredDown(cfg, old(View()), currentClockCycle).banks;
    }

    method PowerUp() returns (ok: bool)
      requires Valid()
      modifies this`bankStates, this`isPowerDown
      ensures Valid() && ok == MayPowerUp(old(View()), currentClockCycle)
      ensures ok ==> View() == PoweredUp(cfg, old(View()), currentClockCycle)
    {
      if !isPowerDown { return false; }
      ghost var before := bankStates;
      isPowerDown := false;
      var i := 0;
      while i < cfg.numBanks
        invariant i <= cfg.numBanks == |bankStates| == |before|
        invariant !isPowerDown
        invariant forall b :: 0 <= b < i ==> before[b].nextPowerUp <= currentClockCycle
        invariant forall b :: 0 <= b < i ==> bankStates[b] == before[b].(nextActivate := currentClockCycle + cfg.tXP, phase := Idle)
        invariant forall b :: i <= b < |before| ==> bankStates[b] == before[b]
      {
        if bankStates[i].nextPowerUp > currentClockCycle { return false; }
        bankStates := bankStates[i := bankStates[i].(nextActivate := currentClockCycle + cfg.tXP, phase := Idle)];
        i := i + 1;
      }
      ok := true;
      assert bankStates == PoweredUp(cfg, old(View()), currentClockCycle).banks;
    }
  }
}
