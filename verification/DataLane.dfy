/** A data bus and the countdowns of the packets waiting for it. */
module DataLane {
  import opened DramTypes
  import opened RankSpec

  /** Cycles the packet on the bus still needs (zero: the bus is free), and the waiting countdowns. */
  datatype Lane = Lane(left: nat, countdowns: seq<nat>)

  /** Countdowns are far enough apart, and behind the packet on the bus, for packets of `burst` cycles. */
  ghost predicate LaneOk(burst: nat, l: Lane) {
    && l.left <= burst
    && (|l.countdowns| > 0 ==> l.countdowns[0] >= 1 && l.countdowns[0] >= l.left)
    && forall i, j :: 0 <= i && i + 1 == j < |l.countdowns| ==> l.countdowns[i] + burst <= l.countdowns[j]
  }

  /** Cycles until everything known so far has been carried. */
  function Busy(burst: nat, l: Lane): nat {
    if |l.countdowns| > 0 then l.countdowns[|l.countdowns|-1] + burst else l.left
  }

  /** One cycle: the bus first, then the countdowns, whose head takes the bus at zero. */
  function StepLane(burst: nat, l: Lane): Lane {
    var c := DecrementAll(l.countdowns);
    if |c| > 0 && c[0] == 0 then Lane(burst, c[1..]) else Lane(if l.left == 0 then 0 else l.left - 1, c)
  }

  function Push(l: Lane, latency: nat): Lane { l.(countdowns := l.countdowns + [latency]) }

  lemma {:induction false} CountdownsPositive(burst: nat, l: Lane, i: nat)
    requires LaneOk(burst, l) && i < |l.countdowns|
    ensures l.countdowns[i] >= 1
    decreases i
  {
    if i > 0 { CountdownsPositive(burst, l, i - 1); }
  }

  /** The head takes a bus that is free by then, and the spacing stays. */
  lemma StepKeepsLane(burst: nat, l: Lane)
    requires burst >= 1 && LaneOk(burst, l)
    ensures LaneOk(burst, StepLane(burst, l))
    ensures |l.countdowns| > 0 && l.countdowns[0] == 1 ==> l.left <= 1
    ensures Busy(burst, StepLane(burst, l)) == if Busy(burst, l) == 0 then 0 else Busy(burst, l) - 1
  {
    var c := DecrementAll(l.countdowns);
    forall i | 0 <= i < |c| ensures l.countdowns[i] >= 1 {
      CountdownsPositive(burst, l, i);
    }
    var l' := StepLane(burst, l);
    var cut := if |c| > 0 && c[0] == 0 then 1 else 0;
    assert l'.countdowns == c[cut..];
    forall i, j | 0 <= i && i + 1 == j < |l'.countdowns|
      ensures l'.countdowns[i] + burst <= l'.countdowns[j]
    {
      assert l.countdowns[i+cut] + burst <= l.countdowns[j+cut];
    }
  }

  /** A packet that needs the bus only after everything else may join. */
  lemma PushKeepsLane(burst: nat, l: Lane, latency: nat)
    requires LaneOk(burst, l) && Busy(burst, l) <= latency && latency >= 1
    ensures LaneOk(burst, Push(l, latency)) && Busy(burst, Push(l, latency)) == latency + burst
  {}

  // ----- the timetable -----

  function Booked(burst: nat, countdowns: seq<nat>, now: int): seq<int> {
    seq(|countdowns|, i requires 0 <= i < |countdowns| => now + countdowns[i] - 1 + burst)
  }

  /** When each packet, the one on the bus first, will have been carried. */
  function Due(burst: nat, l: Lane, now: int): seq<int> {
    (if l.left > 0 then [now + l.left - 1] else []) + Booked(burst, l.countdowns, now)
  }

  lemma BookingsStand(burst: nat, l: Lane, now: int)
    requires LaneOk(burst, l)
    ensures Booked(burst, l.countdowns, now) == Booked(burst, DecrementAll(l.countdowns), now + 1)
  {
    forall i | 0 <= i < |l.countdowns| ensures l.countdowns[i] >= 1 {
      CountdownsPositive(burst, l, i);
    }
  }

  /** A cycle takes the first entry off the timetable exactly when its time has come. */
  lemma StepFollowsTimetable(burst: nat, l: Lane, now: int)
    requires burst >= 1 && LaneOk(burst, l)
    ensures Due(burst, l, now) == (if l.left == 1 then [now] else []) + Due(burst, StepLane(burst, l), now + 1)
  {
    BookingsStand(burst, l, now);
    var c := DecrementAll(l.countdowns);
    if |c| > 0 && c[0] == 0 {
      CountdownsPositive(burst, l, 0);
      hide LaneOk;
      assert Booked(burst, c, now + 1) == [now + burst] + Booked(burst, c[1..], now + 1);
    }
    hide LaneOk, Booked, DecrementAll;
  }

  lemma PushJoinsTimetable(burst: nat, l: Lane, latency: nat, now: int)
    requires latency >= 1
    ensures Due(burst, Push(l, latency), now) == Due(burst, l, now) + [now + latency - 1 + burst]
  {}

  // ----- the read bus of a rank -----

  function ReadLane(r: RankState): Lane {
    Lane(if r.outgoingData.Some? then r.dataCyclesLeft else 0, r.readReturnCountdown)
  }

  /** Read data on its way back, oldest first. */
  function InFlight(r: RankState): seq<BusPacket> {
    (if r.outgoingData.Some? then [r.outgoingData.value] else []) + r.readReturnPacket
  }

  ghost predicate ReadBusOk(cfg: Config, r: RankState) {
    && Parallel(r) && LaneOk(cfg.Burst(), ReadLane(r))
    && (r.outgoingData.Some? ==> r.dataCyclesLeft >= 1)
  }

  lemma BusHandsOver(r: RankState)
    requires r.outgoingData.Some? ==> r.dataCyclesLeft >= 1
    ensures var (r', delivered) := StepBus(r);
      && (delivered.Some? <==> ReadLane(r).left == 1)
      && (r'.outgoingData.Some? <==> ReadLane(r).left > 1)
      && (r'.outgoingData.Some? ==> r'.dataCyclesLeft == ReadLane(r).left - 1)
      && r'.readReturnPacket == r.readReturnPacket && r'.readReturnCountdown == r.readReturnCountdown
      && InFlight(r) == (if delivered.Some? then [delivered.value] else []) + InFlight(r')
  {}

  lemma ReturnsMoveUp(cfg: Config, r: RankState)
    requires Parallel(r) && (r.outgoingData.Some? && |r.readReturnCountdown| > 0 ==> r.readReturnCountdown[0] != 1)
    ensures InFlight(StepReturns(cfg, r)) == InFlight(r)
  {}

  /** A rank's update hands over the oldest packet when it is due and loses none. */
  lemma UpdateHandsOver(cfg: Config, r: RankState)
    requires cfg.Valid() && ReadBusOk(cfg, r)
    ensures var (r', delivered) := Update(cfg, r);
      && ReadBusOk(cfg, r') && ReadLane(r') == StepLane(cfg.Burst(), ReadLane(r))
      && (delivered.Some? <==> ReadLane(r).left == 1)
      && InFlight(r) == (if delivered.Some? then [delivered.value] else []) + InFlight(r')
  {
    StepKeepsLane(cfg.Burst(), ReadLane(r));
    if |r.readReturnCountdown| > 0 { CountdownsPositive(cfg.Burst(), ReadLane(r), 0); }
    var (r1, delivered) := StepBus(r);
    BusHandsOver(r);
    hide StepBus, LaneOk, Busy, InFlight;
    ReturnsMoveUp(cfg, r1);
  }

  lemma ReceiveJoins(cfg: Config, r: RankState, p: BusPacket, now: nat)
    requires cfg.Valid() && ReadBusOk(cfg, r)
    requires p.kind.IsRead() ==> Busy(cfg.Burst(), ReadLane(r)) <= cfg.ReadLatency()
    ensures var r' := Receive(cfg, r, p, now);
      && ReadBusOk(cfg, r')
      && ReadLane(r') == (if p.kind.IsRead() then Push(ReadLane(r), cfg.ReadLatency()) else ReadLane(r))
      && InFlight(r') == InFlight(r) + (if p.kind.IsRead() then [p.(kind := Data)] else [])
  {
    hide ReceiveBank, LaneOk, Busy;
    if p.kind.IsRead() { PushKeepsLane(cfg.Burst(), ReadLane(r), cfg.ReadLatency()); }
  }
}
