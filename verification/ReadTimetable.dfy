/** In every run each read comes back exactly when its latency and its burst are over, in order, and a
    system with one rank never has two packets of write data on the bus. */
module ReadTimetable {
  import opened DramTypes
  import opened CommandQueueSpec
  import opened BankTiming
  import opened RankSpec
  import opened DataLane
  import opened SystemSpec
  import opened Refinement
  import opened BusTiming

  datatype Booking = Booking(packet: BusPacket, time: int)

  function Zip(packets: seq<BusPacket>, times: seq<int>): seq<Booking>
    requires |packets| == |times|
  {
    seq(|packets|, i requires 0 <= i < |packets| => Booking(packets[i], times[i]))
  }

  lemma ZipAppends(a: seq<BusPacket>, b: seq<BusPacket>, s: seq<int>, t: seq<int>)
    requires |a| == |s| && |b| == |t|
    ensures Zip(a + b, s + t) == Zip(a, s) + Zip(b, t)
  {}

  lemma FlightMatchesDue(cfg: Config, r: RankState, now: int)
    requires ReadBusOk(cfg, r)
    ensures |InFlight(r)| == |Due(cfg.Burst(), ReadLane(r), now)|
  {}

  /** Which read data a rank still owes, and when each will have been handed over. */
  ghost function Timetable(cfg: Config, r: RankState, now: int): seq<Booking>
    requires ReadBusOk(cfg, r)
  {
    FlightMatchesDue(cfg, r, now);
    Zip(InFlight(r), Due(cfg.Burst(), ReadLane(r), now))
  }

  lemma {:induction false} BookedLater(burst: nat, l: Lane, now: int, i: nat)
    requires burst >= 1 && LaneOk(burst, l) && i < |l.countdowns|
    ensures Booked(burst, l.countdowns, now)[i] >= now + burst
    ensures Booked(burst, l.countdowns, now)[i] > now + l.left - 1
    decreases i
  {
    if i > 0 { BookedLater(burst, l, now, i - 1); }
  }

  /** Only the packet on the bus can be due now. */
  lemma DueNowIsFirst(burst: nat, l: Lane, now: int, i: nat)
    requires burst >= 1 && LaneOk(burst, l) && i < |Due(burst, l, now)| && Due(burst, l, now)[i] <= now
    ensures i == 0 && l.left == 1 && Due(burst, l, now)[0] == now
  {
    var first := if l.left > 0 then 1 else 0;
    if i >= first {
      BookedLater(burst, l, now, i - first);
      assert false;
    }
  }

  /** One update: an entry leaves the timetable exactly when its time has come, and is then handed over. */
  lemma UpdateFollowsTimetable(cfg: Config, r: RankState, now: int)
    requires cfg.Valid() && ReadBusOk(cfg, r)
    ensures var (r', delivered) := Update(cfg, r);
      && ReadBusOk(cfg, r')
      && Timetable(cfg, r, now) == (if delivered.Some? then [Booking(delivered.value, now)] else []) + Timetable(cfg, r', now + 1)
  {
    var (r', delivered) := Update(cfg, r);
    hide Update, LaneOk, StepLane, Due, InFlight;
    UpdateHandsOver(cfg, r);
    StepFollowsTimetable(cfg.Burst(), ReadLane(r), now);
    FlightMatchesDue(cfg, r, now);
    FlightMatchesDue(cfg, r', now + 1);
    var handed := if delivered.Some? then [delivered.value] else [];
    var at := if ReadLane(r).left == 1 then [now] else [];
    ZipAppends(handed, InFlight(r'), at, Due(cfg.Burst(), ReadLane(r'), now + 1));
  }

  /** A read received now is entered at the end, for the time when latency and burst are over. */
  lemma ReceiveIsBooked(cfg: Config, r: RankState, p: BusPacket, now: nat)
    requires cfg.Valid() && ReadBusOk(cfg, r)
    requires p.kind.IsRead() ==> Busy(cfg.Burst(), ReadLane(r)) <= cfg.ReadLatency()
    ensures var r' := Receive(cfg, r, p, now);
      && ReadBusOk(cfg, r')
      && Timetable(cfg, r', now + 1) == Timetable(cfg, r, now + 1) +
           if p.kind.IsRead() then [Booking(p.(kind := Data), now + cfg.ReadLatency() + cfg.Burst())] else []
  {
    var r' := Receive(cfg, r, p, now);
    hide Receive, LaneOk, Due, InFlight, Busy;
    ReceiveJoins(cfg, r, p, now);
    FlightMatchesDue(cfg, r, now + 1);
    FlightMatchesDue(cfg, r', now + 1);
    if p.kind.IsRead() {
      PushJoinsTimetable(cfg.Burst(), ReadLane(r), cfg.ReadLatency(), now + 1);
      var time := now + 1 + cfg.ReadLatency() - 1 + cfg.Burst();
      ZipAppends(InFlight(r), [p.(kind := Data)], Due(cfg.Burst(), ReadLane(r), now + 1), [time]);
    }
  }

  // ----- a cycle -----

  /** From one cycle to the next a rank hands over what is due, keeps the rest of its timetable, and books
      the read that arrived, if any, for the time when latency and burst are over. */
  ghost predicate FollowsTimetable(cfg: Config, r: RankState, r': RankState, rank: nat, cmd: Option<BusPacket>, now: nat) {
    && ReadBusOk(cfg, r) && ReadBusOk(cfg, r')
    && var delivered := Update(cfg, r).1;
       Timetable(cfg, r, now) + (if ReadFor(cmd, rank) then [Booking(cmd.value.(kind := Data), now + cfg.ReadLatency() + cfg.Burst())] else [])
       == (if delivered.Some? then [Booking(delivered.value, now)] else []) + Timetable(cfg, r', now + 1)
  }

  lemma ArrivalIsBooked(cfg: Config, r: RankState, banks: BankRow, rank: nat, cmd: Option<BusPacket>, now: nat)
    requires cfg.Valid() && ReadsWillBeInTime(cfg, r, banks, ReadFor(cmd, rank), now)
    ensures FollowsTimetable(cfg, r, ArrivedRank(cfg, r, rank, cmd, now), rank, cmd, now)
  {
    hide Update, Receive, LaneOk, StepLane, TickBank, Timetable;
    UpdateFollowsTimetable(cfg, r, now);
    UpdateHandsOver(cfg, r);
    StepKeepsLane(cfg.Burst(), ReadLane(r));
    if cmd.Some? && cmd.value.rank == rank { ReceiveIsBooked(cfg, Update(cfg, r).0, cmd.value, now); }
  }

  lemma SameTimetable(cfg: Config, r: RankState, r': RankState, r2: RankState, rank: nat, cmd: Option<BusPacket>, now: nat)
    requires FollowsTimetable(cfg, r, r', rank, cmd, now) && SameReadData(r', r2)
    ensures FollowsTimetable(cfg, r, r2, rank, cmd, now)
  {}

  lemma CycleReadData(cfg: Config, s: System, r: nat)
    requires s.Shape(cfg) && Inv(cfg, s) && Buses(cfg, s) && Cycle(cfg, s).halted.None? && r < cfg.numRanks
    ensures Cycle(cfg, s).now == s.now + 1
    ensures SameReadData(ArrivedRank(cfg, s.ranks[r], r, s.outgoingCmd, s.now), Cycle(cfg, s).ranks[r])
  {
    hide FirstHalf, SecondHalf, Following, Pop, ArrivedRank, ReadsWillBeInTime, TickTable, SentTable;
    FirstHalfAgrees(cfg, s);
    FirstHalfBuses(cfg, s);
    SecondHalfBuses(cfg, FirstHalf(cfg, s));
  }

  /** A whole cycle of the system follows every rank's timetable. */
  lemma CycleFollowsTimetable(cfg: Config, s: System, r: nat)
    requires s.Shape(cfg) && Inv(cfg, s) && Buses(cfg, s) && Cycle(cfg, s).halted.None? && r < cfg.numRanks
    ensures FollowsTimetable(cfg, s.ranks[r], Cycle(cfg, s).ranks[r], r, s.outgoingCmd, s.now)
  {
    hide Cycle, ArrivedRank, ReadsWillBeInTime, SameReadData, Inv, FollowsTimetable;
    CycleReadData(cfg, s, r);
    ArrivalIsBooked(cfg, s.ranks[r], s.banks[r], r, s.outgoingCmd, s.now);
    SameTimetable(cfg, s.ranks[r], ArrivedRank(cfg, s.ranks[r], r, s.outgoingCmd, s.now), Cycle(cfg, s).ranks[r], r, s.outgoingCmd, s.now);
  }

  // ----- runs -----

  lemma StepKeepsBuses(cfg: Config, s: System, s': System)
    requires s.Shape(cfg) && s'.Shape(cfg) && Inv(cfg, s) && Step(cfg, s, s') && s'.halted.None? && Buses(cfg, s)
    ensures Buses(cfg, s')
    ensures (s'.now == s.now + 1 && s' == Cycle(cfg, s)) || (s'.now == s.now && s'.ranks == s.ranks && s'.banks == s.banks)
  {
    hide Inv, Cycle, ReadsWillBeInTime;
    if s' == Cycle(cfg, s) {
      CycleKeepsBuses(cfg, s);
      CycleReadData(cfg, s, 0);
    }
  }

  lemma InitialBuses(cfg: Config, s: System)
    requires s.Shape(cfg) && Initial(cfg, s)
    ensures Buses(cfg, s)
  {
    forall r | 0 <= r < cfg.numRanks
      ensures ReadsWillBeInTime(cfg, s.ranks[r], s.banks[r], false, s.now)
    {}
  }

  lemma {:induction false} BusesStayOrderly(cfg: Config, run: seq<System>, i: nat)
    requires IsRun(cfg, run) && i < |run| && run[i].halted.None? && run[i].Shape(cfg)
    ensures Buses(cfg, run[i])
    decreases i
  {
    hide Inv, Step, Initial, Buses, System.Shape;
    if i == 0 {
      InitialBuses(cfg, run[0]);
    } else {
      RunStep(cfg, run, i - 1);
      BusesStayOrderly(cfg, run, i - 1);
      StepKeepsBuses(cfg, run[i-1], run[i]);
    }
  }

  lemma RunBusStep(cfg: Config, run: seq<System>, i: nat)
    requires IsRun(cfg, run) && i + 1 < |run| && run[i+1].halted.None?
    ensures run[i].Shape(cfg) && Inv(cfg, run[i]) && Buses(cfg, run[i]) && run[i].halted.None?
    ensures run[i+1].Shape(cfg) && Step(cfg, run[i], run[i+1]) && run[i].now <= run[i+1].now
  {
    hide Inv, Step, Initial, Buses, System.Shape, Cycle;
    RunStep(cfg, run, i);
    BusesStayOrderly(cfg, run, i);
    StepKeepsBuses(cfg, run[i], run[i+1]);
  }

  lemma InRest(a: seq<Booking>, b: seq<Booking>, c: seq<Booking>, d: seq<Booking>, e: Booking)
    requires a + b == c + d && e in a && e !in c
    ensures e in d
  {
    assert e in a + b;
    assert e in c + d;
  }

  ghost predicate IsBooked(cfg: Config, s: System, r: nat, e: Booking) {
    r < |s.ranks| && ReadBusOk(cfg, s.ranks[r]) && e in Timetable(cfg, s.ranks[r], s.now)
  }

  lemma BookingStep(cfg: Config, s: System, s': System, r: nat, e: Booking)
    requires s.Shape(cfg) && s'.Shape(cfg) && Inv(cfg, s) && Step(cfg, s, s') && s'.halted.None? && Buses(cfg, s)
    requires r < cfg.numRanks && IsBooked(cfg, s, r, e) && s'.now <= e.time
    ensures IsBooked(cfg, s', r, e)
  {
    hide Inv, Step, Cycle, Timetable, ReadBusOk, Update;
    StepKeepsBuses(cfg, s, s');
    if s'.now == s.now + 1 {
      CycleFollowsTimetable(cfg, s, r);
      var delivered := Update(cfg, s.ranks[r]).1;
      InRest(Timetable(cfg, s.ranks[r], s.now),
             if ReadFor(s.outgoingCmd, r) then [Booking(s.outgoingCmd.value.(kind := Data), s.now + cfg.ReadLatency() + cfg.Burst())] else [],
             if delivered.Some? then [Booking(delivered.value, s.now)] else [],
             Timetable(cfg, s'.ranks[r], s'.now), e);
    }
  }

  /** An entry stays on its rank's timetable until its time. */
  lemma {:induction false} BookingStands(cfg: Config, run: seq<System>, i: nat, j: nat, r: nat, e: Booking)
    requires IsRun(cfg, run) && i <= j < |run| && run[j].halted.None? && r < cfg.numRanks
    requires IsBooked(cfg, run[i], r, e) && run[j].now <= e.time
    ensures IsBooked(cfg, run[j], r, e)
    decreases j
  {
    hide IsRun, Inv, Step, Buses, System.Shape, IsBooked;
    if i < j {
      RunBusStep(cfg, run, j - 1);
      BookingStands(cfg, run, i, j - 1, r, e);
      BookingStep(cfg, run[j-1], run[j], r, e);
    }
  }

  /** A packet on the timetable for now is handed over by the update. */
  lemma BookingKept(cfg: Config, s: System, r: nat, e: Booking)
    requires cfg.Valid() && IsBooked(cfg, s, r, e) && s.now == e.time
    ensures Update(cfg, s.ranks[r]).1 == Some(e.packet)
  {
    hide Update;
    var rank := s.ranks[r];
    FlightMatchesDue(cfg, rank, e.time);
    var k :| 0 <= k < |Timetable(cfg, rank, e.time)| && Timetable(cfg, rank, e.time)[k] == e;
    DueNowIsFirst(cfg.Burst(), ReadLane(rank), e.time, k);
    UpdateFollowsTimetable(cfg, rank, e.time);
    UpdateHandsOver(cfg, rank);
  }

  /** In every run, a read that arrives at its rank in the cycle at time t is handed back by the rank in
      the cycle at time t + RL + BL/2, no earlier packet being overwritten on the way. */
  lemma ReadTakesItsLatency(cfg: Config, run: seq<System>, i: nat, j: nat, r: nat)
    requires IsRun(cfg, run) && i < j < |run| && run[j].halted.None? && r < cfg.numRanks
    requires run[i].Shape(cfg) && run[i+1].Shape(cfg) && run[j].Shape(cfg)
    requires ReadFor(run[i].outgoingCmd, r) && run[i+1].now == run[i].now + 1
    requires run[j].now == run[i].now + (cfg.cl + cfg.al) + cfg.bl / 2
    ensures Update(cfg, run[j].ranks[r]).1 == Some(run[i].outgoingCmd.value.(kind := Data))
  {
    hide Inv, Step, Initial, Buses, Cycle, Timetable, ReadBusOk, Update;
    RunStep(cfg, run, i);
    if i + 1 < j { RunStep(cfg, run, i + 1); }
    BusesStayOrderly(cfg, run, i);
    StepKeepsBuses(cfg, run[i], run[i+1]);
    CycleFollowsTimetable(cfg, run[i], r);
    var e := Booking(run[i].outgoingCmd.value.(kind := Data), run[i].now + cfg.ReadLatency() + cfg.Burst());
    assert e in Timetable(cfg, run[i].ranks[r], run[i].now) + [e];
    BookingStands(cfg, run, i + 1, j, r, e);
    BookingKept(cfg, run[j], r, e);
  }
}
