/** What a rank by itself lets through: whatever it is sent, by whatever controller, the commands it accepts keep to
    the rows and to the timing parameters, up to the two kinds of event that make it forget. */
module RankHistory {
  import opened DramTypes
  import opened RankSpec
  import opened ColumnSpacing
  import opened DelayCauses

  datatype Event = Receives(packet: BusPacket) | Sleeps | Wakes | Updates
  datatype Moment = Moment(time: nat, event: Event)

  /** None of the rank's error exits is taken. */
  ghost predicate Permits(cfg: Config, r: RankState, m: Moment) {
    match m.event
    case Receives(p) => p.bank < |r.banks| && Accepts(cfg, r, p, m.time)
    case Sleeps => MayPowerDown(r)
    case Wakes => MayPowerUp(r, m.time)
    case Updates => true
  }

  function After(cfg: Config, r: RankState, m: Moment): (r': RankState)
    requires cfg.Valid() && Parallel(r)
    ensures Parallel(r') && |r'.banks| == |r.banks|
  {
    match m.event
    case Receives(p) => Receive(cfg, r, p, m.time)
    case Sleeps => PoweredDown(cfg, r, m.time)
    case Wakes => PoweredUp(cfg, r, m.time)
    case Updates => Update(cfg, r).0
  }

  /** The rank after the first i events. */
  function Through(cfg: Config, r: RankState, h: seq<Moment>, i: nat): (r': RankState)
    requires cfg.Valid() && Parallel(r) && i <= |h|
    ensures Parallel(r') && |r'.banks| == |r.banks|
  {
    if i == 0 then r else After(cfg, Through(cfg, r, h, i - 1), h[i-1])
  }

  /** A history of events that the rank permits, in the order of time. */
  ghost predicate Permitted(cfg: Config, r: RankState, h: seq<Moment>)
    requires cfg.Valid() && Parallel(r)
  {
    && (forall i :: 0 <= i < |h| ==> Permits(cfg, Through(cfg, r, h, i), h[i]))
    && (forall i :: 0 < i < |h| ==> h[i-1].time <= h[i].time)
  }

  lemma EventStep(cfg: Config, r: RankState, h: seq<Moment>, i: nat)
    requires cfg.Valid() && Parallel(r) && Permitted(cfg, r, h) && i < |h|
    ensures Permits(cfg, Through(cfg, r, h, i), h[i]) && Through(cfg, r, h, i + 1) == After(cfg, Through(cfg, r, h, i), h[i])
    ensures i > 0 ==> h[i-1].time <= h[i].time
  {
    hide After, Permits;
  }

  /** The same for the record of one bank. */
  function BankAfter(cfg: Config, b: BankState, bank: nat, m: Moment): BankState
    requires cfg.Valid()
  {
    match m.event
    case Receives(p) => ReceiveBank(cfg, b, bank, p, m.time)
    case Sleeps => b.(nextPowerUp := m.time + cfg.tCKE, phase := PowerDown)
    case Wakes => b.(nextActivate := m.time + cfg.tXP, phase := Idle)
    case Updates => b
  }

  lemma AfterOneBank(cfg: Config, r: RankState, m: Moment, bank: nat)
    requires cfg.Valid() && Parallel(r) && bank < |r.banks|
    ensures After(cfg, r, m).banks[bank] == BankAfter(cfg, r.banks[bank], bank, m)
  {
    hide ReceiveBank;
  }

  // ----- rows -----

  /** The row that the last event for the bank left open. */
  function OpenRow(h: seq<Moment>, i: nat, bank: nat): Option<nat>
    requires i <= |h|
  {
    if i == 0 then None
    else
      match h[i-1].event
      case Receives(p) =>
        if p.bank != bank then OpenRow(h, i - 1, bank)
        else if p.kind.Activate? then Some(p.row)
        else if p.kind.Precharge? || p.kind.AutoPrecharges() then None
        else OpenRow(h, i - 1, bank)
      case _ => OpenRow(h, i - 1, bank)
  }

  ghost predicate ShowsRow(b: BankState, row: Option<nat>) {
    if row.Some? then b.phase.RowActive? && b.openRow == row.value else !b.phase.RowActive?
  }

  /** Power-on, or any other moment when the rank is up and has no row open. */
  predicate Closed(r: RankState) {
    !r.isPowerDown && forall b :: 0 <= b < |r.banks| ==> !r.banks[b].phase.RowActive?
  }

  ghost predicate DownTogether(r: RankState) {
    r.isPowerDown ==> forall b :: 0 <= b < |r.banks| ==> r.banks[b].phase.PowerDown?
  }

  lemma DownStep(cfg: Config, r: RankState, m: Moment)
    requires cfg.Valid() && Parallel(r) && Permits(cfg, r, m) && DownTogether(r)
    ensures DownTogether(After(cfg, r, m))
  {
    hide SpaceBank;
  }

  lemma {:induction false} StaysDownTogether(cfg: Config, r: RankState, h: seq<Moment>, i: nat)
    requires cfg.Valid() && Parallel(r) && Permitted(cfg, r, h) && i <= |h| && Closed(r)
    ensures DownTogether(Through(cfg, r, h, i))
    decreases i
  {
    hide After, Permits, DownTogether, Permitted, Closed;
    if i == 0 {
      ClosedIsUp(r);
    } else {
      EventStep(cfg, r, h, i - 1);
      StaysDownTogether(cfg, r, h, i - 1);
      DownStep(cfg, Through(cfg, r, h, i - 1), h[i-1]);
    }
  }

  lemma ClosedIsUp(r: RankState)
    requires Closed(r)
    ensures DownTogether(r)
  {}

  lemma ClosedBank(r: RankState, bank: nat)
    requires Closed(r) && bank < |r.banks|
    ensures !r.banks[bank].phase.RowActive?
  {}

  lemma NoRowYet(b: BankState, h: seq<Moment>, bank: nat)
    requires !b.phase.RowActive?
    ensures ShowsRow(b, OpenRow(h, 0, bank))
  {}

  lemma RowStep(cfg: Config, b: BankState, r: RankState, h: seq<Moment>, i: nat, bank: nat)
    requires cfg.Valid() && bank < |r.banks| && b == r.banks[bank] && i < |h| && Permits(cfg, r, h[i]) && DownTogether(r)
    requires ShowsRow(b, OpenRow(h, i, bank))
    ensures ShowsRow(BankAfter(cfg, b, bank, h[i]), OpenRow(h, i + 1, bank))
  {}

  lemma {:induction false} RowIsShown(cfg: Config, r: RankState, h: seq<Moment>, i: nat, bank: nat)
    requires cfg.Valid() && Parallel(r) && Permitted(cfg, r, h) && i <= |h| && bank < |r.banks|
    requires Closed(r)
    ensures ShowsRow(Through(cfg, r, h, i).banks[bank], OpenRow(h, i, bank))
    decreases i
  {
    hide After, BankAfter, ShowsRow, OpenRow, Permits, DownTogether, Permitted, Closed;
    if i == 0 {
      ClosedBank(r, bank);
      NoRowYet(r.banks[bank], h, bank);
    } else {
      EventStep(cfg, r, h, i - 1);
      var before := Through(cfg, r, h, i - 1);
      RowIsShown(cfg, r, h, i - 1, bank);
      StaysDownTogether(cfg, r, h, i - 1);
      AfterOneBank(cfg, before, h[i-1], bank);
      RowStep(cfg, before.banks[bank], before, h, i - 1, bank);
    }
  }

  /** A rank accepts a column command only for the row opened last in its bank and not closed since, an ACTIVATE only
      where no row is open, a PRECHARGE only where one is, and a REFRESH only when no bank has one. */
  lemma OnlyOpenRows(cfg: Config, r: RankState, h: seq<Moment>, j: nat, c: BusPacket)
    requires cfg.Valid() && Parallel(r) && Permitted(cfg, r, h) && j < |h| && h[j].event == Receives(c) && c.bank < |r.banks|
    requires Closed(r)
    ensures c.kind.IsColumn() ==> OpenRow(h, j, c.bank) == Some(c.row)
    ensures c.kind.Activate? ==> OpenRow(h, j, c.bank) == None
    ensures c.kind.Precharge? ==> OpenRow(h, j, c.bank).Some?
    ensures c.kind.Refresh? ==> forall b: nat :: b < |r.banks| ==> OpenRow(h, j, b) == None
  {
    hide OpenRow, Through, DownTogether;
    var before := Through(cfg, r, h, j);
    assert Permits(cfg, before, h[j]);
    RowIsShown(cfg, r, h, j, c.bank);
    if c.kind.Refresh? {
      forall b: nat | b < |r.banks| ensures OpenRow(h, j, b) == None {
        RowIsShown(cfg, r, h, j, b);
        assert before.banks[b].phase.Idle?;
      }
    }
  }

  // ----- times -----

  function Earliest(b: BankState, kind: Kind): nat {
    if kind.IsRead() then b.nextRead else if kind.IsWrite() then b.nextWrite
    else if kind.Precharge? then b.nextPrecharge else b.nextActivate
  }

  /** The parameters ask for d cycles from p to c, both for the same rank. */
  ghost predicate Asks(cfg: Config, p: BusPacket, c: BusPacket, d: int) {
    var own := p.bank == c.bank;
    match c.kind
    case Activate => DelaysActivate(cfg, p, own, d)
    case Precharge => Delays(cfg, p, p.rank, c.bank, ForPrecharge, d)
    case Refresh => false
    case Data => false
    case _ =>
      || (own && p.kind.Activate? && d == cfg.tRCD - cfg.al)
      || (p.kind.IsColumn() && d == DataGap(cfg, p.kind.IsRead(), c.kind.IsRead(), true))
  }

  /** The events that make a rank forget how long a bank has to wait: opening its row starts its column and PRECHARGE
      times afresh, a REFRESH or a power-up its ACTIVATE time. */
  predicate Forgets(m: Moment, c: BusPacket) {
    if c.kind.Activate? then m.event.Wakes? || (m.event.Receives? && m.event.packet.kind.Refresh?)
    else m.event.Receives? && m.event.packet.kind.Activate? && m.event.packet.bank == c.bank
  }

  lemma WaitStarts(cfg: Config, b: BankState, p: BusPacket, c: BusPacket, now: nat, d: int)
    requires cfg.Valid() && Asks(cfg, p, c, d)
    ensures now + d <= Earliest(BankAfter(cfg, b, c.bank, Moment(now, Receives(p))), c.kind)
  {}

  lemma WaitStands(cfg: Config, r: RankState, m: Moment, c: BusPacket, bound: int)
    requires cfg.Valid() && c.bank < |r.banks| && Permits(cfg, r, m) && !Forgets(m, c) && !c.kind.Refresh? && !c.kind.Data?
    requires bound <= Max(Earliest(r.banks[c.bank], c.kind), m.time)
    ensures bound <= Max(Earliest(BankAfter(cfg, r.banks[c.bank], c.bank, m), c.kind), m.time)
  {}

  lemma {:induction false} WaitIsKept(cfg: Config, r: RankState, h: seq<Moment>, i: nat, j: nat, p: BusPacket, c: BusPacket, d: int)
    requires cfg.Valid() && Parallel(r) && Permitted(cfg, r, h) && i < j <= |h| && h[i].event == Receives(p) && c.bank < |r.banks|
    requires Asks(cfg, p, c, d) && forall k :: i < k < j ==> !Forgets(h[k], c)
    ensures h[i].time + d <= Max(Earliest(Through(cfg, r, h, j).banks[c.bank], c.kind), h[j-1].time)
    decreases j
  {
    hide After, BankAfter, Permits, Forgets, Earliest, Permitted;
    EventStep(cfg, r, h, j - 1);
    var before := Through(cfg, r, h, j - 1);
    AfterOneBank(cfg, before, h[j-1], c.bank);
    if i == j - 1 {
      assert h[i] == Moment(h[i].time, Receives(p));
      WaitStarts(cfg, before.banks[c.bank], p, c, h[i].time, d);
    } else {
      WaitIsKept(cfg, r, h, i, j - 1, p, c, d);
      WaitStands(cfg, before, h[j-1], c, h[i].time + d);
    }
  }

  /** Whatever a rank is sent: of two commands it accepts, the second comes no sooner after the first than the
      parameters ask for, unless it was made to forget in between. */
  lemma AcceptedInTime(cfg: Config, r: RankState, h: seq<Moment>, i: nat, j: nat, p: BusPacket, c: BusPacket, d: int)
    requires cfg.Valid() && Parallel(r) && Permitted(cfg, r, h) && i < j < |h| && c.bank < |r.banks|
    requires h[i].event == Receives(p) && h[j].event == Receives(c)
    requires Asks(cfg, p, c, d) && forall k :: i < k < j ==> !Forgets(h[k], c)
    ensures h[j].time - h[i].time >= d
  {
    hide Through, Forgets;
    WaitIsKept(cfg, r, h, i, j, p, c, d);
    assert Permits(cfg, Through(cfg, r, h, j), h[j]);
  }
}
