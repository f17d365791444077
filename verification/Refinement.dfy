/** The controller's bank table refines every rank's own: in every run no rank ever rejects a command,
    a power-down or a power-up. */
module Refinement {
  import opened DramTypes
  import opened CommandQueueSpec
  import opened BankTiming
  import opened QueueInvariant
  import opened QueuePreservation
  import opened RankSpec
  import opened SystemSpec

  // ----- one bank -----

  /** Controller's record c and rank's record r of the same bank, when no command is on its way:
      commands reach the rank one cycle late, so its earliest times may lie one cycle later. */
  ghost predicate BankAgrees(c: BankState, r: BankState) {
    && r.nextActivate <= c.nextActivate + 1
    && match c.phase
       case RowActive =>
         if c.AutoPending() then r.phase.Idle?
         else r.phase.RowActive? && r.openRow == c.openRow && r.nextRead <= c.nextRead + 1
              && r.nextWrite <= c.nextWrite + 1 && r.nextPrecharge <= c.nextPrecharge + 1
       case PowerDown => r.phase.PowerDown? && r.nextPowerUp == c.nextPowerUp
       case _ => r.phase.Idle?
  }

  /** The rank's record once the packet on the command bus, if it is for this rank, has arrived. */
  function Arrived(cfg: Config, r: BankState, rank: nat, bank: nat, p: Option<BusPacket>, now: nat): BankState
    requires cfg.Valid()
  {
    if p.Some? && p.value.rank == rank then ReceiveBank(cfg, r, bank, p.value, now) else r
  }

  lemma ColumnFollows(cfg: Config, c: BankState, r: BankState, accesses: nat, rank: nat, bank: nat, p: BusPacket, now: nat)
    requires cfg.Valid() && BankOk(cfg, c, accesses, now) && BankAgrees(c, r) && p.kind.IsColumn()
    requires rank == p.rank && bank == p.bank ==> Suits(cfg, c, accesses, p, now)
    ensures BankAgrees(TickBank(cfg, Sent(cfg, c, rank, bank, p, now)), Arrived(cfg, r, rank, bank, Some(p), now + 1))
  {
    if rank == p.rank && bank == p.bank {
      if p.kind.AutoPrecharges() {
        assert !c.AutoPending();
      } else {
        assert r.phase.RowActive?;
      }
    }
  }

  lemma RowFollows(cfg: Config, c: BankState, r: BankState, accesses: nat, rank: nat, bank: nat, p: BusPacket, now: nat)
    requires cfg.Valid() && BankOk(cfg, c, accesses, now) && BankAgrees(c, r) && !p.kind.IsColumn() && !p.kind.Data?
    requires rank == p.rank && (bank == p.bank || p.kind.Refresh?) ==> Suits(cfg, c, accesses, p, now)
    ensures BankAgrees(TickBank(cfg, Sent(cfg, c, rank, bank, p, now)), Arrived(cfg, r, rank, bank, Some(p), now + 1))
  {}

  /** A command that suits the controller's record leaves the two records in agreement one cycle later. */
  lemma BankFollows(cfg: Config, c: BankState, r: BankState, accesses: nat, rank: nat, bank: nat, p: BusPacket, now: nat)
    requires cfg.Valid() && BankOk(cfg, c, accesses, now) && BankAgrees(c, r)
    requires rank == p.rank && (bank == p.bank || p.kind.Refresh?) ==> Suits(cfg, c, accesses, p, now)
    ensures BankAgrees(TickBank(cfg, Sent(cfg, c, rank, bank, p, now)), Arrived(cfg, r, rank, bank, Some(p), now + 1))
  {
    if p.kind.IsColumn() {
      ColumnFollows(cfg, c, r, accesses, rank, bank, p, now);
    } else if p.kind.Data? {
      BankRests(cfg, c, r, accesses, now);
    } else {
      RowFollows(cfg, c, r, accesses, rank, bank, p, now);
    }
  }

  /** Without a command the countdowns alone keep the agreement. */
  lemma BankRests(cfg: Config, c: BankState, r: BankState, accesses: nat, now: nat)
    requires cfg.Valid() && BankOk(cfg, c, accesses, now) && BankAgrees(c, r)
    ensures BankAgrees(TickBank(cfg, c), r)
  {}

  /** What suits the controller's record is accepted by the rank one cycle later. */
  lemma SuitedIsAccepted(cfg: Config, banks: BankRow, accesses: seq<nat>, r: RankState, p: BusPacket, now: nat)
    requires cfg.Valid() && |banks| == |accesses| == |r.banks| == cfg.numBanks && p.bank < cfg.numBanks
    requires forall b :: 0 <= b < cfg.numBanks ==> BankOk(cfg, banks[b], accesses[b], now) && BankAgrees(banks[b], r.banks[b])
    requires forall b :: 0 <= b < cfg.numBanks && (b == p.bank || p.kind.Refresh?) ==> Suits(cfg, banks[b], accesses[b], p, now)
    ensures Accepts(cfg, r, p, now + 1)
  {
    assert BankOk(cfg, banks[p.bank], accesses[p.bank], now) && BankAgrees(banks[p.bank], r.banks[p.bank]);
    if p.kind.Refresh? {
      forall b | 0 <= b < cfg.numBanks ensures r.banks[b].phase.Idle? {
        assert BankOk(cfg, banks[b], accesses[b], now) && BankAgrees(banks[b], r.banks[b]);
        assert Suits(cfg, banks[b], accesses[b], p, now);
      }
    }
  }

  // ----- the system -----

  ghost predicate PowerAgrees(powerDown: bool, banks: BankRow, isPowerDown: bool) {
    && |banks| >= 1 && isPowerDown == powerDown
    && (forall b :: 0 <= b < |banks| ==> banks[b].phase.PowerDown? == powerDown)
    && (powerDown ==> forall b :: 0 <= b < |banks| ==> banks[b].nextPowerUp == banks[0].nextPowerUp)
    && (forall b :: 0 <= b < |banks| && (banks[b].phase.Idle? || banks[b].phase.PowerDown?) ==> banks[b].countdown == 0)
  }

  ghost predicate RankAgrees(banks: BankRow, rankBanks: BankRow, powerDown: bool, isPowerDown: bool) {
    && |rankBanks| == |banks|
    && PowerAgrees(powerDown, banks, isPowerDown)
    && forall b :: 0 <= b < |banks| ==> BankAgrees(banks[b], rankBanks[b])
  }

  /** Everything agrees and the command bus is free: the situation whenever pop is called. */
  ghost predicate Agree(cfg: Config, s: System) {
    && s.Shape(cfg) && s.halted.None? && s.outgoingCmd.None?
    && QueuesOk(cfg, s.q, s.banks, s.now)
    && forall r :: 0 <= r < cfg.numRanks ==> RankAgrees(s.banks[r], s.ranks[r].banks, s.powerDown[r], s.ranks[r].isPowerDown)
  }

  ghost predicate RankFollows(cfg: Config, banks: BankRow, rankBanks: BankRow, rank: nat, cmd: Option<BusPacket>, t: nat)
    requires cfg.Valid()
  {
    && |rankBanks| == |banks|
    && forall b :: 0 <= b < |banks| ==> BankAgrees(TickBank(cfg, banks[b]), Arrived(cfg, rankBanks[b], rank, b, cmd, t))
  }

  ghost predicate CommandOk(cfg: Config, s: System, t: nat)
    requires s.Shape(cfg)
  {
    s.outgoingCmd.Some? ==>
      var p := s.outgoingCmd.value;
      s.cmdCyclesLeft == 1 && Accepts(cfg, s.ranks[p.rank], p, t)
      && !AllIdle(s.banks[p.rank]) && !s.powerDown[p.rank]
  }

  /** Everything will agree, and the command on the bus will be accepted, at the next tick, at time t. */
  ghost predicate Following(cfg: Config, s: System, t: nat) {
    && s.Shape(cfg) && s.halted.None?
    && QueuesOk(cfg, s.q, TickTable(cfg, s.banks), t)
    && CommandOk(cfg, s, t)
    && (forall r :: 0 <= r < cfg.numRanks ==> RankFollows(cfg, s.banks[r], s.ranks[r].banks, r, s.outgoingCmd, t))
    && (forall r :: 0 <= r < cfg.numRanks ==> PowerAgrees(s.powerDown[r], s.banks[r], s.ranks[r].isPowerDown))
  }

  /** The invariant between cycles. */
  ghost predicate Inv(cfg: Config, s: System) { Following(cfg, s, s.now) }

  // ----- first half -----

  lemma TickedPower(cfg: Config, powerDown: bool, banks: BankRow, isPowerDown: bool, banks': BankRow, accesses: seq<nat>, t: nat)
    requires PowerAgrees(powerDown, banks, isPowerDown)
    requires |banks'| == |banks| == |accesses|
    requires forall b :: 0 <= b < |banks| ==> banks'[b] == TickBank(cfg, banks[b]) && BankOk(cfg, banks'[b], accesses[b], t)
    ensures PowerAgrees(powerDown, banks', isPowerDown)
  {
    forall b | 0 <= b < |banks|
      ensures banks'[b].phase.PowerDown? == powerDown
      ensures powerDown ==> banks'[b].nextPowerUp == banks[b].nextPowerUp
      ensures banks'[b].phase.Idle? || banks'[b].phase.PowerDown? ==> banks'[b].countdown == 0
    {
      assert BankOk(cfg, banks'[b], accesses[b], t);
    }
  }

  /** One rank at the tick: the countdowns run and the command, if it is for this rank, arrives. */
  lemma RankArrives(cfg: Config, s: System, r: nat)
    requires Inv(cfg, s) && r < cfg.numRanks
    ensures RankAgrees(TickTable(cfg, s.banks)[r],
      seq(cfg.numBanks, b requires 0 <= b < cfg.numBanks => Arrived(cfg, s.ranks[r].banks[b], r, b, s.outgoingCmd, s.now)),
      s.powerDown[r], s.ranks[r].isPowerDown)
  {
    var banks' := TickTable(cfg, s.banks);
    assert RankFollows(cfg, s.banks[r], s.ranks[r].banks, r, s.outgoingCmd, s.now);
    assert PowerAgrees(s.powerDown[r], s.banks[r], s.ranks[r].isPowerDown);
    assert RankOk(cfg, s.q.queues[r], ViewOf(s.q, banks', r), s.now);
    TickedPower(cfg, s.powerDown[r], s.banks[r], s.ranks[r].isPowerDown, banks'[r], s.q.rowAccess[r], s.now);
  }

  function AtCommand(cfg: Config, s: System): (m: System)
    requires s.Shape(cfg)
    ensures m.Shape(cfg)
  {
    CommandPhase(cfg, TickPhase(cfg, BacklogPhase(cfg, RanksPhase(cfg, s))))
  }

  /** The fields the agreement is about. */
  ghost predicate SameCore(s: System, s': System) {
    && s'.now == s.now && s'.q == s.q && s'.banks == s.banks && s'.powerDown == s.powerDown
    && s'.outgoingCmd == s.outgoingCmd && s'.cmdCyclesLeft == s.cmdCyclesLeft
    && |s'.ranks| == |s.ranks|
    && forall r :: 0 <= r < |s.ranks| ==> s'.ranks[r].banks == s.ranks[r].banks && s'.ranks[r].isPowerDown == s.ranks[r].isPowerDown
  }

  lemma UpdateKeepsBanks(cfg: Config, r: RankState)
    requires Parallel(r)
    ensures var r' := Update(cfg, r).0; r'.banks == r.banks && r'.isPowerDown == r.isPowerDown
  {}

  lemma RanksCore(cfg: Config, s: System)
    requires s.Shape(cfg)
    ensures var s' := RanksPhase(cfg, s); SameCore(s, s') && s'.halted == s.halted
  {
    hide Update;
    forall r | 0 <= r < cfg.numRanks
      ensures var r' := Update(cfg, s.ranks[r]).0; r'.banks == s.ranks[r].banks && r'.isPowerDown == s.ranks[r].isPowerDown
    {
      UpdateKeepsBanks(cfg, s.ranks[r]);
    }
  }

  lemma BacklogCore(cfg: Config, s: System)
    requires s.Shape(cfg)
    ensures var s' := BacklogPhase(cfg, s); SameCore(s, s') && s'.halted == s.halted
  {}

  lemma Delivery(cfg: Config, s: System)
    requires s.Shape(cfg) && s.halted.None?
    requires s.outgoingCmd.Some? ==>
      s.cmdCyclesLeft == 1 && Accepts(cfg, s.ranks[s.outgoingCmd.value.rank], s.outgoingCmd.value, s.now)
    ensures var m := CommandPhase(cfg, s);
      && m.halted.None? && m.outgoingCmd.None? && m.now == s.now && m.q == s.q
      && m.banks == s.banks && m.powerDown == s.powerDown
      && forall r :: 0 <= r < cfg.numRanks ==>
           && m.ranks[r].isPowerDown == s.ranks[r].isPowerDown
           && m.ranks[r].banks == seq(cfg.numBanks, b requires 0 <= b < cfg.numBanks =>
                Arrived(cfg, s.ranks[r].banks[b], r, b, s.outgoingCmd, s.now))
  {}

  lemma AcceptsByBanks(cfg: Config, r: RankState, r': RankState, p: BusPacket, now: nat)
    requires p.bank < |r.banks| && r'.banks == r.banks
    ensures Accepts(cfg, r, p, now) == Accepts(cfg, r', p, now)
  {}

  /** The command on the bus arrives, is accepted, and everything agrees. */
  lemma CommandArrives(cfg: Config, s: System)
    requires Inv(cfg, s)
    ensures Agree(cfg, AtCommand(cfg, s))
  {
    var s1 := BacklogPhase(cfg, RanksPhase(cfg, s));
    RanksCore(cfg, s);
    BacklogCore(cfg, RanksPhase(cfg, s));
    var s2 := TickPhase(cfg, s1);
    if s.outgoingCmd.Some? {
      var p := s.outgoingCmd.value;
      AcceptsByBanks(cfg, s.ranks[p.rank], s2.ranks[p.rank], p, s.now);
    }
    Delivery(cfg, s2);
    forall r | 0 <= r < cfg.numRanks
      ensures var m := CommandPhase(cfg, s2); RankAgrees(m.banks[r], m.ranks[r].banks, m.powerDown[r], m.ranks[r].isPowerDown)
    {
      RankArrives(cfg, s, r);
    }
  }

  lemma SameAgreement(cfg: Config, s: System, s': System)
    requires Agree(cfg, s) && s'.Shape(cfg) && s'.halted.None? && SameCore(s, s')
    ensures Agree(cfg, s')
  {
    forall r | 0 <= r < cfg.numRanks
      ensures RankAgrees(s'.banks[r], s'.ranks[r].banks, s'.powerDown[r], s'.ranks[r].isPowerDown)
    {
      assert RankAgrees(s.banks[r], s.ranks[r].banks, s.powerDown[r], s.ranks[r].isPowerDown);
    }
  }

  /** Asking for a refresh changes nothing the agreement is about. */
  lemma RefreshAgrees(cfg: Config, s: System)
    requires Agree(cfg, s)
    ensures Agree(cfg, RefreshPhase(cfg, s))
  {
    var s1 := RefreshPhase(cfg, s).(q := s.q);
    assert SameCore(s, s1);
    SameAgreement(cfg, s, s1);
    var s' := s1.(q := RefreshPhase(cfg, s).q);
    forall r | 0 <= r < cfg.numRanks ensures RankOk(cfg, s'.q.queues[r], ViewOf(s'.q, s'.banks, r), s'.now) {
      assert RankOk(cfg, s.q.queues[r], ViewOf(s.q, s.banks, r), s.now);
    }
  }

  lemma BusesCore(cfg: Config, s: System)
    requires s.Shape(cfg) && s.halted.None?
    ensures var s' := WritePhase(cfg, DataPhase(cfg, s));
      SameCore(s, s') && (s'.halted.Some? ==> s'.halted.value.DataBusCollision?)
  {}

  /** Up to the call of pop, the only exit that may be taken is the write data collision. */
  lemma FirstHalfAgrees(cfg: Config, s: System)
    requires Inv(cfg, s)
    ensures var m := FirstHalf(cfg, s);
      if m.halted.Some? then m.halted.value.DataBusCollision? else Agree(cfg, m)
  {
    CommandArrives(cfg, s);
    var s1 := AtCommand(cfg, s);
    BusesCore(cfg, s1);
    var s2 := WritePhase(cfg, DataPhase(cfg, s1));
    if s2.halted.None? {
      SameAgreement(cfg, s1, s2);
      RefreshAgrees(cfg, s2);
    }
  }

  // ----- second half -----

  lemma RankFollowsCommand(cfg: Config, s: System, p: BusPacket, r: nat)
    requires Agree(cfg, s) && r < cfg.numRanks && CommandSuits(cfg, s.q, s.banks, p, s.now)
    ensures RankFollows(cfg, SentTable(cfg, s.banks, p, s.now)[r], s.ranks[r].banks, r, Some(p), s.now + 1)
  {
    hide BankOk, BankAgrees, Suits, QueueOk, Sent, TickBank, RankFollows, PowerAgrees;
    assert RankOk(cfg, s.q.queues[r], ViewOf(s.q, s.banks, r), s.now);
    assert RankAgrees(s.banks[r], s.ranks[r].banks, s.powerDown[r], s.ranks[r].isPowerDown);
    RowFollowsCommand(cfg, s.banks[r], s.q.rowAccess[r], s.ranks[r].banks, r, p, s.now);
  }

  lemma RowFollowsCommand(cfg: Config, banks: BankRow, accesses: seq<nat>, rankBanks: BankRow, r: nat, p: BusPacket, now: nat)
    requires cfg.Valid() && |banks| == |accesses| == |rankBanks|
    requires forall b :: 0 <= b < |banks| ==> BankOk(cfg, banks[b], accesses[b], now) && BankAgrees(banks[b], rankBanks[b])
    requires r == p.rank ==>
      forall b :: 0 <= b < |banks| && (b == p.bank || p.kind.Refresh?) ==> Suits(cfg, banks[b], accesses[b], p, now)
    ensures RankFollows(cfg, SentRow(cfg, banks, r, p, now), rankBanks, r, Some(p), now + 1)
  {
    forall b | 0 <= b < |banks|
      ensures BankAgrees(TickBank(cfg, Sent(cfg, banks[b], r, b, p, now)), Arrived(cfg, rankBanks[b], r, b, Some(p), now + 1))
    {
      assert BankOk(cfg, banks[b], accesses[b], now) && BankAgrees(banks[b], rankBanks[b]);
      BankFollows(cfg, banks[b], rankBanks[b], accesses[b], r, b, p, now);
    }
  }

  lemma RankFollowsRest(cfg: Config, s: System, r: nat)
    requires Agree(cfg, s) && r < cfg.numRanks
    ensures RankFollows(cfg, s.banks[r], s.ranks[r].banks, r, None, s.now + 1)
  {
    assert RankOk(cfg, s.q.queues[r], ViewOf(s.q, s.banks, r), s.now);
    assert RankAgrees(s.banks[r], s.ranks[r].banks, s.powerDown[r], s.ranks[r].isPowerDown);
    forall b | 0 <= b < cfg.numBanks
      ensures BankAgrees(TickBank(cfg, s.banks[r][b]), s.ranks[r].banks[b])
    {
      assert BankOk(cfg, s.banks[r][b], s.q.rowAccess[r][b], s.now) && BankAgrees(s.banks[r][b], s.ranks[r].banks[b]);
      BankRests(cfg, s.banks[r][b], s.ranks[r].banks[b], s.q.rowAccess[r][b], s.now);
    }
  }

  /** Sending a command leaves its rank busy, so that it is not powered down meanwhile. */
  lemma SentPower(cfg: Config, s: System, p: BusPacket, r: nat)
    requires Agree(cfg, s) && r < cfg.numRanks && CommandSuits(cfg, s.q, s.banks, p, s.now)
    ensures var banks' := SentTable(cfg, s.banks, p, s.now);
      PowerAgrees(s.powerDown[r], banks'[r], s.ranks[r].isPowerDown)
      && (r == p.rank ==> !AllIdle(banks'[r]) && !s.powerDown[r])
  {
    var banks': Table := SentTable(cfg, s.banks, p, s.now);
    assert RankOk(cfg, s.q.queues[r], ViewOf(s.q, s.banks, r), s.now);
    assert PowerAgrees(s.powerDown[r], s.banks[r], s.ranks[r].isPowerDown);
    forall b | 0 <= b < cfg.numBanks
      ensures banks'[r][b].phase.PowerDown? == s.powerDown[r]
      ensures s.powerDown[r] ==> banks'[r][b].nextPowerUp == s.banks[r][b].nextPowerUp
      ensures banks'[r][b].phase.Idle? || banks'[r][b].phase.PowerDown? ==> banks'[r][b].countdown == 0
    {
      assert BankOk(cfg, s.banks[r][b], s.q.rowAccess[r][b], s.now);
      SentPhase(cfg, s.banks[r][b], s.q.rowAccess[r][b], r, b, p, s.now);
    }
    if r == p.rank {
      SentPhase(cfg, s.banks[r][p.bank], s.q.rowAccess[r][p.bank], r, p.bank, p, s.now);
      assert !banks'[r][p.bank].phase.Idle?;
    }
  }

  lemma SentPhase(cfg: Config, c: BankState, accesses: nat, rank: nat, bank: nat, p: BusPacket, now: nat)
    requires cfg.Valid() && BankOk(cfg, c, accesses, now)
    requires rank == p.rank && (bank == p.bank || p.kind.Refresh?) ==> Suits(cfg, c, accesses, p, now)
    ensures var c' := Sent(cfg, c, rank, bank, p, now);
      && c'.phase.PowerDown? == c.phase.PowerDown? && c'.nextPowerUp == c.nextPowerUp
      && (c'.phase.Idle? || c'.phase.PowerDown? ==> c'.countdown == 0)
      && (rank == p.rank && bank == p.bank ==> !c'.phase.Idle? && !c'.phase.PowerDown?)
  {}

  /** The power flags and the ranks' tables at the next tick, after sending p (or nothing). */
  lemma RanksFollow(cfg: Config, s: System, p: Option<BusPacket>)
    requires Agree(cfg, s) && (p.Some? ==> CommandSuits(cfg, s.q, s.banks, p.value, s.now))
    ensures var banks' := if p.Some? then SentTable(cfg, s.banks, p.value, s.now) else s.banks;
      forall r :: 0 <= r < cfg.numRanks ==>
        && RankFollows(cfg, banks'[r], s.ranks[r].banks, r, p, s.now + 1)
        && PowerAgrees(s.powerDown[r], banks'[r], s.ranks[r].isPowerDown)
  {
    var banks' := if p.Some? then SentTable(cfg, s.banks, p.value, s.now) else s.banks;
    forall r | 0 <= r < cfg.numRanks
      ensures RankFollows(cfg, banks'[r], s.ranks[r].banks, r, p, s.now + 1)
      ensures PowerAgrees(s.powerDown[r], banks'[r], s.ranks[r].isPowerDown)
    {
      if p.Some? {
        RankFollowsCommand(cfg, s, p.value, r);
        SentPower(cfg, s, p.value, r);
      } else {
        RankFollowsRest(cfg, s, r);
        assert RankAgrees(s.banks[r], s.ranks[r].banks, s.powerDown[r], s.ranks[r].isPowerDown);
      }
    }
  }

  lemma IssuePhaseFields(cfg: Config, s: System)
    requires s.Shape(cfg) && s.halted.None? && s.outgoingCmd.None?
    ensures var (q', p) := Pop(cfg, s.q, s.banks, s.now);
      var s' := IssuePhase(cfg, s);
      && s'.halted.None? && s'.now == s.now && s'.q == q' && s'.ranks == s.ranks && s'.powerDown == s.powerDown
      && s'.outgoingCmd == p && (p.Some? ==> s'.cmdCyclesLeft == 1)
      && s'.banks == (if p.Some? then SentTable(cfg, s.banks, p.value, s.now) else s.banks)
  {}

  /** Issuing a command establishes what the next tick needs. */
  lemma IssueFollows(cfg: Config, s: System)
    requires Agree(cfg, s)
    ensures Following(cfg, IssuePhase(cfg, s), s.now + 1)
    ensures IssuePhase(cfg, s).now == s.now
  {
    PopKeepsQueues(cfg, s.q, s.banks, s.now);
    var (q', p) := Pop(cfg, s.q, s.banks, s.now);
    IssuePhaseFields(cfg, s);
    RanksFollow(cfg, s, p);
    if p.Some? { IssuedIsAccepted(cfg, s, p.value); }
  }

  lemma IssuedIsAccepted(cfg: Config, s: System, p: BusPacket)
    requires Agree(cfg, s) && CommandSuits(cfg, s.q, s.banks, p, s.now)
    ensures Accepts(cfg, s.ranks[p.rank], p, s.now + 1)
    ensures !AllIdle(SentTable(cfg, s.banks, p, s.now)[p.rank]) && !s.powerDown[p.rank]
  {
    var r := p.rank;
    assert RankOk(cfg, s.q.queues[r], ViewOf(s.q, s.banks, r), s.now);
    assert RankAgrees(s.banks[r], s.ranks[r].banks, s.powerDown[r], s.ranks[r].isPowerDown);
    SuitedIsAccepted(cfg, s.banks[r], s.q.rowAccess[r], s.ranks[r], p, s.now);
    SentPower(cfg, s, p, r);
  }

  lemma SplitAtFollows(cfg: Config, s: System, i: nat, t: nat)
    requires Following(cfg, s, t) && i < |s.transactions|
    ensures Following(cfg, SplitAt(cfg, s, i), t) && SplitAt(cfg, s, i).now == s.now && SplitAt(cfg, s, i).halted.None?
  {
    var (a, c) := CommandsOf(cfg, s.transactions[i]);
    var s' := SplitOne(cfg, s, i);
    var banks' := TickTable(cfg, s.banks);
    assert RankOk(cfg, s.q.queues[a.rank], ViewOf(s.q, banks', a.rank), t);
    var k := cfg.SlotOf(a.bank);
    assert QueueOk(cfg, s.q.queues[a.rank][k], k, ViewOf(s.q, banks', a.rank));
    assert s'.q.queues[a.rank][k] == s.q.queues[a.rank][k] + [a, c];
    if HasRoomFor(cfg, s.q, 2, a.rank, a.bank) { NewPairOk(cfg, s.q, s'.q, banks', a, c, t); }
  }

  /** Breaking up transactions never overfills a queue and disturbs nothing. */
  lemma {:induction false} SplitFollows(cfg: Config, s: System, i: nat, t: nat)
    requires s.Shape(cfg) && s.halted.None? && Following(cfg, s, t)
    ensures SplitFrom(cfg, s, i).halted.None? && Following(cfg, SplitFrom(cfg, s, i), t)
    ensures SplitFrom(cfg, s, i).now == s.now
    decreases |s.transactions| - i
  {
    hide Following, SplitAt;
    if i < |s.transactions| {
      SplitAtFollows(cfg, s, i, t);
      SplitFollows(cfg, SplitAt(cfg, s, i), i + 1, t);
    }
  }

  /** No command is on its way to a rank that is idle or powered down. */
  lemma RestingRank(cfg: Config, s: System, r: nat, t: nat)
    requires Following(cfg, s, t) && r < cfg.numRanks && (AllIdle(s.banks[r]) || s.powerDown[r])
    ensures s.outgoingCmd.None? || s.outgoingCmd.value.rank != r
    ensures |s.ranks[r].banks| == |s.banks[r]|
    ensures forall b :: 0 <= b < cfg.numBanks ==> s.banks[r][b].countdown == 0 && BankAgrees(s.banks[r][b], s.ranks[r].banks[b])
  {
    assert RankFollows(cfg, s.banks[r], s.ranks[r].banks, r, s.outgoingCmd, t);
    assert PowerAgrees(s.powerDown[r], s.banks[r], s.ranks[r].isPowerDown);
  }

  /** The power manager's decision is always allowed by the rank. */
  lemma PowerMoveAllowed(cfg: Config, s: System, r: nat, t: nat)
    requires Following(cfg, s, t) && r < cfg.numRanks
    ensures PowerMoveOf(cfg, s, r).GoDown? ==> MayPowerDown(s.ranks[r])
    ensures PowerMoveOf(cfg, s, r).GoUp? ==> MayPowerUp(s.ranks[r], s.now)
  {
    assert PowerAgrees(s.powerDown[r], s.banks[r], s.ranks[r].isPowerDown);
    if !PowerMoveOf(cfg, s, r).Stay? { RestingRank(cfg, s, r, t); }
  }

  lemma PowerKeepsQueues(cfg: Config, s: System, r: nat, t: nat)
    requires Following(cfg, s, t) && r < cfg.numRanks && !PowerMoveOf(cfg, s, r).Stay?
    ensures QueuesOk(cfg, s.q, TickTable(cfg, s.banks[r := PowerBanks(cfg, s.banks[r], PowerMoveOf(cfg, s, r), s.now)]), t)
  {
    var banks' := PowerBanks(cfg, s.banks[r], PowerMoveOf(cfg, s, r), s.now);
    var old_t, new_t := TickTable(cfg, s.banks), TickTable(cfg, s.banks[r := banks']);
    PoweredRow(cfg, s, r, t);
    assert TickRow(cfg, banks') == banks';
    assert new_t == old_t[r := banks'];
    NewRowOk(cfg, s.q, old_t, r, banks', t);
  }

  lemma PoweredRankFollows(cfg: Config, s: System, r: nat, t: nat)
    requires Following(cfg, s, t) && r < cfg.numRanks && !PowerMoveOf(cfg, s, r).Stay?
    ensures var s' := PowerRank(cfg, s, r);
      && RankFollows(cfg, s'.banks[r], s'.ranks[r].banks, r, s'.outgoingCmd, t)
      && PowerAgrees(s'.powerDown[r], s'.banks[r], s'.ranks[r].isPowerDown)
  {
    PowerMoveAllowed(cfg, s, r, t);
    RestingRank(cfg, s, r, t);
    PoweredRow(cfg, s, r, t);
    assert PowerAgrees(s.powerDown[r], s.banks[r], s.ranks[r].isPowerDown);
  }

  /** A power move touches one rank only. */
  lemma PowerRankFields(cfg: Config, s: System, r: nat, t: nat)
    requires Following(cfg, s, t) && r < cfg.numRanks && !PowerMoveOf(cfg, s, r).Stay?
    ensures var s' := PowerRank(cfg, s, r);
      && s'.halted.None? && s'.now == s.now && s'.q == s.q
      && s'.outgoingCmd == s.outgoingCmd && s'.cmdCyclesLeft == s.cmdCyclesLeft
      && s'.banks == s.banks[r := PowerBanks(cfg, s.banks[r], PowerMoveOf(cfg, s, r), s.now)]
      && (s.outgoingCmd.Some? ==> s.outgoingCmd.value.rank != r)
      && forall i :: 0 <= i < cfg.numRanks && i != r ==> s'.ranks[i] == s.ranks[i] && s'.powerDown[i] == s.powerDown[i]
  {
    PowerMoveAllowed(cfg, s, r, t);
    RestingRank(cfg, s, r, t);
  }

  lemma PowerRankFollows(cfg: Config, s: System, r: nat, t: nat)
    requires Following(cfg, s, t) && r < cfg.numRanks
    ensures Following(cfg, PowerRank(cfg, s, r), t) && PowerRank(cfg, s, r).now == s.now && PowerRank(cfg, s, r).halted.None?
  {
    if !PowerMoveOf(cfg, s, r).Stay? {
      PowerRankFields(cfg, s, r, t);
      PowerKeepsQueues(cfg, s, r, t);
      var s' := PowerRank(cfg, s, r);
      forall i | 0 <= i < cfg.numRanks
        ensures RankFollows(cfg, s'.banks[i], s'.ranks[i].banks, i, s'.outgoingCmd, t)
        ensures PowerAgrees(s'.powerDown[i], s'.banks[i], s'.ranks[i].isPowerDown)
      {
        if i == r { PoweredRankFollows(cfg, s, r, t); }
        else {
          assert RankFollows(cfg, s.banks[i], s.ranks[i].banks, i, s.outgoingCmd, t);
          assert PowerAgrees(s.powerDown[i], s.banks[i], s.ranks[i].isPowerDown);
        }
      }
    }
  }

  /** The rank's row of bank records after a power move. */
  lemma PoweredRow(cfg: Config, s: System, r: nat, t: nat)
    requires Following(cfg, s, t) && r < cfg.numRanks && !PowerMoveOf(cfg, s, r).Stay?
    ensures var banks' := PowerBanks(cfg, s.banks[r], PowerMoveOf(cfg, s, r), s.now);
      forall b :: 0 <= b < cfg.numBanks ==>
        && TickBank(cfg, banks'[b]) == banks'[b] && BankOk(cfg, banks'[b], s.q.rowAccess[r][b], t)
        && !TickBank(cfg, s.banks[r][b]).Usable()
  {
    var old_t := TickTable(cfg, s.banks);
    RestingRank(cfg, s, r, t);
    assert PowerAgrees(s.powerDown[r], s.banks[r], s.ranks[r].isPowerDown);
    assert RankOk(cfg, s.q.queues[r], ViewOf(s.q, old_t, r), t);
    forall b | 0 <= b < cfg.numBanks
      ensures var b' := PowerBanks(cfg, s.banks[r], PowerMoveOf(cfg, s, r), s.now)[b];
        TickBank(cfg, b') == b' && BankOk(cfg, b', s.q.rowAccess[r][b], t) && !TickBank(cfg, s.banks[r][b]).Usable()
    {
      assert BankOk(cfg, old_t[r][b], s.q.rowAccess[r][b], t);
    }
  }

  lemma {:induction false} PowerFollows(cfg: Config, s: System, r: nat, t: nat)
    requires s.Shape(cfg) && s.halted.None? && Following(cfg, s, t)
    ensures PowerFrom(cfg, s, r).halted.None? && Following(cfg, PowerFrom(cfg, s, r), t) && PowerFrom(cfg, s, r).now == s.now
    decreases cfg.numRanks - r
  {
    hide Following, PowerRank;
    if r < cfg.numRanks {
      PowerRankFollows(cfg, s, r, t);
      PowerFollows(cfg, PowerRank(cfg, s, r), r + 1, t);
    }
  }

  lemma SameFollowing(cfg: Config, s: System, s': System, t: nat)
    requires Following(cfg, s, t) && s'.Shape(cfg) && s'.halted.None?
    requires s'.q == s.q && s'.banks == s.banks && s'.powerDown == s.powerDown && s'.ranks == s.ranks
    requires s'.outgoingCmd == s.outgoingCmd && s'.cmdCyclesLeft == s.cmdCyclesLeft
    ensures Following(cfg, s', t)
  {}

  lemma TailFollows(cfg: Config, s: System, t: nat)
    requires Following(cfg, s, t)
    ensures Following(cfg, ClockPhase(cfg, AnswerPhase(cfg, s)), t)
    ensures ClockPhase(cfg, AnswerPhase(cfg, s)).now == s.now + 1
  {
    SameFollowing(cfg, s, AnswerPhase(cfg, s), t);
    SameFollowing(cfg, AnswerPhase(cfg, s), ClockPhase(cfg, AnswerPhase(cfg, s)), t);
  }

  lemma IssueAndSplit(cfg: Config, s: System)
    requires Agree(cfg, s)
    ensures IssuePhase(cfg, s).halted.None? && SplitFrom(cfg, IssuePhase(cfg, s), 0).now == s.now
    ensures Following(cfg, SplitFrom(cfg, IssuePhase(cfg, s), 0), s.now + 1)
  {
    IssueFollows(cfg, s);
    SplitFollows(cfg, IssuePhase(cfg, s), 0, s.now + 1);
  }

  lemma PowerAndTail(cfg: Config, s: System)
    requires Following(cfg, s, s.now + 1)
    ensures PowerFrom(cfg, s, 0).halted.None?
    ensures Inv(cfg, ClockPhase(cfg, AnswerPhase(cfg, PowerFrom(cfg, s, 0))))
  {
    hide QueuesOk, CommandOk, RankFollows, PowerAgrees, AnswerPhase, ClockPhase;
    PowerFollows(cfg, s, 0, s.now + 1);
    TailFollows(cfg, PowerFrom(cfg, s, 0), s.now + 1);
  }

  /** From pop to the end of the cycle no exit is taken at all. */
  lemma SecondHalfFollows(cfg: Config, s: System)
    requires Agree(cfg, s)
    ensures Inv(cfg, SecondHalf(cfg, s))
  {
    hide Following, PowerFrom, SplitFrom, IssuePhase, AnswerPhase, ClockPhase;
    IssueAndSplit(cfg, s);
    PowerAndTail(cfg, SplitFrom(cfg, IssuePhase(cfg, s), 0));
  }

  // ----- runs -----

  /** The system at power-on. */
  ghost predicate Initial(cfg: Config, s: System) {
    && s.Shape(cfg) && s.halted.None? && s.now == 0
    && s.outgoingCmd.None? && s.outgoingData.None? && s.writeDataCountdown == []
    && s.transactions == [] && s.overflow == [] && s.pendingReads == [] && s.returned == []
    && (forall r, k :: 0 <= r < |s.q.queues| && 0 <= k < |s.q.queues[r]| ==> s.q.queues[r][k] == [])
    && (forall r :: 0 <= r < cfg.numRanks ==>
          && s.q.faw[r] == [] && !s.powerDown[r]
          && (forall b :: 0 <= b < cfg.numBanks ==> s.q.rowAccess[r][b] == 0 && s.banks[r][b] == INITIAL_BANK)
          && InitialRank(s.ranks[r]))
  }

  ghost predicate InitialRank(r: RankState) {
    && !r.isPowerDown && r.readReturnCountdown == [] && r.outgoingData.None?
    && forall b :: 0 <= b < |r.banks| ==> r.banks[b] == INITIAL_BANK
  }

  /** A request from outside, accepted when there is room for it. */
  function AddTransaction(cfg: Config, s: System, t: Transaction): (s': System)
    requires s.Shape(cfg)
    ensures s'.Shape(cfg)
  {
    if |s.transactions| < cfg.transQueueDepth then s.(transactions := s.transactions + [t])
    else s.(overflow := s.overflow + [t])
  }

  /** One step of a run: a cycle, or a request arriving between cycles. */
  ghost predicate Step(cfg: Config, s: System, s': System)
    requires s.Shape(cfg)
  {
    s' == Cycle(cfg, s) || exists t :: s' == AddTransaction(cfg, s, t)
  }

  ghost predicate IsRun(cfg: Config, run: seq<System>) {
    && |run| > 0 && Initial(cfg, run[0])
    && (forall i :: 0 <= i < |run| ==> run[i].Shape(cfg))
    && (forall i :: 0 <= i < |run| - 1 ==> run[i].halted.None? && Step(cfg, run[i], run[i+1]))
  }

  lemma InitialInv(cfg: Config, s: System)
    requires Initial(cfg, s)
    ensures Inv(cfg, s) && s.halted.None?
  {
    var banks' := TickTable(cfg, s.banks);
    forall r | 0 <= r < cfg.numRanks
      ensures RankOk(cfg, s.q.queues[r], ViewOf(s.q, banks', r), s.now)
      ensures RankFollows(cfg, s.banks[r], s.ranks[r].banks, r, s.outgoingCmd, s.now)
      ensures PowerAgrees(s.powerDown[r], s.banks[r], s.ranks[r].isPowerDown)
    {}
  }

  lemma StepInv(cfg: Config, s: System, s': System)
    requires Inv(cfg, s) && Step(cfg, s, s')
    ensures if s'.halted.Some? then s'.halted.value.DataBusCollision? else Inv(cfg, s')
  {
    if s' == Cycle(cfg, s) {
      hide Following, FirstHalf, SecondHalf;
      FirstHalfAgrees(cfg, s);
      var m := FirstHalf(cfg, s);
      if m.halted.None? { SecondHalfFollows(cfg, m); }
    } else {
      SameFollowing(cfg, s, s', s.now);
    }
  }

  /** In every run, whatever the requests, the page policy, the queue structure, the scheduling policy and
      the power mode: no rank rejects a command, a power-down or a power-up, the command bus never collides
      and no queue overflows. The only exit left is the collision of write data on the data bus. */
  lemma {:induction false} RanksNeverReject(cfg: Config, run: seq<System>, i: nat)
    requires IsRun(cfg, run) && i < |run|
    ensures if run[i].halted.Some? then run[i].halted.value.DataBusCollision? else Inv(cfg, run[i])
    decreases i
  {
    hide Inv, Initial, Step;
    if i == 0 {
      InitialInv(cfg, run[0]);
    } else {
      RanksNeverReject(cfg, run, i - 1);
      assert Step(cfg, run[i-1], run[i-1+1]);
      StepInv(cfg, run[i-1], run[i]);
    }
  }

  /** The state a step of a run starts from. */
  lemma RunStep(cfg: Config, run: seq<System>, i: nat)
    requires IsRun(cfg, run) && i + 1 < |run|
    ensures run[i].Shape(cfg) && Inv(cfg, run[i]) && run[i].halted.None?
    ensures run[i+1].Shape(cfg) && Step(cfg, run[i], run[i+1])
  {
    RanksNeverReject(cfg, run, i);
    hide Inv, Initial, Step, System.Shape;
  }

  /** In every run: each ACTIVATE is followed at once by its own column command, and a column command without
      its ACTIVATE is the oldest of its bank and will find, at the next call of pop, its row open and no
      auto-precharge pending. */
  lemma NoOrphans(cfg: Config, run: seq<System>, i: nat, r: nat, k: nat, j: nat)
    requires IsRun(cfg, run) && i < |run| && run[i].halted.None? && r < cfg.numRanks && k < cfg.Slots()
    requires r < |run[i].q.queues| && k < |run[i].q.queues[r]| && j < |run[i].q.queues[r][k]|
    ensures var que := run[i].q.queues[r][k];
      if que[j].kind.Activate? then j + 1 < |que| && que[j+1].kind.IsColumn() && SameTarget(que[j], que[j+1])
      else Lone(que, j) ==> FirstOfBank(que, j) && RowWaits(cfg, run[i], r, que[j])
  {
    RanksNeverReject(cfg, run, i);
    var s := run[i];
    var t := TickTable(cfg, s.banks);
    assert QueuesOk(cfg, s.q, t, s.now);
    assert RankOk(cfg, s.q.queues[r], ViewOf(s.q, t, r), s.now);
    assert QueueOk(cfg, s.q.queues[r][k], k, ViewOf(s.q, t, r));
  }

  /** The row of a packet is open and usable once the countdowns have run. */
  ghost predicate RowWaits(cfg: Config, s: System, r: nat, p: BusPacket) {
    && r < |s.banks| && p.bank < |s.banks[r]|
    && var b := TickBank(cfg, s.banks[r][p.bank]);
       b.Usable() && b.openRow == p.row
  }
}
