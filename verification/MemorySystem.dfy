/** The whole memory system: its ranks, its controller and the transactions waiting to get in. */
module MemorySystems {
  import opened DramTypes
  import opened RankSpec
  import opened SystemSpec
  import opened Refinement
  import opened CommandQueues
  import opened Ranks
  import opened MemoryControllers

  /** The ranks of a new system. */
  method MakeRanks(cfg: Config) returns (ranks: seq<Rank>)
    requires cfg.Valid()
    ensures |ranks| == cfg.numRanks && (forall i, j :: 0 <= i < j < |ranks| ==> ranks[i] != ranks[j])
    ensures forall r :: 0 <= r < |ranks| ==> fresh(ranks[r]) && NewRank(cfg, ranks[r])
  {
    ranks := [];
    while |ranks| < cfg.numRanks
      invariant |ranks| <= cfg.numRanks && (forall i, j :: 0 <= i < j < |ranks| ==> ranks[i] != ranks[j])
      invariant forall r :: 0 <= r < |ranks| ==> fresh(ranks[r]) && NewRank(cfg, ranks[r])
    {
      var rank := new Rank(cfg);
      ranks := ranks + [rank];
    }
  }

  ghost predicate NewRank(cfg: Config, rank: Rank)
    reads rank
  {
    && rank.Valid() && rank.cfg == cfg && rank.currentClockCycle == 0
    && rank.View() == RankState(seq(cfg.numBanks, _ => INITIAL_BANK), false, false, [], [], None, 0)
  }

  lemma NewSystemIsInitial(cfg: Config, s: System)
    requires s.Shape(cfg)
    requires s == System(0, QueueState(s.q.queues, 0, 0, 0, 0, 0, false, seq(cfg.numRanks, _ => []),
                                       seq(cfg.numRanks, _ => seq(cfg.numBanks, _ => 0)), true),
                         seq(cfg.numRanks, _ => seq(cfg.numBanks, _ => INITIAL_BANK)), seq(cfg.numRanks, _ => false), s.ranks,
                         None, 0, None, 0, [], [], s.refreshCountdown, 0, [], [], [], [], None, None)
    requires forall r, k :: 0 <= r < |s.q.queues| && 0 <= k < |s.q.queues[r]| ==> s.q.queues[r][k] == []
    requires forall r :: 0 <= r < |s.ranks| ==> InitialRank(s.ranks[r])
    ensures Initial(cfg, s)
  {}

  function HandedOver(cfg: Config, r: RankState): seq<nat>
    requires Parallel(r)
  {
    var d := RankSpec.Update(cfg, r).1;
    if d.Some? then [d.value.address] else []
  }

  lemma DeliveredNext(cfg: Config, ranks: seq<RankState>, i: nat)
    requires i < |ranks| && forall r :: 0 <= r < |ranks| ==> Parallel(ranks[r])
    ensures Delivered(cfg, ranks[..i+1]) == Delivered(cfg, ranks[..i]) + HandedOver(cfg, ranks[i])
  {
    hide RankSpec.Update;
    assert ranks[..i+1][..i] == ranks[..i];
  }

  /** The first n of the ranks have been updated, and handed over this data. */
  ghost predicate Updated(cfg: Config, before: seq<RankState>, after: seq<RankState>, n: nat, returned: seq<nat>) {
    && n <= |after| == |before| && (forall r :: 0 <= r < |before| ==> Parallel(before[r]) && |before[r].banks| == cfg.numBanks)
    && (forall r :: 0 <= r < n ==> after[r] == RankSpec.Update(cfg, before[r]).0)
    && (forall r :: n <= r < |before| ==> after[r] == before[r])
    && returned == Delivered(cfg, before[..n])
  }

  lemma NoneUpdated(cfg: Config, ranks: seq<RankState>)
    requires forall r :: 0 <= r < |ranks| ==> Parallel(ranks[r]) && |ranks[r].banks| == cfg.numBanks
    ensures Updated(cfg, ranks, ranks, 0, [])
  {}

  lemma NextUpdated(cfg: Config, before: seq<RankState>, after: seq<RankState>, n: nat, returned: seq<nat>)
    requires Updated(cfg, before, after, n, returned) && n < |before|
    ensures after[n] == before[n] && Parallel(after[n]) && |after[n].banks| == cfg.numBanks
    ensures Updated(cfg, before, after[n := RankSpec.Update(cfg, after[n]).0], n + 1, returned + HandedOver(cfg, after[n]))
  {
    hide RankSpec.Update, HandedOver, Delivered;
    DeliveredNext(cfg, before, n);
  }

  /** With every rank updated, that is the ranks' phase of a cycle. */
  lemma AllUpdated(cfg: Config, s: System, after: seq<RankState>, returned: seq<nat>)
    requires s.Shape(cfg) && Updated(cfg, s.ranks, after, |s.ranks|, returned)
    ensures RanksPhase(cfg, s) == s.(answered := None, ranks := after, returned := s.returned + returned)
  {
    hide RankSpec.Update, Delivered;
    assert s.ranks[..|s.ranks|] == s.ranks;
    assert RanksPhase(cfg, s).ranks == after;
  }

  class MemorySystem {
    const cfg: Config
    const ranks: seq<Rank>
    const memoryController: MemoryController
    var pendingTransactions: seq<Transaction>

    ghost predicate Valid()
      reads this, memoryController, memoryController.bankStates, memoryController.commandQueue, memoryController.ranks
    {
      && memoryController.cfg == cfg && memoryController.ranks == ranks
      && memoryController.Valid() && memoryController.backlog == pendingTransactions
    }

    ghost function View(): System
      reads memoryController, memoryController.bankStates, memoryController.commandQueue, memoryController.ranks
    {
      memoryController.View()
    }

    /** A new system is in an initial state, from which every run starts. */
    constructor (cfg: Config)
      requires cfg.Valid()
      ensures Valid() && this.cfg == cfg && Initial(cfg, View()) && Inv(cfg, View()) && memoryController.halted.None?
    {
      var table := new BankTable(seq(cfg.numRanks, _ => seq(cfg.numBanks, _ => INITIAL_BANK)));
      var queue := new CommandQueue(cfg, table);
      var made := MakeRanks(cfg);
      var controller := new MemoryController(cfg, table, queue, made);
      this.cfg := cfg;
      ranks := made;
      memoryController := controller;
      pendingTransactions := [];
      new;
      assert Valid();
      hide System.Shape, Initial, Inv;
      forall r | 0 <= r < |ranks| ensures InitialRank(View().ranks[r]) { assert NewRank(cfg, ranks[r]); }
      NewSystemIsInitial(cfg, View());
      InitialInv(cfg, View());
    }

    /** A request from outside: to the controller, or to the backlog if its queue is full. */
    method AddTransaction(trans: Transaction)
      requires Valid()
      modifies this, memoryController
      ensures View() == Refinement.AddTransaction(cfg, old(View()), trans) && Valid()
    {
      hide System.Shape, MemoryController.RankViews, MemoryController.Wired;
      if memoryController.WillAcceptTransaction() {
        var accepted := memoryController.AddTransaction(trans);
      } else {
        pendingTransactions := pendingTransactions + [trans];
        memoryController.backlog := pendingTransactions;
      }
    }

    /** One rank's data bus: what it hands over goes to the controller. */
    method UpdateRank(i: nat)
      requires memoryController.Wired() && memoryController.InStep() && memoryController.ranks == ranks && memoryController.cfg == cfg
      requires i < |ranks| && cfg.Valid()
      requires Parallel(memoryController.RankViews()[i]) && |memoryController.RankViews()[i].banks| == cfg.numBanks
      modifies memoryController`returnTransaction, ranks[i]
      ensures memoryController.InStep() && i < |old(memoryController.RankViews())|
      ensures var r := old(memoryController.RankViews())[i];
        && memoryController.RankViews() == old(memoryController.RankViews())[i := RankSpec.Update(cfg, r).0]
        && memoryController.returnTransaction == old(memoryController.returnTransaction) + HandedOver(cfg, r)
    {
      hide RankSpec.Update;
      var delivered := ranks[i].Update();
      if delivered.Some? { memoryController.ReceiveFromBus(delivered.value); }
      assert memoryController.RankViews() == old(memoryController.RankViews())[i := ranks[i].View()];
    }

    method UpdateEachRank(ghost before: seq<RankState>) returns (ghost returned: seq<nat>)
      requires memoryController.Wired() && memoryController.InStep() && memoryController.ranks == ranks && memoryController.cfg == cfg
      requires cfg.Valid() && before == memoryController.RankViews() && Updated(cfg, before, before, 0, [])
      modifies memoryController`returnTransaction, ranks
      ensures memoryController.InStep() && Updated(cfg, before, memoryController.RankViews(), |before|, returned)
      ensures memoryController.returnTransaction == old(memoryController.returnTransaction) + returned
    {
      assert |before| == |ranks|;
      hide RankSpec.Update, Updated, HandedOver, MemoryController.RankViews, MemoryController.Wired, Parallel;
      var i := 0;
      returned := [];
      while i < |ranks|
        invariant i <= |ranks| && memoryController.InStep() && Updated(cfg, before, memoryController.RankViews(), i, returned)
        invariant memoryController.returnTransaction == old(memoryController.returnTransaction) + returned
      {
        NextUpdated(cfg, before, memoryController.RankViews(), i, returned);
        returned := returned + HandedOver(cfg, memoryController.RankViews()[i]);
        UpdateRank(i);
        i := i + 1;
      }
    }

    /** Every rank's data bus, before the controller's update. */
    method UpdateRanks()
      requires Valid()
      modifies memoryController, ranks
      ensures View() == RanksPhase(cfg, old(View())) && Valid() && memoryController.halted == old(memoryController.halted)
    {
      ghost var before := View();
      assert cfg.Valid();
      NoneUpdated(cfg, before.ranks);
      hide System.Shape, Updated, RanksPhase, MemoryController.RankViews;
      memoryController.answered := None;
      ghost var returned := UpdateEachRank(before.ranks);
      AllUpdated(cfg, before, memoryController.RankViews(), returned);
    }

    method MoveBacklog()
      requires Valid()
      modifies this, memoryController
      ensures View() == BacklogPhase(cfg, old(View())) && Valid() && memoryController.halted == old(memoryController.halted)
    {
      hide System.Shape, MemoryController.RankViews, MemoryController.Wired;
      if |pendingTransactions| > 0 && memoryController.WillAcceptTransaction() {
        var accepted := memoryController.AddTransaction(pendingTransactions[0]);
        pendingTransactions := pendingTransactions[1..];
        memoryController.backlog := pendingTransactions;
      }
    }

    method Step()
      requires Valid()
      modifies memoryController, memoryController.commandQueue, ranks
      ensures View() == old(View()).(now := old(View().now) + 1) && Valid()
    {
      ghost var before := View();
      var i := 0;
      while i < |ranks|
        invariant i <= |ranks|
        invariant View() == before && memoryController.Wired() && memoryController.backlog == pendingTransactions
        invariant memoryController.currentClockCycle == old(memoryController.currentClockCycle)
        invariant memoryController.commandQueue.currentClockCycle == old(memoryController.currentClockCycle)
        invariant forall r :: 0 <= r < |ranks| ==>
          ranks[r].currentClockCycle == old(memoryController.currentClockCycle) + if r < i then 1 else 0
      {
        ranks[i].Step();
        i := i + 1;
      }
      memoryController.commandQueue.currentClockCycle := memoryController.commandQueue.currentClockCycle + 1;
      memoryController.currentClockCycle := memoryController.currentClockCycle + 1;
    }

    /** One clock cycle. If an error exit is taken, it is the one the specification names. */
    method Update()
      requires Valid() && memoryController.halted.None?
      modifies this, memoryController, memoryController.bankStates, memoryController.commandQueue, ranks
      ensures memoryController.halted == Cycle(cfg, old(View())).halted
      ensures memoryController.halted.None? ==> View() == Cycle(cfg, old(View())) && Valid()
      ensures Inv(cfg, old(View())) ==>
        if memoryController.halted.None? then Inv(cfg, View()) else memoryController.halted == Some(DataBusCollision)
    {
      hide Inv, System.Shape, RanksPhase, BacklogPhase, ControllerCycle, Cycle, MemoryController.RankViews, MemoryController.Wired;
      if Inv(cfg, View()) { StepInv(cfg, View(), Cycle(cfg, View())); }
      CycleIsControllerCycle(cfg, View());
      UpdateRanks();
      MoveBacklog();
      memoryController.Update();
      if memoryController.halted.Some? { return; }
      Step();
    }
  }
}
