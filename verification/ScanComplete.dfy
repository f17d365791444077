/** The command queue's two scans: what they have seen when they come back empty-handed. */
module ScanComplete {
  import opened DramTypes
  import opened RoundRobin
  import opened CommandQueueSpec

  /** Cursor d is among the next `turns` queues from c on. */
  ghost predicate Within(cfg: Config, c: Cursor, d: Cursor, turns: nat)
    requires InGrid(cfg, c) && InGrid(cfg, d)
  {
    SerialInRange(cfg, c);
    SerialInRange(cfg, d);
    Gap(QueueCount(cfg), QueueSerial(cfg, c), QueueSerial(cfg, d)) < turns
  }

  /** Cursors with the same queue serial number stand for the same queue. */
  lemma SameQueue(cfg: Config, q: QueueState, t: Table, c: Cursor, d: Cursor, now: nat)
    requires Ready(cfg, q, t) && InGrid(cfg, c) && InGrid(cfg, d) && QueueSerial(cfg, c) == QueueSerial(cfg, d)
    ensures Pick(cfg, q, t, c, now).NoIssue? == Pick(cfg, q, t, d, now).NoIssue?
  {
    if cfg.structure.PerRankPerBank? { SerialInjective(cfg, c, d); }
  }

  lemma WithinNext(cfg: Config, c: Cursor, d: Cursor, turns: nat)
    requires InGrid(cfg, c) && InGrid(cfg, d) && InGrid(cfg, NextQueue(cfg, c)) && 1 <= turns <= QueueCount(cfg)
    ensures Within(cfg, c, d, turns) <==> QueueSerial(cfg, c) == QueueSerial(cfg, d) || Within(cfg, NextQueue(cfg, c), d, turns - 1)
  {
    SerialInRange(cfg, c);
    SerialInRange(cfg, d);
    NextIsSuccessor(cfg, c);
    GapStep(QueueCount(cfg), QueueSerial(cfg, c), QueueSerial(cfg, d));
  }

  lemma NotWithin(cfg: Config, c: Cursor, d: Cursor)
    requires InGrid(cfg, c) && InGrid(cfg, d)
    ensures !Within(cfg, c, d, 0)
  {}

  lemma {:induction false} SearchSees(cfg: Config, q: QueueState, t: Table, c: Cursor, turns: nat, now: nat)
    requires Ready(cfg, q, t) && InGrid(cfg, c) && turns <= QueueCount(cfg)
    ensures Search(cfg, q, t, c, turns, now).1.NoIssue? <==>
      forall d :: InGrid(cfg, d) && Within(cfg, c, d, turns) ==> Pick(cfg, q, t, d, now).NoIssue?
    decreases turns
  {
    hide Within, Pick, Ready, QueueSerial, NextQueue, InGrid;
    if turns == 0 {
      forall d | InGrid(cfg, d) ensures !Within(cfg, c, d, 0) { NotWithin(cfg, c, d); }
    } else {
      NextIsSuccessor(cfg, c);
      assert Within(cfg, c, c, turns) by { WithinNext(cfg, c, c, turns); }
      SearchSees(cfg, q, t, NextQueue(cfg, c), turns - 1, now);
      forall d | InGrid(cfg, d)
        ensures Within(cfg, c, d, turns) <==> QueueSerial(cfg, c) == QueueSerial(cfg, d) || Within(cfg, NextQueue(cfg, c), d, turns - 1)
        ensures QueueSerial(cfg, c) == QueueSerial(cfg, d) ==> Pick(cfg, q, t, c, now).NoIssue? == Pick(cfg, q, t, d, now).NoIssue?
      {
        WithinNext(cfg, c, d, turns);
        if QueueSerial(cfg, c) == QueueSerial(cfg, d) { SameQueue(cfg, q, t, c, d, now); }
      }
    }
  }

  /** Under both scheduling policies and from any cursor, the search comes back with nothing exactly when
      no queue, except those of the rank waiting for its refresh, holds an eligible packet. */
  lemma SearchIsComplete(cfg: Config, q: QueueState, t: Table, c: Cursor, now: nat)
    requires Ready(cfg, q, t) && InGrid(cfg, c)
    ensures Search(cfg, q, t, c, QueueCount(cfg), now).1.NoIssue? <==>
      forall d, i :: InGrid(cfg, d) && !Blocked(q, d.rank) && 0 <= i < |QueueAt(cfg, q, d)| ==>
        !Eligible(cfg, ViewOf(q, t, d.rank), QueueAt(cfg, q, d), i, now)
  {
    SearchSees(cfg, q, t, c, QueueCount(cfg), now);
    forall d | InGrid(cfg, d)
      ensures Within(cfg, c, d, QueueCount(cfg))
      ensures Pick(cfg, q, t, d, now).NoIssue? <==>
        (Blocked(q, d.rank) || forall i :: 0 <= i < |QueueAt(cfg, q, d)| ==> !Eligible(cfg, ViewOf(q, t, d.rank), QueueAt(cfg, q, d), i, now))
    {
      SerialInRange(cfg, c);
      SerialInRange(cfg, d);
    }
    hide Within, Pick, Ready, Eligible;
  }

  /** Cursor d is among the next `moves` pairs from c on. */
  ghost predicate Near(cfg: Config, c: Cursor, d: Cursor, moves: nat)
    requires InGrid(cfg, c) && InGrid(cfg, d)
  {
    SerialInRange(cfg, c);
    SerialInRange(cfg, d);
    Gap(GridSize(cfg), Serial(cfg, c), Serial(cfg, d)) < moves
  }

  lemma NearNext(cfg: Config, c: Cursor, d: Cursor, moves: nat)
    requires InGrid(cfg, c) && InGrid(cfg, d) && InGrid(cfg, NextRankAndBank(cfg, c)) && 1 <= moves <= GridSize(cfg)
    ensures Near(cfg, c, d, moves) <==> c == d || Near(cfg, NextRankAndBank(cfg, c), d, moves - 1)
  {
    SerialInRange(cfg, c);
    SerialInRange(cfg, d);
    NextIsSuccessor(cfg, c);
    GapStep(GridSize(cfg), Serial(cfg, c), Serial(cfg, d));
    if Serial(cfg, c) == Serial(cfg, d) { SerialInjective(cfg, c, d); }
  }

  lemma MovesLeftBounded(cfg: Config, c: Cursor, stop: Cursor)
    requires InGrid(cfg, c) && InGrid(cfg, stop)
    ensures 1 <= MovesLeft(cfg, c, stop) <= GridSize(cfg)
  {
    SerialInRange(cfg, c);
    SerialInRange(cfg, stop);
    MovesLeftDecreases(cfg, c, stop);
  }

  lemma {:induction false} CloseScanSees(cfg: Config, q: QueueState, t: Table, c: Cursor, stop: Cursor, now: nat)
    requires Ready(cfg, q, t) && InGrid(cfg, c) && InGrid(cfg, stop)
    ensures SearchClose(cfg, q, t, c, stop, now).1.NoIssue? <==>
      forall d :: InGrid(cfg, d) && Near(cfg, c, d, MovesLeft(cfg, c, stop)) ==> !Closable(cfg, q, t, d, now)
    decreases MovesLeft(cfg, c, stop)
  {
    MovesLeftBounded(cfg, c, stop);
    MovesLeftDecreases(cfg, c, stop);
    var n := NextRankAndBank(cfg, c);
    var moves := MovesLeft(cfg, c, stop);
    hide Near, Closable, Ready, MovesLeft;
    assert Near(cfg, c, c, moves) by { NearNext(cfg, c, c, moves); }
    forall d | InGrid(cfg, d)
      ensures Near(cfg, c, d, moves) <==> c == d || Near(cfg, n, d, moves - 1)
    {
      NearNext(cfg, c, d, moves);
    }
    if n == stop {
      forall d | InGrid(cfg, d) ensures !Near(cfg, n, d, 0) { NotNear(cfg, n, d); }
    } else if !Closable(cfg, q, t, c, now) {
      CloseScanSees(cfg, q, t, n, stop, now);
    }
  }

  /** Exactly when the scan for a row to close looks at every bank: when its start survives the bools. */
  lemma CloseScanCovers(cfg: Config, c: Cursor)
    requires InGrid(cfg, c)
    ensures (forall d :: InGrid(cfg, d) ==> Near(cfg, c, d, MovesLeft(cfg, c, CloseStop(cfg, c)))) <==>
      cfg.structure.PerRank? || (c.rank <= 1 && c.bank <= 1)
  {
    var stop := CloseStop(cfg, c);
    forall d | InGrid(cfg, d) ensures Near(cfg, c, d, GridSize(cfg)) {
      SerialInRange(cfg, c);
      SerialInRange(cfg, d);
    }
    if stop != c {
      SerialInRange(cfg, c);
      SerialInRange(cfg, stop);
      assert !Near(cfg, c, stop, MovesLeft(cfg, c, stop));
    }
  }

  lemma NotNear(cfg: Config, c: Cursor, d: Cursor)
    requires InGrid(cfg, c) && InGrid(cfg, d)
    ensures !Near(cfg, c, d, 0)
  {}

  /** With one queue per rank the scan for a row to close is complete as well. (With one queue per rank
      and bank the code keeps the start of the scan in bools, so it may stop early.) */
  lemma CloseScanIsComplete(cfg: Config, q: QueueState, t: Table, c: Cursor, now: nat)
    requires Ready(cfg, q, t) && InGrid(cfg, c) && cfg.structure.PerRank?
    ensures SearchClose(cfg, q, t, c, CloseStop(cfg, c), now).1.NoIssue? <==>
      forall d :: InGrid(cfg, d) ==> !Closable(cfg, q, t, d, now)
  {
    CloseScanSees(cfg, q, t, c, c, now);
    forall d | InGrid(cfg, d) ensures Near(cfg, c, d, MovesLeft(cfg, c, c)) {
      SerialInRange(cfg, c);
      SerialInRange(cfg, d);
    }
    hide Near, Closable, Ready;
  }

  /** A queue with nothing in it, and a table with one open row. */
  function NoRequests(cfg: Config): QueueState {
    QueueState(seq(cfg.numRanks, _ => seq(cfg.numBanks, _ => [])), 0, 0, 0, 0, 0, false,
               seq(cfg.numRanks, _ => []), seq(cfg.numRanks, _ => seq(cfg.numBanks, _ => 0)), true)
  }

  function OneOpenRow(cfg: Config, at: Cursor): (t: Table)
    ensures TableShape(cfg, t)
    ensures forall d :: InGrid(cfg, d) ==> (t[d.rank][d.bank].phase.RowActive? <==> d == at) && t[d.rank][d.bank].nextPrecharge == 0
  {
    seq(cfg.numRanks, r requires 0 <= r < cfg.numRanks => seq(cfg.numBanks, b requires 0 <= b < cfg.numBanks =>
      if Cursor(r, b) == at then INITIAL_BANK.(phase := RowActive) else INITIAL_BANK))
  }

  lemma OnlyThatClosable(cfg: Config, at: Cursor, d: Cursor, now: nat)
    requires cfg.Valid() && InGrid(cfg, at) && InGrid(cfg, d) && cfg.structure.PerRankPerBank?
    ensures Ready(cfg, NoRequests(cfg), OneOpenRow(cfg, at))
    ensures Closable(cfg, NoRequests(cfg), OneOpenRow(cfg, at), d, now) <==> d == at
  {
    hide OneOpenRow;
  }

  /** Whenever the scan does not look at every bank, there is a table in which it misses a bank that could be
      closed: the one where it stops. */
  lemma CloseScanMisses(cfg: Config, c: Cursor, now: nat) returns (q: QueueState, t: Table)
    requires cfg.Valid() && InGrid(cfg, c) && cfg.structure.PerRankPerBank? && !(c.rank <= 1 && c.bank <= 1)
    ensures Ready(cfg, q, t) && InGrid(cfg, CloseStop(cfg, c)) && Closable(cfg, q, t, CloseStop(cfg, c), now)
    ensures SearchClose(cfg, q, t, c, CloseStop(cfg, c), now).1.NoIssue?
  {
    hide NoRequests, OneOpenRow, Closable, Ready, Near, MovesLeft, SearchClose;
    var stop := CloseStop(cfg, c);
    q, t := NoRequests(cfg), OneOpenRow(cfg, stop);
    OnlyThatClosable(cfg, stop, stop, now);
    StopIsNotNear(cfg, c);
    forall d | InGrid(cfg, d) && Near(cfg, c, d, MovesLeft(cfg, c, stop)) ensures !Closable(cfg, q, t, d, now) {
      OnlyThatClosable(cfg, stop, d, now);
    }
    CloseScanSees(cfg, q, t, c, stop, now);
  }

  lemma StopIsNotNear(cfg: Config, c: Cursor)
    requires InGrid(cfg, c) && cfg.structure.PerRankPerBank? && !(c.rank <= 1 && c.bank <= 1)
    ensures !Near(cfg, c, CloseStop(cfg, c), MovesLeft(cfg, c, CloseStop(cfg, c)))
  {
    SerialInRange(cfg, c);
    SerialInRange(cfg, CloseStop(cfg, c));
  }
}
