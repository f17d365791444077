/** Every cycle keeps the queues and the bank table consistent: a chosen command, the countdowns that
    follow it, power-down moves and newly enqueued pairs. */
module QueuePreservation {
  import opened DramTypes
  import opened CommandQueueSpec
  import opened BankTiming
  import opened QueueInvariant

  /** Rows that waiting commands may rely on stay held, except possibly in one bank. */
  ghost predicate KeepsRows(v: RankView, v': RankView, except: int) {
    && |v'.banks| == |v.banks| && |v'.accesses| == |v.accesses| == |v.banks|
    && forall b :: 0 <= b < |v.banks| && b != except && v.banks[b].Usable() && v.accesses[b] == 0 ==>
         v'.banks[b].Usable() && v'.banks[b].openRow == v.banks[b].openRow && v'.accesses[b] == 0
  }

  lemma UntouchedQueue(cfg: Config, que: seq<BusPacket>, slot: nat, v: RankView, v': RankView, bank: int)
    requires QueueOk(cfg, que, slot, v) && KeepsRows(v, v', bank)
    requires forall i :: 0 <= i < |que| && Lone(que, i) ==> que[i].bank != bank
    ensures QueueOk(cfg, que, slot, v')
  {}

  /** Taking an ACTIVATE that is the first of its bank, once its row is open. */
  lemma TakeActivate(cfg: Config, que: seq<BusPacket>, slot: nat, v: RankView, v': RankView, i: nat)
    requires QueueOk(cfg, que, slot, v) && i < |que| && KeepsRows(v, v', que[i].bank)
    requires que[i].kind.Activate? && FirstOfBank(que, i)
    requires RowHeld(v', que[i])
    ensures QueueOk(cfg, Without(que, i, false), slot, v')
  {
    var r := Without(que, i, false);
    assert SameTarget(que[i], que[i+1]);
    forall k | 0 <= k < |r| && Lone(r, k)
      ensures RowHeld(v', r[k]) && FirstOfBank(r, k)
    {
      if k < i {
        assert Lone(que, k);
      } else if k == i {
        assert r[k] == que[i+1];
      } else {
        assert Lone(que, k + 1);
        assert FirstOfBank(que, k + 1);
      }
    }
  }

  /** Where a packet of the shortened queue stood before. */
  function OldIndex(i: nat, drop: bool, k: nat): nat {
    if drop then (if k + 1 < i then k else k + 2) else if k < i then k else k + 1
  }

  /** Taking a whole pair, or a column command without its ACTIVATE, leaves the other pairs intact. */
  lemma PairedWithout(que: seq<BusPacket>, i: nat, drop: bool)
    requires Paired(que) && i < |que| && !que[i].kind.Activate?
    requires if drop then i > 0 && que[i-1].kind.Activate? else Lone(que, i)
    ensures Paired(Without(que, i, drop))
  {
    var r := Without(que, i, drop);
    forall k | 0 <= k < |r| && r[k].kind.Activate?
      ensures k + 1 < |r| && r[k+1].kind.IsColumn() && SameTarget(r[k], r[k+1])
    {
      var o := OldIndex(i, drop, k);
      assert r[k] == que[o];
      assert o + 1 < |que| && SameTarget(que[o], que[o+1]);
      assert r[k+1] == que[o+1];
    }
  }

  lemma LoneWithout(que: seq<BusPacket>, i: nat, drop: bool, k: nat)
    requires i < |que| && !que[i].kind.Activate?
    requires if drop then i > 0 && que[i-1].kind.Activate? else Lone(que, i)
    requires Paired(que) && k < |Without(que, i, drop)| && Lone(Without(que, i, drop), k)
    ensures OldIndex(i, drop, k) < |que| && Without(que, i, drop)[k] == que[OldIndex(i, drop, k)]
    ensures Lone(que, OldIndex(i, drop, k))
    ensures FirstOfBank(que, OldIndex(i, drop, k)) ==> FirstOfBank(Without(que, i, drop), k)
  {
    var r := Without(que, i, drop);
    var o := OldIndex(i, drop, k);
    assert r[k] == que[o];
    if k > 0 { assert r[k-1] == que[OldIndex(i, drop, k - 1)]; }
    if FirstOfBank(que, o) {
      forall j | 0 <= j < k ensures r[j].bank != r[k].bank {
        assert r[j] == que[OldIndex(i, drop, j)];
      }
    }
  }

  /** Taking a column command whose ACTIVATE went before. */
  lemma TakeLone(cfg: Config, que: seq<BusPacket>, slot: nat, v: RankView, v': RankView, i: nat)
    requires QueueOk(cfg, que, slot, v) && i < |que| && Lone(que, i)
    requires KeepsRows(v, v', que[i].bank)
    ensures QueueOk(cfg, Without(que, i, false), slot, v')
  {
    var r := Without(que, i, false);
    PairedWithout(que, i, false);
    forall k | 0 <= k < |r| && Lone(r, k)
      ensures RowHeld(v', r[k]) && FirstOfBank(r, k)
    {
      LoneWithout(que, i, false, k);
      assert RowHeld(v, que[OldIndex(i, false, k)]);
      assert FirstOfBank(que, i) && FirstOfBank(que, OldIndex(i, false, k));
    }
  }

  /** Taking a column command together with the ACTIVATE that an open row made unnecessary. */
  lemma TakePair(cfg: Config, que: seq<BusPacket>, slot: nat, v: RankView, v': RankView, i: nat)
    requires QueueOk(cfg, que, slot, v) && 0 < i < |que| && que[i-1].kind.Activate?
    requires KeepsRows(v, v', que[i].bank)
    requires OldestForRow(que, i) && v.banks[que[i].bank].openRow == que[i].row
    ensures QueueOk(cfg, Without(que, i, true), slot, v')
  {
    var r := Without(que, i, true);
    PairedWithout(que, i, true);
    forall k | 0 <= k < |r| && Lone(r, k)
      ensures RowHeld(v', r[k]) && FirstOfBank(r, k)
    {
      LoneWithout(que, i, true, k);
      var o := OldIndex(i, true, k);
      assert RowHeld(v, que[o]) && FirstOfBank(que, o);
    }
  }

  /** A transaction's ACTIVATE and column command, added at the end. */
  lemma AddPair(cfg: Config, que: seq<BusPacket>, slot: nat, v: RankView, a: BusPacket, c: BusPacket)
    requires QueueOk(cfg, que, slot, v)
    requires a.kind.Activate? && c.kind.IsColumn() && Wanted(cfg, c.kind) && SameTarget(a, c)
    requires a.bank < cfg.numBanks && (cfg.structure.PerRankPerBank? ==> a.bank == slot)
    ensures QueueOk(cfg, que + [a, c], slot, v)
  {
    var r := que + [a, c];
    forall k | 0 <= k < |r| && Lone(r, k)
      ensures RowHeld(v, r[k]) && FirstOfBank(r, k)
    {
      assert k < |que|;
      assert Lone(que, k);
      assert FirstOfBank(que, k);
    }
  }

  // ----- bank records -----

  /** The command suits the state of the bank it addresses. */
  ghost predicate Suits(cfg: Config, b: BankState, accesses: nat, p: BusPacket, now: nat) {
    match p.kind
    case Activate => (b.phase.Idle? || b.phase.Refreshing?) && now >= b.nextActivate
    case Precharge => cfg.policy.OpenPage? && b.phase.RowActive? && now >= b.nextPrecharge
    case Refresh => !b.phase.RowActive? && !b.phase.PowerDown? && now >= b.nextActivate
    case Data => false
    case _ => Wanted(cfg, p.kind) && b.Usable() && p.row == b.openRow && accesses < cfg.totalRowAccesses
              && now >= (if p.kind.IsRead() then b.nextRead else b.nextWrite)
  }

  /** The counter of accesses to an open row moves only in these ways. */
  ghost predicate AccessMoves(cfg: Config, before: nat, after: nat, own: bool, p: BusPacket) {
    && (after == before || (own && p.kind.Precharge? && after == 0)
        || (own && cfg.policy.OpenPage? && p.kind.IsColumn() && after == before + 1))
    && (own && p.kind.Precharge? ==> after == 0)
  }

  lemma BankStep(cfg: Config, b: BankState, accesses: nat, accesses': nat, rank: nat, bank: nat, p: BusPacket, now: nat)
    requires cfg.Valid() && BankOk(cfg, b, accesses, now)
    requires rank == p.rank && (bank == p.bank || p.kind.Refresh?) ==> Suits(cfg, b, accesses, p, now)
    requires AccessMoves(cfg, accesses, accesses', rank == p.rank && bank == p.bank, p)
    ensures BankOk(cfg, TickBank(cfg, Sent(cfg, b, rank, bank, p, now)), accesses', now + 1)
    ensures TickBank(cfg, Sent(cfg, b, rank, bank, p, now)).phase.PowerDown? == b.phase.PowerDown?
  {}

  lemma BankIdles(cfg: Config, b: BankState, accesses: nat, now: nat)
    requires cfg.Valid() && BankOk(cfg, b, accesses, now)
    ensures BankOk(cfg, TickBank(cfg, b), accesses, now + 1)
    ensures b.Usable() ==> TickBank(cfg, b) == b
  {}

  lemma UsableKept(cfg: Config, b: BankState, accesses: nat, rank: nat, bank: nat, p: BusPacket, now: nat)
    requires cfg.Valid() && BankOk(cfg, b, accesses, now) && b.Usable()
    requires rank != p.rank || (bank != p.bank && !p.kind.Refresh?)
    ensures var b' := TickBank(cfg, Sent(cfg, b, rank, bank, p, now)); b'.Usable() && b'.openRow == b.openRow
  {}

  // ----- one cycle of the whole queue -----

  /** The bank table after sending p and one more tick of the countdowns. */
  function After(cfg: Config, t: Table, p: Option<BusPacket>, now: nat): (t': Table)
    requires cfg.Valid()
    ensures |t'| == |t| && forall r :: 0 <= r < |t| ==> |t'[r]| == |t[r]|
  {
    TickTable(cfg, if p.Some? then SentTable(cfg, t, p.value, now) else t)
  }

  ghost predicate CommandSuits(cfg: Config, q: QueueState, t: Table, p: BusPacket, now: nat)
    requires Ready(cfg, q, t)
  {
    && p.rank < cfg.numRanks && p.bank < cfg.numBanks
    && forall b :: 0 <= b < cfg.numBanks && (b == p.bank || p.kind.Refresh?) ==>
         Suits(cfg, t[p.rank][b], q.rowAccess[p.rank][b], p, now)
  }

  /** Every command pop sends suits the bank it goes to. */
  lemma IssueSuits(cfg: Config, q: QueueState, t: Table, issue: Issue, now: nat)
    requires QueuesOk(cfg, q, t, now) && GoodIssue(cfg, q, t, issue, now) && !issue.NoIssue?
    ensures CommandSuits(cfg, q, t, PacketOf(cfg, q, issue), now)
  {
    assert RankOk(cfg, q.queues[issue.rank], ViewOf(q, t, issue.rank), now);
    if issue.FromQueue? {
      assert QueueOk(cfg, q.queues[issue.rank][issue.slot], issue.slot, ViewOf(q, t, issue.rank));
    }
  }

  /** The rows of rank r that survive a command and the next tick. */
  lemma RankKeeps(cfg: Config, q: QueueState, t: Table, q': QueueState, p: BusPacket, r: nat, now: nat)
    requires QueuesOk(cfg, q, t, now) && q'.Shape(cfg) && CommandSuits(cfg, q, t, p, now) && r < cfg.numRanks
    requires forall b :: 0 <= b < cfg.numBanks && (r != p.rank || b != p.bank) ==> q'.rowAccess[r][b] == q.rowAccess[r][b]
    ensures KeepsRows(ViewOf(q, t, r), ViewOf(q', After(cfg, t, Some(p), now), r), if r == p.rank then p.bank else -1)
  {
    var v := ViewOf(q, t, r);
    assert RankOk(cfg, q.queues[r], v, now);
    forall b | 0 <= b < cfg.numBanks && v.banks[b].Usable() && (r != p.rank || b != p.bank)
      ensures var b' := After(cfg, t, Some(p), now)[r][b]; b'.Usable() && b'.openRow == v.banks[b].openRow
    {
      UsableKept(cfg, t[r][b], q.rowAccess[r][b], r, b, p, now);
    }
  }

  lemma BanksStep(cfg: Config, q: QueueState, t: Table, q': QueueState, p: BusPacket, r: nat, now: nat)
    requires QueuesOk(cfg, q, t, now) && q'.Shape(cfg) && CommandSuits(cfg, q, t, p, now) && r < cfg.numRanks
    requires forall b :: 0 <= b < cfg.numBanks ==>
      AccessMoves(cfg, q.rowAccess[r][b], q'.rowAccess[r][b], r == p.rank && b == p.bank, p)
    ensures var banks' := After(cfg, t, Some(p), now)[r];
      && OneMode(banks')
      && forall b :: 0 <= b < cfg.numBanks ==> BankOk(cfg, banks'[b], q'.rowAccess[r][b], now + 1)
  {
    var t' := After(cfg, t, Some(p), now);
    assert RankOk(cfg, q.queues[r], ViewOf(q, t, r), now);
    forall b | 0 <= b < cfg.numBanks
      ensures BankOk(cfg, t'[r][b], q'.rowAccess[r][b], now + 1)
      ensures t'[r][b].phase.PowerDown? == t[r][b].phase.PowerDown?
    {
      assert BankOk(cfg, t[r][b], q.rowAccess[r][b], now);
      assert t'[r][b] == TickBank(cfg, Sent(cfg, t[r][b], r, b, p, now));
      BankStep(cfg, t[r][b], q.rowAccess[r][b], q'.rowAccess[r][b], r, b, p, now);
    }
  }

  lemma TakenQueue(cfg: Config, que: seq<BusPacket>, slot: nat, v: RankView, v': RankView, i: nat, drop: bool, now: nat)
    requires QueueOk(cfg, que, slot, v) && i < |que| && GoodPick(cfg, v, que, i, drop, now)
    requires KeepsRows(v, v', que[i].bank)
    requires que[i].kind.Activate? ==> RowHeld(v', que[i])
    ensures QueueOk(cfg, Without(que, i, drop), slot, v')
  {
    if que[i].kind.Activate? {
      TakeActivate(cfg, que, slot, v, v', i);
    } else if drop {
      TakePair(cfg, que, slot, v, v', i);
    } else {
      TakeLone(cfg, que, slot, v, v', i);
    }
  }

  /** In the addressed rank, a queue the command was not taken from has nobody waiting for that bank. */
  lemma OtherQueueDoesNotRely(cfg: Config, q: QueueState, t: Table, issue: Issue, k: nat, now: nat)
    requires QueuesOk(cfg, q, t, now) && GoodIssue(cfg, q, t, issue, now) && !issue.NoIssue? && k < cfg.Slots()
    requires issue.FromQueue? ==> issue.slot != k
    ensures NobodyRelies(q.queues[issue.rank][k], PacketOf(cfg, q, issue).bank)
  {
    var v := ViewOf(q, t, issue.rank);
    var que := q.queues[issue.rank][k];
    assert RankOk(cfg, q.queues[issue.rank], v, now);
    assert QueueOk(cfg, que, k, v);
    match issue
    case SendRefresh(r) => assert forall i :: 0 <= i < |que| && Lone(que, i) ==> RowHeld(v, que[i]);
    case CloseRow(r, b) => assert k != cfg.SlotOf(b) ==> NobodyRelies(que, b);
    case FromQueue(r, s, i, drop) => assert QueueOk(cfg, q.queues[r][s], s, v);
  }

  lemma QueueSettles(cfg: Config, q: QueueState, t: Table, issue: Issue, r: nat, k: nat, v': RankView, now: nat)
    requires QueuesOk(cfg, q, t, now) && GoodIssue(cfg, q, t, issue, now) && !issue.NoIssue?
    requires r < cfg.numRanks && k < cfg.Slots()
    requires KeepsRows(ViewOf(q, t, r), v', if r == issue.rank then PacketOf(cfg, q, issue).bank else -1)
    requires PacketOf(cfg, q, issue).kind.Activate? && r == issue.rank ==>
      PacketOf(cfg, q, issue).bank < |v'.banks| && RowHeld(v', PacketOf(cfg, q, issue))
    ensures QueueOk(cfg, Take(cfg, q, issue).queues[r][k], k, v') && |Take(cfg, q, issue).queues[r][k]| <= cfg.cmdQueueDepth
  {
    var que := q.queues[r][k];
    var v := ViewOf(q, t, r);
    assert RankOk(cfg, q.queues[r], v, now);
    assert QueueOk(cfg, que, k, v);
    if issue.FromQueue? && issue.rank == r && issue.slot == k {
      TakenQueue(cfg, que, k, v, v', issue.index, issue.dropActivate, now);
    } else if r == issue.rank {
      OtherQueueDoesNotRely(cfg, q, t, issue, k, now);
      UntouchedQueue(cfg, que, k, v, v', PacketOf(cfg, q, issue).bank);
    } else {
      UntouchedQueue(cfg, que, k, v, v', -1);
    }
  }

  lemma AccessesMove(cfg: Config, q: QueueState, t: Table, issue: Issue, r: nat, b: nat, now: nat)
    requires QueuesOk(cfg, q, t, now) && GoodIssue(cfg, q, t, issue, now) && !issue.NoIssue?
    requires r < cfg.numRanks && b < cfg.numBanks
    ensures var p := PacketOf(cfg, q, issue);
      AccessMoves(cfg, q.rowAccess[r][b], Take(cfg, q, issue).rowAccess[r][b], r == p.rank && b == p.bank, p)
  {
    if issue.FromQueue? {
      assert RankOk(cfg, q.queues[issue.rank], ViewOf(q, t, issue.rank), now);
      assert QueueOk(cfg, q.queues[issue.rank][issue.slot], issue.slot, ViewOf(q, t, issue.rank));
    }
  }

  /** The queues of one rank after the chosen command has been carried out. */
  lemma RankSettles(cfg: Config, q: QueueState, t: Table, issue: Issue, r: nat, now: nat)
    requires QueuesOk(cfg, q, t, now) && GoodIssue(cfg, q, t, issue, now) && !issue.NoIssue? && r < cfg.numRanks
    ensures var q' := Take(cfg, q, issue);
      RankOk(cfg, q'.queues[r], ViewOf(q', After(cfg, t, Some(PacketOf(cfg, q, issue)), now), r), now + 1)
  {
    var p := PacketOf(cfg, q, issue);
    var q' := Take(cfg, q, issue);
    var v' := ViewOf(q', After(cfg, t, Some(p), now), r);
    IssueSuits(cfg, q, t, issue, now);
    forall b | 0 <= b < cfg.numBanks
      ensures AccessMoves(cfg, q.rowAccess[r][b], q'.rowAccess[r][b], r == p.rank && b == p.bank, p)
    {
      AccessesMove(cfg, q, t, issue, r, b, now);
    }
    BanksStep(cfg, q, t, q', p, r, now);
    RankKeeps(cfg, q, t, q', p, r, now);
    if p.kind.Activate? && r == p.rank { ActivateHolds(cfg, q, t, q', p, now); }
    forall k | 0 <= k < cfg.Slots() ensures QueueOk(cfg, q'.queues[r][k], k, v') && |q'.queues[r][k]| <= cfg.cmdQueueDepth {
      QueueSettles(cfg, q, t, issue, r, k, v', now);
    }
  }

  /** An ACTIVATE opens the row its column command waits for. */
  lemma ActivateHolds(cfg: Config, q: QueueState, t: Table, q': QueueState, p: BusPacket, now: nat)
    requires QueuesOk(cfg, q, t, now) && q'.Shape(cfg) && CommandSuits(cfg, q, t, p, now) && p.kind.Activate?
    requires q'.rowAccess == q.rowAccess
    ensures RowHeld(ViewOf(q', After(cfg, t, Some(p), now), p.rank), p)
  {
    assert RankOk(cfg, q.queues[p.rank], ViewOf(q, t, p.rank), now);
    assert BankOk(cfg, t[p.rank][p.bank], q.rowAccess[p.rank][p.bank], now);
  }

  /** Cursors, refresh flags and activation windows do not matter to the consistency of the queues. */
  lemma SameQueuesOk(cfg: Config, q: QueueState, q': QueueState, t: Table, now: nat)
    requires QueuesOk(cfg, q, t, now) && q'.Shape(cfg) && q'.queues == q.queues && q'.rowAccess == q.rowAccess
    ensures QueuesOk(cfg, q', t, now)
  {
    forall r | 0 <= r < cfg.numRanks ensures RankOk(cfg, q'.queues[r], ViewOf(q', t, r), now) {
      assert RankOk(cfg, q.queues[r], ViewOf(q, t, r), now);
      forall k | 0 <= k < cfg.Slots() ensures QueueOk(cfg, q'.queues[r][k], k, ViewOf(q', t, r)) {
        assert QueueOk(cfg, q.queues[r][k], k, ViewOf(q, t, r));
      }
    }
  }

  lemma RestKeepsQueues(cfg: Config, q: QueueState, t: Table, now: nat)
    requires QueuesOk(cfg, q, t, now)
    ensures QueuesOk(cfg, q, TickTable(cfg, t), now + 1)
  {
    var t' := TickTable(cfg, t);
    forall r | 0 <= r < cfg.numRanks ensures RankOk(cfg, q.queues[r], ViewOf(q, t', r), now + 1) {
      var v, v' := ViewOf(q, t, r), ViewOf(q, t', r);
      assert RankOk(cfg, q.queues[r], v, now);
      forall b | 0 <= b < cfg.numBanks
        ensures BankOk(cfg, t'[r][b], q.rowAccess[r][b], now + 1)
        ensures t[r][b].Usable() ==> t'[r][b] == t[r][b]
        ensures t'[r][b].phase.PowerDown? == t[r][b].phase.PowerDown?
      {
        BankIdles(cfg, t[r][b], q.rowAccess[r][b], now);
      }
      forall k | 0 <= k < cfg.Slots() ensures QueueOk(cfg, q.queues[r][k], k, v') {
        assert QueueOk(cfg, q.queues[r][k], k, v);
        UntouchedQueue(cfg, q.queues[r][k], k, v, v', -1);
      }
    }
  }

  lemma CarryKeepsQueues(cfg: Config, q: QueueState, t: Table, issue: Issue, now: nat)
    requires QueuesOk(cfg, q, t, now) && GoodIssue(cfg, q, t, issue, now) && !issue.NoIssue?
    ensures QueuesOk(cfg, Carry(cfg, q, issue).0, After(cfg, t, Some(PacketOf(cfg, q, issue)), now), now + 1)
  {
    var p := PacketOf(cfg, q, issue);
    var q1 := Take(cfg, q, issue);
    var t' := After(cfg, t, Some(p), now);
    forall r | 0 <= r < cfg.numRanks ensures RankOk(cfg, q1.queues[r], ViewOf(q1, t', r), now + 1) {
      RankSettles(cfg, q, t, issue, r, now);
    }
    SameQueuesOk(cfg, q1, NoteActivate(cfg, Advance(cfg, q1), p), t', now + 1);
  }

  /** A call of pop, the table update for the command it returns and the next tick keep everything
      consistent, and the command suits the bank it goes to. */
  lemma PopKeepsQueues(cfg: Config, q: QueueState, t: Table, now: nat)
    requires QueuesOk(cfg, q, t, now)
    ensures var (q', p) := Pop(cfg, q, t, now);
      && QueuesOk(cfg, q', After(cfg, t, p, now), now + 1)
      && (p.Some? ==> CommandSuits(cfg, q, t, p.value, now))
  {
    var q0 := q.(faw := TickWindows(q.faw));
    SameQueuesOk(cfg, q, q0, t, now);
    ChoiceIsGood(cfg, q0, t, now);
    var (issue, q1) := Choose(cfg, q0, t, now);
    SameQueuesOk(cfg, q0, q1, t, now);
    if issue.NoIssue? {
      RestKeepsQueues(cfg, q1, t, now);
    } else {
      SameGoodIssue(cfg, q0, q1, t, issue, now);
      IssueSuits(cfg, q1, t, issue, now);
      CarryKeepsQueues(cfg, q1, t, issue, now);
    }
  }

  /** A PRECHARGE is never a queued packet: the queue makes it up. */
  lemma PrechargeIsCloseRow(cfg: Config, q: QueueState, issue: Issue)
    requires q.Shape(cfg) && Names(cfg, q, issue) && !issue.NoIssue? && PacketOf(cfg, q, issue).kind.Precharge?
    ensures issue.CloseRow? && PacketOf(cfg, q, issue).rank == issue.rank && PacketOf(cfg, q, issue).bank == issue.bank
    ensures Carry(cfg, q, issue).0.queues == q.queues
  {}

  ghost predicate PrechargeSpares(cfg: Config, q: QueueState, p: BusPacket) {
    && p.rank < |q.queues| && cfg.SlotOf(p.bank) < |q.queues[p.rank]|
    && NobodyRelies(q.queues[p.rank][cfg.SlotOf(p.bank)], p.bank)
  }

  lemma CarrySparesRows(cfg: Config, q: QueueState, t: Table, issue: Issue, now: nat)
    requires QueuesOk(cfg, q, t, now) && GoodIssue(cfg, q, t, issue, now) && !issue.NoIssue?
    requires PacketOf(cfg, q, issue).kind.Precharge?
    ensures PrechargeSpares(cfg, Carry(cfg, q, issue).0, PacketOf(cfg, q, issue))
  {
    PrechargeIsCloseRow(cfg, q, issue);
    hide Carry, PacketOf, NobodyRelies, GoodPick, RankOk;
  }

  /** A PRECHARGE, from the idle scan, the row limit or the refresh path, never closes a row that a waiting
      column command still relies on. */
  lemma PrechargeSparesRows(cfg: Config, q: QueueState, t: Table, now: nat)
    requires QueuesOk(cfg, q, t, now)
    ensures var (q', p) := Pop(cfg, q, t, now); p.Some? && p.value.kind.Precharge? ==> PrechargeSpares(cfg, q', p.value)
  {
    hide Choose, GoodIssue, PrechargeSpares, RankOk, PacketOf;
    var q0 := q.(faw := TickWindows(q.faw));
    SameQueuesOk(cfg, q, q0, t, now);
    ChoiceIsGood(cfg, q0, t, now);
    var (issue, q1) := Choose(cfg, q0, t, now);
    SameQueuesOk(cfg, q0, q1, t, now);
    SameGoodIssue(cfg, q0, q1, t, issue, now);
    if !issue.NoIssue? && PacketOf(cfg, q1, issue).kind.Precharge? { CarrySparesRows(cfg, q1, t, issue, now); }
    hide Take, Advance, NoteActivate;
  }

  lemma SameGoodIssue(cfg: Config, q: QueueState, q': QueueState, t: Table, issue: Issue, now: nat)
    requires Ready(cfg, q, t) && q'.Shape(cfg) && q'.queues == q.queues && q'.rowAccess == q.rowAccess && q'.faw == q.faw
    requires GoodIssue(cfg, q, t, issue, now)
    ensures GoodIssue(cfg, q', t, issue, now)
  {}

  /** Replacing a rank's row of bank records by one that keeps the rows waiting commands rely on. */
  lemma NewRowOk(cfg: Config, q: QueueState, t: Table, r: nat, row: BankRow, now: nat)
    requires QueuesOk(cfg, q, t, now) && r < cfg.numRanks && |row| == cfg.numBanks
    requires forall b :: 0 <= b < cfg.numBanks ==> BankOk(cfg, row[b], q.rowAccess[r][b], now)
    requires OneMode(row)
    requires forall b :: 0 <= b < cfg.numBanks ==> !t[r][b].Usable()
    ensures QueuesOk(cfg, q, t[r := row], now)
  {
    var t' := t[r := row];
    forall i | 0 <= i < cfg.numRanks ensures RankOk(cfg, q.queues[i], ViewOf(q, t', i), now) {
      var v, v' := ViewOf(q, t, i), ViewOf(q, t', i);
      assert RankOk(cfg, q.queues[i], v, now);
      if i == r {
        forall k | 0 <= k < cfg.Slots() ensures QueueOk(cfg, q.queues[i][k], k, v') {
          assert QueueOk(cfg, q.queues[i][k], k, v);
          UntouchedQueue(cfg, q.queues[i][k], k, v, v', -1);
        }
      }
    }
  }

  /** Enqueuing a pair at the end of a queue with room for it. */
  lemma NewPairOk(cfg: Config, q: QueueState, q': QueueState, t: Table, a: BusPacket, c: BusPacket, now: nat)
    requires QueuesOk(cfg, q, t, now) && q'.Shape(cfg)
    requires a.rank < cfg.numRanks && a.bank < cfg.numBanks
    requires a.kind.Activate? && c.kind.IsColumn() && Wanted(cfg, c.kind) && SameTarget(a, c)
    requires |q.queues[a.rank][cfg.SlotOf(a.bank)]| + 2 <= cfg.cmdQueueDepth
    requires q'.rowAccess == q.rowAccess
    requires forall r, k :: 0 <= r < cfg.numRanks && 0 <= k < cfg.Slots() ==>
      q'.queues[r][k] == q.queues[r][k] + if r == a.rank && k == cfg.SlotOf(a.bank) then [a, c] else []
    ensures QueuesOk(cfg, q', t, now)
  {
    forall r | 0 <= r < cfg.numRanks ensures RankOk(cfg, q'.queues[r], ViewOf(q', t, r), now) {
      var v, v' := ViewOf(q, t, r), ViewOf(q', t, r);
      assert RankOk(cfg, q.queues[r], v, now);
      forall k | 0 <= k < cfg.Slots() ensures QueueOk(cfg, q'.queues[r][k], k, v') && |q'.queues[r][k]| <= cfg.cmdQueueDepth {
        var que := q.queues[r][k];
        assert QueueOk(cfg, que, k, v);
        if r == a.rank && k == cfg.SlotOf(a.bank) { AddPair(cfg, que, k, v, a, c); }
        else { assert q'.queues[r][k] == que; }
        UntouchedQueue(cfg, q'.queues[r][k], k, v, v', -1);
      }
    }
  }
}
