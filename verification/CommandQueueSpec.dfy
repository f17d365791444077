/** What one call of the command queue's pop decides and leaves behind, as functions of its fields. */
module CommandQueueSpec {
  import opened DramTypes
  import opened RoundRobin

  /** What the issue rules read about one rank. */
  datatype RankView = RankView(banks: BankRow, activates: nat, accesses: seq<nat>)

  ghost predicate Fits(cfg: Config, v: RankView, que: seq<BusPacket>) {
    && |v.banks| == |v.accesses| == cfg.numBanks
    && forall i :: 0 <= i < |que| ==> que[i].bank < cfg.numBanks
  }

  function ViewOf(q: QueueState, t: Table, rank: nat): RankView
    requires rank < |t| && rank < |q.faw| && rank < |q.rowAccess|
  {
    RankView(t[rank], |q.faw[rank]|, q.rowAccess[rank])
  }

  /** The command to send: none, one the queue makes up itself, or a queued one
      (with dropActivate, the ACTIVATE just before it is discarded too). */
  datatype Issue =
    | NoIssue
    | SendRefresh(rank: nat)
    | CloseRow(rank: nat, bank: nat)
    | FromQueue(rank: nat, slot: nat, index: nat, dropActivate: bool)

  // ----- rules that only read -----

  predicate IsIssuable(cfg: Config, v: RankView, p: BusPacket, now: nat)
    requires p.bank < |v.banks| && p.bank < |v.accesses|
  {
    var b := v.banks[p.bank];
    match p.kind
    case Activate => (b.phase.Idle? || b.phase.Refreshing?) && now >= b.nextActivate && v.activates < 4
    case Write => b.phase.RowActive? && now >= b.nextWrite && p.row == b.openRow && v.accesses[p.bank] < cfg.totalRowAccesses
    case WriteP => b.phase.RowActive? && now >= b.nextWrite && p.row == b.openRow && v.accesses[p.bank] < cfg.totalRowAccesses
    case Read => b.phase.RowActive? && now >= b.nextRead && p.row == b.openRow && v.accesses[p.bank] < cfg.totalRowAccesses
    case ReadP => b.phase.RowActive? && now >= b.nextRead && p.row == b.openRow && v.accesses[p.bank] < cfg.totalRowAccesses
    case Precharge => b.phase.RowActive? && now >= b.nextPrecharge
    case Refresh => false
    case Data => false
  }

  /** Does the packet go to this row? A queue that serves one bank only compares rows. */
  predicate GoesTo(cfg: Config, p: BusPacket, bank: nat, row: nat) {
    p.row == row && (cfg.structure.PerRank? ==> p.bank == bank)
  }

  /** An earlier column command to the same row is still waiting. */
  predicate Depends(cfg: Config, que: seq<BusPacket>, i: nat)
    requires i < |que|
  {
    exists j :: 0 <= j < i && !que[j].kind.Activate? && GoesTo(cfg, que[j], que[i].bank, que[i].row)
  }

  /** The packet is the second half of a pair whose ACTIVATE has not gone out. */
  predicate HeldByActivate(que: seq<BusPacket>, i: nat)
    requires i < |que|
  {
    i > 0 && que[i-1].kind.Activate? && que[i-1].address == que[i].address
  }

  predicate Eligible(cfg: Config, v: RankView, que: seq<BusPacket>, i: nat, now: nat)
    requires Fits(cfg, v, que) && i < |que|
  {
    && IsIssuable(cfg, v, que[i], now)
    && match (cfg.policy, cfg.structure)
       case (OpenPage, _) => !Depends(cfg, que, i)
       case (ClosePage, PerRank) => !HeldByActivate(que, i)
       case (ClosePage, PerRankPerBank) => i == 0
  }

  function FirstEligible(cfg: Config, v: RankView, que: seq<BusPacket>, i: nat, now: nat): (r: nat)
    requires Fits(cfg, v, que) && i <= |que|
    ensures i <= r <= |que|
    ensures r < |que| ==> Eligible(cfg, v, que, r, now)
    ensures forall j :: i <= j < r ==> !Eligible(cfg, v, que, j, now)
    decreases |que| - i
  {
    if i == |que| || Eligible(cfg, v, que, i, now) then i else FirstEligible(cfg, v, que, i + 1, now)
  }

  function FirstTo(cfg: Config, que: seq<BusPacket>, bank: nat, row: nat, i: nat): (r: nat)
    requires i <= |que|
    ensures i <= r <= |que|
    ensures r < |que| ==> GoesTo(cfg, que[r], bank, row)
    ensures forall j :: i <= j < r ==> !GoesTo(cfg, que[j], bank, row)
    decreases |que| - i
  {
    if i == |que| || GoesTo(cfg, que[i], bank, row) then i else FirstTo(cfg, que, bank, row, i + 1)
  }

  predicate HoldsBackRefresh(b: BankState, now: nat) { b.phase.RowActive? || b.nextActivate > now }

  function FirstHolding(banks: BankRow, i: nat, now: nat): (r: nat)
    requires i <= |banks|
    ensures i <= r <= |banks|
    ensures r < |banks| ==> HoldsBackRefresh(banks[r], now)
    ensures forall j :: i <= j < r ==> !HoldsBackRefresh(banks[j], now)
    decreases |banks| - i
  {
    if i == |banks| || HoldsBackRefresh(banks[i], now) then i else FirstHolding(banks, i + 1, now)
  }

  // ----- the choice -----

  ghost predicate Names(cfg: Config, q: QueueState, issue: Issue) {
    match issue
    case NoIssue => true
    case SendRefresh(r) => r < cfg.numRanks
    case CloseRow(r, b) => r < cfg.numRanks && b < cfg.numBanks
    case FromQueue(r, k, i, drop) =>
      && r < |q.queues| && k < cfg.Slots() && k < |q.queues[r]| && i < |q.queues[r][k]|
      && (drop ==> i > 0 && q.queues[r][k][i-1].kind.Activate?)
  }

  /** While a refresh is waiting: refresh if every bank is closed and ready, else help the first bank
      in the way to close. */
  function RefreshChoice(cfg: Config, v: RankView, queues: seq<seq<BusPacket>>, rank: nat, now: nat): Issue
    requires cfg.Valid() && |v.banks| == |v.accesses| == cfg.numBanks && |queues| >= cfg.Slots()
    requires forall k, i :: 0 <= k < |queues| && 0 <= i < |queues[k]| ==> queues[k][i].bank < cfg.numBanks
  {
    var b := FirstHolding(v.banks, 0, now);
    if b == |v.banks| then
      if v.banks[0].phase.PowerDown? then NoIssue else SendRefresh(rank)
    else if !v.banks[b].phase.RowActive? then NoIssue
    else
      var que := queues[cfg.SlotOf(b)];
      var j := FirstTo(cfg, que, b, v.banks[b].openRow, 0);
      if j < |que| && !que[j].kind.Activate? then
        if IsIssuable(cfg, v, que[j], now) then FromQueue(rank, cfg.SlotOf(b), j, false) else NoIssue
      else if cfg.policy.OpenPage? && now >= v.banks[b].nextPrecharge then CloseRow(rank, b)
      else NoIssue
  }

  ghost predicate Ready(cfg: Config, q: QueueState, t: Table) {
    cfg.Valid() && q.Shape(cfg) && TableShape(cfg, t)
  }

  predicate Blocked(q: QueueState, rank: nat) { q.refreshWaiting && rank == q.refreshRank }

  function QueueAt(cfg: Config, q: QueueState, c: Cursor): seq<BusPacket>
    requires q.Shape(cfg) && InGrid(cfg, c)
  {
    q.queues[c.rank][cfg.SlotOf(c.bank)]
  }

  function Pick(cfg: Config, q: QueueState, t: Table, c: Cursor, now: nat): (issue: Issue)
    requires Ready(cfg, q, t) && InGrid(cfg, c)
    ensures Names(cfg, q, issue)
  {
    var que := QueueAt(cfg, q, c);
    var i := FirstEligible(cfg, ViewOf(q, t, c.rank), que, 0, now);
    if Blocked(q, c.rank) || i == |que| then NoIssue
    else FromQueue(c.rank, cfg.SlotOf(c.bank), i, cfg.policy.OpenPage? && i > 0 && que[i-1].kind.Activate?)
  }

  /** Look at `turns` queues in scan order, starting with the one under the cursor. */
  function Search(cfg: Config, q: QueueState, t: Table, c: Cursor, turns: nat, now: nat): (r: (Cursor, Issue))
    requires Ready(cfg, q, t) && InGrid(cfg, c)
    ensures InGrid(cfg, r.0) && Names(cfg, q, r.1)
    ensures !r.1.NoIssue? ==> r.1.FromQueue? && r.1 == Pick(cfg, q, t, r.0, now)
    decreases turns
  {
    if turns == 0 then (c, NoIssue)
    else
      var pick := Pick(cfg, q, t, c, now);
      if pick.NoIssue? then
        NextIsSuccessor(cfg, c);
        Search(cfg, q, t, NextQueue(cfg, c), turns - 1, now)
      else (c, pick)
  }

  predicate Closable(cfg: Config, q: QueueState, t: Table, c: Cursor, now: nat)
    requires Ready(cfg, q, t) && InGrid(cfg, c)
  {
    var b := t[c.rank][c.bank];
    var que := QueueAt(cfg, q, c);
    && b.phase.RowActive?
    && (FirstTo(cfg, que, c.bank, b.openRow, 0) == |que| || q.rowAccess[c.rank][c.bank] == cfg.totalRowAccesses)
    && now >= b.nextPrecharge
  }

  /** Moves left before the cursor comes to `stop` (a full circle if it is there already). */
  function MovesLeft(cfg: Config, c: Cursor, stop: Cursor): nat
    requires InGrid(cfg, c) && InGrid(cfg, stop)
  {
    SerialInRange(cfg, c);
    SerialInRange(cfg, stop);
    if c == stop then GridSize(cfg) else Gap(GridSize(cfg), Serial(cfg, c), Serial(cfg, stop))
  }

  lemma MovesLeftDecreases(cfg: Config, c: Cursor, stop: Cursor)
    requires InGrid(cfg, c) && InGrid(cfg, stop)
    ensures MovesLeft(cfg, c, stop) >= 1
    ensures InGrid(cfg, NextRankAndBank(cfg, c))
    ensures NextRankAndBank(cfg, c) != stop ==> MovesLeft(cfg, NextRankAndBank(cfg, c), stop) == MovesLeft(cfg, c, stop) - 1
    ensures NextRankAndBank(cfg, c) == stop ==> MovesLeft(cfg, c, stop) == 1
  {
    SerialInRange(cfg, c);
    SerialInRange(cfg, stop);
    NextIsSuccessor(cfg, c);
    SerialInRange(cfg, NextRankAndBank(cfg, c));
    if c != stop && Serial(cfg, c) == Serial(cfg, stop) { SerialInjective(cfg, c, stop); }
    GapStep(GridSize(cfg), Serial(cfg, c), Serial(cfg, stop));
  }

  /** Look for an open bank nobody needs, from the cursor until it comes round to `stop`. */
  function SearchClose(cfg: Config, q: QueueState, t: Table, c: Cursor, stop: Cursor, now: nat): (r: (Cursor, Issue))
    requires Ready(cfg, q, t) && InGrid(cfg, c) && InGrid(cfg, stop)
    ensures InGrid(cfg, r.0)
    ensures r.1.NoIssue? ==> r.0 == stop
    ensures !r.1.NoIssue? ==> r.1 == CloseRow(r.0.rank, r.0.bank) && Closable(cfg, q, t, r.0, now)
    decreases MovesLeft(cfg, c, stop)
  {
    if Closable(cfg, q, t, c, now) then (c, CloseRow(c.rank, c.bank))
    else
      MovesLeftDecreases(cfg, c, stop);
      var n := NextRankAndBank(cfg, c);
      if n == stop then (n, NoIssue) else SearchClose(cfg, q, t, n, stop, now)
  }

  /** An unsigned cursor stored in a C++ bool. */
  function Truth(n: nat): nat { if n == 0 then 0 else 1 }

  /** Where the search for a bank to close stops: per-rank-per-bank mode keeps the start in bools. */
  function CloseStop(cfg: Config, c: Cursor): (s: Cursor)
    requires InGrid(cfg, c)
    ensures InGrid(cfg, s)
  {
    if cfg.structure.PerRank? then c else Cursor(Truth(c.rank), Truth(c.bank))
  }

  /** What the refresh path wants to send. */
  function Urgent(cfg: Config, q: QueueState, t: Table, now: nat): (issue: Issue)
    requires Ready(cfg, q, t)
    ensures Names(cfg, q, issue)
  {
    if !q.refreshWaiting then NoIssue
    else RefreshChoice(cfg, ViewOf(q, t, q.refreshRank), q.queues[q.refreshRank], q.refreshRank, now)
  }

  /** Without an urgent command: search the queues, then, under open page, look for a row to close. */
  function Normal(cfg: Config, q: QueueState, t: Table, now: nat): (r: (Issue, QueueState))
    requires Ready(cfg, q, t)
    ensures r.1.Shape(cfg) && Names(cfg, r.1, r.0)
    ensures r.1 == q.(nextRank := r.1.nextRank, nextBank := r.1.nextBank, nextRankPRE := r.1.nextRankPRE, nextBankPRE := r.1.nextBankPRE)
  {
    var (c, found) := Search(cfg, q, t, Cursor(q.nextRank, q.nextBank), QueueCount(cfg), now);
    var q1 := q.(nextRank := c.rank, nextBank := c.bank);
    if !found.NoIssue? || cfg.policy.ClosePage? then (found, q1)
    else
      var start := Cursor(q.nextRankPRE, q.nextBankPRE);
      var (d, closing) := SearchClose(cfg, q, t, start, CloseStop(cfg, start), now);
      (closing, q1.(nextRankPRE := d.rank, nextBankPRE := d.bank))
  }

  /** The chosen command, and the queue with its cursors and refresh flags moved. */
  function Choose(cfg: Config, q: QueueState, t: Table, now: nat): (r: (Issue, QueueState))
    requires Ready(cfg, q, t)
    ensures r.1.Shape(cfg) && Names(cfg, r.1, r.0)
    ensures r.1.queues == q.queues && r.1.rowAccess == q.rowAccess && r.1.faw == q.faw && r.1.sendAct == q.sendAct
  {
    var urgent := Urgent(cfg, q, t, now);
    if urgent.NoIssue? then Normal(cfg, q, t, now)
    else if urgent.SendRefresh? then (urgent, q.(refreshRank := UINT_MAX, refreshWaiting := false))
    else (urgent, q)
  }

  // ----- carrying it out -----

  function PacketOf(cfg: Config, q: QueueState, issue: Issue): (p: BusPacket)
    requires q.Shape(cfg) && Names(cfg, q, issue) && !issue.NoIssue?
    ensures p.rank < cfg.numRanks
  {
    match issue
    case SendRefresh(r) => BusPacket(Refresh, 0, 0, 0, r, 0, 0)
    case CloseRow(r, b) => BusPacket(Precharge, 0, 0, 0, r, b, 0)
    case FromQueue(r, k, i, drop) => q.queues[r][k][i]
  }

  function Without(que: seq<BusPacket>, i: nat, dropActivate: bool): seq<BusPacket>
    requires i < |que| && (dropActivate ==> i > 0)
  {
    que[..if dropActivate then i - 1 else i] + que[i+1..]
  }

  function Take(cfg: Config, q: QueueState, issue: Issue): (q': QueueState)
    requires q.Shape(cfg) && Names(cfg, q, issue)
    ensures q'.Shape(cfg)
  {
    match issue
    case NoIssue => q
    case SendRefresh(r) => q
    case CloseRow(r, b) => q.(rowAccess := q.rowAccess[r := q.rowAccess[r][b := 0]])
    case FromQueue(r, k, i, drop) =>
      var que := q.queues[r][k];
      var q1 := q.(queues := q.queues[r := q.queues[r][k := Without(que, i, drop)]]);
      if drop then
        var b := if cfg.structure.PerRank? then que[i].bank else k;
        q1.(rowAccess := q1.rowAccess[r := q1.rowAccess[r][b := q1.rowAccess[r][b] + 1]])
      else q1
  }

  /** With posted CAS the cursor stays put after an ACTIVATE so that its column command follows. */
  function Advance(cfg: Config, q: QueueState): (q': QueueState)
    requires q.Shape(cfg)
    ensures q'.Shape(cfg)
  {
    if cfg.al > 0 && q.sendAct then q.(sendAct := false)
    else
      var c := Cursor(q.nextRank, q.nextBank);
      NextIsSuccessor(cfg, c);
      var n := NextRankAndBank(cfg, c);
      q.(sendAct := true, nextRank := n.rank, nextBank := n.bank)
  }

  /** One cycle of a rank's activation window: every counter drops by one, and the head leaves at zero. */
  function TickWindow(w: seq<nat>): seq<nat> {
    var d := DecrementAll(w);
    if |d| > 0 && d[0] == 0 then d[1..] else d
  }

  function TickWindows(ws: seq<seq<nat>>): seq<seq<nat>> {
    seq(|ws|, r requires 0 <= r < |ws| => TickWindow(ws[r]))
  }

  function NoteActivate(cfg: Config, q: QueueState, p: BusPacket): (q': QueueState)
    requires q.Shape(cfg) && p.rank < cfg.numRanks
    ensures q'.Shape(cfg)
  {
    if p.kind.Activate? then q.(faw := q.faw[p.rank := q.faw[p.rank] + [cfg.tFAW]]) else q
  }

  /** Remove the chosen command from the queues, move on, and count an ACTIVATE. */
  function Carry(cfg: Config, q: QueueState, issue: Issue): (r: (QueueState, Option<BusPacket>))
    requires q.Shape(cfg) && Names(cfg, q, issue)
    ensures r.0.Shape(cfg)
  {
    if issue.NoIssue? then (q, None)
    else
      var p := PacketOf(cfg, q, issue);
      (NoteActivate(cfg, Advance(cfg, Take(cfg, q, issue)), p), Some(p))
  }

  /** One call of pop. */
  function Pop(cfg: Config, q: QueueState, t: Table, now: nat): (r: (QueueState, Option<BusPacket>))
    requires Ready(cfg, q, t)
    ensures r.0.Shape(cfg)
  {
    var (issue, q1) := Choose(cfg, q.(faw := TickWindows(q.faw)), t, now);
    Carry(cfg, q1, issue)
  }
}
