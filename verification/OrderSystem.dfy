/** The order system as a machine: a database of committed orders, outbox rows and processed event
    ids; any number of use cases in flight, each reading an order in three separate statements and
    writing in its own transaction; and one relay that drains the outbox. A run is any list of
    actions; an action that is not possible (a held lock, a wrong phase) leaves the state alone.

    What a use case does is a parameter here, so that what this machine guarantees does not depend
    on any business rule. */
module OrderSystem {
  import opened Wrappers
  import opened Orders
  import opened Allocation
  import opened UseCases

  /** How jobs start, what they do with a loaded order, and how many outbox rows (one per encoder
      that has a message for it) an event contributes. */
  datatype Config = Config(
    start: Job -> Start,
    plan: (Job, OrderState) -> Plan,
    copies: Event -> nat)

  datatype Row = Row(id: nat, event: Event)

  /** A transaction in flight. `base` is the order the use case read or has in memory; `floor` is
      the next row id at the moment it read the version of that order. */
  datatype Txn = Txn(
    id: OrderId,
    base: Option<OrderState>,
    mark: Option<string>,
    floor: nat,
    plan: Plan,
    pc: nat,
    stored: Option<OrderState>,
    rows: seq<Row>)

  datatype Client =
    | Waiting(job: Job)
    | Marked(job: Job, claimed: string)
    | GotHeader(job: Job, mark: Option<string>, header: OrderState, floor: nat)
    | GotLines(job: Job, mark: Option<string>, header: OrderState, lines: seq<Line>, floor: nat)
    | Running(job: Job, txn: Txn)
    | Done

  datatype Relay = Resting | Sending(batch: seq<nat>, k: nat)

  /** A committed transaction. */
  datatype Rec = Rec(
    job: Job,
    id: OrderId,
    base: Option<OrderState>,
    mark: Option<string>,
    plan: Plan,
    stored: Option<OrderState>,
    rows: seq<Row>)

  datatype Sys = Sys(
    orders: map<OrderId, OrderState>,
    outbox: map<nat, Event>,
    published: set<nat>,
    processed: set<string>,
    nextId: nat,
    minted: set<OrderId>,
    clients: seq<Client>,
    relay: Relay,
    sent: seq<nat>,
    hist: seq<Rec>)

  const INITIAL := Sys(map[], map[], {}, {}, 0, {}, [], Resting, [], [])

  datatype Action =
    | Spawn(job: Job)
    | Begin(i: nat)
    | ReadHeader(i: nat)
    | ReadLines(i: nat)
    | ReadGroups(i: nat)
    | Exec(i: nat)
    | CommitTxn(i: nat)
    | AbortTxn(i: nat)
    | Claim(batch: seq<nat>)
    | Send
    | SendFails(taken: bool)
    | RelayCommit
    | RelayAbort

  // ---------------------------------------------------------------- locks

  predicate HoldsMark(c: Client, m: string) {
    match c
    case Marked(_, mark) => mark == m
    case GotHeader(_, mark, _, _) => mark == Some(m)
    case GotLines(_, mark, _, _, _) => mark == Some(m)
    case Running(_, txn) => txn.mark == Some(m)
    case _ => false
  }

  /** A transaction that has written an order holds its row until it ends. */
  predicate HoldsOrder(c: Client, id: OrderId) {
    c.Running? && c.txn.stored.Some? && c.txn.stored.value.id == id
  }

  predicate MarkLocked(s: Sys, m: string) {
    exists i :: 0 <= i < |s.clients| && HoldsMark(s.clients[i], m)
  }

  predicate OrderLocked(s: Sys, id: OrderId) {
    exists i :: 0 <= i < |s.clients| && HoldsOrder(s.clients[i], id)
  }

  // ---------------------------------------------------------------- use cases

  function SetClient(s: Sys, i: nat, c: Client): Sys
    requires i < |s.clients|
  {
    s.(clients := s.clients[i := c])
  }

  function Txn0(id: OrderId, base: Option<OrderState>, mark: Option<string>, floor: nat, plan: Plan): Txn {
    Txn(id, base, mark, floor, plan, 0, None, [])
  }

  /** An intake mints an order id that nobody has used and opens its transaction; a repromise claims
      its source event first, and is done if the event is already processed. */
  function BeginStep(cfg: Config, s: Sys, i: nat): Sys
    requires i < |s.clients| && s.clients[i].Waiting?
  {
    var job := s.clients[i].job;
    match cfg.start(job)
    case Refuse => SetClient(s, i, Done)
    case Create(order, first, _) =>
      if order.id in s.minted then s
      else SetClient(s, i, Running(job, Txn0(order.id, None, None, s.nextId, first))).(minted := s.minted + {order.id})
    case Load(id, None) => s
    case Load(id, Some(m)) =>
      if MarkLocked(s, m) then s
      else if m in s.processed then SetClient(s, i, Done)
      else SetClient(s, i, Marked(job, m))
  }

  function HeaderStep(cfg: Config, s: Sys, i: nat): Sys
    requires i < |s.clients| && (s.clients[i].Waiting? || s.clients[i].Marked?)
  {
    var c := s.clients[i];
    match cfg.start(c.job)
    case Load(id, mark) =>
      if mark.Some? != c.Marked? || (c.Marked? && mark != Some(c.claimed)) then s
      else if id in s.orders then SetClient(s, i, GotHeader(c.job, mark, s.orders[id], s.nextId))
      else if mark.Some? then SetClient(s, i, Running(c.job, Txn0(id, None, mark, s.nextId, Plan([], Commit))))
      else SetClient(s, i, Done)
    case _ => s
  }

  function LinesStep(s: Sys, i: nat): Sys
    requires i < |s.clients| && s.clients[i].GotHeader?
  {
    var c := s.clients[i];
    if c.header.id !in s.orders then s
    else SetClient(s, i, GotLines(c.job, c.mark, c.header, s.orders[c.header.id].lines, c.floor))
  }

  /** The order the repository rebuilds from its three reads. */
  function Assembled(header: OrderState, lines: seq<Line>, groups: seq<PromiseGroup>): OrderState {
    header.(lines := lines, promiseGroups := groups)
  }

  function GroupsStep(cfg: Config, s: Sys, i: nat): Sys
    requires i < |s.clients| && s.clients[i].GotLines?
  {
    var c := s.clients[i];
    var id := c.header.id;
    if id !in s.orders then s
    else
      var loaded := Assembled(c.header, c.lines, s.orders[id].promiseGroups);
      SetClient(s, i, Running(c.job, Txn0(id, Some(loaded), c.mark, c.floor, cfg.plan(c.job, loaded))))
  }

  /** `n` outbox rows of one event, with consecutive ids. */
  function Fresh(next: nat, e: Event, n: nat): (r: seq<Row>)
    ensures |r| == n
    ensures forall k :: 0 <= k < n ==> r[k] == Row(next + k, e)
  {
    seq(n, k requires 0 <= k < n => Row(next + k, e))
  }

  function Committed(s: Sys, id: OrderId): Option<OrderState> {
    if id in s.orders then Some(s.orders[id]) else None
  }

  /** The row a statement of the transaction sees: what the transaction wrote itself, or else what is
      committed. */
  function Visible(s: Sys, t: Txn, id: OrderId): Option<OrderState> {
    if t.stored.Some? && t.stored.value.id == id then t.stored else Committed(s, id)
  }

  /** The version guard: nothing there yet, or there at exactly the version of the order to save. */
  predicate GuardPasses(row: Option<OrderState>, o: OrderState) {
    row.Some? ==> row.value.version == o.version
  }

  /** What a successful save leaves in the transaction: an insert keeps the version, an update of
      the row moves it up by one. */
  function Written(row: Option<OrderState>, o: OrderState): OrderState {
    if row.Some? then Bumped(o) else o
  }

  /** A save waits for the row lock; one that fails the guard abandons the transaction. A transaction that
      has inserted an order may go on to update it. No use case saves two orders in one transaction; one
      that did would be abandoned here. */
  function StoreStep(s: Sys, i: nat, o: OrderState): Sys
    requires i < |s.clients| && s.clients[i].Running?
  {
    var c := s.clients[i];
    var t := c.txn;
    var row := Visible(s, t, o.id);
    if OrderLocked(s, o.id) && !HoldsOrder(c, o.id) then s
    else if (t.stored.Some? && t.stored.value.id != o.id) || !GuardPasses(row, o) then SetClient(s, i, Done)
    else SetClient(s, i, Running(c.job, t.(pc := t.pc + 1, stored := Some(Written(row, o)))))
  }

  /** One write. */
  function ExecStep(cfg: Config, s: Sys, i: nat): Sys
    requires i < |s.clients| && s.clients[i].Running? && s.clients[i].txn.pc < |s.clients[i].txn.plan.effects|
  {
    var c := s.clients[i];
    var t := c.txn;
    match t.plan.effects[t.pc]
    case Emit(e) =>
      var n := cfg.copies(e);
      SetClient(s, i, Running(c.job, t.(pc := t.pc + 1, rows := t.rows + Fresh(s.nextId, e, n)))).(nextId := s.nextId + n)
    case Store(o) => StoreStep(s, i, o)
  }

  function RowMap(rows: seq<Row>): map<nat, Event> {
    if rows == [] then map[]
    else RowMap(rows[..|rows| - 1])[rows[|rows| - 1].id := rows[|rows| - 1].event]
  }

  function RecOf(c: Client): Rec
    requires c.Running?
  {
    Rec(c.job, c.txn.id, c.txn.base, c.txn.mark, c.txn.plan, c.txn.stored, c.txn.rows)
  }

  /** A committed intake, unless its transaction did that too, goes on to allocate the very order it has
      in memory. */
  function AfterCommit(cfg: Config, c: Client, nextId: nat): Client
    requires c.Running?
  {
    if cfg.start(c.job).Create? && cfg.start(c.job).goesOn && c.txn.base.None? && c.txn.stored.Some? then
      Running(c.job, Txn0(c.txn.id, c.txn.stored, None, nextId, cfg.plan(c.job, c.txn.stored.value)))
    else Done
  }

  function Apply(orders: map<OrderId, OrderState>, r: Rec): map<OrderId, OrderState> {
    if r.stored.None? then orders else orders[r.stored.value.id := r.stored.value]
  }

  /** Every write is done and the use case ended well. */
  predicate CanCommit(c: Client) {
    c.Running? && c.txn.pc == |c.txn.plan.effects| && c.txn.plan.verdict == Commit
  }

  function CommitStep(cfg: Config, s: Sys, i: nat): Sys
    requires i < |s.clients| && s.clients[i].Running?
  {
    var c := s.clients[i];
    if !CanCommit(c) then s
    else
      var r := RecOf(c);
      s.(orders := Apply(s.orders, r),
         outbox := s.outbox + RowMap(r.rows),
         processed := s.processed + (if r.mark.Some? then {r.mark.value} else {}),
         clients := s.clients[i := AfterCommit(cfg, c, s.nextId)],
         hist := s.hist + [r])
  }

  function ClientStep(cfg: Config, s: Sys, a: Action, i: nat): Sys
    requires i < |s.clients|
  {
    var c := s.clients[i];
    match a
    case Begin(_) => if c.Waiting? then BeginStep(cfg, s, i) else s
    case ReadHeader(_) => if c.Waiting? || c.Marked? then HeaderStep(cfg, s, i) else s
    case ReadLines(_) => if c.GotHeader? then LinesStep(s, i) else s
    case ReadGroups(_) => if c.GotLines? then GroupsStep(cfg, s, i) else s
    case Exec(_) => if c.Running? && c.txn.pc < |c.txn.plan.effects| then ExecStep(cfg, s, i) else s
    case CommitTxn(_) => if c.Running? then CommitStep(cfg, s, i) else s
    // An error, a rollback or a crash, at any moment.
    case AbortTxn(_) => SetClient(s, i, Done)
    case _ => s
  }

  // ---------------------------------------------------------------- the relay

  predicate Ascending(ids: seq<nat>) {
    forall i, j :: 0 <= i < j < |ids| ==> ids[i] < ids[j]
  }

  predicate Pending(s: Sys, id: nat) {
    id in s.outbox && id !in s.published
  }

  /** A prefix, in id order, of the rows that are committed and not yet published. */
  predicate Claimable(s: Sys, batch: seq<nat>) {
    && Ascending(batch)
    && (forall k :: 0 <= k < |batch| ==> Pending(s, batch[k]))
    && forall k, id :: 0 <= k < |batch| && id in s.outbox && id !in s.published && id < batch[k] ==> id in batch[..k]
  }

  function Marks(batch: seq<nat>, k: nat): set<nat>
    requires k <= |batch|
  {
    set x | x in batch[..k]
  }

  function RelayStep(s: Sys, a: Action): Sys {
    match s.relay
    case Resting => if a.Claim? && Claimable(s, a.batch) then s.(relay := Sending(a.batch, 0)) else s
    case Sending(batch, k) =>
      if k > |batch| then s
      else
        match a
        case Send => if k < |batch| then s.(relay := Sending(batch, k + 1), sent := s.sent + [batch[k]]) else s
        // The failure is recorded and the rows sent so far stay marked. The broker may have taken the
        // message all the same.
        case SendFails(taken) =>
          if k < |batch| then
            s.(relay := Resting, published := s.published + Marks(batch, k), sent := s.sent + (if taken then [batch[k]] else []))
          else s
        case RelayCommit => if k == |batch| then s.(relay := Resting, published := s.published + Marks(batch, k)) else s
        // A crash or a lost commit: rows already sent stay unpublished and will be sent again.
        case RelayAbort => s.(relay := Resting)
        case _ => s
  }

  // ---------------------------------------------------------------- runs

  /** The action commits a transaction. */
  predicate Commits(s: Sys, a: Action) {
    a.CommitTxn? && a.i < |s.clients| && CanCommit(s.clients[a.i])
  }

  function Next(cfg: Config, s: Sys, a: Action): Sys {
    match a
    case Spawn(job) => s.(clients := s.clients + [Waiting(job)])
    case Claim(_) => RelayStep(s, a)
    case Send => RelayStep(s, a)
    case SendFails(_) => RelayStep(s, a)
    case RelayCommit => RelayStep(s, a)
    case RelayAbort => RelayStep(s, a)
    case _ => if a.i < |s.clients| then ClientStep(cfg, s, a, a.i) else s
  }

  /** The state after any list of actions. */
  function Run(cfg: Config, actions: seq<Action>): Sys {
    if actions == [] then INITIAL
    else Next(cfg, Run(cfg, actions[..|actions| - 1]), actions[|actions| - 1])
  }

  /** Only a commit changes what is committed. */
  lemma QuietAction(cfg: Config, s: Sys, a: Action)
    requires !Commits(s, a)
    ensures
      var t := Next(cfg, s, a);
      t.orders == s.orders && t.outbox == s.outbox && t.processed == s.processed && t.hist == s.hist
  {
  }

  lemma CommitAction(cfg: Config, s: Sys, a: Action)
    requires Commits(s, a)
    ensures Next(cfg, s, a) == CommitStep(cfg, s, a.i)
  {
  }

  /** Whatever happens between two commits, failures and crashes included, leaves no trace: orders,
      outbox and processed events are those of the last commit. */
  lemma {:induction false} OnlyCommitsLeaveTraces(cfg: Config, actions: seq<Action>, n: nat)
    requires n <= |actions|
    ensures Run(cfg, actions[..n]).hist <= Run(cfg, actions).hist
    ensures
      var s, t := Run(cfg, actions[..n]), Run(cfg, actions);
      t.hist == s.hist ==> t.orders == s.orders && t.outbox == s.outbox && t.processed == s.processed
  {
    if n == |actions| {
      assert actions[..n] == actions;
    } else {
      var earlier, a := actions[..|actions| - 1], actions[|actions| - 1];
      assert earlier[..n] == actions[..n];
      OnlyCommitsLeaveTraces(cfg, earlier, n);
      if Commits(Run(cfg, earlier), a) {
        CommitAction(cfg, Run(cfg, earlier), a);
      } else {
        QuietAction(cfg, Run(cfg, earlier), a);
      }
    }
  }
}
