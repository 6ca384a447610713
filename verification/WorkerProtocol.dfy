/** The hold/block protocol that moves the workers of one client between transaction executing processes.

    A `World` is everything the protocol's scripts share: the client's rows of the worker table (a worker's
    number is the rank of its row, in ascending id order), the two message queues of every process (a process's
    number is its rank in the process table) and each process's consumption flag.  `outbox` is what the
    associate or disassociate script in flight still has to do.  `executed`, `ops` and the `op` field of a
    message are history: no step reads them. */
module WorkerProtocol {
  import opened Wrappers
  import opened Sequences

  datatype Status = Active | Inactive | Hold | Blocking

  datatype Row = Row(status: Status, process: Option<nat>, funded: bool)

  datatype Message =
    | Transaction(id: nat)
    | MarkBlockingToOriginal(worker: Option<nat>, original: Status, op: nat)
    | GoOnHold(target: nat, op: nat)
    | GoToOriginal(target: nat, original: Status)

  datatype Action = Attach(worker: nat, process: nat) | Publish(process: nat, message: Message)

  datatype World = World(
    rows: seq<Row>,
    txQueue: seq<seq<Message>>,
    cmdQueue: seq<seq<Message>>,
    consuming: seq<bool>,
    outbox: seq<Action>,
    executed: seq<seq<Message>>,
    ops: nat)

  /** What a handler tells its process to do with the consumption of its transaction queue. */
  datatype Reply = NoChange | StartConsuming | StopConsuming

  // ------------------------------------------------------------------ table queries

  predicate AnyBlocking(rows: seq<Row>) {
    exists w :: 0 <= w < |rows| && rows[w].status == Blocking
  }

  predicate IsWorking(row: Row) {
    row.process.Some?
  }

  predicate IsTemporary(row: Row) {
    row.status == Hold || row.status == Blocking
  }

  predicate IsAvailable(row: Row) {
    row.status == Active && row.funded && row.process.None?
  }

  /** The available workers among the first n rows, in table order. */
  function Available(rows: seq<Row>, n: nat): (ws: seq<nat>)
    requires n <= |rows|
  {
    if n == 0 then []
    else if IsAvailable(rows[n - 1]) then Available(rows, n - 1) + [n - 1]
    else Available(rows, n - 1)
  }

  /** The first row on process p at or after row k: what `response[0]` of a query by process sees. */
  function FirstOn(rows: seq<Row>, p: nat, k: nat): (w: Option<nat>)
    requires k <= |rows|
    ensures w.Some? ==> k <= w.value < |rows| && rows[w.value].process == Some(p)
    ensures w.None? ==> forall i :: k <= i < |rows| ==> rows[i].process != Some(p)
    decreases |rows| - k
  {
    if k == |rows| then None
    else if rows[k].process == Some(p) then Some(k)
    else FirstOn(rows, p, k + 1)
  }

  function Send(queues: seq<seq<Message>>, p: nat, m: Message): (r: seq<seq<Message>>)
    ensures |r| == |queues|
  {
    if p < |queues| then queues[p := queues[p] + [m]] else queues
  }

  // ------------------------------------------------------------------ the three message handlers

  /** Wake every worker on hold from row k on; a row without a reachable process ends the loop, as the exception
      of the queue lookup does. */
  function WakeHeld(rows: seq<Row>, cmd: seq<seq<Message>>, k: nat): (r: seq<seq<Message>>)
    requires k <= |rows|
    ensures |r| == |cmd|
    decreases |rows| - k
  {
    if k == |rows| then cmd
    else if rows[k].status != Hold then WakeHeld(rows, cmd, k + 1)
    else if rows[k].process.None? || rows[k].process.value >= |cmd| then cmd
    else WakeHeld(rows, Send(cmd, rows[k].process.value, GoToOriginal(k, Active)), k + 1)
  }

  function HandleMarker(s: World, worker: Option<nat>, original: Status): (r: (World, Reply))
  {
    if worker.None? || worker.value >= |s.rows| || s.rows[worker.value].status != Blocking then (s, NoChange)
    else
      var rows := s.rows[worker.value := s.rows[worker.value].(status := original)];
      (s.(rows := rows, cmdQueue := WakeHeld(rows, s.cmdQueue, 0)), NoChange)
  }

  function HandleGoOnHold(s: World, w: nat): (r: (World, Reply))
  {
    if w >= |s.rows| || IsTemporary(s.rows[w]) || !AnyBlocking(s.rows) then (s, NoChange)
    else (s.(rows := s.rows[w := s.rows[w].(status := Hold)]), StopConsuming)
  }

  function HandleGoToOriginal(s: World, w: nat, original: Status): (r: (World, Reply))
  {
    if w >= |s.rows| || s.rows[w].status != Hold || AnyBlocking(s.rows) then (s, NoChange)
    else (s.(rows := s.rows[w := s.rows[w].(status := original)]), StartConsuming)
  }

  function Handle(s: World, m: Message): (r: (World, Reply))
  {
    match m
    case Transaction(_) => (s, NoChange)
    case MarkBlockingToOriginal(worker, original, _) => HandleMarker(s, worker, original)
    case GoOnHold(w, _) => HandleGoOnHold(s, w)
    case GoToOriginal(w, original) => HandleGoToOriginal(s, w, original)
  }

  /** Process p runs one message and obeys the reply. */
  function Execute(s: World, p: nat, m: Message): (r: World)
  {
    var (t, reply) := Handle(s, m);
    if p >= |t.consuming| then t
    else match reply
      case NoChange => t
      case StartConsuming => t.(consuming := t.consuming[p := true])
      case StopConsuming => t.(consuming := t.consuming[p := false])
  }

  // ------------------------------------------------------------------ restart of a process

  function ReleaseHeldOn(rows: seq<Row>, p: nat): (r: seq<Row>)
  {
    seq(|rows|, w requires 0 <= w < |rows| =>
      if rows[w].status == Hold && rows[w].process == Some(p) then rows[w].(status := Active) else rows[w])
  }

  predicate AnyHeldOn(rows: seq<Row>, p: nat) {
    exists w :: 0 <= w < |rows| && rows[w].status == Hold && rows[w].process == Some(p)
  }

  function Restart(s: World, p: nat): (t: World)
    requires p < |s.consuming|
  {
    if AnyHeldOn(s.rows, p) && AnyBlocking(s.rows) then s.(consuming := s.consuming[p := false])
    else s.(rows := ReleaseHeldOn(s.rows, p), consuming := s.consuming[p := true])
  }

  // ------------------------------------------------------------------ association

  /** The processes that get a worker: as many of the given ones as there are available workers. */
  function UsedProcesses(rows: seq<Row>, ps: seq<nat>): (used: seq<nat>)
  {
    var avail := Available(rows, |rows|);
    if |ps| > |avail| then ps[..|avail|] else ps
  }

  /** Every validation of the associate script.  `allocatable` holds the processes whose row in the process table
      is available for allocation and has the client's chain id. */
  predicate CanAssociate(s: World, ps: seq<nat>, allocatable: set<nat>) {
    && ps != []
    && Available(s.rows, |s.rows|) != []
    && (forall w :: 0 <= w < |s.rows| && IsWorking(s.rows[w]) ==> s.rows[w].process.value !in ps)
    && Distinct(UsedProcesses(s.rows, ps))
    && (forall p :: p in UsedProcesses(s.rows, ps) ==> p < |s.txQueue| && p in allocatable)
    && (forall w :: 0 <= w < |s.rows| && IsWorking(s.rows[w]) ==> !IsTemporary(s.rows[w]))
  }

  function BlockWorking(rows: seq<Row>): (r: seq<Row>)
  {
    seq(|rows|, w requires 0 <= w < |rows| =>
      if IsWorking(rows[w]) then rows[w].(status := Blocking) else rows[w])
  }

  /** Attach the first n of the chosen workers and tell each new process to hold. */
  function AttachActions(ws: seq<nat>, ps: seq<nat>, op: nat, n: nat): (r: seq<Action>)
    requires n <= |ws| && n <= |ps|
  {
    if n == 0 then []
    else
      var step := [Attach(ws[n - 1], ps[n - 1]), Publish(ps[n - 1], GoOnHold(ws[n - 1], op))];
      AttachActions(ws, ps, op, n - 1) + step
  }

  /** Markers for the old processes: one for each working row among the first n, naming the first row found on
      that row's process and the status it had. */
  function MarkerActions(rows: seq<Row>, op: nat, n: nat): (r: seq<Action>)
    requires n <= |rows|
  {
    if n == 0 then []
    else if !IsWorking(rows[n - 1]) then MarkerActions(rows, op, n - 1)
    else
      var p := rows[n - 1].process.value;
      var w := FirstOn(rows, p, 0).value;
      MarkerActions(rows, op, n - 1) + [Publish(p, MarkBlockingToOriginal(Some(w), rows[w].status, op))]
  }

  function Associate(s: World, ps: seq<nat>, allocatable: set<nat>): (t: World)
  {
    if !CanAssociate(s, ps, allocatable) then s
    else
      var used := UsedProcesses(s.rows, ps);
      s.(rows := BlockWorking(s.rows),
         outbox := s.outbox + AttachActions(Available(s.rows, |s.rows|), used, s.ops, |used|)
                   + MarkerActions(s.rows, s.ops, |s.rows|),
         ops := s.ops + 1)
  }

  // ------------------------------------------------------------------ disassociation

  predicate CanDisassociate(s: World, ps: seq<nat>) {
    && ps != []
    && (forall w :: 0 <= w < |s.rows| ==> !IsTemporary(s.rows[w]))
    && (forall i :: 0 <= i < |ps| ==> FirstOn(s.rows, ps[i], 0).Some?)
  }

  /** The worker found on each of the given processes, in the order the processes are given (`idArray`). */
  function WorkersOn(rows: seq<Row>, ps: seq<nat>): (ids: seq<nat>)
    requires forall i :: 0 <= i < |ps| ==> FirstOn(rows, ps[i], 0).Some?
    ensures |ids| == |ps|
    ensures forall i :: 0 <= i < |ids| ==> ids[i] < |rows| && rows[ids[i]].process == Some(ps[i])
  {
    seq(|ps|, i requires 0 <= i < |ps| => FirstOn(rows, ps[i], 0).value)
  }

  /** `Object.keys(idStatusMap)`: the different ids below n in ascending order, however they were collected. */
  function SortedKeys(ids: seq<nat>, n: nat): (keys: seq<nat>)
  {
    if n == 0 then []
    else if n - 1 in ids then SortedKeys(ids, n - 1) + [n - 1]
    else SortedKeys(ids, n - 1)
  }

  function Detach(rows: seq<Row>, ids: seq<nat>): (r: seq<Row>)
  {
    seq(|rows|, w requires 0 <= w < |rows| =>
      if w in ids then rows[w].(process := None, status := Blocking) else rows[w])
  }

  /** Markers to the first n given processes; the i-th names the i-th sorted key, or nothing once the keys run out. */
  function ReleaseActions(rows: seq<Row>, ps: seq<nat>, keys: seq<nat>, op: nat, n: nat): (r: seq<Action>)
    requires n <= |ps|
    requires forall i :: 0 <= i < |keys| ==> keys[i] < |rows|
  {
    if n == 0 then []
    else
      var m := if n - 1 < |keys|
               then MarkBlockingToOriginal(Some(keys[n - 1]), rows[keys[n - 1]].status, op)
               else MarkBlockingToOriginal(None, Active, op);
      ReleaseActions(rows, ps, keys, op, n - 1) + [Publish(ps[n - 1], m)]
  }

  /** A hold message for each of the first n rows that is still on a process. */
  function SiblingActions(rows: seq<Row>, op: nat, n: nat): (r: seq<Action>)
    requires n <= |rows|
  {
    if n == 0 then []
    else if !IsWorking(rows[n - 1]) then SiblingActions(rows, op, n - 1)
    else SiblingActions(rows, op, n - 1) + [Publish(rows[n - 1].process.value, GoOnHold(n - 1, op))]
  }

  lemma SortedKeysInRange(ids: seq<nat>, n: nat)
    ensures forall w :: w in SortedKeys(ids, n) <==> w < n && w in ids
  {
  }

  function Disassociate(s: World, ps: seq<nat>): (t: World)
  {
    if !CanDisassociate(s, ps) then s
    else
      var ids := WorkersOn(s.rows, ps);
      var keys := SortedKeys(ids, |s.rows|);
      SortedKeysInRange(ids, |s.rows|);
      assert forall i :: 0 <= i < |keys| ==> keys[i] in keys;
      var rows := Detach(s.rows, ids);
      s.(rows := rows,
         outbox := s.outbox + ReleaseActions(s.rows, ps, keys, s.ops, |ps|) + SiblingActions(rows, s.ops, |rows|),
         ops := s.ops + 1)
  }

  // ------------------------------------------------------------------ steps and runs

  datatype Event =
    | Arrive(process: nat, id: nat)
    | StartAssociate(processes: seq<nat>, allocatable: set<nat>)
    | StartDisassociate(processes: seq<nat>)
    | Advance
    | TakeTransaction(process: nat)
    | TakeCommand(process: nat)
    | Reboot(process: nat)

  /** The operation in flight does its next database update or publication. */
  function DoAction(s: World, a: Action): (t: World)
  {
    match a
    case Attach(w, p) =>
      if w < |s.rows| then s.(rows := s.rows[w := s.rows[w].(process := Some(p))]) else s
    case Publish(p, m) => s.(txQueue := Send(s.txQueue, p, m))
  }

  predicate Enabled(s: World, e: Event) {
    match e
    case Arrive(p, _) => p < |s.txQueue|
    case StartAssociate(_, _) => s.outbox == []
    case StartDisassociate(_) => s.outbox == []
    case Advance => s.outbox != []
    case TakeTransaction(p) => p < |s.txQueue| && p < |s.consuming| && p < |s.executed| && s.consuming[p] && s.txQueue[p] != []
    case TakeCommand(p) => p < |s.cmdQueue| && s.cmdQueue[p] != []
    case Reboot(p) => p < |s.consuming|
  }

  function PopTransaction(s: World, p: nat): (t: World)
    requires Enabled(s, TakeTransaction(p))
  {
    s.(txQueue := s.txQueue[p := s.txQueue[p][1..]],
       executed := s.executed[p := s.executed[p] + [s.txQueue[p][0]]])
  }

  function PopCommand(s: World, p: nat): (t: World)
    requires Enabled(s, TakeCommand(p))
  {
    s.(cmdQueue := s.cmdQueue[p := s.cmdQueue[p][1..]])
  }

  function Next(s: World, e: Event): (t: World)
    requires Enabled(s, e)
  {
    match e
    case Arrive(p, id) => s.(txQueue := Send(s.txQueue, p, Transaction(id)))
    case StartAssociate(ps, allocatable) => Associate(s, ps, allocatable)
    case StartDisassociate(ps) => Disassociate(s, ps)
    case Advance => DoAction(s.(outbox := s.outbox[1..]), s.outbox[0])
    case TakeTransaction(p) => Execute(PopTransaction(s, p), p, s.txQueue[p][0])
    case TakeCommand(p) => Execute(PopCommand(s, p), p, s.cmdQueue[p][0])
    case Reboot(p) => Restart(s, p)
  }

  /** The run that performs the events es from s ends in t. */
  ghost predicate Reaches(s: World, es: seq<Event>, t: World)
    decreases |es|
  {
    if es == [] then s == t
    else Enabled(s, es[0]) && Reaches(Next(s, es[0]), es[1..], t)
  }

  /** No operation is started. */
  predicate NoOperation(es: seq<Event>) {
    forall i :: 0 <= i < |es| ==> !es[i].StartAssociate? && !es[i].StartDisassociate?
  }

  lemma ReachesFirst(s: World, es: seq<Event>, t: World)
    requires es != []
    ensures Reaches(s, es, t) <==> Enabled(s, es[0]) && Reaches(Next(s, es[0]), es[1..], t)
  {
  }

  lemma {:induction false} ReachesAppend(s: World, a: seq<Event>, t: World, b: seq<Event>, u: World)
    requires Reaches(s, a, t) && Reaches(t, b, u)
    ensures Reaches(s, a + b, u)
    decreases |a|
  {
    if a == [] {
      assert a + b == b;
    } else {
      ReachesFirst(s, a, t);
      ReachesAppend(Next(s, a[0]), a[1..], t, b, u);
      assert (a + b)[0] == a[0] && (a + b)[1..] == a[1..] + b;
      ReachesFirst(s, a + b, u);
    }
  }

  lemma OneStep(s: World, es: seq<Event>, t: World, e: Event, u: World)
    requires Reaches(s, es, t) && Enabled(t, e) && u == Next(t, e)
    ensures Reaches(s, es + [e], u)
  {
    assert [e][1..] == [];
    assert Reaches(u, [], u);
    ReachesFirst(t, [e], u);
    ReachesAppend(s, es, t, [e], u);
  }

  // ------------------------------------------------------------------ standing still

  /** The events that work off what is queued. */
  predicate IsProgress(e: Event) {
    e.Advance? || e.TakeTransaction? || e.TakeCommand?
  }

  predicate AnythingLeft(t: World)
  {
    || t.outbox != []
    || (exists p :: 0 <= p < |t.txQueue| && t.txQueue[p] != [])
    || (exists p :: 0 <= p < |t.cmdQueue| && t.cmdQueue[p] != [])
  }

  /** Something is left to do, but no process and no operation can take a step. */
  ghost predicate Deadlocked(t: World) {
    AnythingLeft(t) && forall e :: IsProgress(e) ==> !Enabled(t, e)
  }

  /** Some continuation of t without new operations ends with something left to do and no step to take. */
  ghost predicate CanDeadlock(t: World) {
    exists es, u :: NoOperation(es) && Reaches(t, es, u) && Deadlocked(u)
  }
}
