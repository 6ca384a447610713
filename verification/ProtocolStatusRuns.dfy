/** The statuses of the workers over whole runs, whatever became of the operations in them. */
module ProtocolStatusRuns {
  import opened Wrappers
  import opened WorkerProtocol
  import opened ProtocolFlush
  import opened ProtocolInvariants
  import opened ProtocolOperations
  import opened ProtocolDisassociation
  import opened ProtocolRuns
  import opened ProtocolSafety
  import opened ProtocolMispairing
  import opened ProtocolPlacing
  import opened ProtocolStatuses

  /** The world with everything published that the operation in flight has still to publish, but nobody attached. */
  function Posted(s: World): (f: World)
  {
    s.(txQueue := SendAll(s.txQueue, s.outbox), outbox := [])
  }

  /** The workers still to be attached have active homes. */
  ghost predicate PendingActive(home: seq<Status>, todo: seq<Action>) {
    forall i :: 0 <= i < |todo| && todo[i].Attach? && todo[i].worker < |home| ==> home[todo[i].worker] == Active
  }

  ghost predicate HomesInv(home: seq<Status>, s: World) {
    Shape(Flush(s)) && Alone(Flush(s).rows) && Homes(home, Posted(s)) && PendingActive(home, s.outbox)
  }

  ghost predicate SparedInv(home: seq<Status>, s: World)
    requires |home| == |s.rows|
  {
    Spared(home, s.rows, Posted(s).txQueue)
  }

  /** Some inactive worker is on a process that is not given. */
  predicate InactiveStays(rows: seq<Row>, ps: seq<nat>) {
    exists w :: 0 <= w < |rows| && rows[w].status == Inactive && rows[w].process.Some? && rows[w].process.value !in ps
  }

  /** A disassociation leaves no inactive worker on a process. */
  predicate Sparing(s: World, e: Event) {
    e.StartDisassociate? && CanDisassociate(s, e.processes) ==> !InactiveStays(s.rows, e.processes)
  }

  ghost predicate SparingRun(s: World, es: seq<Event>)
    decreases |es|
  {
    es == [] || (Enabled(s, es[0]) && Sparing(s, es[0]) && SparingRun(Next(s, es[0]), es[1..]))
  }

  // ------------------------------------------------------------------ steps

  lemma PostedTakes(s: World, p: nat)
    requires Enabled(s, TakeTransaction(p))
    ensures Enabled(Posted(s), TakeTransaction(p))
    ensures Posted(Next(s, TakeTransaction(p))) == Next(Posted(s), TakeTransaction(p))
  {
    PopTransactionCommutes(s, p);
  }

  lemma PostedArrives(s: World, p: nat, id: nat)
    requires Enabled(s, Arrive(p, id))
    ensures p < |Posted(s).txQueue| && |s.txQueue[p]| <= |Posted(s).txQueue[p]|
    ensures Posted(Next(s, Arrive(p, id))) == Posted(s).(txQueue := Inserted(Posted(s).txQueue, p, |s.txQueue[p]|, id))
  {
    ArrivalIsInsertion(s, p, id);
  }

  lemma PlacesStay(s: World, t: World)
    requires SameProcesses(s.rows, t.rows) && t.outbox == s.outbox && Shape(Flush(s)) && Alone(Flush(s).rows)
    requires |t.txQueue| == |s.txQueue| && |t.cmdQueue| == |s.cmdQueue| && |t.consuming| == |s.consuming| && |t.executed| == |s.executed|
    ensures Shape(Flush(t)) && Alone(Flush(t).rows)
  {
    forall w | 0 <= w < |t.rows| ensures Flush(t).rows[w].process == Flush(s).rows[w].process {
      AttachAllDependsOnProcess(s.rows, t.rows, s.outbox, w);
    }
  }

  lemma HandlersMoveNobody(s: World, e: Event)
    requires Enabled(s, e) && (e.TakeTransaction? || e.TakeCommand?)
    ensures var t := Next(s, e);
      && SameProcesses(s.rows, t.rows) && t.outbox == s.outbox && |t.txQueue| == |s.txQueue|
      && |t.cmdQueue| == |s.cmdQueue| && |t.consuming| == |s.consuming| && |t.executed| == |s.executed|
  {
  }

  lemma StepKeepsPlaces(s: World, e: Event)
    requires Enabled(s, e) && !e.StartAssociate? && !e.StartDisassociate? && Shape(Flush(s)) && Alone(Flush(s).rows)
    ensures Shape(Flush(Next(s, e))) && Alone(Flush(Next(s, e)).rows)
  {
    match e {
      case Advance => AdvanceKeepsFlush(s);
      case Arrive(_, _) => PlacesStay(s, Next(s, e));
      case Reboot(p) => PlacesStay(s, Restart(s, p));
      case TakeTransaction(_) =>
        HandlersMoveNobody(s, e);
        PlacesStay(s, Next(s, e));
      case TakeCommand(_) =>
        HandlersMoveNobody(s, e);
        PlacesStay(s, Next(s, e));
    }
  }

  lemma AdvanceHomes(home: seq<Status>, s: World)
    requires Homes(home, Posted(s)) && PendingActive(home, s.outbox) && s.outbox != []
    ensures Homes(home, Posted(Next(s, Advance))) && PendingActive(home, Next(s, Advance).outbox)
    ensures SparedInv(home, s) ==> SparedInv(home, Next(s, Advance))
  {
    var t := Next(s, Advance);
    assert Posted(t).txQueue == Posted(s).txQueue;
    forall w | 0 <= w < |t.rows| ensures AtHome(home[w], t.rows[w]) {
      assert AtHome(home[w], s.rows[w]);
    }
    var tx: seq<seq<Message>> := Posted(s).txQueue;
    forall p, i | 0 <= p < |tx| && 0 <= i < |tx[p]| ensures MessageTyped(t.rows, tx[p][i]) && MessageHome(home, t.rows, p, tx[p][i]) {
      assert MessageTyped(s.rows, tx[p][i]) && MessageHome(home, s.rows, p, tx[p][i]);
    }
  }

  lemma TransactionHomes(home: seq<Status>, s: World, p: nat) returns (lit: seq<Status>)
    requires Homes(home, Posted(s)) && PendingActive(home, s.outbox) && Enabled(s, TakeTransaction(p))
    ensures Homes(lit, Posted(Next(s, TakeTransaction(p)))) && PendingActive(lit, Next(s, TakeTransaction(p)).outbox)
    ensures Brighter(home, lit)
    ensures SparedInv(home, s) ==> lit == home && SparedInv(home, Next(s, TakeTransaction(p)))
  {
    PostedTakes(s, p);
    lit := TakeTransactionHomes(home, Posted(s), p);
    HandlersMoveNobody(s, TakeTransaction(p));
    BrighterPending(home, lit, s.outbox);
  }

  lemma BrighterPending(a: seq<Status>, b: seq<Status>, todo: seq<Action>)
    requires Brighter(a, b) && PendingActive(a, todo)
    ensures PendingActive(b, todo)
  {
  }

  lemma OtherHomes(home: seq<Status>, s: World, e: Event)
    requires Homes(home, Posted(s)) && PendingActive(home, s.outbox) && Enabled(s, e) && (e.Arrive? || e.TakeCommand? || e.Reboot?)
    ensures Homes(home, Posted(Next(s, e))) && PendingActive(home, Next(s, e).outbox)
    ensures SparedInv(home, s) ==> SparedInv(home, Next(s, e))
  {
    match e {
      case Arrive(p, id) =>
        PostedArrives(s, p, id);
        ArrivalHomes(home, Posted(s), p, |s.txQueue[p]|, id);
      case TakeCommand(p) =>
        assert Posted(Next(s, e)) == Next(Posted(s), e);
        TakeCommandHomes(home, Posted(s), p);
      case Reboot(p) =>
        assert Posted(Next(s, e)) == Restart(Posted(s), p);
        RestartHomes(home, Posted(s), p);
    }
  }

  lemma StepHomes(home: seq<Status>, s: World, e: Event) returns (lit: seq<Status>)
    requires HomesInv(home, s) && Enabled(s, e) && !e.StartAssociate? && !e.StartDisassociate?
    ensures HomesInv(lit, Next(s, e)) && Brighter(home, lit)
    ensures SparedInv(home, s) ==> lit == home && SparedInv(home, Next(s, e))
  {
    lit := home;
    StepKeepsPlaces(s, e);
    match e {
      case Advance => AdvanceHomes(home, s);
      case TakeTransaction(p) => lit := TransactionHomes(home, s, p);
      case _ => OtherHomes(home, s, e);
    }
  }

  // ------------------------------------------------------------------ association

  lemma AssociatedTyped(s: World, f: World, ws: seq<nat>, ps: seq<nat>)
    requires SafeTyped(s.rows, s.txQueue) && MarkersUnique(s.txQueue) && Alone(s.rows)
    requires AssociatedRows(s.rows, f.rows, ws, ps) && AssociatedQueues(s.rows, s.txQueue, f.txQueue, ws, ps, s.ops)
    ensures SafeTyped(f.rows, f.txQueue) && MarkersUnique(f.txQueue)
  {
    BlockingStays(s.rows, f.rows, ws, ps);
    forall p, i | 0 <= p < |f.txQueue| && 0 <= i < |f.txQueue[p]| ensures MessageTyped(f.rows, f.txQueue[p][i]) {
      AssociatedQueueAt(s.rows, s.txQueue, f.txQueue, ws, ps, s.ops, p);
      if i < |s.txQueue[p]| {
        assert MessageTyped(s.rows, s.txQueue[p][i]);
      }
    }
    forall w: nat, p: nat, i: nat, q: nat, j: nat | MarkerStands(f.txQueue, w, p, i) && MarkerStands(f.txQueue, w, q, j)
      ensures p == q && i == j
    {
      AssociatedMarkersOnce(s, f, ws, ps, w, p, i, q, j);
    }
  }

  lemma AssociatedMarkersOnce(s: World, f: World, ws: seq<nat>, ps: seq<nat>, w: nat, p: nat, i: nat, q: nat, j: nat)
    requires SafeTyped(s.rows, s.txQueue) && MarkersUnique(s.txQueue) && AssociatedRows(s.rows, f.rows, ws, ps)
    requires AssociatedQueues(s.rows, s.txQueue, f.txQueue, ws, ps, s.ops)
    requires MarkerStands(f.txQueue, w, p, i) && MarkerStands(f.txQueue, w, q, j)
    ensures p == q && i == j
  {
    var a := AssociatedMarker(s, f, ws, ps, w, p, i);
    var b := AssociatedMarker(s, f, ws, ps, w, q, j);
    assert a == b;
  }

  /** The marker is an old one of a worker that was taken off, or the new one of a worker on that process. */
  lemma AssociatedMarker(s: World, f: World, ws: seq<nat>, ps: seq<nat>, w: nat, p: nat, i: nat) returns (old_: bool)
    requires SafeTyped(s.rows, s.txQueue) && AssociatedRows(s.rows, f.rows, ws, ps)
    requires AssociatedQueues(s.rows, s.txQueue, f.txQueue, ws, ps, s.ops) && MarkerStands(f.txQueue, w, p, i)
    ensures w < |s.rows| && (old_ <==> !IsWorking(s.rows[w]))
    ensures old_ ==> MarkerStands(s.txQueue, w, p, i)
    ensures !old_ ==> s.rows[w].process == Some(p) && i == |s.txQueue[p]|
  {
    AssociatedQueueAt(s.rows, s.txQueue, f.txQueue, ws, ps, s.ops, p);
    old_ := i < |s.txQueue[p]|;
    if old_ {
      assert f.txQueue[p][i] == s.txQueue[p][i];
      assert MessageTyped(s.rows, s.txQueue[p][i]);
    }
  }

  lemma AssociatedMessagesHome(home: seq<Status>, s: World, f: World, ws: seq<nat>, ps: seq<nat>, rows: seq<Row>)
    requires RowsHome(home, s.rows) && MessagesHome(home, s.rows, s.txQueue) && SameProcesses(s.rows, rows)
    requires AssociatedRows(s.rows, f.rows, ws, ps) && AssociatedQueues(s.rows, s.txQueue, f.txQueue, ws, ps, s.ops)
    ensures MessagesHome(home, rows, f.txQueue)
  {
    forall p, i | 0 <= p < |f.txQueue| && 0 <= i < |f.txQueue[p]| ensures MessageHome(home, rows, p, f.txQueue[p][i]) {
      AssociatedQueueAt(s.rows, s.txQueue, f.txQueue, ws, ps, s.ops, p);
      if i < |s.txQueue[p]| {
        assert f.txQueue[p][i] == s.txQueue[p][i];
        assert MessageHome(home, s.rows, p, s.txQueue[p][i]);
      } else if f.txQueue[p][i].GoOnHold? {
        var k :| 0 <= k < |ps| && ps[k] == p && ws[k] == f.txQueue[p][i].target;
        assert AtHome(home[ws[k]], s.rows[ws[k]]);
      } else {
        var w := f.txQueue[p][i].worker.value;
        assert AtHome(home[w], s.rows[w]) && IsWorking(s.rows[w]);
      }
    }
  }

  lemma AssociatedSpares(home: seq<Status>, s: World, f: World, ws: seq<nat>, ps: seq<nat>, rows: seq<Row>)
    requires |home| == |rows| && SameProcesses(s.rows, rows) && MessagesHome(home, rows, f.txQueue) && Shape(s)
    requires forall w :: 0 <= w < |rows| && IsWorking(rows[w]) ==> rows[w].status == Blocking
    requires AssociatedQueues(s.rows, s.txQueue, f.txQueue, ws, ps, s.ops)
    ensures Spared(home, rows, f.txQueue)
  {
    forall w: nat, q: nat, i: nat | HoldAt(f.txQueue, w, q, i) && w < |rows| && home[w] == Inactive && rows[w].process.Some?
      ensures rows[w].status == Blocking && MarkerFrom(f.txQueue[q], w, i + 1)
    {
      assert MessageHome(home, rows, q, f.txQueue[q][i]);
      assert IsWorking(s.rows[w]) && s.rows[w].process.value == q;
      assert IsMarkerFor(f.txQueue[q][|s.txQueue[q]|], w);
    }
  }

  lemma AssociationPendingActive(home: seq<Status>, s: World, ps: seq<nat>, allocatable: set<nat>)
    requires RowsHome(home, s.rows) && s.outbox == [] && CanAssociate(s, ps, allocatable)
    ensures PendingActive(home, Associate(s, ps, allocatable).outbox)
  {
    var avail, used := Available(s.rows, |s.rows|), UsedProcesses(s.rows, ps);
    AvailableMeaning(s.rows, |s.rows|);
    MarkerActionsPublish(s.rows, s.ops, |s.rows|);
    AttachActionsOrdered(avail, used, s.ops, |used|);
    var todo := Associate(s, ps, allocatable).outbox;
    assert todo == AttachActions(avail, used, s.ops, |used|) + MarkerActions(s.rows, s.ops, |s.rows|);
    forall i | 0 <= i < |todo| && todo[i].Attach? && todo[i].worker < |home| ensures home[todo[i].worker] == Active {
      assert todo[i].worker in avail;
      assert AtHome(home[todo[i].worker], s.rows[todo[i].worker]);
    }
  }

  /** An association keeps all homes, and puts no inactive worker on a process at risk. */
  lemma AssociationHomes(home: seq<Status>, s: World, ps: seq<nat>, allocatable: set<nat>)
    requires HomesInv(home, s) && s.outbox == [] && CanAssociate(s, ps, allocatable)
    ensures HomesInv(home, Associate(s, ps, allocatable)) && SparedInv(home, Associate(s, ps, allocatable))
  {
    var t := Associate(s, ps, allocatable);
    var f, ws, used := Flush(t), UsedWorkers(s.rows, ps), UsedProcesses(s.rows, ps);
    assert Flush(s) == s && Posted(s) == s;
    AssociateHasEffect(s, ps, allocatable);
    AssociatedStaysAlone(s, f, ws, used);
    AssociatedTyped(s, f, ws, used);
    StatusesDecideTyped(f.rows, t.rows, f.txQueue);
    AssociatedMessagesHome(home, s, f, ws, used, t.rows);
    AssociatedSpares(home, s, f, ws, used, t.rows);
    AssociationPendingActive(home, s, ps, allocatable);
    forall w | 0 <= w < |t.rows| ensures AtHome(home[w], t.rows[w]) {
      assert AtHome(home[w], s.rows[w]);
    }
  }

  lemma StatusesDecideTyped(a: seq<Row>, b: seq<Row>, tx: seq<seq<Message>>)
    requires |a| == |b| && SafeTyped(a, tx) && forall w :: 0 <= w < |a| ==> b[w].status == a[w].status
    ensures SafeTyped(b, tx)
  {
    forall p, i | 0 <= p < |tx| && 0 <= i < |tx[p]| ensures MessageTyped(b, tx[p][i]) {
      assert MessageTyped(a, tx[p][i]);
    }
  }

  // ------------------------------------------------------------------ disassociation

  lemma DisassociationPublishes(s: World, ps: seq<nat>)
    requires s.outbox == [] && CanDisassociate(s, ps)
    ensures var t := Disassociate(s, ps);
      Flush(t) == Posted(t) && Flush(t).rows == t.rows && forall i :: 0 <= i < |t.outbox| ==> t.outbox[i].Publish?
  {
    var t, keys := Disassociate(s, ps), KeysOf(s, ps);
    DisassociateForm(s, ps);
    ReleaseActionsAt(s.rows, ps, keys, s.ops, |ps|);
    SiblingActionsHold(t.rows, s.ops, |t.rows|);
    AttachAllPublications(t.rows, t.outbox);
  }

  lemma ReleasedMessagesHome(home: seq<Status>, s: World, f: World, ps: seq<nat>, keys: seq<nat>)
    requires RowsHome(home, s.rows) && MessagesHome(home, s.rows, s.txQueue) && ReleasedRows(s.rows, f.rows, ps, keys)
    requires ReleasedQueues(s.rows, f.rows, s.txQueue, f.txQueue, ps, keys, s.ops)
    ensures MessagesHome(home, f.rows, f.txQueue)
  {
    forall q, i | 0 <= q < |f.txQueue| && 0 <= i < |f.txQueue[q]| ensures MessageHome(home, f.rows, q, f.txQueue[q][i]) {
      var j := ReleasedAt(s, f, ps, keys, q, i);
      if i < |s.txQueue[q]| {
        assert MessageHome(home, s.rows, q, s.txQueue[q][i]);
      } else if RealMarker(f.txQueue[q][i]) {
        assert AtHome(home[keys[j]], s.rows[keys[j]]);
      }
    }
  }

  lemma ReleasedRowsHome(home: seq<Status>, a: seq<Row>, b: seq<Row>, ps: seq<nat>, keys: seq<nat>)
    requires RowsHome(home, a) && ReleasedRows(a, b, ps, keys)
    ensures RowsHome(home, b)
  {
    forall w | 0 <= w < |b| ensures AtHome(home[w], b[w]) {
      assert AtHome(home[w], a[w]);
    }
  }

  lemma ReleasedSpares(home: seq<Status>, a: seq<Row>, b: seq<Row>, tx: seq<seq<Message>>, ps: seq<nat>, keys: seq<nat>)
    requires RowsHome(home, a) && ReleasedRows(a, b, ps, keys) && !InactiveStays(a, ps)
    ensures Spared(home, b, tx)
  {
    forall w | 0 <= w < |b| && home[w] == Inactive ensures b[w].process.None? {
      assert AtHome(home[w], a[w]);
      assert w !in keys ==> b[w] == a[w];
    }
  }

  lemma DisassociationHomes(home: seq<Status>, s: World, ps: seq<nat>)
    requires HomesInv(home, s) && s.outbox == [] && CanDisassociate(s, ps)
    ensures HomesInv(home, Disassociate(s, ps))
    ensures !InactiveStays(s.rows, ps) ==> SparedInv(home, Disassociate(s, ps))
  {
    var t := Disassociate(s, ps);
    var f, keys := Flush(t), KeysOf(s, ps);
    assert Flush(s) == s && Posted(s) == s;
    ReleaseEffect(s, ps);
    DisassociationPublishes(s, ps);
    ReleasedNobodyOn(s.rows, f.rows, ps, keys);
    ReleasedTyped(s, f, ps, keys);
    ReleasedMessagesHome(home, s, f, ps, keys);
    ReleasedRowsHome(home, s.rows, f.rows, ps, keys);
    if !InactiveStays(s.rows, ps) {
      ReleasedSpares(home, s.rows, f.rows, f.txQueue, ps, keys);
    }
    assert Shape(f);
  }

  // ------------------------------------------------------------------ runs

  lemma AnyStepHomes(home: seq<Status>, s: World, e: Event) returns (lit: seq<Status>)
    requires HomesInv(home, s) && Enabled(s, e)
    ensures HomesInv(lit, Next(s, e)) && Brighter(home, lit)
    ensures SparedInv(home, s) && Sparing(s, e) ==> lit == home && SparedInv(home, Next(s, e))
  {
    lit := home;
    match e {
      case StartAssociate(ps, allocatable) =>
        if CanAssociate(s, ps, allocatable) {
          AssociationHomes(home, s, ps, allocatable);
        }
      case StartDisassociate(ps) =>
        if CanDisassociate(s, ps) {
          DisassociationHomes(home, s, ps);
        }
      case _ => lit := StepHomes(home, s, e);
    }
  }

  lemma {:induction false} RunHomes(home: seq<Status>, s: World, es: seq<Event>, t: World) returns (lit: seq<Status>)
    requires HomesInv(home, s) && Reaches(s, es, t)
    ensures HomesInv(lit, t) && Brighter(home, lit)
    ensures SparedInv(home, s) && SparingRun(s, es) ==> lit == home
    decreases |es|
  {
    lit := home;
    if es != [] {
      var next := AnyStepHomes(home, s, es[0]);
      lit := RunHomes(next, Next(s, es[0]), es[1..], t);
    }
  }

  function Statuses(rows: seq<Row>): (home: seq<Status>)
  {
    seq(|rows|, w requires 0 <= w < |rows| => rows[w].status)
  }

  lemma InitialHomes(s: World)
    requires Initial(s)
    ensures HomesInv(Statuses(s.rows), s) && SparedInv(Statuses(s.rows), s)
  {
    assert Posted(s) == s && Flush(s) == s;
  }

  /** Every worker that is neither on hold nor blocking, now or before, has the status it had. */
  predicate Restored(a: seq<Row>, b: seq<Row>) {
    |a| == |b| && forall w :: 0 <= w < |a| && !IsTemporary(a[w]) && !IsTemporary(b[w]) ==> b[w].status == a[w].status
  }

  lemma HomeRestored(home: seq<Status>, a: seq<Row>, b: seq<Row>)
    requires RowsHome(home, a) && RowsHome(home, b)
    ensures Restored(a, b)
  {
    forall w | 0 <= w < |a| && !IsTemporary(a[w]) && !IsTemporary(b[w]) ensures b[w].status == a[w].status {
      assert AtHome(home[w], a[w]) && AtHome(home[w], b[w]);
    }
  }

  /** On every run whose disassociations leave no inactive worker on a process, dangerous or not, every worker that is neither
      on hold nor blocking has the status it had at the start. */
  lemma RunRestoresStatuses(s: World, es: seq<Event>, t: World)
    requires Initial(s) && Reaches(s, es, t) && SparingRun(s, es)
    ensures Restored(s.rows, t.rows)
  {
    InitialHomes(s);
    var home := RunHomes(Statuses(s.rows), s, es, t);
    HomeRestored(home, s.rows, t.rows);
  }

  /** On any run at all, a worker that was active at the start is active whenever it is neither on hold nor blocking. */
  lemma NobodySwitchedOff(s: World, es: seq<Event>, t: World, w: nat)
    requires Initial(s) && Reaches(s, es, t) && w < |s.rows| && s.rows[w].status == Active
    ensures w < |t.rows| && (IsTemporary(t.rows[w]) || t.rows[w].status == Active)
  {
    InitialHomes(s);
    var home := RunHomes(Statuses(s.rows), s, es, t);
    assert AtHome(home[w], t.rows[w]);
  }
}
