/** Exactly which accepted operations can switch an inactive worker on: the disassociations that leave one on a process.  It gets
    a hold message like the active ones, and is woken active. */
module ProtocolStatusCondition {
  import opened Wrappers
  import opened WorkerProtocol
  import opened ProtocolFlush
  import opened ProtocolInvariants
  import opened ProtocolOperations
  import opened ProtocolRuns
  import opened ProtocolSafety
  import opened ProtocolDanger
  import opened ProtocolMispairing
  import opened ProtocolProgress
  import opened ProtocolStandstill
  import opened ProtocolDriving
  import opened ProtocolStatuses
  import opened ProtocolStatusRuns

  /** Every continuation without new operations gives back the statuses of the rows a. */
  ghost predicate KeepsStatuses(a: seq<Row>, t: World) {
    forall es, u :: NoOperation(es) && Reaches(t, es, u) ==> Restored(a, u.rows)
  }

  lemma {:induction false} NoOperationIsSparing(s: World, es: seq<Event>, t: World)
    requires Reaches(s, es, t) && NoOperation(es)
    ensures SparingRun(s, es)
    decreases |es|
  {
    if es != [] {
      NoOperationIsSparing(Next(s, es[0]), es[1..], t);
    }
  }

  lemma SparedKeeps(home: seq<Status>, a: seq<Row>, t: World)
    requires RowsHome(home, a) && HomesInv(home, t) && SparedInv(home, t)
    ensures KeepsStatuses(a, t)
  {
    forall es, u | NoOperation(es) && Reaches(t, es, u) ensures Restored(a, u.rows) {
      NoOperationIsSparing(t, es, u);
      var lit := RunHomes(home, t, es, u);
      HomeRestored(home, a, u.rows);
    }
  }

  /** After any run, any association the script accepts gives every worker its status back. */
  lemma AssociationKeepsStatuses(s0: World, es0: seq<Event>, s: World, ps: seq<nat>, allocatable: set<nat>)
    requires Initial(s0) && Reaches(s0, es0, s) && s.outbox == [] && CanAssociate(s, ps, allocatable)
    ensures KeepsStatuses(s.rows, Associate(s, ps, allocatable))
  {
    InitialHomes(s0);
    var home := RunHomes(Statuses(s0.rows), s0, es0, s);
    AssociationHomes(home, s, ps, allocatable);
    SparedKeeps(home, s.rows, Associate(s, ps, allocatable));
  }

  // ------------------------------------------------------------------ holding the worker that stays

  /** Worker w waits on q for a hold message; somebody is blocking, and nothing on the queue changes that. */
  ghost predicate Waiting(f: World, q: nat, w: nat) {
    && q < |f.txQueue| && q < |f.consuming| && q < |f.executed| && w < |f.rows|
    && f.rows[w].process == Some(q) && !IsTemporary(f.rows[w]) && Alone(f.rows) && AnyBlocking(f.rows)
    && forall i :: 0 <= i < |f.txQueue[q]| ==> !RealMarker(f.txQueue[q][i]) && !f.txQueue[q][i].GoToOriginal?
  }

  /** Only q has worked; everybody is where he was, and the same workers are blocking. */
  ghost predicate Waited(f: World, t: World, q: nat)
    requires q < |f.txQueue|
  {
    && SamePlaces(f.rows, t.rows) && |t.txQueue| == |f.txQueue| && t.txQueue == f.txQueue[q := t.txQueue[q]]
    && |t.consuming| == |f.consuming| && |t.executed| == |f.executed|
  }

  lemma WaitOne(f: World, q: nat, w: nat) returns (t: World)
    requires Waiting(f, q, w) && f.txQueue[q] != []
    ensures Leads(f, t) && Waited(f, t, q) && t.txQueue[q] == f.txQueue[q][1..]
    ensures if f.txQueue[q][0].GoOnHold? && f.txQueue[q][0].target == w then t.rows[w].status == Hold else t.rows[w] == f.rows[w]
  {
    assert !AnyHeldOn(f.rows, q);
    RestartConsumes(f, q);
    var u := Next(f, Reboot(q));
    assert u.rows == f.rows;
    LeadsByStep(f, Reboot(q));
    t := Next(u, TakeTransaction(q));
    LeadsByStep(u, TakeTransaction(q));
    LeadsOn(f, u, t);
  }

  lemma WaitedOn(f: World, u: World, t: World, q: nat)
    requires q < |f.txQueue| && Waited(f, u, q) && Waited(u, t, q)
    ensures Waited(f, t, q)
  {
  }

  lemma WaitingOn(f: World, u: World, q: nat, w: nat)
    requires Waiting(f, q, w) && f.txQueue[q] != [] && Waited(f, u, q) && u.txQueue[q] == f.txQueue[q][1..] && u.rows[w] == f.rows[w]
    ensures Waiting(u, q, w)
  {
    var b :| 0 <= b < |f.rows| && f.rows[b].status == Blocking;
    assert u.rows[b].status == Blocking;
  }

  lemma {:induction false} HoldComes(f: World, q: nat, w: nat, n: nat) returns (t: World)
    requires Waiting(f, q, w) && n < |f.txQueue[q]| && f.txQueue[q][n].GoOnHold? && f.txQueue[q][n].target == w
    ensures Leads(f, t) && Waited(f, t, q) && t.rows[w].status == Hold
    decreases n
  {
    var u := WaitOne(f, q, w);
    if u.rows[w].status == Hold {
      t := u;
    } else {
      WaitingOn(f, u, q, w);
      t := HoldComes(u, q, w, n - 1);
      LeadsOn(f, u, t);
      WaitedOn(f, u, t, q);
    }
  }

  // ------------------------------------------------------------------ running all markers

  /** Nobody is on the processes ps, and nothing on their queues blocks or wakes anybody. */
  ghost predicate Vacated(f: World, ps: seq<nat>) {
    forall p :: p in ps ==>
      p < |f.txQueue| && p < |f.executed| && p < |f.consuming| && NobodyOn(f.rows, p) && AllPlain(f.txQueue[p])
  }

  /** Of the processes ps everything has run: nobody moved, and nobody is blocking whose marker stood there. */
  ghost predicate AllRun(f: World, t: World, ps: seq<nat>) {
    && |t.rows| == |f.rows| && |t.txQueue| == |f.txQueue| && |t.consuming| == |f.consuming| && |t.executed| == |f.executed|
    && (forall r :: 0 <= r < |f.txQueue| ==> t.txQueue[r] == if r in ps then [] else f.txQueue[r])
    && (forall w :: 0 <= w < |f.rows| ==> t.rows[w].process == f.rows[w].process)
    && forall w :: 0 <= w < |f.rows| && t.rows[w].status == Blocking ==>
         f.rows[w].status == Blocking && forall r :: 0 <= r < |f.txQueue| && r in ps ==> !MarkerFrom(f.txQueue[r], w, 0)
  }

  lemma {:induction false} RunQueues(f: World, ps: seq<nat>) returns (t: World)
    requires Vacated(f, ps)
    ensures Leads(f, t) && AllRun(f, t, ps)
    decreases |ps|
  {
    if ps == [] {
      t := f;
      LeadsNowhere(f);
    } else {
      var p := ps[0];
      assert p in ps;
      var u := Drive(f, p, |f.txQueue[p]|);
      VacatedOn(f, u, ps);
      t := RunQueues(u, ps[1..]);
      LeadsOn(f, u, t);
      RunOneThenRest(f, u, t, ps);
    }
  }

  lemma VacatedOn(f: World, u: World, ps: seq<nat>)
    requires ps != [] && Vacated(f, ps) && ps[0] < |f.txQueue| && ps[0] < |f.executed| && Driven(f, u, ps[0], |f.txQueue[ps[0]]|)
    ensures Vacated(u, ps[1..])
  {
    forall p | p in ps[1..]
      ensures p < |u.txQueue| && p < |u.executed| && p < |u.consuming| && NobodyOn(u.rows, p) && AllPlain(u.txQueue[p])
    {
      assert p in ps;
    }
  }

  lemma RunOneThenRest(f: World, u: World, t: World, ps: seq<nat>)
    requires ps != [] && ps[0] < |f.txQueue| && ps[0] < |f.executed| && Driven(f, u, ps[0], |f.txQueue[ps[0]]|) && AllRun(u, t, ps[1..])
    ensures AllRun(f, t, ps)
  {
    assert forall r :: r in ps <==> r == ps[0] || r in ps[1..];
    forall w, r | 0 <= w < |f.rows| && t.rows[w].status == Blocking && 0 <= r < |f.txQueue| && r in ps
      ensures f.rows[w].status == Blocking && !MarkerFrom(f.txQueue[r], w, 0)
    {
      if r != ps[0] {
        assert u.txQueue[r] == f.txQueue[r];
      } else {
        assert NoMarkerAmong(f.txQueue[r], w, |f.txQueue[r]|);
      }
    }
  }

  // ------------------------------------------------------------------ the worker comes back active

  lemma StayerWaits(s: World, f: World, ps: seq<nat>, keys: seq<nat>, w: nat, q: nat)
    requires Shape(s) && Alone(s.rows) && SafeTyped(s.rows, s.txQueue) && SameElsewhere(s, f) && CanDisassociate(s, ps)
    requires ReleasedRows(s.rows, f.rows, ps, keys) && ReleasedQueues(s.rows, f.rows, s.txQueue, f.txQueue, ps, keys, s.ops)
    requires w < |s.rows| && s.rows[w].process == Some(q) && q !in ps
    ensures Waiting(f, q, w) && f.txQueue[q] == s.txQueue[q] + [GoOnHold(w, s.ops)]
  {
    assert f.rows[w] == s.rows[w];
    assert ReleasedElsewhere(f.rows, s.txQueue[q], f.txQueue[q], q, s.ops);
    ReleasedNobodyOn(s.rows, f.rows, ps, keys);
    SomebodyReleased(s, f, ps, keys);
    NobodyBlockingNoMarker(s);
    forall i | 0 <= i < |f.txQueue[q]| ensures !RealMarker(f.txQueue[q][i]) && !f.txQueue[q][i].GoToOriginal? {
      if i < |s.txQueue[q]| {
        assert MessageTyped(s.rows, s.txQueue[q][i]);
      }
    }
  }

  lemma SomebodyReleased(s: World, f: World, ps: seq<nat>, keys: seq<nat>)
    requires CanDisassociate(s, ps) && ReleasedRows(s.rows, f.rows, ps, keys)
    ensures AnyBlocking(f.rows)
  {
    assert FirstOn(s.rows, ps[0], 0).Some?;
    var v := FirstOn(s.rows, ps[0], 0).value;
    assert ps[0] in ps && v in keys;
    assert f.rows[v].status == Blocking;
  }

  lemma ReleasedVacated(s: World, f: World, t: World, ps: seq<nat>, keys: seq<nat>, q: nat)
    requires Shape(s) && Alone(s.rows) && SafeTyped(s.rows, s.txQueue) && SameElsewhere(s, f) && CanDisassociate(s, ps)
    requires ReleasedRows(s.rows, f.rows, ps, keys) && ReleasedQueues(s.rows, f.rows, s.txQueue, f.txQueue, ps, keys, s.ops)
    requires q < |f.txQueue| && q !in ps && Waited(f, t, q)
    ensures Vacated(t, ps)
  {
    ProcessesInRange(s, ps);
    ReleasedNobodyOn(s.rows, f.rows, ps, keys);
    ReleasedTyped(s, f, ps, keys);
    forall p | p in ps
      ensures p < |t.txQueue| && p < |t.executed| && p < |t.consuming| && NobodyOn(t.rows, p) && AllPlain(t.txQueue[p])
    {
      assert NobodyOn(f.rows, p) && t.txQueue[p] == f.txQueue[p];
      TypedIsPlain(f.rows, f.txQueue, p);
    }
  }

  lemma NobodyLeftBlocking(s: World, f: World, t: World, u: World, ps: seq<nat>, keys: seq<nat>, q: nat)
    requires Shape(s) && Alone(s.rows) && CanDisassociate(s, ps)
    requires ReleasedRows(s.rows, f.rows, ps, keys) && ReleasedQueues(s.rows, f.rows, s.txQueue, f.txQueue, ps, keys, s.ops)
    requires q < |f.txQueue| && q !in ps && Waited(f, t, q) && AllRun(t, u, ps)
    ensures !AnyBlocking(u.rows)
  {
    ProcessesInRange(s, ps);
    ReleasedNobodyOn(s.rows, f.rows, ps, keys);
    forall j | 0 <= j < |keys| ensures u.rows[keys[j]].status != Blocking {
      ReleasedMarker(s, f, ps, keys, j);
      assert ps[j] in ps && t.txQueue[ps[j]] == f.txQueue[ps[j]];
      assert MarkerFrom(t.txQueue[ps[j]], keys[j], 0);
    }
    assert forall w :: 0 <= w < |u.rows| && u.rows[w].status == Blocking ==> f.rows[w].status == Blocking && w in keys;
  }

  /** Once it has been on hold on a process and nobody is blocking, a worker is active, or a restart of its process makes it so. */
  lemma ComesBackActive(home: seq<Status>, t: World, u: World, w: nat, q: nat) returns (v: World)
    requires HomesInv(home, t) && Leads(t, u) && w < |t.rows| && t.rows[w].status == Hold && t.rows[w].process == Some(q)
    requires |u.rows| == |t.rows| && u.rows[w].process == Some(q) && !AnyBlocking(u.rows) && q < |u.consuming|
    ensures Leads(u, v) && |v.rows| == |t.rows| && v.rows[w].status == Active
  {
    var es :| NoOperation(es) && Reaches(t, es, u);
    var lit := RunHomes(home, t, es, u);
    assert AtHome(home[w], t.rows[w]) && AtHome(lit[w], u.rows[w]);
    assert u.rows[w].status != Blocking;
    if u.rows[w].status == Hold {
      v := Next(u, Reboot(q));
      LeadsByStep(u, Reboot(q));
    } else {
      v := u;
      LeadsNowhere(u);
    }
  }

  lemma HeldRun(s: World, f: World, ps: seq<nat>, keys: seq<nat>, w: nat, q: nat) returns (t: World, u: World)
    requires Shape(s) && Alone(s.rows) && SafeTyped(s.rows, s.txQueue) && SameElsewhere(s, f) && CanDisassociate(s, ps)
    requires ReleasedRows(s.rows, f.rows, ps, keys) && ReleasedQueues(s.rows, f.rows, s.txQueue, f.txQueue, ps, keys, s.ops)
    requires w < |s.rows| && s.rows[w].process == Some(q) && q !in ps
    ensures Leads(f, t) && Leads(t, u) && |u.rows| == |t.rows| == |s.rows| && t.rows[w].status == Hold
    ensures t.rows[w].process == u.rows[w].process == Some(q) && !AnyBlocking(u.rows) && q < |u.consuming|
  {
    StayerWaits(s, f, ps, keys, w, q);
    t := HoldComes(f, q, w, |s.txQueue[q]|);
    ReleasedVacated(s, f, t, ps, keys, q);
    u := RunQueues(t, ps);
    NobodyLeftBlocking(s, f, t, u, ps, keys, q);
  }

  lemma SwitchedOn(home: seq<Status>, s: World, ps: seq<nat>, w: nat) returns (v: World)
    requires HomesInv(home, s) && s.outbox == [] && CanDisassociate(s, ps)
    requires w < |s.rows| && s.rows[w].process.Some? && s.rows[w].process.value !in ps
    ensures Leads(Disassociate(s, ps), v) && |v.rows| == |s.rows| && v.rows[w].status == Active
  {
    var q, t := s.rows[w].process.value, Disassociate(s, ps);
    assert Flush(s) == s && Posted(s) == s;
    ReleaseEffect(s, ps);
    DisassociationHomes(home, s, ps);
    LeadsToFlush(t);
    var held, u := HeldRun(s, Flush(t), ps, KeysOf(s, ps), w, q);
    LeadsOn(t, Flush(t), held);
    var es :| NoOperation(es) && Reaches(t, es, held);
    var lit := RunHomes(home, t, es, held);
    v := ComesBackActive(lit, held, u, w, q);
    LeadsOn(t, held, u);
    LeadsOn(t, u, v);
  }

  lemma StayerIsNotSpared(home: seq<Status>, s: World, ps: seq<nat>)
    requires HomesInv(home, s) && s.outbox == [] && CanDisassociate(s, ps) && InactiveStays(s.rows, ps)
    ensures !KeepsStatuses(s.rows, Disassociate(s, ps))
  {
    var w :| 0 <= w < |s.rows| && s.rows[w].status == Inactive && s.rows[w].process.Some? && s.rows[w].process.value !in ps;
    var t := Disassociate(s, ps);
    var v := SwitchedOn(home, s, ps, w);
    ChangedIsNotRestored(s.rows, v.rows, w);
    var es :| NoOperation(es) && Reaches(t, es, v);
  }

  lemma ChangedIsNotRestored(a: seq<Row>, b: seq<Row>, w: nat)
    requires w < |a| == |b| && a[w].status == Inactive && b[w].status == Active
    ensures !Restored(a, b)
  {
    assert !IsTemporary(a[w]) && !IsTemporary(b[w]);
  }

  /** After any run, take any disassociation the script accepts: every continuation gives every worker its status back if and only
      if no inactive worker is on a process that is not given. */
  lemma DisassociationKeepsStatusesIff(s0: World, es0: seq<Event>, s: World, ps: seq<nat>)
    requires Initial(s0) && Reaches(s0, es0, s) && s.outbox == [] && CanDisassociate(s, ps)
    ensures KeepsStatuses(s.rows, Disassociate(s, ps)) <==> !InactiveStays(s.rows, ps)
  {
    InitialHomes(s0);
    var home := RunHomes(Statuses(s0.rows), s0, es0, s);
    if InactiveStays(s.rows, ps) {
      StayerIsNotSpared(home, s, ps);
    } else {
      DisassociationHomes(home, s, ps);
      SparedKeeps(home, s.rows, Disassociate(s, ps));
    }
  }

  predicate Accepted(s: World, e: Event) {
    match e
    case StartAssociate(ps, allocatable) => CanAssociate(s, ps, allocatable)
    case StartDisassociate(ps) => CanDisassociate(s, ps)
    case _ => false
  }

  /** Start an operation that is not dangerous and leaves no inactive worker on a process, after a run without dangerous operations,
      and work off everything: nobody is on hold or blocking, and whoever was not before has the status it had. */
  lemma DrainedGivesStatusesBack(s0: World, es0: seq<Event>, s: World, e: Event, es: seq<Event>, u: World)
    requires Initial(s0) && Reaches(s0, es0, s) && HarmlessRun(s0, es0)
    requires Enabled(s, e) && Accepted(s, e) && Harmless(s, e) && Sparing(s, e)
    requires NoOperation(es) && Reaches(Next(s, e), es, u) && !AnythingLeft(u)
    ensures Restored(s.rows, u.rows) && forall w :: 0 <= w < |u.rows| ==> !IsTemporary(u.rows[w])
  {
    InitialIsSafe(s0);
    RunKeepsSafeInv(s0, es0, s);
    StepKeepsSafeInv(s, e);
    NoOperationIsHarmless(Next(s, e), es, u);
    RunKeepsSafeInv(Next(s, e), es, u);
    NothingLeftIsNormal(u);
    OperationKeepsStatuses(s0, es0, s, e);
  }

  lemma OperationKeepsStatuses(s0: World, es0: seq<Event>, s: World, e: Event)
    requires Initial(s0) && Reaches(s0, es0, s) && Enabled(s, e) && Accepted(s, e) && Sparing(s, e)
    ensures KeepsStatuses(s.rows, Next(s, e))
  {
    match e {
      case StartAssociate(ps, allocatable) => AssociationKeepsStatuses(s0, es0, s, ps, allocatable);
      case StartDisassociate(ps) => DisassociationKeepsStatusesIff(s0, es0, s, ps);
    }
  }

  // ------------------------------------------------------------------ an inactive sibling

  /** Worker 0 is active on process 0, worker 1 inactive on process 1. */
  const ONE_INACTIVE: World :=
    World([Row(Active, Some(0), true), Row(Inactive, Some(1), true)], [[], []], [[], []], [true, true], [], [[], []], 0)

  lemma OneInactiveAccepted(s: World, ps: seq<nat>)
    requires s == ONE_INACTIVE && ps == [0]
    ensures Initial(s) && CanDisassociate(s, ps) && WorkersOn(s.rows, ps) == [0] && InactiveStays(s.rows, ps)
  {
    assert FirstOn(s.rows, 0, 0) == Some(0);
    assert s.rows[1].status == Inactive && s.rows[1].process == Some(1) && 1 !in ps;
  }

  lemma InitialIsSettled(s: World)
    requires Initial(s)
    ensures Settled(s)
  {
    InitialKeepsInv(s);
    assert Flush(s) == s;
    CoreIsSafe(s);
  }

  /** Taking worker 0 off is accepted and not dangerous, and can switch worker 1 on. */
  lemma InactiveSiblingSwitchedOn(s: World, ps: seq<nat>)
    requires s == ONE_INACTIVE && ps == [0]
    ensures Initial(s) && CanDisassociate(s, ps) && Harmless(s, StartDisassociate(ps))
    ensures !KeepsStatuses(s.rows, Disassociate(s, ps))
  {
    OneInactiveAccepted(s, ps);
    AscendingIsHarmless(s, ps);
    InitialIsSettled(s);
    StartsItself(s, ps);
  }

  lemma StartsItself(s: World, ps: seq<nat>)
    requires Initial(s) && CanDisassociate(s, ps) && InactiveStays(s.rows, ps)
    ensures !KeepsStatuses(s.rows, Disassociate(s, ps))
  {
    assert Reaches(s, [], s);
    DisassociationKeepsStatusesIff(s, [], s, ps);
  }
}
