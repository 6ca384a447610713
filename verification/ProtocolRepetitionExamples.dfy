/** A disassociation that names a process twice: how it breaks the gating order, and how the hold message that it leaves behind
    makes a later operation fatal. */
module ProtocolRepetitionExamples {
  import opened Wrappers
  import opened WorkerProtocol
  import opened ProtocolFlush
  import opened ProtocolInvariants
  import opened ProtocolOperations
  import opened ProtocolRuns
  import opened ProtocolSafety
  import opened ProtocolDanger
  import opened ProtocolMispairing
  import opened ProtocolProgress
  import opened ProtocolStandstill
  import opened ProtocolDisassociationDeadlock
  import opened ProtocolGating
  import opened ProtocolCounterexamples

  const WORKING: seq<Row> := [On(0, Active), On(1, Active), On(2, Active)]

  /** Workers 0 and 1 taken off, worker 2 still on its process. */
  const TAKEN_OFF: seq<Row> := [Row(Blocking, None, true), Row(Blocking, None, true), On(2, Active)]

  const TWICE: seq<nat> := [0, 0, 1]

  function Marker(w: nat, op: nat): (m: Message)
  {
    MarkBlockingToOriginal(Some(w), Active, op)
  }

  function Nameless(op: nat): (m: Message)
  {
    MarkBlockingToOriginal(None, Active, op)
  }

  lemma TwiceAccepted(s: World)
    requires s.rows == WORKING
    ensures CanDisassociate(s, TWICE) && KeysOf(s, TWICE) == [0, 1]
  {
    assert FirstOn(s.rows, 0, 0) == Some(0);
    assert FirstOn(s.rows, 1, 0) == Some(1);
    assert WorkersOn(s.rows, TWICE) == TWICE;
    assert SortedKeys(TWICE, 1) == [0];
    assert SortedKeys(TWICE, 2) == [0, 1];
  }

  lemma TwiceMarkers(op: nat)
    ensures MarkersTo(WORKING, TWICE, [0, 1], op, 0, 3) == [Marker(0, op), Marker(1, op)]
    ensures MarkersTo(WORKING, TWICE, [0, 1], op, 1, 3) == [Nameless(op)]
  {
    assert MarkersTo(WORKING, TWICE, [0, 1], op, 0, 1) == [Marker(0, op)];
    assert MarkersTo(WORKING, TWICE, [0, 1], op, 0, 2) == [Marker(0, op), Marker(1, op)];
    assert MarkersTo(WORKING, TWICE, [0, 1], op, 1, 1) == [];
    assert MarkersTo(WORKING, TWICE, [0, 1], op, 1, 2) == [];
  }

  /** Both markers go to process 0, one that names nobody to process 1, and a hold message to process 2. */
  lemma TwiceReleased(s: World)
    requires s.rows == WORKING && |s.txQueue| == 3 && s.outbox == []
    ensures CanDisassociate(s, TWICE)
    ensures var f := Flush(Disassociate(s, TWICE));
      && f.rows == TAKEN_OFF && SameElsewhere(s, f) && f.outbox == [] && |f.txQueue| == 3
      && f.txQueue[0] == s.txQueue[0] + [Marker(0, s.ops), Marker(1, s.ops)]
      && f.txQueue[1] == s.txQueue[1] + [Nameless(s.ops)]
      && f.txQueue[2] == s.txQueue[2] + [GoOnHold(2, s.ops)]
  {
    TwiceAccepted(s);
    ReleaseEffect(s, TWICE);
    var f := Flush(Disassociate(s, TWICE));
    TwiceReleasedRows(f.rows);
    TwiceReleasedQueues(s.txQueue, f.txQueue, s.ops);
  }

  lemma TwiceReleasedRows(rows: seq<Row>)
    requires ReleasedRows(WORKING, rows, TWICE, [0, 1])
    ensures rows == TAKEN_OFF
  {
  }

  lemma TwiceReleasedQueues(tx: seq<seq<Message>>, ty: seq<seq<Message>>, op: nat)
    requires |tx| == 3 && ReleasedQueues(WORKING, TAKEN_OFF, tx, ty, TWICE, [0, 1], op)
    ensures |ty| == 3 && ty[0] == tx[0] + [Marker(0, op), Marker(1, op)] && ty[1] == tx[1] + [Nameless(op)]
    ensures ty[2] == tx[2] + [GoOnHold(2, op)]
  {
    TwiceMarkers(op);
    assert 0 in TWICE && 1 in TWICE && 2 !in TWICE;
    assert ReleasedElsewhere(TAKEN_OFF, tx[2], ty[2], 2, op);
  }

  // ------------------------------------------------------------------ the gating order

  const THREE_WORKING: World := World(WORKING, [[], [], []], [[], [], []], [true, true, true], [], [[], [], []], 0)

  const OLD: Message := Transaction(7)

  /** The old transaction waits on process 1. */
  const OLD_WAITING: World := THREE_WORKING.(txQueue := [[], [OLD], []])

  lemma OldWaitingIsHarmless()
    ensures Initial(THREE_WORKING) && Next(THREE_WORKING, Arrive(1, 7)) == OLD_WAITING
    ensures CanDisassociate(OLD_WAITING, TWICE) && Harmless(OLD_WAITING, StartDisassociate(TWICE))
  {
    var s := OLD_WAITING;
    TwiceAccepted(s);
    assert [] + [OLD] == [OLD];
    assert forall w, q :: !HoldQueued(s.txQueue, w, q);
    assert forall keys, j :: !Stranded(s, TWICE, keys, j);
  }

  /** Taking the two markers of process 0. */
  lemma BothMarkersRun(f: World, op: nat) returns (u: World)
    requires f.rows == TAKEN_OFF && |f.txQueue| == |f.executed| == |f.consuming| == 3 && f.outbox == [] && f.consuming[0]
    requires f.txQueue[0] == [Marker(0, op), Marker(1, op)]
    ensures Leads(f, u) && u.rows == [IDLE, IDLE, On(2, Active)]
    ensures u == f.(rows := u.rows, txQueue := f.txQueue[0 := []], executed := u.executed)
    ensures |u.executed| == 3 && u.executed[1] == f.executed[1] && u.executed[2] == f.executed[2]
  {
    var t := Next(f, TakeTransaction(0));
    LeadsByStep(f, TakeTransaction(0));
    NobodyToWake(t.rows, f.cmdQueue, 0);
    assert t.rows == [IDLE, Row(Blocking, None, true), On(2, Active)];
    assert t.txQueue[0] == [Marker(1, op)];
    u := Next(t, TakeTransaction(0));
    LeadsByStep(t, TakeTransaction(0));
    LeadsOn(f, t, u);
    NobodyToWake(u.rows, t.cmdQueue, 0);
    assert u.rows == [IDLE, IDLE, On(2, Active)];
    assert u.txQueue[0] == [];
    assert u.txQueue == f.txQueue[0 := []];
  }

  /** With nobody blocking, process 2 ignores its hold message and runs a transaction behind it. */
  lemma SecondGoesOn(s: World, op: nat) returns (u: World)
    requires s.rows == [IDLE, IDLE, On(2, Active)] && |s.txQueue| == |s.executed| == |s.consuming| == 3 && s.consuming[2]
    requires s.txQueue[2] == [GoOnHold(2, op)] && s.executed[2] == []
    ensures Leads(s, u) && u.outbox == s.outbox && |u.txQueue| == |u.executed| == 3
    ensures u.txQueue[1] == s.txQueue[1] && u.executed[2] == [GoOnHold(2, op), Transaction(9)]
  {
    var t := Next(s, TakeTransaction(2));
    LeadsByStep(s, TakeTransaction(2));
    assert t.txQueue[2] == [] && t.executed[2] == [GoOnHold(2, op)];
    var v := Next(t, Arrive(2, 9));
    LeadsByStep(t, Arrive(2, 9));
    assert v.txQueue[2] == [Transaction(9)];
    u := Next(v, TakeTransaction(2));
    LeadsByStep(v, TakeTransaction(2));
    LeadsOn(s, t, v);
    LeadsOn(s, v, u);
  }

  /** Workers 0, 1 and 2 are on processes 0, 1 and 2, and an old transaction waits on process 1.  The disassociation of [0, 0, 1]
      is accepted and not dangerous.  Process 2 comes to run a transaction behind its hold message while the old one on process
      1, ahead of one of the operation's markers, has not run. */
  lemma RepetitionBreaksGating() returns (es: seq<Event>, u: World)
    ensures Initial(THREE_WORKING) && Next(THREE_WORKING, Arrive(1, 7)) == OLD_WAITING
    ensures CanDisassociate(OLD_WAITING, TWICE) && Harmless(OLD_WAITING, StartDisassociate(TWICE))
    ensures NoOperation(es) && Reaches(Disassociate(OLD_WAITING, TWICE), es, u) && !Gated(u)
    ensures |u.txQueue| == |u.executed| == 3
    ensures u.executed[2] == [GoOnHold(2, 0), Transaction(9)] && u.txQueue[1] == [OLD, Nameless(0)]
  {
    OldWaitingIsHarmless();
    TwiceReleased(OLD_WAITING);
    var t, f := Disassociate(OLD_WAITING, TWICE), Flush(Disassociate(OLD_WAITING, TWICE));
    LeadsToFlush(t);
    assert f.txQueue[0] == [Marker(0, 0), Marker(1, 0)] && f.txQueue[2] == [GoOnHold(2, 0)];
    var v := BothMarkersRun(f, 0);
    u := SecondGoesOn(v, 0);
    LeadsOn(t, f, v);
    LeadsOn(t, v, u);
    es :| NoOperation(es) && Reaches(t, es, u);
    NamelessLeft(u);
  }

  lemma NamelessLeft(u: World)
    requires u.outbox == [] && |u.txQueue| == |u.executed| == 3
    requires u.executed[2] == [GoOnHold(2, 0), Transaction(9)] && u.txQueue[1] == [OLD, Nameless(0)]
    ensures !Gated(u)
  {
    assert Flush(u).txQueue[1][1] == Nameless(0);
    assert !NoMarkerLeft(u, 0);
    assert u.executed[2][0] == GoOnHold(2, 0);
  }

  // ------------------------------------------------------------------ operations in a world that is not settled

  const THREE_IDLE: World := World([IDLE, IDLE, IDLE], [[], [], []], [[], [], []], [true, true, true], [], [[], [], []], 0)

  /** All three attached, nothing handled yet. */
  const THREE_ATTACHED: World :=
    World(WORKING, [[GoOnHold(0, 0)], [GoOnHold(1, 0)], [GoOnHold(2, 0)]], [[], [], []], [true, true, true], [], [[], [], []], 1)

  lemma ThreeAvailable()
    ensures CanAssociate(THREE_IDLE, [0, 1, 2], {0, 1, 2})
    ensures UsedProcesses(THREE_IDLE.rows, [0, 1, 2]) == [0, 1, 2] && UsedWorkers(THREE_IDLE.rows, [0, 1, 2]) == [0, 1, 2]
  {
    var rows := THREE_IDLE.rows;
    assert Available(rows, 1) == [0];
    assert Available(rows, 2) == [0, 1];
    assert Available(rows, 3) == [0, 1, 2];
  }

  lemma ThreeAttached(rows: seq<Row>, tx: seq<seq<Message>>)
    requires AssociatedRows(THREE_IDLE.rows, rows, [0, 1, 2], [0, 1, 2])
    requires AssociatedQueues(THREE_IDLE.rows, THREE_IDLE.txQueue, tx, [0, 1, 2], [0, 1, 2], 0)
    ensures rows == WORKING && tx == THREE_ATTACHED.txQueue
  {
    var ps: seq<nat> := [0, 1, 2];
    assert rows[ps[0]] == On(0, Active) && rows[ps[1]] == On(1, Active) && rows[ps[2]] == On(2, Active);
    assert tx[ps[0]] == [GoOnHold(0, 0)] && tx[ps[1]] == [GoOnHold(1, 0)] && tx[ps[2]] == [GoOnHold(2, 0)];
  }

  lemma AttachedThree()
    ensures CanAssociate(THREE_IDLE, [0, 1, 2], {0, 1, 2}) && Flush(Associate(THREE_IDLE, [0, 1, 2], {0, 1, 2})) == THREE_ATTACHED
  {
    ThreeAvailable();
    AssociateHasEffect(THREE_IDLE, [0, 1, 2], {0, 1, 2});
    var f := Flush(Associate(THREE_IDLE, [0, 1, 2], {0, 1, 2}));
    ThreeAttached(f.rows, f.txQueue);
  }

  lemma AttachThree() returns (es: seq<Event>)
    ensures Reaches(THREE_IDLE, es, THREE_ATTACHED) && HarmlessRun(THREE_IDLE, es)
  {
    AttachedThree();
    NoWakeUpNoDanger(THREE_IDLE, [0, 1, 2], {0, 1, 2});
    es := OperationDone(THREE_IDLE, StartAssociate([0, 1, 2], {0, 1, 2}));
  }

  lemma NoWakeUpNoDanger(s: World, ps: seq<nat>, allocatable: set<nat>)
    requires CanAssociate(s, ps, allocatable) && s.cmdQueue == [[], [], []]
    ensures !DangerousAssociation(s, ps, allocatable)
  {
    assert forall w, q :: !WakeUpElsewhere(s.cmdQueue, w, q);
  }

  lemma TwiceIsHarmless()
    ensures CanDisassociate(THREE_ATTACHED, TWICE) && Harmless(THREE_ATTACHED, StartDisassociate(TWICE))
  {
    var s := THREE_ATTACHED;
    TwiceAccepted(s);
    assert forall k :: 0 <= k < 2 ==> !MarkerNotBefore(TWICE, k, 1);
    assert !Stranded(s, TWICE, [0, 1], 0) && !Stranded(s, TWICE, [0, 1], 1);
    forall w: nat, p: nat, i: nat | HoldAt(s.txQueue, w, p, i) ensures HoldSettled(s.rows, s.txQueue, w, p, i) {
      assert i == 0 && w == p;
    }
  }

  /** Workers 0 and 1 are idle again; the old hold message of worker 1 is left on process 1 with nobody blocking. */
  ghost predicate LeftBehind(s: World) {
    && s.rows == [IDLE, IDLE, On(2, Active)] && s.outbox == [] && s.cmdQueue == [[], [], []] && s.consuming == [true, true, true]
    && |s.executed| == 3
    && s.txQueue == [[], [GoOnHold(1, 0), Nameless(1)], [GoOnHold(2, 0), GoOnHold(2, 1)]]
  }

  lemma {:induction false} HarmlessAppend(s: World, a: seq<Event>, t: World, b: seq<Event>)
    requires HarmlessRun(s, a) && Reaches(s, a, t) && HarmlessRun(t, b)
    ensures HarmlessRun(s, a + b)
    decreases |a|
  {
    if a == [] {
      assert a + b == b;
    } else {
      assert (a + b)[0] == a[0] && (a + b)[1..] == a[1..] + b;
      HarmlessAppend(Next(s, a[0]), a[1..], t, b);
    }
  }

  lemma HarmlessOn(s: World, a: seq<Event>, t: World, b: seq<Event>, u: World) returns (es: seq<Event>)
    requires Reaches(s, a, t) && HarmlessRun(s, a) && Reaches(t, b, u) && HarmlessRun(t, b)
    ensures Reaches(s, es, u) && HarmlessRun(s, es)
  {
    es := a + b;
    ReachesAppend(s, a, t, b, u);
    HarmlessAppend(s, a, t, b);
  }

  lemma HoldLeftBehind() returns (es: seq<Event>, s: World)
    ensures Initial(THREE_IDLE) && Reaches(THREE_IDLE, es, s) && HarmlessRun(THREE_IDLE, es)
    ensures LeftBehind(s)
  {
    var start, f := AttachAndRelease();
    var rest;
    rest, s := ProcessZeroDone(f);
    NoOperationIsHarmless(f, rest, s);
    es := HarmlessOn(THREE_IDLE, start, f, rest, s);
  }

  lemma AttachAndRelease() returns (es: seq<Event>, f: World)
    ensures Reaches(THREE_IDLE, es, f) && HarmlessRun(THREE_IDLE, es) && Released(f)
  {
    var first := AttachThree();
    var second;
    second, f := ReleaseTwice();
    es := HarmlessOn(THREE_IDLE, first, THREE_ATTACHED, second, f);
  }

  /** What the disassociation of [0, 0, 1] leaves of THREE_ATTACHED. */
  ghost predicate Released(f: World) {
    && f.rows == TAKEN_OFF && SameElsewhere(THREE_ATTACHED, f) && f.outbox == [] && |f.txQueue| == 3
    && f.txQueue[0] == [GoOnHold(0, 0)] + [Marker(0, 1), Marker(1, 1)]
    && f.txQueue[1] == [GoOnHold(1, 0)] + [Nameless(1)] && f.txQueue[2] == [GoOnHold(2, 0)] + [GoOnHold(2, 1)]
  }

  lemma ReleaseTwice() returns (es: seq<Event>, f: World)
    ensures Reaches(THREE_ATTACHED, es, f) && HarmlessRun(THREE_ATTACHED, es) && Released(f)
  {
    TwiceIsHarmless();
    TwiceReleased(THREE_ATTACHED);
    var e := StartDisassociate(TWICE);
    es := OperationDone(THREE_ATTACHED, e);
    f := Flush(Next(THREE_ATTACHED, e));
  }

  lemma ProcessZeroDone(f: World) returns (es: seq<Event>, s: World)
    requires Released(f)
    ensures NoOperation(es) && Reaches(f, es, s) && LeftBehind(s)
  {
    var t := Next(f, TakeTransaction(0));
    LeadsByStep(f, TakeTransaction(0));
    assert t.txQueue[0] == [Marker(0, 1), Marker(1, 1)];
    s := BothMarkersRun(t, 1);
    LeadsOn(f, t, s);
    es :| NoOperation(es) && Reaches(f, es, s);
    assert s.txQueue[1] == [GoOnHold(1, 0), Nameless(1)] && s.txQueue[2] == [GoOnHold(2, 0), GoOnHold(2, 1)];
    assert s.txQueue == [[], [GoOnHold(1, 0), Nameless(1)], [GoOnHold(2, 0), GoOnHold(2, 1)]];
  }

  lemma NotSettled(s: World)
    requires LeftBehind(s)
    ensures !Settled(s)
  {
    assert HoldAt(s.txQueue, 1, 1, 0);
    assert !HoldSettled(s.rows, s.txQueue, 1, 1, 0);
  }

  /** As soon as worker 2 is blocking, process 1 puts the idle worker 1 on hold and stops for ever. */
  lemma LeftBehindStrands(f: World)
    requires |f.rows| == 3 && f.rows[1] == IDLE && f.rows[2].status == Blocking && NobodyOnHold(f.rows) && NobodyOn(f.rows, 1)
    requires f.outbox == [] && f.cmdQueue == [[], [], []] && f.consuming == [true, true, true] && |f.executed| == 3
    requires |f.txQueue| == 3 && f.txQueue[1] == [GoOnHold(1, 0), Nameless(1)] && NoWakeUps(f.txQueue)
    ensures CanDeadlock(f)
  {
    HeldByOldProcess(f, 1, 2, 1, 0);
  }

  /** An association in such a world can lead to a deadlock although no wake-up is about. */
  lemma UnsettledAssociationDeadlocks() returns (es: seq<Event>, s: World)
    ensures Initial(THREE_IDLE) && Reaches(THREE_IDLE, es, s) && HarmlessRun(THREE_IDLE, es) && s.outbox == [] && !Settled(s)
    ensures CanAssociate(s, [0], {0}) && !DangerousAssociation(s, [0], {0}) && CanDeadlock(Associate(s, [0], {0}))
  {
    es, s := HoldLeftBehind();
    NotSettled(s);
    FirstAttached(s);
    NoWakeUpNoDanger(s, [0], {0});
    var t := Associate(s, [0], {0});
    LeftBehindStrands(Flush(t));
    LeadsToFlush(t);
    DeadlockAhead(t, Flush(t));
  }

  lemma FirstAttached(s: World)
    requires LeftBehind(s)
    ensures CanAssociate(s, [0], {0})
    ensures var f := Flush(Associate(s, [0], {0}));
      && f.rows == [On(0, Active), IDLE, On(2, Blocking)] && f.outbox == [] && SameElsewhere(s, f)
      && |f.txQueue| == 3 && f.txQueue[1] == s.txQueue[1] && NoWakeUps(f.txQueue)
  {
    FirstAvailable(s);
    AssociateHasEffect(s, [0], {0});
    var f := Flush(Associate(s, [0], {0}));
    FirstAttachedRows(s.rows, f.rows);
    FirstAttachedQueues(s.rows, s.txQueue, f.txQueue, s.ops);
  }

  lemma FirstAvailable(s: World)
    requires LeftBehind(s)
    ensures CanAssociate(s, [0], {0}) && UsedProcesses(s.rows, [0]) == [0] && UsedWorkers(s.rows, [0]) == [0]
  {
    assert Available(s.rows, 1) == [0];
    assert Available(s.rows, 2) == [0, 1];
    assert Available(s.rows, 3) == [0, 1];
  }

  lemma FirstAttachedRows(a: seq<Row>, b: seq<Row>)
    requires a == [IDLE, IDLE, On(2, Active)] && AssociatedRows(a, b, [0], [0])
    ensures b == [On(0, Active), IDLE, On(2, Blocking)]
  {
    var ws: seq<nat> := [0];
    assert b[ws[0]] == On(0, Active) && IsWorking(a[2]);
  }

  lemma FirstAttachedQueues(a: seq<Row>, tx: seq<seq<Message>>, ty: seq<seq<Message>>, op: nat)
    requires a == [IDLE, IDLE, On(2, Active)] && |tx| == 3 && NoWakeUps(tx) && tx[0] == []
    requires AssociatedQueues(a, tx, ty, [0], [0], op)
    ensures |ty| == 3 && ty[1] == tx[1] && NoWakeUps(ty)
  {
    var ps: seq<nat> := [0];
    assert ty[ps[0]] == [GoOnHold(0, op)];
    assert ty[a[2].process.value] == tx[2] + [Marker(2, op)];
    assert NobodyOn(a, 1);
  }

  /** And so can a disassociation, although its only marker goes home. */
  lemma UnsettledDisassociationDeadlocks() returns (es: seq<Event>, s: World)
    ensures Initial(THREE_IDLE) && Reaches(THREE_IDLE, es, s) && HarmlessRun(THREE_IDLE, es) && s.outbox == [] && !Settled(s)
    ensures CanDisassociate(s, [2]) && !DangerousDisassociation(s, [2]) && CanDeadlock(Disassociate(s, [2]))
  {
    es, s := HoldLeftBehind();
    NotSettled(s);
    ThirdAccepted(s, [2]);
    ThirdStrands(s, [2]);
  }

  lemma ThirdStrands(s: World, ps: seq<nat>)
    requires LeftBehind(s) && CanDisassociate(s, ps) && KeysOf(s, ps) == ps == [2]
    ensures CanDeadlock(Disassociate(s, ps))
  {
    var t := Disassociate(s, ps);
    ReleasedByThem(s, Flush(t), ps);
    ThirdReleased(s, Flush(t), ps);
    LeadsToFlush(t);
    DeadlockAhead(t, Flush(t));
  }

  lemma ReleasedByThem(s: World, f: World, ps: seq<nat>)
    requires s.outbox == [] && Alone(s.rows) && CanDisassociate(s, ps) && KeysOf(s, ps) == ps
    requires f == Flush(Disassociate(s, ps))
    ensures ReleasedRows(s.rows, f.rows, ps, ps) && ReleasedQueues(s.rows, f.rows, s.txQueue, f.txQueue, ps, ps, s.ops)
    ensures SameElsewhere(s, f) && f.outbox == []
  {
    ReleaseEffect(s, ps);
  }

  lemma ThirdReleased(s: World, f: World, ps: seq<nat>)
    requires LeftBehind(s) && ps == [2] && SameElsewhere(s, f) && f.outbox == []
    requires ReleasedRows(s.rows, f.rows, ps, ps) && ReleasedQueues(s.rows, f.rows, s.txQueue, f.txQueue, ps, ps, s.ops)
    ensures CanDeadlock(f)
  {
    ThirdDetachedRows(s.rows, f.rows, ps);
    ThirdDetachedQueues(s.rows, f.rows, s.txQueue, f.txQueue, ps, s.ops);
    LeftBehindStrands(f);
  }

  lemma ThirdAccepted(s: World, ps: seq<nat>)
    requires LeftBehind(s) && ps == [2]
    ensures CanDisassociate(s, ps) && KeysOf(s, ps) == ps && !DangerousDisassociation(s, ps)
  {
    assert FirstOn(s.rows, 2, 2) == Some(2);
    assert FirstOn(s.rows, 2, 1) == Some(2);
    assert FirstOn(s.rows, 2, 0) == Some(2);
    assert WorkersOn(s.rows, ps) == ps;
    LastKey(ps);
    assert !Stranded(s, ps, ps, 0);
  }

  lemma ThirdDetachedRows(a: seq<Row>, b: seq<Row>, keys: seq<nat>)
    requires keys == [2] && a == [IDLE, IDLE, On(2, Active)] && ReleasedRows(a, b, keys, keys)
    ensures b == [IDLE, IDLE, Row(Blocking, None, true)]
  {
    assert 2 in keys && 0 !in keys && 1 !in keys;
  }

  lemma LastKey(ids: seq<nat>)
    requires ids == [2]
    ensures SortedKeys(ids, 3) == [2]
  {
    assert 2 in ids && 1 !in ids && 0 !in ids;
    assert SortedKeys(ids, 1) == [];
    assert SortedKeys(ids, 2) == [];
  }

  lemma ThirdDetachedQueues(a: seq<Row>, b: seq<Row>, tx: seq<seq<Message>>, ty: seq<seq<Message>>, ps: seq<nat>, op: nat)
    requires ps == [2] && a == [IDLE, IDLE, On(2, Active)] && b == [IDLE, IDLE, Row(Blocking, None, true)] && |tx| == 3 && NoWakeUps(tx)
    requires ReleasedQueues(a, b, tx, ty, ps, ps, op)
    ensures |ty| == 3 && ty[1] == tx[1] && NoWakeUps(ty)
  {
    assert 2 in ps && 0 !in ps && 1 !in ps && NobodyOn(b, 0) && NobodyOn(b, 1);
    assert ReleasedElsewhere(b, tx[0], ty[0], 0, op) && ReleasedElsewhere(b, tx[1], ty[1], 1, op);
    assert MarkersTo(a, ps, ps, op, 2, 0) == [];
    assert ty[2] == tx[2] + [Marker(2, op)];
  }
}
