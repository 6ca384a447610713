/** Runs that show the conditions of the protocol's theorems are needed, and operations that look dangerous and are not. */
module ProtocolCounterexamples {
  import opened Wrappers
  import opened WorkerProtocol
  import opened ProtocolFlush
  import opened ProtocolInvariants
  import opened ProtocolOperations
  import opened ProtocolDisassociation
  import opened ProtocolRuns
  import opened ProtocolProgress
  import opened ProtocolDanger
  import opened ProtocolMispairing
  import opened ProtocolDisassociationDeadlock
  import opened ProtocolPlacing
  import opened ProtocolGateCondition

  const IDLE: Row := Row(Active, None, true)

  function On(p: nat, status: Status): (r: Row)
  {
    Row(status, Some(p), true)
  }

  // ------------------------------------------------------------------ wrongly paired markers

  const TWO_IDLE: World := World([IDLE, IDLE], [[], []], [[], []], [true, true], [], [[], []], 0)

  /** Both workers attached, nothing handled yet. */
  const TWO_ATTACHED: World :=
    World([On(0, Active), On(1, Active)], [[GoOnHold(0, 0)], [GoOnHold(1, 0)]], [[], []], [true, true], [], [[], []], 1)

  lemma AttachForm()
    ensures CanAssociate(TWO_IDLE, [0, 1], {0, 1})
    ensures var t := Associate(TWO_IDLE, [0, 1], {0, 1});
            && t.rows == TWO_IDLE.rows && t.ops == 1
            && t.outbox == [Attach(0, 0), Publish(0, GoOnHold(0, 0)), Attach(1, 1), Publish(1, GoOnHold(1, 0))]
  {
    var s := TWO_IDLE;
    assert Available(s.rows, 1) == [0];
    assert Available(s.rows, 2) == [0, 1];
    assert MarkerActions(s.rows, 0, 1) == [];
    assert MarkerActions(s.rows, 0, 2) == [];
    assert AttachActions([0, 1], [0, 1], 0, 1) == [Attach(0, 0), Publish(0, GoOnHold(0, 0))];
    assert BlockWorking(s.rows) == s.rows;
  }

  lemma AttachBoth() returns (es: seq<Event>)
    ensures Reaches(TWO_IDLE, es, TWO_ATTACHED) && OrderlyRun(TWO_IDLE, es)
  {
    var e := StartAssociate([0, 1], {0, 1});
    var t := Next(TWO_IDLE, e);
    AttachForm();
    FourActions(t);
    var f := Flush(t);
    assert f.txQueue[0] == [GoOnHold(0, 0)] && f.txQueue[1] == [GoOnHold(1, 0)];
    assert f.txQueue == TWO_ATTACHED.txQueue;
    assert f.rows == TWO_ATTACHED.rows;
    assert f == TWO_ATTACHED;
    es := OperationDone(TWO_IDLE, e);
  }

  /** An operation and all its publications. */
  lemma OperationDone(s: World, e: Event) returns (es: seq<Event>)
    requires Enabled(s, e)
    ensures Reaches(s, es, Flush(Next(s, e)))
    ensures (Orderly(s, e) ==> OrderlyRun(s, es)) && (Harmless(s, e) ==> HarmlessRun(s, es))
  {
    var t := Next(s, e);
    var publish := seq(|t.outbox|, i => Advance);
    PublishAll(t);
    NoOperationIsCareful(t, publish, Flush(t));
    NoOperationIsHarmless(t, publish, Flush(t));
    es := [e] + publish;
    assert es[1..] == publish;
    ReachesFirst(s, es, Flush(t));
  }

  lemma TwoActions(t: World)
    requires |t.outbox| == 2
    ensures Flush(t) == DoAction(DoAction(t.(outbox := []), t.outbox[0]), t.outbox[1])
  {
    var u := Next(t, Advance);
    AdvanceKeepsFlush(t);
    AdvanceKeepsFlush(u);
    assert t.outbox[1..][1..] == [];
  }

  lemma FourActions(t: World)
    requires |t.outbox| == 4
    ensures Flush(t) == DoAction(DoAction(DoAction(DoAction(t.(outbox := []), t.outbox[0]), t.outbox[1]), t.outbox[2]), t.outbox[3])
  {
    var u := Next(t, Advance);
    AdvanceKeepsFlush(t);
    AdvanceKeepsFlush(u);
    TwoActions(Next(u, Advance));
  }

  lemma CrossedIsDangerous()
    ensures CanDisassociate(TWO_ATTACHED, [1, 0]) && DangerousDisassociation(TWO_ATTACHED, [1, 0])
  {
    var s := TWO_ATTACHED;
    var ps := [1, 0];
    assert FirstOn(s.rows, 1, 0) == Some(1);
    assert FirstOn(s.rows, 0, 0) == Some(0);
    assert WorkersOn(s.rows, ps) == ps;
    assert SortedKeys(ps, 1) == [0];
    assert SortedKeys(ps, 2) == [0, 1];
    assert CanDisassociate(s, ps) && KeysOf(s, ps) == [0, 1];
    assert s.txQueue[0][0].GoOnHold? && s.txQueue[0][0].target == 0;
    assert MarkerNotBefore(ps, 1, 0);
    assert Stranded(s, ps, [0, 1], 0);
  }

  /** Two workers associated together and then disassociated with their processes named in the other order: the marker of
      each goes to the other's process, the first process stops at its old hold message in front of the second worker's
      marker, and nothing moves any more. */
  lemma CrossedMarkersDeadlock() returns (es: seq<Event>, t: World)
    ensures Initial(TWO_IDLE) && Reaches(TWO_IDLE, es, t) && Deadlocked(t)
  {
    var before := AttachBoth();
    InitialKeepsInv(TWO_IDLE);
    RunKeepsInv(TWO_IDLE, before, TWO_ATTACHED);
    CrossedIsDangerous();
    DangerousDisassociationDeadlocks(TWO_ATTACHED, [1, 0]);
    var e := StartDisassociate([1, 0]);
    var u := Next(TWO_ATTACHED, e);
    OneStep(TWO_IDLE, before, TWO_ATTACHED, e, u);
    var after;
    after, t :| NoOperation(after) && Reaches(u, after, t) && Deadlocked(t);
    es := before + [e] + after;
    ReachesAppend(TWO_IDLE, before + [e], u, after, t);
  }

  // ------------------------------------------------------------------ disorder without danger

  const TWO_WORKING: World := World([On(0, Active), On(1, Active)], [[], []], [[], []], [true, true], [], [[], []], 0)

  /** The same disassociation is harmless once the old hold messages have run. */
  lemma LateCrossingIsHarmless()
    ensures CanDisassociate(TWO_WORKING, [1, 0])
    ensures !Orderly(TWO_WORKING, StartDisassociate([1, 0])) && Harmless(TWO_WORKING, StartDisassociate([1, 0]))
  {
    var s := TWO_WORKING;
    assert FirstOn(s.rows, 1, 0) == Some(1);
    assert FirstOn(s.rows, 0, 0) == Some(0);
    var ids := WorkersOn(s.rows, [1, 0]);
    assert ids == [1, 0];
    assert !Ascending(ids) by {
      assert ids[0] > ids[1];
    }
    assert forall w, q :: !HoldQueued(s.txQueue, w, q);
    assert forall keys, j :: !Stranded(s, [1, 0], keys, j);
  }

  const ONE_WOKEN: World := World([IDLE], [[], []], [[], [WAKE_0]], [true, true], [], [[], []], 0)

  const WAKE_0: Message := GoToOriginal(0, Active)

  /** An association of a worker with a stale wake-up is harmless while nobody is blocking or on a process. */
  lemma StaleWakeUpAloneIsHarmless()
    ensures CanAssociate(ONE_WOKEN, [0], {0})
    ensures !Orderly(ONE_WOKEN, StartAssociate([0], {0})) && Harmless(ONE_WOKEN, StartAssociate([0], {0}))
  {
    var s := ONE_WOKEN;
    assert Available(s.rows, 1) == [0];
    assert UsedProcesses(s.rows, [0]) == [0];
    assert UsedWorkers(s.rows, [0]) == [0];
    var ws, used := UsedWorkers(s.rows, [0]), UsedProcesses(s.rows, [0]);
    assert s.cmdQueue[1][0] == WAKE_0 && ws[0] == 0 && used[0] == 0;
    assert !NoStaleWakeUp(s.cmdQueue, ws, used);
    assert !BlockedElsewhere(s, 0);
  }

  // ------------------------------------------------------------------ a stale wake-up

  /** Worker 0 on process 0, worker 1 idle, processes 1 and 2 free. */
  const ONE_ATTACHED: World := World([On(0, Active), IDLE], [[], [], []], [[], [], []], [true, true, true], [], [[], [], []], 0)

  /** From a world with nothing queued on a transaction queue, worker 1 is attached to process p, held there, and the
      marker that would free it is handled: its wake-up now waits on p's command queue. */
  lemma AttachAndHold(s: World, p: nat) returns (es: seq<Event>, t: World)
    requires s.rows == [On(0, Active), IDLE] && |s.txQueue| == |s.cmdQueue| == |s.executed| == 3 && s.outbox == []
    requires forall q :: 0 <= q < 3 ==> s.txQueue[q] == []
    requires s.consuming == [true, true, true] && (p == 1 || p == 2)
    ensures Reaches(s, es, t)
    ensures t.rows == [On(0, Active), On(p, Hold)] && |t.txQueue| == |t.executed| == 3 && t.outbox == []
    ensures forall q :: 0 <= q < 3 ==> t.txQueue[q] == []
    ensures t.consuming == s.consuming[p := false] && t.cmdQueue == s.cmdQueue[p := s.cmdQueue[p] + [GoToOriginal(1, Active)]]
  {
    var e := StartAssociate([p], {p});
    var t0 := Next(s, e);
    AttachOneForm(s, p);
    OneStep(s, [], s, e, t0);
    var f := Flush(t0);
    es := Published(s, [] + [e], t0, f);
    var t1 := Next(f, TakeTransaction(p));
    HoldTaken(f, p, s.ops);
    OneStep(s, es, f, TakeTransaction(p), t1);
    es := es + [TakeTransaction(p)];
    t := Next(t1, TakeTransaction(0));
    MarkerTaken(t1, p, s.ops);
    OneStep(s, es, t1, TakeTransaction(0), t);
    es := es + [TakeTransaction(0)];
  }

  lemma HoldTaken(f: World, p: nat, op: nat)
    requires f.rows == [On(0, Blocking), On(p, Active)] && |f.txQueue| == |f.executed| == |f.consuming| == 3
    requires (p == 1 || p == 2) && f.consuming[p] && f.txQueue[p] == [GoOnHold(1, op)]
    ensures var t := Next(f, TakeTransaction(p));
      t == f.(rows := [On(0, Blocking), On(p, Hold)], consuming := f.consuming[p := false],
              txQueue := f.txQueue[p := []], executed := f.executed[p := f.executed[p] + [GoOnHold(1, op)]])
  {
    assert f.rows[0].status == Blocking;
    assert f.rows[1 := f.rows[1].(status := Hold)] == [On(0, Blocking), On(p, Hold)];
    assert f.txQueue[p][1..] == [];
  }

  lemma MarkerTaken(f: World, p: nat, op: nat)
    requires f.rows == [On(0, Blocking), On(p, Hold)] && |f.txQueue| == |f.executed| == |f.consuming| == |f.cmdQueue| == 3
    requires (p == 1 || p == 2) && f.consuming[0] && f.txQueue[0] == [MarkBlockingToOriginal(Some(0), Active, op)]
    ensures var t := Next(f, TakeTransaction(0));
      t == f.(rows := [On(0, Active), On(p, Hold)], txQueue := f.txQueue[0 := []], executed := t.executed,
              cmdQueue := f.cmdQueue[p := f.cmdQueue[p] + [GoToOriginal(1, Active)]])
        && |t.executed| == 3
  {
    var rows := [On(0, Active), On(p, Hold)];
    assert f.rows[0 := f.rows[0].(status := Active)] == rows;
    assert f.txQueue[0][1..] == [];
    assert WakeHeld(rows, f.cmdQueue, 2) == f.cmdQueue;
    assert WakeHeld(rows, f.cmdQueue, 1) == Send(f.cmdQueue, p, GoToOriginal(1, Active));
  }

  lemma AttachOneOutbox(s: World, p: nat)
    requires s.rows == [On(0, Active), IDLE] && |s.txQueue| == 3 && s.outbox == [] && (p == 1 || p == 2)
    ensures CanAssociate(s, [p], {p})
    ensures Associate(s, [p], {p}) == s.(rows := [On(0, Blocking), IDLE], ops := s.ops + 1,
              outbox := [Attach(1, p), Publish(p, GoOnHold(1, s.ops)), Publish(0, MarkBlockingToOriginal(Some(0), Active, s.ops))])
  {
    assert Available(s.rows, 1) == [];
    assert Available(s.rows, 2) == [1];
    assert UsedProcesses(s.rows, [p]) == [p];
    assert AttachActions([1], [p], s.ops, 1) == [Attach(1, p), Publish(p, GoOnHold(1, s.ops))];
    var marker := Publish(0, MarkBlockingToOriginal(Some(0), Active, s.ops));
    assert MarkerActions(s.rows, s.ops, 1) == [marker];
    assert MarkerActions(s.rows, s.ops, 2) == [marker];
    assert BlockWorking(s.rows) == [On(0, Blocking), IDLE];
  }

  lemma AttachOneForm(s: World, p: nat)
    requires s.rows == [On(0, Active), IDLE] && |s.txQueue| == 3 && s.outbox == []
    requires forall q :: 0 <= q < 3 ==> s.txQueue[q] == []
    requires p == 1 || p == 2
    ensures CanAssociate(s, [p], {p})
    ensures var f := Flush(Associate(s, [p], {p}));
            && f.rows == [On(0, Blocking), On(p, Active)]
            && f.txQueue[p] == [GoOnHold(1, s.ops)] && f.txQueue[0] == [MarkBlockingToOriginal(Some(0), Active, s.ops)]
            && f.txQueue[3 - p] == []
            && f == s.(rows := f.rows, txQueue := f.txQueue, ops := s.ops + 1)
  {
    AttachOneOutbox(s, p);
    var t := Associate(s, [p], {p});
    ThreeActions(t);
  }

  lemma ThreeActions(t: World)
    requires |t.outbox| == 3
    ensures Flush(t) == DoAction(DoAction(DoAction(t.(outbox := []), t.outbox[0]), t.outbox[1]), t.outbox[2])
  {
    AdvanceKeepsFlush(t);
    TwoActions(Next(t, Advance));
  }

  /** Worker 1 is taken off process 1 again. */
  lemma DetachAgain(s: World) returns (es: seq<Event>, t: World)
    requires s.rows == [On(0, Active), On(1, Active)] && |s.txQueue| == |s.executed| == 3 && s.outbox == []
    requires forall q :: 0 <= q < 3 ==> s.txQueue[q] == []
    requires s.consuming == [true, true, true]
    ensures Reaches(s, es, t)
    ensures t.rows == [On(0, Active), IDLE] && |t.txQueue| == |t.executed| == 3 && t.outbox == []
    ensures forall q :: 0 <= q < 3 ==> t.txQueue[q] == []
    ensures t.consuming == s.consuming && t.cmdQueue == s.cmdQueue
  {
    var e := StartDisassociate([1]);
    var t0 := Next(s, e);
    DetachOneForm(s);
    OneStep(s, [], s, e, t0);
    var f := Flush(t0);
    es := Published(s, [] + [e], t0, f);
    var t1 := Next(f, TakeTransaction(1));
    OneStep(s, es, f, TakeTransaction(1), t1);
    es := es + [TakeTransaction(1)];
    var rows := [On(0, Active), IDLE];
    assert WakeHeld(rows, s.cmdQueue, 1) == s.cmdQueue;
    assert t1.rows == rows && t1.cmdQueue == s.cmdQueue;
    t := Next(t1, TakeTransaction(0));
    OneStep(s, es, t1, TakeTransaction(0), t);
    es := es + [TakeTransaction(0)];
  }

  lemma DetachOneForm(s: World)
    requires s.rows == [On(0, Active), On(1, Active)] && |s.txQueue| == 3 && s.outbox == []
    requires forall q :: 0 <= q < 3 ==> s.txQueue[q] == []
    ensures CanDisassociate(s, [1])
    ensures var f := Flush(Disassociate(s, [1]));
            && f.rows == [On(0, Active), Row(Blocking, None, true)]
            && f.txQueue[0] == [GoOnHold(0, s.ops)] && f.txQueue[1] == [MarkBlockingToOriginal(Some(1), Active, s.ops)]
            && f.txQueue[2] == []
            && f == s.(rows := f.rows, txQueue := f.txQueue, ops := s.ops + 1)
  {
    assert FirstOn(s.rows, 1, 0) == Some(1);
    assert WorkersOn(s.rows, [1]) == [1];
    assert SortedKeys([1], 1) == [];
    assert SortedKeys([1], 2) == [1];
    var rows := [On(0, Active), Row(Blocking, None, true)];
    assert Detach(s.rows, [1]) == rows;
    DisassociateForm(s, [1]);
    ReleaseActionsAt(s.rows, [1], [1], s.ops, 1);
    var hold := Publish(0, GoOnHold(0, s.ops));
    assert SiblingActions(rows, s.ops, 1) == [hold];
    assert SiblingActions(rows, s.ops, 2) == [hold];
    var t := Disassociate(s, [1]);
    assert t.outbox == [Publish(1, MarkBlockingToOriginal(Some(1), Active, s.ops)), hold];
    TwoActions(t);
  }

  const WAKE: Message := GoToOriginal(1, Active)

  /** Worker 1 is held on process 1, released there by a restart, moved to process 2 and held again: its wake-up is on the
      command queues of both processes. */
  lemma HeldTwice() returns (es: seq<Event>, t: World)
    ensures Reaches(ONE_ATTACHED, es, t)
    ensures t.rows == [On(0, Active), On(2, Hold)] && |t.txQueue| == |t.executed| == 3 && t.outbox == []
    ensures forall q :: 0 <= q < 3 ==> t.txQueue[q] == []
    ensures t.consuming == [true, true, false] && t.cmdQueue == [[], [WAKE], [WAKE]]
  {
    var s := ONE_ATTACHED;
    var es1, t1 := AttachAndHold(s, 1);
    var t2 := Next(t1, Reboot(1));
    OneStep(s, es1, t1, Reboot(1), t2);
    assert t1.rows[1].status == Hold;
    assert s.cmdQueue[1] + [WAKE] == [WAKE];
    assert t2.cmdQueue == t1.cmdQueue == [[], [WAKE], []];
    assert t2.rows == [On(0, Active), On(1, Active)] && t2.consuming == [true, true, true];
    var es3, t3 := DetachAgain(t2);
    ReachesAppend(s, es1 + [Reboot(1)], t2, es3, t3);
    var es4, u := AttachAndHold(t3, 2);
    t := u;
    es := es1 + [Reboot(1)] + es3 + es4;
    ReachesAppend(s, es1 + [Reboot(1)] + es3, t3, es4, t);
    assert t3.cmdQueue[2] + [WAKE] == [WAKE];
  }

  /** The wake-up left on the command queue of process 1 marks the worker active, so the one on process 2 is ignored, and
      process 2 never consumes its transaction queue again. */
  lemma StaleWakeUpDeadlock() returns (es: seq<Event>, t: World)
    ensures Initial(ONE_ATTACHED) && Reaches(ONE_ATTACHED, es, t) && Deadlocked(t)
    ensures forall w :: 0 <= w < |t.rows| ==> t.rows[w].status == Active
  {
    var before, u := HeldTwice();
    var after;
    after, t := WokenTwice(u);
    es := before + after;
    ReachesAppend(ONE_ATTACHED, before, u, after, t);
  }

  lemma WokenTwice(s: World) returns (es: seq<Event>, t: World)
    requires s.rows == [On(0, Active), On(2, Hold)] && |s.txQueue| == |s.executed| == 3 && s.outbox == []
    requires forall q :: 0 <= q < 3 ==> s.txQueue[q] == []
    requires s.consuming == [true, true, false] && s.cmdQueue == [[], [WAKE], [WAKE]]
    ensures Reaches(s, es, t) && Deadlocked(t) && t.rows == [On(0, Active), On(2, Active)]
  {
    var t1 := Next(s, TakeCommand(1));
    assert Reaches(s, [], s);
    OneStep(s, [], s, TakeCommand(1), t1);
    assert t1.rows == [On(0, Active), On(2, Active)];
    assert [WAKE][1..] == [];
    assert t1.cmdQueue == [[], [], [WAKE]];
    var t2 := Next(t1, TakeCommand(2));
    OneStep(s, [] + [TakeCommand(1)], t1, TakeCommand(2), t2);
    assert t2.cmdQueue == [[], [], []] && t2.consuming == [true, true, false];
    t := Next(t2, Arrive(2, 0));
    OneStep(s, [] + [TakeCommand(1)] + [TakeCommand(2)], t2, Arrive(2, 0), t);
    es := [] + [TakeCommand(1)] + [TakeCommand(2)] + [Arrive(2, 0)];
    assert t.txQueue[2] == [Transaction(0)];
  }

  /** From a core world, an accepted association keeps the core invariant exactly when no wake-up of a worker it attaches
      waits on the command queue of another process. */
  lemma AssociationKeepsCoreIff(s: World, ps: seq<nat>, allocatable: set<nat>)
    requires s.outbox == [] && Core(s) && CanAssociate(s, ps, allocatable)
    ensures Core(Flush(Associate(s, ps, allocatable)))
       <==> NoStaleWakeUp(s.cmdQueue, UsedWorkers(s.rows, ps), UsedProcesses(s.rows, ps))
  {
    var f := Flush(Associate(s, ps, allocatable));
    var ws, used := UsedWorkers(s.rows, ps), UsedProcesses(s.rows, ps);
    AssociateHasEffect(s, ps, allocatable);
    if NoStaleWakeUp(s.cmdQueue, ws, used) {
      AssociateKeepsCore(s, f, ws, used);
    }
    if Core(f) {
      forall p, j, i | 0 <= p < |s.cmdQueue| && 0 <= j < |s.cmdQueue[p]| && 0 <= i < |ws|
        && s.cmdQueue[p][j].GoToOriginal? && s.cmdQueue[p][j].target == ws[i]
        ensures used[i] == p
      {
        assert f.cmdQueue[p][j] == s.cmdQueue[p][j];
        assert f.rows[ws[i]].process == Some(used[i]);
      }
    }
  }

  // ------------------------------------------------------------------ an association behind a disassociation

  const TWO_AND_ONE: World := World([On(0, Active), On(1, Active), IDLE], [[], [], []], [[], [], []], [true, true, true], [], [[], [], []], 0)

  /** While a disassociated worker is still blocking, the association script sees nothing wrong, and the gating order can
      break. */
  lemma GatingNeedsCare() returns (es: seq<Event>, t: World)
    ensures Initial(TWO_AND_ONE) && Reaches(TWO_AND_ONE, es, t) && OrderlyRun(TWO_AND_ONE, es)
    ensures t.outbox == [] && CanAssociate(t, [2], {2}) && CanBreakGating(Associate(t, [2], {2}))
  {
    es, t := OneOfTwoDetached();
    AvailableThere(t);
    assert t.rows[1].status == Blocking && IsWorking(t.rows[0]);
    AssociationEndangersGatingIff(TWO_AND_ONE, es, t, [2], {2});
  }

  lemma OneOfTwoDetached() returns (es: seq<Event>, t: World)
    ensures Reaches(TWO_AND_ONE, es, t) && OrderlyRun(TWO_AND_ONE, es) && CarefulRun(TWO_AND_ONE, es)
    ensures t.outbox == [] && t.rows == ONE_DETACHED && |t.txQueue| == 3 && t.cmdQueue == [[], [], []]
  {
    var e := StartDisassociate([1]);
    DetachOneOfTwoForm();
    var u := Next(TWO_AND_ONE, e);
    t := Flush(u);
    var publish := seq(|u.outbox|, i => Advance);
    PublishAll(u);
    NoOperationIsCareful(u, publish, t);
    es := [e] + publish;
    assert es[1..] == publish;
    ReachesFirst(TWO_AND_ONE, es, t);
  }

  lemma AvailableThere(t: World)
    requires t.rows == ONE_DETACHED && |t.txQueue| == 3
    ensures Available(t.rows, 3) == [2] && CanAssociate(t, [2], {2}) && Available(t.rows, |t.rows|) == [2]
  {
    assert Available(t.rows, 1) == [];
    assert Available(t.rows, 2) == [];
    assert UsedProcesses(t.rows, [2]) == [2];
  }

  const ONE_DETACHED: seq<Row> := [On(0, Active), Row(Blocking, None, true), IDLE]

  lemma DetachOneOfTwoActions()
    ensures SortedKeys([1], 3) == [1] && SiblingActions(ONE_DETACHED, 0, 3) == [Publish(0, GoOnHold(0, 0))]
    ensures ReleaseActions(TWO_AND_ONE.rows, [1], [1], 0, 1) == [Publish(1, MarkBlockingToOriginal(Some(1), Active, 0))]
  {
    assert SortedKeys([1], 1) == [];
    assert SortedKeys([1], 2) == [1];
    var hold := Publish(0, GoOnHold(0, 0));
    assert SiblingActions(ONE_DETACHED, 0, 1) == [hold];
    assert SiblingActions(ONE_DETACHED, 0, 2) == [hold];
    assert ReleaseActions(TWO_AND_ONE.rows, [1], [1], 0, 0) == [];
  }

  lemma DetachOneOfTwoWorks()
    ensures CanDisassociate(TWO_AND_ONE, [1]) && WorkersOn(TWO_AND_ONE.rows, [1]) == [1]
    ensures Detach(TWO_AND_ONE.rows, [1]) == ONE_DETACHED
  {
    assert FirstOn(TWO_AND_ONE.rows, 1, 0) == Some(1);
  }

  lemma DetachOneOfTwoOutbox()
    ensures CanDisassociate(TWO_AND_ONE, [1])
    ensures Disassociate(TWO_AND_ONE, [1]) == TWO_AND_ONE.(rows := ONE_DETACHED, ops := 1,
              outbox := [Publish(1, MarkBlockingToOriginal(Some(1), Active, 0)), Publish(0, GoOnHold(0, 0))])
  {
    DetachOneOfTwoWorks();
    DetachOneOfTwoActions();
    DisassociateForm(TWO_AND_ONE, [1]);
  }

  lemma DetachOneOfTwoForm()
    ensures CanDisassociate(TWO_AND_ONE, [1])
    ensures var t := Flush(Disassociate(TWO_AND_ONE, [1])); t.rows == ONE_DETACHED && |t.txQueue| == 3 && t.outbox == []
  {
    DetachOneOfTwoOutbox();
    var t := Disassociate(TWO_AND_ONE, [1]);
    TwoPublications(t);
  }

  lemma TwoPublications(t: World)
    requires |t.outbox| == 2 && t.outbox[0].Publish? && t.outbox[1].Publish?
    ensures Flush(t).rows == t.rows && |Flush(t).txQueue| == |t.txQueue| && Flush(t).outbox == []
  {
    TwoActions(t);
  }
}
