/** Exactly when an association that the script accepts endangers the gating order: when some worker is blocking (it can
    only be one a disassociation has taken off its process) and some worker is on a process. */
module ProtocolGateCondition {
  import opened Wrappers
  import opened WorkerProtocol
  import opened ProtocolFlush
  import opened ProtocolInvariants
  import opened ProtocolOperations
  import opened ProtocolDisassociation
  import opened ProtocolRuns
  import opened ProtocolMispairing
  import opened ProtocolPlacing
  import opened ProtocolGating
  import opened ProtocolDriving
  import opened ProtocolStandstill

  // ------------------------------------------------------------------ what careful runs keep about detached workers

  predicate AnyDetachedBlocking(rows: seq<Row>) {
    exists w :: 0 <= w < |rows| && rows[w].status == Blocking && rows[w].process.None?
  }

  /** The marker of a detached worker waits on a process that no worker is on. */
  predicate DetachedAlone(rows: seq<Row>, tx: seq<seq<Message>>) {
    forall q, j, w :: 0 <= q < |tx| && 0 <= j < |tx[q]| && 0 <= w < |rows| && IsMarkerFor(tx[q][j], w) && rows[w].process.None? ==>
      NobodyOn(rows, q)
  }

  /** While a detached worker is blocking, every worker on a process has been sent the newest hold message. */
  ghost predicate SiblingsWarned(f: World)
    requires Shape(f)
  {
    AnyDetachedBlocking(f.rows) ==>
      forall v :: 0 <= v < |f.rows| && IsWorking(f.rows[v]) ==>
        f.ops > 0 && GoOnHold(v, f.ops - 1) in History(f, f.rows[v].process.value)
  }

  ghost predicate Detachment(f: World) {
    Shape(f) && DetachedAlone(f.rows, f.txQueue) && SiblingsWarned(f)
  }

  /** A step that moves nobody, blocks nobody and only pops, logs or interleaves messages keeps these facts. */
  lemma QuietStepKeepsDetachment(f: World, t: World)
    requires Detachment(f) && Shape(t) && t.ops == f.ops
    requires |t.rows| == |f.rows| && |t.txQueue| == |f.txQueue|
    requires forall w :: 0 <= w < |t.rows| ==>
               t.rows[w].process == f.rows[w].process && (t.rows[w].status == Blocking ==> f.rows[w].status == Blocking)
    requires forall p, i :: 0 <= p < |t.txQueue| && 0 <= i < |t.txQueue[p]| ==>
               t.txQueue[p][i].Transaction? || t.txQueue[p][i] in f.txQueue[p]
    requires forall p, m :: 0 <= p < |f.txQueue| && m in History(f, p) ==> m in History(t, p)
    ensures Detachment(t)
  {
    forall q | 0 <= q < |t.txQueue| && NobodyOn(f.rows, q) ensures NobodyOn(t.rows, q) {
    }
  }

  lemma TakeTransactionKeepsDetachment(f: World, p: nat)
    requires Placed(f) && Detachment(f) && Enabled(f, TakeTransaction(p))
    ensures Detachment(Next(f, TakeTransaction(p)))
  {
    var t := Next(f, TakeTransaction(p));
    TakeTransactionKeepsPlaced(f, p);
    TakeTransactionEffect(f, p);
    TakeTransactionMoves(f, p);
    forall q, m | 0 <= q < |f.txQueue| && m in History(f, q) ensures m in History(t, q) {
    }
    QuietStepKeepsDetachment(f, t);
  }

  lemma OtherStepsKeepDetachment(f: World, e: Event)
    requires Placed(f) && Detachment(f) && Enabled(f, e) && (e.TakeCommand? || e.Reboot?)
    ensures Detachment(Next(f, e))
  {
    var t := Next(f, e);
    OtherStepsEffect(f, e);
    forall q, m | 0 <= q < |f.txQueue| && m in History(f, q) ensures m in History(t, q) {
    }
    if e.TakeCommand? {
      TakeCommandKeepsPlaced(f, e.process);
    } else {
      RestartKeepsPlaced(f, e.process);
    }
    QuietStepKeepsDetachment(f, t);
  }

  lemma ArrivalKeepsDetachment(f: World, p: nat, k: nat, id: nat)
    requires Detachment(f) && p < |f.txQueue| && k <= |f.txQueue[p]|
    ensures Detachment(f.(txQueue := f.txQueue[p := InsertAt(f.txQueue[p], k, Transaction(id))]))
  {
    var t := f.(txQueue := f.txQueue[p := InsertAt(f.txQueue[p], k, Transaction(id))]);
    forall q, m | 0 <= q < |f.txQueue| && m in History(f, q) ensures m in History(t, q) {
      if q == p && m in f.txQueue[p] {
        var i :| 0 <= i < |f.txQueue[p]| && f.txQueue[p][i] == m;
        assert t.txQueue[p][if i < k then i else i + 1] == m;
      }
    }
    QuietStepKeepsDetachment(f, t);
  }

  lemma StepKeepsDetachment(s: World, e: Event)
    requires GateInv(s) && Detachment(Flush(s)) && Enabled(s, e) && Careful(s, e)
    ensures Detachment(Flush(Next(s, e)))
  {
    match e {
      case Arrive(p, id) =>
        ArrivalIsInsertion(s, p, id);
        ArrivalKeepsDetachment(Flush(s), p, |s.txQueue[p]|, id);
      case Advance => AdvanceKeepsFlush(s);
      case StartAssociate(ps, allocatable) =>
        assert Flush(s) == s;
        if CanAssociate(s, ps, allocatable) {
          StepKeepsGateInv(s, e);
          AssociateHasEffect(s, ps, allocatable);
          AssociationKeepsDetachment(s, Flush(Next(s, e)), UsedWorkers(s.rows, ps), UsedProcesses(s.rows, ps));
        }
      case StartDisassociate(ps) =>
        assert Flush(s) == s;
        if CanDisassociate(s, ps) {
          StepKeepsGateInv(s, e);
          ReleaseEffect(s, ps);
          DisassociationKeepsDetachment(s, Flush(Next(s, e)), ps, KeysOf(s, ps));
        }
      case TakeTransaction(p) =>
        StepCommutes(s, e);
        TakeTransactionKeepsDetachment(Flush(s), p);
      case _ =>
        StepCommutes(s, e);
        OtherStepsKeepDetachment(Flush(s), e);
    }
  }

  lemma TakeTransactionMoves(f: World, p: nat)
    requires Enabled(f, TakeTransaction(p)) && |f.txQueue| == |f.executed|
    ensures var t := Next(f, TakeTransaction(p));
            && (forall w :: 0 <= w < |t.rows| && w < |f.rows| ==> t.rows[w].process == f.rows[w].process)
            && |t.executed| == |t.txQueue| == |f.txQueue|
            && (forall q :: 0 <= q < |f.txQueue| ==> History(t, q) == History(f, q))
  {
    assert f.executed[p] + f.txQueue[p] == (f.executed[p] + [f.txQueue[p][0]]) + f.txQueue[p][1..];
  }

  /** After an association that found no marker, every marker is for a worker on a process. */
  lemma AssociationDetachesNobody(s: World, f: World, ws: seq<nat>, ps: seq<nat>)
    requires NoMarkers(s.txQueue) && AssociatedRows(s.rows, f.rows, ws, ps)
    requires AssociatedQueues(s.rows, s.txQueue, f.txQueue, ws, ps, s.ops)
    ensures DetachedAlone(f.rows, f.txQueue)
  {
    forall q, j, w | 0 <= q < |f.txQueue| && 0 <= j < |f.txQueue[q]| && 0 <= w < |f.rows| && IsMarkerFor(f.txQueue[q][j], w)
      ensures IsWorking(f.rows[w])
    {
      AssociatedQueueAt(s.rows, s.txQueue, f.txQueue, ws, ps, s.ops, q);
      assert s.txQueue[q] <= f.txQueue[q];
    }
  }

  lemma AssociationKeepsDetachment(s: World, f: World, ws: seq<nat>, ps: seq<nat>)
    requires Placed(s) && !AnyBlocking(s.rows) && Shape(f) && AssociatedRows(s.rows, f.rows, ws, ps)
    requires AssociatedQueues(s.rows, s.txQueue, f.txQueue, ws, ps, s.ops)
    ensures Detachment(f)
  {
    QuietPlaces(s);
    AssociationDetachesNobody(s, f, ws, ps);
    BlockingStays(s.rows, f.rows, ws, ps);
    assert !AnyDetachedBlocking(f.rows);
  }

  lemma DisassociationKeepsDetachment(s: World, f: World, ps: seq<nat>, keys: seq<nat>)
    requires Placed(s) && Shape(f) && ReleasedRows(s.rows, f.rows, ps, keys) && SameElsewhere(s, f)
    requires ReleasedQueues(s.rows, f.rows, s.txQueue, f.txQueue, ps, keys, s.ops)
    ensures Detachment(f)
  {
    NoBlockingNoMarker(s);
    ReleasedNobodyOn(s.rows, f.rows, ps, keys);
    forall p, i | 0 <= p < |f.txQueue| && 0 <= i < |f.txQueue[p]| && f.txQueue[p][i].MarkBlockingToOriginal?
      ensures NobodyOn(f.rows, p)
    {
      var j := ReleasedAt(s, f, ps, keys, p, i);
      assert ps[j] in ps;
    }
    SiblingsAreWarned(s, f, ps, keys);
  }

  lemma SiblingsAreWarned(s: World, f: World, ps: seq<nat>, keys: seq<nat>)
    requires Alone(s.rows) && Shape(f) && ReleasedRows(s.rows, f.rows, ps, keys) && SameElsewhere(s, f)
    requires ReleasedQueues(s.rows, f.rows, s.txQueue, f.txQueue, ps, keys, s.ops)
    ensures SiblingsWarned(f)
  {
    ReleasedNobodyOn(s.rows, f.rows, ps, keys);
    forall v | 0 <= v < |f.rows| && IsWorking(f.rows[v])
      ensures GoOnHold(v, f.ops - 1) in History(f, f.rows[v].process.value)
    {
      var p := f.rows[v].process.value;
      assert p !in ps;
      assert ReleasedElsewhere(f.rows, s.txQueue[p], f.txQueue[p], p, s.ops);
      assert f.txQueue[p][|s.txQueue[p]|] == GoOnHold(v, s.ops);
      assert History(f, p)[|f.executed[p]| + |s.txQueue[p]|] == GoOnHold(v, s.ops);
    }
  }

  lemma {:induction false} RunKeepsDetachment(s: World, es: seq<Event>, t: World)
    requires GateInv(s) && Detachment(Flush(s)) && Reaches(s, es, t) && CarefulRun(s, es)
    ensures GateInv(t) && Detachment(Flush(t))
    decreases |es|
  {
    if es != [] {
      StepKeepsGateInv(s, es[0]);
      StepKeepsDetachment(s, es[0]);
      RunKeepsDetachment(Next(s, es[0]), es[1..], t);
    }
  }

  lemma CarefullyReached(s0: World, es0: seq<Event>, s: World)
    requires Initial(s0) && Reaches(s0, es0, s) && CarefulRun(s0, es0) && s.outbox == []
    ensures GateInv(s) && Placed(s) && Gate(s) && Detachment(s)
  {
    InitialGate(s0);
    assert Flush(s0) == s0;
    RunKeepsDetachment(s0, es0, s);
    assert Flush(s) == s;
  }

  // ------------------------------------------------------------------ the dangerous run

  /** Some continuation of t without new operations breaks the gating order. */
  ghost predicate CanBreakGating(t: World) {
    exists es, u :: NoOperation(es) && Reaches(t, es, u) && !Gated(u)
  }

  lemma LeadsToBreak(t: World, u: World)
    requires Leads(t, u) && !Gated(u)
    ensures CanBreakGating(t)
  {
    var es :| NoOperation(es) && Reaches(t, es, u);
  }

  /** The newest hold message of a working worker is still in its process's queue. */
  lemma WarningIsQueued(s: World, v: nat) returns (p: nat, i: nat)
    requires Gate(s) && Detachment(s) && AnyDetachedBlocking(s.rows)
    requires v < |s.rows| && IsWorking(s.rows[v]) && !IsTemporary(s.rows[v])
    ensures s.rows[v].process == Some(p) && p < |s.txQueue| && i < |s.txQueue[p]| && s.ops > 0
    ensures s.txQueue[p][i] == GoOnHold(v, s.ops - 1)
  {
    p := s.rows[v].process.value;
    var m := GoOnHold(v, s.ops - 1);
    assert AnyBlocking(s.rows);
    assert m !in s.executed[p] by {
      NotRunYet(s, v, p, m);
    }
    var j :| 0 <= j < |History(s, p)| && History(s, p)[j] == m;
    i := j - |s.executed[p]|;
  }

  lemma NotRunYet(s: World, v: nat, p: nat, m: Message)
    requires Halted(s) && AnyBlocking(s.rows) && p < |s.executed| && IsNewestHold(s, m) && m.target == v
    requires v < |s.rows| && s.rows[v].status != Hold
    ensures m !in s.executed[p]
  {
    assert forall i :: 0 <= i < |s.executed[p]| && IsNewestHold(s, s.executed[p][i]) ==> HaltedAt(s, p, i);
  }

  predicate QueuedMarkerOf(tx: seq<seq<Message>>, q: nat, k: nat) {
    q < |tx| && exists j :: 0 <= j < |tx[q]| && tx[q][j].MarkBlockingToOriginal? && tx[q][j].op == k
  }

  lemma SomeDetachedBlocking(s: World) returns (b: nat)
    requires AnyBlocking(s.rows)
    requires forall w :: 0 <= w < |s.rows| && IsWorking(s.rows[w]) ==> !IsTemporary(s.rows[w])
    ensures b < |s.rows| && s.rows[b].status == Blocking && s.rows[b].process.None? && AnyDetachedBlocking(s.rows)
  {
    b :| 0 <= b < |s.rows| && s.rows[b].status == Blocking;
  }

  /** The detached worker's marker waits on another process than p. */
  lemma MarkerElsewhere(s: World, p: nat, b: nat) returns (q: nat)
    requires Placed(s) && Gate(s) && Detachment(s) && s.ops > 0
    requires b < |s.rows| && s.rows[b].status == Blocking && s.rows[b].process.None? && !NobodyOn(s.rows, p)
    ensures p != q && QueuedMarkerOf(s.txQueue, q, s.ops - 1)
  {
    q :| 0 <= q < |s.txQueue| && MarkerFrom(s.txQueue[q], b, 0);
    var j :| 0 <= j < |s.txQueue[q]| && IsMarkerFor(s.txQueue[q][j], b);
    assert s.txQueue[q][j].MarkBlockingToOriginal?;
  }

  /** The newest hold message of a working worker is queued, and a marker of the same operation on another queue. */
  lemma WarningAndMarker(s: World, v: nat) returns (p: nat, i: nat, q: nat, k: nat)
    requires Placed(s) && Gate(s) && Detachment(s) && AnyBlocking(s.rows) && v < |s.rows| && IsWorking(s.rows[v])
    requires forall w :: 0 <= w < |s.rows| && IsWorking(s.rows[w]) ==> !IsTemporary(s.rows[w])
    ensures s.rows[v].process == Some(p) && p < |s.txQueue|
    ensures i < |s.txQueue[p]| && s.txQueue[p][i] == GoOnHold(v, k) && p != q && QueuedMarkerOf(s.txQueue, q, k)
  {
    var b := SomeDetachedBlocking(s);
    p, i := WarningIsQueued(s, v);
    k := s.ops - 1;
    q := MarkerElsewhere(s, p, b);
  }

  lemma MarkerStays(s: World, f: World, ws: seq<nat>, used: seq<nat>, q: nat, k: nat)
    requires AssociatedQueues(s.rows, s.txQueue, f.txQueue, ws, used, s.ops) && QueuedMarkerOf(s.txQueue, q, k)
    ensures QueuedMarkerOf(f.txQueue, q, k)
  {
    var j :| 0 <= j < |s.txQueue[q]| && s.txQueue[q][j].MarkBlockingToOriginal? && s.txQueue[q][j].op == k;
    AssociatedQueueAt(s.rows, s.txQueue, f.txQueue, ws, used, s.ops, q);
    assert f.txQueue[q][j] == s.txQueue[q][j];
  }

  /** After an association, v is the only worker on its process, blocking, with its marker at the end of the queue. */
  lemma BlockedBehindWarning(s: World, f: World, ws: seq<nat>, used: seq<nat>, v: nat, p: nat)
    requires Shape(s) && Alone(s.rows) && TxTyped(s.rows, s.txQueue)
    requires v < |s.rows| && s.rows[v].process == Some(p) && AssociatedRows(s.rows, f.rows, ws, used)
    requires AssociatedQueues(s.rows, s.txQueue, f.txQueue, ws, used, s.ops)
    ensures p < |f.txQueue| == |s.txQueue|
    ensures f.txQueue[p] == s.txQueue[p] + [MarkBlockingToOriginal(Some(v), s.rows[v].status, s.ops)]
    ensures OwnBlocking(f.rows, f.txQueue[p], p, |f.txQueue[p]|)
  {
    assert IsWorking(s.rows[v]);
    forall w | 0 <= w < |f.rows| && f.rows[w].process == Some(p) ensures w == v {
      OnlyOneThere(s, f, ws, used, v, p, w);
    }
    assert forall k :: 0 <= k < |s.txQueue[p]| ==> f.txQueue[p][k] == s.txQueue[p][k] && !IsMarkerFor(f.txQueue[p][k], v);
  }

  lemma OnlyOneThere(s: World, f: World, ws: seq<nat>, used: seq<nat>, v: nat, p: nat, w: nat)
    requires Alone(s.rows) && v < |s.rows| && s.rows[v].process == Some(p) && AssociatedRows(s.rows, f.rows, ws, used)
    requires w < |f.rows| && f.rows[w].process == Some(p)
    ensures w == v
  {
    assert IsWorking(s.rows[v]) && p !in used;
    assert forall i :: 0 <= i < |ws| ==> used[i] in used && f.rows[ws[i]].process == Some(used[i]);
  }

  lemma RanBehindWarning(f: World, u: World, p: nat, i: nat, k: nat)
    requires p < |f.txQueue| && p < |f.executed| && i + 2 <= |f.txQueue[p]| && Driven(f, u, p, i + 2)
    requires f.txQueue[p][i].GoOnHold? && f.txQueue[p][i].op == k && !NoMarkerLeft(u, k)
    ensures !Gated(u)
  {
    var j := |f.executed[p]| + i;
    assert u.executed[p][j] == f.txQueue[p][i];
  }

  lemma MarkerIsLeft(u: World, q: nat, k: nat)
    requires u.outbox == [] && QueuedMarkerOf(u.txQueue, q, k)
    ensures !NoMarkerLeft(u, k)
  {
    assert Flush(u).txQueue == u.txQueue;
  }

  lemma RunPastWarning(f: World, p: nat, i: nat, q: nat, k: nat) returns (u: World)
    requires f.outbox == [] && Drivable(f, p, i + 2) && f.txQueue[p][i].GoOnHold? && f.txQueue[p][i].op == k
    requires p != q && QueuedMarkerOf(f.txQueue, q, k)
    ensures Leads(f, u) && !Gated(u)
  {
    u := Drive(f, p, i + 2);
    assert u.txQueue[q] == f.txQueue[q];
    MarkerIsLeft(u, q, k);
    RanBehindWarning(f, u, p, i, k);
  }

  lemma OwnBlockingShorter(rows: seq<Row>, queue: seq<Message>, p: nat, n: nat)
    requires n <= |queue| && OwnBlocking(rows, queue, p, |queue|)
    ensures OwnBlocking(rows, queue, p, n)
  {
  }

  lemma DrivablePastWarning(s: World, f: World, ws: seq<nat>, used: seq<nat>, v: nat, p: nat, i: nat)
    requires Placed(s) && AssociatedRows(s.rows, f.rows, ws, used) && SameElsewhere(s, f)
    requires AssociatedQueues(s.rows, s.txQueue, f.txQueue, ws, used, s.ops)
    requires v < |s.rows| && s.rows[v].process == Some(p) && p < |s.txQueue| && i < |s.txQueue[p]|
    ensures Drivable(f, p, i + 2) && f.txQueue[p][i] == s.txQueue[p][i]
  {
    BlockedBehindWarning(s, f, ws, used, v, p);
    AssociateKeepsTyped(s, f, ws, used);
    OwnBlockingShorter(f.rows, f.txQueue[p], p, i + 2);
  }

  lemma DangerousTail(s: World, f: World, ws: seq<nat>, used: seq<nat>, v: nat) returns (u: World)
    requires Placed(s) && Gate(s) && Detachment(s) && AnyBlocking(s.rows) && f.outbox == []
    requires AssociatedRows(s.rows, f.rows, ws, used) && SameElsewhere(s, f)
    requires AssociatedQueues(s.rows, s.txQueue, f.txQueue, ws, used, s.ops)
    requires v < |s.rows| && IsWorking(s.rows[v])
    ensures Leads(f, u) && !Gated(u)
  {
    var p, i, q, k := WarningAndMarker(s, v);
    DrivablePastWarning(s, f, ws, used, v, p, i);
    MarkerStays(s, f, ws, used, q, k);
    u := RunPastWarning(f, p, i, q, k);
  }

  lemma DangerousRun(s: World, ps: seq<nat>, allocatable: set<nat>, v: nat) returns (es: seq<Event>, u: World)
    requires s.outbox == [] && Placed(s) && Gate(s) && Detachment(s) && CanAssociate(s, ps, allocatable)
    requires AnyBlocking(s.rows) && v < |s.rows| && IsWorking(s.rows[v])
    ensures NoOperation(es) && Reaches(Associate(s, ps, allocatable), es, u) && !Gated(u)
  {
    var t := Associate(s, ps, allocatable);
    AssociateHasEffect(s, ps, allocatable);
    u := DangerousTail(s, Flush(t), UsedWorkers(s.rows, ps), UsedProcesses(s.rows, ps), v);
    LeadsToFlush(t);
    LeadsOn(t, Flush(t), u);
    es :| NoOperation(es) && Reaches(t, es, u);
  }

  // ------------------------------------------------------------------ the safe cases

  lemma {:induction false} NoOperationIsCareful(s: World, es: seq<Event>, t: World)
    requires Reaches(s, es, t) && NoOperation(es)
    ensures OrderlyRun(s, es) && CarefulRun(s, es)
    decreases |es|
  {
    if es != [] {
      NoOperationIsCareful(Next(s, es[0]), es[1..], t);
    }
  }

  lemma GateInvIsSafe(t: World, es: seq<Event>, u: World)
    requires GateInv(t) && NoOperation(es) && Reaches(t, es, u)
    ensures Gated(u)
  {
    NoOperationIsCareful(t, es, u);
    RunKeepsGate(t, es, u);
    GateInvGates(u);
  }

  /** No hold message of operation k was ever published, and every marker waiting is one of operation k. */
  ghost predicate NoHoldOf(f: World, k: nat) {
    && (forall p, i :: 0 <= p < |f.txQueue| && 0 <= i < |f.txQueue[p]| ==>
          !(f.txQueue[p][i].GoOnHold? && f.txQueue[p][i].op == k)
          && (f.txQueue[p][i].MarkBlockingToOriginal? ==> f.txQueue[p][i].op == k))
    && (forall p, i :: 0 <= p < |f.executed| && 0 <= i < |f.executed[p]| ==>
          !(f.executed[p][i].GoOnHold? && f.executed[p][i].op == k))
  }

  /** Of the messages, a step other than an operation only logs the heads of queues and adds transactions. */
  lemma StepKeepsNoHoldOf(s: World, e: Event, k: nat)
    requires NoHoldOf(Flush(s), k) && Enabled(s, e) && !e.StartAssociate? && !e.StartDisassociate?
    ensures NoHoldOf(Flush(Next(s, e)), k)
  {
    match e {
      case Arrive(p, id) =>
        ArrivalIsInsertion(s, p, id);
        ArrivalKeepsNoHoldOf(Flush(s), p, |s.txQueue[p]|, id, k);
      case Advance => AdvanceKeepsFlush(s);
      case TakeTransaction(p) =>
        PopTransactionCommutes(s, p);
        HandlingKeepsQueues(PopTransaction(s, p), p, s.txQueue[p][0]);
        NoHoldOfPopped(Flush(s), Flush(Next(s, e)), p, k);
      case TakeCommand(p) =>
        HandlingKeepsQueues(PopCommand(s, p), p, s.cmdQueue[p][0]);
      case Reboot(p) =>
    }
  }

  lemma HandlingKeepsQueues(s: World, p: nat, m: Message)
    ensures var t := Execute(s, p, m); t.txQueue == s.txQueue && t.outbox == s.outbox && t.executed == s.executed
  {
  }

  lemma ArrivalKeepsNoHoldOf(f: World, p: nat, i0: nat, id: nat, k: nat)
    requires NoHoldOf(f, k) && p < |f.txQueue| && i0 <= |f.txQueue[p]|
    ensures NoHoldOf(f.(txQueue := f.txQueue[p := InsertAt(f.txQueue[p], i0, Transaction(id))]), k)
  {
    var tx: seq<seq<Message>> := f.txQueue[p := InsertAt(f.txQueue[p], i0, Transaction(id))];
    forall q, i | 0 <= q < |tx| && 0 <= i < |tx[q]| && !tx[q][i].Transaction?
      ensures var i' := if q == p && i > i0 then i - 1 else i;
              i' < |f.txQueue[q]| && tx[q][i] == f.txQueue[q][i']
    {
    }
  }

  lemma NoHoldOfPopped(f: World, t: World, p: nat, k: nat)
    requires NoHoldOf(f, k) && p < |f.txQueue| && f.txQueue[p] != [] && p < |f.executed|
    requires t.txQueue == f.txQueue[p := f.txQueue[p][1..]]
    requires t.executed == f.executed[p := f.executed[p] + [f.txQueue[p][0]]]
    ensures NoHoldOf(t, k)
  {
    forall q, i | 0 <= q < |t.txQueue| && 0 <= i < |t.txQueue[q]|
      ensures t.txQueue[q][i] == f.txQueue[q][if q == p then i + 1 else i]
    {
    }
  }

  lemma {:induction false} RunKeepsNoHoldOf(s: World, es: seq<Event>, t: World, k: nat)
    requires NoHoldOf(Flush(s), k) && Reaches(s, es, t) && NoOperation(es)
    ensures NoHoldOf(Flush(t), k)
    decreases |es|
  {
    if es != [] {
      StepKeepsNoHoldOf(s, es[0], k);
      RunKeepsNoHoldOf(Next(s, es[0]), es[1..], t, k);
    }
  }

  lemma NoHoldOfGates(u: World, k: nat)
    requires NoHoldOf(Flush(u), k)
    ensures Gated(u)
  {
    forall p, i | 0 <= p < |u.executed| && 0 <= i < |u.executed[p]| - 1 && u.executed[p][i].GoOnHold?
      ensures NoMarkerLeft(u, u.executed[p][i].op)
    {
      assert Flush(u).executed[p][i].op != k;
    }
  }

  lemma NobodyToWarn(s: World, f: World, ws: seq<nat>, ps: seq<nat>)
    requires Gate(s) && AnyBlocking(s.rows) && s.ops > 0
    requires forall w :: 0 <= w < |s.rows| ==> !IsWorking(s.rows[w])
    requires SameElsewhere(s, f) && AssociatedQueues(s.rows, s.txQueue, f.txQueue, ws, ps, s.ops)
    ensures NoHoldOf(f, s.ops - 1)
  {
    forall p, i | 0 <= p < |f.txQueue| && 0 <= i < |f.txQueue[p]|
      ensures i < |s.txQueue[p]| ==> f.txQueue[p][i] == s.txQueue[p][i]
      ensures i >= |s.txQueue[p]| ==> f.txQueue[p][i].GoOnHold? && f.txQueue[p][i].op == s.ops
    {
      AssociatedQueueAt(s.rows, s.txQueue, f.txQueue, ws, ps, s.ops, p);
    }
    NoNewestHold(s);
  }

  /** While a worker is blocking and none is on a process, there is no hold message of the newest operation. */
  lemma NoNewestHold(s: World)
    requires Gate(s) && AnyBlocking(s.rows) && forall w :: 0 <= w < |s.rows| ==> !IsWorking(s.rows[w])
    ensures forall p, i :: 0 <= p < |s.txQueue| && 0 <= i < |s.txQueue[p]| ==> !IsNewestHold(s, s.txQueue[p][i])
    ensures forall p, i :: 0 <= p < |s.executed| && 0 <= i < |s.executed[p]| ==> !IsNewestHold(s, s.executed[p][i])
  {
  }

  lemma NobodyWarned(s: World, ps: seq<nat>, allocatable: set<nat>, es: seq<Event>, u: World)
    requires s.outbox == [] && Alone(s.rows) && Gate(s) && AnyBlocking(s.rows) && CanAssociate(s, ps, allocatable) && s.ops > 0
    requires forall w :: 0 <= w < |s.rows| ==> !IsWorking(s.rows[w])
    requires NoOperation(es) && Reaches(Associate(s, ps, allocatable), es, u)
    ensures Gated(u)
  {
    var t := Associate(s, ps, allocatable);
    AssociateHasEffect(s, ps, allocatable);
    NobodyToWarn(s, Flush(t), UsedWorkers(s.rows, ps), UsedProcesses(s.rows, ps));
    RunKeepsNoHoldOf(t, es, u, s.ops - 1);
    NoHoldOfGates(u, s.ops - 1);
  }

  lemma SomeOperationStarted(s: World)
    requires Placed(s) && Gate(s) && AnyBlocking(s.rows)
    ensures s.ops > 0
  {
    var b :| 0 <= b < |s.rows| && s.rows[b].status == Blocking;
    var p :| 0 <= p < |s.txQueue| && MarkerFrom(s.txQueue[p], b, 0);
  }

  predicate AnyWorking(rows: seq<Row>) {
    exists v :: 0 <= v < |rows| && IsWorking(rows[v])
  }

  lemma SafeAssociation(s: World, ps: seq<nat>, allocatable: set<nat>, es: seq<Event>, u: World)
    requires s.outbox == [] && GateInv(s) && Placed(s) && Gate(s) && CanAssociate(s, ps, allocatable)
    requires !AnyBlocking(s.rows) || !AnyWorking(s.rows)
    requires NoOperation(es) && Reaches(Associate(s, ps, allocatable), es, u)
    ensures Gated(u)
  {
    if AnyBlocking(s.rows) {
      SomeOperationStarted(s);
      NobodyWarned(s, ps, allocatable, es, u);
    } else {
      CarefulAssociationKeepsInv(s, ps, allocatable);
      GateInvIsSafe(Associate(s, ps, allocatable), es, u);
    }
  }

  /** After a careful run, take any association the script accepts: it can break the gating order if and only if some worker is
      blocking and some worker is on a process. */
  lemma AssociationEndangersGatingIff(s0: World, es0: seq<Event>, s: World, ps: seq<nat>, allocatable: set<nat>)
    requires Initial(s0) && Reaches(s0, es0, s) && CarefulRun(s0, es0)
    requires s.outbox == [] && CanAssociate(s, ps, allocatable)
    ensures CanBreakGating(Associate(s, ps, allocatable)) <==> AnyBlocking(s.rows) && AnyWorking(s.rows)
  {
    CarefullyReached(s0, es0, s);
    if AnyBlocking(s.rows) && AnyWorking(s.rows) {
      var v :| 0 <= v < |s.rows| && IsWorking(s.rows[v]);
      var es, u := DangerousRun(s, ps, allocatable, v);
    }
    if CanBreakGating(Associate(s, ps, allocatable)) && !(AnyBlocking(s.rows) && AnyWorking(s.rows)) {
      var es, u :| NoOperation(es) && Reaches(Associate(s, ps, allocatable), es, u) && !Gated(u);
      SafeAssociation(s, ps, allocatable, es, u);
    }
  }
}
