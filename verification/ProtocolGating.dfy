/** The order the protocol is for: a process runs nothing queued behind an operation's hold message until everything
    queued ahead of that operation's markers has run. */
module ProtocolGating {
  import opened Wrappers
  import opened Sequences
  import opened WorkerProtocol
  import opened ProtocolFlush
  import opened ProtocolInvariants
  import opened ProtocolOperations
  import opened ProtocolRuns
  import opened ProtocolMispairing
  import opened ProtocolPlacing
  import opened ProtocolStandstill

  /** Everything ever put on the transaction queue of p, oldest first. */
  function History(s: World, p: nat): (ms: seq<Message>)
    requires p < |s.txQueue| && p < |s.executed|
  {
    s.executed[p] + s.txQueue[p]
  }

  /** The gating order: once p has run a message behind a hold message of operation k, every marker of k is published
      and has run, wherever it was queued; a queue is first in first out, so everything ahead of it has run too. */
  ghost predicate Gated(t: World) {
    forall p, i :: 0 <= p < |t.executed| && 0 <= i < |t.executed[p]| - 1 && t.executed[p][i].GoOnHold? ==>
      NoMarkerLeft(t, t.executed[p][i].op)
  }

  /** No marker of operation k is queued or still to be published. */
  ghost predicate NoMarkerLeft(t: World, k: nat) {
    var tx := Flush(t).txQueue;
    forall q, j :: 0 <= q < |tx| && 0 <= j < |tx[q]| && tx[q][j].MarkBlockingToOriginal? ==> tx[q][j].op != k
  }

  lemma StepIsFifo(s: World, e: Event, p: nat)
    requires Enabled(s, e) && p < |s.txQueue| == |s.executed|
    ensures p < |Next(s, e).txQueue| == |Next(s, e).executed|
    ensures s.executed[p] <= Next(s, e).executed[p] && History(s, p) <= History(Next(s, e), p)
  {
    if e == TakeTransaction(p) {
      assert s.executed[p] + s.txQueue[p] == (s.executed[p] + [s.txQueue[p][0]]) + s.txQueue[p][1..];
    } else {
      OtherStepsAppend(s, e, p);
    }
  }

  /** Only its own process takes a message off a queue; everybody else adds at its end. */
  lemma OtherStepsAppend(s: World, e: Event, p: nat)
    requires Enabled(s, e) && p < |s.txQueue| == |s.executed| && e != TakeTransaction(p)
    ensures var t := Next(s, e);
      && |t.txQueue| == |s.txQueue| && |t.executed| == |s.executed|
      && t.executed[p] == s.executed[p] && s.txQueue[p] <= t.txQueue[p]
  {
  }

  // ------------------------------------------------------------------ the gate

  predicate IsNewestHold(f: World, m: Message) {
    m.GoOnHold? && m.op + 1 == f.ops
  }

  /** The hold message m on queue p is for a worker that is on p and not blocking. */
  predicate Fresh(rows: seq<Row>, m: Message, p: nat)
    requires m.GoOnHold?
  {
    m.target < |rows| && rows[m.target].status != Blocking && rows[m.target].process == Some(p)
  }

  /** The markers waiting are those of the newest operation; its hold messages are for workers that are on the process and not
      blocking, and where one has run while a worker is blocking it is the last thing that ran. */
  ghost predicate Gate(f: World) {
    && (forall p, i :: 0 <= p < |f.txQueue| && 0 <= i < |f.txQueue[p]| && f.txQueue[p][i].MarkBlockingToOriginal? ==>
          f.txQueue[p][i].op + 1 == f.ops)
    && (forall p, i :: 0 <= p < |f.txQueue| && 0 <= i < |f.txQueue[p]| && f.txQueue[p][i].GoOnHold? ==>
          var m := f.txQueue[p][i]; m.op < f.ops && (IsNewestHold(f, m) ==> Fresh(f.rows, m, p)))
    && (forall p, i :: 0 <= p < |f.executed| && 0 <= i < |f.executed[p]| && f.executed[p][i].GoOnHold? ==>
          f.executed[p][i].op < f.ops)
    && Halted(f)
  }

  ghost predicate Halted(f: World) {
    AnyBlocking(f.rows) ==>
      forall p, i :: 0 <= p < |f.executed| && 0 <= i < |f.executed[p]| && IsNewestHold(f, f.executed[p][i]) ==> HaltedAt(f, p, i)
  }

  /** Process p stopped after running the hold message i, whose worker is on hold on p. */
  ghost predicate HaltedAt(f: World, p: nat, i: nat)
    requires p < |f.executed| && i < |f.executed[p]| && f.executed[p][i].GoOnHold?
  {
    var w := f.executed[p][i].target;
    && i == |f.executed[p]| - 1 && p < |f.consuming| && !f.consuming[p]
    && w < |f.rows| && f.rows[w].status == Hold && f.rows[w].process == Some(p)
  }

  /** What careful runs keep, also while an operation is publishing. */
  ghost predicate GateInv(s: World) {
    OutboxOk(s) && Placed(Flush(s)) && Gate(Flush(s))
  }

  // ------------------------------------------------------------------ steps

  /** Running the head of p's queue unblocks workers but blocks none, moves none and wakes none; it pops that message and logs
      it. */
  lemma TakeTransactionEffect(f: World, p: nat)
    requires TxTyped(f.rows, f.txQueue) && Enabled(f, TakeTransaction(p))
    ensures var t := Next(f, TakeTransaction(p));
            && t.ops == f.ops && |t.rows| == |f.rows|
            && (forall w :: 0 <= w < |t.rows| && t.rows[w].status == Blocking ==> f.rows[w].status == Blocking)
            && (forall w :: 0 <= w < |t.rows| ==> t.rows[w].process == f.rows[w].process)
            && (forall w :: 0 <= w < |t.rows| && f.rows[w].status == Hold ==> t.rows[w].status == Hold)
            && t.txQueue == f.txQueue[p := f.txQueue[p][1..]]
            && t.executed == f.executed[p := f.executed[p] + [f.txQueue[p][0]]]
            && |t.consuming| == |f.consuming|
            && (forall q :: 0 <= q < |t.consuming| && q != p ==> t.consuming[q] == f.consuming[q])
  {
  }

  lemma TakeTransactionKeepsGate(f: World, p: nat)
    requires Placed(f) && Gate(f) && Enabled(f, TakeTransaction(p))
    ensures Gate(Next(f, TakeTransaction(p)))
  {
    TakeTransactionKeepsHalted(f, p);
    TakeTransactionEffect(f, p);
    GateAfterPop(f, Next(f, TakeTransaction(p)), p);
  }

  lemma GateAfterPop(f: World, t: World, p: nat)
    requires Gate(f) && p < |f.txQueue| && f.txQueue[p] != [] && p < |f.executed|
    requires t.ops == f.ops && |t.rows| == |f.rows| && Halted(t)
    requires forall w :: 0 <= w < |t.rows| && t.rows[w].status == Blocking ==> f.rows[w].status == Blocking
    requires forall w :: 0 <= w < |t.rows| ==> t.rows[w].process == f.rows[w].process
    requires t.txQueue == f.txQueue[p := f.txQueue[p][1..]]
    requires t.executed == f.executed[p := f.executed[p] + [f.txQueue[p][0]]]
    ensures Gate(t)
  {
    forall q, i | 0 <= q < |t.txQueue| && 0 <= i < |t.txQueue[q]|
      ensures t.txQueue[q][i] == f.txQueue[q][if q == p then i + 1 else i]
    {
    }
  }

  lemma TakeTransactionKeepsHalted(f: World, p: nat)
    requires Placed(f) && Gate(f) && Enabled(f, TakeTransaction(p))
    ensures Halted(Next(f, TakeTransaction(p)))
  {
    var t := Next(f, TakeTransaction(p));
    TakeTransactionEffect(f, p);
    if AnyBlocking(t.rows) {
      StillBlocking(f.rows, t.rows);
      if IsNewestHold(f, f.txQueue[p][0]) {
        NewestHoldHalts(f, p);
      }
      HaltedOn(f, t, p);
    }
  }

  lemma StillBlocking(a: seq<Row>, b: seq<Row>)
    requires |a| == |b| && AnyBlocking(b) && forall w :: 0 <= w < |b| && b[w].status == Blocking ==> a[w].status == Blocking
    ensures AnyBlocking(a)
  {
    var w :| 0 <= w < |b| && b[w].status == Blocking;
    assert a[w].status == Blocking;
  }

  /** While a worker is blocking, the newest hold message finds its worker neither blocking nor on hold, holds it and stops the
      process. */
  lemma NewestHoldHalts(f: World, p: nat)
    requires Placed(f) && Gate(f) && Enabled(f, TakeTransaction(p)) && AnyBlocking(f.rows) && IsNewestHold(f, f.txQueue[p][0])
    ensures var t, w := Next(f, TakeTransaction(p)), f.txQueue[p][0].target;
      && !t.consuming[p] && w < |t.rows| && t.rows[w].status == Hold && t.rows[w].process == Some(p)
  {
    var w := f.txQueue[p][0].target;
    assert Fresh(f.rows, f.txQueue[p][0], p);
    assert f.rows[w].status != Hold;
  }

  lemma HaltedOn(f: World, t: World, p: nat)
    requires Halted(f) && AnyBlocking(f.rows) && t.ops == f.ops && |t.consuming| == |f.consuming| && |t.rows| == |f.rows|
    requires forall w :: 0 <= w < |t.rows| ==> t.rows[w].process == f.rows[w].process
    requires forall w :: 0 <= w < |t.rows| && f.rows[w].status == Hold ==> t.rows[w].status == Hold
    requires p < |f.executed| && p < |f.consuming| && f.consuming[p] && p < |f.txQueue| && f.txQueue[p] != []
    requires t.executed == f.executed[p := f.executed[p] + [f.txQueue[p][0]]]
    requires var m := f.txQueue[p][0]; IsNewestHold(f, m) ==>
      !t.consuming[p] && m.target < |t.rows| && t.rows[m.target].status == Hold && t.rows[m.target].process == Some(p)
    requires forall q :: 0 <= q < |t.consuming| && q != p ==> t.consuming[q] == f.consuming[q]
    ensures Halted(t)
  {
    forall q, i | 0 <= q < |t.executed| && 0 <= i < |t.executed[q]| && IsNewestHold(t, t.executed[q][i]) ensures HaltedAt(t, q, i) {
      if i < |f.executed[q]| {
        assert t.executed[q][i] == f.executed[q][i];
        assert HaltedAt(f, q, i);
      }
    }
  }

  lemma OtherStepsKeepGate(f: World, e: Event)
    requires Gate(f) && AllWakeUps(f.cmdQueue) && Enabled(f, e) && (e.TakeCommand? || e.Reboot?)
    ensures Gate(Next(f, e))
  {
    OtherStepsEffect(f, e);
    SameBlockingKeepsGate(f, Next(f, e));
  }

  lemma SameBlockingKeepsGate(f: World, t: World)
    requires Gate(f) && t.ops == f.ops && t.txQueue == f.txQueue && t.executed == f.executed
    requires SamePlaces(f.rows, t.rows) && |t.consuming| == |f.consuming|
    requires AnyBlocking(f.rows) ==> t.rows == f.rows
    requires AnyBlocking(f.rows) ==>
      forall p :: 0 <= p < |t.consuming| && t.consuming[p] ==> f.consuming[p] || !AnyHeldOn(f.rows, p)
    ensures Gate(t)
  {
    if AnyBlocking(t.rows) {
      StillBlocking(f.rows, t.rows);
      forall q, i | 0 <= q < |t.executed| && 0 <= i < |t.executed[q]| && IsNewestHold(t, t.executed[q][i]) ensures HaltedAt(t, q, i) {
        assert HaltedAt(f, q, i);
      }
    }
  }

  /** While a worker is blocking, commands and restarts change no row, and no process with a held worker starts to consume. */
  lemma OtherStepsEffect(f: World, e: Event)
    requires AllWakeUps(f.cmdQueue) && Enabled(f, e) && (e.TakeCommand? || e.Reboot?)
    ensures var t := Next(f, e);
      && t.ops == f.ops && t.txQueue == f.txQueue && t.executed == f.executed && SamePlaces(f.rows, t.rows)
      && |t.consuming| == |f.consuming|
      && (AnyBlocking(f.rows) ==> t.rows == f.rows)
      && (AnyBlocking(f.rows) ==>
            forall p :: 0 <= p < |t.consuming| && t.consuming[p] ==> f.consuming[p] || !AnyHeldOn(f.rows, p))
  {
    if e.TakeCommand? {
      assert IsWakeUp(f.cmdQueue[e.process][0]);
    } else if !AnyHeldOn(f.rows, e.process) {
      assert ReleaseHeldOn(f.rows, e.process) == f.rows;
    }
  }

  lemma ArrivalKeepsGate(f: World, p: nat, k: nat, id: nat)
    requires Gate(f) && p < |f.txQueue| && k <= |f.txQueue[p]|
    ensures Gate(f.(txQueue := f.txQueue[p := InsertAt(f.txQueue[p], k, Transaction(id))]))
  {
    var tx: seq<seq<Message>> := f.txQueue[p := InsertAt(f.txQueue[p], k, Transaction(id))];
    forall q, i | 0 <= q < |tx| && 0 <= i < |tx[q]| && !tx[q][i].Transaction?
      ensures var i' := if q == p && i > k then i - 1 else i;
              i' < |f.txQueue[q]| && tx[q][i] == f.txQueue[q][i']
    {
    }
  }

  lemma AssociationStartsGate(s: World, f: World, ws: seq<nat>, ps: seq<nat>)
    requires NoMarkers(s.txQueue) && Gate(s) && AssociatedRows(s.rows, f.rows, ws, ps) && SameElsewhere(s, f)
    requires AssociatedQueues(s.rows, s.txQueue, f.txQueue, ws, ps, s.ops)
    ensures Gate(f)
  {
    forall p, i | 0 <= p < |f.txQueue| && 0 <= i < |f.txQueue[p]|
      ensures i < |s.txQueue[p]| ==> f.txQueue[p][i] == s.txQueue[p][i]
      ensures i >= |s.txQueue[p]| ==> i == |s.txQueue[p]| && Announced(s.rows, ws, ps, s.ops, p, f.txQueue[p][i])
    {
      AssociatedQueueAt(s.rows, s.txQueue, f.txQueue, ws, ps, s.ops, p);
    }
  }

  lemma DisassociationStartsGate(s: World, f: World, ps: seq<nat>, keys: seq<nat>)
    requires NoMarkers(s.txQueue) && Gate(s) && Alone(s.rows) && ReleasedRows(s.rows, f.rows, ps, keys) && SameElsewhere(s, f)
    requires ReleasedQueues(s.rows, f.rows, s.txQueue, f.txQueue, ps, keys, s.ops)
    ensures Gate(f)
  {
    ReleasedNobodyOn(s.rows, f.rows, ps, keys);
    forall p, i | 0 <= p < |f.txQueue| && 0 <= i < |f.txQueue[p]|
      ensures i < |s.txQueue[p]| ==> f.txQueue[p][i] == s.txQueue[p][i]
      ensures i >= |s.txQueue[p]| ==> NewestMessage(s, f, p, i)
    {
      NewMessages(s, f, ps, keys, p, i);
    }
  }

  /** Message i of queue p is one that a disassociation publishes. */
  ghost predicate NewestMessage(s: World, f: World, p: nat, i: nat)
    requires p < |f.txQueue| && i < |f.txQueue[p]|
  {
    var m := f.txQueue[p][i];
    (m.MarkBlockingToOriginal? && m.op == s.ops) || (m.GoOnHold? && m.op == s.ops && Fresh(f.rows, m, p))
  }

  lemma NewMessages(s: World, f: World, ps: seq<nat>, keys: seq<nat>, p: nat, i: nat)
    requires Alone(s.rows) && ReleasedRows(s.rows, f.rows, ps, keys)
    requires ReleasedQueues(s.rows, f.rows, s.txQueue, f.txQueue, ps, keys, s.ops)
    requires p < |f.txQueue| && i < |f.txQueue[p]|
    ensures i < |s.txQueue[p]| ==> f.txQueue[p][i] == s.txQueue[p][i]
    ensures i >= |s.txQueue[p]| ==> NewestMessage(s, f, p, i)
  {
    var j := ReleasedAt(s, f, ps, keys, p, i);
    ReleasedNobodyOn(s.rows, f.rows, ps, keys);
  }

  /** Taking a message and restarting a process commute with publishing what is in flight. */
  lemma StepCommutes(s: World, e: Event)
    requires OutboxOk(s) && AllWakeUps(s.cmdQueue) && Enabled(s, e) && (e.TakeTransaction? || e.TakeCommand? || e.Reboot?)
    ensures Enabled(Flush(s), e) && Next(Flush(s), e) == Flush(Next(s, e))
  {
    match e {
      case TakeTransaction(p) =>
        PopTransactionCommutes(s, p);
        ExecuteAfterPop(s, p);
      case TakeCommand(p) =>
        assert IsWakeUp(s.cmdQueue[p][0]);
        ExecuteCommutes(PopCommand(s, p), p, s.cmdQueue[p][0]);
      case Reboot(p) => RestartCommutes(s, p);
    }
  }

  lemma CarefulAssociationKeepsInv(s: World, ps: seq<nat>, allocatable: set<nat>)
    requires GateInv(s) && s.outbox == [] && CanAssociate(s, ps, allocatable) && !AnyBlocking(s.rows)
    ensures GateInv(Associate(s, ps, allocatable))
  {
    assert Flush(s) == s;
    QuietPlaces(s);
    AssociateOutboxOk(s, ps, allocatable);
    AssociateHasEffect(s, ps, allocatable);
    var f := Flush(Associate(s, ps, allocatable));
    AssociationKeepsPlaced(s, f, UsedWorkers(s.rows, ps), UsedProcesses(s.rows, ps));
    AssociationStartsGate(s, f, UsedWorkers(s.rows, ps), UsedProcesses(s.rows, ps));
  }

  lemma CarefulDisassociationKeepsInv(s: World, ps: seq<nat>)
    requires GateInv(s) && s.outbox == [] && CanDisassociate(s, ps) && Distinct(ps)
    ensures GateInv(Disassociate(s, ps))
  {
    assert Flush(s) == s;
    assert !AnyBlocking(s.rows);
    QuietPlaces(s);
    DisassociateOutboxOk(s, ps);
    ReleaseEffect(s, ps);
    DistinctKeys(s, ps);
    ProcessesInRange(s, ps);
    ReleaseKeepsPlaced(s, Flush(Disassociate(s, ps)), ps, KeysOf(s, ps));
    DisassociationStartsGate(s, Flush(Disassociate(s, ps)), ps, KeysOf(s, ps));
  }

  lemma StepKeepsGateInv(s: World, e: Event)
    requires GateInv(s) && Enabled(s, e) && Careful(s, e)
    ensures GateInv(Next(s, e))
  {
    match e {
      case StartAssociate(ps, allocatable) =>
        if CanAssociate(s, ps, allocatable) {
          CarefulAssociationKeepsInv(s, ps, allocatable);
        }
      case StartDisassociate(ps) =>
        if CanDisassociate(s, ps) {
          CarefulDisassociationKeepsInv(s, ps);
        }
      case Arrive(p, id) =>
        StepsKeepOutboxOk(s, e);
        ArrivalIsInsertion(s, p, id);
        ArrivalKeepsPlaced(Flush(s), p, |s.txQueue[p]|, id);
        ArrivalKeepsGate(Flush(s), p, |s.txQueue[p]|, id);
      case Advance =>
        StepsKeepOutboxOk(s, e);
        AdvanceKeepsFlush(s);
      case _ => HandlingKeepsGateInv(s, e);
    }
  }

  lemma HandlingKeepsGateInv(s: World, e: Event)
    requires GateInv(s) && Enabled(s, e) && (e.TakeTransaction? || e.TakeCommand? || e.Reboot?)
    ensures GateInv(Next(s, e))
  {
    assert e.TakeCommand? ==> IsWakeUp(s.cmdQueue[e.process][0]);
    StepsKeepOutboxOk(s, e);
    StepCommutes(s, e);
    match e {
      case TakeTransaction(p) =>
        TakeTransactionKeepsPlaced(Flush(s), p);
        TakeTransactionKeepsGate(Flush(s), p);
      case TakeCommand(p) =>
        TakeCommandKeepsPlaced(Flush(s), p);
        OtherStepsKeepGate(Flush(s), e);
      case Reboot(p) =>
        RestartKeepsPlaced(Flush(s), p);
        OtherStepsKeepGate(Flush(s), e);
    }
  }

  lemma {:induction false} RunKeepsGate(s: World, es: seq<Event>, t: World)
    requires GateInv(s) && Reaches(s, es, t) && CarefulRun(s, es)
    ensures GateInv(t)
    decreases |es|
  {
    if es != [] {
      StepKeepsGateInv(s, es[0]);
      RunKeepsGate(Next(s, es[0]), es[1..], t);
    }
  }

  lemma InitialGate(s: World)
    requires Initial(s)
    ensures GateInv(s)
  {
    assert Flush(s) == s;
  }

  lemma GateGates(f: World)
    requires TxTyped(f.rows, f.txQueue) && Gate(f) && f.outbox == []
    ensures Gated(f)
  {
    forall p, i | 0 <= p < |f.executed| && 0 <= i < |f.executed[p]| - 1 && f.executed[p][i].GoOnHold?
      ensures NoMarkerLeft(f, f.executed[p][i].op)
    {
      forall q, j | 0 <= q < |f.txQueue| && 0 <= j < |f.txQueue[q]| && f.txQueue[q][j].MarkBlockingToOriginal?
        ensures f.txQueue[q][j].op != f.executed[p][i].op
      {
        assert f.rows[f.txQueue[q][j].worker.value].status == Blocking;
        assert AnyBlocking(f.rows);
        assert !IsNewestHold(f, f.executed[p][i]);
      }
    }
  }

  lemma GateInvGates(t: World)
    requires GateInv(t)
    ensures Gated(t)
  {
    GateGates(Flush(t));
    assert forall k: nat :: NoMarkerLeft(t, k) == NoMarkerLeft(Flush(t), k);
  }

  /** Every careful run is gated, at every moment, also while an operation is still publishing. */
  lemma GatingOrder(s: World, es: seq<Event>, t: World)
    requires Initial(s) && Reaches(s, es, t) && CarefulRun(s, es)
    ensures Gated(t)
  {
    InitialGate(s);
    RunKeepsGate(s, es, t);
    GateInvGates(t);
  }

  // ------------------------------------------------------------------ what was queued ahead

  /** Over a run the messages put on a queue keep their places, and what has run stays run. */
  lemma {:induction false} RunIsFifo(s: World, es: seq<Event>, t: World, q: nat)
    requires Reaches(s, es, t) && q < |s.txQueue| == |s.executed|
    ensures q < |t.txQueue| == |t.executed|
    ensures s.executed[q] <= t.executed[q] && History(s, q) <= History(t, q)
    decreases |es|
  {
    if es != [] {
      StepIsFifo(s, es[0], q);
      RunIsFifo(Next(s, es[0]), es[1..], t, q);
    }
  }

  /** A marker of an operation whose gate is open has run, and with it everything ahead of it. */
  lemma OpenGateRan(t: World, k: nat, q: nat, j: nat)
    requires NoMarkerLeft(t, k) && q < |t.txQueue| == |t.executed| && j < |History(t, q)|
    requires History(t, q)[j].MarkBlockingToOriginal? && History(t, q)[j].op == k
    ensures j < |t.executed[q]|
  {
    SendAllIsSent(t.txQueue, t.outbox);
    assert forall i :: 0 <= i < |t.txQueue[q]| ==> Flush(t).txQueue[q][i] == t.txQueue[q][i];
    assert forall i :: 0 <= i < |t.txQueue[q]| ==> History(t, q)[|t.executed[q]| + i] == t.txQueue[q][i];
    assert forall i :: 0 <= i < |t.txQueue[q]| && t.txQueue[q][i].MarkBlockingToOriginal? ==> t.txQueue[q][i].op != k;
  }

  /** The gating order, message by message.  Take a careful run through m to t, and a process p that has run a
      message behind the hold message i of some operation.  Then on every queue q, whatever stood at time m at or ahead of the
      place of a marker of that operation has run by time t. */
  lemma AheadOfMarkersHasRun(s: World, before: seq<Event>, m: World, after: seq<Event>, t: World, p: nat, i: nat, q: nat, j: nat)
    requires Initial(s) && Reaches(s, before, m) && Reaches(m, after, t)
    requires CarefulRun(s, before + after)
    requires p < |t.executed| && i < |t.executed[p]| - 1 && t.executed[p][i].GoOnHold?
    requires q < |t.txQueue| == |t.executed| && j < |History(t, q)|
    requires History(t, q)[j].MarkBlockingToOriginal? && History(t, q)[j].op == t.executed[p][i].op
    ensures q < |m.txQueue| == |m.executed|
    ensures forall l :: 0 <= l <= j && l < |History(m, q)| ==> l < |t.executed[q]| && t.executed[q][l] == History(m, q)[l]
  {
    ReachesAppend(s, before, m, after, t);
    GatingOrder(s, before + after, t);
    OpenGateRan(t, t.executed[p][i].op, q, j);
    SameQueues(s, before, m);
    SameQueues(m, after, t);
    RunIsFifo(m, after, t, q);
  }

  lemma {:induction false} SameQueues(s: World, es: seq<Event>, t: World)
    requires Reaches(s, es, t)
    ensures |t.txQueue| == |s.txQueue| && |t.executed| == |s.executed|
    decreases |es|
  {
    if es != [] {
      SameQueues(Next(s, es[0]), es[1..], t);
    }
  }
}
