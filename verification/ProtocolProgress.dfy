/** Runs of the hold/block protocol in which no operation is dangerous: no lost wake-up, no deadlock, and draining. */
module ProtocolProgress {
  import opened WorkerProtocol
  import opened ProtocolFlush
  import opened ProtocolInvariants
  import opened ProtocolOperations
  import opened ProtocolRuns
  import opened ProtocolSafety
  import opened ProtocolDanger
  import opened ProtocolMispairing

  /** An accepted operation is started in a settled world, and is not dangerous. */
  ghost predicate Harmless(s: World, e: Event) {
    match e
    case StartAssociate(ps, allocatable) => CanAssociate(s, ps, allocatable) ==> Settled(s) && !DangerousAssociation(s, ps, allocatable)
    case StartDisassociate(ps) => CanDisassociate(s, ps) ==> Settled(s) && !DangerousDisassociation(s, ps)
    case _ => true
  }

  ghost predicate HarmlessRun(s: World, es: seq<Event>)
    decreases |es|
  {
    es == [] || (Enabled(s, es[0]) && Harmless(s, es[0]) && HarmlessRun(Next(s, es[0]), es[1..]))
  }

  ghost predicate SafeInv(s: World) {
    OutboxOk(s) && Safe(Flush(s))
  }

  // ------------------------------------------------------------------ every step keeps the invariant

  lemma HarmlessOperationKeepsSafeInv(s: World, e: Event)
    requires SafeInv(s) && Enabled(s, e) && Harmless(s, e)
    requires e.StartAssociate? || e.StartDisassociate?
    ensures SafeInv(Next(s, e))
  {
    assert Flush(s) == s;
    match e {
      case StartAssociate(ps, allocatable) =>
        if CanAssociate(s, ps, allocatable) {
          SettledIsCore(s);
          AvailableUnmentionedInCore(s);
          AssociateOutboxOk(s, ps, allocatable);
          HarmlessAssociation(s, ps, allocatable);
        }
      case StartDisassociate(ps) =>
        if CanDisassociate(s, ps) {
          SettledIsCore(s);
          DisassociateOutboxOk(s, ps);
          HarmlessDisassociation(s, ps);
        }
    }
  }

  lemma SafeCommandsAreWakeUps(s: World)
    requires SafeInv(s)
    ensures forall p, i :: 0 <= p < |s.cmdQueue| && 0 <= i < |s.cmdQueue[p]| ==> s.cmdQueue[p][i].GoToOriginal?
  {
    forall p, i | 0 <= p < |s.cmdQueue| && 0 <= i < |s.cmdQueue[p]| ensures s.cmdQueue[p][i].GoToOriginal? {
      assert CommandOk(Flush(s).rows, Flush(s).txQueue, p, s.cmdQueue[p][i]);
    }
  }

  lemma StepKeepsSafeInv(s: World, e: Event)
    requires SafeInv(s) && Enabled(s, e) && Harmless(s, e)
    ensures SafeInv(Next(s, e))
  {
    if e.StartAssociate? || e.StartDisassociate? {
      HarmlessOperationKeepsSafeInv(s, e);
    } else {
      SafeCommandsAreWakeUps(s);
      StepsKeepOutboxOk(s, e);
      match e {
        case Arrive(p, id) =>
          ArrivalIsInsertion(s, p, id);
          ArrivalKeepsSafe(Flush(s), p, |s.txQueue[p]|, id);
        case Advance => AdvanceKeepsFlush(s);
        case TakeTransaction(p) =>
          PopTransactionCommutes(s, p);
          TakeTransactionKeepsSafe(Flush(s), p);
          ExecuteAfterPop(s, p);
        case TakeCommand(p) =>
          TakeCommandKeepsSafe(Flush(s), p);
          ExecuteCommutes(PopCommand(s, p), p, s.cmdQueue[p][0]);
        case Reboot(p) =>
          RestartCommutes(s, p);
          RestartKeepsSafe(Flush(s), p);
      }
    }
  }

  lemma {:induction false} RunKeepsSafeInv(s: World, es: seq<Event>, t: World)
    requires SafeInv(s) && Reaches(s, es, t) && HarmlessRun(s, es)
    ensures SafeInv(t)
    decreases |es|
  {
    if es != [] {
      StepKeepsSafeInv(s, es[0]);
      RunKeepsSafeInv(Next(s, es[0]), es[1..], t);
    }
  }

  lemma InvIsSafe(s: World)
    requires Inv(s)
    ensures SafeInv(s)
  {
    CoreIsSafe(Flush(s));
  }

  lemma InitialIsSafe(s: World)
    requires Initial(s)
    ensures SafeInv(s)
  {
    InitialKeepsInv(s);
    InvIsSafe(s);
  }

  lemma OrderlyIsHarmless(s: World, e: Event)
    requires Inv(s) && Enabled(s, e) && Orderly(s, e)
    ensures Harmless(s, e)
  {
    if e.StartAssociate? || e.StartDisassociate? {
      assert Flush(s) == s;
      CoreIsSafe(s);
      if e.StartDisassociate? && CanDisassociate(s, e.processes) {
        AscendingIsHarmless(s, e.processes);
      }
    }
  }

  /** Orderly runs are among the runs without danger. */
  lemma {:induction false} OrderlyRunIsHarmless(s: World, es: seq<Event>, t: World)
    requires Inv(s) && Reaches(s, es, t) && OrderlyRun(s, es)
    ensures HarmlessRun(s, es)
    decreases |es|
  {
    if es != [] {
      OrderlyIsHarmless(s, es[0]);
      StepKeepsInv(s, es[0]);
      OrderlyRunIsHarmless(Next(s, es[0]), es[1..], t);
    }
  }

  /** And whenever an orderly run has nothing in flight, the world it has reached is settled. */
  lemma OrderlyReachesSettled(s: World, es: seq<Event>, t: World)
    requires Initial(s) && Reaches(s, es, t) && OrderlyRun(s, es)
    ensures HarmlessRun(s, es)
    ensures t.outbox == [] ==> Settled(t)
  {
    InitialKeepsInv(s);
    OrderlyRunIsHarmless(s, es, t);
    RunKeepsInv(s, es, t);
    CoreIsSafe(Flush(t));
  }

  lemma {:induction false} NoOperationIsHarmless(s: World, es: seq<Event>, t: World)
    requires Reaches(s, es, t) && NoOperation(es)
    ensures HarmlessRun(s, es)
    decreases |es|
  {
    if es != [] {
      NoOperationIsHarmless(Next(s, es[0]), es[1..], t);
    }
  }

  // ------------------------------------------------------------------ no lost wake-up, no deadlock

  /** The marker of some blocking worker stands in the transaction queue of a process that consumes it. */
  ghost predicate MarkerWillRun(t: World)
    requires |t.consuming| == |t.txQueue|
  {
    exists b, p :: 0 <= b < |t.rows| && t.rows[b].status == Blocking && 0 <= p < |t.txQueue| && MarkerFrom(t.txQueue[p], b, 0) && t.consuming[p]
  }

  /** In every world a run without danger reaches with no operation in flight, after any number of restarts, a held worker's
      process stands still, and either its wake-up waits on that process's command queue or a blocking worker's marker
      waits in the queue of a consuming process. */
  lemma NoLostWakeUp(s: World, es: seq<Event>, t: World, w: nat)
    requires Initial(s) && Reaches(s, es, t) && HarmlessRun(s, es) && t.outbox == []
    requires w < |t.rows| && t.rows[w].status == Hold
    ensures |t.consuming| == |t.txQueue| == |t.cmdQueue|
    ensures t.rows[w].process.Some? && t.rows[w].process.value < |t.consuming| && !t.consuming[t.rows[w].process.value]
    ensures GoToOriginal(w, Active) in t.cmdQueue[t.rows[w].process.value] || MarkerWillRun(t)
  {
    InitialIsSafe(s);
    RunKeepsSafeInv(s, es, t);
    assert Flush(t) == t;
    assert AnyHeldOn(t.rows, t.rows[w].process.value);
    if AnyBlocking(t.rows) {
      BlockingMarkerRuns(t);
    }
  }

  lemma BlockingMarkerRuns(f: World)
    requires Safe(f) && AnyBlocking(f.rows)
    ensures MarkerWillRun(f)
  {
    var b :| 0 <= b < |f.rows| && f.rows[b].status == Blocking;
    var p :| 0 <= p < |f.txQueue| && MarkerFrom(f.txQueue[p], b, 0);
    var i :| 0 <= i < |f.txQueue[p]| && IsMarkerFor(f.txQueue[p][i], b);
    assert RealMarker(f.txQueue[p][i]);
  }

  /** While anything is queued or in flight, some process or the operation in flight can take a step. */
  lemma NoDeadlock(s: World, es: seq<Event>, t: World) returns (e: Event)
    requires Initial(s) && Reaches(s, es, t) && HarmlessRun(s, es) && AnythingLeft(t)
    ensures IsProgress(e) && Enabled(t, e)
  {
    InitialIsSafe(s);
    RunKeepsSafeInv(s, es, t);
    e := SomethingEnabled(t);
  }

  lemma SomethingEnabled(t: World) returns (e: Event)
    requires SafeInv(t) && AnythingLeft(t)
    ensures IsProgress(e) && Enabled(t, e)
  {
    if t.outbox != [] {
      return Advance;
    }
    assert Flush(t) == t;
    if c :| 0 <= c < |t.cmdQueue| && t.cmdQueue[c] != [] {
      return TakeCommand(c);
    }
    var p :| 0 <= p < |t.txQueue| && t.txQueue[p] != [];
    if t.consuming[p] {
      return TakeTransaction(p);
    }
    assert AnyHeldOn(t.rows, p) && AnyBlocking(t.rows);
    BlockingMarkerRuns(t);
    var q :| 0 <= q < |t.txQueue| && t.txQueue[q] != [] && t.consuming[q];
    return TakeTransaction(q);
  }

  // ------------------------------------------------------------------ draining

  function TotalLength(queues: seq<seq<Message>>): (n: nat)
  {
    if queues == [] then 0 else TotalLength(queues[..|queues| - 1]) + |queues[|queues| - 1]|
  }

  lemma {:induction false} TotalLengthUpdate(queues: seq<seq<Message>>, p: nat, queue: seq<Message>)
    requires p < |queues|
    ensures TotalLength(queues[p := queue]) == TotalLength(queues) - |queues[p]| + |queue|
  {
    var n := |queues| - 1;
    var changed := queues[p := queue];
    if p == n {
      assert changed[..n] == queues[..n];
    } else {
      assert changed[..n] == queues[..n][p := queue];
      TotalLengthUpdate(queues[..n], p, queue);
    }
  }

  /** What is left to do: every message on a transaction queue may wake each worker once, every remaining action may
      become such a message, and a wake-up counts least. */
  function Rank(s: World): (n: nat)
  {
    Times(|s.rows| + 1, 2 * |s.outbox| + TotalLength(s.txQueue)) + TotalLength(s.cmdQueue)
  }

  function Times(c: nat, n: nat): (r: nat)
  {
    if n == 0 then 0 else Times(c, n - 1) + c
  }

  lemma {:induction false} TimesLess(c: nat, a: nat, b: nat)
    requires a < b
    ensures Times(c, a) + c <= Times(c, b)
  {
    if a < b - 1 {
      TimesLess(c, a, b - 1);
    }
  }

  lemma {:induction false} WakeHeldLength(rows: seq<Row>, cmd: seq<seq<Message>>, k: nat)
    requires k <= |rows|
    ensures TotalLength(WakeHeld(rows, cmd, k)) <= TotalLength(cmd) + (|rows| - k)
    decreases |rows| - k
  {
    if k < |rows| {
      if rows[k].status != Hold {
        WakeHeldLength(rows, cmd, k + 1);
      } else if rows[k].process.Some? && rows[k].process.value < |cmd| {
        var p := rows[k].process.value;
        var m := GoToOriginal(k, Active);
        TotalLengthUpdate(cmd, p, cmd[p] + [m]);
        WakeHeldLength(rows, Send(cmd, p, m), k + 1);
      }
    }
  }

  lemma HandleLength(s: World, m: Message)
    ensures var t := Handle(s, m).0;
            && |t.rows| == |s.rows| && t.txQueue == s.txQueue && t.outbox == s.outbox
            && TotalLength(t.cmdQueue) <= TotalLength(s.cmdQueue) + (if m.MarkBlockingToOriginal? then |s.rows| else 0)
  {
    if m.MarkBlockingToOriginal? && m.worker.Some? && m.worker.value < |s.rows| {
      WakeHeldLength(s.rows[m.worker.value := s.rows[m.worker.value].(status := m.original)], s.cmdQueue, 0);
    }
  }

  lemma AdvanceLowersRank(s: World)
    requires s.outbox != []
    ensures Rank(Next(s, Advance)) < Rank(s)
  {
    var t := Next(s, Advance);
    if s.outbox[0].Publish? && s.outbox[0].process < |s.txQueue| {
      TotalLengthUpdate(s.txQueue, s.outbox[0].process, s.txQueue[s.outbox[0].process] + [s.outbox[0].message]);
    }
    TimesLess(|s.rows| + 1, 2 * |t.outbox| + TotalLength(t.txQueue), 2 * |s.outbox| + TotalLength(s.txQueue));
  }

  lemma TransactionLowersRank(s: World, p: nat)
    requires Enabled(s, TakeTransaction(p))
    ensures Rank(Next(s, TakeTransaction(p))) < Rank(s)
  {
    var t := Next(s, TakeTransaction(p));
    TotalLengthUpdate(s.txQueue, p, s.txQueue[p][1..]);
    HandleLength(PopTransaction(s, p), s.txQueue[p][0]);
    TimesLess(|s.rows| + 1, 2 * |t.outbox| + TotalLength(t.txQueue), 2 * |s.outbox| + TotalLength(s.txQueue));
  }

  lemma StepRank(s: World, e: Event)
    requires Enabled(s, e) && (IsProgress(e) || e.Reboot?)
    requires e.TakeCommand? ==> !s.cmdQueue[e.process][0].MarkBlockingToOriginal?
    ensures Rank(Next(s, e)) + (if IsProgress(e) then 1 else 0) <= Rank(s)
  {
    match e {
      case Advance => AdvanceLowersRank(s);
      case TakeTransaction(p) => TransactionLowersRank(s, p);
      case TakeCommand(p) =>
        TotalLengthUpdate(s.cmdQueue, p, s.cmdQueue[p][1..]);
        HandleLength(PopCommand(s, p), s.cmdQueue[p][0]);
      case _ =>
    }
  }

  /** The number of working-off events in a run. */
  function ProgressCount(es: seq<Event>): (n: nat)
  {
    if es == [] then 0 else (if IsProgress(es[0]) then 1 else 0) + ProgressCount(es[1..])
  }

  predicate NothingNew(es: seq<Event>) {
    forall i :: 0 <= i < |es| ==> IsProgress(es[i]) || es[i].Reboot?
  }

  lemma NothingNewLater(es: seq<Event>)
    requires NothingNew(es) && es != []
    ensures NothingNew(es[1..])
  {
  }

  /** With no new operation and no new transaction, a run takes at most Rank(s) working-off steps, however many
      restarts come between them. */
  lemma {:induction false} Draining(s: World, es: seq<Event>, t: World)
    requires SafeInv(s) && Reaches(s, es, t) && NothingNew(es)
    ensures SafeInv(t) && ProgressCount(es) + Rank(t) <= Rank(s)
    decreases |es|
  {
    if es != [] {
      assert IsProgress(es[0]) || es[0].Reboot?;
      StepKeepsSafeInv(s, es[0]);
      SafeCommandsAreWakeUps(s);
      StepRank(s, es[0]);
      NothingNewLater(es);
      Draining(Next(s, es[0]), es[1..], t);
    }
  }

  /** Once a run without danger has nothing left to work off, no worker is on hold or blocking and every process consumes its
      transaction queue; the world is settled, ready for the next operation. */
  lemma DrainedIsNormal(s: World, es: seq<Event>, t: World)
    requires Initial(s) && Reaches(s, es, t) && HarmlessRun(s, es) && !AnythingLeft(t)
    ensures forall w :: 0 <= w < |t.rows| ==> !IsTemporary(t.rows[w])
    ensures forall p :: 0 <= p < |t.consuming| ==> t.consuming[p]
    ensures Settled(t)
  {
    InitialIsSafe(s);
    RunKeepsSafeInv(s, es, t);
    NothingLeftIsNormal(t);
  }

  lemma NothingLeftIsNormal(t: World)
    requires SafeInv(t) && !AnythingLeft(t)
    ensures forall w :: 0 <= w < |t.rows| ==> !IsTemporary(t.rows[w])
    ensures forall p :: 0 <= p < |t.consuming| ==> t.consuming[p]
    ensures Settled(t)
  {
    assert Flush(t) == t;
    if AnyBlocking(t.rows) {
      BlockingMarkerRuns(t);
    }
    assert forall p :: 0 <= p < |t.cmdQueue| ==> t.cmdQueue[p] == [];
  }

  /** Every run without danger keeps at most one worker on a process and, once the operation has published, exactly one marker
      outstanding for each blocking worker and none for any other. */
  lemma OneWorkerOneMarker(s: World, es: seq<Event>, t: World, w: nat)
    requires Initial(s) && Reaches(s, es, t) && HarmlessRun(s, es) && t.outbox == [] && w < |t.rows|
    ensures Alone(t.rows)
    ensures t.rows[w].status == Blocking <==> exists p :: 0 <= p < |t.txQueue| && MarkerFrom(t.txQueue[p], w, 0)
    ensures MarkersUnique(t.txQueue)
  {
    InitialIsSafe(s);
    RunKeepsSafeInv(s, es, t);
    assert Flush(t) == t;
  }
}
