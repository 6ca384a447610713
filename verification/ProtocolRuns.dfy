/** Orderly runs of the hold/block protocol: what holds in every world they reach. */
module ProtocolRuns {
  import opened Sequences
  import opened WorkerProtocol
  import opened ProtocolFlush
  import opened ProtocolInvariants
  import opened ProtocolOperations
  import opened ProtocolDisassociation

  /** Nothing queued, nothing in flight, every worker active or inactive, at most one on a process. */
  predicate Initial(s: World) {
    && s.outbox == [] && s.ops == 0
    && Shape(s) && Alone(s.rows)
    && (forall p :: 0 <= p < |s.txQueue| ==> s.txQueue[p] == [] && s.cmdQueue[p] == [] && s.executed[p] == [] && s.consuming[p])
    && (forall w :: 0 <= w < |s.rows| ==> !IsTemporary(s.rows[w]))
  }

  /** The two things an operator must look at before an operation: a disassociation is given its processes in
      ascending order of their workers' ids, and an association attaches no worker for which a wake-up still waits on
      the command queue of another process. */
  predicate Orderly(s: World, e: Event) {
    match e
    case StartAssociate(ps, allocatable) =>
      CanAssociate(s, ps, allocatable) ==> NoStaleWakeUp(s.cmdQueue, UsedWorkers(s.rows, ps), UsedProcesses(s.rows, ps))
    case StartDisassociate(ps) => CanDisassociate(s, ps) ==> Ascending(WorkersOn(s.rows, ps))
    case _ => true
  }

  ghost predicate OrderlyRun(s: World, es: seq<Event>)
    decreases |es|
  {
    es == [] || (Enabled(s, es[0]) && Orderly(s, es[0]) && OrderlyRun(Next(s, es[0]), es[1..]))
  }

  ghost predicate Inv(s: World) {
    OutboxOk(s) && Core(Flush(s))
  }

  // ------------------------------------------------------------------ every step keeps the invariant

  /** Among the attach actions a worker's hold message never precedes its attachment. */
  predicate AttachmentsFirst(todo: seq<Action>) {
    forall i, j :: 0 <= i < j < |todo| && todo[i].Publish? && todo[j].Attach? ==>
      !(todo[i].message.GoOnHold? && todo[i].message.target == todo[j].worker)
  }

  lemma {:induction false} AttachActionsOrdered(ws: seq<nat>, ps: seq<nat>, op: nat, n: nat)
    requires n <= |ws| && n <= |ps| && Distinct(ws)
    ensures AttachmentsFirst(AttachActions(ws, ps, op, n))
    ensures forall i :: 0 <= i < |AttachActions(ws, ps, op, n)| ==>
              var a := AttachActions(ws, ps, op, n)[i];
              if a.Attach? then a.worker in ws[..n] else a.message.GoOnHold? && a.message.target in ws[..n]
  {
    if n > 0 {
      AttachActionsOrdered(ws, ps, op, n - 1);
      assert ws[..n] == ws[..n - 1] + [ws[n - 1]];
      assert ws[n - 1] !in ws[..n - 1];
    }
  }

  /** No hold message is queued for a worker that can be associated. */
  ghost predicate AvailableUnmentioned(s: World) {
    forall w: nat :: w < |s.rows| && IsAvailable(s.rows[w]) ==> !Mentions(s.txQueue, w)
  }

  lemma AvailableUnmentionedInCore(s: World)
    requires Core(s)
    ensures AvailableUnmentioned(s)
  {
  }

  lemma AssociateOutboxOk(s: World, ps: seq<nat>, allocatable: set<nat>)
    requires s.outbox == [] && AvailableUnmentioned(s) && CanAssociate(s, ps, allocatable)
    ensures OutboxOk(Associate(s, ps, allocatable))
  {
    var avail, used := Available(s.rows, |s.rows|), UsedProcesses(s.rows, ps);
    AvailableMeaning(s.rows, |s.rows|);
    MarkerActionsPublish(s.rows, s.ops, |s.rows|);
    AttachActionsOrdered(avail, used, s.ops, |used|);
    var t := Associate(s, ps, allocatable);
    assert t.outbox == AttachActions(avail, used, s.ops, |used|) + MarkerActions(s.rows, s.ops, |s.rows|);
    forall w | w in avail[..|used|] ensures w < |t.rows| && t.rows[w].status == Active && !Mentions(t.txQueue, w) {
      assert w in avail;
    }
    assert AttachmentsFirst(t.outbox);
  }

  lemma DisassociateOutboxOk(s: World, ps: seq<nat>)
    requires s.outbox == [] && CanDisassociate(s, ps)
    ensures OutboxOk(Disassociate(s, ps))
  {
    var ids := WorkersOn(s.rows, ps);
    var keys := SortedKeys(ids, |s.rows|);
    DisassociateForm(s, ps);
    ReleaseActionsAt(s.rows, ps, keys, s.ops, |ps|);
    var rows := Detach(s.rows, ids);
    SiblingActionsHold(rows, s.ops, |rows|);
    assert forall i :: 0 <= i < |Disassociate(s, ps).outbox| ==> Disassociate(s, ps).outbox[i].Publish?;
  }

  lemma OperationsKeepInv(s: World, e: Event)
    requires Inv(s) && Enabled(s, e) && Orderly(s, e)
    requires e.StartAssociate? || e.StartDisassociate?
    ensures Inv(Next(s, e))
  {
    assert Flush(s) == s;
    match e {
      case StartAssociate(ps, allocatable) =>
        if CanAssociate(s, ps, allocatable) {
          AvailableUnmentionedInCore(s);
          AssociateOutboxOk(s, ps, allocatable);
          AssociateHasEffect(s, ps, allocatable);
          AssociateKeepsCore(s, Flush(Next(s, e)), UsedWorkers(s.rows, ps), UsedProcesses(s.rows, ps));
        }
      case StartDisassociate(ps) =>
        if CanDisassociate(s, ps) {
          DisassociateOutboxOk(s, ps);
          DisassociateHasEffect(s, ps);
          DisassociateKeepsCore(s, Flush(Next(s, e)), WorkersOn(s.rows, ps), ps);
        }
    }
  }

  lemma StepsKeepOutboxOk(s: World, e: Event)
    requires OutboxOk(s) && Enabled(s, e)
    requires !e.StartAssociate? && !e.StartDisassociate?
    requires e.TakeCommand? ==> s.cmdQueue[e.process][0].GoToOriginal?
    ensures OutboxOk(Next(s, e))
  {
    var t := Next(s, e);
    forall w | 0 <= w < |t.rows| && w < |s.rows| && s.rows[w].status == Active && !Mentions(s.txQueue, w)
      ensures t.rows[w].status == Active
      ensures Mentions(t.txQueue, w) ==>
                e == Advance && s.outbox[0].Publish? && s.outbox[0].message.GoOnHold? && s.outbox[0].message.target == w
    {
      StepLeavesUnmentioned(s, e, w);
    }
    assert t.outbox == if e == Advance then s.outbox[1..] else s.outbox;
  }

  lemma StepLeavesUnmentioned(s: World, e: Event, w: nat)
    requires Enabled(s, e) && !e.StartAssociate? && !e.StartDisassociate?
    requires e.TakeCommand? ==> s.cmdQueue[e.process][0].GoToOriginal?
    requires w < |s.rows| && s.rows[w].status == Active && !Mentions(s.txQueue, w)
    ensures |Next(s, e).rows| == |s.rows| && Next(s, e).rows[w].status == Active
    ensures Mentions(Next(s, e).txQueue, w) ==>
              e == Advance && s.outbox[0].Publish? && s.outbox[0].message.GoOnHold? && s.outbox[0].message.target == w
  {
    var t := Next(s, e);
    match e {
      case TakeTransaction(p) =>
        assert s.txQueue[p][0].GoOnHold? ==> s.txQueue[p][0].target != w;
        forall q, i | 0 <= q < |t.txQueue| && 0 <= i < |t.txQueue[q]| && t.txQueue[q][i].GoOnHold?
          ensures t.txQueue[q][i].target != w
        {
          assert t.txQueue[q][i] == s.txQueue[q][if q == p then i + 1 else i];
        }
      case Arrive(p, id) =>
        forall q, i | 0 <= q < |t.txQueue| && 0 <= i < |t.txQueue[q]| && t.txQueue[q][i].GoOnHold?
          ensures t.txQueue[q][i].target != w
        {
          assert i < |s.txQueue[q]| && t.txQueue[q][i] == s.txQueue[q][i];
        }
      case Advance =>
        if Mentions(t.txQueue, w) {
          var q, i :| 0 <= q < |t.txQueue| && 0 <= i < |t.txQueue[q]| && t.txQueue[q][i].GoOnHold? && t.txQueue[q][i].target == w;
        }
      case _ =>
    }
  }

  lemma StepKeepsInv(s: World, e: Event)
    requires Inv(s) && Enabled(s, e) && Orderly(s, e)
    ensures Inv(Next(s, e))
  {
    if e.StartAssociate? || e.StartDisassociate? {
      OperationsKeepInv(s, e);
    } else {
      StepsKeepOutboxOk(s, e);
      match e {
        case Arrive(p, id) =>
          ArrivalIsInsertion(s, p, id);
          InsertionKeepsCore(Flush(s), p, |s.txQueue[p]|, id);
        case Advance => AdvanceKeepsFlush(s);
        case TakeTransaction(p) =>
          PopTransactionCommutes(s, p);
          TakeTransactionKeepsCore(Flush(s), p);
          ExecuteAfterPop(s, p);
        case TakeCommand(p) =>
          GoToOriginalKeepsCore(Flush(s), p);
          ExecuteCommutes(PopCommand(s, p), p, s.cmdQueue[p][0]);
        case Reboot(p) =>
          RestartCommutes(s, p);
          RestartKeepsCore(Flush(s), p);
      }
    }
  }

  lemma ExecuteAfterPop(s: World, p: nat)
    requires OutboxOk(s) && Enabled(s, TakeTransaction(p))
    requires Enabled(Flush(s), TakeTransaction(p)) && Flush(s).txQueue[p][0] == s.txQueue[p][0]
    requires PopTransaction(Flush(s), p) == Flush(PopTransaction(s, p))
    ensures Next(Flush(s), TakeTransaction(p)) == Flush(Next(s, TakeTransaction(p)))
  {
    var u := PopTransaction(s, p);
    forall w: nat | Mentions(u.txQueue, w) ensures Mentions(s.txQueue, w) {
      var q, i :| 0 <= q < |u.txQueue| && 0 <= i < |u.txQueue[q]| && u.txQueue[q][i].GoOnHold? && u.txQueue[q][i].target == w;
      assert u.txQueue[q][i] == s.txQueue[q][if q == p then i + 1 else i];
    }
    var m := s.txQueue[p][0];
    if m.GoOnHold? {
      assert Mentions(s.txQueue, m.target);
    }
    ExecuteCommutes(u, p, m);
  }

  lemma InitialKeepsInv(s: World)
    requires Initial(s)
    ensures Inv(s)
  {
  }

  lemma {:induction false} RunKeepsInv(s: World, es: seq<Event>, t: World)
    requires Inv(s) && Reaches(s, es, t) && OrderlyRun(s, es)
    ensures Inv(t)
    decreases |es|
  {
    if es != [] {
      StepKeepsInv(s, es[0]);
      RunKeepsInv(Next(s, es[0]), es[1..], t);
    }
  }

  // ------------------------------------------------------------------ who is where

  /** A worker that an association may pick has no marker and no hold message left anywhere: a disassociated worker is
      offered again only after its marker has been handled. */
  lemma OfferedAfterMarker(s: World, es: seq<Event>, t: World, w: nat)
    requires Initial(s) && Reaches(s, es, t) && OrderlyRun(s, es) && t.outbox == []
    requires w in Available(t.rows, |t.rows|)
    ensures forall p :: 0 <= p < |t.txQueue| ==> !MarkerFrom(t.txQueue[p], w, 0)
    ensures !Mentions(t.txQueue, w)
  {
    InitialKeepsInv(s);
    RunKeepsInv(s, es, t);
    assert Flush(t) == t;
    AvailableMeaning(t.rows, |t.rows|);
  }

  /** Handlers, restarts, arrivals and publications move no worker: the processes a disassociation finds for the
      siblings after its markers are out are the ones it would have found when it started. */
  lemma OnlyOperationsMove(s: World, e: Event, w: nat)
    requires Enabled(s, e) && !e.StartAssociate? && !e.StartDisassociate? && w < |s.rows|
    requires e == Advance ==> s.outbox[0].Publish?
    ensures |Next(s, e).rows| == |s.rows| && Next(s, e).rows[w].process == s.rows[w].process
  {
  }
}
