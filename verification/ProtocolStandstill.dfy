/** How a process comes to stand still for good: a process that consumes neither its transaction queue nor anything from its
    command queue, and to which nobody will send a wake-up, leaves the whole protocol standing once the others are done. */
module ProtocolStandstill {
  import opened WorkerProtocol
  import opened ProtocolFlush
  import opened ProtocolOperations
  import opened ProtocolProgress

  /** A continuation of s without new operations ends in t. */
  ghost predicate Leads(s: World, t: World) {
    exists es :: NoOperation(es) && Reaches(s, es, t)
  }

  lemma LeadsNowhere(s: World)
    ensures Leads(s, s)
  {
    assert NoOperation([]) && Reaches(s, [], s);
  }

  lemma LeadsOn(s: World, t: World, u: World)
    requires Leads(s, t) && Leads(t, u)
    ensures Leads(s, u)
  {
    var a :| NoOperation(a) && Reaches(s, a, t);
    var b :| NoOperation(b) && Reaches(t, b, u);
    ReachesAppend(s, a, t, b, u);
    assert NoOperation(a + b);
  }

  lemma LeadsByStep(s: World, e: Event)
    requires Enabled(s, e) && !e.StartAssociate? && !e.StartDisassociate?
    ensures Leads(s, Next(s, e))
  {
    assert Reaches(s, [], s);
    OneStep(s, [], s, e, Next(s, e));
    assert NoOperation([] + [e]);
  }

  lemma LeadsToFlush(s: World)
    ensures Leads(s, Flush(s))
  {
    PublishAll(s);
    assert NoOperation(seq(|s.outbox|, i => Advance));
  }

  lemma LeadsToDeadlock(s: World, t: World)
    requires Leads(s, t) && Deadlocked(t)
    ensures CanDeadlock(s)
  {
    var es :| NoOperation(es) && Reaches(s, es, t);
  }

  // ------------------------------------------------------------------ commands

  predicate IsWakeUp(m: Message) {
    m.GoToOriginal? && m.original == Active
  }

  ghost predicate AllWakeUps(cmd: seq<seq<Message>>) {
    forall p, i :: 0 <= p < |cmd| && 0 <= i < |cmd[p]| ==> IsWakeUp(cmd[p][i])
  }

  ghost predicate NoWakeUps(tx: seq<seq<Message>>) {
    forall p, i :: 0 <= p < |tx| && 0 <= i < |tx[p]| ==> !tx[p][i].GoToOriginal?
  }

  lemma SentWakeUp(cmd: seq<seq<Message>>, p: nat, k: nat)
    requires AllWakeUps(cmd) && p < |cmd|
    ensures AllWakeUps(Send(cmd, p, GoToOriginal(k, Active)))
  {
  }

  lemma {:induction false} WakingSendsWakeUps(rows: seq<Row>, cmd: seq<seq<Message>>, k: nat, h: nat)
    requires k <= |rows| && AllWakeUps(cmd) && h < |cmd|
    ensures AllWakeUps(WakeHeld(rows, cmd, k))
    ensures NobodyOn(rows, h) ==> WakeHeld(rows, cmd, k)[h] == cmd[h]
    decreases |rows| - k
  {
    if k < |rows| {
      if rows[k].status != Hold {
        WakingSendsWakeUps(rows, cmd, k + 1, h);
      } else if rows[k].process.Some? && rows[k].process.value < |cmd| {
        SentWakeUp(cmd, rows[k].process.value, k);
        WakingSendsWakeUps(rows, Send(cmd, rows[k].process.value, GoToOriginal(k, Active)), k + 1, h);
      }
    }
  }

  /** A wake-up that finds its worker not on hold, or another one blocking. */
  predicate Inert(rows: seq<Row>, m: Message) {
    IsWakeUp(m) && (m.target >= |rows| || rows[m.target].status != Hold || AnyBlocking(rows))
  }

  /** A command queue of inert wake-ups can be worked off without effect. */
  lemma {:induction false} DrainInert(s: World, p: nat)
    requires p < |s.cmdQueue| && forall i :: 0 <= i < |s.cmdQueue[p]| ==> Inert(s.rows, s.cmdQueue[p][i])
    ensures Leads(s, s.(cmdQueue := s.cmdQueue[p := []]))
    decreases |s.cmdQueue[p]|
  {
    if s.cmdQueue[p] == [] {
      assert s.cmdQueue[p := []] == s.cmdQueue;
      LeadsNowhere(s);
    } else {
      assert Inert(s.rows, s.cmdQueue[p][0]);
      var t := Next(s, TakeCommand(p));
      assert t == PopCommand(s, p);
      LeadsByStep(s, TakeCommand(p));
      DrainInert(t, p);
      assert t.cmdQueue[p := []] == s.cmdQueue[p := []];
      LeadsOn(s, t, s.(cmdQueue := s.cmdQueue[p := []]));
    }
  }

  // ------------------------------------------------------------------ standing still

  ghost predicate Stuck(s: World, h: nat) {
    && s.outbox == [] && h < |s.txQueue| && h < |s.cmdQueue| && h < |s.consuming|
    && NoWakeUps(s.txQueue) && AllWakeUps(s.cmdQueue)
    && s.txQueue[h] != [] && !s.consuming[h] && s.cmdQueue[h] == []
    && (!AnyBlocking(s.rows) || NobodyOn(s.rows, h))
  }

  lemma TransactionKeepsStuck(s: World, h: nat, p: nat)
    requires Stuck(s, h) && Enabled(s, TakeTransaction(p))
    ensures Stuck(Next(s, TakeTransaction(p)), h)
  {
    var u := PopTransaction(s, p);
    PoppedNoWakeUps(s.txQueue, p);
    var m := s.txQueue[p][0];
    if m.MarkBlockingToOriginal? && m.worker.Some? && m.worker.value < |s.rows| && s.rows[m.worker.value].status == Blocking {
      var rows := s.rows[m.worker.value := s.rows[m.worker.value].(status := m.original)];
      assert NobodyOn(rows, h);
      WakingSendsWakeUps(rows, s.cmdQueue, 0, h);
    }
  }

  lemma PoppedNoWakeUps(tx: seq<seq<Message>>, p: nat)
    requires NoWakeUps(tx) && p < |tx| && tx[p] != []
    ensures NoWakeUps(tx[p := tx[p][1..]])
  {
    var ty: seq<seq<Message>> := tx[p := tx[p][1..]];
    forall q, i | 0 <= q < |ty| && 0 <= i < |ty[q]| ensures !ty[q][i].GoToOriginal? {
      assert ty[q][i] == tx[q][if q == p then i + 1 else i];
    }
  }

  lemma PoppedWakeUps(cmd: seq<seq<Message>>, p: nat)
    requires AllWakeUps(cmd) && p < |cmd| && cmd[p] != []
    ensures AllWakeUps(cmd[p := cmd[p][1..]])
  {
    var rest: seq<seq<Message>> := cmd[p := cmd[p][1..]];
    forall q, i | 0 <= q < |rest| && 0 <= i < |rest[q]| ensures IsWakeUp(rest[q][i]) {
      assert rest[q][i] == cmd[q][if q == p then i + 1 else i];
    }
  }

  lemma CommandKeepsStuck(s: World, h: nat, p: nat)
    requires Stuck(s, h) && Enabled(s, TakeCommand(p))
    ensures Stuck(Next(s, TakeCommand(p)), h)
  {
    PoppedWakeUps(s.cmdQueue, p);
    assert IsWakeUp(s.cmdQueue[p][0]);
  }

  /** Where one process is stuck, the others work off what they have, and then nothing moves any more. */
  lemma {:induction false} StuckLeadsToDeadlock(s: World, h: nat)
    requires Stuck(s, h)
    ensures CanDeadlock(s)
    decreases Rank(s)
  {
    if e :| IsProgress(e) && Enabled(s, e) {
      var t := Next(s, e);
      if e.TakeTransaction? {
        TransactionKeepsStuck(s, h, e.process);
      } else {
        CommandKeepsStuck(s, h, e.process);
        assert IsWakeUp(s.cmdQueue[e.process][0]);
      }
      StepRank(s, e);
      StuckLeadsToDeadlock(t, h);
      LeadsByStep(s, e);
      DeadlockAhead(s, t);
    } else {
      LeadsNowhere(s);
      LeadsToDeadlock(s, s);
    }
  }

  lemma DeadlockAhead(s: World, t: World)
    requires Leads(s, t) && CanDeadlock(t)
    ensures CanDeadlock(s)
  {
    var es, u :| NoOperation(es) && Reaches(t, es, u) && Deadlocked(u);
    assert Leads(t, u);
    LeadsOn(s, t, u);
    LeadsToDeadlock(s, u);
  }

  /** A transaction arriving at a process that does not consume makes it stuck. */
  lemma ArrivalSticks(s: World, h: nat)
    requires s.outbox == [] && h < |s.txQueue| && h < |s.cmdQueue| && h < |s.consuming|
    requires NoWakeUps(s.txQueue) && AllWakeUps(s.cmdQueue)
    requires !s.consuming[h] && s.cmdQueue[h] == [] && (!AnyBlocking(s.rows) || NobodyOn(s.rows, h))
    ensures CanDeadlock(s)
  {
    var t := Next(s, Arrive(h, 0));
    forall q, i | 0 <= q < |t.txQueue| && 0 <= i < |t.txQueue[q]| ensures !t.txQueue[q][i].GoToOriginal? {
      if i < |s.txQueue[q]| {
        assert t.txQueue[q][i] == s.txQueue[q][i];
      }
    }
    StuckLeadsToDeadlock(t, h);
    LeadsByStep(s, Arrive(h, 0));
    DeadlockAhead(s, t);
  }

  /** Where the invariant of harmless runs holds, no deadlock can follow without an operation. */
  lemma SafeCannotDeadlock(s: World)
    requires SafeInv(s)
    ensures !CanDeadlock(s)
  {
    if CanDeadlock(s) {
      var es, u :| NoOperation(es) && Reaches(s, es, u) && Deadlocked(u);
      NoOperationIsHarmless(s, es, u);
      RunKeepsSafeInv(s, es, u);
      var e := SomethingEnabled(u);
      assert false;
    }
  }
}
