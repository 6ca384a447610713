/** An operation's remaining updates and publications may be done at once: `Flush` does them, and every handler and
    every restart gives the same world before and after flushing.  The invariants are therefore stated and proved on
    flushed worlds, with no operation in flight. */
module ProtocolFlush {
  import opened Wrappers
  import opened WorkerProtocol

  function AttachOne(rows: seq<Row>, a: Action): (r: seq<Row>)
  {
    if a.Attach? && a.worker < |rows| then rows[a.worker := rows[a.worker].(process := Some(a.process))] else rows
  }

  function AttachAll(rows: seq<Row>, todo: seq<Action>): (r: seq<Row>)
    ensures |r| == |rows|
    ensures forall w :: 0 <= w < |rows| ==> r[w].status == rows[w].status && r[w].funded == rows[w].funded
    decreases |todo|
  {
    if todo == [] then rows
    else AttachAll(AttachOne(rows, todo[0]), todo[1..])
  }

  function SendAll(queues: seq<seq<Message>>, todo: seq<Action>): (r: seq<seq<Message>>)
    ensures |r| == |queues|
    decreases |todo|
  {
    if todo == [] then queues
    else
      var a := todo[0];
      SendAll(if a.Publish? then Send(queues, a.process, a.message) else queues, todo[1..])
  }

  /** The messages the actions publish to process p. */
  function Sent(todo: seq<Action>, p: nat): (ms: seq<Message>)
  {
    if todo == [] then []
    else if todo[0].Publish? && todo[0].process == p then [todo[0].message] + Sent(todo[1..], p)
    else Sent(todo[1..], p)
  }

  function Flush(s: World): (t: World)
  {
    s.(rows := AttachAll(s.rows, s.outbox), txQueue := SendAll(s.txQueue, s.outbox), outbox := [])
  }

  lemma {:induction false} SendAllIsSent(queues: seq<seq<Message>>, todo: seq<Action>)
    ensures forall p :: 0 <= p < |queues| ==> SendAll(queues, todo)[p] == queues[p] + Sent(todo, p)
    decreases |todo|
  {
    if todo != [] {
      var a := todo[0];
      SendAllIsSent(if a.Publish? then Send(queues, a.process, a.message) else queues, todo[1..]);
      forall p | 0 <= p < |queues| ensures SendAll(queues, todo)[p] == queues[p] + Sent(todo, p) {
        if a.Publish? && a.process == p {
          assert (queues[p] + [a.message]) + Sent(todo[1..], p) == queues[p] + ([a.message] + Sent(todo[1..], p));
        }
      }
    }
  }

  lemma {:induction false} SentAppend(a: seq<Action>, b: seq<Action>, p: nat)
    ensures Sent(a + b, p) == Sent(a, p) + Sent(b, p)
  {
    if a == [] {
      assert a + b == b;
    } else {
      assert (a + b)[1..] == a[1..] + b;
      SentAppend(a[1..], b, p);
    }
  }

  lemma {:induction false} AttachAllAppend(rows: seq<Row>, a: seq<Action>, b: seq<Action>)
    ensures AttachAll(rows, a + b) == AttachAll(AttachAll(rows, a), b)
    decreases |a|
  {
    if a == [] {
      assert a + b == b;
    } else {
      assert (a + b)[1..] == a[1..] + b;
      AttachAllAppend(AttachOne(rows, a[0]), a[1..], b);
    }
  }

  lemma {:induction false} AttachAllPublications(rows: seq<Row>, todo: seq<Action>)
    requires forall i :: 0 <= i < |todo| ==> todo[i].Publish?
    ensures AttachAll(rows, todo) == rows
  {
    if todo != [] {
      AttachAllPublications(rows, todo[1..]);
    }
  }

  /** Doing the next action changes nothing about the flushed world. */
  lemma AdvanceKeepsFlush(s: World)
    requires s.outbox != []
    ensures Flush(Next(s, Advance)) == Flush(s)
  {
  }

  lemma {:induction false} PublishAll(s: World)
    ensures Reaches(s, seq(|s.outbox|, i => Advance), Flush(s))
    decreases |s.outbox|
  {
    if s.outbox != [] {
      var es := seq(|s.outbox|, i => Advance);
      PublishAll(Next(s, Advance));
      assert es[1..] == seq(|s.outbox| - 1, i => Advance);
    } else {
      assert seq(|s.outbox|, i => Advance) == [];
    }
  }

  lemma Published(s: World, es: seq<Event>, t: World, u: World) returns (more: seq<Event>)
    requires Reaches(s, es, t) && u == Flush(t)
    ensures Reaches(s, more, u)
  {
    PublishAll(t);
    more := es + seq(|t.outbox|, i => Advance);
    ReachesAppend(s, es, t, seq(|t.outbox|, i => Advance), u);
  }

  // ------------------------------------------------------------------ handlers commute with flushing

  predicate PendingAttach(todo: seq<Action>, w: nat) {
    exists i :: 0 <= i < |todo| && todo[i].Attach? && todo[i].worker == w
  }

  predicate Mentions(queues: seq<seq<Message>>, w: nat) {
    exists p, i :: 0 <= p < |queues| && 0 <= i < |queues[p]| && queues[p][i].GoOnHold? && queues[p][i].target == w
  }

  /** A worker the operation has still to attach is active, and its hold message is published after the attachment. */
  ghost predicate OutboxOk(s: World) {
    && (forall i :: 0 <= i < |s.outbox| && s.outbox[i].Attach? ==>
          && s.outbox[i].worker < |s.rows|
          && s.rows[s.outbox[i].worker].status == Active
          && !Mentions(s.txQueue, s.outbox[i].worker))
    && (forall i, j :: 0 <= i < j < |s.outbox| && s.outbox[i].Publish? && s.outbox[j].Attach? ==>
          !(s.outbox[i].message.GoOnHold? && s.outbox[i].message.target == s.outbox[j].worker))
  }

  lemma {:induction false} AttachAllUntouched(rows: seq<Row>, todo: seq<Action>, w: nat)
    requires w < |rows| && !PendingAttach(todo, w)
    ensures AttachAll(rows, todo)[w] == rows[w]
    decreases |todo|
  {
    if todo != [] {
      assert todo[0].Attach? ==> todo[0].worker != w;
      AttachAllUntouched(AttachOne(rows, todo[0]), todo[1..], w);
    }
  }

  lemma {:induction false} AttachAllSetStatus(rows: seq<Row>, todo: seq<Action>, w: nat, status: Status)
    requires w < |rows|
    ensures AttachAll(rows[w := rows[w].(status := status)], todo)
         == AttachAll(rows, todo)[w := AttachAll(rows, todo)[w].(status := status)]
    decreases |todo|
  {
    if todo != [] {
      var next := AttachOne(rows, todo[0]);
      assert AttachOne(rows[w := rows[w].(status := status)], todo[0]) == next[w := next[w].(status := status)];
      AttachAllSetStatus(next, todo[1..], w, status);
    }
  }

  lemma AttachAllKeepsBlocking(rows: seq<Row>, todo: seq<Action>)
    ensures AnyBlocking(AttachAll(rows, todo)) == AnyBlocking(rows)
  {
    var r := AttachAll(rows, todo);
    if AnyBlocking(rows) {
      var w :| 0 <= w < |rows| && rows[w].status == Blocking;
      assert r[w].status == Blocking;
    }
  }

  lemma {:induction false} WakeHeldSame(rows: seq<Row>, other: seq<Row>, cmd: seq<seq<Message>>, k: nat)
    requires k <= |rows| == |other|
    requires forall w :: 0 <= w < |rows| ==> rows[w].status == other[w].status
    requires forall w :: 0 <= w < |rows| && rows[w].status == Hold ==> rows[w].process == other[w].process
    ensures WakeHeld(rows, cmd, k) == WakeHeld(other, cmd, k)
    decreases |rows| - k
  {
    if k < |rows| {
      if rows[k].status != Hold {
        WakeHeldSame(rows, other, cmd, k + 1);
      } else if rows[k].process.Some? && rows[k].process.value < |cmd| {
        WakeHeldSame(rows, other, Send(cmd, rows[k].process.value, GoToOriginal(k, Active)), k + 1);
      }
    }
  }

  lemma HeldRowsUntouched(rows: seq<Row>, todo: seq<Action>)
    requires forall i :: 0 <= i < |todo| && todo[i].Attach? ==>
               todo[i].worker < |rows| && rows[todo[i].worker].status == Active
    ensures forall w :: 0 <= w < |rows| && rows[w].status != Active ==> AttachAll(rows, todo)[w] == rows[w]
  {
    forall w | 0 <= w < |rows| && rows[w].status != Active ensures AttachAll(rows, todo)[w] == rows[w] {
      AttachAllUntouched(rows, todo, w);
    }
  }

  lemma HandleCommutes(s: World, m: Message)
    requires OutboxOk(s)
    requires m.GoOnHold? ==> !PendingAttach(s.outbox, m.target)
    ensures Handle(Flush(s), m) == (Flush(Handle(s, m).0), Handle(s, m).1)
    ensures Handle(s, m).0.outbox == s.outbox && Handle(s, m).0.txQueue == s.txQueue
  {
    AttachAllKeepsBlocking(s.rows, s.outbox);
    match m
    case Transaction(_) =>
    case MarkBlockingToOriginal(worker, original, _) =>
      if worker.Some? && worker.value < |s.rows| && s.rows[worker.value].status == Blocking {
        var rows := s.rows[worker.value := s.rows[worker.value].(status := original)];
        AttachAllSetStatus(s.rows, s.outbox, worker.value, original);
        HeldRowsUntouched(s.rows, s.outbox);
        forall w | 0 <= w < |rows| && rows[w].status == Hold
          ensures AttachAll(rows, s.outbox)[w].process == rows[w].process
        {
          AttachAllUntouched(rows, s.outbox, w);
        }
        WakeHeldSame(rows, AttachAll(rows, s.outbox), s.cmdQueue, 0);
      }
    case GoOnHold(w, _) =>
      if w < |s.rows| {
        AttachAllSetStatus(s.rows, s.outbox, w, Hold);
      }
    case GoToOriginal(w, original) =>
      if w < |s.rows| {
        AttachAllSetStatus(s.rows, s.outbox, w, original);
      }
  }

  lemma ExecuteCommutes(s: World, p: nat, m: Message)
    requires OutboxOk(s)
    requires m.GoOnHold? ==> !PendingAttach(s.outbox, m.target)
    ensures Execute(Flush(s), p, m) == Flush(Execute(s, p, m))
  {
    HandleCommutes(s, m);
  }

  lemma PopTransactionCommutes(s: World, p: nat)
    requires Enabled(s, TakeTransaction(p))
    ensures Enabled(Flush(s), TakeTransaction(p))
    ensures Flush(s).txQueue[p][0] == s.txQueue[p][0]
    ensures PopTransaction(Flush(s), p) == Flush(PopTransaction(s, p))
  {
    SendAllIsSent(s.txQueue, s.outbox);
    var popped := s.txQueue[p := s.txQueue[p][1..]];
    SendAllIsSent(popped, s.outbox);
    var f := Flush(s).txQueue;
    assert f[p][1..] == s.txQueue[p][1..] + Sent(s.outbox, p);
    assert f[p := f[p][1..]] == SendAll(popped, s.outbox);
  }

  lemma RestartCommutes(s: World, p: nat)
    requires OutboxOk(s) && p < |s.consuming|
    ensures Restart(Flush(s), p) == Flush(Restart(s, p))
  {
    AttachAllKeepsBlocking(s.rows, s.outbox);
    HeldRowsUntouched(s.rows, s.outbox);
    var f := AttachAll(s.rows, s.outbox);
    if AnyHeldOn(s.rows, p) {
      var w :| 0 <= w < |s.rows| && s.rows[w].status == Hold && s.rows[w].process == Some(p);
      assert f[w].status == Hold && f[w].process == Some(p);
    }
    forall w | 0 <= w < |s.rows|
      ensures AttachAll(ReleaseHeldOn(s.rows, p), s.outbox)[w] == ReleaseHeldOn(f, p)[w]
    {
      AttachAllDependsOnProcess(s.rows, ReleaseHeldOn(s.rows, p), s.outbox, w);
    }
    assert AttachAll(ReleaseHeldOn(s.rows, p), s.outbox) == ReleaseHeldOn(f, p);
  }

  /** Where an attachment pass leaves a worker depends on where the worker was, not on any status. */
  lemma {:induction false} AttachAllDependsOnProcess(a: seq<Row>, b: seq<Row>, todo: seq<Action>, w: nat)
    requires |a| == |b| && w < |a| && a[w].process == b[w].process
    ensures AttachAll(a, todo)[w].process == AttachAll(b, todo)[w].process
    decreases |todo|
  {
    if todo != [] {
      AttachAllDependsOnProcess(AttachOne(a, todo[0]), AttachOne(b, todo[0]), todo[1..], w);
    }
  }
}
