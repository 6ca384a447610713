/** Driving a process through its queue: a restart before every message keeps it consuming, as long as nobody on it can be put on
    hold. */
module ProtocolDriving {
  import opened Wrappers
  import opened WorkerProtocol
  import opened ProtocolInvariants
  import opened ProtocolSafety
  import opened ProtocolStandstill

  /** Running the message puts the mark of blocking on nobody. */
  ghost predicate Plain(m: Message) {
    !m.GoToOriginal? && (RealMarker(m) ==> m.original != Blocking)
  }

  ghost predicate AllPlain(queue: seq<Message>) {
    forall i :: 0 <= i < |queue| ==> Plain(queue[i])
  }

  lemma TypedIsPlain(rows: seq<Row>, tx: seq<seq<Message>>, q: nat)
    requires SafeTyped(rows, tx) && q < |tx|
    ensures AllPlain(tx[q])
  {
    forall i | 0 <= i < |tx[q]| ensures Plain(tx[q][i]) {
      assert MessageTyped(rows, tx[q][i]);
    }
  }

  /** Every worker on p is blocking, and none of their markers is among the first n - 1 messages. */
  predicate OwnBlocking(rows: seq<Row>, queue: seq<Message>, p: nat, n: nat)
    requires n <= |queue|
  {
    forall w :: 0 <= w < |rows| && rows[w].process == Some(p) ==>
      rows[w].status == Blocking && (n > 1 ==> NoMarkerAmong(queue, w, n - 1))
  }

  ghost predicate Drivable(s: World, p: nat, n: nat) {
    && p < |s.txQueue| && p < |s.executed| && p < |s.consuming| && n <= |s.txQueue[p]|
    && AllPlain(s.txQueue[p])
    && (!AnyBlocking(s.rows) || OwnBlocking(s.rows, s.txQueue[p], p, n))
  }

  /** t is s after p has run its first n messages: everybody is where he was, and the workers of the markers among them have
      lost their mark. */
  ghost predicate Driven(s: World, t: World, p: nat, n: nat)
    requires p < |s.txQueue| && p < |s.executed| && n <= |s.txQueue[p]|
  {
    && t.outbox == s.outbox && |t.consuming| == |s.consuming| && |t.rows| == |s.rows|
    && t.txQueue == s.txQueue[p := s.txQueue[p][n..]]
    && t.executed == s.executed[p := s.executed[p] + s.txQueue[p][..n]]
    && (forall w :: 0 <= w < |s.rows| ==> t.rows[w].process == s.rows[w].process)
    && (forall w :: 0 <= w < |s.rows| ==>
          (t.rows[w].status == Blocking <==> s.rows[w].status == Blocking && NoMarkerAmong(s.txQueue[p], w, n)))
  }

  lemma RestartConsumes(s: World, p: nat)
    requires p < |s.consuming| && (!AnyBlocking(s.rows) || !AnyHeldOn(s.rows, p))
    ensures Restart(s, p) == s.(rows := Restart(s, p).rows, consuming := s.consuming[p := true])
    ensures SamePlaces(s.rows, Restart(s, p).rows)
  {
  }

  lemma TakePlain(s: World, p: nat)
    requires Enabled(s, TakeTransaction(p)) && Plain(s.txQueue[p][0])
    ensures Driven(s, Next(s, TakeTransaction(p)), p, 1)
  {
    var m := s.txQueue[p][0];
    assert s.txQueue[p][..1] == [m];
  }

  lemma DriveOne(s: World, p: nat) returns (t: World)
    requires Drivable(s, p, 1)
    ensures Leads(s, t) && Driven(s, t, p, 1)
  {
    assert !AnyBlocking(s.rows) || !AnyHeldOn(s.rows, p);
    RestartConsumes(s, p);
    var u := Next(s, Reboot(p));
    LeadsByStep(s, Reboot(p));
    TakePlain(u, p);
    t := Next(u, TakeTransaction(p));
    LeadsByStep(u, TakeTransaction(p));
    LeadsOn(s, u, t);
  }

  lemma FirstFurther(queue: seq<Message>, w: nat, n: nat)
    requires 0 < n <= |queue|
    ensures NoMarkerAmong(queue, w, n) <==> NoMarkerAmong(queue, w, 1) && NoMarkerAmong(queue[1..], w, n - 1)
  {
    assert forall i :: 1 <= i < n ==> queue[i] == queue[1..][i - 1];
  }

  lemma DrivableOn(s: World, u: World, p: nat, n: nat)
    requires n > 1 && Drivable(s, p, n) && Driven(s, u, p, 1)
    ensures Drivable(u, p, n - 1)
  {
    var queue := s.txQueue[p];
    assert forall i :: 0 <= i < |queue| - 1 ==> queue[1..][i] == queue[i + 1];
    forall w | 0 <= w < |u.rows| && u.rows[w].process == Some(p) && OwnBlocking(s.rows, queue, p, n)
      ensures u.rows[w].status == Blocking && (n - 1 > 1 ==> NoMarkerAmong(queue[1..], w, n - 2))
    {
      FirstFurther(queue, w, n - 1);
    }
    if AnyBlocking(u.rows) {
      var w :| 0 <= w < |u.rows| && u.rows[w].status == Blocking;
      assert s.rows[w].status == Blocking;
    }
  }

  lemma DrivenOneMore(s: World, u: World, t: World, p: nat, n: nat)
    requires p < |s.txQueue| && p < |s.executed| && 0 < n <= |s.txQueue[p]| && Driven(s, u, p, 1) && Driven(u, t, p, n - 1)
    ensures Driven(s, t, p, n)
  {
    var queue := s.txQueue[p];
    assert queue[..n] == queue[..1] + queue[1..][..n - 1];
    assert queue[1..][n - 1..] == queue[n..];
    assert (s.executed[p] + queue[..1]) + queue[1..][..n - 1] == s.executed[p] + queue[..n];
    forall w: nat | w < |s.rows| ensures NoMarkerAmong(queue, w, n) <==> NoMarkerAmong(queue, w, 1) && NoMarkerAmong(queue[1..], w, n - 1) {
      FirstFurther(queue, w, n);
    }
  }

  lemma {:induction false} Drive(s: World, p: nat, n: nat) returns (t: World)
    requires Drivable(s, p, n)
    ensures Leads(s, t) && Driven(s, t, p, n)
    decreases n
  {
    if n == 0 {
      t := s;
      LeadsNowhere(s);
      assert s.txQueue[p][0..] == s.txQueue[p];
      assert s.executed[p] + s.txQueue[p][..0] == s.executed[p];
    } else if n == 1 {
      t := DriveOne(s, p);
    } else {
      var u := DriveOne(s, p);
      DrivableOn(s, u, p, n);
      t := Drive(u, p, n - 1);
      LeadsOn(s, u, t);
      DrivenOneMore(s, u, t, p, n);
    }
  }
}
