/** Disassociation: exactly when its markers are paired with the right processes, and that a rightly paired one keeps
    the core invariant. */
module ProtocolDisassociation {
  import opened Wrappers
  import opened Sequences
  import opened WorkerProtocol
  import opened ProtocolFlush
  import opened ProtocolInvariants
  import opened ProtocolOperations

  // ------------------------------------------------------------------ the pairing of markers with processes

  predicate Ascending(ids: seq<nat>) {
    forall i, j :: 0 <= i < j < |ids| ==> ids[i] < ids[j]
  }

  lemma {:induction false} SortedKeysAscend(ids: seq<nat>, n: nat)
    ensures Ascending(SortedKeys(ids, n))
    ensures forall i :: 0 <= i < |SortedKeys(ids, n)| ==> SortedKeys(ids, n)[i] < n
  {
    if n > 0 {
      SortedKeysAscend(ids, n - 1);
    }
  }

  lemma {:induction false} AscendingSameMembers(a: seq<nat>, b: seq<nat>)
    requires Ascending(a) && Ascending(b)
    requires forall w :: w in a <==> w in b
    ensures a == b
  {
    assert |a| > 0 ==> a[0] in a;
    assert |b| > 0 ==> b[0] in b;
    if a != [] && b != [] {
      var x, y := a[|a| - 1], b[|b| - 1];
      assert x in b && y in a;
      assert x == y;
      var a', b' := a[..|a| - 1], b[..|b| - 1];
      forall w ensures w in a' <==> w in b' {
        assert w in a' <==> w in a && w != x;
        assert w in b' <==> w in b && w != x;
      }
      AscendingSameMembers(a', b');
      assert a == a' + [x] && b == b' + [x];
    }
  }

  /** The script names the removed workers in ascending order of id, so each worker's marker goes to the process it is
      removed from exactly when the processes were given in ascending order of their workers' ids. */
  lemma PairingIsRightIffAscending(rows: seq<Row>, ids: seq<nat>)
    requires forall i :: 0 <= i < |ids| ==> ids[i] < |rows|
    ensures SortedKeys(ids, |rows|) == ids <==> Ascending(ids)
  {
    SortedKeysAscend(ids, |rows|);
    if Ascending(ids) {
      SortedKeysInRange(ids, |rows|);
      assert forall w :: w in ids ==> w < |rows|;
      AscendingSameMembers(SortedKeys(ids, |rows|), ids);
    }
  }

  /** The publication that sends the marker of the i-th removed worker to the process it is removed from. */
  function HomeMarker(rows: seq<Row>, ps: seq<nat>, ids: seq<nat>, op: nat, i: nat): (a: Action)
    requires i < |ps| == |ids| && ids[i] < |rows|
  {
    Publish(ps[i], MarkBlockingToOriginal(Some(ids[i]), rows[ids[i]].status, op))
  }

  /** The disassociation publishes the marker of every removed worker to the process it is removed from. */
  ghost predicate MarkersGoHome(s: World, ps: seq<nat>)
    requires CanDisassociate(s, ps)
  {
    forall i :: 0 <= i < |ps| ==> HomeMarker(s.rows, ps, WorkersOn(s.rows, ps), s.ops, i) in Disassociate(s, ps).outbox
  }

  lemma {:induction false} ReleaseActionsAt(rows: seq<Row>, ps: seq<nat>, keys: seq<nat>, op: nat, n: nat)
    requires n <= |ps|
    requires forall i :: 0 <= i < |keys| ==> keys[i] < |rows|
    ensures var todo := ReleaseActions(rows, ps, keys, op, n);
            && |todo| == n
            && (forall i :: 0 <= i < n ==> todo[i] == Publish(ps[i],
                  if i < |keys| then MarkBlockingToOriginal(Some(keys[i]), rows[keys[i]].status, op)
                  else MarkBlockingToOriginal(None, Active, op)))
  {
    if n > 0 {
      ReleaseActionsAt(rows, ps, keys, op, n - 1);
    }
  }

  lemma {:induction false} SiblingActionsHold(rows: seq<Row>, op: nat, n: nat)
    requires n <= |rows|
    ensures forall i :: 0 <= i < |SiblingActions(rows, op, n)| ==>
              SiblingActions(rows, op, n)[i].Publish? && SiblingActions(rows, op, n)[i].message.GoOnHold?
  {
    if n > 0 {
      SiblingActionsHold(rows, op, n - 1);
    }
  }

  lemma DisassociateForm(s: World, ps: seq<nat>)
    requires s.outbox == [] && CanDisassociate(s, ps)
    ensures var ids := WorkersOn(s.rows, ps);
            var keys := SortedKeys(ids, |s.rows|);
            var rows := Detach(s.rows, ids);
            && (forall i :: 0 <= i < |keys| ==> keys[i] < |s.rows|)
            && Disassociate(s, ps) == s.(rows := rows, ops := s.ops + 1,
                 outbox := ReleaseActions(s.rows, ps, keys, s.ops, |ps|) + SiblingActions(rows, s.ops, |rows|))
  {
    SortedKeysAscend(WorkersOn(s.rows, ps), |s.rows|);
  }

  /** For an accepted disassociation with nothing else in flight: every removed worker's marker is sent to the process
      it is removed from if and only if the workers found on the given processes come in ascending order. */
  lemma MarkersGoHomeIffAscending(s: World, ps: seq<nat>)
    requires s.outbox == [] && CanDisassociate(s, ps) && Distinct(ps)
    ensures MarkersGoHome(s, ps) <==> Ascending(WorkersOn(s.rows, ps))
  {
    var ids := WorkersOn(s.rows, ps);
    var keys := SortedKeys(ids, |s.rows|);
    DisassociateForm(s, ps);
    var release := ReleaseActions(s.rows, ps, keys, s.ops, |ps|);
    var rows := Detach(s.rows, ids);
    var siblings := SiblingActions(rows, s.ops, |rows|);
    ReleaseActionsAt(s.rows, ps, keys, s.ops, |ps|);
    SiblingActionsHold(rows, s.ops, |rows|);
    PairingIsRightIffAscending(s.rows, ids);
    SortedKeysAscend(ids, |s.rows|);
    MarkersFound(s.rows, ps, ids, keys, release, siblings, s.ops);
    if ids <= keys {
      assert Ascending(ids);
    }
  }

  predicate PairedAt(keys: seq<nat>, ids: seq<nat>, i: nat) {
    i < |keys| && i < |ids| && keys[i] == ids[i]
  }

  lemma MarkersFound(rows: seq<Row>, ps: seq<nat>, ids: seq<nat>, keys: seq<nat>, release: seq<Action>, siblings: seq<Action>, op: nat)
    requires |ids| == |ps| == |release| && Distinct(ps)
    requires forall i :: 0 <= i < |ids| ==> ids[i] < |rows|
    requires forall i :: 0 <= i < |keys| ==> keys[i] < |rows|
    requires forall i :: 0 <= i < |ps| ==> release[i] == Publish(ps[i],
               if i < |keys| then MarkBlockingToOriginal(Some(keys[i]), rows[keys[i]].status, op)
               else MarkBlockingToOriginal(None, Active, op))
    requires forall i :: 0 <= i < |siblings| ==> siblings[i].Publish? && siblings[i].message.GoOnHold?
    ensures (forall i :: 0 <= i < |ps| ==> HomeMarker(rows, ps, ids, op, i) in release + siblings) <==> ids <= keys
  {
    var out := release + siblings;
    if forall i :: 0 <= i < |ps| ==> HomeMarker(rows, ps, ids, op, i) in out {
      forall i | 0 <= i < |ps| ensures PairedAt(keys, ids, i) {
        var a := HomeMarker(rows, ps, ids, op, i);
        var k :| 0 <= k < |out| && out[k] == a;
        assert k < |release|;
        assert ps[k] == ps[i];
      }
      assert |ps| > 0 ==> PairedAt(keys, ids, |ps| - 1);
      forall i | 0 <= i < |ids| ensures keys[i] == ids[i] {
        assert PairedAt(keys, ids, i);
      }
    }
    if ids <= keys {
      forall i | 0 <= i < |ps| ensures HomeMarker(rows, ps, ids, op, i) in out {
        assert out[i] == release[i];
        assert keys[i] == ids[i];
      }
    }
  }

  // ------------------------------------------------------------------ what a rightly paired disassociation does

  lemma {:induction false} ReleaseActionsSent(rows: seq<Row>, ps: seq<nat>, ids: seq<nat>, op: nat, n: nat, p: nat)
    requires n <= |ps| == |ids| && Distinct(ps)
    requires forall i :: 0 <= i < |ids| ==> ids[i] < |rows|
    ensures forall i :: 0 <= i < n && ps[i] == p ==>
              Sent(ReleaseActions(rows, ps, ids, op, n), p) == [MarkBlockingToOriginal(Some(ids[i]), rows[ids[i]].status, op)]
    ensures (forall i :: 0 <= i < n ==> ps[i] != p) ==> Sent(ReleaseActions(rows, ps, ids, op, n), p) == []
  {
    if n > 0 {
      ReleaseActionsSent(rows, ps, ids, op, n - 1, p);
      var step := [Publish(ps[n - 1], MarkBlockingToOriginal(Some(ids[n - 1]), rows[ids[n - 1]].status, op))];
      SentAppend(ReleaseActions(rows, ps, ids, op, n - 1), step, p);
      assert step[1..] == [];
    }
  }

  lemma {:induction false} SiblingActionsSent(rows: seq<Row>, op: nat, n: nat, p: nat)
    requires n <= |rows| && Alone(rows)
    ensures forall w :: 0 <= w < n && rows[w].process == Some(p) ==> Sent(SiblingActions(rows, op, n), p) == [GoOnHold(w, op)]
    ensures (forall w :: 0 <= w < n ==> rows[w].process != Some(p)) ==> Sent(SiblingActions(rows, op, n), p) == []
  {
    if n > 0 {
      SiblingActionsSent(rows, op, n - 1, p);
      if IsWorking(rows[n - 1]) {
        var q := rows[n - 1].process.value;
        var step := [Publish(q, GoOnHold(n - 1, op))];
        SentAppend(SiblingActions(rows, op, n - 1), step, p);
        assert step[1..] == [];
        assert q == p ==> forall w :: 0 <= w < n - 1 ==> rows[w].process != Some(p);
      }
    }
  }

  /** A disassociation detaches and blocks exactly the workers ids found on the processes ps. */
  ghost predicate DetachedRows(a: seq<Row>, b: seq<Row>, ids: seq<nat>, ps: seq<nat>) {
    && |a| == |b| && |ids| == |ps| && Distinct(ids) && Distinct(ps)
    && (forall w :: 0 <= w < |a| ==> !IsTemporary(a[w]))
    && (forall i :: 0 <= i < |ids| ==>
          && ids[i] < |a| && a[ids[i]].process == Some(ps[i])
          && b[ids[i]] == a[ids[i]].(process := None, status := Blocking))
    && (forall w :: 0 <= w < |a| && w !in ids ==> b[w] == a[w])
  }

  ghost predicate DetachedQueues(a: seq<Row>, b: seq<Row>, tx: seq<seq<Message>>, ty: seq<seq<Message>>, ids: seq<nat>, ps: seq<nat>, op: nat) {
    && |ty| == |tx| && |ids| == |ps|
    && (forall i :: 0 <= i < |ps| && ps[i] < |tx| && ids[i] < |a| ==>
          ty[ps[i]] == tx[ps[i]] + [MarkBlockingToOriginal(Some(ids[i]), a[ids[i]].status, op)])
    && (forall w :: 0 <= w < |b| && IsWorking(b[w]) && b[w].process.value < |tx| ==>
          ty[b[w].process.value] == tx[b[w].process.value] + [GoOnHold(w, op)])
    && (forall p :: 0 <= p < |tx| && p !in ps && NobodyOn(b, p) ==> ty[p] == tx[p])
  }

  lemma DisassociateHasEffect(s: World, ps: seq<nat>)
    requires s.outbox == [] && Core(s) && CanDisassociate(s, ps)
    requires Ascending(WorkersOn(s.rows, ps))
    ensures var f := Flush(Disassociate(s, ps));
            var ids := WorkersOn(s.rows, ps);
            && DetachedRows(s.rows, f.rows, ids, ps)
            && DetachedQueues(s.rows, f.rows, s.txQueue, f.txQueue, ids, ps, s.ops)
            && SameElsewhere(s, f)
  {
    var ids := WorkersOn(s.rows, ps);
    DisassociateForm(s, ps);
    PairingIsRightIffAscending(s.rows, ids);
    DetachGivesDetachedRows(s.rows, ids, ps);
    DetachmentFlushed(s, Disassociate(s, ps), ids, ps);
  }

  lemma DetachmentFlushed(s: World, t: World, ids: seq<nat>, ps: seq<nat>)
    requires Alone(s.rows) && DetachedRows(s.rows, t.rows, ids, ps) && t.txQueue == s.txQueue
    requires t.outbox == ReleaseActions(s.rows, ps, ids, s.ops, |ps|) + SiblingActions(t.rows, s.ops, |t.rows|)
    ensures Flush(t).rows == t.rows
    ensures DetachedQueues(s.rows, t.rows, s.txQueue, Flush(t).txQueue, ids, ps, s.ops)
  {
    ReleaseActionsAt(s.rows, ps, ids, s.ops, |ps|);
    SiblingActionsHold(t.rows, s.ops, |t.rows|);
    AttachAllPublications(t.rows, t.outbox);
    forall i | 0 <= i < |ps| && ps[i] < |s.txQueue|
      ensures Flush(t).txQueue[ps[i]] == s.txQueue[ps[i]] + [MarkBlockingToOriginal(Some(ids[i]), s.rows[ids[i]].status, s.ops)]
    {
      DetachmentQueue(s, t, ids, ps, ps[i]);
    }
    forall w | 0 <= w < |t.rows| && IsWorking(t.rows[w]) && t.rows[w].process.value < |s.txQueue|
      ensures Flush(t).txQueue[t.rows[w].process.value] == s.txQueue[t.rows[w].process.value] + [GoOnHold(w, s.ops)]
    {
      DetachmentQueue(s, t, ids, ps, t.rows[w].process.value);
    }
    forall p | 0 <= p < |s.txQueue| && p !in ps && NobodyOn(t.rows, p) ensures Flush(t).txQueue[p] == s.txQueue[p] {
      DetachmentQueue(s, t, ids, ps, p);
    }
  }

  lemma DetachmentQueue(s: World, t: World, ids: seq<nat>, ps: seq<nat>, p: nat)
    requires p < |s.txQueue|
    requires Alone(s.rows) && DetachedRows(s.rows, t.rows, ids, ps) && t.txQueue == s.txQueue
    requires t.outbox == ReleaseActions(s.rows, ps, ids, s.ops, |ps|) + SiblingActions(t.rows, s.ops, |t.rows|)
    ensures forall i :: 0 <= i < |ps| && ps[i] == p ==>
              Flush(t).txQueue[p] == s.txQueue[p] + [MarkBlockingToOriginal(Some(ids[i]), s.rows[ids[i]].status, s.ops)]
    ensures forall w :: 0 <= w < |t.rows| && t.rows[w].process == Some(p) ==> Flush(t).txQueue[p] == s.txQueue[p] + [GoOnHold(w, s.ops)]
    ensures p !in ps && NobodyOn(t.rows, p) ==> Flush(t).txQueue[p] == s.txQueue[p]
  {
    SendAllIsSent(s.txQueue, t.outbox);
    DetachmentSent(s.rows, t.rows, ids, ps, s.ops, p);
  }

  lemma DetachGivesDetachedRows(a: seq<Row>, ids: seq<nat>, ps: seq<nat>)
    requires |ids| == |ps| && Ascending(ids)
    requires forall w :: 0 <= w < |a| ==> !IsTemporary(a[w])
    requires forall i :: 0 <= i < |ids| ==> ids[i] < |a| && a[ids[i]].process == Some(ps[i])
    requires Alone(a)
    ensures DetachedRows(a, Detach(a, ids), ids, ps)
  {
    assert forall i :: 0 <= i < |ids| ==> ids[i] in ids;
    forall i, j | 0 <= i < j < |ps| ensures ps[i] != ps[j] {
      assert ids[i] < ids[j];
    }
  }

  lemma DetachmentSent(a: seq<Row>, b: seq<Row>, ids: seq<nat>, ps: seq<nat>, op: nat, p: nat)
    requires Alone(a) && DetachedRows(a, b, ids, ps)
    ensures var sent := Sent(ReleaseActions(a, ps, ids, op, |ps|) + SiblingActions(b, op, |b|), p);
            && (forall i :: 0 <= i < |ps| && ps[i] == p ==> sent == [MarkBlockingToOriginal(Some(ids[i]), a[ids[i]].status, op)])
            && (forall w :: 0 <= w < |b| && b[w].process == Some(p) ==> sent == [GoOnHold(w, op)])
            && (p !in ps && NobodyOn(b, p) ==> sent == [])
  {
    DetachedStaysAlone(a, b, ids, ps);
    ReleaseActionsSent(a, ps, ids, op, |ps|, p);
    SiblingActionsSent(b, op, |b|, p);
    SentAppend(ReleaseActions(a, ps, ids, op, |ps|), SiblingActions(b, op, |b|), p);
    assert forall i :: 0 <= i < |ps| ==> ps[i] in ps;
  }

  lemma DetachedStaysAlone(a: seq<Row>, b: seq<Row>, ids: seq<nat>, ps: seq<nat>)
    requires Alone(a) && DetachedRows(a, b, ids, ps)
    ensures Alone(b)
    ensures forall w, i :: 0 <= w < |b| && 0 <= i < |ps| ==> b[w].process != Some(ps[i])
    ensures forall w :: 0 <= w < |b| ==> (b[w].status == Blocking <==> w in ids) && b[w].status != Hold
    ensures forall w :: 0 <= w < |b| && IsWorking(b[w]) ==> w !in ids && b[w] == a[w]
  {
    forall w | 0 <= w < |b| && w in ids ensures b[w] == a[w].(process := None, status := Blocking) {
      var i :| 0 <= i < |ids| && ids[i] == w;
    }
    forall w, i | 0 <= w < |b| && 0 <= i < |ps| ensures b[w].process != Some(ps[i]) {
      if w !in ids {
        assert ids[i] in ids;
      }
    }
  }

  // ------------------------------------------------------------------ the core invariant

  lemma NoBlockingNoMarker(s: World)
    requires TxTyped(s.rows, s.txQueue)
    requires forall w :: 0 <= w < |s.rows| ==> s.rows[w].status != Blocking
    ensures forall p, i :: 0 <= p < |s.txQueue| && 0 <= i < |s.txQueue[p]| ==> !s.txQueue[p][i].MarkBlockingToOriginal?
  {
  }

  lemma DetachedQueueAt(a: seq<Row>, b: seq<Row>, tx: seq<seq<Message>>, ty: seq<seq<Message>>, ids: seq<nat>, ps: seq<nat>, op: nat, p: nat)
    requires p < |tx| && DetachedRows(a, b, ids, ps) && DetachedQueues(a, b, tx, ty, ids, ps, op)
    ensures || ty[p] == tx[p]
            || (exists i :: 0 <= i < |ps| && ps[i] == p && ty[p] == tx[p] + [MarkBlockingToOriginal(Some(ids[i]), a[ids[i]].status, op)])
            || (exists w :: 0 <= w < |b| && b[w].process == Some(p) && ty[p] == tx[p] + [GoOnHold(w, op)])
  {
    if p in ps {
      var i :| 0 <= i < |ps| && ps[i] == p;
    } else if !NobodyOn(b, p) {
      var w :| 0 <= w < |b| && b[w].process == Some(p);
      assert IsWorking(b[w]);
    }
  }

  lemma DisassociateKeepsMarkers(s: World, f: World, ids: seq<nat>, ps: seq<nat>)
    requires Core(s) && DetachedRows(s.rows, f.rows, ids, ps)
    requires DetachedQueues(s.rows, f.rows, s.txQueue, f.txQueue, ids, ps, s.ops)
    ensures TxTyped(f.rows, f.txQueue) && MarkersOnce(f.txQueue) && MarkerExists(f.rows, f.txQueue)
  {
    NoBlockingNoMarker(s);
    DetachedStaysAlone(s.rows, f.rows, ids, ps);
    forall p, i | 0 <= p < |f.txQueue| && 0 <= i < |f.txQueue[p]|
      ensures var m := f.txQueue[p][i];
              && !m.GoToOriginal?
              && (m.GoOnHold? ==> m.target < |f.rows|)
              && (m.MarkBlockingToOriginal? ==>
                    && i == |s.txQueue[p]|
                    && (exists k :: 0 <= k < |ids| && ps[k] == p && m.worker == Some(ids[k]))
                    && (m.original == Active || m.original == Inactive))
    {
      DetachedQueueAt(s.rows, f.rows, s.txQueue, f.txQueue, ids, ps, s.ops, p);
      if i < |s.txQueue[p]| {
        assert f.txQueue[p][i] == s.txQueue[p][i];
      }
    }
    assert forall k :: 0 <= k < |ids| ==> ids[k] in ids;
    assert TxTyped(f.rows, f.txQueue);
    forall w | 0 <= w < |f.rows| && f.rows[w].status == Blocking
      ensures exists p :: 0 <= p < |f.txQueue| && MarkerFrom(f.txQueue[p], w, 0)
    {
      var k :| 0 <= k < |ids| && ids[k] == w;
      assert IsMarkerFor(f.txQueue[ps[k]][|s.txQueue[ps[k]]|], w);
      assert MarkerFrom(f.txQueue[ps[k]], w, 0);
    }
  }

  lemma DisassociateKeepsHoldPlaced(s: World, f: World, ids: seq<nat>, ps: seq<nat>)
    requires Core(s) && DetachedRows(s.rows, f.rows, ids, ps)
    requires DetachedQueues(s.rows, f.rows, s.txQueue, f.txQueue, ids, ps, s.ops)
    requires TxTyped(f.rows, f.txQueue)
    ensures HoldPlaced(f.rows, f.txQueue)
  {
    NoBlockingNoMarker(s);
    DetachedStaysAlone(s.rows, f.rows, ids, ps);
    var tx: seq<seq<Message>>, ty: seq<seq<Message>> := s.txQueue, f.txQueue;
    forall p, i | 0 <= p < |ty| && 0 <= i < |ty[p]| && ty[p][i].GoOnHold?
      ensures var w := ty[p][i].target;
              if f.rows[w].status == Blocking then MarkerFrom(ty[p], w, i + 1)
              else f.rows[w].process == Some(p) && !AnyMarkerFrom(ty[p], i + 1)
    {
      var w := ty[p][i].target;
      DetachedQueueAt(s.rows, f.rows, tx, ty, ids, ps, s.ops, p);
      if i < |tx[p]| {
        assert ty[p][i] == tx[p][i];
        assert s.rows[w].process == Some(p);
        if w in ids {
          var k :| 0 <= k < |ids| && ids[k] == w;
          assert IsMarkerFor(ty[p][|tx[p]|], w);
        } else {
          assert IsWorking(f.rows[w]);
          assert forall j :: i < j < |tx[p]| ==> ty[p][j] == tx[p][j];
        }
      }
    }
  }

  lemma DisassociateKeepsCore(s: World, f: World, ids: seq<nat>, ps: seq<nat>)
    requires Core(s) && DetachedRows(s.rows, f.rows, ids, ps) && SameElsewhere(s, f)
    requires DetachedQueues(s.rows, f.rows, s.txQueue, f.txQueue, ids, ps, s.ops)
    ensures Core(f)
  {
    DetachedStaysAlone(s.rows, f.rows, ids, ps);
    DisassociateKeepsMarkers(s, f, ids, ps);
    DisassociateKeepsHoldPlaced(s, f, ids, ps);
    assert forall p :: 0 <= p < |s.consuming| ==> !AnyHeldOn(s.rows, p) && !AnyHeldOn(f.rows, p);
  }
}
