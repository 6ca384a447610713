/** Exactly when a disassociation that the script accepts endangers the gating order: when a process is named twice and a worker
    stays on a process.  The repetition leaves a marker that names nobody; the hold messages lose their effect once all named
    markers have run, whatever is still queued ahead of that one. */
module ProtocolGateRepetition {
  import opened Wrappers
  import opened Sequences
  import opened WorkerProtocol
  import opened ProtocolFlush
  import opened ProtocolInvariants
  import opened ProtocolOperations
  import opened ProtocolRuns
  import opened ProtocolMispairing
  import opened ProtocolPlacing
  import opened ProtocolGating
  import opened ProtocolGateCondition
  import opened ProtocolDriving
  import opened ProtocolStandstill

  /** Some worker is on a process that is not given. */
  predicate SomebodyStays(rows: seq<Row>, ps: seq<nat>) {
    exists v :: 0 <= v < |rows| && IsWorking(rows[v]) && rows[v].process.value !in ps
  }

  // ------------------------------------------------------------------ fewer workers than given processes

  /** The processes that the workers keys are on. */
  function ProcessesOf(rows: seq<Row>, keys: seq<nat>): (ps: seq<nat>)
    requires forall k :: 0 <= k < |keys| ==> keys[k] < |rows| && rows[keys[k]].process.Some?
  {
    seq(|keys|, k requires 0 <= k < |keys| => rows[keys[k]].process.value)
  }

  lemma RepetitionLosesKeys(a: seq<Row>, b: seq<Row>, ps: seq<nat>, keys: seq<nat>)
    requires Alone(a) && ReleasedRows(a, b, ps, keys) && !Distinct(ps)
    ensures |keys| < |ps|
  {
    assert forall k :: 0 <= k < |keys| ==> keys[k] in keys;
    var used := ProcessesOf(a, keys);
    var i, j :| 0 <= i < j < |ps| && ps[i] == ps[j];
    var rest := Without(ps, j);
    forall p | p in used ensures p in rest {
      InTheRest(ps, i, j, p);
    }
    DistinctNotMore(used, rest);
  }

  lemma InTheRest(ps: seq<nat>, i: nat, j: nat, p: nat)
    requires i < j < |ps| && ps[i] == ps[j] && p in ps
    ensures p in Without(ps, j)
  {
    var k :| 0 <= k < |ps| && ps[k] == p;
    var l := if k == j then i else k;
    assert Without(ps, j)[if l < j then l else l - 1] == p;
  }

  lemma {:induction false} CountNotLess(ps: seq<nat>, r: nat, j: nat, n: nat)
    requires j <= n <= |ps|
    ensures CountOf(ps, r, j) <= CountOf(ps, r, n)
  {
    if j < n {
      CountNotLess(ps, r, j, n - 1);
    }
  }

  // ------------------------------------------------------------------ all named markers run

  /** Queue r up to its last named marker. */
  function NamedPart(s: World, ps: seq<nat>, keys: seq<nat>, r: nat): (n: nat)
    requires r < |s.txQueue| && |keys| <= |ps|
  {
    |s.txQueue[r]| + CountOf(ps, r, |keys|)
  }

  ghost predicate PartsFit(s: World, f: World, ps: seq<nat>, keys: seq<nat>) {
    && |keys| <= |ps| && |f.txQueue| == |s.txQueue|
    && forall r :: 0 <= r < |f.txQueue| && r in ps ==> NamedPart(s, ps, keys, r) <= |f.txQueue[r]|
  }

  lemma NamedPartsFit(s: World, f: World, ps: seq<nat>, keys: seq<nat>)
    requires ReleasedRows(s.rows, f.rows, ps, keys) && ReleasedQueues(s.rows, f.rows, s.txQueue, f.txQueue, ps, keys, s.ops)
    ensures PartsFit(s, f, ps, keys)
  {
    forall r | 0 <= r < |f.txQueue| && r in ps ensures NamedPart(s, ps, keys, r) <= |f.txQueue[r]| {
      CountNotLess(ps, r, |keys|, |ps|);
    }
  }

  /** The queues of the given processes below m have run up to their last named markers, and nothing else has moved. */
  ghost predicate RanNamed(s: World, f: World, t: World, ps: seq<nat>, keys: seq<nat>, m: nat)
    requires PartsFit(s, f, ps, keys) && m <= |f.txQueue|
  {
    && t.outbox == [] && |t.txQueue| == |f.txQueue| && |t.executed| == |f.executed| && |t.consuming| == |f.consuming|
    && |t.rows| == |f.rows| && (forall w :: 0 <= w < |f.rows| ==> t.rows[w].process == f.rows[w].process)
    && (forall r :: 0 <= r < |f.txQueue| ==>
          t.txQueue[r] == if r < m && r in ps then f.txQueue[r][NamedPart(s, ps, keys, r)..] else f.txQueue[r])
    && (forall r :: 0 <= r < |f.executed| && r !in ps ==> t.executed[r] == f.executed[r])
    && (forall w :: 0 <= w < |f.rows| && t.rows[w].status == Blocking ==> StillUnnamed(s, f, ps, keys, m, w))
  }

  /** Worker w was blocking and has no marker in the parts that have run. */
  ghost predicate StillUnnamed(s: World, f: World, ps: seq<nat>, keys: seq<nat>, m: nat, w: nat)
    requires PartsFit(s, f, ps, keys) && w < |f.rows| && m <= |f.txQueue|
  {
    && f.rows[w].status == Blocking
    && forall r :: 0 <= r < m && r in ps ==> NoMarkerAmong(f.txQueue[r], w, NamedPart(s, ps, keys, r))
  }

  lemma RanOneQueueMore(s: World, f: World, t: World, u: World, ps: seq<nat>, keys: seq<nat>, m: nat)
    requires m < |f.txQueue| && m < |f.executed| && m in ps
    requires PartsFit(s, f, ps, keys)
    requires RanNamed(s, f, t, ps, keys, m) && Driven(t, u, m, NamedPart(s, ps, keys, m))
    ensures RanNamed(s, f, u, ps, keys, m + 1)
  {
    assert t.txQueue[m] == f.txQueue[m];
    forall w | 0 <= w < |f.rows| && u.rows[w].status == Blocking ensures StillUnnamed(s, f, ps, keys, m + 1, w) {
      assert t.rows[w].status == Blocking && NoMarkerAmong(f.txQueue[m], w, NamedPart(s, ps, keys, m));
      assert StillUnnamed(s, f, ps, keys, m, w);
    }
  }

  lemma RanNothingMore(s: World, f: World, t: World, ps: seq<nat>, keys: seq<nat>, m: nat)
    requires m < |f.txQueue| && m !in ps
    requires PartsFit(s, f, ps, keys)
    requires RanNamed(s, f, t, ps, keys, m)
    ensures RanNamed(s, f, t, ps, keys, m + 1)
  {
    forall w | 0 <= w < |f.rows| && t.rows[w].status == Blocking ensures StillUnnamed(s, f, ps, keys, m + 1, w) {
      assert StillUnnamed(s, f, ps, keys, m, w);
    }
  }

  lemma NothingRan(s: World, f: World, ps: seq<nat>, keys: seq<nat>)
    requires PartsFit(s, f, ps, keys) && f.outbox == []
    ensures RanNamed(s, f, f, ps, keys, 0)
  {
  }

  /** Nobody is on the given processes, and what is queued there marks nobody. */
  ghost predicate Free(f: World, ps: seq<nat>) {
    && |f.executed| == |f.consuming| == |f.txQueue|
    && forall r :: 0 <= r < |f.txQueue| && r in ps ==> AllPlain(f.txQueue[r]) && NobodyOn(f.rows, r)
  }

  lemma ReleasedIsFree(s: World, f: World, ps: seq<nat>, keys: seq<nat>)
    requires Alone(s.rows) && TxTyped(s.rows, s.txQueue) && ReleasedRows(s.rows, f.rows, ps, keys) && Shape(f)
    requires ReleasedQueues(s.rows, f.rows, s.txQueue, f.txQueue, ps, keys, s.ops)
    ensures Free(f, ps)
  {
    TypedIsSafe(s.rows, s.txQueue);
    ReleasedTyped(s, f, ps, keys);
    ReleasedNobodyOn(s.rows, f.rows, ps, keys);
    forall r | 0 <= r < |f.txQueue| && r in ps ensures AllPlain(f.txQueue[r]) {
      TypedIsPlain(f.rows, f.txQueue, r);
    }
  }

  lemma NamedPartDrivable(s: World, f: World, u: World, ps: seq<nat>, keys: seq<nat>, r: nat)
    requires PartsFit(s, f, ps, keys) && Free(f, ps) && r < |f.txQueue| && r in ps && RanNamed(s, f, u, ps, keys, r)
    ensures Drivable(u, r, NamedPart(s, ps, keys, r))
  {
    assert NobodyOn(f.rows, r);
  }

  lemma RunNextNamed(s: World, f: World, u: World, ps: seq<nat>, keys: seq<nat>, m: nat) returns (t: World)
    requires PartsFit(s, f, ps, keys) && Free(f, ps) && m < |f.txQueue| && RanNamed(s, f, u, ps, keys, m)
    ensures Leads(u, t) && RanNamed(s, f, t, ps, keys, m + 1)
  {
    if m in ps {
      NamedPartDrivable(s, f, u, ps, keys, m);
      t := Drive(u, m, NamedPart(s, ps, keys, m));
      RanOneQueueMore(s, f, u, t, ps, keys, m);
    } else {
      t := u;
      LeadsNowhere(u);
      RanNothingMore(s, f, u, ps, keys, m);
    }
  }

  lemma {:induction false} RunNamed(s: World, f: World, ps: seq<nat>, keys: seq<nat>, m: nat) returns (t: World)
    requires PartsFit(s, f, ps, keys) && Free(f, ps) && f.outbox == [] && m <= |f.txQueue|
    ensures Leads(f, t) && RanNamed(s, f, t, ps, keys, m)
    decreases m
  {
    if m == 0 {
      t := f;
      LeadsNowhere(f);
      NothingRan(s, f, ps, keys);
    } else {
      var u := RunNamed(s, f, ps, keys, m - 1);
      t := RunNextNamed(s, f, u, ps, keys, m - 1);
      LeadsOn(f, u, t);
    }
  }

  /** Once all named markers have run, nobody is blocking. */
  lemma NobodyLeftBlocking(s: World, f: World, t: World, ps: seq<nat>, keys: seq<nat>)
    requires Alone(s.rows) && ReleasedRows(s.rows, f.rows, ps, keys)
    requires ReleasedQueues(s.rows, f.rows, s.txQueue, f.txQueue, ps, keys, s.ops)
    requires forall i :: 0 <= i < |ps| ==> ps[i] < |s.txQueue|
    requires PartsFit(s, f, ps, keys)
    requires RanNamed(s, f, t, ps, keys, |f.txQueue|)
    ensures !AnyBlocking(t.rows)
  {
    ReleasedNobodyOn(s.rows, f.rows, ps, keys);
    forall w | 0 <= w < |t.rows| ensures t.rows[w].status != Blocking {
      if w in keys {
        var j :| 0 <= j < |keys| && keys[j] == w;
        NamedMarkerRan(s, f, ps, keys, j);
        assert !StillUnnamed(s, f, ps, keys, |f.txQueue|, w);
      } else {
        assert !StillUnnamed(s, f, ps, keys, |f.txQueue|, w);
      }
    }
  }

  lemma NamedMarkerRan(s: World, f: World, ps: seq<nat>, keys: seq<nat>, j: nat)
    requires ReleasedRows(s.rows, f.rows, ps, keys) && ReleasedQueues(s.rows, f.rows, s.txQueue, f.txQueue, ps, keys, s.ops)
    requires j < |keys| && ps[j] < |s.txQueue| && NamedPart(s, ps, keys, ps[j]) <= |f.txQueue[ps[j]]|
    ensures ps[j] in ps && !NoMarkerAmong(f.txQueue[ps[j]], keys[j], NamedPart(s, ps, keys, ps[j]))
  {
    ReleasedMarker(s, f, ps, keys, j);
    CountGrows(ps, ps[j], j, |keys|);
    assert IsMarkerFor(f.txQueue[ps[j]][|s.txQueue[ps[j]]| + CountOf(ps, ps[j], j)], keys[j]);
  }

  /** The last marker names nobody and is still queued. */
  lemma NamelessMarkerLeft(s: World, f: World, t: World, ps: seq<nat>, keys: seq<nat>)
    requires ReleasedRows(s.rows, f.rows, ps, keys) && ReleasedQueues(s.rows, f.rows, s.txQueue, f.txQueue, ps, keys, s.ops)
    requires |keys| < |ps| && ps[|ps| - 1] < |s.txQueue|
    requires PartsFit(s, f, ps, keys)
    requires RanNamed(s, f, t, ps, keys, |f.txQueue|)
    ensures QueuedMarkerOf(t.txQueue, ps[|ps| - 1], s.ops)
  {
    var j := |ps| - 1;
    var r := ps[j];
    MarkersToHas(s.rows, ps, keys, s.ops, |ps|, j);
    CountNotLess(ps, r, |keys|, j);
    assert r in ps;
    var at := |s.txQueue[r]| + CountOf(ps, r, j);
    assert f.txQueue[r][at] == ReleaseMessage(s.rows, keys, s.ops, j);
    assert t.txQueue[r][at - NamedPart(s, ps, keys, r)] == f.txQueue[r][at];
  }

  // ------------------------------------------------------------------ and the process of a sibling goes on

  /** With nobody blocking, a process runs its whole queue, which ends with a hold message, and a transaction behind it. */
  lemma RunPastHold(s: World, p: nat, q: nat, k: nat) returns (u: World)
    requires s.outbox == [] && p < |s.txQueue| && p < |s.executed| && p < |s.consuming| && AllPlain(s.txQueue[p])
    requires !AnyBlocking(s.rows) && s.txQueue[p] != []
    requires var last := s.txQueue[p][|s.txQueue[p]| - 1]; last.GoOnHold? && last.op == k
    requires p != q && QueuedMarkerOf(s.txQueue, q, k)
    ensures Leads(s, u) && !Gated(u)
  {
    var n := |s.txQueue[p]|;
    var t := Next(s, Arrive(p, 0));
    LeadsByStep(s, Arrive(p, 0));
    assert t.txQueue[p] == s.txQueue[p] + [Transaction(0)];
    assert AllPlain(t.txQueue[p]);
    u := Drive(t, p, n + 1);
    LeadsOn(s, t, u);
    assert u.txQueue[q] == s.txQueue[q];
    MarkerIsLeft(u, q, k);
    RanBehindWarning(t, u, p, n - 1, k);
  }

  lemma RepetitionTail(s: World, f: World, ps: seq<nat>, keys: seq<nat>, v: nat) returns (u: World)
    requires Alone(s.rows) && TxTyped(s.rows, s.txQueue) && ReleasedRows(s.rows, f.rows, ps, keys) && f.outbox == [] && Shape(f)
    requires ReleasedQueues(s.rows, f.rows, s.txQueue, f.txQueue, ps, keys, s.ops) && |keys| < |ps|
    requires forall i :: 0 <= i < |ps| ==> ps[i] < |s.txQueue|
    requires v < |s.rows| && IsWorking(s.rows[v]) && s.rows[v].process.value !in ps
    ensures Leads(f, u) && !Gated(u)
  {
    var p, q := s.rows[v].process.value, ps[|ps| - 1];
    NamedPartsFit(s, f, ps, keys);
    ReleasedIsFree(s, f, ps, keys);
    var t := RunNamed(s, f, ps, keys, |f.txQueue|);
    NobodyLeftBlocking(s, f, t, ps, keys);
    NamelessMarkerLeft(s, f, t, ps, keys);
    StaysBehind(s, f, ps, keys, v);
    assert t.txQueue[p] == f.txQueue[p];
    u := RunPastHold(t, p, q, s.ops);
    LeadsOn(f, t, u);
  }

  /** A worker that stays finds the hold message at the end of its process's queue. */
  lemma StaysBehind(s: World, f: World, ps: seq<nat>, keys: seq<nat>, v: nat)
    requires TxTyped(s.rows, s.txQueue) && ReleasedRows(s.rows, f.rows, ps, keys) && Shape(f)
    requires ReleasedQueues(s.rows, f.rows, s.txQueue, f.txQueue, ps, keys, s.ops)
    requires v < |s.rows| && IsWorking(s.rows[v]) && s.rows[v].process.value !in ps && ps != []
    ensures var p := s.rows[v].process.value;
      p < |f.txQueue| && f.txQueue[p] == s.txQueue[p] + [GoOnHold(v, s.ops)] && AllPlain(f.txQueue[p]) && p != ps[|ps| - 1]
  {
    var p := s.rows[v].process.value;
    assert f.rows[v] == s.rows[v];
    assert ReleasedElsewhere(f.rows, s.txQueue[p], f.txQueue[p], p, s.ops);
    TypedIsSafe(s.rows, s.txQueue);
    ReleasedTyped(s, f, ps, keys);
    TypedIsPlain(f.rows, f.txQueue, p);
  }

  lemma DangerousRepetition(s: World, ps: seq<nat>)
    requires s.outbox == [] && Placed(s) && CanDisassociate(s, ps) && !Distinct(ps) && SomebodyStays(s.rows, ps)
    ensures CanBreakGating(Disassociate(s, ps))
  {
    var t, f, keys := Disassociate(s, ps), Flush(Disassociate(s, ps)), KeysOf(s, ps);
    ReleaseEffect(s, ps);
    ProcessesInRange(s, ps);
    ReleasedNobodyOn(s.rows, f.rows, ps, keys);
    RepetitionLosesKeys(s.rows, f.rows, ps, keys);
    var v :| 0 <= v < |s.rows| && IsWorking(s.rows[v]) && s.rows[v].process.value !in ps;
    var u := RepetitionTail(s, f, ps, keys, v);
    LeadsToFlush(t);
    LeadsOn(t, f, u);
    LeadsToBreak(t, u);
  }

  // ------------------------------------------------------------------ the safe cases

  /** With nobody staying, a disassociation sends no hold message. */
  lemma NobodyToHold(s: World, f: World, ps: seq<nat>, keys: seq<nat>)
    requires Gate(s) && NoMarkers(s.txQueue) && Alone(s.rows) && ReleasedRows(s.rows, f.rows, ps, keys) && SameElsewhere(s, f)
    requires ReleasedQueues(s.rows, f.rows, s.txQueue, f.txQueue, ps, keys, s.ops) && !SomebodyStays(s.rows, ps)
    ensures NoHoldOf(f, s.ops)
  {
    forall p, i | 0 <= p < |f.txQueue| && 0 <= i < |f.txQueue[p]|
      ensures !(f.txQueue[p][i].GoOnHold? && f.txQueue[p][i].op == s.ops)
      ensures f.txQueue[p][i].MarkBlockingToOriginal? ==> f.txQueue[p][i].op == s.ops
    {
      NobodyStaysAnywhere(s, f, ps, keys, p);
      var j := ReleasedAt(s, f, ps, keys, p, i);
    }
  }

  lemma NobodyStaysAnywhere(s: World, f: World, ps: seq<nat>, keys: seq<nat>, p: nat)
    requires ReleasedRows(s.rows, f.rows, ps, keys) && !SomebodyStays(s.rows, ps)
    ensures NobodyOn(f.rows, p)
  {
    forall w | 0 <= w < |f.rows| ensures f.rows[w].process != Some(p) {
      assert s.rows[w].process.Some? ==> IsWorking(s.rows[w]);
    }
  }

  lemma NobodyStaysIsSafe(s: World, ps: seq<nat>, es: seq<Event>, u: World)
    requires s.outbox == [] && Placed(s) && Gate(s) && CanDisassociate(s, ps) && !SomebodyStays(s.rows, ps)
    requires NoOperation(es) && Reaches(Disassociate(s, ps), es, u)
    ensures Gated(u)
  {
    assert !AnyBlocking(s.rows);
    QuietPlaces(s);
    ReleaseEffect(s, ps);
    NobodyToHold(s, Flush(Disassociate(s, ps)), ps, KeysOf(s, ps));
    RunKeepsNoHoldOf(Disassociate(s, ps), es, u, s.ops);
    NoHoldOfGates(u, s.ops);
  }

  lemma SafeDisassociation(s: World, ps: seq<nat>, es: seq<Event>, u: World)
    requires s.outbox == [] && GateInv(s) && Placed(s) && Gate(s) && CanDisassociate(s, ps)
    requires Distinct(ps) || !SomebodyStays(s.rows, ps)
    requires NoOperation(es) && Reaches(Disassociate(s, ps), es, u)
    ensures Gated(u)
  {
    if Distinct(ps) {
      CarefulDisassociationKeepsInv(s, ps);
      GateInvIsSafe(Disassociate(s, ps), es, u);
    } else {
      NobodyStaysIsSafe(s, ps, es, u);
    }
  }

  /** After a careful run, take any disassociation the script accepts: it can break the gating order if and only if it names a
      process twice and some worker stays on a process that it does not name. */
  lemma DisassociationEndangersGatingIff(s0: World, es0: seq<Event>, s: World, ps: seq<nat>)
    requires Initial(s0) && Reaches(s0, es0, s) && CarefulRun(s0, es0)
    requires s.outbox == [] && CanDisassociate(s, ps)
    ensures CanBreakGating(Disassociate(s, ps)) <==> !Distinct(ps) && SomebodyStays(s.rows, ps)
  {
    CarefullyReached(s0, es0, s);
    if !Distinct(ps) && SomebodyStays(s.rows, ps) {
      DangerousRepetition(s, ps);
    }
    if CanBreakGating(Disassociate(s, ps)) && !(!Distinct(ps) && SomebodyStays(s.rows, ps)) {
      var es, u :| NoOperation(es) && Reaches(Disassociate(s, ps), es, u) && !Gated(u);
      SafeDisassociation(s, ps, es, u);
    }
  }
}
