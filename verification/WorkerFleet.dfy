/** The protocol as it runs: the message handlers, the process start-up and the two scripts, each updating the shared
    tables and queues step by step.  Every method is proved to do to the state exactly what `WorkerProtocol.Next` says,
    so every theorem about runs is a theorem about these methods. */
module WorkerFleet {
  import opened Wrappers
  import opened Sequences
  import opened WorkerProtocol
  import opened ProtocolDisassociation

  datatype ProcessDetail = ProcessDetail(availableForAllocations: bool, chainId: nat)

  function AllocatableProcesses(details: map<nat, ProcessDetail>, chainId: nat): (r: set<nat>)
  {
    set p | p in details && details[p].availableForAllocations && details[p].chainId == chainId
  }

  /** The worker table, the queues and the executing processes of one client. */
  class Fleet {
    var rows: seq<Row>
    var txQueue: seq<seq<Message>>
    var cmdQueue: seq<seq<Message>>
    var txQueueSubscribed: seq<bool>
    var outbox: seq<Action>
    var executed: seq<seq<Message>>
    var ops: nat

    function View(): (s: World)
      reads this
    {
      World(rows, txQueue, cmdQueue, txQueueSubscribed, outbox, executed, ops)
    }

    constructor (table: seq<Row>, processes: nat)
      ensures View() == World(table, seq(processes, i => []), seq(processes, i => []), seq(processes, i => true), [],
                              seq(processes, i => []), 0)
    {
      rows, outbox, ops := table, [], 0;
      txQueue, cmdQueue, executed := seq(processes, i => []), seq(processes, i => []), seq(processes, i => []);
      txQueueSubscribed := seq(processes, i => true);
    }

    // ---------------------------------------------------------------- command message processor

    method ExecuteMarkBlockingToOriginalStatusCommand(worker: Option<nat>, original: Status) returns (reply: Reply)
      modifies this`rows, this`cmdQueue
      ensures (View(), reply) == HandleMarker(old(View()), worker, original)
    {
      reply := NoChange;
      if worker.None? || worker.value >= |rows| || rows[worker.value].status != Blocking {
        return;
      }
      rows := rows[worker.value := rows[worker.value].(status := original)];
      var i := 0;
      while i < |rows|
        modifies this`cmdQueue
        invariant 0 <= i <= |rows|
        invariant WakeHeld(rows, old(cmdQueue), 0) == WakeHeld(rows, cmdQueue, i)
      {
        if rows[i].status == Hold {
          if rows[i].process.None? || rows[i].process.value >= |cmdQueue| {
            return;
          }
          var p := rows[i].process.value;
          cmdQueue := cmdQueue[p := cmdQueue[p] + [GoToOriginal(i, Active)]];
        }
        i := i + 1;
      }
    }

    method AnyOnStatus(status: Status) returns (found: bool)
      ensures found <==> exists w :: 0 <= w < |rows| && rows[w].status == status
    {
      found := false;
      for i := 0 to |rows|
        invariant found <==> exists w :: 0 <= w < i && rows[w].status == status
      {
        if rows[i].status == status {
          found := true;
        }
      }
    }

    method ExecuteGoOnHoldCommand(w: nat) returns (reply: Reply)
      modifies this`rows
      ensures (View(), reply) == HandleGoOnHold(old(View()), w)
    {
      reply := NoChange;
      if w >= |rows| || rows[w].status == Hold || rows[w].status == Blocking {
        return;
      }
      var blocked := AnyOnStatus(Blocking);
      if blocked {
        rows := rows[w := rows[w].(status := Hold)];
        reply := StopConsuming;
      }
    }

    method ExecuteGoToOriginalCommand(w: nat, original: Status) returns (reply: Reply)
      modifies this`rows
      ensures (View(), reply) == HandleGoToOriginal(old(View()), w, original)
    {
      reply := NoChange;
      if w >= |rows| || rows[w].status != Hold {
        return;
      }
      var blocked := AnyOnStatus(Blocking);
      if blocked {
        return;
      }
      rows := rows[w := rows[w].(status := original)];
      reply := StartConsuming;
    }

    method Perform(m: Message) returns (reply: Reply)
      modifies this`rows, this`cmdQueue
      ensures (View(), reply) == Handle(old(View()), m)
    {
      match m {
        case Transaction(_) => reply := NoChange;
        case MarkBlockingToOriginal(worker, original, _) =>
          reply := ExecuteMarkBlockingToOriginalStatusCommand(worker, original);
        case GoOnHold(w, _) => reply := ExecuteGoOnHoldCommand(w);
        case GoToOriginal(w, original) => reply := ExecuteGoToOriginalCommand(w, original);
      }
    }

    // ---------------------------------------------------------------- the executing process

    method CommandResponseActions(p: nat, reply: Reply)
      requires p < |txQueueSubscribed|
      modifies this`txQueueSubscribed
      ensures txQueueSubscribed == match reply
              case NoChange => old(txQueueSubscribed)
              case StartConsuming => old(txQueueSubscribed)[p := true]
              case StopConsuming => old(txQueueSubscribed)[p := false]
    {
      if reply == StartConsuming {
        SubscribeTxQueue(p);
      } else if reply == StopConsuming {
        txQueueSubscribed := txQueueSubscribed[p := false];
      }
    }

    method SubscribeTxQueue(p: nat)
      requires p < |txQueueSubscribed|
      modifies this`txQueueSubscribed
      ensures txQueueSubscribed == old(txQueueSubscribed)[p := true]
    {
      if !txQueueSubscribed[p] {
        txQueueSubscribed := txQueueSubscribed[p := true];
      }
    }

    /** Deliver the head of the transaction queue of a process that consumes it, and acknowledge it. */
    method TakeTransaction(p: nat)
      requires Enabled(View(), WorkerProtocol.Event.TakeTransaction(p))
      modifies this
      ensures View() == Next(old(View()), WorkerProtocol.Event.TakeTransaction(p))
    {
      var m: Message := txQueue[p][0];
      txQueue := txQueue[p := txQueue[p][1..]];
      executed := executed[p := executed[p] + [m]];
      var reply := Perform(m);
      CommandResponseActions(p, reply);
    }

    method TakeCommand(p: nat)
      requires Enabled(View(), WorkerProtocol.Event.TakeCommand(p)) && p < |txQueueSubscribed|
      modifies this
      ensures View() == Next(old(View()), WorkerProtocol.Event.TakeCommand(p))
    {
      var m: Message := cmdQueue[p][0];
      cmdQueue := cmdQueue[p := cmdQueue[p][1..]];
      var reply := Perform(m);
      CommandResponseActions(p, reply);
    }

    /** Start a process again: its transaction queue is consumed unless it holds a worker while some worker blocks. */
    method InitProcess(p: nat)
      requires Enabled(View(), Reboot(p))
      modifies this
      ensures View() == Next(old(View()), Reboot(p))
    {
      txQueueSubscribed := txQueueSubscribed[p := false];
      var shouldStartTxQueConsume := GetHoldWorkers(p);
      if shouldStartTxQueConsume {
        SubscribeTxQueue(p);
      }
    }

    method GetHoldWorkers(p: nat) returns (shouldStart: bool)
      modifies this`rows
      ensures shouldStart <==> !(AnyHeldOn(old(rows), p) && AnyBlocking(old(rows)))
      ensures rows == if shouldStart then ReleaseHeldOn(old(rows), p) else old(rows)
    {
      var held := false;
      for i := 0 to |rows|
        invariant held <==> exists w :: 0 <= w < i && rows[w].status == Hold && rows[w].process == Some(p)
      {
        if rows[i].status == Hold && rows[i].process == Some(p) {
          held := true;
        }
      }
      if !held {
        assert ReleaseHeldOn(rows, p) == rows;
        return true;
      }
      var blocked := AnyOnStatus(Blocking);
      if blocked {
        return false;
      }
      var i := 0;
      while i < |rows|
        modifies this`rows
        invariant 0 <= i <= |rows| == |old(rows)|
        invariant forall w :: 0 <= w < i ==> rows[w] == ReleaseHeldOn(old(rows), p)[w]
        invariant forall w :: i <= w < |rows| ==> rows[w] == old(rows)[w]
      {
        if rows[i].status == Hold && rows[i].process == Some(p) {
          rows := rows[i := rows[i].(status := Active)];
        }
        i := i + 1;
      }
      return true;
    }

    // ---------------------------------------------------------------- the message broker and the running script

    method PublishTransaction(p: nat, id: nat)
      requires Enabled(View(), Arrive(p, id))
      modifies this`txQueue
      ensures View() == Next(old(View()), Arrive(p, id))
    {
      txQueue := txQueue[p := txQueue[p] + [Transaction(id)]];
    }

    /** The script in flight goes past its next await: one database update or one publication. */
    method ContinueScript()
      requires Enabled(View(), Advance)
      modifies this
      ensures View() == Next(old(View()), Advance)
    {
      var a: Action := outbox[0];
      outbox := outbox[1..];
      match a {
        case Attach(w, p) =>
          if w < |rows| {
            rows := rows[w := rows[w].(process := Some(p))];
          }
        case Publish(p, m) =>
          if p < |txQueue| {
            txQueue := txQueue[p := txQueue[p] + [m]];
          }
      }
    }
  }

  // ------------------------------------------------------------------ the association script

  /** One run of the association script; its fields are filled step by step. */
  class AssociateWorker {
    const fleet: Fleet
    var processIds: seq<nat>
    var availableClientWorkers: seq<nat>
    var workingClientWorkers: seq<nat>
    var workingClientProcessIds: seq<nat>
    var workingClientsMap: map<nat, seq<(nat, Status)>>

    constructor (fleet: Fleet, processIds: seq<nat>)
      ensures this.fleet == fleet && this.processIds == processIds && workingClientProcessIds == [] && workingClientsMap == map[]
    {
      this.fleet := fleet;
      this.processIds := processIds;
      availableClientWorkers, workingClientWorkers, workingClientProcessIds, workingClientsMap := [], [], [], map[];
    }

    method Perform(details: map<nat, ProcessDetail>, clientChainId: nat)
      requires fleet.outbox == [] && workingClientProcessIds == [] && workingClientsMap == map[]
      requires forall p :: p in details ==> p < |fleet.txQueue|
      modifies this, fleet
      ensures fleet.View() == Associate(old(fleet.View()), old(processIds), AllocatableProcesses(details, clientChainId))
    {
      if processIds == [] {
        return;
      }
      var ok := GetAndValidateAvailableWorkers();
      if !ok {
        return;
      }
      ok := GetAndValidateProcessDetails(details, clientChainId);
      if !ok {
        return;
      }
      ok := ValidateAllWorkers();
      if !ok {
        return;
      }
      ghost var s := fleet.View();
      assert CanAssociate(s, old(processIds), AllocatableProcesses(details, clientChainId));
      MarkBlockingStatus();
      AssociateAvailableWorker();
      GroupedIsReady(s.rows, fleet.ops, workingClientProcessIds, workingClientsMap);
      SendBlockingMessage(s.rows);
      fleet.ops := fleet.ops + 1;
    }

    method GetAndValidateAvailableWorkers() returns (ok: bool)
      modifies this`processIds, this`availableClientWorkers
      ensures ok <==> (Available(fleet.rows, |fleet.rows|) != []
        && forall w :: 0 <= w < |fleet.rows| && IsWorking(fleet.rows[w]) ==> fleet.rows[w].process.value !in old(processIds))
      ensures ok ==> processIds == UsedProcesses(fleet.rows, old(processIds))
      ensures ok ==> availableClientWorkers == Available(fleet.rows, |fleet.rows|)
    {
      availableClientWorkers := [];
      ok := true;
      for i := 0 to |fleet.rows|
        invariant availableClientWorkers == Available(fleet.rows, i)
        invariant processIds == old(processIds)
        invariant ok <==> forall w :: 0 <= w < i && IsWorking(fleet.rows[w]) ==> fleet.rows[w].process.value !in processIds
      {
        if IsAvailable(fleet.rows[i]) {
          availableClientWorkers := availableClientWorkers + [i];
        }
        if fleet.rows[i].process.Some? && fleet.rows[i].process.value in processIds {
          ok := false;
        }
      }
      if availableClientWorkers == [] || !ok {
        return false;
      }
      if |processIds| > |availableClientWorkers| {
        processIds := processIds[..|availableClientWorkers|];
      }
    }

    method GetAndValidateProcessDetails(details: map<nat, ProcessDetail>, clientChainId: nat) returns (ok: bool)
      ensures ok <==> Distinct(processIds) && forall p :: p in processIds ==> p in AllocatableProcesses(details, clientChainId)
    {
      var found: set<nat> := {};
      ok := true;
      for i := 0 to |processIds|
        invariant Found(details, processIds, i, found)
        invariant ok <==> AllFit(details, clientChainId, processIds, i)
      {
        var p := processIds[i];
        FoundStep(details, processIds, i, found);
        AllFitStep(details, clientChainId, processIds, i);
        if p in details {
          found := found + {p};
          if !details[p].availableForAllocations || details[p].chainId != clientChainId {
            ok := false;
          }
        }
      }
      FoundAndFit(details, clientChainId, processIds);
      ok := ok && |found| == |processIds|;
    }

    method ValidateAllWorkers() returns (ok: bool)
      modifies this`workingClientWorkers
      ensures ok <==> forall w :: 0 <= w < |fleet.rows| && IsWorking(fleet.rows[w]) ==> !IsTemporary(fleet.rows[w])
      ensures workingClientWorkers == Working(fleet.rows, |fleet.rows|)
    {
      workingClientWorkers := [];
      ok := true;
      for i := 0 to |fleet.rows|
        invariant workingClientWorkers == Working(fleet.rows, i)
        invariant ok <==> forall w :: 0 <= w < i && IsWorking(fleet.rows[w]) ==> !IsTemporary(fleet.rows[w])
      {
        if IsWorking(fleet.rows[i]) {
          workingClientWorkers := workingClientWorkers + [i];
          if fleet.rows[i].status == Blocking || fleet.rows[i].status == Hold {
            ok := false;
          }
        }
      }
    }

    method MarkBlockingStatus()
      requires workingClientWorkers == Working(fleet.rows, |fleet.rows|)
      requires workingClientProcessIds == [] && workingClientsMap == map[]
      requires forall w :: 0 <= w < |fleet.rows| && IsWorking(fleet.rows[w]) ==> fleet.rows[w].process.value !in processIds
      modifies this`workingClientsMap, this`workingClientProcessIds, fleet`rows
      ensures fleet.rows == BlockWorking(old(fleet.rows))
      ensures Grouped(old(fleet.rows), workingClientWorkers, |workingClientWorkers|, workingClientProcessIds, workingClientsMap)
    {
      for k := 0 to |workingClientWorkers|
        modifies this`workingClientsMap, this`workingClientProcessIds
        invariant Grouped(fleet.rows, workingClientWorkers, k, workingClientProcessIds, workingClientsMap)
      {
        GroupedStep(fleet.rows, workingClientWorkers, k, workingClientProcessIds, workingClientsMap);
        var row: Row := fleet.rows[workingClientWorkers[k]];
        var p := row.process.value;
        var group := if p in workingClientsMap then workingClientsMap[p] else [];
        workingClientsMap := workingClientsMap[p := group + [(workingClientWorkers[k], row.status)]];
        workingClientProcessIds := workingClientProcessIds + [p];
      }
      UpdateBlockingStatus();
    }

    /** The table update that excludes the given processes. */
    method UpdateBlockingStatus()
      requires forall w :: 0 <= w < |fleet.rows| && IsWorking(fleet.rows[w]) ==> fleet.rows[w].process.value !in processIds
      modifies fleet`rows
      ensures fleet.rows == BlockWorking(old(fleet.rows))
    {
      var i := 0;
      while i < |fleet.rows|
        modifies fleet`rows
        invariant 0 <= i <= |fleet.rows| == |old(fleet.rows)|
        invariant forall w :: 0 <= w < i ==> fleet.rows[w] == BlockWorking(old(fleet.rows))[w]
        invariant forall w :: i <= w < |fleet.rows| ==> fleet.rows[w] == old(fleet.rows)[w]
      {
        if fleet.rows[i].process.Some? && fleet.rows[i].process.value !in processIds {
          fleet.rows := fleet.rows[i := fleet.rows[i].(status := Blocking)];
        }
        i := i + 1;
      }
    }

    /** The awaits of the loop are where other steps come in between, so the loop leaves its updates and publications with
        the script's pending actions. */
    method AssociateAvailableWorker()
      requires |processIds| <= |availableClientWorkers|
      modifies fleet`outbox
      ensures fleet.outbox == old(fleet.outbox) + AttachActions(availableClientWorkers, processIds, fleet.ops, |processIds|)
    {
      for index := 0 to |processIds|
        modifies fleet`outbox
        invariant fleet.outbox == old(fleet.outbox) + AttachActions(availableClientWorkers, processIds, fleet.ops, index)
      {
        var processId, worker := processIds[index], availableClientWorkers[index];
        fleet.outbox := fleet.outbox + [Attach(worker, processId)];
        fleet.outbox := fleet.outbox + [Publish(processId, GoOnHold(worker, fleet.ops))];
      }
    }

    method SendBlockingMessage(ghost rows: seq<Row>)
      requires ReadyToMark(rows, fleet.ops, workingClientProcessIds, workingClientsMap)
      modifies fleet`outbox
      ensures fleet.outbox == old(fleet.outbox) + MarkerActions(rows, fleet.ops, |rows|)
    {
      MarkersForWorking(rows, fleet.ops, |rows|);
      for index := 0 to |workingClientProcessIds|
        modifies fleet`outbox
        invariant fleet.outbox == old(fleet.outbox) + MarkersFor(rows, fleet.ops, Working(rows, |rows|), index)
      {
        var processId := workingClientProcessIds[index];
        assert NextToMark(rows, fleet.ops, workingClientProcessIds, workingClientsMap, index);
        fleet.outbox := fleet.outbox + [Publish(processId, MarkerFor(workingClientsMap[processId], fleet.ops))];
      }
    }
  }

  /** The message for a process: it names the first of the workers found there and the status that one had. */
  function MarkerFor(workerDetails: seq<(nat, Status)>, op: nat): (m: Message)
    requires workerDetails != []
  {
    MarkBlockingToOriginal(Some(workerDetails[0].0), workerDetails[0].1, op)
  }

  /** The two fields give, row by row, the markers for the working rows. */
  ghost predicate ReadyToMark(rows: seq<Row>, op: nat, ids: seq<nat>, m: map<nat, seq<(nat, Status)>>) {
    |ids| == |Working(rows, |rows|)| && forall k :: 0 <= k < |ids| ==> NextToMark(rows, op, ids, m, k)
  }

  ghost predicate NextToMark(rows: seq<Row>, op: nat, ids: seq<nat>, m: map<nat, seq<(nat, Status)>>, k: nat)
    requires k < |ids| == |Working(rows, |rows|)|
  {
    ids[k] in m && m[ids[k]] != [] && MarkerAt(rows, op, Working(rows, |rows|)[k]) == Publish(ids[k], MarkerFor(m[ids[k]], op))
  }

  lemma GroupedIsReady(rows: seq<Row>, op: nat, ids: seq<nat>, m: map<nat, seq<(nat, Status)>>)
    requires var ws := Working(rows, |rows|); Grouped(rows, ws, |ws|, ids, m)
    ensures ReadyToMark(rows, op, ids, m)
  {
    forall k | 0 <= k < |ids|
      ensures NextToMark(rows, op, ids, m, k)
    {
      GroupedHead(rows, ids, m, k);
    }
  }

  /** The keys found for the first i process ids: as many as ids only if all ids are found and differ. */
  ghost predicate Found(details: map<nat, ProcessDetail>, ps: seq<nat>, i: nat, found: set<nat>)
    requires i <= |ps|
  {
    && (forall p :: p in found <==> p in ps[..i] && p in details)
    && |found| <= i
    && (|found| == i <==> Distinct(ps[..i]) && forall j :: 0 <= j < i ==> ps[j] in details)
  }

  ghost predicate AllFit(details: map<nat, ProcessDetail>, chainId: nat, ps: seq<nat>, i: nat)
    requires i <= |ps|
  {
    forall j :: 0 <= j < i && ps[j] in details ==> details[ps[j]].availableForAllocations && details[ps[j]].chainId == chainId
  }

  lemma AllFitStep(details: map<nat, ProcessDetail>, chainId: nat, ps: seq<nat>, i: nat)
    requires i < |ps|
    ensures AllFit(details, chainId, ps, i + 1)
       <==> AllFit(details, chainId, ps, i)
            && (ps[i] in details ==> details[ps[i]].availableForAllocations && details[ps[i]].chainId == chainId)
  {
  }

  lemma FoundStep(details: map<nat, ProcessDetail>, ps: seq<nat>, i: nat, found: set<nat>)
    requires i < |ps| && Found(details, ps, i, found)
    ensures Found(details, ps, i + 1, if ps[i] in details then found + {ps[i]} else found)
  {
    assert ps[..i + 1] == ps[..i] + [ps[i]];
    DistinctExtends(ps, i);
  }

  lemma FoundAndFit(details: map<nat, ProcessDetail>, chainId: nat, ps: seq<nat>)
    ensures (forall j :: 0 <= j < |ps| ==> ps[j] in details) && AllFit(details, chainId, ps, |ps|)
       <==> forall p :: p in ps ==> p in AllocatableProcesses(details, chainId)
    ensures ps[..|ps|] == ps
  {
    if forall p :: p in ps ==> p in AllocatableProcesses(details, chainId) {
      assert forall j :: 0 <= j < |ps| ==> ps[j] in ps && ps[j] in AllocatableProcesses(details, chainId);
    }
  }

  lemma DistinctExtends(ps: seq<nat>, i: nat)
    requires i < |ps|
    ensures Distinct(ps[..i + 1]) <==> Distinct(ps[..i]) && ps[i] !in ps[..i]
  {
    var a, b := ps[..i], ps[..i + 1];
    assert b == a + [ps[i]];
    if ps[i] in a {
      var j :| 0 <= j < i && a[j] == ps[i];
      assert b[j] == b[i];
    }
    if Distinct(b) {
      assert forall j, k :: 0 <= j < k < i ==> a[j] == b[j] && a[k] == b[k];
    }
  }

  predicate AllWorking(rows: seq<Row>, ws: seq<nat>) {
    forall j :: 0 <= j < |ws| ==> ws[j] < |rows| && rows[ws[j]].process.Some?
  }

  /** The working rows among the first n, in table order. */
  function Working(rows: seq<Row>, n: nat): (ws: seq<nat>)
    requires n <= |rows|
    ensures AllWorking(rows, ws)
  {
    if n == 0 then []
    else if IsWorking(rows[n - 1]) then Working(rows, n - 1) + [n - 1]
    else Working(rows, n - 1)
  }

  lemma {:induction false} WorkingAscends(rows: seq<Row>, n: nat)
    requires n <= |rows|
    ensures forall j :: 0 <= j < |Working(rows, n)| ==> Working(rows, n)[j] < n
    ensures forall i, j :: 0 <= i < j < |Working(rows, n)| ==> Working(rows, n)[i] < Working(rows, n)[j]
  {
    if n > 0 {
      WorkingAscends(rows, n - 1);
    }
  }

  lemma {:induction false} WorkingComplete(rows: seq<Row>, n: nat, w: nat)
    requires w < n <= |rows| && IsWorking(rows[w])
    ensures w in Working(rows, n)
  {
    if w < n - 1 {
      WorkingComplete(rows, n - 1, w);
    }
  }

  /** Worker w is the first of ws[..k] that is on process p. */
  ghost predicate FirstOf(rows: seq<Row>, ws: seq<nat>, k: nat, p: nat, w: nat)
    requires k <= |ws| && forall j :: 0 <= j < |ws| ==> ws[j] < |rows|
  {
    exists j :: 0 <= j < k && ws[j] == w && rows[w].process == Some(p) && NoneBefore(rows, ws, j, p)
  }

  ghost predicate NoneBefore(rows: seq<Row>, ws: seq<nat>, j: nat, p: nat)
    requires j <= |ws| && forall j :: 0 <= j < |ws| ==> ws[j] < |rows|
  {
    forall i :: 0 <= i < j ==> rows[ws[i]].process != Some(p)
  }

  /** What the first k working rows leave in the fields of the script: the processes in table order, and per process the
      workers found there with the status they had, the first row first. */
  ghost predicate Grouped(rows: seq<Row>, ws: seq<nat>, k: nat, ids: seq<nat>, m: map<nat, seq<(nat, Status)>>)
    requires k <= |ws| && AllWorking(rows, ws)
  {
    && |ids| == k
    && (forall j :: 0 <= j < k ==> ids[j] == rows[ws[j]].process.value && ids[j] in m)
    && (forall p :: p in m ==> Group(rows, ws, k, p, m[p]))
  }

  ghost predicate Group(rows: seq<Row>, ws: seq<nat>, k: nat, p: nat, group: seq<(nat, Status)>)
    requires k <= |ws| && AllWorking(rows, ws)
  {
    group != [] && FirstOf(rows, ws, k, p, group[0].0) && group[0].1 == rows[group[0].0].status
  }

  lemma GroupedStep(rows: seq<Row>, ws: seq<nat>, k: nat, ids: seq<nat>, m: map<nat, seq<(nat, Status)>>)
    requires k < |ws| && AllWorking(rows, ws) && Grouped(rows, ws, k, ids, m)
    ensures var p := rows[ws[k]].process.value;
            var group := if p in m then m[p] else [];
            Grouped(rows, ws, k + 1, ids + [p], m[p := group + [(ws[k], rows[ws[k]].status)]])
  {
    var p := rows[ws[k]].process.value;
    var group := if p in m then m[p] else [];
    var next := m[p := group + [(ws[k], rows[ws[k]].status)]];
    forall q | q in next
      ensures Group(rows, ws, k + 1, q, next[q])
    {
      if q in m {
        assert Group(rows, ws, k, q, m[q]);
        var j :| 0 <= j < k && ws[j] == m[q][0].0 && rows[ws[j]].process == Some(q) && NoneBefore(rows, ws, j, q);
        assert next[q][0] == m[q][0];
      }
    }
  }

  lemma GroupedHead(rows: seq<Row>, ids: seq<nat>, m: map<nat, seq<(nat, Status)>>, k: nat)
    requires var ws := Working(rows, |rows|); Grouped(rows, ws, |ws|, ids, m) && k < |ws|
    ensures ids[k] in m && m[ids[k]] != []
    ensures var p := ids[k];
            && p == rows[Working(rows, |rows|)[k]].process.value
            && FirstOn(rows, p, 0) == Some(m[p][0].0) && m[p][0].1 == rows[m[p][0].0].status
  {
    var p := ids[k];
    assert Group(rows, Working(rows, |rows|), |Working(rows, |rows|)|, p, m[p]);
    FirstOfIsFirstOn(rows, p, m[p][0].0);
  }

  lemma FirstOfIsFirstOn(rows: seq<Row>, p: nat, w: nat)
    requires var ws := Working(rows, |rows|); FirstOf(rows, ws, |ws|, p, w)
    ensures FirstOn(rows, p, 0) == Some(w)
  {
    var ws := Working(rows, |rows|);
    var j :| 0 <= j < |ws| && ws[j] == w && rows[w].process == Some(p) && NoneBefore(rows, ws, j, p);
    forall v | 0 <= v < w
      ensures rows[v].process != Some(p)
    {
      EarlierElsewhere(rows, p, j, v);
    }
    LeastIsFirstOn(rows, p, 0, w);
  }

  lemma EarlierElsewhere(rows: seq<Row>, p: nat, j: nat, v: nat)
    requires var ws := Working(rows, |rows|); j < |ws| && NoneBefore(rows, ws, j, p) && v < ws[j]
    ensures rows[v].process != Some(p)
  {
    var ws := Working(rows, |rows|);
    WorkingAscends(rows, |rows|);
    if IsWorking(rows[v]) {
      WorkingComplete(rows, |rows|, v);
    }
  }

  lemma {:induction false} LeastIsFirstOn(rows: seq<Row>, p: nat, k: nat, w: nat)
    requires k <= w < |rows| && rows[w].process == Some(p)
    requires forall v :: k <= v < w ==> rows[v].process != Some(p)
    ensures FirstOn(rows, p, k) == Some(w)
    decreases w - k
  {
    if k < w {
      LeastIsFirstOn(rows, p, k + 1, w);
    }
  }

  /** The marker for the process of row w: it names the first row found there. */
  ghost function MarkerAt(rows: seq<Row>, op: nat, w: nat): (a: Action)
    requires w < |rows| && rows[w].process.Some?
  {
    var p := rows[w].process.value;
    var first := FirstOn(rows, p, 0).value;
    Publish(p, MarkBlockingToOriginal(Some(first), rows[first].status, op))
  }

  /** The markers for the first k of the working rows ws. */
  ghost function MarkersFor(rows: seq<Row>, op: nat, ws: seq<nat>, k: nat): (r: seq<Action>)
    requires k <= |ws| && AllWorking(rows, ws)
  {
    if k == 0 then [] else MarkersFor(rows, op, ws, k - 1) + [MarkerAt(rows, op, ws[k - 1])]
  }

  lemma {:induction false} MarkersForPrefix(rows: seq<Row>, op: nat, ws: seq<nat>, us: seq<nat>, k: nat)
    requires k <= |ws| && ws <= us && AllWorking(rows, ws) && AllWorking(rows, us)
    ensures MarkersFor(rows, op, us, k) == MarkersFor(rows, op, ws, k)
  {
    if k > 0 {
      MarkersForPrefix(rows, op, ws, us, k - 1);
    }
  }

  ghost predicate Marked(rows: seq<Row>, op: nat, ws: seq<nat>, actions: seq<Action>) {
    AllWorking(rows, ws) && MarkersFor(rows, op, ws, |ws|) == actions
  }

  lemma MarkedOn(rows: seq<Row>, op: nat, ws: seq<nat>, w: nat, actions: seq<Action>)
    requires Marked(rows, op, ws, actions) && w < |rows| && rows[w].process.Some?
    ensures Marked(rows, op, ws + [w], actions + [MarkerAt(rows, op, w)])
  {
    MarkersForPrefix(rows, op, ws, ws + [w], |ws|);
  }

  lemma MarkedStep(rows: seq<Row>, op: nat, n: nat)
    requires 0 < n <= |rows|
    ensures Working(rows, n) == Working(rows, n - 1) + if rows[n - 1].process.Some? then [n - 1] else []
    ensures MarkerActions(rows, op, n)
         == MarkerActions(rows, op, n - 1) + if rows[n - 1].process.Some? then [MarkerAt(rows, op, n - 1)] else []
  {
  }

  lemma {:induction false} MarkersForWorking(rows: seq<Row>, op: nat, n: nat)
    requires n <= |rows|
    ensures Marked(rows, op, Working(rows, n), MarkerActions(rows, op, n))
  {
    if n > 0 {
      MarkersForWorking(rows, op, n - 1);
      MarkedStep(rows, op, n);
      if rows[n - 1].process.Some? {
        MarkedOn(rows, op, Working(rows, n - 1), n - 1, MarkerActions(rows, op, n - 1));
      }
    }
  }

  // ------------------------------------------------------------------ the disassociation script

  /** The state after the accepted script: the table updated, markers and hold messages pending. */
  ghost predicate Taken(s: World, ps: seq<nat>, t: World)
    requires CanDisassociate(s, ps)
  {
    var rows := Detach(s.rows, WorkersOn(s.rows, ps));
    t == s.(rows := rows, ops := s.ops + 1, outbox := CommandMsgs(s.rows, rows, ps, WorkersOn(s.rows, ps), s.ops))
  }

  /** The markers for the processes ps, then the hold messages for the rows still on a process. */
  ghost function CommandMsgs(rows: seq<Row>, detached: seq<Row>, ps: seq<nat>, ids: seq<nat>, op: nat): (r: seq<Action>)
  {
    SortedKeysInRange(ids, |rows|);
    assert forall i :: 0 <= i < |SortedKeys(ids, |rows|)| ==> SortedKeys(ids, |rows|)[i] in SortedKeys(ids, |rows|);
    ReleaseActions(rows, ps, SortedKeys(ids, |rows|), op, |ps|) + SiblingActions(detached, op, |detached|)
  }

  lemma TakenIsDisassociate(s: World, ps: seq<nat>, t: World)
    requires s.outbox == [] && CanDisassociate(s, ps) && Taken(s, ps, t)
    ensures t == WorkerProtocol.Disassociate(s, ps)
  {
    DisassociateForm(s, ps);
  }

  class DeassociateWorker {
    const fleet: Fleet
    const processIds: seq<nat>
    var idArray: seq<nat>
    var idStatusMap: map<nat, Status>

    constructor (fleet: Fleet, processIds: seq<nat>)
      ensures this.fleet == fleet && this.processIds == processIds && idArray == [] && idStatusMap == map[]
    {
      this.fleet, this.processIds := fleet, processIds;
      idArray, idStatusMap := [], map[];
    }

    method Perform()
      requires fleet.outbox == [] && idArray == [] && idStatusMap == map[]
      modifies this, fleet
      ensures fleet.View() == WorkerProtocol.Disassociate(old(fleet.View()), processIds)
    {
      if processIds == [] {
        return;
      }
      var ok := ValidateTemporaryStatus();
      if !ok {
        return;
      }
      ok := Validate();
      if !ok {
        return;
      }
      ghost var s := fleet.View();
      Disassociate();
      TakenIsDisassociate(s, processIds, fleet.View());
    }

    /** The script past its validations. */
    method Disassociate()
      requires fleet.outbox == [] && idArray == [] && idStatusMap == map[] && CanDisassociate(fleet.View(), processIds)
      modifies this, fleet
      ensures Taken(old(fleet.View()), processIds, fleet.View())
    {
      ghost var rows := fleet.rows;
      GetProcessWorkerAssociationId();
      RemoveProcessWorkerAssociation();
      SendCommandMsg(rows);
      fleet.ops := fleet.ops + 1;
    }

    method ValidateTemporaryStatus() returns (ok: bool)
      ensures ok <==> forall w :: 0 <= w < |fleet.rows| ==> !IsTemporary(fleet.rows[w])
    {
      ok := true;
      for i := 0 to |fleet.rows|
        invariant ok <==> forall w :: 0 <= w < i ==> !IsTemporary(fleet.rows[w])
      {
        if fleet.rows[i].status == Blocking || fleet.rows[i].status == Hold {
          ok := false;
        }
      }
    }

    method Validate() returns (ok: bool)
      ensures ok <==> forall i :: 0 <= i < |processIds| ==> FirstOn(fleet.rows, processIds[i], 0).Some?
    {
      for i := 0 to |processIds|
        invariant forall j :: 0 <= j < i ==> FirstOn(fleet.rows, processIds[j], 0).Some?
      {
        if FirstOn(fleet.rows, processIds[i], 0).None? {
          return false;
        }
      }
      return true;
    }

    method GetProcessWorkerAssociationId()
      requires forall i :: 0 <= i < |processIds| ==> FirstOn(fleet.rows, processIds[i], 0).Some?
      requires idArray == [] && idStatusMap == map[]
      modifies this
      ensures idArray == WorkersOn(fleet.rows, processIds)
      ensures forall w :: w in idStatusMap <==> w in idArray
      ensures forall w :: w in idStatusMap ==> w < |fleet.rows| && idStatusMap[w] == fleet.rows[w].status
    {
      for i := 0 to |processIds|
        invariant idArray == WorkersOn(fleet.rows, processIds)[..i]
        invariant forall w :: w in idStatusMap <==> w in idArray
        invariant forall w :: w in idStatusMap ==> w < |fleet.rows| && idStatusMap[w] == fleet.rows[w].status
      {
        var id := FirstOn(fleet.rows, processIds[i], 0).value;
        idStatusMap := idStatusMap[id := fleet.rows[id].status];
        idArray := idArray + [id];
      }
    }

    method RemoveProcessWorkerAssociation()
      modifies fleet`rows
      ensures fleet.rows == Detach(old(fleet.rows), idArray)
    {
      var i := 0;
      while i < |fleet.rows|
        modifies fleet`rows
        invariant 0 <= i <= |fleet.rows| == |old(fleet.rows)|
        invariant forall w :: 0 <= w < i ==> fleet.rows[w] == Detach(old(fleet.rows), idArray)[w]
        invariant forall w :: i <= w < |fleet.rows| ==> fleet.rows[w] == old(fleet.rows)[w]
      {
        if i in idArray {
          fleet.rows := fleet.rows[i := fleet.rows[i].(process := None, status := Blocking)];
        }
        i := i + 1;
      }
    }

    /** The property names of `idStatusMap`, which JavaScript lists in ascending numeric order. */
    method ObjectKeys(bound: nat) returns (keys: seq<nat>)
      requires forall w :: w in idStatusMap <==> w in idArray
      ensures keys == SortedKeys(idArray, bound)
    {
      keys := [];
      for n := 0 to bound
        invariant keys == SortedKeys(idArray, n)
      {
        if n in idStatusMap {
          keys := keys + [n];
        }
      }
    }

    /** The marker loop pairs the i-th process with the i-th key of the status map, not with the i-th collected id. */
    method SendCommandMsg(ghost rows: seq<Row>)
      requires |rows| == |fleet.rows| && |idArray| == |processIds|
      requires forall w :: w in idStatusMap <==> w in idArray
      requires forall w :: w in idStatusMap ==> w < |rows| && idStatusMap[w] == rows[w].status
      modifies fleet`outbox
      ensures fleet.outbox == old(fleet.outbox) + CommandMsgs(rows, fleet.rows, processIds, idArray, fleet.ops)
    {
      var keys := ObjectKeys(|fleet.rows|);
      SortedKeysInRange(idArray, |rows|);
      assert forall i :: 0 <= i < |keys| ==> keys[i] in keys;
      for i := 0 to |idArray|
        modifies fleet`outbox
        invariant fleet.outbox == old(fleet.outbox) + ReleaseActions(rows, processIds, keys, fleet.ops, i)
      {
        var m := if i < |keys| then MarkBlockingToOriginal(Some(keys[i]), idStatusMap[keys[i]], fleet.ops)
                 else MarkBlockingToOriginal(None, Active, fleet.ops);
        fleet.outbox := fleet.outbox + [Publish(processIds[i], m)];
      }
      ghost var markers := fleet.outbox;
      for i := 0 to |fleet.rows|
        modifies fleet`outbox
        invariant fleet.outbox == markers + SiblingActions(fleet.rows, fleet.ops, i)
      {
        if fleet.rows[i].process.Some? {
          fleet.outbox := fleet.outbox + [Publish(fleet.rows[i].process.value, GoOnHold(i, fleet.ops))];
        }
      }
    }
  }

  // ------------------------------------------------------------------ whole runs

  /** One step of the system.  Processes answer to the process table given with an association. */
  method Perform(fleet: Fleet, e: Event)
    requires Enabled(fleet.View(), e) && QueuesComplete(fleet.View())
    modifies fleet
    ensures fleet.View() == Next(old(fleet.View()), e)
  {
    match e {
      case Arrive(p, id) => fleet.PublishTransaction(p, id);
      case Advance => fleet.ContinueScript();
      case TakeTransaction(p) => fleet.TakeTransaction(p);
      case TakeCommand(p) => fleet.TakeCommand(p);
      case Reboot(p) => fleet.InitProcess(p);
      case StartAssociate(ps, allocatable) =>
        var script := new AssociateWorker(fleet, ps);
        var details := map p | p in allocatable && p < |fleet.txQueue| :: ProcessDetail(true, 0);
        script.Perform(details, 0);
        assert fleet.View() == Associate(old(fleet.View()), ps, allocatable);
      case StartDisassociate(ps) =>
        var script := new DeassociateWorker(fleet, ps);
        script.Perform();
    }
  }

  /** Every process has all its queues and flags. */
  ghost predicate QueuesComplete(s: World) {
    |s.cmdQueue| == |s.txQueue| == |s.consuming| == |s.executed|
  }

  /** The first n events have been performed from s on, and have led to t. */
  ghost predicate Performed(s: World, es: seq<Event>, n: nat, t: World) {
    n <= |es| && Reaches(s, es[..n], t)
  }

  lemma PerformedOneMore(s: World, es: seq<Event>, n: nat, t: World)
    requires n < |es| && Performed(s, es, n, t) && Enabled(t, es[n])
    ensures Performed(s, es, n + 1, Next(t, es[n]))
  {
    assert es[..n + 1] == es[..n] + [es[n]];
    OneStep(s, es[..n], t, es[n], Next(t, es[n]));
  }

  method Run(fleet: Fleet, es: seq<Event>) returns (done: nat)
    requires QueuesComplete(fleet.View())
    modifies fleet
    ensures done <= |es| && Reaches(old(fleet.View()), es[..done], fleet.View())
    ensures done < |es| ==> !Enabled(fleet.View(), es[done])
  {
    done := 0;
    ghost var start, now := fleet.View(), fleet.View();
    while done < |es|
      modifies fleet
      invariant done <= |es| && QueuesComplete(now) && fleet.View() == now
      invariant Performed(start, es, done, now)
    {
      if !Enabled(fleet.View(), es[done]) {
        return;
      }
      PerformedOneMore(start, es, done, now);
      Perform(fleet, es[done]);
      now := fleet.View();
      done := done + 1;
    }
    assert es[..done] == es;
  }
}
