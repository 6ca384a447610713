/** The delegator that publishes the transactions of every block, one block a cycle, through publication failures,
    exceptions, re-initialisations and crashes. */
module BlockDelegator {
  import opened Sequences
  import opened BatchCutting

  datatype Payload = Payload(block: nat, hashes: seq<string>)

  /** What the process waits for: the next cycle, a re-initialisation, or (stopped or crashed) a restart. */
  datatype Pending = NextCycle | ReInit | Down

  datatype Fault = Refusal | Exception | Crash

  /** Where the first thing goes wrong in a cycle.  A refusal means something only where the code looks at an answer:
      the block is not found, a message is not published. */
  datatype Trouble =
    | NoTrouble
    | NoNodes(fault: Fault)
    | NoBlock(fault: Fault)
    | NoPublication(sent: nat, fault: Fault)
    | NoWrite(fault: Fault)
    | AfterWrite(fault: Fault)

  datatype Scanner = Scanner(file: nat, lastProcessed: nat, published: seq<Payload>, pending: Pending)

  datatype Event =
    | Cycle(nodes: nat, trouble: Trouble)
    | StopSignalled
    | Initialise(ok: bool)
    | Killed

  /** The messages that announce the batches of a block when so many nodes have it. */
  function Payloads(block: nat, txs: seq<string>, nodes: nat): (ps: seq<Payload>)
    requires nodes > 0
  {
    Announced(block, Cut(txs, PerBatchCount(|txs|, nodes)))
  }

  function Announced(block: nat, batches: seq<seq<string>>): (ps: seq<Payload>)
    ensures |ps| == |batches|
  {
    seq(|batches|, k requires 0 <= k < |batches| => Payload(block, batches[k]))
  }

  function Up(s: Scanner, fault: Fault): (p: Pending)
  {
    match fault
    case Refusal => NextCycle
    case Exception => ReInit
    case Crash => Down
  }

  predicate Applicable(s: Scanner, e: Event) {
    match e
    case Cycle(_, t) =>
      s.pending == NextCycle && !((t.NoNodes? || t.NoWrite? || t.AfterWrite?) && t.fault == Refusal)
    case StopSignalled => s.pending == NextCycle
    case Initialise(_) => s.pending != NextCycle
    case Killed => true
  }

  /** The state after one event; chain gives the transactions of every block. */
  function After(s: Scanner, chain: nat -> seq<string>, e: Event): (t: Scanner)
    requires Applicable(s, e)
  {
    match e
    case StopSignalled => s.(pending := Down)
    case Killed => s.(pending := Down)
    case Initialise(ok) => if ok then s.(lastProcessed := s.file, pending := NextCycle) else s.(pending := Down)
    case Cycle(nodes, trouble) => AfterCycle(s, chain, nodes, trouble)
  }

  function AfterCycle(s: Scanner, chain: nat -> seq<string>, nodes: nat, trouble: Trouble): (t: Scanner)
  {
    if trouble.NoNodes? then s.(pending := Up(s, trouble.fault))
    else if nodes == 0 then s
    else if trouble.NoBlock? then s.(pending := Up(s, trouble.fault))
    else AfterBlock(s, Payloads(s.lastProcessed + 1, chain(s.lastProcessed + 1), nodes), trouble)
  }

  /** All messages of the next block go out, then memory and file move on to it; or trouble comes first. */
  function AfterBlock(s: Scanner, all: seq<Payload>, trouble: Trouble): (t: Scanner)
  {
    if trouble.NoPublication? && trouble.sent < |all| then
      s.(published := s.published + all[..trouble.sent], pending := Up(s, trouble.fault))
    else
      var t := s.(lastProcessed := s.lastProcessed + 1, published := s.published + all);
      if trouble.NoWrite? then t.(pending := Up(s, trouble.fault))
      else t.(file := s.lastProcessed + 1, pending := if trouble.AfterWrite? then Up(s, trouble.fault) else NextCycle)
  }

  ghost predicate Runs(s: Scanner, chain: nat -> seq<string>, es: seq<Event>, t: Scanner)
    decreases |es|
  {
    if es == [] then s == t
    else Applicable(s, es[0]) && Runs(After(s, chain, es[0]), chain, es[1..], t)
  }

  // ------------------------------------------------------------------ what every run keeps

  /** All the messages of one cut of the block stand in the log, one behind the other. */
  ghost predicate BlockPublished(log: seq<Payload>, block: nat, txs: seq<string>) {
    exists nodes: nat, i: nat :: nodes > 0 && CutAt(log, i, block, txs, nodes)
  }

  ghost predicate CutAt(log: seq<Payload>, i: nat, block: nat, txs: seq<string>, nodes: nat)
    requires nodes > 0
  {
    var all := Payloads(block, txs, nodes);
    i + |all| <= |log| && log[i..i + |all|] == all
  }

  /** The message is one of those that some cut of its block gives. */
  ghost predicate Genuine(p: Payload, chain: nat -> seq<string>) {
    exists nodes: nat :: nodes > 0 && p in Payloads(p.block, chain(p.block), nodes)
  }

  ghost predicate Covered(log: seq<Payload>, chain: nat -> seq<string>, start: nat, last: nat) {
    forall b :: start < b <= last ==> BlockPublished(log, b, chain(b))
  }

  ghost predicate Honest(log: seq<Payload>, chain: nat -> seq<string>, start: nat, next: nat) {
    forall i :: 0 <= i < |log| ==> start < log[i].block <= next && Genuine(log[i], chain)
  }

  ghost predicate InBlockOrder(log: seq<Payload>) {
    forall i, j :: 0 <= i < j < |log| ==> log[i].block <= log[j].block
  }

  ghost predicate Sound(s: Scanner, chain: nat -> seq<string>, start: nat) {
    && start <= s.file <= s.lastProcessed <= s.file + 1
    && (s.pending == NextCycle ==> s.lastProcessed == s.file)
    && Covered(s.published, chain, start, s.lastProcessed)
    && Honest(s.published, chain, start, s.file + 1)
    && InBlockOrder(s.published)
  }

  lemma PublishedStays(log: seq<Payload>, more: seq<Payload>, block: nat, txs: seq<string>)
    requires BlockPublished(log, block, txs)
    ensures BlockPublished(log + more, block, txs)
  {
    var nodes: nat, i: nat :| nodes > 0 && CutAt(log, i, block, txs, nodes);
    var n := |Payloads(block, txs, nodes)|;
    assert (log + more)[i..i + n] == log[i..i + n];
    assert CutAt(log + more, i, block, txs, nodes);
  }

  lemma CoverageStays(log: seq<Payload>, more: seq<Payload>, chain: nat -> seq<string>, start: nat, last: nat)
    requires Covered(log, chain, start, last)
    ensures Covered(log + more, chain, start, last)
  {
    forall b | start < b <= last
      ensures BlockPublished(log + more, b, chain(b))
    {
      PublishedStays(log, more, b, chain(b));
    }
  }

  lemma WholeBlock(log: seq<Payload>, chain: nat -> seq<string>, block: nat, nodes: nat)
    requires nodes > 0
    ensures BlockPublished(log + Payloads(block, chain(block), nodes), block, chain(block))
  {
    var all := Payloads(block, chain(block), nodes);
    assert (log + all)[|log|..|log| + |all|] == all;
    assert CutAt(log + all, |log|, block, chain(block), nodes);
  }

  lemma HonestyStays(log: seq<Payload>, chain: nat -> seq<string>, start: nat, next: nat, nodes: nat, sent: nat)
    requires Honest(log, chain, start, next) && nodes > 0 && start < next && sent <= |Payloads(next, chain(next), nodes)|
    ensures Honest(log + Payloads(next, chain(next), nodes)[..sent], chain, start, next)
  {
    var all := Payloads(next, chain(next), nodes);
    var more := log + all[..sent];
    forall i | 0 <= i < |more|
      ensures start < more[i].block <= next && Genuine(more[i], chain)
    {
      if i < |log| {
        assert more[i] == log[i];
      } else {
        assert more[i] == all[i - |log|];
        assert more[i] in all;
      }
    }
  }

  lemma AscentStays(log: seq<Payload>, chain: nat -> seq<string>, start: nat, next: nat, more: seq<Payload>)
    requires Honest(log, chain, start, next) && InBlockOrder(log) && forall i :: 0 <= i < |more| ==> more[i].block == next
    ensures InBlockOrder(log + more)
  {
  }

  /** The cycle gets as far as publishing. */
  predicate Publishes(e: Event) {
    e.Cycle? && e.nodes > 0 && !e.trouble.NoNodes? && !e.trouble.NoBlock?
  }

  lemma {:induction false} StepKeepsSound(s: Scanner, chain: nat -> seq<string>, start: nat, e: Event)
    requires Sound(s, chain, start) && Applicable(s, e)
    ensures Sound(After(s, chain, e), chain, start) && s.file <= After(s, chain, e).file
  {
    if Publishes(e) {
      var all := Payloads(s.file + 1, chain(s.file + 1), e.nodes);
      CycleKeepsSound(s, chain, start, e.nodes, all, e.trouble);
      assert After(s, chain, e) == AfterBlock(s, all, e.trouble);
    } else {
      QuietKeepsSound(s, chain, start, e);
    }
  }

  lemma {:induction false} QuietKeepsSound(s: Scanner, chain: nat -> seq<string>, start: nat, e: Event)
    requires Sound(s, chain, start) && Applicable(s, e) && !Publishes(e)
    ensures Sound(After(s, chain, e), chain, start) && s.file == After(s, chain, e).file
  {
    if e.Initialise? && e.ok {
      assert Covered(s.published, chain, start, s.file);
    }
  }

  lemma {:induction false} CycleKeepsSound(s: Scanner, chain: nat -> seq<string>, start: nat, nodes: nat, all: seq<Payload>, trouble: Trouble)
    requires Sound(s, chain, start) && Applicable(s, Cycle(nodes, trouble)) && nodes > 0
    requires all == Payloads(s.file + 1, chain(s.file + 1), nodes)
    ensures Sound(AfterBlock(s, all, trouble), chain, start)
  {
    if trouble.NoPublication? && trouble.sent < |all| {
      PartKeepsSound(s.published, chain, start, s.file, nodes, trouble.sent);
    } else {
      PartKeepsSound(s.published, chain, start, s.file, nodes, |all|);
      assert all[..|all|] == all;
      WholeBlock(s.published, chain, s.file + 1, nodes);
      CoveredOneMore(s.published + all, chain, start, s.file);
      HonestLonger(s.published + all, chain, start, s.file + 1);
    }
  }

  lemma CoveredOneMore(log: seq<Payload>, chain: nat -> seq<string>, start: nat, last: nat)
    requires Covered(log, chain, start, last) && BlockPublished(log, last + 1, chain(last + 1))
    ensures Covered(log, chain, start, last + 1)
  {
  }

  lemma PartKeepsSound(log: seq<Payload>, chain: nat -> seq<string>, start: nat, file: nat, nodes: nat, sent: nat)
    requires Covered(log, chain, start, file) && Honest(log, chain, start, file + 1) && InBlockOrder(log)
    requires start <= file && nodes > 0 && sent <= |Payloads(file + 1, chain(file + 1), nodes)|
    ensures var more := log + Payloads(file + 1, chain(file + 1), nodes)[..sent];
      Covered(more, chain, start, file) && Honest(more, chain, start, file + 1) && InBlockOrder(more)
  {
    var more := Payloads(file + 1, chain(file + 1), nodes)[..sent];
    CoverageStays(log, more, chain, start, file);
    HonestyStays(log, chain, start, file + 1, nodes, sent);
    AscentStays(log, chain, start, file + 1, more);
  }

  lemma HonestLonger(log: seq<Payload>, chain: nat -> seq<string>, start: nat, next: nat)
    requires Honest(log, chain, start, next)
    ensures Honest(log, chain, start, next + 1)
  {
  }

  /** Whatever goes wrong, the last processed block, in memory or on file, never runs ahead of the publications: every block
      above the starting value up to it has been cut and published completely; every message ever published is one of its
      block's cut, no block beyond the next one has been touched, and blocks come in ascending order. */
  lemma {:induction false} RunKeepsSound(s: Scanner, chain: nat -> seq<string>, start: nat, es: seq<Event>, t: Scanner)
    requires Sound(s, chain, start) && Runs(s, chain, es, t)
    ensures Sound(t, chain, start) && s.file <= t.file
    decreases |es|
  {
    if es != [] {
      StepKeepsSound(s, chain, start, es[0]);
      RunKeepsSound(After(s, chain, es[0]), chain, start, es[1..], t);
    }
  }

  function Fresh(start: nat): (s: Scanner)
  {
    Scanner(start, start, [], NextCycle)
  }

  lemma EveryTransactionPublished(chain: nat -> seq<string>, start: nat, es: seq<Event>, t: Scanner, b: nat, h: string)
    requires Runs(Fresh(start), chain, es, t)
    requires start < b && (b <= t.lastProcessed || b <= t.file) && h in chain(b)
    ensures exists i :: 0 <= i < |t.published| && t.published[i].block == b && h in t.published[i].hashes
  {
    RunKeepsSound(Fresh(start), chain, start, es, t);
    assert BlockPublished(t.published, b, chain(b));
    var nodes: nat, i: nat :| nodes > 0 && CutAt(t.published, i, b, chain(b), nodes);
    var p := PerBatchCount(|chain(b)|, nodes);
    CutIsComplete(chain(b), p);
    var k := InSomeBatch(Cut(chain(b), p), h);
    var all := Payloads(b, chain(b), nodes);
    assert t.published[i..i + |all|][k] == all[k];
    assert t.published[i + k] == all[k];
  }

  lemma {:induction false} InSomeBatch(batches: seq<seq<string>>, h: string) returns (k: nat)
    requires h in Concat(batches)
    ensures k < |batches| && h in batches[k]
  {
    if h in batches[|batches| - 1] {
      k := |batches| - 1;
    } else {
      k := InSomeBatch(batches[..|batches| - 1], h);
    }
  }

  /** The log u extends the log s, and only with messages about blocks above file. */
  ghost predicate OnlyNewer(s: seq<Payload>, u: seq<Payload>, file: nat) {
    s <= u && forall i :: |s| <= i < |u| ==> u[i].block > file
  }

  lemma OnlyNewerTransitive(s: seq<Payload>, u: seq<Payload>, t: seq<Payload>, file: nat, later: nat)
    requires OnlyNewer(s, u, file) && OnlyNewer(u, t, later) && file <= later
    ensures OnlyNewer(s, t, file)
  {
    forall i | |s| <= i < |t|
      ensures t[i].block > file
    {
      assert i < |u| ==> t[i] == u[i];
    }
  }

  lemma StepOnlyNewer(s: Scanner, chain: nat -> seq<string>, e: Event)
    requires s.file <= s.lastProcessed && Applicable(s, e)
    ensures OnlyNewer(s.published, After(s, chain, e).published, s.file)
  {
  }

  /** Once a block is on file, nothing takes it back: no later message is about it or an earlier block. */
  lemma {:induction false} NeverRepublished(s: Scanner, chain: nat -> seq<string>, start: nat, es: seq<Event>, t: Scanner)
    requires Sound(s, chain, start) && Runs(s, chain, es, t)
    ensures OnlyNewer(s.published, t.published, s.file)
    decreases |es|
  {
    if es != [] {
      var u := After(s, chain, es[0]);
      StepKeepsSound(s, chain, start, es[0]);
      StepOnlyNewer(s, chain, es[0]);
      NeverRepublished(u, chain, start, es[1..], t);
      OnlyNewerTransitive(s.published, u.published, t.published, s.file, u.file);
    }
  }

  // ------------------------------------------------------------------ runs without trouble

  ghost predicate Untroubled(es: seq<Event>) {
    forall i :: 0 <= i < |es| ==> es[i].Cycle? && es[i].nodes > 0 && es[i].trouble.NoTrouble?
  }

  ghost function OneCutEach(chain: nat -> seq<string>, block: nat, es: seq<Event>): (log: seq<Payload>)
    requires Untroubled(es)
    decreases |es|
  {
    if es == [] then []
    else Payloads(block, chain(block), es[0].nodes) + OneCutEach(chain, block + 1, es[1..])
  }

  lemma UntroubledCycle(s: Scanner, chain: nat -> seq<string>, e: Event)
    requires s.pending == NextCycle && s.file == s.lastProcessed && e.Cycle? && e.nodes > 0 && e.trouble.NoTrouble?
    ensures Applicable(s, e)
    ensures After(s, chain, e)
         == Scanner(s.file + 1, s.file + 1, s.published + Payloads(s.file + 1, chain(s.file + 1), e.nodes), NextCycle)
  {
  }

  lemma LogGrows(log: seq<Payload>, chain: nat -> seq<string>, block: nat, es: seq<Event>)
    requires Untroubled(es) && es != []
    ensures Untroubled(es[1..])
    ensures log + OneCutEach(chain, block, es)
         == (log + Payloads(block, chain(block), es[0].nodes)) + OneCutEach(chain, block + 1, es[1..])
  {
  }

  /** Without trouble every cycle moves on by exactly one block and the log holds one cut of every block, in order. */
  lemma {:induction false} UntroubledRun(s: Scanner, chain: nat -> seq<string>, es: seq<Event>, t: Scanner)
    requires s.pending == NextCycle && s.file == s.lastProcessed && Untroubled(es) && Runs(s, chain, es, t)
    ensures t.file == t.lastProcessed == s.file + |es|
    ensures t.published == s.published + OneCutEach(chain, s.file + 1, es)
    decreases |es|
  {
    if es != [] {
      UntroubledCycle(s, chain, es[0]);
      LogGrows(s.published, chain, s.file + 1, es);
      UntroubledRun(After(s, chain, es[0]), chain, es[1..], t);
    }
  }

  /** Cycles without trouble can always go on. */
  lemma {:induction false} UntroubledIsRun(s: Scanner, chain: nat -> seq<string>, es: seq<Event>) returns (t: Scanner)
    requires s.pending == NextCycle && s.file == s.lastProcessed && Untroubled(es)
    ensures Runs(s, chain, es, t) && t.pending == NextCycle
    decreases |es|
  {
    t := s;
    if es != [] {
      UntroubledCycle(s, chain, es[0]);
      assert Untroubled(es[1..]);
      t := UntroubledIsRun(After(s, chain, es[0]), chain, es[1..]);
    }
  }

  /** From wherever a cycle broke off or the process was stopped or killed, one successful initialisation is enough: cycles without
      trouble can follow, and they delegate the blocks after the one on file, one cut each. */
  lemma {:induction false} Recovery(s: Scanner, chain: nat -> seq<string>, es: seq<Event>)
    requires s.pending != NextCycle && Untroubled(es)
    ensures var n := s.file + |es|;
      Runs(s, chain, [Initialise(true)] + es, Scanner(n, n, s.published + OneCutEach(chain, s.file + 1, es), NextCycle))
  {
    var u := After(s, chain, Initialise(true));
    var t := UntroubledIsRun(u, chain, es);
    UntroubledRun(u, chain, es, t);
    InitialisedRun(s, chain, es, t);
  }

  lemma {:induction false} InitialisedRun(s: Scanner, chain: nat -> seq<string>, es: seq<Event>, t: Scanner)
    requires s.pending != NextCycle && Runs(After(s, chain, Initialise(true)), chain, es, t)
    ensures Runs(s, chain, [Initialise(true)] + es, t)
  {
    assert ([Initialise(true)] + es)[1..] == es;
  }

  /** A cycle whose block is not found or one of whose messages is refused is tried again: the next one without trouble takes the
      same block from its start. */
  lemma RefusalIsRetried(s: Scanner, chain: nat -> seq<string>, nodes: nat, trouble: Trouble, again: nat)
    requires s.pending == NextCycle && s.file == s.lastProcessed && nodes > 0 && again > 0
    requires trouble == NoBlock(Refusal)
      || (trouble.NoPublication? && trouble.fault == Refusal && trouble.sent < |Payloads(s.file + 1, chain(s.file + 1), nodes)|)
    ensures Applicable(s, Cycle(nodes, trouble))
    ensures var u := After(s, chain, Cycle(nodes, trouble));
      && s.published <= u.published && Applicable(u, Cycle(again, NoTrouble))
      && After(u, chain, Cycle(again, NoTrouble))
         == Scanner(s.file + 1, s.file + 1, u.published + Payloads(s.file + 1, chain(s.file + 1), again), NextCycle)
  {
    UntroubledCycle(After(s, chain, Cycle(nodes, trouble)), chain, Cycle(again, NoTrouble));
  }

  /** The block that trouble other than a refusal hit, as far as it got: how many of its messages went out, and the block the
      delegator goes on with. */
  function SentBefore(trouble: Trouble, all: seq<Payload>): (k: nat)
    ensures k <= |all|
  {
    match trouble
    case NoNodes(_) => 0
    case NoBlock(_) => 0
    case NoPublication(sent, _) => Min(sent, |all|)
    case _ => |all|
  }

  /** What trouble costs: the messages before it stay in the log; once the process is initialised again, the block is delegated anew
      and whole, unless the file already had it, and then the blocks after it, one cut each.  Until then no cycle is possible. */
  lemma {:induction false} TroubleCosts(s: Scanner, chain: nat -> seq<string>, nodes: nat, trouble: Trouble, es: seq<Event>)
    requires s.pending == NextCycle && s.file == s.lastProcessed && nodes > 0 && Untroubled(es)
    requires !trouble.NoTrouble? && trouble.fault != Refusal
    requires var all := Payloads(s.file + 1, chain(s.file + 1), nodes); trouble.NoPublication? ==> trouble.sent < |all|
    ensures var all := Payloads(s.file + 1, chain(s.file + 1), nodes);
      var next := if trouble.AfterWrite? then s.file + 2 else s.file + 1;
      var u, n := After(s, chain, Cycle(nodes, trouble)), next - 1 + |es|;
      && u.pending == (if trouble.fault == Exception then ReInit else Down)
      && Runs(u, chain, [Initialise(true)] + es,
              Scanner(n, n, s.published + all[..SentBefore(trouble, all)] + OneCutEach(chain, next, es), NextCycle))
  {
    var all := Payloads(s.file + 1, chain(s.file + 1), nodes);
    assert all[..|all|] == all && s.published + all[..0] == s.published;
    Recovery(After(s, chain, Cycle(nodes, trouble)), chain, es);
  }

  /** Without nodes a cycle does nothing, and the next one can follow. */
  lemma IdleCycle(s: Scanner, chain: nat -> seq<string>)
    requires s.pending == NextCycle
    ensures Applicable(s, Cycle(0, NoTrouble)) && After(s, chain, Cycle(0, NoTrouble)) == s
  {
  }

  /** The event stops the process if it happens. */
  predicate Stops(e: Event) {
    match e
    case StopSignalled => true
    case Killed => true
    case Initialise(ok) => !ok
    case Cycle(_, trouble) => !trouble.NoTrouble? && trouble.fault == Crash
  }

  /** Nothing but a signal, a kill, a crash or a failed initialisation stops the process: exceptions and refusals do not. */
  lemma {:induction false} OnlyStopsStop(s: Scanner, chain: nat -> seq<string>, es: seq<Event>, t: Scanner)
    requires Runs(s, chain, es, t) && s.pending != Down && forall i :: 0 <= i < |es| ==> !Stops(es[i])
    ensures t.pending != Down
    decreases |es|
  {
    if es != [] {
      assert !Stops(es[0]) && forall i :: 0 <= i < |es| - 1 ==> es[1..][i] == es[i + 1];
      OnlyStopsStop(After(s, chain, es[0]), chain, es[1..], t);
    }
  }

  /** A stopped process does nothing until it is initialised. */
  lemma {:induction false} StaysDown(s: Scanner, chain: nat -> seq<string>, e: Event, es: seq<Event>, t: Scanner)
    requires e in {StopSignalled, Killed, Initialise(false)} && Applicable(s, e) && Runs(After(s, chain, e), chain, es, t)
    requires Initialise(true) !in es
    ensures t == s.(pending := Down) && forall i :: 0 <= i < |es| ==> !es[i].Cycle?
    decreases |es|
  {
    if es != [] {
      assert After(s, chain, e) == s.(pending := Down);
      var u := After(s.(pending := Down), chain, es[0]);
      assert es[0] != Initialise(true);
      DownIsIdle(s.(pending := Down), chain, es[0]);
      assert forall i :: 0 <= i < |es| - 1 ==> es[1..][i] == es[i + 1];
      StaysDown(s, chain, e, es[1..], t);
    }
  }

  lemma DownIsIdle(s: Scanner, chain: nat -> seq<string>, e: Event)
    requires s.pending == Down && Applicable(s, e) && e != Initialise(true)
    ensures After(s, chain, e) == s && !e.Cycle?
  {
  }

  lemma NextPayload(block: nat, txs: seq<string>, p: real, k: nat)
    requires MIN_TXS_PER_WORKER <= p <= MAX_TXS_PER_WORKER && k < NoOfBatches(|txs|, p)
    ensures var (all, slice) := (Announced(block, Cut(txs, p)), Slice(txs, Offset(p, k), Offset(p, k) + p));
      && k < |all| && slice != [] && all[..k + 1] == all[..k] + [Payload(block, slice)] && Offset(p, k + 1) == Offset(p, k) + p
  {
    BatchSizes(txs, p, k);
    var all := Announced(block, Cut(txs, p));
    assert all[k] == Payload(block, Batch(txs, p, k));
  }

  // ------------------------------------------------------------------ the running program

  datatype Response = Distributed | FailureCode | Thrown | Dead

  class TransactionDelegator {
    var file: nat
    var lastProcessedBlock: nat
    var currentBlock: nat
    var canExit: bool
    var published: seq<Payload>
    var pending: Pending
    const chain: nat -> seq<string>

    function View(): (s: Scanner)
      reads this
    {
      Scanner(file, lastProcessedBlock, published, pending)
    }

    constructor (chain: nat -> seq<string>, start: nat)
      ensures View() == Fresh(start) && this.chain == chain && canExit
    {
      this.chain := chain;
      file, lastProcessedBlock, currentBlock, canExit, published, pending := start, start, 0, true, [], NextCycle;
    }

    /** Read the last processed block from the file; a failure ends the process. */
    method Init(ok: bool)
      requires Applicable(View(), Initialise(ok))
      modifies this
      ensures View() == After(old(View()), chain, Initialise(ok))
    {
      if ok {
        lastProcessedBlock := file;
        pending := NextCycle;
      } else {
        pending := Down;
      }
    }

    method CheckForNewBlocks(nodes: nat, trouble: Trouble)
      requires Applicable(View(), Cycle(nodes, trouble))
      modifies this
      ensures View() == After(old(View()), chain, Cycle(nodes, trouble))
      ensures old(canExit) && pending != Down ==> canExit
    {
      if trouble.NoNodes? {
        Caught(trouble.fault);
        return;
      }
      if nodes == 0 {
        return;
      }
      canExit := false;
      currentBlock := lastProcessedBlock + 1;
      var response := DistributeTransactions(nodes, trouble);
      match response {
        case FailureCode => canExit := true;
        case Thrown => Caught(Exception);
        case Dead => Caught(Crash);
        case Distributed => UpdateScannerDataFile(trouble);
      }
    }

    /** The catch block of a cycle, or the end of the process. */
    method Caught(fault: Fault)
      requires fault != Refusal
      modifies this`canExit, this`pending
      ensures pending == Up(old(View()), fault) && (fault == Exception ==> canExit)
    {
      if fault == Exception {
        canExit := true;
        pending := ReInit;
      } else {
        pending := Down;
      }
    }

    function Answer(fault: Fault): (r: Response)
    {
      match fault
      case Refusal => FailureCode
      case Exception => Thrown
      case Crash => Dead
    }

    method DistributeTransactions(nodes: nat, trouble: Trouble) returns (response: Response)
      requires nodes > 0
      modifies this`published
      ensures var all := Payloads(currentBlock, chain(currentBlock), nodes);
        if trouble.NoBlock? then response == Answer(trouble.fault) && published == old(published)
        else if trouble.NoPublication? && trouble.sent < |all| then
          response == Answer(trouble.fault) && published == old(published) + all[..trouble.sent]
        else response == Distributed && published == old(published) + all
    {
      if trouble.NoBlock? {
        return Answer(trouble.fault);
      }
      var transactions := chain(currentBlock);
      if |transactions| == 0 {
        NoBatchOfNothing(PerBatchCount(0, nodes));
        return Distributed;
      }
      var perBatchCount := |transactions| as real / nodes as real;
      perBatchCount := if perBatchCount > MAX_TXS_PER_WORKER then MAX_TXS_PER_WORKER else perBatchCount;
      perBatchCount := if perBatchCount < MIN_TXS_PER_WORKER then MIN_TXS_PER_WORKER else perBatchCount;
      assert perBatchCount == PerBatchCount(|transactions|, nodes);
      response := PublishBatches(transactions, perBatchCount, NoOfBatches(|transactions|, perBatchCount), trouble);
    }

    method PublishBatches(transactions: seq<string>, perBatchCount: real, noOfBatches: nat, trouble: Trouble)
      returns (response: Response)
      requires MIN_TXS_PER_WORKER <= perBatchCount <= MAX_TXS_PER_WORKER
      requires noOfBatches == NoOfBatches(|transactions|, perBatchCount)
      modifies this`published
      ensures var all := Announced(currentBlock, Cut(transactions, perBatchCount));
        if trouble.NoPublication? && trouble.sent < |all| then
          response == Answer(trouble.fault) && published == old(published) + all[..trouble.sent]
        else response == Distributed && published == old(published) + all
    {
      ghost var all := Announced(currentBlock, Cut(transactions, perBatchCount));
      var loopCount, offset := 0, 0.0;
      while loopCount < noOfBatches
        invariant 0 <= loopCount <= noOfBatches == |all| && offset == Offset(perBatchCount, loopCount)
        invariant published == old(published) + all[..loopCount]
        invariant trouble.NoPublication? ==> loopCount <= trouble.sent
      {
        NextPayload(currentBlock, transactions, perBatchCount, loopCount);
        var txHashes := Slice(transactions, offset, offset + perBatchCount);
        offset := offset + perBatchCount;
        if |txHashes| == 0 {
          break;
        }
        if trouble.NoPublication? && trouble.sent == loopCount {
          return Answer(trouble.fault);
        }
        published := published + [Payload(currentBlock, txHashes)];
        loopCount := loopCount + 1;
      }
      assert all[..noOfBatches] == all;
      return Distributed;
    }

    /** Memory first, then the file. */
    method UpdateScannerDataFile(trouble: Trouble)
      requires (trouble.NoWrite? || trouble.AfterWrite?) ==> trouble.fault != Refusal
      modifies this`lastProcessedBlock, this`file, this`canExit, this`pending
      ensures lastProcessedBlock == currentBlock
      ensures file == if trouble.NoWrite? then old(file) else currentBlock
      ensures pending == if trouble.NoWrite? || trouble.AfterWrite? then Up(old(View()), trouble.fault) else old(pending)
      ensures pending != Down ==> canExit || old(pending) == Down
    {
      lastProcessedBlock := currentBlock;
      if trouble.NoWrite? {
        Caught(trouble.fault);
        return;
      }
      file := currentBlock;
      canExit := true;
      if trouble.AfterWrite? {
        Caught(trouble.fault);
      }
    }
  }
}
