/** A scanner's work on one message: claim the known transactions, sort out the unknown ones, settle their balances; and
    the whole block, cut into messages and scanned in any order. */
module BlockScanning {
  import opened Wrappers
  import opened Sequences
  import opened BalanceSync
  import opened RowLocks

  const TOKEN_TRANSFER_KIND: nat := 1
  const STP_TRANSFER_KIND: nat := 2
  const CATEGORY_BATCH: nat := 100

  const TRANSFER_EVENT_SIGNATURE: string := "0xddf252ad1be2c89b69c2b068fc378daa952ba7f163c4a11628f55a4df523b3ef"

  datatype Log = Log(address: string, signature: string, params: seq<Param>)

  // ------------------------------------------------------------------ categorisation

  predicate Recognised(row: MetaRow) {
    row.kind == TOKEN_TRANSFER_KIND || row.kind == STP_TRANSFER_KIND
  }

  /** What a record adds to the list of client c. */
  function OwnUuid(r: MetaRow, c: nat): (us: seq<string>)
  {
    if Recognised(r) && r.clientId == c then [r.uuid] else []
  }

  function UuidsOf(records: seq<MetaRow>, c: nat, n: nat): (us: seq<string>)
    requires n <= |records|
  {
    if n == 0 then [] else UuidsOf(records, c, n - 1) + OwnUuid(records[n - 1], c)
  }

  function RecognisedHashes(records: seq<MetaRow>, n: nat): (hs: seq<string>)
    requires n <= |records|
  {
    if n == 0 then []
    else
      var r := records[n - 1];
      RecognisedHashes(records, n - 1) + if Recognised(r) then [r.hash] else []
  }

  predicate HasRecord(records: seq<MetaRow>, h: string) {
    exists i :: 0 <= i < |records| && records[i].hash == h
  }

  /** The hashes among the first n without a record. */
  function Unrecorded(hashes: seq<string>, records: seq<MetaRow>, n: nat): (hs: seq<string>)
    requires n <= |hashes|
  {
    if n == 0 then []
    else Unrecorded(hashes, records, n - 1) + if HasRecord(records, hashes[n - 1]) then [] else [hashes[n - 1]]
  }

  function Repeat<T>(s: seq<T>, k: nat): (r: seq<T>)
  {
    if k == 0 then [] else Repeat(s, k - 1) + s
  }

  /** How many batches of hashes there are, and so how often the locked records are gone through. */
  function Rounds(n: nat): (k: nat)
  {
    (n + CATEGORY_BATCH - 1) / CATEGORY_BATCH
  }

  function Listed(m: map<nat, seq<string>>, c: nat): (us: seq<string>)
  {
    if c in m then m[c] else []
  }

  type Groups = map<nat, seq<string>>

  function Collect(m: Groups, r: MetaRow): (next: Groups)
  {
    if Recognised(r) then m[r.clientId := Listed(m, r.clientId) + [r.uuid]] else m
  }

  /** The groups after the first n records, and after k rounds through all of them. */
  ghost function Collected(m: Groups, records: seq<MetaRow>, n: nat): (r: Groups)
    requires n <= |records|
  {
    if n == 0 then m else Collect(Collected(m, records, n - 1), records[n - 1])
  }

  ghost function CollectedRounds(records: seq<MetaRow>, k: nat): (r: Groups)
  {
    if k == 0 then map[] else Collected(CollectedRounds(records, k - 1), records, |records|)
  }

  lemma CollectLists(m: Groups, r: MetaRow, c: nat)
    ensures Listed(Collect(m, r), c) == Listed(m, c) + OwnUuid(r, c)
    ensures c in Collect(m, r) <==> c in m || |OwnUuid(r, c)| > 0
  {
  }

  lemma Regroup<T>(a: seq<T>, b: seq<T>, c: seq<T>)
    ensures (a + b) + c == a + (b + c)
  {
  }

  lemma CollectedStep(m: Groups, records: seq<MetaRow>, n: nat, c: nat)
    requires 0 < n <= |records|
    ensures Collected(m, records, n) == Collect(Collected(m, records, n - 1), records[n - 1])
    ensures UuidsOf(records, c, n) == UuidsOf(records, c, n - 1) + OwnUuid(records[n - 1], c)
  {
  }

  /** The lists of client c in two groups differ by the given uuids. */
  ghost predicate ListGrown(m: Groups, now: Groups, c: nat, uuids: seq<string>) {
    Listed(now, c) == Listed(m, c) + uuids && (c in now <==> c in m || |uuids| > 0)
  }

  lemma ListGrownOn(m: Groups, before: Groups, now: Groups, c: nat, r: MetaRow, uuids: seq<string>, more: seq<string>)
    requires ListGrown(m, before, c, uuids) && now == Collect(before, r) && more == uuids + OwnUuid(r, c)
    ensures ListGrown(m, now, c, more)
  {
    CollectLists(before, r, c);
    Regroup(Listed(m, c), uuids, OwnUuid(r, c));
  }

  lemma CollectedOnce(m: Groups, records: seq<MetaRow>, n: nat, c: nat)
    requires 0 < n <= |records| && ListGrown(m, Collected(m, records, n - 1), c, UuidsOf(records, c, n - 1))
    ensures ListGrown(m, Collected(m, records, n), c, UuidsOf(records, c, n))
  {
    CollectedStep(m, records, n, c);
    ListGrownOn(m, Collected(m, records, n - 1), Collected(m, records, n), c, records[n - 1],
                UuidsOf(records, c, n - 1), UuidsOf(records, c, n));
  }

  lemma {:induction false} CollectedLists(m: Groups, records: seq<MetaRow>, n: nat, c: nat)
    requires n <= |records|
    ensures ListGrown(m, Collected(m, records, n), c, UuidsOf(records, c, n))
  {
    if n > 0 {
      CollectedLists(m, records, n - 1, c);
      CollectedOnce(m, records, n, c);
    }
  }

  /** Every client's list is its uuids in record order, once a round, and only clients with a uuid have a list. */
  lemma {:induction false} CollectedRoundsLists(records: seq<MetaRow>, k: nat, c: nat)
    ensures Listed(CollectedRounds(records, k), c) == Repeat(UuidsOf(records, c, |records|), k)
    ensures c in CollectedRounds(records, k) <==> k > 0 && |UuidsOf(records, c, |records|)| > 0
  {
    if k > 0 {
      CollectedRoundsLists(records, k - 1, c);
      CollectedLists(CollectedRounds(records, k - 1), records, |records|, c);
    }
  }

  /** A client's uuids and the recognised hashes stand in record order. */
  lemma {:induction false} ListsAppend(a: seq<MetaRow>, b: seq<MetaRow>, c: nat, n: nat)
    requires n <= |b|
    ensures UuidsOf(a + b, c, |a| + n) == UuidsOf(a, c, |a|) + UuidsOf(b, c, n)
    ensures RecognisedHashes(a + b, |a| + n) == RecognisedHashes(a, |a|) + RecognisedHashes(b, n)
  {
    if n == 0 {
      ListsPrefix(a, b, c, |a|);
    } else {
      ListsAppend(a, b, c, n - 1);
      Regroup(UuidsOf(a, c, |a|), UuidsOf(b, c, n - 1), OwnUuid(b[n - 1], c));
    }
  }

  lemma {:induction false} ListsPrefix(a: seq<MetaRow>, b: seq<MetaRow>, c: nat, n: nat)
    requires n <= |a|
    ensures UuidsOf(a + b, c, n) == UuidsOf(a, c, n)
    ensures RecognisedHashes(a + b, n) == RecognisedHashes(a, n)
  {
    if n > 0 {
      ListsPrefix(a, b, c, n - 1);
    }
  }

  lemma RoundsAbove(n: nat, k: nat)
    ensures k < Rounds(n) <==> k * CATEGORY_BATCH < n
  {
  }

  class BlockScanner {
    const job: Job
    var recognizedTxUuidsGroupedByClientId: map<nat, seq<string>>
    var recognizedTxHashes: seq<string>
    var unRecognizedTxHashes: seq<string>

    constructor (job: Job)
      ensures this.job == job
    {
      this.job := job;
      recognizedTxUuidsGroupedByClientId, recognizedTxHashes, unRecognizedTxHashes := map[], [], [];
    }

    /** Goes through the hashes a hundred at a time, and through all locked records each time. */
    method CategorizeTransactions(meta: TransactionMeta)
      modifies this
      ensures var records := LockedRows(meta.rows, job.lockId, |meta.rows|); var k := Rounds(|job.hashes|);
        && recognizedTxUuidsGroupedByClientId == CollectedRounds(records, k)
        && recognizedTxHashes == Repeat(RecognisedHashes(records, |records|), k)
        && unRecognizedTxHashes == Unrecorded(job.hashes, records, |job.hashes|)
    {
      recognizedTxUuidsGroupedByClientId, recognizedTxHashes, unRecognizedTxHashes := map[], [], [];
      ghost var records := LockedRows(meta.rows, job.lockId, |meta.rows|);
      ghost var all := |job.hashes|;
      var batchNo := 1;
      while true
        invariant 1 <= batchNo <= Rounds(all) + 1
        invariant recognizedTxUuidsGroupedByClientId == CollectedRounds(records, batchNo - 1)
        invariant recognizedTxHashes == Repeat(RecognisedHashes(records, |records|), batchNo - 1)
        invariant unRecognizedTxHashes == Unrecorded(job.hashes, records, Min((batchNo - 1) * CATEGORY_BATCH, all))
        decreases Rounds(all) + 1 - batchNo
      {
        var offset := (batchNo - 1) * CATEGORY_BATCH;
        RoundsAbove(all, batchNo - 1);
        var from, to := Min(offset, |job.hashes|), Min(offset + CATEGORY_BATCH, |job.hashes|);
        var batchedTxHashes := job.hashes[from..to];
        batchNo := batchNo + 1;
        if |batchedTxHashes| == 0 {
          break;
        }
        var found := meta.GetByLockId(job.lockId);
        CollectRecords(found);
        CollectUnrecorded(found, batchedTxHashes, from);
      }
    }

    method CollectRecords(records: seq<MetaRow>)
      modifies this`recognizedTxUuidsGroupedByClientId, this`recognizedTxHashes
      ensures recognizedTxUuidsGroupedByClientId == Collected(old(recognizedTxUuidsGroupedByClientId), records, |records|)
      ensures recognizedTxHashes == old(recognizedTxHashes) + RecognisedHashes(records, |records|)
    {
      for i := 0 to |records|
        invariant recognizedTxUuidsGroupedByClientId == Collected(old(recognizedTxUuidsGroupedByClientId), records, i)
        invariant recognizedTxHashes == old(recognizedTxHashes) + RecognisedHashes(records, i)
      {
        var r := records[i];
        if r.kind != TOKEN_TRANSFER_KIND && r.kind != STP_TRANSFER_KIND {
          continue;
        }
        var uuids := Listed(recognizedTxUuidsGroupedByClientId, r.clientId);
        recognizedTxUuidsGroupedByClientId := recognizedTxUuidsGroupedByClientId[r.clientId := uuids + [r.uuid]];
        recognizedTxHashes := recognizedTxHashes + [r.hash];
      }
    }

    /** The batch stands at offset from in the message. */
    method CollectUnrecorded(records: seq<MetaRow>, batch: seq<string>, ghost from: nat)
      requires from + |batch| <= |job.hashes| && batch == job.hashes[from..from + |batch|]
      requires unRecognizedTxHashes == Unrecorded(job.hashes, records, from)
      modifies this`unRecognizedTxHashes
      ensures unRecognizedTxHashes == Unrecorded(job.hashes, records, from + |batch|)
    {
      for i := 0 to |batch|
        invariant unRecognizedTxHashes == Unrecorded(job.hashes, records, from + i)
      {
        if HasRecord(records, batch[i]) {
          continue;
        }
        unRecognizedTxHashes := unRecognizedTxHashes + [batch[i]];
      }
    }

    /** The Transfer events of known contracts, by unknown transaction; a transaction without any is left out. */
    method ShortListEvents(receipts: map<string, seq<Log>>, contracts: set<string>) returns (txs: seq<Tx>)
      requires forall h :: h in unRecognizedTxHashes ==> h in receipts
      ensures AllEvents(txs) == EventsOf(unRecognizedTxHashes, receipts, contracts)
    {
      txs := [];
      for i := 0 to |unRecognizedTxHashes|
        invariant AllEvents(txs) == EventsOf(unRecognizedTxHashes[..i], receipts, contracts)
      {
        var h := unRecognizedTxHashes[i];
        var logs, events := receipts[h], [];
        for j := 0 to |logs|
          invariant events == ShortListed(logs, contracts, j)
        {
          if Lower(logs[j].address) in contracts && logs[j].signature == TRANSFER_EVENT_SIGNATURE {
            events := events + [DecodedEvent(logs[j].address, logs[j].params)];
          }
        }
        assert unRecognizedTxHashes[..i + 1][..i] == unRecognizedTxHashes[..i];
        if events != [] {
          ghost var before := txs;
          txs := txs + [Tx(h, events)];
          assert txs[..|txs| - 1] == before;
        }
      }
      assert unRecognizedTxHashes[..|unRecognizedTxHashes|] == unRecognizedTxHashes;
    }

    /** One message from its lock to its release.  The receipts of all its transactions have arrived. */
    method Perform(meta: TransactionMeta, balances: TokenBalances, receipts: map<string, seq<Log>>, contracts: set<string>)
      requires forall h :: h in job.hashes ==> h in receipts
      modifies this, meta, balances
      ensures meta.rows == RowsAfter(old(meta.rows), job)
      ensures Applied(old(balances.balances), balances.balances, TransfersFound(old(meta.rows), job, receipts, contracts))
    {
      meta.AcquireLock(job);
      CategorizeTransactions(meta);
      UnrecordedIn(job.hashes, LockedRows(meta.rows, job.lockId, |meta.rows|), |job.hashes|);
      var txs := ShortListEvents(receipts, contracts);
      var m, transferEvents, affected := ComputeBalanceAdjustments(txs);
      ghost var ts := Transfers(AllEvents(txs));
      forall c, u
        ensures Entry(m, c, u) == Delta(ts, c, u)
        ensures u in Users(m, c) <==> Touched(ts, c, u)
      {
        EntryIsDelta(m, ts, c, u);
      }
      balances.SettleBalancesInDb(m);
      meta.ReleaseLock(job.lockId);
    }
  }

  ghost function RowsAfter(rows: seq<MetaRow>, job: Job): (now: seq<MetaRow>)
  {
    Released(Acquired(rows, job), job.lockId)
  }

  /** The hashes without a record among the rows locked for the job. */
  ghost function HashesLeft(now: seq<MetaRow>, job: Job): (hs: seq<string>)
  {
    Unrecorded(job.hashes, LockedRows(now, job.lockId, |now|), |job.hashes|)
  }

  ghost function TransfersFound(rows: seq<MetaRow>, job: Job, receipts: map<string, seq<Log>>, contracts: set<string>): (ts: seq<Transfer>)
  {
    Transfers(EventsOf(HashesLeft(Acquired(rows, job), job), receipts, contracts))
  }

  ghost function ShortListed(logs: seq<Log>, contracts: set<string>, n: nat): (es: seq<DecodedEvent>)
    requires n <= |logs|
  {
    if n == 0 then []
    else
      var l := logs[n - 1];
      var here := if Lower(l.address) in contracts && l.signature == TRANSFER_EVENT_SIGNATURE
                  then [DecodedEvent(l.address, l.params)] else [];
      ShortListed(logs, contracts, n - 1) + here
  }

  /** The short-listed events of one transaction. */
  ghost function TxEvents(h: string, receipts: map<string, seq<Log>>, contracts: set<string>): (es: seq<DecodedEvent>)
  {
    if h in receipts then ShortListed(receipts[h], contracts, |receipts[h]|) else []
  }

  ghost function EventsOf(hashes: seq<string>, receipts: map<string, seq<Log>>, contracts: set<string>): (es: seq<DecodedEvent>)
  {
    if hashes == [] then []
    else EventsOf(hashes[..|hashes| - 1], receipts, contracts) + TxEvents(hashes[|hashes| - 1], receipts, contracts)
  }

  lemma {:induction false} UnrecordedIn(hashes: seq<string>, records: seq<MetaRow>, n: nat)
    requires n <= |hashes|
    ensures forall h :: h in Unrecorded(hashes, records, n) <==> h in hashes[..n] && !HasRecord(records, h)
  {
    if n > 0 {
      UnrecordedIn(hashes, records, n - 1);
      assert hashes[..n] == hashes[..n - 1] + [hashes[n - 1]];
    }
  }

  lemma {:induction false} ShortListedAppend(a: seq<Log>, b: seq<Log>, contracts: set<string>, n: nat)
    requires n <= |b|
    ensures ShortListed(a + b, contracts, |a| + n) == ShortListed(a, contracts, |a|) + ShortListed(b, contracts, n)
  {
    if n == 0 {
      ShortListedPrefix(a, b, contracts, |a|);
    } else {
      ShortListedAppend(a, b, contracts, n - 1);
    }
  }

  lemma {:induction false} ShortListedPrefix(a: seq<Log>, b: seq<Log>, contracts: set<string>, n: nat)
    requires n <= |a|
    ensures ShortListed(a + b, contracts, n) == ShortListed(a, contracts, n)
  {
    if n > 0 {
      ShortListedPrefix(a, b, contracts, n - 1);
    }
  }

  lemma OneHash(h: string, receipts: map<string, seq<Log>>, contracts: set<string>)
    requires h in receipts
    ensures EventsOf([h], receipts, contracts) == ShortListed(receipts[h], contracts, |receipts[h]|)
  {
    assert [h][..0] == [];
  }

  /** The logs of a receipt each count for themselves. */
  lemma LogsCountApart(h: string, receipts: map<string, seq<Log>>, contracts: set<string>, a: seq<Log>, b: seq<Log>)
    requires h in receipts && receipts[h] == a + b
    ensures EventsOf([h], receipts, contracts) == EventsOf([h], receipts[h := a], contracts) + EventsOf([h], receipts[h := b], contracts)
  {
    ShortListedAppend(a, b, contracts, |b|);
    OneHash(h, receipts, contracts);
    OneHash(h, receipts[h := a], contracts);
    OneHash(h, receipts[h := b], contracts);
  }

  lemma OneLog(h: string, receipts: map<string, seq<Log>>, contracts: set<string>, l: Log)
    requires h in receipts && receipts[h] == [l]
    ensures EventsOf([h], receipts, contracts)
         == if Lower(l.address) in contracts && l.signature == TRANSFER_EVENT_SIGNATURE then [DecodedEvent(l.address, l.params)] else []
  {
    OneHash(h, receipts, contracts);
    assert ShortListed([l], contracts, 0) == [];
  }

  /** A log of another event, or of an unknown contract, moves nothing.  The signature is that of Transfer(address,address,uint256). */
  lemma OtherLogMovesNothing(h: string, receipts: map<string, seq<Log>>, contracts: set<string>, l: Log, c: string, u: string)
    requires h in receipts && receipts[h] == [l]
    requires l.signature != "0xddf252ad1be2c89b69c2b068fc378daa952ba7f163c4a11628f55a4df523b3ef" || Lower(l.address) !in contracts
    ensures Delta(Transfers(EventsOf([h], receipts, contracts)), c, u) == ZERO
  {
    OneLog(h, receipts, contracts, l);
  }

  /** A Transfer of v from a to b logged by a known contract takes v from a and gives it to b. */
  lemma TransferLogMoves(h: string, receipts: map<string, seq<Log>>, contracts: set<string>, l: Log, a: string, b: string, v: int,
                         c: string, u: string)
    requires h in receipts && receipts[h] == [l] && Lower(l.address) in contracts
    requires l.signature == "0xddf252ad1be2c89b69c2b068fc378daa952ba7f163c4a11628f55a4df523b3ef"
    requires Names(DecodedEvent(l.address, l.params), a, b, v) && a != "" && b != "" && a != b && a != Lower(l.address)
    ensures Delta(Transfers(EventsOf([h], receipts, contracts)), c, u)
         == if c != Lower(l.address) then ZERO else if u == a then Balance(-v, -v) else if u == b then Balance(v, 0) else ZERO
  {
    var e := DecodedEvent(l.address, l.params);
    OneLog(h, receipts, contracts, l);
    OneEventMoves(e, a, b, v, c, u);
  }

  // ------------------------------------------------------------------ each hash in one place, each uuid once

  lemma {:induction false} RepeatCount<T>(s: seq<T>, k: nat, x: T)
    requires Occurrences(s, x) <= 1
    ensures Occurrences(Repeat(s, k), x) == if Occurrences(s, x) == 1 then k else 0
  {
    if k > 0 {
      RepeatCount(s, k - 1, x);
      OccurrencesAppend(Repeat(s, k - 1), s, x);
    }
  }

  lemma OneRound(n: nat)
    ensures Rounds(n) == 1 <==> 1 <= n <= 100
  {
  }

  ghost predicate UniqueUuids(records: seq<MetaRow>) {
    forall i, j :: 0 <= i < j < |records| ==> records[i].uuid != records[j].uuid
  }

  /** How many of the first n records list u for client c. */
  ghost function Listings(records: seq<MetaRow>, c: nat, n: nat, u: string): (k: nat)
    requires n <= |records|
  {
    if n == 0 then 0 else Listings(records, c, n - 1, u) + if Lists(records[n - 1], c, u) then 1 else 0
  }

  ghost predicate Lists(r: MetaRow, c: nat, u: string) {
    Recognised(r) && r.clientId == c && r.uuid == u
  }

  lemma OwnUuidOccurs(r: MetaRow, c: nat, u: string)
    ensures Occurrences(OwnUuid(r, c), u) == if Lists(r, c, u) then 1 else 0
  {
    var own := OwnUuid(r, c);
    assert own != [] ==> own[..|own| - 1] == [];
  }

  lemma {:induction false} UuidListings(records: seq<MetaRow>, c: nat, n: nat, u: string)
    requires n <= |records|
    ensures Occurrences(UuidsOf(records, c, n), u) == Listings(records, c, n, u)
  {
    if n > 0 {
      UuidListings(records, c, n - 1, u);
      OwnUuidOccurs(records[n - 1], c, u);
      OccurrencesAppend(UuidsOf(records, c, n - 1), OwnUuid(records[n - 1], c), u);
    }
  }

  /** The uuid u is record i's and no other's. */
  ghost predicate OnlyAt(records: seq<MetaRow>, i: nat, u: string) {
    forall k :: 0 <= k < |records| ==> (records[k].uuid == u <==> k == i)
  }

  lemma {:induction false} UuidCount(records: seq<MetaRow>, c: nat, n: nat, i: nat, u: string)
    requires OnlyAt(records, i, u) && n <= |records| && i < |records|
    ensures Listings(records, c, n, u) == if i < n && Recognised(records[i]) && records[i].clientId == c then 1 else 0
  {
    if n > 0 {
      UuidCount(records, c, n - 1, i, u);
    }
  }

  /** A recognised uuid is listed once for every hundred hashes begun, under its own client only: exactly once if and only if
      the message has between 1 and 100 hashes. */
  lemma ListedOncePerHundred(records: seq<MetaRow>, hashes: nat, i: nat, c: nat)
    requires UniqueUuids(records) && i < |records| && Recognised(records[i])
    ensures var times := Occurrences(Listed(CollectedRounds(records, Rounds(hashes)), c), records[i].uuid);
      && times == (if records[i].clientId == c then Rounds(hashes) else 0)
      && (records[i].clientId == c ==> (times == 1 <==> 1 <= hashes <= 100))
  {
    CollectedRoundsLists(records, Rounds(hashes), c);
    assert OnlyAt(records, i, records[i].uuid);
    UuidListings(records, c, |records|, records[i].uuid);
    UuidCount(records, c, |records|, i, records[i].uuid);
    RepeatCount(UuidsOf(records, c, |records|), Rounds(hashes), records[i].uuid);
    OneRound(hashes);
  }

  ghost predicate LockedAsOther(records: seq<MetaRow>, h: string) {
    exists i :: 0 <= i < |records| && records[i].hash == h && !Recognised(records[i])
  }

  lemma {:induction false} RecognisedHashesIn(records: seq<MetaRow>, n: nat, h: string)
    requires n <= |records|
    ensures h in RecognisedHashes(records, n) <==> exists i :: 0 <= i < n && records[i].hash == h && Recognised(records[i])
  {
    if n > 0 {
      RecognisedHashesIn(records, n - 1, h);
    }
  }

  lemma {:induction false} RepeatIn<T>(s: seq<T>, k: nat, x: T)
    ensures x in Repeat(s, k) <==> k > 0 && x in s
  {
    if k > 0 {
      RepeatIn(s, k - 1, x);
    }
  }

  lemma OneRowPerHash(records: seq<MetaRow>, h: string)
    requires UniqueHashes(records)
    ensures !(LockedAsOther(records, h) && exists i :: 0 <= i < |records| && records[i].hash == h && Recognised(records[i]))
    ensures HasRecord(records, h) ==>
      LockedAsOther(records, h) || exists i :: 0 <= i < |records| && records[i].hash == h && Recognised(records[i])
  {
  }

  /** With one row per hash, every hash of a message is in exactly one of three places: recognised, unrecognised, or locked
      with another kind. */
  lemma Partition(records: seq<MetaRow>, hashes: seq<string>, h: string)
    requires UniqueHashes(records) && h in hashes
    ensures var recognised := h in Repeat(RecognisedHashes(records, |records|), Rounds(|hashes|));
      var unrecognised := h in Unrecorded(hashes, records, |hashes|);
      var other := LockedAsOther(records, h);
      && (recognised || unrecognised || other)
      && !(recognised && unrecognised) && !(recognised && other) && !(unrecognised && other)
      && (recognised <==> exists i :: 0 <= i < |records| && records[i].hash == h && records[i].kind in {TOKEN_TRANSFER_KIND, STP_TRANSFER_KIND})
      && (unrecognised <==> forall i :: 0 <= i < |records| ==> records[i].hash != h)
  {
    RepeatIn(RecognisedHashes(records, |records|), Rounds(|hashes|), h);
    RecognisedHashesIn(records, |records|, h);
    UnrecordedIn(hashes, records, |hashes|);
    assert hashes[..|hashes|] == hashes;
    OneRowPerHash(records, h);
  }

  // ------------------------------------------------------------------ one block

  /** The table has a row for the hash that a scanner can claim. */
  predicate Known(rows: seq<MetaRow>, chain: nat, h: string) {
    exists r :: 0 <= r < |rows| && rows[r].hash == h && rows[r].status == Submitted && rows[r].chain == chain && rows[r].lock.None?
  }

  function Unknown(rows: seq<MetaRow>, chain: nat, hashes: seq<string>): (hs: seq<string>)
    ensures forall h :: h in hs ==> h in hashes
  {
    if hashes == [] then []
    else
      var h := hashes[|hashes| - 1];
      Unknown(rows, chain, hashes[..|hashes| - 1]) + if Known(rows, chain, h) then [] else [h]
  }

  lemma {:induction false} UnrecordedIsUnknown(hashes: seq<string>, records: seq<MetaRow>, rows: seq<MetaRow>, chain: nat, n: nat)
    requires n <= |hashes| && forall h :: h in hashes ==> (HasRecord(records, h) <==> Known(rows, chain, h))
    ensures Unrecorded(hashes, records, n) == Unknown(rows, chain, hashes[..n])
  {
    if n > 0 {
      UnrecordedIsUnknown(hashes, records, rows, chain, n - 1);
      assert hashes[..n][..n - 1] == hashes[..n - 1];
    }
  }

  lemma {:induction false} LockedRowsHave(rows: seq<MetaRow>, lockId: real, n: nat, h: string)
    requires n <= |rows|
    ensures HasRecord(LockedRows(rows, lockId, n), h) <==> exists r :: 0 <= r < n && rows[r].hash == h && rows[r].lock == Some(lockId)
  {
    if n > 0 {
      LockedRowsHave(rows, lockId, n - 1, h);
      var (now, before) := (LockedRows(rows, lockId, n), LockedRows(rows, lockId, n - 1));
      if rows[n - 1].lock == Some(lockId) {
        assert now == before + [rows[n - 1]];
        assert now[|before|] == rows[n - 1];
        assert forall i :: 0 <= i < |before| ==> now[i] == before[i];
      }
    }
  }

  /** If the locked rows are the job's claimable ones, what the scanner takes for unknown is what nobody could claim. */
  lemma LockedGivesUnknown(rows: seq<MetaRow>, now: seq<MetaRow>, job: Job)
    requires |now| == |rows| && Locked(now, job.lockId) == ClaimableSet(rows, job)
    requires forall r :: 0 <= r < |rows| ==> now[r].hash == rows[r].hash
    ensures HashesLeft(now, job) == Unknown(rows, job.chain, job.hashes)
  {
    var records := LockedRows(now, job.lockId, |now|);
    forall h | h in job.hashes
      ensures HasRecord(records, h) <==> Known(rows, job.chain, h)
    {
      LockedRowsHave(now, job.lockId, |now|, h);
      if Known(rows, job.chain, h) {
        var r :| 0 <= r < |rows| && rows[r].hash == h && rows[r].status == Submitted && rows[r].chain == job.chain && rows[r].lock.None?;
        assert r in ClaimableSet(rows, job);
        assert now[r].hash == h && now[r].lock == Some(job.lockId);
      }
      if r :| 0 <= r < |now| && now[r].hash == h && now[r].lock == Some(job.lockId) {
        assert r in Locked(now, job.lockId);
        assert rows[r].hash == h;
      }
    }
    UnrecordedIsUnknown(job.hashes, records, rows, job.chain, |job.hashes|);
    assert job.hashes[..|job.hashes|] == job.hashes;
  }

  lemma {:induction false} UnknownAppend(rows: seq<MetaRow>, chain: nat, a: seq<string>, b: seq<string>)
    ensures Unknown(rows, chain, a + b) == Unknown(rows, chain, a) + Unknown(rows, chain, b)
    decreases |b|
  {
    if b == [] {
      assert a + b == a;
    } else {
      var init := b[..|b| - 1];
      assert (a + b)[..|a + b| - 1] == a + init;
      UnknownAppend(rows, chain, a, init);
    }
  }

  lemma {:induction false} EventsAppend(a: seq<string>, b: seq<string>, receipts: map<string, seq<Log>>, contracts: set<string>)
    ensures EventsOf(a + b, receipts, contracts) == EventsOf(a, receipts, contracts) + EventsOf(b, receipts, contracts)
    decreases |b|
  {
    if b == [] {
      assert a + b == a;
    } else {
      var init, last := b[..|b| - 1], b[|b| - 1];
      EventsAppend(a, init, receipts, contracts);
      assert (a + b)[..|a + b| - 1] == a + init && (a + b)[|a + b| - 1] == last;
      Regroup(EventsOf(a, receipts, contracts), EventsOf(init, receipts, contracts), TxEvents(last, receipts, contracts));
    }
  }
}
