/** The transaction log table behind its cache: writing a batch and clearing the cache of its uuids keeps the cache in agreement
    with the table. */
module TransactionLogCaching {
  import opened Sequences
  import opened TransactionLogCodec
  import opened TransactionLogModel
  import opened MultiCache

  /** The table as the cache's source sees it. */
  ghost function Seen(table: Items, show: TransactionLogCodec.Item -> Content): (source: Source)
  {
    map key | key in table :: show(table[key])
  }

  lemma {:induction false} WantedUuid(rows: seq<TransactionRow>, n: nat, i: nat)
    requires i < n <= |rows|
    ensures Lower(rows[i].uuid) in Wanted(Uuids(rows), n)
  {
    if i < n - 1 {
      WantedUuid(rows, n - 1, i);
    }
  }

  /** The uuids cleared are those of the rows, and only these. */
  lemma {:induction false} WantedIsPut(rows: seq<TransactionRow>, n: nat, key: string)
    requires n <= |rows|
    ensures key in Wanted(Uuids(rows), n) <==> exists i :: 0 <= i < n && Lower(rows[i].uuid) == key
  {
    if n > 0 {
      WantedIsPut(rows, n - 1, key);
    }
  }

  /** A batch that touches only its rows' keys, followed by the clearing of its uuids, keeps the cache of the client in agreement
      with the table, and clears no entry but those of the rows. */
  lemma BatchKeepsAgreement(json: Json, prefix: string, show: TransactionLogCodec.Item -> Content, before: Items, after: Items,
                            rows: seq<TransactionRow>, entries: Entries, now: Entries)
    requires RoundTrips(json) && Agrees(json, prefix, entries, Seen(before, show))
    requires OnlyTouches(before, after, rows) && ClearsOnly(prefix, Uuids(rows), entries, now)
    ensures Agrees(json, prefix, now, Seen(after, show))
    ensures forall k :: k in entries && k !in now ==> Ours(prefix, k) && !NoneAt(rows, IdOf(prefix, k))
  {
    forall k | k in entries && Ours(prefix, k)
      ensures NoneAt(rows, IdOf(prefix, k)) <==> k in now
    {
      WantedIsPut(rows, |rows|, IdOf(prefix, k));
    }
    forall k | k in now && Ours(prefix, k) ensures Current(json, prefix, now, Seen(after, show), k) {
      assert Current(json, prefix, entries, Seen(before, show), k);
      assert SameAt(before, after, IdOf(prefix, k));
    }
  }

  /** A batch that stops at a failure clears nothing: the cache stays in agreement exactly when no cached row was changed by it. */
  lemma StoppedBatchKeepsAgreementIff(json: Json, prefix: string, show: TransactionLogCodec.Item -> Content, before: Items,
                                      after: Items, entries: Entries)
    requires RoundTrips(json) && Agrees(json, prefix, entries, Seen(before, show)) && before.Keys <= after.Keys
    ensures Agrees(json, prefix, entries, Seen(after, show))
      <==> forall k :: k in entries && Ours(prefix, k) ==> show(before[IdOf(prefix, k)]) == show(after[IdOf(prefix, k)])
  {
    var source, writes := Seen(before, show), Seen(after, show);
    forall k | k in entries && Ours(prefix, k) ensures IdOf(prefix, k) in before {
      assert Current(json, prefix, entries, source, k);
    }
    assert source + writes == writes;
    WriteKeepsAgreementIff(json, prefix, entries, source, writes);
  }
}
