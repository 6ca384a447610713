/** What a read of a configuration strategy gives after any list of operations, and what an addition gives that is answered with
    a row that was there before. */
module ConfigStoreRuns {
  import opened Wrappers
  import opened ConfigStore

  // ------------------------------------------------------------------ the last write is what is read

  /** The event inserts row i or overwrites its parameters. */
  predicate Writes(cat: Catalogue, crypto: Crypto, rows: seq<Row>, e: Event, i: nat) {
    match e
    case AddForKind(_, _, _, _, _) => i == |rows| < |After(cat, crypto, rows, e).0|
    case UpdateForKind(g, kind, _, _) =>
      After(cat, crypto, rows, e).1 == Done && FirstSelected(cat, rows, g, kind, 0) == Some(i)
    case _ => false
  }

  lemma WriteIsReadBack(cat: Catalogue, crypto: Crypto, rows: seq<Row>, e: Event, i: nat)
    requires Inverts(crypto) && Writes(cat, crypto, rows, e, i)
    ensures var next := After(cat, crypto, rows, e).0;
      && i < |next| && next[i].kind == e.kind
      && ReadBack(crypto, next[i]) == Restrict(e.params, Listed(cat, e.kind))
      && next[i].digest == Digest(cat, crypto, e.kind, e.params)
  {
    StoredIsReadBack(cat, crypto, rows, e);
  }

  /** Whatever an event does not write reads as before, and rows come into being only by being written. */
  lemma OthersReadAsBefore(cat: Catalogue, crypto: Crypto, rows: seq<Row>, e: Event, i: nat)
    requires i < |After(cat, crypto, rows, e).0| && !Writes(cat, crypto, rows, e, i)
    ensures var next := After(cat, crypto, rows, e).0;
      && i < |rows| && next[i] == rows[i].(status := next[i].status) && ReadBack(crypto, next[i]) == ReadBack(crypto, rows[i])
  {
  }

  lemma {:induction false} AfterAllSnoc(cat: Catalogue, crypto: Crypto, rows: seq<Row>, es: seq<Event>, e: Event)
    ensures AfterAll(cat, crypto, rows, es + [e]) == After(cat, crypto, AfterAll(cat, crypto, rows, es), e).0
    decreases |es|
  {
    if es == [] {
      assert ([] + [e])[1..] == [];
    } else {
      assert (es + [e])[1..] == es[1..] + [e];
      AfterAllSnoc(cat, crypto, After(cat, crypto, rows, es[0]).0, es[1..], e);
    }
  }

  /** Event l of the run from the empty table writes row i. */
  ghost predicate WritesAt(cat: Catalogue, crypto: Crypto, es: seq<Event>, l: nat, i: nat)
    requires l < |es|
  {
    Writes(cat, crypto, AfterAll(cat, crypto, [], es[..l]), es[l], i)
  }

  /** After any list of operations on the empty table, a read of any row gives exactly what was given for the listed keys by the
      last operation that wrote it, whatever activations, deactivations, refusals and writes of other rows came between. */
  lemma {:induction false} LastWriteIsRead(cat: Catalogue, crypto: Crypto, es: seq<Event>, i: nat) returns (k: nat)
    requires Inverts(crypto) && i < |AfterAll(cat, crypto, [], es)|
    ensures k < |es| && WritesAt(cat, crypto, es, k, i)
    ensures forall l :: k < l < |es| ==> !WritesAt(cat, crypto, es, l, i)
    ensures AfterAll(cat, crypto, [], es)[i].kind == es[k].kind
    ensures ReadBack(crypto, AfterAll(cat, crypto, [], es)[i]) == Restrict(es[k].params, Listed(cat, es[k].kind))
    decreases |es|
  {
    var n := |es| - 1;
    var before := AfterAll(cat, crypto, [], es[..n]);
    assert es == es[..n] + [es[n]];
    AfterAllSnoc(cat, crypto, [], es[..n], es[n]);
    if Writes(cat, crypto, before, es[n], i) {
      k := n;
      WriteIsReadBack(cat, crypto, before, es[n], i);
    } else {
      OthersReadAsBefore(cat, crypto, before, es[n], i);
      k := LastWriteIsRead(cat, crypto, es[..n], i);
      SameWrites(cat, crypto, es, n, k, i);
    }
  }

  lemma SameWrites(cat: Catalogue, crypto: Crypto, es: seq<Event>, n: nat, k: nat, i: nat)
    requires k < n <= |es|
    ensures forall l :: k <= l < n ==> (WritesAt(cat, crypto, es[..n], l, i) <==> WritesAt(cat, crypto, es, l, i))
  {
    forall l | k <= l < n ensures WritesAt(cat, crypto, es[..n], l, i) <==> WritesAt(cat, crypto, es, l, i) {
      assert es[..n][..l] == es[..l];
    }
  }

  // ------------------------------------------------------------------ the digest is that of what is read

  predicate IdentifiersListed(cat: Catalogue, kind: string) {
    forall k :: k in Keys(cat.identifiers, kind) ==> k in Listed(cat, kind)
  }

  ghost predicate DigestsCurrent(cat: Catalogue, crypto: Crypto, rows: seq<Row>) {
    forall i :: 0 <= i < |rows| && IdentifiersListed(cat, rows[i].kind) ==>
      rows[i].digest == Digest(cat, crypto, rows[i].kind, ReadBack(crypto, rows[i]))
  }

  lemma RestrictTwice(p: Params, some: seq<string>, all: seq<string>)
    requires forall k :: k in some ==> k in all
    ensures Restrict(Restrict(p, all), some) == Restrict(p, some)
  {
  }

  lemma StepKeepsDigestsCurrent(cat: Catalogue, crypto: Crypto, rows: seq<Row>, e: Event)
    requires Inverts(crypto) && DigestsCurrent(cat, crypto, rows)
    ensures DigestsCurrent(cat, crypto, After(cat, crypto, rows, e).0)
  {
    var next := After(cat, crypto, rows, e).0;
    forall i | 0 <= i < |next| && IdentifiersListed(cat, next[i].kind)
      ensures next[i].digest == Digest(cat, crypto, next[i].kind, ReadBack(crypto, next[i]))
    {
      if Writes(cat, crypto, rows, e, i) {
        WriteIsReadBack(cat, crypto, rows, e, i);
        RestrictTwice(e.params, Keys(cat.identifiers, e.kind), Listed(cat, e.kind));
      } else {
        OthersReadAsBefore(cat, crypto, rows, e, i);
      }
    }
  }

  /** Over every run, a row of a kind whose identifiers are all stored has the digest of the identifiers that a read gives. */
  lemma {:induction false} RunKeepsDigestsCurrent(cat: Catalogue, crypto: Crypto, rows: seq<Row>, es: seq<Event>)
    requires Inverts(crypto) && DigestsCurrent(cat, crypto, rows)
    ensures DigestsCurrent(cat, crypto, AfterAll(cat, crypto, rows, es))
    decreases |es|
  {
    if es != [] {
      StepKeepsDigestsCurrent(cat, crypto, rows, es[0]);
      RunKeepsDigestsCurrent(cat, crypto, After(cat, crypto, rows, es[0]).0, es[1..]);
    }
  }

  // ------------------------------------------------------------------ an addition answered with an old row

  /** The row whose digest an addition finds. */
  function FoundBy(cat: Catalogue, crypto: Crypto, rows: seq<Row>, e: Event): (i: Option<nat>)
    requires e.AddForKind?
    ensures i.Some? ==> i.value < |rows|
  {
    FirstDigest(rows, Digest(cat, crypto, e.kind, e.params), 0)
  }

  /** An accepted addition stores what it was given, for a read of the id it answers with, exactly when its identifiers are new
      or the row that has them reads like that already. */
  lemma AdditionIsReadBackIff(cat: Catalogue, crypto: Crypto, rows: seq<Row>, e: Event)
    requires Inverts(crypto) && e.AddForKind? && After(cat, crypto, rows, e).1.Stored?
    ensures var (next, outcome) := After(cat, crypto, rows, e);
      && outcome.id < |next|
      && (ReadBack(crypto, next[outcome.id]) == Restrict(e.params, Listed(cat, e.kind))
          <==> FoundBy(cat, crypto, rows, e).None?
               || ReadBack(crypto, rows[FoundBy(cat, crypto, rows, e).value]) == Restrict(e.params, Listed(cat, e.kind)))
  {
    if FoundBy(cat, crypto, rows, e).None? {
      WriteIsReadBack(cat, crypto, rows, e, |rows|);
    }
  }

  /** An accepted addition for a group gives the group a row of the kind exactly when the identifiers are new. */
  lemma GroupGetsItsRowIff(cat: Catalogue, crypto: Crypto, rows: seq<Row>, e: Event)
    requires e.AddForKind? && e.g.Group? && e.kind !in cat.withoutGroup && After(cat, crypto, rows, e).1.Stored?
    ensures Taken(After(cat, crypto, rows, e).0, e.g, e.kind) <==> FoundBy(cat, crypto, rows, e).None?
  {
    var next := After(cat, crypto, rows, e).0;
    if FoundBy(cat, crypto, rows, e).None? {
      assert next[|rows|].kind == e.kind && InGroup(next[|rows|], e.g);
    }
  }

  ghost predicate NoCollisions(crypto: Crypto) {
    forall p: Params, q: Params :: crypto.digest(p) == crypto.digest(q) ==> p == q
  }

  /** Every listed key outside the identifiers has the given value in the row. */
  predicate OthersAgree(cat: Catalogue, crypto: Crypto, row: Row, p: Params) {
    forall k :: k in Listed(cat, row.kind) && k !in Keys(cat.identifiers, row.kind) ==>
      k in p && k in ReadBack(crypto, row) && ReadBack(crypto, row)[k] == p[k]
  }

  /** And when the row found is of the same kind: exactly when every stored key that is no identifier has the given value there
      (the secrets among them). */
  lemma SharedRowIsReadBackIff(cat: Catalogue, crypto: Crypto, rows: seq<Row>, e: Event)
    requires Inverts(crypto) && NoCollisions(crypto) && AllWhole(cat, crypto, rows) && DigestsCurrent(cat, crypto, rows)
    requires e.AddForKind? && After(cat, crypto, rows, e).1.Stored? && FoundBy(cat, crypto, rows, e).Some?
    requires rows[FoundBy(cat, crypto, rows, e).value].kind == e.kind && IdentifiersListed(cat, e.kind)
    ensures var (next, outcome) := After(cat, crypto, rows, e);
      && outcome.id < |next| && next == rows
      && (ReadBack(crypto, next[outcome.id]) == Restrict(e.params, Listed(cat, e.kind))
          <==> OthersAgree(cat, crypto, rows[FoundBy(cat, crypto, rows, e).value], e.params))
  {
    var row := rows[FoundBy(cat, crypto, rows, e).value];
    WholeReadsListed(cat, crypto, row);
    AgreesOnIdentifiers(ReadBack(crypto, row), e.params, Keys(cat.identifiers, e.kind));
  }

  lemma WholeReadsListed(cat: Catalogue, crypto: Crypto, row: Row)
    requires Whole(cat, crypto, row)
    ensures forall k :: k in ReadBack(crypto, row) <==> k in Listed(cat, row.kind)
  {
  }

  lemma AgreesOnIdentifiers(stored: Params, p: Params, ids: seq<string>)
    requires Restrict(stored, ids) == Restrict(p, ids)
    ensures forall k :: k in ids ==> (k in stored <==> k in p) && (k in p ==> stored[k] == p[k])
  {
    forall k | k in ids ensures (k in stored <==> k in p) && (k in p ==> stored[k] == p[k]) {
      assert k in Restrict(stored, ids) <==> k in Restrict(p, ids);
      assert k in p ==> Restrict(stored, ids)[k] == Restrict(p, ids)[k];
    }
  }

  // ------------------------------------------------------------------ two inputs

  /** The key lists of the kind of the search cluster. */
  const SEARCH: Catalogue := Catalogue(
    {"es"}, {}, map["es" := ["AWS_ES_SECRET_KEY"]], map["es" := ["CR_ES_HOST", "AWS_ES_ACCESS_KEY", "AWS_ES_REGION"]],
    map["es" := ["CR_ES_HOST", "AWS_ES_ACCESS_KEY", "AWS_ES_REGION"]], map[], Active)

  function Cluster(host: string, secret: string): (p: Params)
  {
    map["CR_ES_HOST" := Primitive(host), "AWS_ES_ACCESS_KEY" := Primitive("key"), "AWS_ES_REGION" := Primitive("region"),
        "AWS_ES_SECRET_KEY" := Primitive(secret)]
  }

  function Identity(host: string): (p: Params)
  {
    map["CR_ES_HOST" := Primitive(host), "AWS_ES_ACCESS_KEY" := Primitive("key"), "AWS_ES_REGION" := Primitive("region")]
  }

  lemma ClusterParts(crypto: Crypto, host: string, secret: string)
    ensures HasAll(Cluster(host, secret), Listed(SEARCH, "es"))
    ensures Restrict(Cluster(host, secret), Listed(SEARCH, "es")) == Cluster(host, secret)
    ensures Restrict(Cluster(host, secret), SEARCH.identifiers["es"]) == Identity(host)
    ensures Digest(SEARCH, crypto, "es", Cluster(host, secret)) == crypto.digest(Identity(host))
  {
  }

  /** Group 2 adds the cluster of group 1 with a secret of its own: the addition succeeds with group 1's row, which still has the
      other secret, and group 2 has no row. */
  lemma SecondSecretIsLost(crypto: Crypto)
    requires Inverts(crypto)
    ensures var (one, first) := After(SEARCH, crypto, [], AddForKind(Group(1), "es", Cluster("host", "one"), 7, true));
      var (two, second) := After(SEARCH, crypto, one, AddForKind(Group(2), "es", Cluster("host", "two"), 7, true));
      && first == Stored(0) && second == Stored(0) && |two| == 1
      && ReadBack(crypto, two[0]) == Cluster("host", "one") && !Taken(two, Group(2), "es")
  {
    var e, f := AddForKind(Group(1), "es", Cluster("host", "one"), 7, true), AddForKind(Group(2), "es", Cluster("host", "two"), 7, true);
    ClusterParts(crypto, "host", "one");
    ClusterParts(crypto, "host", "two");
    var (one, first) := After(SEARCH, crypto, [], e);
    assert |one| == 1 && first == Stored(0);
    WriteIsReadBack(SEARCH, crypto, [], e, 0);
    assert FirstDigest(one, crypto.digest(Identity("host")), 0) == Some(0);
  }

  /** Two clusters added under the group NULL: both get a row, so the kind has two rows without a group. */
  lemma TwoRowsWithoutGroup(crypto: Crypto)
    requires crypto.digest(Identity("here")) != crypto.digest(Identity("there"))
    ensures var one := After(SEARCH, crypto, [], AddForKind(Null, "es", Cluster("here", "x"), 7, true)).0;
      var (two, second) := After(SEARCH, crypto, one, AddForKind(Null, "es", Cluster("there", "x"), 7, true));
      UniqueKinds(one) && second == Stored(1) && |two| == 2 && !UniqueKinds(two)
  {
    var e, f := AddForKind(Null, "es", Cluster("here", "x"), 7, true), AddForKind(Null, "es", Cluster("there", "x"), 7, true);
    ClusterParts(crypto, "here", "x");
    ClusterParts(crypto, "there", "x");
    var one := After(SEARCH, crypto, [], e).0;
    assert |one| == 1 && one[0].digest == crypto.digest(Identity("here"));
    assert FirstDigest(one, crypto.digest(Identity("there")), 0) == None;
    var two := After(SEARCH, crypto, one, f).0;
    assert two[0].kind == two[1].kind && two[0].group == two[1].group;
  }
}
