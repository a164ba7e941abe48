/** Taking over the credentials of a dogu migrated from Dogu V2 (internal/serviceaccount/migration.go). */
module Migration {
  import opened Wrappers
  import opened Api
  import opened Sorting

  const MIGRATION_SECRET_SUFFIX := "-migration"
  const MIGRATION_KEY_SEPARATOR := "_"

  function MigrationSecretName(sare: Sare): Name {
    if sare.dogu == "" then "" else sare.dogu + MIGRATION_SECRET_SUFFIX
  }

  /** The key under which attribute `a` of producer `p` is found in a migration secret. */
  function KeyFor(p: Name, a: string): string {
    Prefix(p) + a
  }

  function Prefix(p: Name): string {
    p + MIGRATION_KEY_SEPARATOR
  }

  /** The attributes stored with the prefix. */
  function Attributes(data: Creds, prefix: string): set<string> {
    set k | k in data && prefix <= k :: k[|prefix|..]
  }

  lemma AttributeIff(data: Creds, prefix: string, a: string)
    ensures a in Attributes(data, prefix) <==> prefix + a in data
  {
    if prefix + a in data {
      assert (prefix + a)[|prefix|..] == a;
    }
    if a in Attributes(data, prefix) {
      var k :| k in data && prefix <= k && k[|prefix|..] == a;
      assert k == prefix + a;
    }
  }

  function Decoded(data: Creds, prefix: string): Creds {
    map a | a in Attributes(data, prefix) :: AttributeIff(data, prefix, a); data[prefix + a]
  }

  /** The declared attributes without a key, with their prefix. */
  function Missing(declared: set<string>, creds: Creds, prefix: string): set<string> {
    set a | a in declared && a !in creds :: prefix + a
  }

  function DeclaredAttributes(sapr: Sapr): set<string> {
    if sapr.http.None? then {} else sapr.http.value.attributes
  }

  ghost function Decode(secretName: Name, data: Creds, prefix: string,
                        declared: set<string>): Result<Option<Creds>, Error> {
    var creds := Decoded(data, prefix);
    if creds == map[] then Success(None)
    else if Missing(declared, creds, prefix) != {} then
      Failure(MigrationIncomplete(secretName, Listing(Missing(declared, creds, prefix))))
    else Success(Some(creds))
  }

  ghost function CredentialsOf(c: Cluster, sare: Sare, sapr: Sapr, reply: Reply): Result<Option<Creds>, Error> {
    var name := MigrationSecretName(sare);
    if name == "" then Success(None)
    else if !reply.ok then Failure(CallFailed(reply.text))
    else if name !in c.secrets then Success(None)
    else Decode(name, c.secrets[name].data, Prefix(sare.spec.producer), DeclaredAttributes(sapr))
  }

  class MigrationSource {
    const client: Client

    constructor (client: Client)
      ensures this.client == client
    {
      this.client := client;
    }

    method Credentials(sare: Sare, sapr: Sapr, reply: Reply) returns (r: Result<Option<Creds>, Error>)
      ensures r == CredentialsOf(client.store, sare, sapr, reply)
      ensures sare.dogu == "" ==> r == Success(None)
      ensures sare.dogu != "" && !reply.ok ==> r == Failure(CallFailed(reply.text))
      ensures var name, secrets := sare.dogu + "-migration", client.store.secrets;
        sare.dogu != "" && reply.ok ==>
          if name in secrets then Yields(name, secrets[name].data, sare.spec.producer, sapr, r) else r == Success(None)
    {
      CredentialsExact(client.store, sare, sapr, reply);
      var secretName := MigrationSecretName(sare);
      if secretName == "" {
        return Success(None);
      }
      if !reply.ok {
        return Failure(CallFailed(reply.text));
      }
      if secretName !in client.store.secrets {
        return Success(None);
      }
      var prefix := Prefix(sare.spec.producer);
      var credentials := CutPrefixes(client.store.secrets[secretName].data, prefix);
      if |credentials| == 0 {
        return Success(None);
      }
      var missingKeys := MissingKeys(DeclaredAttributes(sapr), credentials, prefix);
      if |missingKeys| > 0 {
        return Failure(MigrationIncomplete(secretName, missingKeys));
      }
      return Success(Some(credentials));
    }
  }

  /** The first loop of Credentials; the keys come in any order. */
  method CutPrefixes(data: Creds, prefix: string) returns (credentials: Creds)
    ensures credentials == Decoded(data, prefix)
  {
    credentials := map[];
    var todo := data.Keys;
    while todo != {}
      invariant todo <= data.Keys
      invariant forall a :: a in credentials <==> prefix + a in data.Keys - todo
      invariant forall a :: a in credentials ==> credentials[a] == data[prefix + a]
    {
      var key :| key in todo;
      todo := todo - {key};
      if prefix <= key {
        assert key == prefix + key[|prefix|..];
        credentials := credentials[key[|prefix|..] := data[key]];
      }
    }
    forall a ensures a in credentials <==> a in Decoded(data, prefix) {
      AttributeIff(data, prefix, a);
    }
  }

  /** The second loop of Credentials, with the sort behind it. */
  method MissingKeys(declared: set<string>, credentials: Creds, prefix: string) returns (missingKeys: seq<string>)
    ensures missingKeys == Listing(Missing(declared, credentials, prefix))
  {
    var missing: seq<string> := [];
    var todo := declared;
    while todo != {}
      invariant todo <= declared
      invariant Elements(missing) == Missing(declared - todo, credentials, prefix)
      invariant forall i, j :: 0 <= i < j < |missing| ==> missing[i] != missing[j]
    {
      var attribute :| attribute in todo;
      ghost var before, was := todo, missing;
      todo := todo - {attribute};
      MissingGrows(declared, before, attribute, credentials, prefix);
      if attribute !in credentials {
        missing := missing + [prefix + attribute];
        AppendElements(was, prefix + attribute);
      }
    }
    assert declared - todo == declared;
    missingKeys := Sort(missing);
    SortAscending(missing);
    ListingAscending(Missing(declared, credentials, prefix));
    AscendingUnique(missingKeys, Listing(Missing(declared, credentials, prefix)));
  }

  lemma AppendElements(s: seq<string>, x: string)
    ensures Elements(s + [x]) == Elements(s) + {x}
  {
  }

  lemma MissingGrows(declared: set<string>, todo: set<string>, a: string, creds: Creds, prefix: string)
    requires todo <= declared && a in todo
    ensures Missing(declared - (todo - {a}), creds, prefix) ==
            Missing(declared - todo, creds, prefix) + (if a in creds then {} else {prefix + a})
    ensures prefix + a !in Missing(declared - todo, creds, prefix)
  {
    assert declared - (todo - {a}) == declared - todo + {a};
    forall b | prefix + b == prefix + a ensures a == b {
      assert (prefix + a)[|prefix|..] == a && (prefix + b)[|prefix|..] == b;
    }
  }

  /** What a decoding means, for any data: nothing, an error or exactly the prefixed entries. */
  lemma DecodeExact(secretName: Name, data: Creds, prefix: string, declared: set<string>)
    ensures var r := Decode(secretName, data, prefix, declared);
      && (r == Success(None) <==> forall k | k in data :: !(prefix <= k))
      && (r.Failure? <==> (exists k :: k in data && prefix <= k) && (exists a :: a in declared && prefix + a !in data))
      && (r.Failure? ==> r.error.MigrationIncomplete? && r.error.secret == secretName && Ascending(r.error.missing)
                         && forall k :: k in r.error.missing <==>
                                        exists a :: a in declared && k == prefix + a && k !in data)
      && (r.Success? && r.value.Some? ==> forall a :: a in r.value.value <==> prefix + a in data)
      && (r.Success? && r.value.Some? ==>
            forall a | a in r.value.value :: prefix + a in data && r.value.value[a] == data[prefix + a])
  {
    var creds := Decoded(data, prefix);
    var missing := Missing(declared, creds, prefix);
    ListingAscending(missing);
    forall a ensures a in creds <==> prefix + a in data {
      AttributeIff(data, prefix, a);
    }
    assert creds == map[] <==> forall k | k in data :: !(prefix <= k) by {
      if creds != map[] {
        var a :| a in creds;
        assert prefix + a in data;
      }
      if k :| k in data && prefix <= k {
        assert k[|prefix|..] in creds;
      }
    }
    assert forall k :: k in Listing(missing) <==> k in Elements(Listing(missing));
    forall k ensures k in missing <==> exists a :: a in declared && k == prefix + a && k !in data {
      if a :| a in declared && k == prefix + a && k !in data { assert a !in creds; }
    }
    if a :| a in declared && prefix + a !in data { assert prefix + a in missing; }
    if missing != {} { var k :| k in missing; }
  }

  /**
   What a migration secret with these data comes to for a producer, told by its keys: nothing if none belongs to the
   producer; else an error that lists the declared attributes that are lacking, or exactly the entries of the producer.
   */
  ghost predicate Yields(secretName: Name, data: Creds, producer: Name, sapr: Sapr, r: Result<Option<Creds>, Error>) {
    var prefix, declared := producer + "_", if sapr.http.Some? then sapr.http.value.attributes else {};
    && (r == Success(None) <==> forall k | k in data :: !(prefix <= k))
    && (r.Failure? <==> (exists k :: k in data && prefix <= k) && (exists a :: a in declared && prefix + a !in data))
    && (r.Failure? ==> r.error.MigrationIncomplete? && r.error.secret == secretName && Ascending(r.error.missing)
                       && forall k :: k in r.error.missing <==>
                                      exists a :: a in declared && k == prefix + a && k !in data)
    && (r.Success? && r.value.Some? ==> forall a :: a in r.value.value <==> prefix + a in data)
    && (r.Success? && r.value.Some? ==>
          forall a | a in r.value.value :: prefix + a in data && r.value.value[a] == data[prefix + a])
  }

  /** Whose secret is read, for which producer, and what that comes to. */
  lemma CredentialsExact(c: Cluster, sare: Sare, sapr: Sapr, reply: Reply)
    ensures var r, name := CredentialsOf(c, sare, sapr, reply), sare.dogu + "-migration";
      && (sare.dogu == "" ==> r == Success(None))
      && (sare.dogu != "" && !reply.ok ==> r == Failure(CallFailed(reply.text)))
      && (sare.dogu != "" && reply.ok ==>
            if name in c.secrets then Yields(name, c.secrets[name].data, sare.spec.producer, sapr, r)
            else r == Success(None))
  {
    var name := sare.dogu + "-migration";
    if sare.dogu != "" && reply.ok && name in c.secrets {
      DecodeExact(name, c.secrets[name].data, sare.spec.producer + "_", DeclaredAttributes(sapr));
    }
  }

  /** A secret filled for several producers yields each its own credentials, or an error if they are incomplete. */
  lemma EncodedYields(name: Name, data: Creds, accounts: map<Name, Creds>, p: Name, sapr: Sapr,
                      r: Result<Option<Creds>, Error>)
    requires Encodes(data, accounts) && p in accounts && accounts[p] != map[]
    requires forall q | q in accounts :: '_' !in q
    requires Yields(name, data, p, sapr, r) && r.Success?
    ensures r.value == Some(accounts[p])
  {
    EncodeDecode(data, accounts, p);
    var a :| a in accounts[p];
    assert KeyFor(p, a) == p + "_" + a && KeyFor(p, a) in data;
    forall a ensures a in r.value.value <==> a in accounts[p] {
      EncodedKey(data, accounts, p, a);
      AttributeIff(data, p + "_", a);
    }
    forall a | a in accounts[p] ensures r.value.value[a] == accounts[p][a] {
      EncodedKey(data, accounts, p, a);
    }
    MapsAgree(r.value.value, accounts[p]);
  }

  lemma EncodedFound(c: Cluster, sare: Sare, sapr: Sapr, reply: Reply, accounts: map<Name, Creds>)
    requires sare.dogu != "" && sare.dogu + "-migration" in c.secrets
    requires Encodes(c.secrets[sare.dogu + "-migration"].data, accounts) && forall p | p in accounts :: '_' !in p
    requires sare.spec.producer in accounts && accounts[sare.spec.producer] != map[]
    requires CredentialsOf(c, sare, sapr, reply).Success?
    ensures CredentialsOf(c, sare, sapr, reply).value == Some(accounts[sare.spec.producer])
  {
    var name := sare.dogu + "-migration";
    CredentialsExact(c, sare, sapr, reply);
    EncodedYields(name, c.secrets[name].data, accounts, sare.spec.producer, sapr, CredentialsOf(c, sare, sapr, reply));
  }

  /** Position of the first separator. */
  function FirstSeparator(k: string): (i: nat)
    ensures i <= |k|
    ensures i < |k| <==> '_' in k
    ensures i < |k| ==> k[i] == '_'
    ensures '_' !in k[..i]
  {
    if k == "" || k[0] == '_' then 0
    else
      var i := 1 + FirstSeparator(k[1..]);
      assert k == [k[0]] + k[1..];
      assert k[..i] == [k[0]] + k[1..][..i - 1];
      i
  }

  /**
   The prefixes of two producers never share a key: an object name has no '_', so a key belongs to the producer
   named before its first '_', and to no other.
   */
  lemma KeyBelongsToOneProducer(k: string, p: Name)
    requires '_' !in p
    ensures Prefix(p) <= k <==> FirstSeparator(k) < |k| && k[..FirstSeparator(k)] == p
    ensures Prefix(p) <= k ==> k == KeyFor(p, k[|p| + 1..])
  {
    if Prefix(p) <= k {
      PrefixedKey(k, p);
    }
    if FirstSeparator(k) < |k| && k[..FirstSeparator(k)] == p {
      SeparatedKey(k, p);
    }
  }

  lemma SeparatedKey(k: string, p: Name)
    requires FirstSeparator(k) < |k| && k[..FirstSeparator(k)] == p
    ensures Prefix(p) <= k
  {
    assert k[..FirstSeparator(k) + 1] == Prefix(p);
  }

  lemma PrefixedKey(k: string, p: Name)
    requires '_' !in p && Prefix(p) <= k
    ensures FirstSeparator(k) == |p| < |k| && k[..|p|] == p
    ensures k == KeyFor(p, k[|p| + 1..])
  {
    assert Prefix(p)[|p|] == '_' && Prefix(p)[..|p|] == p;
    assert k[|p|] == '_' && k[..|p|] == p;
    SeparatorAt(k, |p|);
    assert k[..|p| + 1] == Prefix(p);
    assert k == k[..|p| + 1] + k[|p| + 1..];
  }

  lemma SeparatorAt(k: string, j: nat)
    requires j < |k| && k[j] == '_' && '_' !in k[..j]
    ensures FirstSeparator(k) == j
  {
  }

  /** Every entry with a separator is decoded by exactly one producer name, with its value. */
  lemma DecodingLosesNoKey(data: Creds, k: string)
    requires k in data && '_' in k
    ensures var i := FirstSeparator(k);
      && k[i + 1..] in Decoded(data, Prefix(k[..i]))
      && Decoded(data, Prefix(k[..i]))[k[i + 1..]] == data[k]
    ensures forall q: Name | '_' !in q && Prefix(q) <= k :: q == k[..FirstSeparator(k)]
  {
    var i := FirstSeparator(k);
    KeyBelongsToOneProducer(k, k[..i]);
    AttributeIff(data, Prefix(k[..i]), k[i + 1..]);
    forall q: Name | '_' !in q && Prefix(q) <= k ensures q == k[..i] {
      KeyBelongsToOneProducer(k, q);
    }
  }

  lemma KeyInjective(p: Name, a: string, q: Name, b: string)
    requires '_' !in p && '_' !in q && KeyFor(p, a) == KeyFor(q, b)
    ensures p == q && a == b
  {
    KeyBelongsToOneProducer(KeyFor(p, a), p);
    KeyBelongsToOneProducer(KeyFor(p, a), q);
    assert KeyFor(p, a)[|p| + 1..] == a && KeyFor(q, b)[|q| + 1..] == b;
  }

  /** A migration secret filled with the credentials of several producers. */
  ghost predicate Encodes(data: Creds, accounts: map<Name, Creds>) {
    && (forall p, a | p in accounts && a in accounts[p] :: KeyFor(p, a) in data && data[KeyFor(p, a)] == accounts[p][a])
    && (forall k | k in data :: HasOrigin(k, accounts))
  }

  ghost predicate HasOrigin(k: string, accounts: map<Name, Creds>) {
    exists p, a :: p in accounts && a in accounts[p] && k == KeyFor(p, a)
  }

  lemma EncodedKey(data: Creds, accounts: map<Name, Creds>, p: Name, a: string)
    requires Encodes(data, accounts) && p in accounts
    requires forall q | q in accounts :: '_' !in q
    ensures a in Decoded(data, Prefix(p)) <==> a in accounts[p]
    ensures a in accounts[p] ==> Decoded(data, Prefix(p))[a] == accounts[p][a]
  {
    AttributeIff(data, Prefix(p), a);
    if KeyFor(p, a) in data {
      assert HasOrigin(KeyFor(p, a), accounts);
      var q, b :| q in accounts && b in accounts[q] && KeyFor(p, a) == KeyFor(q, b);
      KeyInjective(p, a, q, b);
    }
  }

  lemma MapsAgree(m: Creds, m': Creds)
    requires forall a :: a in m <==> a in m'
    requires forall a :: a in m' ==> m[a] == m'[a]
    ensures m == m'
  {
  }

  /** Decoding gives every producer back what was encoded for it, and nothing of the others. */
  lemma EncodeDecode(data: Creds, accounts: map<Name, Creds>, p: Name)
    requires Encodes(data, accounts) && p in accounts
    requires forall q | q in accounts :: '_' !in q
    ensures Decoded(data, Prefix(p)) == accounts[p]
  {
    var decoded := Decoded(data, Prefix(p));
    forall a ensures a in decoded <==> a in accounts[p]
      ensures a in accounts[p] ==> decoded[a] == accounts[p][a]
    {
      EncodedKey(data, accounts, p, a);
    }
    MapsAgree(decoded, accounts[p]);
  }
}
