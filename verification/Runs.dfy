/** Building runs event by event, and the run by which a new SARE gets its secret. */
module Runs {
  import opened Wrappers
  import opened Api
  import opened Migration
  import opened Registry
  import opened Pass
  import opened Operator

  lemma {:induction false} Extend(w: World, run: seq<Event>, e: Event)
    requires Legal(w, run) && Enabled(Exec(w, run), e)
    ensures Legal(w, run + [e]) && Exec(w, run + [e]) == Next(Exec(w, run), e)
    decreases |run|
  {
    if run == [] {
      assert [] + [e] == [e];
      assert Legal(Next(w, e), [e][1..]);
    } else {
      Extend(Next(w, run[0]), run[1..], e);
      assert (run + [e])[1..] == run[1..] + [e];
    }
  }

  lemma {:induction false} Append(w: World, run: seq<Event>, run': seq<Event>)
    requires Legal(w, run) && Legal(Exec(w, run), run')
    ensures Legal(w, run + run') && Exec(w, run + run') == Exec(Exec(w, run), run')
    decreases |run|
  {
    if run == [] {
      assert [] + run' == run';
    } else {
      assert (run + run')[0] == run[0] && (run + run')[1..] == run[1..] + run';
      Append(Next(w, run[0]), run[1..], run');
    }
  }

  lemma {:induction false} RunFormed(w: World, run: seq<Event>)
    requires WellFormed(w) && Legal(w, run)
    ensures WellFormed(Exec(w, run))
    decreases |run|
  {
    if run != [] {
      NextFormed(w, run[0]);
      RunFormed(Next(w, run[0]), run[1..]);
    }
  }

  /** An operator that has just started, and finds one new SARE and its producer. */
  function Newborn(k: Name, spec: Spec, http: Http, clock: nat, timeout: nat, namespace: string): World {
    var sare := Sare(k, 0, 1, None, false, false, "", spec, NO_STATUS);
    var producers := map[spec.producer := Sapr(spec.producer, 0, Some(http))];
    World(Cluster(map[k := sare], producers, map[], map[], {}, [], {}, [k], clock),
          Memory(map[], [], timeout, namespace), {k}, None, None, map[])
  }

  /** The first pass puts the finalizer in place. */
  lemma FirstPassStarts(w: World, k: Name, s: Sare) returns (run: seq<Event>)
    requires w.pass.None? && w.queue == {k} && k in w.c.sares && s.name == k
    requires w.c.sares[k].deletedAt.None? && !w.c.sares[k].finalizer && s == w.c.sares[k].(finalizer := true)
    ensures Legal(w, run) && NothingFails(run)
    ensures Exec(w, run) ==
      w.(c := w.c.(sares := w.c.sares[k := s]), queue := {}, pass := Some(Running(k, CheckSecret(s))),
         shared := None)
  {
    Extend(w, [], Start(k));
    run := [] + [Start(k)];
    assert Exec(w, run).pass == Some(Running(k, Begin(k))) && Exec(w, run).queue == {};
    Extend(w, run, Event.Call(OK));
    run := run + [Event.Call(OK)];
    assert Exec(w, run).pass == Some(Running(k, AddFinalizer(w.c.sares[k])));
    Extend(w, run, Event.Call(OK));
    run := run + [Event.Call(OK)];
  }

  lemma FirstPassEnds(w: World, run: seq<Event>, k: Name, s: Sare) returns (run': seq<Event>)
    requires Legal(w, run) && NothingFails(run)
    requires var v := Exec(w, run);
      && v.pass == Some(Running(k, PersistReady(s, ResolveSecretName(s), Created, true))) && v.jobs == map[]
      && s.name == k && k in v.c.sares && v.c.sares[k] == s
    ensures Legal(w, run') && NothingFails(run')
    ensures var v, v' := Exec(w, run), Exec(w, run');
      && v' == v.(c := v'.c, pass := None, shared := None)
      && v'.c == v.c.(sares := v.c.sares[k := s.(status := Ready(s, ResolveSecretName(s), Created, true, v.c.clock))])
  {
    Extend(w, run, Event.Call(OK));
    var run1 := run + [Event.Call(OK)];
    assert Exec(w, run1).pass == Some(Running(k, Done(None)));
    Extend(w, run1, Finish);
    run' := run1 + [Finish];
  }

  /** The pass finds no secret, and gets as far as looking for the producer. */
  lemma PassLooks(w: World, run: seq<Event>, k: Name, s: Sare) returns (run': seq<Event>)
    requires Legal(w, run) && NothingFails(run)
    requires var v := Exec(w, run);
      v.pass == Some(Running(k, CheckSecret(s))) && ResolveSecretName(s) !in v.c.secrets
    ensures Legal(w, run') && NothingFails(run')
    ensures var v, v' := Exec(w, run), Exec(w, run');
      && v' == v.(m := v'.m, shared := v'.shared,
                  pass := Some(Running(k, FindProducer(s, false, ResolveSecretName(s)))))
      && (RotationEnabled(s) ==>
            && v'.shared == Some(|v.m.runners|)
            && v'.m == SetWatcher(v.m, NamespacedName(s.name, v.m.namespace), s.spec.rotation.value.expression, true))
  {
    Extend(w, run, Event.Call(OK));
    var run1 := run + [Event.Call(OK)];
    assert Exec(w, run1).pass == Some(Running(k, SetRunner(s, false)));
    Extend(w, run1, Event.Call(OK));
    run' := run1 + [Event.Call(OK)];
  }

  const CREDENTIALS := Reply(true, "", true, Some(map[]))

  /** The pass has found no secret, and its producer is there and can be asked. */
  predicate Searching(v: World, k: Name, s: Sare) {
    && v.pass == Some(Running(k, FindProducer(s, false, ResolveSecretName(s)))) && s.name == k && k in v.c.sares
    && ResolveSecretName(s) !in v.c.secrets
    && s.spec.producer in v.c.producers && v.c.producers[s.spec.producer].http.Some?
  }

  /** The pass has written the secret and is about to say ready, and nothing else has changed. */
  predicate AboutToEnd(v: World, v': World, s: Sare, reason: Reason, rotated: bool, data: Creds) {
    && v.pass.Some?
    && v'.pass == Some(Running(v.pass.value.key, PersistReady(s, ResolveSecretName(s), reason, rotated)))
    && v'.queue == v.queue && v'.jobs == v.jobs && v'.shared == v.shared && v'.m == v.m
    && v'.c.sares == v.c.sares && v'.c.producers == v.c.producers
    && v'.c.born == v.c.born && v'.c.clock == v.c.clock
    && v'.c.secrets == v.c.secrets[ResolveSecretName(s) := Secret(Some(s.uid), data)]
  }

  /** What the migration secret holds for the SARE, when it can be read. */
  ghost function Readable(v: World, s: Sare): Result<Option<Creds>, Error>
    requires s.spec.producer in v.c.producers
  {
    CredentialsOf(v.c, s, v.c.producers[s.spec.producer], OK)
  }

  lemma PassFinds(w: World, run: seq<Event>, k: Name, s: Sare) returns (run': seq<Event>)
    requires Legal(w, run) && NothingFails(run) && Searching(Exec(w, run), k, s)
    ensures Legal(w, run') && NothingFails(run')
    ensures var v := Exec(w, run);
      Exec(w, run') ==
      v.(pass := Some(Running(k, ReadMigration(s, v.c.producers[s.spec.producer], ResolveSecretName(s)))))
  {
    Extend(w, run, Event.Call(OK));
    run' := run + [Event.Call(OK)];
  }

  /** There is nothing to migrate: the pass gets new credentials and stores them. */
  lemma PassCreates(w: World, run: seq<Event>, k: Name, s: Sare) returns (run': seq<Event>)
    requires Legal(w, run) && NothingFails(run)
    requires Searching(Exec(w, run), k, s) && Readable(Exec(w, run), s) == Result.Success(None)
    ensures Legal(w, run') && NothingFails(run')
    ensures AboutToEnd(Exec(w, run), Exec(w, run'), s, Created, true, map[])
  {
    var sapr, n := Exec(w, run).c.producers[s.spec.producer], ResolveSecretName(s);
    var run1 := PassFinds(w, run, k, s);
    Extend(w, run1, Event.Call(OK));
    var run2 := run1 + [Event.Call(OK)];
    assert Exec(w, run2).pass == Some(Running(k, Request(s, sapr, false, n)));
    Extend(w, run2, Event.Call(CREDENTIALS));
    var run3 := run2 + [Event.Call(CREDENTIALS)];
    run' := PassStores(w, run3, k, s, map[], false);
  }

  /** There is something to migrate: the pass stores it. */
  lemma PassMigrates(w: World, run: seq<Event>, k: Name, s: Sare, creds: Creds) returns (run': seq<Event>)
    requires Legal(w, run) && NothingFails(run)
    requires Searching(Exec(w, run), k, s) && Readable(Exec(w, run), s) == Result.Success(Some(creds))
    ensures Legal(w, run') && NothingFails(run')
    ensures AboutToEnd(Exec(w, run), Exec(w, run'), s, Migrated, false, creds)
  {
    var run1 := PassFinds(w, run, k, s);
    Extend(w, run1, Event.Call(OK));
    var run2 := run1 + [Event.Call(OK)];
    assert Exec(w, run2) == Exec(w, run1).(pass := Some(Running(k, Store(s, creds, true))));
    run' := PassStores(w, run2, k, s, creds, true);
  }

  lemma PassStores(w: World, run: seq<Event>, k: Name, s: Sare, creds: Creds, migrated: bool) returns (run': seq<Event>)
    requires Legal(w, run) && NothingFails(run) && Exec(w, run).pass == Some(Running(k, Store(s, creds, migrated)))
    requires ResolveSecretName(s) !in Exec(w, run).c.secrets
    ensures Legal(w, run') && NothingFails(run')
    ensures AboutToEnd(Exec(w, run), Exec(w, run'), s, if migrated then Migrated else Created, !migrated, creds)
  {
    Extend(w, run, Event.Call(OK));
    run' := run + [Event.Call(OK)];
  }

  /** The first pass for a new SARE, with nothing around it: a secret, a status that says so, and a running runner. */
  lemma FirstPass(k: Name, spec: Spec, http: Http, clock: nat, timeout: nat, namespace: string)
    returns (run: seq<Event>)
    requires spec.rotation.Some? && spec.rotation.value.enabled
    ensures var w := Newborn(k, spec, http, clock, timeout, namespace);
      && Initial(w) && Legal(w, run) && NothingFails(run)
      && var v, s := Exec(w, run), w.c.sares[k].(finalizer := true);
         && WellFormed(v) && v.queue == {} && v.pass == None && v.jobs == map[]
         && v.c.sares == map[k := s.(status := Ready(s, ResolveSecretName(s), Created, true, clock))]
         && v.c.secrets == map[ResolveSecretName(s) := Secret(Some(0), map[])]
         && v.c.producers == w.c.producers && v.c.born == [k]
         && v.m == SetWatcher(w.m, NamespacedName(k, namespace), spec.rotation.value.expression, true)
  {
    var w := Newborn(k, spec, http, clock, timeout, namespace);
    var s := w.c.sares[k].(finalizer := true);
    run := FirstPassStarts(w, k, s);
    run := PassLooks(w, run, k, s);
    run := PassCreates(w, run, k, s);
    run := FirstPassEnds(w, run, k, s);
    RunFormed(w, run);
  }
}
