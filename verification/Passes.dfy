/** What whole passes do when nothing comes between their calls, for any answers of the outside. */
module Passes {
  import opened Wrappers
  import opened Api
  import opened Migration
  import opened Registry
  import opened Pass
  import opened Operator
  import opened Wakeup

  /** The calls of an undisturbed pass: the secret's name is the one that the SARE asks for. */
  function FindCall(sare: Sare, present: bool): Pc {
    FindProducer(sare, present, ResolveSecretName(sare))
  }

  function MigrationCall(sare: Sare, sapr: Sapr): Pc {
    ReadMigration(sare, sapr, ResolveSecretName(sare))
  }

  function RequestCall(sare: Sare, sapr: Sapr, present: bool): Pc {
    Request(sare, sapr, present, ResolveSecretName(sare))
  }

  function ReadyWith(sare: Sare, reason: Reason, rotated: bool, clock: nat): Status {
    Ready(sare, ResolveSecretName(sare), reason, rotated, clock)
  }

  lemma FailedRun(c: Cluster, m: Memory, sare: Sare, error: Error, answers: Answers)
    ensures var end := Run(c, m, PersistFailed(sare, error), answers);
      && end.pc == Done(Some(error)) && end.m == m
      && end.c == if answers(PersistFailed(sare, error)).ok
                  then PatchStatus(c, sare.name, sare.status, NotReady(sare, FailureReason(error), error)) else c
  {
  }

  lemma PersistReadyRun(c: Cluster, m: Memory, sare: Sare, name: Name, reason: Reason, rotated: bool, answers: Answers)
    requires Run(c, m, PersistReady(sare, name, reason, rotated), answers).pc == Done(None)
    ensures var end := Run(c, m, PersistReady(sare, name, reason, rotated), answers);
      end.m == m && end.c == PatchStatus(c, sare.name, sare.status, Ready(sare, name, reason, rotated, c.clock))
  {
  }

  /** The cluster after credentials have been stored and the SARE has been marked ready. */
  function Stored(c: Cluster, sare: Sare, creds: Creds, migrated: bool): Cluster {
    PatchStatus(WriteSecret(c, ResolveSecretName(sare), sare.uid, creds), sare.name, sare.status,
                ReadyWith(sare, if migrated then Migrated else Created, !migrated, c.clock))
  }

  lemma StoreRun(c: Cluster, m: Memory, sare: Sare, creds: Creds, migrated: bool, answers: Answers)
    requires Run(c, m, Store(sare, creds, migrated), answers).pc == Done(None)
    ensures var end := Run(c, m, Store(sare, creds, migrated), answers);
      end.m == m && end.c == Stored(c, sare, creds, migrated)
  {
    var a := Step(c, m, Store(sare, creds, migrated), answers(Store(sare, creds, migrated)));
    if a.pc.PersistFailed? {
      FailedRun(c, m, sare, a.pc.error, answers);
    } else {
      PersistReadyRun(a.c, m, sare, a.pc.secretName, a.pc.reason, !migrated, answers);
    }
  }

  /** The cluster after the producer has been asked and the SARE has been marked ready. */
  function Requested(c: Cluster, sare: Sare, sapr: Sapr, present: bool, body: Option<Creds>): Cluster {
    var c' := Asked(c, Put(AccountAt(sapr, sare), sare.spec.params, !present));
    if body.None? then PatchStatus(c', sare.name, sare.status, ReadyWith(sare, Created, false, c.clock))
    else Stored(c', sare, body.value, false)
  }

  lemma RequestRun(c: Cluster, m: Memory, sare: Sare, sapr: Sapr, present: bool, answers: Answers)
    requires Run(c, m, RequestCall(sare, sapr, present), answers).pc == Done(None)
    ensures var end := Run(c, m, RequestCall(sare, sapr, present), answers);
      && end.m == m && answers(RequestCall(sare, sapr, present)).ok
      && end.c == Requested(c, sare, sapr, present, answers(RequestCall(sare, sapr, present)).body)
  {
    var a := Step(c, m, RequestCall(sare, sapr, present), answers(RequestCall(sare, sapr, present)));
    if a.pc.PersistFailed? {
      FailedRun(a.c, m, sare, a.pc.error, answers);
    } else if a.pc.PersistReady? {
      PersistReadyRun(a.c, m, sare, a.pc.secretName, Created, false, answers);
    } else {
      StoreRun(a.c, m, sare, a.pc.creds, false, answers);
    }
  }

  /** What the migration secret holds for the SARE. */
  ghost function Found(c: Cluster, sare: Sare, sapr: Sapr, answers: Answers): Result<Option<Creds>, Error> {
    CredentialsOf(c, sare, sapr, answers(MigrationCall(sare, sapr)))
  }

  /** The cluster after a pass that found the secret as `present` says. */
  ghost function Provided(c: Cluster, sare: Sare, sapr: Sapr, present: bool, answers: Answers): Cluster {
    if !present && Found(c, sare, sapr, answers).Success? && Found(c, sare, sapr, answers).value.Some?
    then Stored(c, sare, Found(c, sare, sapr, answers).value.value, true)
    else Requested(c, sare, sapr, present, answers(RequestCall(sare, sapr, present)).body)
  }

  lemma FindProducerRun(c: Cluster, m: Memory, sare: Sare, present: bool, answers: Answers)
    requires sare.spec.producer in c.producers
    requires Run(c, m, FindCall(sare, present), answers).pc == Done(None)
    ensures var end := Run(c, m, FindCall(sare, present), answers);
      && end.m == m && end.c == Provided(c, sare, c.producers[sare.spec.producer], present, answers)
      && (!present ==> Found(c, sare, c.producers[sare.spec.producer], answers).Success?)
  {
    var sapr := c.producers[sare.spec.producer];
    var a := Step(c, m, FindCall(sare, present), answers(FindCall(sare, present)));
    if a.pc.PersistFailed? {
      FailedRun(c, m, sare, a.pc.error, answers);
    } else if present {
      RequestRun(c, m, sare, sapr, present, answers);
    } else {
      ReadMigrationRun(c, m, sare, sapr, answers);
    }
  }

  lemma ReadMigrationRun(c: Cluster, m: Memory, sare: Sare, sapr: Sapr, answers: Answers)
    requires Run(c, m, MigrationCall(sare, sapr), answers).pc == Done(None)
    ensures var end := Run(c, m, MigrationCall(sare, sapr), answers);
      end.m == m && end.c == Provided(c, sare, sapr, false, answers) && Found(c, sare, sapr, answers).Success?
  {
    var a := Step(c, m, MigrationCall(sare, sapr), answers(MigrationCall(sare, sapr)));
    if a.pc.PersistFailed? {
      FailedRun(c, m, sare, a.pc.error, answers);
    } else if a.pc.Request? {
      RequestRun(c, m, sare, sapr, false, answers);
    } else {
      StoreRun(c, m, sare, a.pc.creds, true, answers);
    }
  }

  /** The watcher map after a successful pass. */
  function Watched(m: Memory, sare: Sare): Memory {
    var key := NamespacedName(sare.name, m.namespace);
    if RotationEnabled(sare) then SetWatcher(m, key, sare.spec.rotation.value.expression, true)
    else DeleteWatcher(m, key)
  }

  /** For the key the expression of the rotation runs, if that is enabled; else nothing runs and no entry is left. */
  ghost predicate Follows(m: Memory, key: string, rotation: Option<Rotation>) {
    if rotation.Some? && rotation.value.enabled then
      && key in m.watch && RunningFor(m, key) == {m.watch[key]}
      && m.watch[key] < |m.runners| && m.runners[m.watch[key]].expression == rotation.value.expression
    else key !in m.watch && RunningFor(m, key) == {}
  }

  lemma WatchedFollows(m: Memory, sare: Sare)
    requires Consistent(m)
    ensures Consistent(Watched(m, sare)) && Follows(Watched(m, sare), sare.name + "-" + m.namespace, sare.spec.rotation)
  {
    var key := NamespacedName(sare.name, m.namespace);
    DeleteWatcherCorrect(m, key);
    if RotationEnabled(sare) {
      SetWatcherCorrect(m, key, sare.spec.rotation.value.expression, true);
    }
  }

  lemma CheckSecretRun(c: Cluster, m: Memory, sare: Sare, answers: Answers)
    requires sare.spec.producer in c.producers
    requires Run(c, m, CheckSecret(sare), answers).pc == Done(None)
    ensures var end, present := Run(c, m, CheckSecret(sare), answers), Controls(c, sare.uid, ResolveSecretName(sare));
      && (present || ResolveSecretName(sare) !in c.secrets)
      && end.m == Watched(m, sare)
      && end.c == Provided(c, sare, c.producers[sare.spec.producer], present, answers)
      && (!present ==> Found(c, sare, c.producers[sare.spec.producer], answers).Success?)
  {
    var pc := CheckSecret(sare);
    var a := Step(c, m, pc, answers(pc));
    if a.pc.PersistFailed? {
      FailedRun(c, m, sare, a.pc.error, answers);
    } else {
      SetRunnerRun(c, m, sare, a.pc.present, answers);
    }
  }

  lemma SetRunnerRun(c: Cluster, m: Memory, sare: Sare, present: bool, answers: Answers)
    requires sare.spec.producer in c.producers
    requires Run(c, m, SetRunner(sare, present), answers).pc == Done(None)
    ensures var end := Run(c, m, SetRunner(sare, present), answers);
      && end.m == Watched(m, sare)
      && end.c == Provided(c, sare, c.producers[sare.spec.producer], present, answers)
      && (!present ==> Found(c, sare, c.producers[sare.spec.producer], answers).Success?)
  {
    var pc := SetRunner(sare, present);
    var a := Step(c, m, pc, answers(pc));
    if a.pc.PersistFailed? {
      FailedRun(c, a.m, sare, a.pc.error, answers);
    } else {
      FindProducerRun(c, a.m, sare, present, answers);
    }
  }

  /** The stored SARE once the finalizer is in place. */
  function WithFinalizer(c: Cluster, k: Name): Cluster
    requires k in c.sares
  {
    c.(sares := c.sares[k := c.sares[k].(finalizer := true)])
  }

  /** The cluster after a successful pass for a live SARE whose producer exists. */
  ghost function Reconciled(c: Cluster, k: Name, answers: Answers): Cluster
    requires Live(c, k) && c.sares[k].spec.producer in c.producers
  {
    var c', s := WithFinalizer(c, k), c.sares[k].(finalizer := true);
    Provided(c', s, c.producers[s.spec.producer], Controls(c, s.uid, ResolveSecretName(s)), answers)
  }

  /** Adding the finalizer either fails with nothing changed, or the pass goes on from the SARE with the finalizer. */
  lemma AddFinalizerRun(c: Cluster, m: Memory, sare: Sare, answers: Answers)
    requires sare.name in c.sares && c.sares[sare.name] == sare
    ensures var end, rest := Run(c, m, AddFinalizer(sare), answers),
                Run(WithFinalizer(c, sare.name), m, CheckSecret(sare.(finalizer := true)), answers);
      if answers(AddFinalizer(sare)).ok then end.pc == rest.pc && end.c == rest.c && end.m == rest.m
      else end.pc.result.Some? && end.c == c && end.m == m
  {
  }

  /** A successful pass goes on from the SARE with the finalizer. */
  lemma StartedRun(c: Cluster, m: Memory, k: Name, answers: Answers)
    requires ClusterFormed(c) && Live(c, k) && Run(c, m, Begin(k), answers).pc == Done(None)
    ensures var end, rest := Run(c, m, Begin(k), answers),
                Run(WithFinalizer(c, k), m, CheckSecret(c.sares[k].(finalizer := true)), answers);
      end.c == rest.c && end.m == rest.m && end.pc == rest.pc
  {
    var sare := c.sares[k];
    if sare.finalizer {
      assert WithFinalizer(c, k) == c && sare.(finalizer := true) == sare;
    } else {
      AddFinalizerRun(c, m, sare, answers);
    }
  }

  lemma SuccessfulPass(c: Cluster, m: Memory, k: Name, answers: Answers)
    requires ClusterFormed(c) && Live(c, k) && c.sares[k].spec.producer in c.producers
    requires Run(c, m, Begin(k), answers).pc == Done(None)
    ensures var end, n := Run(c, m, Begin(k), answers), ResolveSecretName(c.sares[k]);
      && end.m == Watched(m, c.sares[k]) && end.c == Reconciled(c, k, answers)
      && (Consistent(m) ==> Consistent(end.m) && Follows(end.m, k + "-" + m.namespace, c.sares[k].spec.rotation))
      && (Controls(c, c.sares[k].uid, n) || n !in c.secrets)
      && (n !in c.secrets ==>
            Found(c, c.sares[k].(finalizer := true), c.producers[c.sares[k].spec.producer], answers).Success?)
  {
    var s := c.sares[k].(finalizer := true);
    StartedRun(c, m, k, answers);
    CheckSecretRun(WithFinalizer(c, k), m, s, answers);
    var sapr := c.producers[s.spec.producer];
    assert Found(WithFinalizer(c, k), s, sapr, answers) == Found(c, s, sapr, answers);
    if Consistent(m) {
      WatchedFollows(m, c.sares[k]);
    }
  }

  /** Patching a status that is still the one in memory makes it the new one. */
  lemma PatchReplaces(c: Cluster, k: Name, next: Status)
    requires k in c.sares
    ensures PatchStatus(c, k, c.sares[k].status, next) == c.(sares := c.sares[k := c.sares[k].(status := next)])
  {
  }

  /** What a successful pass makes of the cluster when the secret is missing. */
  lemma CreatingRun(c: Cluster, m: Memory, k: Name, answers: Answers)
    requires ClusterFormed(c) && Live(c, k) && c.sares[k].spec.producer in c.producers
    requires ResolveSecretName(c.sares[k]) !in c.secrets
    requires Run(c, m, Begin(k), answers).pc == Done(None)
    ensures var s, sapr := c.sares[k].(finalizer := true), c.producers[c.sares[k].spec.producer];
      var n, end, found := ResolveSecretName(s), Run(c, m, Begin(k), answers).c, Found(c, s, sapr, answers);
      && found.Success?
      && (found.value.Some? ==>
            && end.secrets == c.secrets[n := Secret(Some(s.uid), found.value.value)]
            && end.puts == c.puts && end.accounts == c.accounts
            && end.sares == c.sares[k := s.(status := ReadyWith(s, Migrated, false, c.clock))])
      && (found.value.None? ==>
            var body := answers(RequestCall(s, sapr, false)).body;
            && end.puts == c.puts + [Put(AccountOf(s), s.spec.params, true)]
            && end.secrets == (if body.Some? then c.secrets[n := Secret(Some(s.uid), body.value)] else c.secrets)
            && end.sares == c.sares[k := s.(status := ReadyWith(s, Created, body.Some?, c.clock))])
  {
    var s, sapr := c.sares[k].(finalizer := true), c.producers[c.sares[k].spec.producer];
    var c' := WithFinalizer(c, k);
    SuccessfulPass(c, m, k, answers);
    var found := Found(c, s, sapr, answers);
    assert Found(c', s, sapr, answers) == found;
    if found.value.Some? {
      PatchReplaces(WriteSecret(c', ResolveSecretName(s), s.uid, found.value.value), k,
                    ReadyWith(s, Migrated, false, c.clock));
    } else {
      RequestedState(c, k, s, sapr, answers(RequestCall(s, sapr, false)).body);
    }
  }

  /** What the request for a missing secret makes of the cluster. */
  lemma RequestedState(c: Cluster, k: Name, s: Sare, sapr: Sapr, body: Option<Creds>)
    requires k in c.sares && c.sares[k].name == k && s == c.sares[k].(finalizer := true)
    requires sapr.name == s.spec.producer && ResolveSecretName(s) !in c.secrets
    ensures var end := Requested(WithFinalizer(c, k), s, sapr, false, body);
      && end.puts == c.puts + [Put(AccountOf(s), s.spec.params, true)]
      && end.secrets == (if body.Some? then c.secrets[ResolveSecretName(s) := Secret(Some(s.uid), body.value)]
                         else c.secrets)
      && end.sares == c.sares[k := s.(status := ReadyWith(s, Created, body.Some?, c.clock))]
  {
    var c' := Asked(WithFinalizer(c, k), Put(AccountOf(s), s.spec.params, true));
    if body.None? {
      PatchReplaces(c', k, ReadyWith(s, Created, false, c.clock));
    } else {
      PatchReplaces(WriteSecret(c', ResolveSecretName(s), s.uid, body.value), k, ReadyWith(s, Created, true, c.clock));
    }
  }

  /** What a successful pass makes of the cluster when the secret is there: it asks for no rotation. */
  lemma UpdatingRun(c: Cluster, m: Memory, k: Name, answers: Answers)
    requires ClusterFormed(c) && Live(c, k) && c.sares[k].spec.producer in c.producers
    requires ResolveSecretName(c.sares[k]) in c.secrets
    requires Run(c, m, Begin(k), answers).pc == Done(None)
    ensures var s, sapr := c.sares[k].(finalizer := true), c.producers[c.sares[k].spec.producer];
      var n, end := ResolveSecretName(s), Run(c, m, Begin(k), answers).c;
      var body := answers(RequestCall(s, sapr, true)).body;
      && Controls(c, s.uid, n)
      && end.puts == c.puts + [Put(AccountOf(s), s.spec.params, false)]
      && (body.None? ==> end.secrets == c.secrets)
      && (body.Some? ==>
            end.secrets == c.secrets[n := Secret(Some(s.uid), c.secrets[n].data + body.value)])
      && end.sares == c.sares[k := s.(status := ReadyWith(s, Created, body.Some?, c.clock))]
  {
    var s, sapr := c.sares[k].(finalizer := true), c.producers[c.sares[k].spec.producer];
    var body := answers(RequestCall(s, sapr, true)).body;
    SuccessfulPass(c, m, k, answers);
    var c' := Asked(WithFinalizer(c, k), Put(AccountOf(s), s.spec.params, false));
    if body.None? {
      PatchReplaces(c', k, ReadyWith(s, Created, false, c.clock));
    } else {
      PatchReplaces(WriteSecret(c', ResolveSecretName(s), s.uid, body.value), k, ReadyWith(s, Created, true, c.clock));
    }
  }

  /** The name of the secret of a SARE: what its spec refers to, or else its own name. */
  lemma SecretName(c: Cluster, k: Name)
    requires ClusterFormed(c) && k in c.sares
    ensures var ref := c.sares[k].spec.secretRef;
      ResolveSecretName(c.sares[k]) == if ref == None || ref == Some("") then k else ref.value
  {
  }

  /**
   The secret is missing: it is created under the name the spec refers to, or else under that of the SARE, with the
   migrated credentials or with those that one request for a rotation brings.
   */
  lemma CreatingPass(c: Cluster, m: Memory, k: Name, answers: Answers)
    requires ClusterFormed(c) && Live(c, k) && c.sares[k].spec.producer in c.producers
    requires ResolveSecretName(c.sares[k]) !in c.secrets
    requires Run(c, m, Begin(k), answers).pc == Done(None)
    ensures var s, sapr := c.sares[k].(finalizer := true), c.producers[c.sares[k].spec.producer];
      var ref, account := s.spec.secretRef, Account(s.spec.producer, s.spec.consumer);
      var n := if ref == None || ref == Some("") then k else ref.value;
      var end, found := Run(c, m, Begin(k), answers).c, Found(c, s, sapr, answers);
      && found.Success?
      && (found.value.Some? ==>
            && end.secrets == c.secrets[n := Secret(Some(s.uid), found.value.value)]
            && end.puts == c.puts && end.accounts == c.accounts && end.released == c.released
            && end.sares == c.sares[k := s.(status := Status(Some(n), s.status.lastRotation,
                                                        Some(Condition(true, Migrated, None, s.generation))))])
      && (found.value.None? ==>
            var body := answers(Request(s, sapr, false, n)).body;
            && end.puts == c.puts + [Put(account, s.spec.params, true)]
            && end.accounts == c.accounts + {account} && end.released == c.released - {account}
            && end.secrets == (if body.Some? then c.secrets[n := Secret(Some(s.uid), body.value)] else c.secrets)
            && end.sares == c.sares[k := s.(status := Status(Some(n),
                                                        if body.Some? then Some(c.clock) else s.status.lastRotation,
                                                        Some(Condition(true, Created, None, s.generation))))])
  {
    SecretName(c, k);
    CreatingRun(c, m, k, answers);
    SuccessfulPass(c, m, k, answers);
  }

  /**
   The secret is there, and is the SARE's own: one request without a rotation, and what comes back is merged into the
   secret that the spec refers to, or else into that with the name of the SARE.
   */
  lemma UpdatingPass(c: Cluster, m: Memory, k: Name, answers: Answers)
    requires ClusterFormed(c) && Live(c, k) && c.sares[k].spec.producer in c.producers
    requires ResolveSecretName(c.sares[k]) in c.secrets
    requires Run(c, m, Begin(k), answers).pc == Done(None)
    ensures var s, sapr := c.sares[k].(finalizer := true), c.producers[c.sares[k].spec.producer];
      var ref, account := s.spec.secretRef, Account(s.spec.producer, s.spec.consumer);
      var n := if ref == None || ref == Some("") then k else ref.value;
      var end, body := Run(c, m, Begin(k), answers).c, answers(Request(s, sapr, true, n)).body;
      && n in c.secrets && c.secrets[n].owner == Some(s.uid)
      && end.puts == c.puts + [Put(account, s.spec.params, false)]
      && end.accounts == c.accounts + {account} && end.released == c.released - {account}
      && end.secrets == (if body.Some? then c.secrets[n := Secret(Some(s.uid), c.secrets[n].data + body.value)]
                         else c.secrets)
      && end.sares == c.sares[k := s.(status := Status(Some(n),
                                                  if body.Some? then Some(c.clock) else s.status.lastRotation,
                                                  Some(Condition(true, Created, None, s.generation))))]
  {
    SecretName(c, k);
    UpdatingRun(c, m, k, answers);
    SuccessfulPass(c, m, k, answers);
  }

  /**
   A migration secret that holds the credentials of several producers: the new secret gets exactly those of the producer
   of the SARE, and nobody is asked.
   */
  lemma MigratedCredentialsArrive(c: Cluster, m: Memory, k: Name, answers: Answers, accounts: map<Name, Creds>)
    requires ClusterFormed(c) && Live(c, k) && c.sares[k].spec.producer in c.producers
    requires ResolveSecretName(c.sares[k]) !in c.secrets
    requires Run(c, m, Begin(k), answers).pc == Done(None)
    requires var dogu := c.sares[k].dogu;
      dogu != "" && dogu + "-migration" in c.secrets && Encodes(c.secrets[dogu + "-migration"].data, accounts)
    requires c.sares[k].spec.producer in accounts && accounts[c.sares[k].spec.producer] != map[]
    requires forall p | p in accounts :: '_' !in p
    ensures var s, end := c.sares[k].(finalizer := true), Run(c, m, Begin(k), answers).c;
      var n := if s.spec.secretRef == None || s.spec.secretRef == Some("") then k else s.spec.secretRef.value;
      && end.secrets == c.secrets[n := Secret(Some(s.uid), accounts[s.spec.producer])]
      && end.puts == c.puts && end.accounts == c.accounts
      && k in end.sares && end.sares[k].status.ready == Some(Condition(true, Migrated, None, s.generation))
  {
    var s, sapr := c.sares[k].(finalizer := true), c.producers[c.sares[k].spec.producer];
    CreatingPass(c, m, k, answers);
    EncodedFound(c, s, sapr, answers(MigrationCall(s, sapr)), accounts);
  }

  predicate Untouched(c: Cluster, c': Cluster, n: Name) {
    (n in c'.secrets <==> n in c.secrets) && (n in c.secrets ==> c'.secrets[n] == c.secrets[n])
  }

  /** Whatever comes of it, a pass leaves all secrets alone but the one its SARE refers to or is named like. */
  lemma PassTouchesOneSecret(c: Cluster, m: Memory, k: Name, answers: Answers, other: Name)
    requires ClusterFormed(c) && k in c.sares
    requires var ref := c.sares[k].spec.secretRef; other != if ref == None || ref == Some("") then k else ref.value
    ensures var end := Run(c, m, Begin(k), answers).c;
      Untouched(c, end, other)
  {
    SecretName(c, k);
    var a := Step(c, m, Begin(k), answers(Begin(k)));
    StepDescends(c, m, Begin(k), answers(Begin(k)));
    KeepsObjectsCorrect(c, m, Begin(k), answers(Begin(k)));
    StepKeepsSare(c, m, Begin(k), answers(Begin(k)));
    RestTouchesOneSecret(a.c, a.m, a.pc, answers, other);
  }

  lemma {:induction false} RestTouchesOneSecret(c: Cluster, m: Memory, pc: Pc, answers: Answers, other: Name)
    requires !pc.Begin? && (HasSare(pc) ==> ResolveSecretName(pc.sare) != other)
    ensures var end := Run(c, m, pc, answers).c;
      Untouched(c, end, other)
    decreases Rank(pc)
  {
    if !pc.Done? {
      var r := answers(pc);
      var a := Step(c, m, pc, r);
      StepDescends(c, m, pc, r);
      StepTouchesOneSecret(c, m, pc, r, other);
      RestTouchesOneSecret(a.c, a.m, a.pc, answers, other);
    }
  }

  lemma StepTouchesOneSecret(c: Cluster, m: Memory, pc: Pc, r: Reply, other: Name)
    requires HasSare(pc) && ResolveSecretName(pc.sare) != other
    ensures var a := Step(c, m, pc, r);
      && !a.pc.Begin? && (HasSare(a.pc) ==> ResolveSecretName(a.pc.sare) != other)
      && Untouched(c, a.c, other)
  {
    if KeepsObjects(pc) {
      KeepsObjectsCorrect(c, m, pc, r);
    } else if WritesSecret(pc) {
      WritesOneSecret(c, m, pc, r);
    } else {
      WritesOwnSare(c, m, pc, r);
    }
  }

  /** Two SAREs that refer to no secret never meet in one. */
  lemma UnnamedSecretsNeverMeet(c: Cluster, m: Memory, k: Name, other: Name, answers: Answers)
    requires ClusterFormed(c) && k in c.sares && other in c.sares && k != other
    requires c.sares[k].spec.secretRef == None || c.sares[k].spec.secretRef == Some("")
    requires c.sares[other].spec.secretRef == None || c.sares[other].spec.secretRef == Some("")
    ensures ResolveSecretName(c.sares[k]) != ResolveSecretName(c.sares[other])
    ensures var n, end := ResolveSecretName(c.sares[other]), Run(c, m, Begin(k), answers).c;
      Untouched(c, end, n)
  {
    SecretName(c, k);
    SecretName(c, other);
    PassTouchesOneSecret(c, m, k, answers, other);
  }

  /** A later read of the same migration secret finds the same. */
  lemma FoundAgain(c: Cluster, sare: Sare, sare': Sare, sapr: Sapr, r: Reply, r': Reply)
    requires sare'.spec == sare.spec && sare'.dogu == sare.dogu
    requires CredentialsOf(c, sare, sapr, r).Success? && CredentialsOf(c, sare', sapr, r').Success?
    ensures CredentialsOf(c, sare, sapr, r) == CredentialsOf(c, sare', sapr, r')
  {
  }

  /** The state a successful pass leaves behind, whatever way it took. */
  ghost predicate Leaves(c: Cluster, k: Name, answers: Answers, end: Cluster)
    requires Live(c, k) && c.sares[k].spec.producer in c.producers
  {
    var s := c.sares[k].(finalizer := true);
    && (exists reason, rotated :: (reason == Created || reason == Migrated) &&
          end.sares == c.sares[k := s.(status := ReadyWith(s, reason, rotated, c.clock))])
    && (ResolveSecretName(s) !in end.secrets ==>
          end.secrets == c.secrets && Found(c, s, c.producers[s.spec.producer], answers) == Result.Success(None))
  }

  lemma PassLeaves(c: Cluster, m: Memory, k: Name, answers: Answers)
    requires ClusterFormed(c) && Live(c, k) && c.sares[k].spec.producer in c.producers
    requires Run(c, m, Begin(k), answers).pc == Done(None)
    ensures Leaves(c, k, answers, Run(c, m, Begin(k), answers).c)
  {
    if ResolveSecretName(c.sares[k]) in c.secrets {
      UpdatingRun(c, m, k, answers);
    } else {
      CreatingRun(c, m, k, answers);
    }
  }

  lemma {:induction false} RunKeepsTheRest(c: Cluster, m: Memory, running: Running, answers: Answers)
    requires ClusterFormed(c) && PassFormed(c, running)
    ensures var end := Run(c, m, running.pc, answers).c;
      end.producers == c.producers && end.born == c.born && ClusterFormed(end)
    decreases Rank(running.pc)
  {
    if !running.pc.Done? {
      var r := answers(running.pc);
      StepDescends(c, m, running.pc, r);
      StepFormed(c, m, running, r);
      StepKeepsProducers(c, m, running.pc, r);
      var a := Step(c, m, running.pc, r);
      RunKeepsTheRest(a.c, a.m, Running(running.key, a.pc), answers);
    }
  }

  lemma StepKeepsProducers(c: Cluster, m: Memory, pc: Pc, r: Reply)
    ensures Step(c, m, pc, r).c.producers == c.producers
  {
  }

  /** The same watchers up to the identity of the runners: same keys, expressions and running flags. */
  ghost predicate SameRunners(m: Memory, m': Memory) {
    && (forall key :: key in m.watch <==> key in m'.watch)
    && (forall key | key in m.watch :: key in m'.watch && SameRunner(m, m.watch[key], m', m'.watch[key]))
  }

  predicate SameRunner(m: Memory, i: nat, m': Memory, j: nat) {
    && i < |m.runners| && j < |m'.runners|
    && m.runners[i].expression == m'.runners[j].expression && m.runners[i].running == m'.runners[j].running
  }

  lemma WatchedAgain(m: Memory, s: Sare, s': Sare)
    requires Consistent(m) && s'.name == s.name && s'.spec == s.spec
    ensures var first, second := Watched(m, s), Watched(Watched(m, s), s');
      Consistent(first) && Consistent(second) && SameRunners(first, second)
  {
    var key := NamespacedName(s.name, m.namespace);
    if RotationEnabled(s) {
      SetAgain(m, key, s.spec.rotation.value.expression);
    } else {
      DeleteWatcherCorrect(m, key);
      DeleteWatcherCorrect(DeleteWatcher(m, key), key);
    }
  }

  lemma SetAgain(m: Memory, key: string, expression: string)
    requires Consistent(m)
    ensures var first := SetWatcher(m, key, expression, true);
      var second := SetWatcher(first, key, expression, true);
      Consistent(first) && Consistent(second) && SameRunners(first, second)
  {
    var first := SetWatcher(m, key, expression, true);
    SetWatcherCorrect(m, key, expression, true);
    SetWatcherCorrect(first, key, expression, true);
    var second := SetWatcher(first, key, expression, true);
    forall other | other in first.watch
      ensures other in second.watch && SameRunner(first, first.watch[other], second, second.watch[other])
    {
      if other != key {
        assert first.runners[first.watch[other]].key == other;
      }
    }
  }

  /**
   A second pass with nothing changed in between, to which the producer has nothing to say, changes no secret, of the
   SAREs only the reason that tells of a migration, and of the watchers only the identity of runners.
   */
  lemma SecondPass(c: Cluster, m: Memory, k: Name, answers: Answers, later: nat, answers': Answers)
    requires ClusterFormed(c) && Consistent(m) && Live(c, k) && c.sares[k].spec.producer in c.producers
    requires Run(c, m, Begin(k), answers).pc == Done(None)
    requires var first := Run(c, m, Begin(k), answers);
      Run(first.c.(clock := later), first.m, Begin(k), answers').pc == Done(None)
    requires forall s, sapr, present, name :: answers'(Request(s, sapr, present, name)).body.None?
    ensures var first := Run(c, m, Begin(k), answers);
      var c1 := first.c.(clock := later);
      var second := Run(c1, first.m, Begin(k), answers');
      && k in c1.sares && c1.sares[k].status.ready.Some?
      && second.c.secrets == c1.secrets
      && second.c.sares == c1.sares[k := MarkedCreated(c1.sares[k])]
      && (second.c.sares == c1.sares <==> c1.sares[k].status.ready.value.reason != Migrated)
      && Consistent(second.m) && SameRunners(first.m, second.m)
  {
    var s, sapr := c.sares[k].(finalizer := true), c.producers[c.sares[k].spec.producer];
    var first := Run(c, m, Begin(k), answers);
    var c1 := first.c.(clock := later);
    PassLeaves(c, m, k, answers);
    RunKeepsTheRest(c, m, Running(k, Begin(k)), answers);
    var s1 := c1.sares[k].(finalizer := true);
    assert s1 == c1.sares[k];
    SecondPassState(c, c1, first.m, k, s, s1, sapr, answers, answers');
    SecondPassWatches(c, m, k, answers, c1, answers');
  }

  lemma SecondPassWatches(c: Cluster, m: Memory, k: Name, answers: Answers, c1: Cluster, answers': Answers)
    requires ClusterFormed(c) && Consistent(m) && Live(c, k) && c.sares[k].spec.producer in c.producers
    requires ClusterFormed(c1) && Live(c1, k) && c1.sares[k].spec == c.sares[k].spec
    requires c.sares[k].spec.producer in c1.producers
    requires Run(c, m, Begin(k), answers).pc == Done(None)
    requires Run(c1, Run(c, m, Begin(k), answers).m, Begin(k), answers').pc == Done(None)
    ensures var first := Run(c, m, Begin(k), answers);
      var second := Run(c1, first.m, Begin(k), answers');
      Consistent(second.m) && SameRunners(first.m, second.m)
  {
    SuccessfulPass(c, m, k, answers);
    SuccessfulPass(c1, Run(c, m, Begin(k), answers).m, k, answers');
    WatchedAgain(m, c.sares[k], c1.sares[k]);
  }

  /** From the search for a producer that is gone: the secret goes, and an optional SARE is told so. */
  lemma ProducerGoneRun(c: Cluster, m: Memory, sare: Sare, present: bool, answers: Answers)
    requires sare.spec.producer !in c.producers && sare.name in c.sares && c.sares[sare.name] == sare
    requires Run(c, m, FindCall(sare, present), answers).pc == Done(None)
    ensures var end := Run(c, m, FindCall(sare, present), answers);
      && end.m == m && sare.spec.optional
      && end.c == WithoutProducer(c, sare)
  {
    var a := Step(c, m, FindCall(sare, present), answers(FindCall(sare, present)));
    if a.pc.PersistFailed? {
      FailedRun(c, m, sare, a.pc.error, answers);
    } else {
      DropSecretRun(c, m, sare, answers);
    }
  }

  /** The cluster after a pass for an optional SARE without a producer. */
  function WithoutProducer(c: Cluster, sare: Sare): Cluster {
    var next := NotReady(sare, Reason.ProducerNotFound, ProducerMissing(sare.spec.producer));
    DeleteSecret(c, ResolveSecretName(sare)).(sares := c.sares[sare.name := sare.(status := next)])
  }

  lemma DropSecretRun(c: Cluster, m: Memory, sare: Sare, answers: Answers)
    requires sare.name in c.sares && c.sares[sare.name] == sare
    requires Run(c, m, DropSecret(sare), answers).pc == Done(None)
    ensures var end := Run(c, m, DropSecret(sare), answers);
      end.m == m && sare.spec.optional && end.c == WithoutProducer(c, sare)
  {
    var a := Step(c, m, DropSecret(sare), answers(DropSecret(sare)));
    if a.pc.PersistFailed? {
      FailedRun(a.c, m, sare, a.pc.error, answers);
    } else if a.pc.PersistNotFound? {
      PersistNotFoundRun(a.c, m, sare, answers);
      PatchReplaces(a.c, sare.name, NotReady(sare, Reason.ProducerNotFound, ProducerMissing(sare.spec.producer)));
    }
  }

  lemma PersistNotFoundRun(c: Cluster, m: Memory, sare: Sare, answers: Answers)
    requires Run(c, m, PersistNotFound(sare), answers).pc == Done(None)
    ensures var end, next := Run(c, m, PersistNotFound(sare), answers),
                NotReady(sare, Reason.ProducerNotFound, ProducerMissing(sare.spec.producer));
      end.m == m && end.c == PatchStatus(c, sare.name, sare.status, next)
  {
    var a := Step(c, m, PersistNotFound(sare), answers(PersistNotFound(sare)));
    if a.pc.PersistFailed? {
      FailedRun(a.c, m, a.pc.sare, a.pc.error, answers);
    }
  }

  lemma WatchedRun(c: Cluster, m: Memory, sare: Sare, answers: Answers)
    requires Run(c, m, CheckSecret(sare), answers).pc == Done(None)
    ensures var present := Controls(c, sare.uid, ResolveSecretName(sare));
      var end, rest := Run(c, m, CheckSecret(sare), answers),
          Run(c, Watched(m, sare), FindCall(sare, present), answers);
      && (present || ResolveSecretName(sare) !in c.secrets)
      && end.c == rest.c && end.m == rest.m && end.pc == rest.pc
  {
    var pc := CheckSecret(sare);
    var a := Step(c, m, pc, answers(pc));
    if a.pc.PersistFailed? {
      FailedRun(c, m, sare, a.pc.error, answers);
    } else {
      WatchedFrom(c, m, sare, a.pc.present, answers);
    }
  }

  lemma WatchedFrom(c: Cluster, m: Memory, sare: Sare, present: bool, answers: Answers)
    requires Run(c, m, SetRunner(sare, present), answers).pc == Done(None)
    ensures var end, rest := Run(c, m, SetRunner(sare, present), answers),
          Run(c, Watched(m, sare), FindCall(sare, present), answers);
      end.c == rest.c && end.m == rest.m && end.pc == rest.pc
  {
    var a := Step(c, m, SetRunner(sare, present), answers(SetRunner(sare, present)));
    if a.pc.PersistFailed? {
      FailedRun(c, a.m, sare, a.pc.error, answers);
    }
  }

  /** The other successful pass: the producer is gone, and the SARE is optional. */
  lemma PassWithoutProducer(c: Cluster, m: Memory, k: Name, answers: Answers)
    requires ClusterFormed(c) && Live(c, k) && c.sares[k].spec.producer !in c.producers
    requires Run(c, m, Begin(k), answers).pc == Done(None)
    ensures var end, s := Run(c, m, Begin(k), answers), c.sares[k].(finalizer := true);
      var ref := s.spec.secretRef;
      var n := if ref == None || ref == Some("") then k else ref.value;
      && s.spec.optional && end.m == Watched(m, s) && end.c == WithoutProducer(c, s)
      && (n in c.secrets ==> c.secrets[n].owner == Some(s.uid))
      && end.c.secrets == c.secrets - {n}
      && (var error := ProducerMissing(s.spec.producer);
          end.c.sares == c.sares[k := s.(status := s.status.(ready :=
                                      Some(Condition(false, Reason.ProducerNotFound, Some(error), s.generation))))])
      && (Consistent(m) ==> Consistent(end.m) && Follows(end.m, k + "-" + m.namespace, s.spec.rotation))
  {
    SecretName(c, k);
    if Consistent(m) {
      WatchedFollows(m, c.sares[k].(finalizer := true));
    }
    var s, c' := c.sares[k].(finalizer := true), WithFinalizer(c, k);
    StartedRun(c, m, k, answers);
    WatchedRun(c', m, s, answers);
    ProducerGoneRun(c', Watched(m, s), s, Controls(c', s.uid, ResolveSecretName(s)), answers);
    WithoutProducerOver(c, k);
  }

  /** The finalizer is part of what the pass leaves, whether it was stored before or not. */
  lemma WithoutProducerOver(c: Cluster, k: Name)
    requires k in c.sares && c.sares[k].name == k
    ensures var s := c.sares[k].(finalizer := true); WithoutProducer(WithFinalizer(c, k), s) == WithoutProducer(c, s)
  {
  }

  /** A second such pass changes no object at all, and of the watchers only the identity of runners. */
  lemma SecondPassWithoutProducer(c: Cluster, m: Memory, k: Name, answers: Answers, later: nat, answers': Answers)
    requires ClusterFormed(c) && Consistent(m) && Live(c, k) && c.sares[k].spec.producer !in c.producers
    requires Run(c, m, Begin(k), answers).pc == Done(None)
    requires var first := Run(c, m, Begin(k), answers);
      Run(first.c.(clock := later), first.m, Begin(k), answers').pc == Done(None)
    ensures var first := Run(c, m, Begin(k), answers);
      var second := Run(first.c.(clock := later), first.m, Begin(k), answers');
      && second.c == first.c.(clock := later)
      && Consistent(second.m) && SameRunners(first.m, second.m)
  {
    var first := Run(c, m, Begin(k), answers);
    var c1 := first.c.(clock := later);
    PassWithoutProducer(c, m, k, answers);
    RunKeepsTheRest(c, m, Running(k, Begin(k)), answers);
    PassWithoutProducer(c1, first.m, k, answers');
    WithoutProducerAgain(c, c.sares[k].(finalizer := true), later);
    WatchedAgain(m, c.sares[k].(finalizer := true), c1.sares[k].(finalizer := true));
  }

  lemma WithoutProducerAgain(c: Cluster, sare: Sare, later: nat)
    requires sare.finalizer
    ensures var c1 := WithoutProducer(c, sare).(clock := later);
      WithoutProducer(c1, c1.sares[sare.name].(finalizer := true)) == c1
  {
    var c1 := WithoutProducer(c, sare).(clock := later);
    var s1 := c1.sares[sare.name];
    assert s1.(finalizer := true) == s1;
    assert c1.secrets - {ResolveSecretName(sare)} == c1.secrets;
    assert NotReady(s1, Reason.ProducerNotFound, ProducerMissing(s1.spec.producer)) == s1.status;
    assert c1.sares[sare.name := s1] == c1.sares;
  }

  predicate Deleting(pc: Pc) {
    pc.FindProducerToDelete? || pc.CheckAccount? || pc.DeleteAccount? || pc.StampProducer? || pc.DropFinalizer?
  }

  /** The SARE is gone, or waits for the finalizers of others. */
  predicate Released(c: Cluster, k: Name) {
    k in c.sares ==> c.sares[k].deletedAt.Some? && !c.sares[k].finalizer
  }

  lemma {:induction false} DeletingRun(c: Cluster, m: Memory, pc: Pc, answers: Answers)
    requires Deleting(pc) && pc.sare.deletedAt.Some? && Run(c, m, pc, answers).pc == Done(None)
    ensures var end := Run(c, m, pc, answers); end.m == m && Released(end.c, pc.sare.name)
    decreases Rank(pc)
  {
    var a := Step(c, m, pc, answers(pc));
    if a.pc.PersistFailed? {
      FailedRun(a.c, m, a.pc.sare, a.pc.error, answers);
    } else if !a.pc.Done? {
      StepDescends(c, m, pc, answers(pc));
      DeletingRun(a.c, m, a.pc, answers);
    }
  }

  /** A second pass for a SARE that the first one has released changes nothing. */
  lemma SecondPassOfDeleted(c: Cluster, m: Memory, k: Name, answers: Answers, later: nat, answers': Answers)
    requires ClusterFormed(c) && k in c.sares && c.sares[k].deletedAt.Some?
    requires Run(c, m, Begin(k), answers).pc == Done(None)
    requires var first := Run(c, m, Begin(k), answers);
      Run(first.c.(clock := later), first.m, Begin(k), answers').pc == Done(None)
    ensures var first := Run(c, m, Begin(k), answers);
      var second := Run(first.c.(clock := later), first.m, Begin(k), answers');
      second.c == first.c.(clock := later) && second.m == first.m
  {
    var key, a := NamespacedName(k, m.namespace), Step(c, m, Begin(k), answers(Begin(k)));
    assert a.m == DeleteWatcher(m, key) && key !in a.m.watch;
    if !a.pc.Done? {
      DeletingRun(a.c, a.m, a.pc, answers);
    }
    assert DeleteWatcher(a.m, key).watch == a.m.watch;
  }

  function MarkedCreated(sare: Sare): Sare {
    sare.(status := sare.status.(ready := Some(Condition(true, Created, None, sare.generation))))
  }

  lemma SecondPassState(c: Cluster, c1: Cluster, m: Memory, k: Name, s: Sare, s1: Sare, sapr: Sapr, answers: Answers,
                        answers': Answers)
    requires ClusterFormed(c1) && Live(c1, k) && c1.sares[k] == s1 && s1.finalizer
    requires s1.spec == s.spec && s1.dogu == s.dogu && s1.name == s.name && s1.generation == s.generation
    requires s.spec.producer in c1.producers && c1.producers[s.spec.producer] == sapr
    requires s1.status.secretRef == Some(ResolveSecretName(s))
    requires ResolveSecretName(s) !in c1.secrets ==>
      c1.secrets == c.secrets && Found(c, s, sapr, answers) == Result.Success(None)
    requires Run(c1, m, Begin(k), answers').pc == Done(None)
    requires forall s, sapr, present, name :: answers'(Request(s, sapr, present, name)).body.None?
    ensures var c2 := Run(c1, m, Begin(k), answers').c;
      c2.secrets == c1.secrets && c2.sares == c1.sares[k := MarkedCreated(s1)]
  {
    if ResolveSecretName(s) in c1.secrets {
      UpdatingRun(c1, m, k, answers');
    } else {
      CreatingRun(c1, m, k, answers');
      FoundAgain(c, s, s1, sapr, answers(MigrationCall(s, sapr)), answers'(MigrationCall(s1, sapr)));
      assert Found(c1, s1, sapr, answers') == CredentialsOf(c, s1, sapr, answers'(MigrationCall(s1, sapr)));
    }
  }

  /** The three calls of a rotation job, one after the other. */
  function AfterJob(w: World, id: nat, bases: (Status, Status, Status), replies: (Reply, Reply, Reply)): World
    requires id in w.jobs && w.jobs[id].phase.ToCheck? && replies.0.ok
    requires Controls(w.c, w.jobs[id].sare.uid, ResolveSecretName(w.jobs[id].sare))
  {
    var checked := JobNext(w, id, bases.0, replies.0);
    var patched := JobNext(checked, id, bases.1, replies.1);
    JobNext(patched, id, bases.2, replies.2)
  }

  /** A rotation job deletes the secret, wakes the SARE and leaves the last rotation as it is. */
  lemma JobDeletesSecret(w: World, id: nat, bases: (Status, Status, Status), replies: (Reply, Reply, Reply))
    requires WellFormed(w) && id in w.jobs && w.jobs[id].phase.ToCheck? && replies.0.ok && replies.2.ok
    requires Controls(w.c, w.jobs[id].sare.uid, ResolveSecretName(w.jobs[id].sare))
    requires var s := w.jobs[id].sare;
      s.name in w.c.sares && w.c.sares[s.name].uid == s.uid && w.c.sares[s.name].spec == s.spec
    ensures var s, w' := w.jobs[id].sare, AfterJob(w, id, bases, replies);
      && s.name in w'.queue && w'.c.secrets == w.c.secrets - {ResolveSecretName(s)} && ClusterFormed(w'.c)
      && w'.c == w.c.(sares := w'.c.sares, secrets := w'.c.secrets)
      && s.name in w'.c.sares
      && var t, t' := w.c.sares[s.name], w'.c.sares[s.name];
         t' == t.(status := t'.status) && t'.status.lastRotation == t.status.lastRotation
  {
    var checked := JobNext(w, id, bases.0, replies.0);
    JobPatches(checked, id, bases.1, replies.1);
  }

  /** The patch of a rotation job changes the status, but not the last rotation. */
  lemma JobPatches(w: World, id: nat, base: Status, r: Reply)
    requires WellFormed(w) && id in w.jobs && w.jobs[id].phase.ToPatch?
    requires var s := w.jobs[id].sare; s.name in w.c.sares && w.c.sares[s.name].spec == s.spec
    ensures var s, w' := w.jobs[id].sare, JobNext(w, id, base, r);
      && ClusterFormed(w'.c) && w'.c == w.c.(sares := w'.c.sares) && w'.queue == w.queue
      && id in w'.jobs && w'.jobs[id].phase.ToDelete? && ResolveSecretName(w'.jobs[id].sare) == ResolveSecretName(s)
      && s.name in w'.c.sares
      && var t, t' := w.c.sares[s.name], w'.c.sares[s.name];
         t' == t.(status := t'.status) && t'.status.lastRotation == t.status.lastRotation
  {
  }

  /** The credentials the migration secret holds for the SARE, when it can be read. */
  ghost function Held(c: Cluster, sare: Sare, sapr: Sapr): Option<Creds> {
    var read := CredentialsOf(c, sare, sapr, Reply(true, "", false, None));
    if read.Success? then read.value else None
  }

  /**
   Rotation: after a firing of the job, a successful pass makes exactly one request, for a rotation, and the secret
   holds exactly what comes back. If the migration secret still has keys of the producer, the SARE gets those
   instead, nobody is asked, and the last rotation stays.
   */
  lemma RotationRoundTrip(w: World, id: nat, bases: (Status, Status, Status), replies: (Reply, Reply, Reply),
                          answers: Answers)
    requires WellFormed(w) && id in w.jobs && w.jobs[id].phase.ToCheck? && replies.0.ok && replies.2.ok
    requires var s := w.jobs[id].sare;
      && Live(w.c, s.name) && w.c.sares[s.name].uid == s.uid && w.c.sares[s.name].spec == s.spec
      && s.spec.producer in w.c.producers && Controls(w.c, s.uid, ResolveSecretName(s))
    requires Run(AfterJob(w, id, bases, replies).c, w.m, Begin(w.jobs[id].sare.name), answers).pc == Done(None)
    ensures var s, before := w.jobs[id].sare, AfterJob(w, id, bases, replies);
      var end, n := Run(before.c, w.m, Begin(s.name), answers).c, ResolveSecretName(s);
      && s.name in before.queue && s.name in end.sares
      && var read := before.c.sares[s.name].(finalizer := true);
         var sapr, held := w.c.producers[s.spec.producer], Held(before.c, read, w.c.producers[s.spec.producer]);
         var body, account := answers(Request(read, sapr, false, n)).body, Account(s.spec.producer, s.spec.consumer);
         && (held.None? ==> end.puts == w.c.puts + [Put(account, s.spec.params, true)])
         && (held.None? && body.Some? ==>
               && end.secrets == before.c.secrets[n := Secret(Some(s.uid), body.value)]
               && end.sares[s.name].status.lastRotation == Some(w.c.clock))
         && (held.Some? ==>
               && end.puts == w.c.puts
               && end.secrets == before.c.secrets[n := Secret(Some(s.uid), held.value)]
               && end.sares[s.name].status.lastRotation == w.c.sares[s.name].status.lastRotation)
  {
    var s, before := w.jobs[id].sare, AfterJob(w, id, bases, replies);
    JobDeletesSecret(w, id, bases, replies);
    CreatingRun(before.c, w.m, s.name, answers);
    var read, sapr := before.c.sares[s.name].(finalizer := true), w.c.producers[s.spec.producer];
    assert Found(before.c, read, sapr, answers) == Result.Success(Held(before.c, read, sapr));
  }

  /** Nothing fails that can only fail from outside. */
  ghost predicate AllAnswered(answers: Answers) {
    forall pc :: answers(pc).ok
  }

  /**
   What a pass leaves behind that stops with `error` before it has written anything but the finalizer and the status.
   */
  predicate StoppedWith(c: Cluster, k: Name, error: Error, end: Cluster)
    requires k in c.sares
  {
    var s, reason := c.sares[k], if error.MigrationIncomplete? then MigrationFailed else Failed;
    end.sares == c.sares[k := s.(finalizer := true, status := s.status.(ready :=
                             Some(Condition(false, reason, Some(error), s.generation))))]
  }

  predicate NothingDone(c: Cluster, c': Cluster) {
    c'.secrets == c.secrets && c'.puts == c.puts && c'.accounts == c.accounts && c'.released == c.released
  }

  /** A SARE whose secret name is taken never succeeds and never touches the secret; it is told about the conflict. */
  lemma ConflictingPass(c: Cluster, m: Memory, k: Name, answers: Answers)
    requires ClusterFormed(c) && Live(c, k)
    requires ResolveSecretName(c.sares[k]) in c.secrets && !Controls(c, c.sares[k].uid, ResolveSecretName(c.sares[k]))
    ensures var end, error := Run(c, m, Begin(k), answers), SecretConflict(ResolveSecretName(c.sares[k]));
      && end.pc.result.Some? && end.m == m && NothingDone(c, end.c)
      && (AllAnswered(answers) ==> end.pc.result == Some(error) && StoppedWith(c, k, error, end.c))
  {
    var sare := c.sares[k];
    var s, c' := sare.(finalizer := true), WithFinalizer(c, k);
    ConflictingCheck(c', m, s, answers);
    if sare.finalizer {
      assert c' == c && s == sare;
    } else {
      StartsWithFinalizer(c, m, sare, answers);
    }
  }

  lemma ConflictingCheck(c: Cluster, m: Memory, s: Sare, answers: Answers)
    requires s.name in c.sares && c.sares[s.name] == s && s.finalizer
    requires ResolveSecretName(s) in c.secrets && !Controls(c, s.uid, ResolveSecretName(s))
    ensures var end, error := Run(c, m, CheckSecret(s), answers), SecretConflict(ResolveSecretName(s));
      && end.pc.result.Some? && end.m == m && NothingDone(c, end.c)
      && (AllAnswered(answers) ==> end.pc.result == Some(error) && StoppedWith(c, s.name, error, end.c))
  {
    var a := Step(c, m, CheckSecret(s), answers(CheckSecret(s)));
    FailedRun(c, m, s, a.pc.error, answers);
  }

  /** A pass for a SARE without the finalizer either stops at once or goes on from the SARE with the finalizer. */
  lemma StartsWithFinalizer(c: Cluster, m: Memory, sare: Sare, answers: Answers)
    requires sare.name in c.sares && c.sares[sare.name] == sare && sare.deletedAt.None? && !sare.finalizer
    ensures var end, rest := Run(c, m, Begin(sare.name), answers),
                Run(WithFinalizer(c, sare.name), m, CheckSecret(sare.(finalizer := true)), answers);
      || (end.pc.result.Some? && end.c == c && end.m == m && !AllAnswered(answers))
      || (end.pc == rest.pc && end.c == rest.c && end.m == rest.m)
  {
    var a := Step(c, m, Begin(sare.name), answers(Begin(sare.name)));
    if a.pc.AddFinalizer? {
      AddFinalizerRun(c, m, sare, answers);
    }
  }

  /**
   An incomplete migration secret stops the pass: no secret is written and no producer is asked, and the SARE is told
   which keys are missing.
   */
  lemma IncompleteMigration(c: Cluster, m: Memory, k: Name, answers: Answers, error: Error)
    requires ClusterFormed(c) && Live(c, k) && ResolveSecretName(c.sares[k]) !in c.secrets
    requires Incomplete(c, c.sares[k], error)
    ensures var end := Run(c, m, Begin(k), answers);
      && end.pc.result.Some? && NothingDone(c, end.c)
      && (AllAnswered(answers) ==> end.pc.result == Some(error) && StoppedWith(c, k, error, end.c))
  {
    IncompleteStays(c, k, error);
    IncompleteCheck(WithFinalizer(c, k), m, c.sares[k].(finalizer := true), answers, error);
    StopsFromStart(c, m, k, answers, error);
  }

  /** Whether the finalizer is there already or has to be added makes no difference. */
  lemma StopsFromStart(c: Cluster, m: Memory, k: Name, answers: Answers, error: Error)
    requires ClusterFormed(c) && Live(c, k)
    requires Stops(WithFinalizer(c, k), m, CheckSecret(c.sares[k].(finalizer := true)), c.sares[k].(finalizer := true),
        answers, error)
    ensures var end := Run(c, m, Begin(k), answers);
      && end.pc.result.Some? && NothingDone(c, end.c)
      && (AllAnswered(answers) ==> end.pc.result == Some(error) && StoppedWith(c, k, error, end.c))
  {
    var sare := c.sares[k];
    if sare.finalizer {
      assert WithFinalizer(c, k) == c && sare.(finalizer := true) == sare;
    } else {
      StartsWithFinalizer(c, m, sare, answers);
    }
  }

  /** The producer exists, and the migration secret has some, but not all of the keys it declares. */
  ghost predicate Incomplete(c: Cluster, s: Sare, error: Error) {
    && s.spec.producer in c.producers && error.MigrationIncomplete?
    && CredentialsOf(c, s, c.producers[s.spec.producer], Reply(true, "", false, None)) == Result.Failure(error)
  }

  lemma IncompleteStays(c: Cluster, k: Name, error: Error)
    requires k in c.sares && Incomplete(c, c.sares[k], error)
    ensures Incomplete(WithFinalizer(c, k), c.sares[k].(finalizer := true), error)
  {
  }

  /** From `pc` on, the pass fails without doing anything, with `error` unless a call fails before. */
  ghost predicate Stops(c: Cluster, m: Memory, pc: Pc, s: Sare, answers: Answers, error: Error) {
    var end := Run(c, m, pc, answers);
    && s.name in c.sares && c.sares[s.name] == s && s.finalizer
    && end.pc.result.Some? && NothingDone(c, end.c)
    && (AllAnswered(answers) ==> end.pc.result == Some(error) && StoppedWith(c, s.name, error, end.c))
  }

  lemma IncompleteCheck(c: Cluster, m: Memory, s: Sare, answers: Answers, error: Error)
    requires s.name in c.sares && c.sares[s.name] == s && s.finalizer && ResolveSecretName(s) !in c.secrets
    requires Incomplete(c, s, error)
    ensures Stops(c, m, CheckSecret(s), s, answers, error)
  {
    var a := Step(c, m, CheckSecret(s), answers(CheckSecret(s)));
    if a.pc.PersistFailed? {
      FailedRun(c, m, s, a.pc.error, answers);
    } else {
      IncompleteWatched(c, m, s, answers, error);
    }
  }

  lemma IncompleteWatched(c: Cluster, m: Memory, s: Sare, answers: Answers, error: Error)
    requires s.name in c.sares && c.sares[s.name] == s && s.finalizer && Incomplete(c, s, error)
    ensures Stops(c, m, SetRunner(s, false), s, answers, error)
  {
    var a := Step(c, m, SetRunner(s, false), answers(SetRunner(s, false)));
    if a.pc.PersistFailed? {
      FailedRun(c, a.m, s, a.pc.error, answers);
    } else {
      IncompleteProducer(c, a.m, s, answers, error);
    }
  }

  lemma IncompleteProducer(c: Cluster, m: Memory, s: Sare, answers: Answers, error: Error)
    requires s.name in c.sares && c.sares[s.name] == s && s.finalizer && Incomplete(c, s, error)
    ensures Stops(c, m, FindCall(s, false), s, answers, error)
  {
    var a := Step(c, m, FindCall(s, false), answers(FindCall(s, false)));
    if a.pc.PersistFailed? {
      FailedRun(c, m, s, a.pc.error, answers);
    } else {
      IncompleteRead(c, m, s, answers, error);
    }
  }

  lemma IncompleteRead(c: Cluster, m: Memory, s: Sare, answers: Answers, error: Error)
    requires s.name in c.sares && c.sares[s.name] == s && s.finalizer && Incomplete(c, s, error)
    ensures Stops(c, m, MigrationCall(s, c.producers[s.spec.producer]), s, answers, error)
  {
    var pc := MigrationCall(s, c.producers[s.spec.producer]);
    var a := Step(c, m, pc, answers(pc));
    FailedRun(c, m, s, a.pc.error, answers);
  }
}
