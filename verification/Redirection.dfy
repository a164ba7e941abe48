/** How the operator comes to delete a secret that is not its own, from the start and without a failing call. */
module Redirection {
  import opened Wrappers
  import opened Api
  import opened Registry
  import opened Pass
  import opened Operator
  import opened Ownership
  import opened Runs

  /** The user creates a secret, and makes the SARE ask for it. */
  lemma Redirect(w: World, run: seq<Event>, k: Name, other: Name, data: Creds) returns (run': seq<Event>)
    requires Legal(w, run) && NothingFails(run) && k in Exec(w, run).c.sares
    requires other !in Exec(w, run).c.secrets && Exec(w, run).c.sares[k].spec.secretRef != Some(other)
    ensures Legal(w, run') && NothingFails(run')
    ensures var v, v' := Exec(w, run), Exec(w, run');
      && k in v'.c.sares
      && var s, t := v.c.sares[k], v'.c.sares[k];
         && t == s.(spec := s.spec.(secretRef := Some(other)), generation := s.generation + 1)
         && v' == v.(c := v.c.(sares := v.c.sares[k := t], secrets := v.c.secrets[other := Secret(None, data)]),
                     queue := v.queue + {k})
  {
    Extend(w, run, PutSecret(other, data));
    var run1 := run + [PutSecret(other, data)];
    var s := Exec(w, run).c.sares[k];
    Extend(w, run1, ApplySare(k, s.spec.(secretRef := Some(other)), s.dogu));
    run' := run1 + [ApplySare(k, s.spec.(secretRef := Some(other)), s.dogu)];
  }

  /** The pass for the changed SARE meets the conflict, says so, and leaves the runners alone. */
  lemma PassConflicts(w: World, run: seq<Event>, k: Name) returns (run': seq<Event>)
    requires Legal(w, run) && NothingFails(run)
    requires var v := Exec(w, run);
      && v.pass == None && v.jobs == map[] && k in v.queue
      && k in v.c.sares && v.c.sares[k].name == k && v.c.sares[k].deletedAt.None?
      && v.c.sares[k].finalizer && Foreign(v.c, v.c.sares[k].uid, ResolveSecretName(v.c.sares[k]))
    ensures Legal(w, run') && NothingFails(run')
    ensures var v, v' := Exec(w, run), Exec(w, run');
      && k in v'.c.sares && v' == v.(c := v.c.(sares := v'.c.sares), shared := None)
      && v'.c.sares[k] == v.c.sares[k].(status := v'.c.sares[k].status)
  {
    var s := Exec(w, run).c.sares[k];
    var error := SecretConflict(ResolveSecretName(s));
    Extend(w, run, Start(k));
    var run1 := run + [Start(k)];
    Extend(w, run1, Event.Call(OK));
    var run2 := run1 + [Event.Call(OK)];
    assert Exec(w, run2).pass == Some(Running(k, CheckSecret(s)));
    Extend(w, run2, Event.Call(OK));
    var run3 := run2 + [Event.Call(OK)];
    assert Exec(w, run3).pass == Some(Running(k, PersistFailed(s, error)));
    run' := PassGivesUp(w, run3, k, s, error);
  }

  lemma PassGivesUp(w: World, run: seq<Event>, k: Name, s: Sare, error: Error) returns (run': seq<Event>)
    requires Legal(w, run) && NothingFails(run) && s.name == k && k in Exec(w, run).c.sares
    requires Exec(w, run).pass == Some(Running(k, PersistFailed(s, error))) && Exec(w, run).jobs == map[]
    ensures Legal(w, run') && NothingFails(run')
    ensures var v, v' := Exec(w, run), Exec(w, run');
      && k in v'.c.sares
      && v' == v.(c := v.c.(sares := v'.c.sares), pass := None, shared := None, queue := v.queue + {k})
      && v'.c.sares[k] == v.c.sares[k].(status := v'.c.sares[k].status)
  {
    Extend(w, run, Event.Call(OK));
    var run1 := run + [Event.Call(OK)];
    assert Exec(w, run1).pass == Some(Running(k, Done(Some(error))));
    Extend(w, run1, Finish);
    run' := run1 + [Finish];
  }

  /** A new SARE gets its secret, comes to ask for one that nobody controls, and is told about the conflict. */
  lemma RunnerOutlivesConflict(k: Name, spec: Spec, http: Http, clock: nat, timeout: nat, namespace: string,
                               other: Name, data: Creds)
    returns (run: seq<Event>, captured: Sare)
    requires spec.rotation.Some? && spec.rotation.value.enabled && other != ""
    requires other != ResolveSecretName(Newborn(k, spec, http, clock, timeout, namespace).c.sares[k])
    ensures var w := Newborn(k, spec, http, clock, timeout, namespace);
      && Initial(w) && Legal(w, run) && NothingFails(run)
      && var v := Exec(w, run);
         && Enabled(v, Fire(0, captured)) && Controls(v.c, captured.uid, ResolveSecretName(captured))
         && captured.name in v.c.sares && ResolveSecretName(v.c.sares[captured.name]) == other
         && other in v.c.secrets && v.c.secrets[other] == Secret(None, data)
  {
    var w := Newborn(k, spec, http, clock, timeout, namespace);
    run := FirstPass(k, spec, http, clock, timeout, namespace);
    captured := Exec(w, run).c.sares[k];
    run := Redirect(w, run, k, other, data);
    run := PassConflicts(w, run, k);
  }

  /**
   From the start of the operator, and without a failing call: after such a conflict the next firing of the runner
   deletes the secret that nobody controls.
   */
  lemma ForeignSecretLostFromStart(k: Name, spec: Spec, http: Http, clock: nat, timeout: nat, namespace: string,
                                   other: Name, data: Creds)
    returns (run: seq<Event>, captured: Sare)
    requires spec.rotation.Some? && spec.rotation.value.enabled && other != ""
    requires other != ResolveSecretName(Newborn(k, spec, http, clock, timeout, namespace).c.sares[k])
    ensures var w := Newborn(k, spec, http, clock, timeout, namespace);
      && Initial(w) && Legal(w, run) && NothingFails(run)
      && var v, firing := Exec(w, run), Firing(0, captured);
         && other in v.c.secrets && v.c.secrets[other] == Secret(None, data)
         && Legal(v, firing) && NothingFails(firing) && other !in Exec(v, firing).c.secrets
  {
    var w := Newborn(k, spec, http, clock, timeout, namespace);
    run, captured := RunnerOutlivesConflict(k, spec, http, clock, timeout, namespace, other, data);
    RunFormed(w, run);
    FiringRemoves(Exec(w, run), 0, captured);
  }

  /**
   The new runner of a first pass fires before the pass says ready. Its job has checked and patched, and the user has
   made the SARE ask for another secret.
   */
  predicate Overtaken(v: World, k: Name, other: Name, data: Creds) {
    && v.shared == Some(0) && 0 in v.jobs && v.jobs[0].phase == ToDelete && v.jobs[0].sare.name == k
    && v.pass.Some? && v.pass.value.pc.PersistReady? && v.pass.value.pc.sare.name == k
    && k in v.c.sares && v.c.sares[k].uid == 0 && ResolveSecretName(v.c.sares[k]) == other
    && other in v.c.secrets && v.c.secrets[other] == Secret(None, data)
  }

  /** The job of the shared SARE checks the fresh secret and patches the status. */
  lemma JobOvertakes(w: World, run: seq<Event>, k: Name, s: Sare) returns (run': seq<Event>)
    requires Legal(w, run) && NothingFails(run) && s.name == k && s.uid == 0
    requires var v := Exec(w, run);
      && v.pass == Some(Running(k, PersistReady(s, ResolveSecretName(s), Created, true)))
      && v.shared == Some(0) && v.jobs == map[] && v.c.born == [k]
      && |v.m.runners| == 1 && v.m.runners[0].running && v.m.runners[0].key == NamespacedName(k, v.m.namespace)
      && k in v.c.sares && v.c.sares[k] == s && Controls(v.c, 0, ResolveSecretName(s))
    ensures Legal(w, run') && NothingFails(run')
    ensures var v, v' := Exec(w, run), Exec(w, run');
      && v'.shared == Some(0) && v'.c.secrets == v.c.secrets && v'.c.born == v.c.born
      && k in v'.c.sares && v'.c.sares[k] == s.(status := v'.c.sares[k].status)
      && v'.jobs == map[0 := Job(v'.c.sares[k], ToDelete)]
      && v'.pass == Some(Running(k, PersistReady(v'.c.sares[k], ResolveSecretName(s), Created, true)))
  {
    var call := JobCall(0, s.status, OK);
    Extend(w, run, Fire(0, s));
    var run1 := run + [Fire(0, s)];
    assert Exec(w, run1).jobs == map[0 := Job(s, ToCheck)];
    Extend(w, run1, call);
    var run2 := run1 + [call];
    assert Exec(w, run2).jobs == map[0 := Job(s, ToPatch)];
    Extend(w, run2, call);
    run' := run2 + [call];
  }

  lemma FirstPassOvertaken(k: Name, spec: Spec, http: Http, clock: nat, timeout: nat, namespace: string,
                           other: Name, data: Creds)
    returns (run: seq<Event>)
    requires spec.rotation.Some? && spec.rotation.value.enabled && other != ""
    requires other != ResolveSecretName(Newborn(k, spec, http, clock, timeout, namespace).c.sares[k])
    ensures var w := Newborn(k, spec, http, clock, timeout, namespace);
      Initial(w) && Legal(w, run) && NothingFails(run) && Overtaken(Exec(w, run), k, other, data)
  {
    var w := Newborn(k, spec, http, clock, timeout, namespace);
    var s := w.c.sares[k].(finalizer := true);
    run := FirstPassStarts(w, k, s);
    run := PassLooks(w, run, k, s);
    run := PassCreates(w, run, k, s);
    run := JobOvertakes(w, run, k, s);
    run := Redirect(w, run, k, other, data);
  }

  /**
   From the start of the operator, and without a failing call: the patch by which a pass says ready turns the job of
   its own runner, and the job goes on to delete the secret that nobody controls.
   */
  lemma OwnPatchMisleadsFromStart(k: Name, spec: Spec, http: Http, clock: nat, timeout: nat, namespace: string,
                                  other: Name, data: Creds)
    returns (run: seq<Event>, last: seq<Event>)
    requires spec.rotation.Some? && spec.rotation.value.enabled && other != ""
    requires other != ResolveSecretName(Newborn(k, spec, http, clock, timeout, namespace).c.sares[k])
    ensures var w := Newborn(k, spec, http, clock, timeout, namespace);
      && Initial(w) && Legal(w, run) && NothingFails(run)
      && var v := Exec(w, run);
         && Redirected(v, Event.Call(OK), 0) && other in v.c.secrets && v.c.secrets[other] == Secret(None, data)
         && |last| == 2 && last[0] == Event.Call(OK) && last[1].JobCall?
         && Legal(v, last) && NothingFails(last) && other !in Exec(v, last).c.secrets
  {
    var w := Newborn(k, spec, http, clock, timeout, namespace);
    run := FirstPassOvertaken(k, spec, http, clock, timeout, namespace, other, data);
    var v, patch, delete := Exec(w, run), Event.Call(OK), JobCall(0, NO_STATUS, OK);
    var patched := Next(v, patch);
    assert patched.jobs[0].phase == ToDelete && ResolveSecretName(patched.jobs[0].sare) == other;
    Chain(patched, delete, []);
    Chain(v, patch, [delete] + []);
    last := [patch] + ([delete] + []);
  }
}
