/**
 The three assumptions behind "no lost wake-up" are exactly what is needed: each alone decides whether a SARE that
 nothing else protects is forgotten. The first one fails without any call failing.
 */
module Forgotten {
  import opened Wrappers
  import opened Api
  import opened Pass
  import opened Operator
  import opened Runs
  import opened Wakeup

  /** An event that is not sound for `k` makes the operator forget it. */
  lemma UnsoundForgets(w: World, e: Event, k: Name)
    requires WellFormed(w) && Enabled(w, e) && Wakeful(w, k) && !Sound(w, e, k)
    ensures !Wakeful(Next(w, e), k)
  {
    if Unheard(w, e, k) {
      UnheardForgets(w, e, k);
    } else if RotationIgnored(w, e, k) {
      IgnoredForgets(w, e.reply, k);
    } else {
      StrayForgets(w, e.id, e.base, e.reply, k);
    }
  }

  lemma UnheardForgets(w: World, e: Event, k: Name)
    requires WellFormed(w) && Enabled(w, e) && Wakeful(w, k) && Unheard(w, e, k)
    ensures !Wakeful(Next(w, e), k)
  {
    assert Rotating(Next(w, e), k) == Rotating(w, k);
  }

  lemma IgnoredForgets(w: World, r: Reply, k: Name)
    requires WellFormed(w) && Wakeful(w, k) && w.pass.Some? && RotationIgnored(w, Event.Call(r), k)
    ensures !Wakeful(CallNext(w, w.pass.value, r), k)
  {
    assert Rotating(CallNext(w, w.pass.value, r), k) == Rotating(w, k);
  }

  lemma StrayForgets(w: World, id: nat, base: Status, r: Reply, k: Name)
    requires WellFormed(w) && id in w.jobs && StrayRotation(w, JobCall(id, base, r), k)
    ensures !Wakeful(JobNext(w, id, base, r), k)
  {
    var w' := JobNext(w, id, base, r);
    assert Rotating(w', k) ==> RotatingBeside(w, k, id);
    JobWakes(w, id, base, r, k);
    SeenToStays(w, w', k);
  }

  /** In any state, an event makes the operator forget a SARE if and only if it is one of the three. */
  lemma ForgetsIff(w: World, e: Event, k: Name)
    requires WellFormed(w) && Enabled(w, e) && Wakeful(w, k)
    ensures Wakeful(Next(w, e), k) <==> Sound(w, e, k)
  {
    if Sound(w, e, k) {
      NextKeepsWakeful(w, e, k);
    } else {
      UnsoundForgets(w, e, k);
    }
  }

  /**
   A SARE that a rotation has marked not ready is remembered exactly if the rotation removes a secret of it, or a pass
   for it is under way that does not rely on a status read before the mark.
   */
  lemma RotationMustRemove(w: World, id: nat, base: Status, r: Reply, k: Name)
    requires WellFormed(w) && id in w.jobs && w.jobs[id].phase.ToDelete? && w.jobs[id].sare.name == k
    requires Live(w.c, k) && k !in w.queue && !RotatingBeside(w, k, id)
    requires w.c.sares[k].spec.producer in w.c.producers && w.c.sares[k].status.ready.Some?
        && !w.c.sares[k].status.ready.value.ok
    ensures Wakeful(JobNext(w, id, base, r), k) <==>
      Removes(w, id, r, k) || (InFlight(w, k) && OnTrack(w.c, k, w.pass.value.pc))
  {
    assert Rotating(w, k);
    ForgetsIff(w, JobCall(id, base, r), k);
  }

  /** A converged SARE whose producer comes or goes is remembered exactly if the List succeeds. */
  lemma ListMustSucceed(w: World, e: Event, k: Name)
    requires WellFormed(w) && (e.ApplyProducer? || e.DeleteProducer?)
    requires Live(w.c, k) && k !in w.queue && !InFlight(w, k) && !Rotating(w, k) && Converged(w.c, k)
    requires var p := w.c.sares[k].spec.producer; p in Next(w, e).c.producers <==> p !in w.c.producers
    ensures Wakeful(Next(w, e), k) <==> e.listed
  {
    assert !Rotating(Next(w, e), k);
  }

  /** A SARE without a secret, whose producer has just answered, is remembered exactly if it got credentials. */
  lemma RotationMustReturn(w: World, r: Reply, k: Name)
    requires WellFormed(w) && Live(w.c, k) && InFlight(w, k) && k !in w.queue && !Rotating(w, k)
    requires w.pass.value.pc.Request? && !w.pass.value.pc.present && w.pass.value.pc.sapr.http.Some? && r.ok
    requires OnTrack(w.c, k, w.pass.value.pc) && !Controls(w.c, w.c.sares[k].uid, ResolveSecretName(w.c.sares[k]))
    ensures Wakeful(Next(w, Event.Call(r)), k) <==> r.body.Some?
  {
    assert !Rotating(Next(w, Event.Call(r)), k);
  }

  /**
   A quiet, converged system in which one rotation job has just made its check. Its SARE has the finalizer, a producer
   that can be asked, and a migration secret that is not incomplete, if there is one.
   */
  ghost predicate MidRotation(w: World, id: nat, k: Name) {
    && WellFormed(w) && w.pass.None? && w.queue == {} && Live(w.c, k) && Converged(w.c, k)
    && w.jobs == map[id := Job(w.c.sares[k], ToPatch)]
    && w.c.sares[k].finalizer
    && w.c.sares[k].spec.producer in w.c.producers && w.c.producers[w.c.sares[k].spec.producer].http.Some?
    && Readable(RemoveSecretNext(w, ResolveSecretName(w.c.sares[k])), w.c.sares[k]).Success?
  }

  /** The part of the system that the run below leaves alone. */
  predicate Around(w: World, w': World, k: Name)
    requires k in w.c.sares
  {
    && w'.queue == {} && w'.c.producers == w.c.producers && w'.c.born == w.c.born
    && k in w'.c.sares && w'.c.sares[k] == w.c.sares[k].(status := w'.c.sares[k].status)
    && w'.c.secrets == w.c.secrets - {ResolveSecretName(w.c.sares[k])}
  }

  /** The user rotates by hand, too, and the pass that this wakes reads the SARE. */
  lemma SecretRemoved(w: World, id: nat, k: Name) returns (run: seq<Event>)
    requires MidRotation(w, id, k)
    ensures Legal(w, run) && NothingFails(run)
    ensures var w', s := Exec(w, run), w.c.sares[k];
      Around(w, w', k) && w'.c.sares[k] == s && w'.jobs == w.jobs && w'.shared.None?
      && w'.pass == Some(Running(k, CheckSecret(s)))
  {
    var s := w.c.sares[k];
    run := [];
    Extend(w, run, RemoveSecret(ResolveSecretName(s)));
    run := run + [RemoveSecret(ResolveSecretName(s))];
    assert Exec(w, run) == RemoveSecretNext(w, ResolveSecretName(s));
    Extend(w, run, Start(k));
    run := run + [Start(k)];
    Extend(w, run, Event.Call(OK));
    run := run + [Event.Call(OK)];
  }

  /** Now the rotation job goes on: it marks the SARE not ready, and finds no secret to delete. */
  lemma JobFindsNothing(w: World, run: seq<Event>, id: nat, k: Name, s: Sare) returns (run': seq<Event>)
    requires Legal(w, run) && NothingFails(run)
    requires var v := Exec(w, run);
      && v.jobs == map[id := Job(s, ToPatch)] && v.shared.None? && s.name == k && k in v.c.sares && v.c.sares[k] == s
      && ResolveSecretName(s) !in v.c.secrets
    ensures Legal(w, run') && NothingFails(run')
    ensures var v, v' := Exec(w, run), Exec(w, run');
      && v' == v.(c := v'.c, jobs := map[])
      && v'.c == v.c.(sares := v.c.sares[k := s.(status := NotReadyForRotation(s))])
  {
    Extend(w, run, JobCall(id, s.status, OK));
    var run1 := run + [JobCall(id, s.status, OK)];
    assert Exec(w, run1).jobs == map[id := Job(s.(status := NotReadyForRotation(s)), ToDelete)];
    Extend(w, run1, JobCall(id, s.status, OK));
    run' := run1 + [JobCall(id, s.status, OK)];
    var v, v' := Exec(w, run), Exec(w, run');
    assert v'.c.secrets == v.c.secrets;
    assert v'.jobs == map[];
    assert v'.queue == v.queue;
  }

  lemma PassEnds(w: World, run: seq<Event>, k: Name, s: Sare, reason: Reason, rotated: bool) returns (run': seq<Event>)
    requires Legal(w, run) && NothingFails(run)
    requires var v := Exec(w, run);
      && v.pass == Some(Running(k, PersistReady(s, ResolveSecretName(s), reason, rotated))) && v.jobs == map[]
      && s.name == k && k in v.c.sares
      && s.status.secretRef == Some(ResolveSecretName(s)) && v.c.sares[k].status.secretRef == None
    ensures Legal(w, run') && NothingFails(run')
    ensures var v, v' := Exec(w, run), Exec(w, run');
      && v'.pass == None && v'.queue == v.queue && v'.jobs == map[] && v'.c.producers == v.c.producers
      && k in v'.c.sares && v'.c.sares[k] == v.c.sares[k].(status := v'.c.sares[k].status)
      && v'.c.sares[k].status.secretRef == None
  {
    Extend(w, run, Event.Call(OK));
    var run1 := run + [Event.Call(OK)];
    assert Exec(w, run1).pass == Some(Running(k, Done(None)));
    Extend(w, run1, Finish);
    run' := run1 + [Finish];
  }

  /**
   "Quiescent means converged" is false of the code even if no call ever fails. Whenever a rotation job has made its
   check in a quiet and converged system, this can follow: the secret is deleted, the pass that this wakes reads the
   SARE, the job marks it not ready and finds nothing left to delete, and only then the pass goes on. It writes a
   secret and says ready by a patch that, against what it had read, says nothing new. Nothing is left to do, and the
   SARE names no secret.
   */
  lemma ForgottenWithoutFailure(w: World, id: nat, k: Name) returns (run: seq<Event>)
    requires MidRotation(w, id, k)
    ensures Legal(w, run) && NothingFails(run)
    ensures var end := Exec(w, run);
      && end.pass == None && end.queue == {} && end.jobs == map[]
      && Live(end.c, k) && !Converged(end.c, k) && !Wakeful(end, k)
  {
    var s := w.c.sares[k];
    run := SecretRemoved(w, id, k);
    run := JobFindsNothing(w, run, id, k, s);
    run := PassLooks(w, run, k, s);
    var read := Readable(Exec(w, run), s);
    if read.value.None? {
      run := PassCreates(w, run, k, s);
      run := PassEnds(w, run, k, s, Created, true);
    } else {
      run := PassMigrates(w, run, k, s, read.value.value);
      run := PassEnds(w, run, k, s, Migrated, false);
    }
  }

  /** The runner that the pass has started fires, on the SARE as the pass left it, and makes its check. */
  lemma RunnerFires(w: World, run: seq<Event>, id: nat, t: Sare) returns (run': seq<Event>)
    requires Legal(w, run) && NothingFails(run) && Exec(w, run).jobs == map[]
    requires Enabled(Exec(w, run), Fire(id, t)) && Controls(Exec(w, run).c, t.uid, ResolveSecretName(t))
    ensures Legal(w, run') && NothingFails(run')
    ensures Exec(w, run') == Exec(w, run).(jobs := map[id := Job(t, ToPatch)])
  {
    Extend(w, run, Fire(id, t));
    var run1 := run + [Fire(id, t)];
    assert Exec(w, run1).jobs == map[id := Job(t, ToCheck)];
    Extend(w, run1, JobCall(id, t.status, OK));
    run' := run1 + [JobCall(id, t.status, OK)];
  }

  /** A quiet, converged system with a rotation past its check is what every new SARE with a rotation can come to. */
  lemma MidRotationReachable(k: Name, spec: Spec, http: Http, clock: nat, timeout: nat, namespace: string)
    returns (run: seq<Event>)
    requires spec.rotation.Some? && spec.rotation.value.enabled
    ensures var w := Newborn(k, spec, http, clock, timeout, namespace);
      Initial(w) && Legal(w, run) && NothingFails(run) && MidRotation(Exec(w, run), 0, k)
  {
    var w := Newborn(k, spec, http, clock, timeout, namespace);
    run := FirstPass(k, spec, http, clock, timeout, namespace);
    var t := Exec(w, run).c.sares[k];
    run := RunnerFires(w, run, 0, t);
    RunFormed(w, run);
  }

  /** So from the start of the operator, without a failing call, a SARE can be forgotten. */
  lemma ForgottenFromStart(k: Name, spec: Spec, http: Http, clock: nat, timeout: nat, namespace: string)
    returns (run: seq<Event>)
    requires spec.rotation.Some? && spec.rotation.value.enabled
    ensures var w := Newborn(k, spec, http, clock, timeout, namespace);
      && Initial(w) && Legal(w, run) && NothingFails(run)
      && var end := Exec(w, run);
         end.pass == None && end.queue == {} && end.jobs == map[] && Live(end.c, k) && !Converged(end.c, k)
  {
    var w := Newborn(k, spec, http, clock, timeout, namespace);
    var first := MidRotationReachable(k, spec, http, clock, timeout, namespace);
    var rest := ForgottenWithoutFailure(Exec(w, first), 0, k);
    Append(w, first, rest);
    run := first + rest;
  }
}
