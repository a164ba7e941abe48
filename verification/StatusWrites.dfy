/** When a SARE becomes ready and when its last rotation moves. */
module StatusWrites {
  import opened Wrappers
  import opened Api
  import opened Registry
  import opened Pass
  import opened Operator
  import opened Wakeup

  predicate SaysReady(status: Status) {
    status.ready.Some? && status.ready.value.ok
  }

  predicate AboutToSayReady(w: World, k: Name) {
    InFlight(w, k) && w.pass.value.pc.PersistReady?
  }

  /** A status changes to ready, and the last rotation changes at all, only in the final call of a successful pass. */
  lemma OnlyPassesSayReady(w: World, e: Event, k: Name)
    requires WellFormed(w) && Enabled(w, e) && k in w.c.sares && k in Next(w, e).c.sares
    ensures var before, after := w.c.sares[k], Next(w, e).c.sares[k];
      after.uid == before.uid && after.status != before.status ==>
        && (SaysReady(after.status) && after.status.ready != before.status.ready ==> e.Call? && AboutToSayReady(w, k))
        && (after.status.lastRotation != before.status.lastRotation ==>
              e.Call? && AboutToSayReady(w, k) && w.pass.value.pc.rotated
                && after.status.lastRotation == Some(w.c.clock))
  {
    if e.Call? {
      CallSaysReady(w.c, w.m, w.pass.value, e.reply, k);
    } else if EditsSares(e) {
      EditSaresEffect(w, e);
    } else if e.JobCall? {
      JobSaysNothing(w, e.id, e.base, e.reply, k);
    }
  }

  /** A rotation never says ready and never stamps. */
  lemma JobSaysNothing(w: World, id: nat, base: Status, r: Reply, k: Name)
    requires id in w.jobs && k in w.c.sares
    ensures var c' := JobNext(w, id, base, r).c;
      && k in c'.sares && c'.sares[k].status.lastRotation == w.c.sares[k].status.lastRotation
      && (SaysReady(c'.sares[k].status) ==> c'.sares[k].status.ready == w.c.sares[k].status.ready)
  {
  }

  lemma CallSaysReady(c: Cluster, m: Memory, running: Running, r: Reply, k: Name)
    requires ClusterFormed(c) && PassFormed(c, running) && k in c.sares && k in Step(c, m, running.pc, r).c.sares
    ensures var pc, before, after := running.pc, c.sares[k], Step(c, m, running.pc, r).c.sares[k];
      after.status != before.status ==>
        && (SaysReady(after.status) && after.status.ready != before.status.ready ==>
              pc.PersistReady? && running.key == k)
        && (after.status.lastRotation != before.status.lastRotation ==>
              pc.PersistReady? && running.key == k && pc.rotated && after.status.lastRotation == Some(c.clock))
  {
    var pc := running.pc;
    if KeepsObjects(pc) {
      KeepsObjectsCorrect(c, m, pc, r);
    } else if WritesSecret(pc) {
      WritesOneSecret(c, m, pc, r);
    } else {
      WritesOwnSare(c, m, pc, r);
    }
  }

  /**
   The final patch of a successful pass says what differs from the copy that the pass holds, and nothing else: each
   of its three fields arrives if and only if the copy did not hold it yet, or it is stored already.
   */
  lemma ReadyNamesSecretIff(c: Cluster, m: Memory, pc: Pc, r: Reply)
    requires pc.PersistReady? && r.ok && pc.sare.name in c.sares
    ensures var s, n := pc.sare, pc.secretName;
      var before, after := c.sares[s.name].status, Step(c, m, pc, r).c.sares[s.name].status;
      && (after.secretRef == Some(n) <==> s.status.secretRef != Some(n) || before.secretRef == Some(n))
      && (SaysReady(after) <==>
            s.status.ready != Some(Condition(true, pc.reason, None, s.generation)) || SaysReady(before))
      && (pc.rotated ==> (after.lastRotation == Some(c.clock) <==>
                            s.status.lastRotation != Some(c.clock) || before.lastRotation == Some(c.clock)))
      && (!pc.rotated ==> after.lastRotation == before.lastRotation)
  {
  }

  /**
   A pass about to say ready, with its secret and its producer in place, leaves its SARE converged if and only if name
   and condition both arrive, and the name is the one that is asked for: what the copy did not hold yet is written, what
   it held must still be stored. This can be told before the call.
   */
  lemma FinalPatchConvergesIff(c: Cluster, m: Memory, pc: Pc, r: Reply)
    requires pc.PersistReady? && r.ok && pc.sare.name in c.sares
    requires var s, t := pc.sare, c.sares[pc.sare.name];
      t.uid == s.uid && t.spec == s.spec && t.generation == s.generation && t.name == s.name
    requires pc.sare.spec.producer in c.producers && Controls(c, pc.sare.uid, ResolveSecretName(pc.sare))
    ensures var s, stored, n := pc.sare, c.sares[pc.sare.name].status, ResolveSecretName(pc.sare);
      Converged(Step(c, m, pc, r).c, s.name) <==>
        && (if s.status.secretRef != Some(pc.secretName) then pc.secretName == n else stored.secretRef == Some(n))
        && (|| s.status.ready != Some(Condition(true, pc.reason, None, s.generation))
            || (SaysReady(stored) && stored.ready.value.observedGeneration == s.generation))
  {
  }

  /** The secret that a pass has seen or written to. */
  function ClaimedName(pc: Pc): Name
    requires HasSare(pc)
  {
    if pc.FindProducer? || pc.Request? || pc.PersistReady? then pc.secretName else ResolveSecretName(pc.sare)
  }

  /** The pass for `k` has seen the secret of its SARE, or has just written it. */
  predicate Claims(w: World, k: Name, n: Name) {
    && w.pass.Some? && w.pass.value.key == k && HasSare(w.pass.value.pc) && ClaimedName(w.pass.value.pc) == n
    && ClaimsAt(w.pass.value.pc)
  }

  /** A pass for `k` is in flight whose copy of the SARE asks for the secret and controls it. */
  predicate Sees(w: World, k: Name, n: Name) {
    && w.pass.Some? && w.pass.value.key == k && HasSare(w.pass.value.pc)
    && ResolveSecretName(w.pass.value.pc.sare) == n && Controls(w.c, w.pass.value.pc.sare.uid, n)
  }

  /** That is so at some moment of the run. */
  ghost predicate SeenDuring(w: World, run: seq<Event>, k: Name, n: Name)
    requires Legal(w, run)
    decreases |run|
  {
    Sees(w, k, n) || (run != [] && SeenDuring(Next(w, run[0]), run[1..], k, n))
  }

  /** No pass for `k` that finds no secret is answered without credentials. */
  ghost predicate AlwaysReturns(w: World, run: seq<Event>, k: Name)
    requires Legal(w, run)
    decreases |run|
  {
    run == [] || (!ReturnsNothing(w, run[0], k) && AlwaysReturns(Next(w, run[0]), run[1..], k))
  }

  lemma ClaimNeedsSecret(w: World, e: Event, k: Name, n: Name)
    requires WellFormed(w) && Enabled(w, e) && !ReturnsNothing(w, e, k) && Claims(Next(w, e), k, n)
    ensures Claims(w, k, n) || Sees(Next(w, e), k, n)
  {
    if e.Call? {
      StepClaims(w.c, w.m, w.pass.value.pc, e.reply);
    } else {
      OutsideKeepsClaim(w, e);
    }
  }

  lemma OutsideKeepsClaim(w: World, e: Event)
    requires WellFormed(w) && Enabled(w, e) && !e.Call? && Next(w, e).pass.Some? && ClaimsAt(Next(w, e).pass.value.pc)
    ensures var pass, pass' := w.pass, Next(w, e).pass;
      && pass.Some? && pass.value.key == pass'.value.key && ClaimsAt(pass.value.pc)
      && ClaimedName(pass.value.pc) == ClaimedName(pass'.value.pc)
  {
    if EditsSares(e) {
      EditSaresEffect(w, e);
    } else {
      OutsideKeepsSares(w, e);
    }
  }

  predicate ClaimsAt(pc: Pc) {
    pc.PersistReady? || ((pc.SetRunner? || pc.FindProducer? || pc.Request?) && pc.present)
  }

  lemma StepClaims(c: Cluster, m: Memory, pc: Pc, r: Reply)
    requires !(pc.Request? && !pc.present && pc.sapr.http.Some? && r.ok && r.body.None?)
    ensures var a := Step(c, m, pc, r);
      ClaimsAt(a.pc) && !pc.Done? ==>
        || (HasSare(pc) && ClaimsAt(pc) && ClaimedName(pc) == ClaimedName(a.pc))
        || (ClaimedName(a.pc) == ResolveSecretName(a.pc.sare) && Controls(a.c, a.pc.sare.uid, ClaimedName(a.pc)))
  {
  }

  lemma {:induction false} ClaimsAreBacked(w: World, run: seq<Event>, k: Name, n: Name)
    requires WellFormed(w) && Legal(w, run) && AlwaysReturns(w, run, k) && Claims(Exec(w, run), k, n)
    ensures Claims(w, k, n) || SeenDuring(w, run, k, n)
    decreases |run|
  {
    if run != [] {
      NextFormed(w, run[0]);
      ClaimsAreBacked(Next(w, run[0]), run[1..], k, n);
      if Claims(Next(w, run[0]), k, n) {
        ClaimNeedsSecret(w, run[0], k, n);
        assert Sees(Next(w, run[0]), k, n) ==> SeenDuring(Next(w, run[0]), run[1..], k, n);
      }
    }
  }

  /**
   A pass that is about to say ready and to name a secret has observed or written that secret as its own since it
   started: whatever happens from a moment without a pass up to that call, on the way a pass for this SARE held a copy
   of it that resolved to the name and controlled the secret.
   */
  lemma ReadyHasSecret(w: World, run: seq<Event>, k: Name)
    requires WellFormed(w) && Legal(w, run) && AlwaysReturns(w, run, k) && w.pass.None?
    requires AboutToSayReady(Exec(w, run), k)
    ensures SeenDuring(w, run, k, Exec(w, run).pass.value.pc.secretName)
  {
    ClaimsAreBacked(w, run, k, Exec(w, run).pass.value.pc.secretName);
  }

  /** A rotation is stamped for credentials from the producer, never for migrated ones and never for no news. */
  lemma RotatedMeansReturned(c: Cluster, m: Memory, pc: Pc, r: Reply)
    requires !pc.Done? && !pc.PersistReady?
    ensures var next := Step(c, m, pc, r).pc;
      && (next.PersistReady? ==> (next.rotated <==> pc.Store? && !pc.migrated))
      && (next.Store? && !next.migrated ==> pc.Request? && r.ok && r.body == Some(next.creds))
      && (next.Store? && next.migrated ==> pc.ReadMigration? && Step(c, m, pc, r).c == c)
  {
  }

  /** A refusal of this call is written into the status; the other refusals end the pass, or do not matter to it. */
  predicate Reported(pc: Pc) {
    match pc
    case CheckSecret(_) => true
    case SetRunner(s, _) => s.spec.rotation.Some? && s.spec.rotation.value.enabled
    case FindProducer(_, _, _) => true
    case ReadMigration(s, _, _) => s.dogu != ""
    case Request(_, sapr, _, _) => sapr.http.Some?
    case Store(_, _, _) => true
    case PersistNotFound(_) => true
    case FindProducerToDelete(_) => true
    case CheckAccount(_, sapr) => sapr.http.Some?
    case DeleteAccount(_) => true
    case _ => false
  }

  /**
   What a refused call comes to: nothing is stored but the effect of a request to a producer whose reply was lost. The
   error goes into the status, or else it ends the pass.
   */
  lemma RefusedCall(c: Cluster, m: Memory, pc: Pc, r: Reply)
    requires !r.ok
    ensures var a := Step(c, m, pc, r);
      && SameObjects(c, a.c) && a.c.executions == c.executions && a.woken == {}
      && (!r.applied ==> a.c == c)
      && (Reported(pc) ==>
            a.pc.PersistFailed? && a.pc.sare.name == pc.sare.name && a.pc.error == CallFailed(r.text))
      && (pc.Begin? || pc.AddFinalizer? || pc.DropSecret? || pc.PersistReady? || pc.DropFinalizer? ==>
            a.pc == Done(Some(CallFailed(r.text))))
      && (pc.PersistFailed? ==> a.pc == Done(Some(pc.error)))
      && (pc.StampProducer? ==> a.pc == DropFinalizer(pc.sare, AccountGone))
  {
  }
}
