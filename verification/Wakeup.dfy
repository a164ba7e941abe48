/**
 No lost wake-up: whatever happens between the calls of passes and rotation jobs, a SARE that is not deleted is
 queued, in an unfinished rotation, in a pass that is on its way to the right end, or converged.
 */
module Wakeup {
  import opened Wrappers
  import opened Api
  import opened Registry
  import opened Pass
  import opened Operator

  predicate Live(c: Cluster, k: Name) {
    k in c.sares && c.sares[k].deletedAt.None?
  }

  /** The SARE's secret and status are what its spec and the presence of its producer ask for. */
  predicate Converged(c: Cluster, k: Name)
    requires k in c.sares
  {
    var s, n := c.sares[k], ResolveSecretName(c.sares[k]);
    && s.status.ready.Some? && s.status.ready.value.observedGeneration == s.generation
    && (if s.spec.producer in c.producers then
          Controls(c, s.uid, n) && s.status.ready.value.ok && s.status.secretRef == Some(n)
        else
          !Controls(c, s.uid, n) && !s.status.ready.value.ok)
  }

  /** The copy a pass works on still is the stored SARE, as far as the outcome depends on it. */
  predicate Fresh(c: Cluster, k: Name, s: Sare)
    requires k in c.sares
  {
    var t := c.sares[k];
    t.name == s.name == k && t.uid == s.uid && t.generation == s.generation && t.spec == s.spec && t.status == s.status
  }

  /** What a pass has learned about its SARE still holds, or the pass is going to fail. */
  predicate OnTrack(c: Cluster, k: Name, pc: Pc)
    requires k in c.sares
  {
    match pc
    case Begin(_) => true
    case AddFinalizer(s) => Fresh(c, k, s)
    case CheckSecret(s) => Fresh(c, k, s)
    case SetRunner(s, present) => Fresh(c, k, s) && (present ==> Controls(c, s.uid, ResolveSecretName(s)))
    case FindProducer(s, present, name) =>
      Fresh(c, k, s) && name == ResolveSecretName(s) && (present ==> Controls(c, s.uid, name))
    case DropSecret(s) => Fresh(c, k, s) && s.spec.producer !in c.producers
    case PersistNotFound(s) =>
      Fresh(c, k, s) && s.spec.producer !in c.producers && !Controls(c, s.uid, ResolveSecretName(s))
    case ReadMigration(s, _, name) => Fresh(c, k, s) && name == ResolveSecretName(s) && s.spec.producer in c.producers
    case Request(s, _, present, name) =>
      && Fresh(c, k, s) && name == ResolveSecretName(s) && s.spec.producer in c.producers
      && (present ==> Controls(c, s.uid, name))
    case Store(s, _, _) => Fresh(c, k, s) && s.spec.producer in c.producers
    case PersistReady(s, name, _, _) =>
      Fresh(c, k, s) && name == ResolveSecretName(s) && s.spec.producer in c.producers && Controls(c, s.uid, name)
    case PersistFailed(_, _) => true
    case Done(error) => error.Some? || Converged(c, k)
    case _ => false
  }

  predicate InFlight(w: World, k: Name) {
    w.pass.Some? && w.pass.value.key == k
  }

  /** A rotation of `k` has written its status but not yet deleted its secret. */
  ghost predicate Rotating(w: World, k: Name) {
    exists id :: id in w.jobs && w.jobs[id].phase.ToDelete? && w.jobs[id].sare.name == k
  }

  /** The pass in flight will see to `k`, or nothing needs to be done for it. */
  predicate SeenTo(w: World, k: Name)
    requires k in w.c.sares
  {
    if InFlight(w, k) then OnTrack(w.c, k, w.pass.value.pc) else Converged(w.c, k)
  }

  ghost predicate Wakeful(w: World, k: Name) {
    Live(w.c, k) ==> k in w.queue || Rotating(w, k) || SeenTo(w, k)
  }

  /** Neither the queue nor a rotation has `k` in mind. */
  ghost predicate Exposed(w: World, k: Name) {
    Live(w.c, k) && k !in w.queue && !Rotating(w, k)
  }

  /** The producer comes or goes. */
  predicate Moves(w: World, e: Event, p: Name) {
    || (e.ApplyProducer? && e.sapr.name == p && p !in w.c.producers)
    || (e.DeleteProducer? && e.producer == p && p in w.c.producers)
  }

  /** The pass relies on having found its producer, or on having found none. */
  predicate KnowsProducer(pc: Pc) {
    || pc.DropSecret? || pc.PersistNotFound? || pc.ReadMigration? || pc.Request? || pc.Store? || pc.PersistReady?
    || pc == Done(None)
  }

  /** The producer of `k` comes or goes, and the List behind that event fails. */
  ghost predicate Unheard(w: World, e: Event, k: Name) {
    && EditsProducers(e) && !e.listed && Exposed(w, k) && Moves(w, e, w.c.sares[k].spec.producer)
    && (InFlight(w, k) ==> KnowsProducer(w.pass.value.pc))
  }

  /** The producer of `k` is asked for a rotation, because the secret is missing, and answers without credentials. */
  predicate ReturnsNothing(w: World, e: Event, k: Name) {
    && e.Call? && InFlight(w, k) && w.pass.value.pc.Request? && !w.pass.value.pc.present
    && w.pass.value.pc.sapr.http.Some? && e.reply.ok && e.reply.body.None?
  }

  /** That happens while the secret still is missing. */
  ghost predicate RotationIgnored(w: World, e: Event, k: Name) {
    && ReturnsNothing(w, e, k) && Exposed(w, k)
    && !Controls(w.c, w.c.sares[k].uid, ResolveSecretName(w.c.sares[k]))
  }

  ghost predicate RotatingBeside(w: World, k: Name, id: nat) {
    exists i :: i in w.jobs && i != id && w.jobs[i].phase.ToDelete? && w.jobs[i].sare.name == k
  }

  /**
   The last call of the only rotation of `k` does not remove a secret of it: it fails, or there is none left under the
   name, or it is another one's. And nothing else has `k` in mind.
   */
  ghost predicate StrayRotation(w: World, e: Event, k: Name) {
    && e.JobCall? && e.id in w.jobs && w.jobs[e.id].phase.ToDelete? && w.jobs[e.id].sare.name == k
    && Live(w.c, k) && k !in w.queue && !RotatingBeside(w, k, e.id) && !Removes(w, e.id, e.reply, k) && !SeenTo(w, k)
  }

  predicate Removes(w: World, id: nat, r: Reply, k: Name)
    requires id in w.jobs
  {
    && w.jobs[id].phase.ToDelete? && r.ok && w.jobs[id].sare.name == k
    && k in OwnerOf(w.c, ResolveSecretName(w.jobs[id].sare))
  }

  /** None of the three things happens to `k`; what happens to other SAREs is left open. */
  ghost predicate Sound(w: World, e: Event, k: Name) {
    !Unheard(w, e, k) && !RotationIgnored(w, e, k) && !StrayRotation(w, e, k)
  }

  /** Nothing that `k` depends on differs between two clusters. */
  ghost predicate SameView(c: Cluster, c': Cluster, k: Name) {
    && k in c.sares && k in c'.sares
    && var s, t := c.sares[k], c'.sares[k];
       && t.name == s.name && t.uid == s.uid && t.status == s.status
       && t.spec == s.spec && t.generation == s.generation && t.deletedAt == s.deletedAt
       && (forall n :: Controls(c', s.uid, n) <==> Controls(c, s.uid, n))
       && (s.spec.producer in c'.producers <==> s.spec.producer in c.producers)
  }

  lemma SameViewSuffices(c: Cluster, c': Cluster, k: Name, pc: Pc)
    requires SameView(c, c', k)
    ensures Converged(c', k) == Converged(c, k)
    ensures OnTrack(c', k, pc) == OnTrack(c, k, pc)
  {
  }

  /** A step of a pass leaves other SAREs alone, or wakes them. */
  lemma StepLeavesOthers(c: Cluster, m: Memory, running: Running, r: Reply, k: Name)
    requires ClusterFormed(c) && PassFormed(c, running) && k in c.sares && k != running.key
    ensures var a := Step(c, m, running.pc, r); k in a.woken || SameView(c, a.c, k)
  {
    var pc := running.pc;
    if KeepsObjects(pc) {
      KeepsObjectsCorrect(c, m, pc, r);
    } else if WritesSecret(pc) {
      SecretWriteLeavesOthers(c, m, pc, r, k);
    } else {
      WritesOwnSare(c, m, pc, r);
    }
  }

  lemma SecretWriteLeavesOthers(c: Cluster, m: Memory, pc: Pc, r: Reply, k: Name)
    requires ClusterFormed(c) && WritesSecret(pc) && Formed(c, pc.sare) && k in c.sares && k != pc.sare.name
    ensures var a := Step(c, m, pc, r); k in a.woken || SameView(c, a.c, k)
  {
    WritesOneSecret(c, m, pc, r);
  }

  /** A missing secret stays missing although its producer has been asked. */
  predicate LeavesNothing(c: Cluster, pc: Pc, r: Reply) {
    && pc.Request? && !pc.present && pc.sapr.http.Some? && r.ok && r.body.None?
    && !Controls(c, pc.sare.uid, ResolveSecretName(pc.sare))
  }

  /** A step of the pass of `k` keeps it on track. */
  lemma StepStaysOnTrack(c: Cluster, m: Memory, pc: Pc, r: Reply, k: Name)
    requires ClusterFormed(c) && Live(c, k) && !pc.Done? && PassFormed(c, Running(k, pc))
    requires OnTrack(c, k, pc)
    requires !LeavesNothing(c, pc, r)
    ensures var a := Step(c, m, pc, r);
      Live(a.c, k) ==> k in a.woken || OnTrack(a.c, k, a.pc)
  {
    if ReadsOnly(pc) {
      ReadStaysOnTrack(c, m, pc, r, k);
    } else if KeepsObjects(pc) || WritesSecret(pc) {
      StoreStaysOnTrack(c, m, pc, r, k);
    } else {
      WriteStaysOnTrack(c, m, pc, r, k);
    }
  }

  lemma ReadStaysOnTrack(c: Cluster, m: Memory, pc: Pc, r: Reply, k: Name)
    requires ClusterFormed(c) && Live(c, k) && !pc.Done? && PassFormed(c, Running(k, pc))
    requires OnTrack(c, k, pc) && ReadsOnly(pc)
    ensures Step(c, m, pc, r).c == c && OnTrack(c, k, Step(c, m, pc, r).pc)
  {
    KeepsObjectsCorrect(c, m, pc, r);
  }

  lemma StoreStaysOnTrack(c: Cluster, m: Memory, pc: Pc, r: Reply, k: Name)
    requires ClusterFormed(c) && Live(c, k) && PassFormed(c, Running(k, pc))
    requires OnTrack(c, k, pc) && (pc.Request? || pc.DeleteAccount? || pc.StampProducer? || WritesSecret(pc))
    requires !LeavesNothing(c, pc, r)
    ensures var a := Step(c, m, pc, r); Live(a.c, k) && (k in a.woken || OnTrack(a.c, k, a.pc))
  {
    if WritesSecret(pc) {
      SecretWriteStaysOnTrack(c, m, pc, r, k);
    }
  }

  lemma SecretWriteStaysOnTrack(c: Cluster, m: Memory, pc: Pc, r: Reply, k: Name)
    requires ClusterFormed(c) && Live(c, k) && PassFormed(c, Running(k, pc)) && OnTrack(c, k, pc) && WritesSecret(pc)
    ensures var a := Step(c, m, pc, r); Live(a.c, k) && (k in a.woken || OnTrack(a.c, k, a.pc))
  {
  }

  lemma WriteStaysOnTrack(c: Cluster, m: Memory, pc: Pc, r: Reply, k: Name)
    requires ClusterFormed(c) && Live(c, k) && !pc.Done? && PassFormed(c, Running(k, pc))
    requires OnTrack(c, k, pc) && !KeepsObjects(pc) && !WritesSecret(pc)
    ensures var a := Step(c, m, pc, r);
      Live(a.c, k) ==> k in a.woken || OnTrack(a.c, k, a.pc)
  {
  }

  /** Users wake a SARE whenever they change what it depends on. */
  lemma EditWakes(w: World, e: Event, k: Name)
    requires ClusterFormed(w.c) && EditsSares(e) && k in Next(w, e).c.sares
    ensures k in Next(w, e).queue || SameView(w.c, Next(w, e).c, k)
  {
    EditSaresEffect(w, e);
  }

  /** So does every producer that comes or goes, if the List succeeds; others are of no interest. */
  lemma ProducerEditWakes(w: World, e: Event, k: Name)
    requires ClusterFormed(w.c) && k in w.c.sares && EditsProducers(e)
    ensures k in Next(w, e).queue || SameView(w.c, Next(w, e).c, k)
            || (Moves(w, e, w.c.sares[k].spec.producer) && !e.listed)
  {
  }

  lemma SecretEditWakes(w: World, e: Event, k: Name)
    requires ClusterFormed(w.c) && k in w.c.sares && Enabled(w, e) && EditsSecrets(e)
    ensures k in Next(w, e).queue || SameView(w.c, Next(w, e).c, k)
  {
    if e.PutSecret? {
      assert forall n, uid :: Controls(Next(w, e).c, uid, n) <==> Controls(w.c, uid, n);
    } else {
      RemovalWakes(w, e.secret, k);
    }
  }

  lemma RemovalWakes(w: World, n: Name, k: Name)
    requires ClusterFormed(w.c) && k in w.c.sares
    ensures var w' := RemoveSecretNext(w, n); k in w'.queue || SameView(w.c, w'.c, k)
  {
  }

  /**
   The last call of a rotation wakes the SARE whose secret it removes. Its patch, which may change the copy of a pass,
   leaves the SARE in an unfinished rotation.
   */
  lemma JobWakes(w: World, id: nat, base: Status, r: Reply, k: Name)
    requires WellFormed(w) && id in w.jobs && k in w.c.sares
    ensures var w' := JobNext(w, id, base, r);
      && w.queue <= w'.queue
      && (k in w'.queue || (SameView(w.c, w'.c, k) && (InFlight(w, k) ==> w'.pass == w.pass))
          || (w.jobs[id].phase.ToPatch? && Rotating(w', k) && Live(w.c, k) == Live(w'.c, k)))
      && (Removes(w, id, r, k) ==> k in w'.queue)
  {
    var job := w.jobs[id];
    var w' := JobNext(w, id, base, r);
    if job.phase.ToPatch? && job.sare.name == k {
      assert id in w'.jobs && w'.jobs[id].phase.ToDelete? && w'.jobs[id].sare.name == k;
    }
  }

  lemma CallKeepsRotating(w: World, r: Reply, k: Name)
    requires WellFormed(w) && Enabled(w, Call(r)) && Rotating(w, k)
    ensures Rotating(Next(w, Call(r)), k)
  {
    var id :| id in w.jobs && w.jobs[id].phase.ToDelete? && w.jobs[id].sare.name == k;
    CallFormed(w, r);
    var w' := Next(w, Call(r));
    assert id in w'.jobs && w'.jobs[id].phase.ToDelete? && w'.jobs[id].sare.name == k;
  }

  lemma CallKeepsWakeful(w: World, r: Reply, k: Name)
    requires WellFormed(w) && Enabled(w, Call(r)) && Sound(w, Call(r), k) && Wakeful(w, k)
    ensures Wakeful(Next(w, Call(r)), k)
  {
    var running, w' := w.pass.value, Next(w, Call(r));
    if Rotating(w, k) {
      CallKeepsRotating(w, r, k);
    } else if !Live(w.c, k) {
      StaysDeleted(w.c, w.m, running, r, k);
    } else if k == running.key {
      if k !in w.queue { StepStaysOnTrack(w.c, w.m, running.pc, r, k); }
    } else {
      StepLeavesOthers(w.c, w.m, running, r, k);
      if SameView(w.c, w'.c, k) { SameViewSuffices(w.c, w'.c, k, running.pc); }
    }
  }

  /** Passes create no SAREs and bring none back. */
  lemma StaysDeleted(c: Cluster, m: Memory, running: Running, r: Reply, k: Name)
    requires ClusterFormed(c) && PassFormed(c, running) && !Live(c, k)
    ensures !Live(Step(c, m, running.pc, r).c, k)
  {
    var pc := running.pc;
    if KeepsObjects(pc) {
      KeepsObjectsCorrect(c, m, pc, r);
    } else if WritesSecret(pc) {
      WritesOneSecret(c, m, pc, r);
    } else if k != pc.sare.name {
      WritesOwnSare(c, m, pc, r);
    } else {
      OwnStaysDeleted(c, m, pc, r);
    }
  }

  lemma OwnStaysDeleted(c: Cluster, m: Memory, pc: Pc, r: Reply)
    requires ClusterFormed(c) && !KeepsObjects(pc) && !WritesSecret(pc) && !Live(c, pc.sare.name)
    ensures !Live(Step(c, m, pc, r).c, pc.sare.name)
  {
  }

  /** Whatever a SARE depends on either stays, or wakes it. */
  lemma UndisturbedStaysWakeful(w: World, w': World, k: Name)
    requires Wakeful(w, k) && (InFlight(w, k) ==> w'.pass == w.pass) && (InFlight(w', k) ==> InFlight(w, k))
    requires w.queue <= w'.queue
    requires Rotating(w, k) ==> Rotating(w', k) || k in w'.queue
    requires Live(w'.c, k) ==> k in w'.queue || SameView(w.c, w'.c, k)
    ensures Wakeful(w', k)
  {
    if Live(w'.c, k) && k !in w'.queue {
      SameViewSuffices(w.c, w'.c, k, if InFlight(w, k) then w.pass.value.pc else Done(None));
    }
  }

  /** A rotation is over only with its own last call. */
  lemma RotationGoesOn(w: World, id: nat, base: Status, r: Reply, k: Name)
    requires WellFormed(w) && id in w.jobs
    ensures Rotating(w, k) ==>
      Rotating(JobNext(w, id, base, r), k) || (w.jobs[id].phase.ToDelete? && w.jobs[id].sare.name == k)
    ensures RotatingBeside(w, k, id) ==> Rotating(JobNext(w, id, base, r), k)
  {
    var w' := JobNext(w, id, base, r);
    if RotatingBeside(w, k, id) {
      var i :| i in w.jobs && i != id && w.jobs[i].phase.ToDelete? && w.jobs[i].sare.name == k;
      assert i in w'.jobs && w'.jobs[i] == w.jobs[i];
    } else if Rotating(w, k) {
      assert w.jobs[id].phase.ToDelete? && w.jobs[id].sare.name == k;
    }
  }

  lemma JobKeepsWakeful(w: World, id: nat, base: Status, r: Reply, k: Name)
    requires WellFormed(w) && id in w.jobs && !StrayRotation(w, JobCall(id, base, r), k) && Wakeful(w, k)
    ensures Wakeful(JobNext(w, id, base, r), k)
  {
    var w' := JobNext(w, id, base, r);
    if k in w.c.sares {
      JobWakes(w, id, base, r, k);
      JobKeepsSares(w, id, base, r);
      RotationGoesOn(w, id, base, r, k);
      if Live(w'.c, k) && !Rotating(w', k) && k !in w'.queue {
        SeenToStays(w, w', k);
      }
    }
  }

  lemma SeenToStays(w: World, w': World, k: Name)
    requires SameView(w.c, w'.c, k) && (InFlight(w, k) ==> w'.pass == w.pass) && (InFlight(w', k) ==> InFlight(w, k))
    ensures SeenTo(w', k) == SeenTo(w, k)
  {
    SameViewSuffices(w.c, w'.c, k, if InFlight(w, k) then w.pass.value.pc else Done(None));
  }

  lemma EditKeepsWakeful(w: World, e: Event, k: Name)
    requires WellFormed(w) && EditsSares(e) && Wakeful(w, k)
    ensures Wakeful(Next(w, e), k)
  {
    var w' := Next(w, e);
    EditSaresEffect(w, e);
    if k in w'.c.sares {
      EditWakes(w, e, k);
    }
    UndisturbedStaysWakeful(w, w', k);
  }

  lemma ProducersKeepWakeful(w: World, e: Event, k: Name)
    requires WellFormed(w) && EditsProducers(e) && !Unheard(w, e, k) && Wakeful(w, k)
    ensures Wakeful(Next(w, e), k)
  {
    var w' := Next(w, e);
    if k in w.c.sares {
      ProducerEditWakes(w, e, k);
      if SameView(w.c, w'.c, k) {
        SeenToStays(w, w', k);
      }
    }
  }

  lemma SecretsKeepWakeful(w: World, e: Event, k: Name)
    requires WellFormed(w) && Enabled(w, e) && EditsSecrets(e) && Wakeful(w, k)
    ensures Wakeful(Next(w, e), k)
  {
    if k in w.c.sares {
      SecretEditWakes(w, e, k);
    }
    UndisturbedStaysWakeful(w, Next(w, e), k);
  }

  lemma QueueKeepsWakeful(w: World, e: Event, k: Name)
    requires WellFormed(w) && Enabled(w, e) && Wakeful(w, k)
    requires e.Start? || e.Finish? || e.Fire? || e.Restart? || e.Tick?
    ensures Wakeful(Next(w, e), k)
  {
    var w' := Next(w, e);
    if Rotating(w, k) && !e.Restart? {
      var id :| id in w.jobs && w.jobs[id].phase.ToDelete? && w.jobs[id].sare.name == k;
      assert id in w'.jobs;
    }
  }

  /** One event, in any state of any run. */
  lemma NextKeepsWakeful(w: World, e: Event, k: Name)
    requires WellFormed(w) && Enabled(w, e) && Sound(w, e, k) && Wakeful(w, k)
    ensures Wakeful(Next(w, e), k)
  {
    if e.Call? {
      CallKeepsWakeful(w, e.reply, k);
    } else if e.JobCall? {
      JobKeepsWakeful(w, e.id, e.base, e.reply, k);
    } else if EditsSares(e) {
      EditKeepsWakeful(w, e, k);
    } else if EditsProducers(e) {
      ProducersKeepWakeful(w, e, k);
    } else if EditsSecrets(e) {
      SecretsKeepWakeful(w, e, k);
    } else {
      QueueKeepsWakeful(w, e, k);
    }
  }

  /** Throughout the run, none of the three things happens to `k`. */
  ghost predicate SoundRun(w: World, run: seq<Event>, k: Name)
    requires Legal(w, run)
    decreases |run|
  {
    run == [] || (Sound(w, run[0], k) && SoundRun(Next(w, run[0]), run[1..], k))
  }

  lemma {:induction false} WakefulThroughout(w: World, run: seq<Event>, k: Name)
    requires WellFormed(w) && Legal(w, run) && SoundRun(w, run, k) && Wakeful(w, k)
    ensures Wakeful(Exec(w, run), k)
    decreases |run|
  {
    if run != [] {
      NextFormed(w, run[0]);
      NextKeepsWakeful(w, run[0], k);
      WakefulThroughout(Next(w, run[0]), run[1..], k);
    }
  }

  /**
   From any start of the operator, in every reachable state, a live SARE has not been forgotten, whatever has happened
   to others.
   */
  lemma NoLostWakeup(w: World, run: seq<Event>, k: Name)
    requires Initial(w) && Legal(w, run) && SoundRun(w, run, k)
    ensures Wakeful(Exec(w, run), k)
  {
    WakefulThroughout(w, run, k);
  }

  /** When nothing is left to do, every live SARE has converged to which none of the three things has happened. */
  lemma QuiescentMeansConverged(w: World, run: seq<Event>)
    requires Initial(w) && Legal(w, run)
    ensures var end := Exec(w, run);
      end.queue == {} && end.pass.None? && end.jobs == map[] ==>
        forall k | Live(end.c, k) && SoundRun(w, run, k) :: Converged(end.c, k)
  {
    var end := Exec(w, run);
    forall k | end.queue == {} && end.pass.None? && end.jobs == map[] && Live(end.c, k) && SoundRun(w, run, k)
      ensures Converged(end.c, k)
    {
      NoLostWakeup(w, run, k);
    }
  }
}
