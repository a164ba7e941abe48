/**
 Non-interference: passes and rotations touch only secrets controlled by their own SARE, as long as nobody slips a
 secret in between an ownership check and the deletion that relies on it; and what a controlled secret holds.
 */
module Ownership {
  import opened Wrappers
  import opened Api
  import opened Registry
  import opened Pass
  import opened Operator

  /** Somebody else's secret, from the point of view of the SARE with this uid. */
  predicate Foreign(c: Cluster, uid: nat, n: Name) {
    n in c.secrets && c.secrets[n].owner != Some(uid)
  }

  /** The SARE for which the operator acts in an event, if it does. */
  function Actor(w: World, e: Event): Option<Sare> {
    if e.Call? && w.pass.Some? && HasSare(w.pass.value.pc) then Some(w.pass.value.pc.sare)
    else if e.JobCall? && e.id in w.jobs then Some(w.jobs[e.id].sare)
    else None
  }

  /** Whatever secret differs afterwards was missing or its own before, and is missing or its own now. */
  ghost predicate TouchesOnlyOwn(c: Cluster, c': Cluster, uid: nat) {
    forall n | n in c.secrets.Keys + c'.secrets.Keys ::
      || (n in c.secrets && n in c'.secrets && c'.secrets[n] == c.secrets[n])
      || (!Foreign(c, uid, n) && !Foreign(c', uid, n))
  }

  /** A delete call, which checks no owner, meets a secret that is not its SARE's. */
  predicate DeletesForeign(w: World, e: Event) {
    || (e.Call? && w.pass.Some? && w.pass.value.pc.DropSecret? && e.reply.ok
        && Foreign(w.c, w.pass.value.pc.sare.uid, ResolveSecretName(w.pass.value.pc.sare)))
    || (e.JobCall? && e.id in w.jobs && w.jobs[e.id].phase.ToDelete? && e.reply.ok
        && Foreign(w.c, w.jobs[e.id].sare.uid, ResolveSecretName(w.jobs[e.id].sare)))
  }

  /** The unchecked deletes are the one way to touch a foreign secret. */
  lemma TouchesOnlyOwnIff(w: World, e: Event)
    requires Enabled(w, e) && Actor(w, e).Some?
    ensures TouchesOnlyOwn(w.c, Next(w, e).c, Actor(w, e).value.uid) <==> !DeletesForeign(w, e)
  {
    if e.Call? {
      CallTouches(w, e.reply);
    }
  }

  lemma CallTouches(w: World, r: Reply)
    requires w.pass.Some? && HasSare(w.pass.value.pc)
    ensures TouchesOnlyOwn(w.c, CallNext(w, w.pass.value, r).c, w.pass.value.pc.sare.uid) <==>
        !DeletesForeign(w, Event.Call(r))
  {
    var pc := w.pass.value.pc;
    if KeepsObjects(pc) {
      KeepsObjectsCorrect(w.c, w.m, pc, r);
    } else if WritesSecret(pc) {
      WritesOneSecret(w.c, w.m, pc, r);
    } else {
      WritesOwnSare(w.c, w.m, pc, r);
    }
  }

  /** The pass has checked the secret and may still delete it on the strength of that check. */
  predicate HoldsCheck(pc: Pc) {
    pc.SetRunner? || pc.FindProducer? || pc.DropSecret?
  }

  predicate PassHolds(w: World, n: Name, uid: nat) {
    w.pass.Some? && HoldsCheck(w.pass.value.pc) && w.pass.value.pc.sare.uid == uid
      && ResolveSecretName(w.pass.value.pc.sare) == n
  }

  ghost predicate JobHolds(w: World, n: Name, uid: nat) {
    exists id :: id in w.jobs && JobHoldsCheck(w.jobs[id], n, uid)
  }

  predicate JobHoldsCheck(job: Job, n: Name, uid: nat) {
    !job.phase.ToCheck? && job.sare.uid == uid && ResolveSecretName(job.sare) == n
  }

  /**
   Somebody creates a secret under a name that is between a check and a delete, for another owner than the SARE that
   checked.
   */
  ghost predicate SlipsIn(w: World, e: Event, uid: nat)
    requires Enabled(w, e)
  {
    exists n :: (PassHolds(w, n, uid) || JobHolds(w, n, uid)) && n !in w.c.secrets && Foreign(Next(w, e).c, uid, n)
  }

  /** A job that has made its check. */
  predicate Checked(w: World, id: nat) {
    id in w.jobs && !w.jobs[id].phase.ToCheck?
  }

  /** The SARE of the job, brought up to date, is the one with this uid, and asks for a secret that is not its own. */
  predicate AsksForForeign(w: World, id: nat, uid: nat)
    requires id in w.jobs
  {
    var s := Refreshed(w.c, w.jobs[id].sare);
    s.uid == uid && Foreign(w.c, uid, ResolveSecretName(s))
  }

  /**
   A status patch brings the SARE of a checked job up to date, and that one now asks for a secret that is not its own:
   the deletion that follows goes to a name, or for an owner, that nobody has checked. The patch may be the job's own,
   or that of the pass which shares the SARE with it.
   */
  predicate Redirected(w: World, e: Event, uid: nat) {
    || (e.JobCall? && e.id in w.jobs && w.jobs[e.id].phase.ToPatch? && e.reply.ok && AsksForForeign(w, e.id, uid))
    || (&& e.Call? && w.pass.Some? && PatchesStatus(w.c, w.pass.value.pc, e.reply)
        && w.shared.Some? && Checked(w, w.shared.value) && AsksForForeign(w, w.shared.value, uid))
  }

  /** What was checked for the SARE with this uid is still true. */
  ghost predicate ChecksHold(w: World, uid: nat) {
    forall n | PassHolds(w, n, uid) || JobHolds(w, n, uid) :: !Foreign(w.c, uid, n)
  }

  /** Nobody changes the controller of a secret that exists. */
  lemma OwnersStay(w: World, e: Event, n: Name)
    requires Enabled(w, e) && n in w.c.secrets && n in Next(w, e).c.secrets
    ensures Next(w, e).c.secrets[n].owner == w.c.secrets[n].owner
  {
    if e.Call? {
      var pc := w.pass.value.pc;
      if KeepsObjects(pc) {
        KeepsObjectsCorrect(w.c, w.m, pc, e.reply);
      } else if WritesSecret(pc) {
        WritesOneSecret(w.c, w.m, pc, e.reply);
      } else {
        WritesOwnSare(w.c, w.m, pc, e.reply);
      }
    }
  }

  /** A check is held either since before, or it has just been made and found no foreign secret. */
  lemma NewChecksHold(w: World, e: Event, n: Name, uid: nat)
    requires WellFormed(w) && Enabled(w, e)
    requires PassHolds(Next(w, e), n, uid) || JobHolds(Next(w, e), n, uid)
    ensures PassHolds(w, n, uid) || JobHolds(w, n, uid) || FreshCheck(w, e, n, uid) || Redirected(w, e, uid)
  {
    var w' := Next(w, e);
    if JobHolds(w', n, uid) {
      var id :| id in w'.jobs && JobHoldsCheck(w'.jobs[id], n, uid);
      JobTakesCheck(w, e, id, n, uid);
    } else if e.Call? {
      StepTakesCheck(w.c, w.m, w.pass.value.pc, e.reply);
    } else if e.JobCall? {
      PassTakesCheck(w, e.id, e.base, e.reply, n, uid);
    }
  }

  /** The secret is not foreign, and the event changes no secret. */
  ghost predicate FreshCheck(w: World, e: Event, n: Name, uid: nat)
    requires Enabled(w, e)
  {
    !Foreign(w.c, uid, n) && Next(w, e).c.secrets == w.c.secrets
  }

  /** What a job's patch makes of the copy of a pass is what it makes of its own. */
  lemma PassTakesCheck(w: World, id: nat, base: Status, r: Reply, n: Name, uid: nat)
    requires WellFormed(w) && id in w.jobs && PassHolds(JobNext(w, id, base, r), n, uid)
    ensures PassHolds(w, n, uid) || FreshCheck(w, JobCall(id, base, r), n, uid)
            || Redirected(w, JobCall(id, base, r), uid)
  {
    if w.jobs[id].phase.ToPatch? && Shares(w, id) {
      SharedCopyTurns(w, id, base, r);
    } else {
      JobKeepsSares(w, id, base, r);
    }
  }

  /** The copy of the pass, too, is brought up to date, or changes its status only. */
  lemma SharedCopyTurns(w: World, id: nat, base: Status, r: Reply)
    requires WellFormed(w) && id in w.jobs && w.jobs[id].phase.ToPatch? && Shares(w, id)
    ensures var w', s := JobNext(w, id, base, r), w.pass.value.pc.sare;
      && w'.c.secrets == w.c.secrets && w'.pass.Some? && HasSare(w'.pass.value.pc)
      && (HoldsCheck(w'.pass.value.pc) == HoldsCheck(w.pass.value.pc))
      && var t := if r.ok && s.name in w.c.sares then w.c.sares[s.name] else s;
         && w'.pass.value.pc.sare.uid == t.uid
         && ResolveSecretName(w'.pass.value.pc.sare) == ResolveSecretName(t)
  {
  }

  lemma StepTakesCheck(c: Cluster, m: Memory, pc: Pc, r: Reply)
    requires !pc.Done?
    ensures var a := Step(c, m, pc, r);
      HoldsCheck(a.pc) ==>
        && a.c == c
        && (HoldsCheck(pc) ==> a.pc.sare == pc.sare)
        && (!HoldsCheck(pc) ==> !Foreign(c, a.pc.sare.uid, ResolveSecretName(a.pc.sare)))
  {
  }

  lemma JobTakesCheck(w: World, e: Event, id: nat, n: Name, uid: nat)
    requires WellFormed(w) && Enabled(w, e) && id in Next(w, e).jobs && JobHoldsCheck(Next(w, e).jobs[id], n, uid)
    ensures JobHolds(w, n, uid) || FreshCheck(w, e, n, uid) || Redirected(w, e, uid)
  {
    if e.Call? {
      CallKeepsCheck(w, e.reply, id, n, uid);
    } else if e.JobCall? && e.id == id {
      OwnCallTakesCheck(w, id, e.base, e.reply, n, uid);
    } else {
      OutsideKeepsJob(w, e, id);
      assert JobHolds(w, n, uid);
    }
  }

  lemma OwnCallTakesCheck(w: World, id: nat, base: Status, r: Reply, n: Name, uid: nat)
    requires WellFormed(w) && id in w.jobs
    requires id in JobNext(w, id, base, r).jobs && JobHoldsCheck(JobNext(w, id, base, r).jobs[id], n, uid)
    ensures JobHolds(w, n, uid) || FreshCheck(w, JobCall(id, base, r), n, uid)
            || Redirected(w, JobCall(id, base, r), uid)
  {
    if JobHoldsCheck(w.jobs[id], n, uid) {
      assert JobHolds(w, n, uid);
    }
  }

  lemma OutsideKeepsJob(w: World, e: Event, id: nat)
    requires Enabled(w, e) && !e.Call? && !(e.JobCall? && e.id == id)
    requires id in Next(w, e).jobs && !Next(w, e).jobs[id].phase.ToCheck?
    ensures id in w.jobs && w.jobs[id] == Next(w, e).jobs[id]
  {
  }

  lemma CallKeepsCheck(w: World, r: Reply, id: nat, n: Name, uid: nat)
    requires WellFormed(w) && Enabled(w, Event.Call(r))
    requires id in Next(w, Event.Call(r)).jobs && JobHoldsCheck(Next(w, Event.Call(r)).jobs[id], n, uid)
    ensures JobHolds(w, n, uid) || FreshCheck(w, Event.Call(r), n, uid) || Redirected(w, Event.Call(r), uid)
  {
    var pc := w.pass.value.pc;
    if JobHoldsCheck(w.jobs[id], n, uid) {
      assert JobHolds(w, n, uid);
    } else {
      StatusPatchKeepsSecrets(w.c, w.m, pc, r);
    }
  }

  /** A status patch changes no secret, and of the SAREs only a status. */
  lemma StatusPatchKeepsSecrets(c: Cluster, m: Memory, pc: Pc, r: Reply)
    requires PatchesStatus(c, pc, r)
    ensures var c' := Step(c, m, pc, r).c; c'.secrets == c.secrets && OnlyStatus(c, c')
  {
  }

  lemma NextChecksHold(w: World, e: Event, uid: nat)
    requires WellFormed(w) && Enabled(w, e) && ChecksHold(w, uid) && !SlipsIn(w, e, uid) && !Redirected(w, e, uid)
    ensures ChecksHold(Next(w, e), uid)
  {
    var w' := Next(w, e);
    forall n | PassHolds(w', n, uid) || JobHolds(w', n, uid) ensures !Foreign(w'.c, uid, n) {
      NewChecksHold(w, e, n, uid);
      if n in w.c.secrets && n in w'.c.secrets {
        OwnersStay(w, e, n);
      }
    }
  }

  /**
   The checks of a SARE go stale in these two ways and in no other: a secret slips in behind the check, or a status
   patch turns the SARE to another one's secret.
   */
  lemma ChecksHoldIff(w: World, e: Event, uid: nat)
    requires WellFormed(w) && Enabled(w, e) && ChecksHold(w, uid)
    ensures ChecksHold(Next(w, e), uid) <==> !SlipsIn(w, e, uid) && !Redirected(w, e, uid)
  {
    if Redirected(w, e, uid) {
      RedirectedCheck(w, e, uid);
    } else if SlipsIn(w, e, uid) {
      SlippedIn(w, e, uid);
    } else {
      NextChecksHold(w, e, uid);
    }
  }

  lemma RedirectedCheck(w: World, e: Event, uid: nat)
    requires WellFormed(w) && Enabled(w, e) && Redirected(w, e, uid)
    ensures !ChecksHold(Next(w, e), uid)
  {
    var w', id := Next(w, e), if e.JobCall? then e.id else w.shared.value;
    var s := Refreshed(w.c, w.jobs[id].sare);
    if e.Call? {
      StatusPatchKeepsSecrets(w.c, w.m, w.pass.value.pc, e.reply);
    }
    assert JobHoldsCheck(w'.jobs[id], ResolveSecretName(s), uid);
    assert JobHolds(w', ResolveSecretName(s), uid);
  }

  lemma SlippedIn(w: World, e: Event, uid: nat)
    requires Enabled(w, e) && SlipsIn(w, e, uid)
    ensures !ChecksHold(Next(w, e), uid)
  {
    var n :| (PassHolds(w, n, uid) || JobHolds(w, n, uid)) && n !in w.c.secrets && Foreign(Next(w, e).c, uid, n);
    CreationKeepsChecks(w, e, n, uid);
  }

  /** Whatever creates a secret leaves the pass alone, or is a pass that holds no check, and leaves all jobs alone. */
  lemma CreationKeepsChecks(w: World, e: Event, n: Name, uid: nat)
    requires Enabled(w, e) && n !in w.c.secrets && n in Next(w, e).c.secrets
    ensures PassHolds(w, n, uid) ==> PassHolds(Next(w, e), n, uid)
    ensures JobHolds(w, n, uid) ==> JobHolds(Next(w, e), n, uid)
  {
    CreationKeepsJobs(w, e, n);
    if JobHolds(w, n, uid) {
      var id :| id in w.jobs && JobHoldsCheck(w.jobs[id], n, uid);
      assert JobHoldsCheck(Next(w, e).jobs[id], n, uid);
    }
  }

  lemma CreationKeepsJobs(w: World, e: Event, n: Name)
    requires Enabled(w, e) && n !in w.c.secrets && n in Next(w, e).c.secrets
    ensures Next(w, e).jobs == w.jobs
    ensures Next(w, e).pass == w.pass || (w.pass.Some? && w.pass.value.pc.Store?)
  {
    if e.Call? {
      StepCreatesSecret(w.c, w.m, w.pass.value.pc, e.reply, n);
    }
  }

  lemma StepCreatesSecret(c: Cluster, m: Memory, pc: Pc, r: Reply, n: Name)
    requires n !in c.secrets && n in Step(c, m, pc, r).c.secrets
    ensures pc.Store?
  {
  }

  /** No event of the run makes a check of this SARE stale. */
  ghost predicate AtomicRun(w: World, run: seq<Event>, uid: nat)
    requires Legal(w, run)
    decreases |run|
  {
    run == [] || (!SlipsIn(w, run[0], uid) && !Redirected(w, run[0], uid) && AtomicRun(Next(w, run[0]), run[1..], uid))
  }

  /** The operator acts for the SARE with this uid. */
  predicate ActsFor(w: World, e: Event, uid: nat) {
    Actor(w, e).Some? && Actor(w, e).value.uid == uid
  }

  /** Whenever the operator acts for this SARE in the run, it touches only secrets of this SARE. */
  ghost predicate NeverInterferes(w: World, run: seq<Event>, uid: nat)
    requires Legal(w, run)
    decreases |run|
  {
    run == [] ||
    (&& (ActsFor(w, run[0], uid) ==> TouchesOnlyOwn(w.c, Next(w, run[0]).c, uid))
     && NeverInterferes(Next(w, run[0]), run[1..], uid))
  }

  lemma {:induction false} CheckedRunsDoNotInterfere(w: World, run: seq<Event>, uid: nat)
    requires WellFormed(w) && Legal(w, run) && AtomicRun(w, run, uid) && ChecksHold(w, uid)
    ensures NeverInterferes(w, run, uid)
    decreases |run|
  {
    if run != [] {
      var e := run[0];
      if ActsFor(w, e, uid) {
        ChecksPreventForeignDeletes(w, e, uid);
        TouchesOnlyOwnIff(w, e);
      }
      NextChecksHold(w, e, uid);
      NextFormed(w, e);
      CheckedRunsDoNotInterfere(Next(w, e), run[1..], uid);
    }
  }

  lemma ChecksPreventForeignDeletes(w: World, e: Event, uid: nat)
    requires Enabled(w, e) && ChecksHold(w, uid) && ActsFor(w, e, uid)
    ensures !DeletesForeign(w, e)
  {
  }

  /** What is done for one SARE touches no others' secrets, whatever happens to the checks of those. */
  lemma NonInterference(w: World, run: seq<Event>, uid: nat)
    requires Initial(w) && Legal(w, run) && AtomicRun(w, run, uid)
    ensures NeverInterferes(w, run, uid)
  {
    CheckedRunsDoNotInterfere(w, run, uid);
  }

  /**
   When the pass that shares its SARE with a job patches the status between the job's patch and its deletion, the
   deletion touches another one's secret exactly if the patch has turned the SARE to one.
   */
  lemma SharedPatchMisleadsIff(w: World, id: nat, base: Status, r: Reply)
    requires WellFormed(w) && Enabled(w, Event.Call(r)) && PatchesStatus(w.c, w.pass.value.pc, r)
    requires w.shared == Some(id) && id in w.jobs && w.jobs[id].phase.ToDelete?
    ensures var w' := Next(w, Event.Call(r));
      && id in w'.jobs
      && (TouchesOnlyOwn(w'.c, Next(w', JobCall(id, base, OK)).c, w'.jobs[id].sare.uid) <==>
            !Redirected(w, Event.Call(r), w'.jobs[id].sare.uid))
  {
    SharedJobTurns(w, id, r);
    TouchesOnlyOwnIff(Next(w, Event.Call(r)), JobCall(id, base, OK));
  }

  lemma SharedJobTurns(w: World, id: nat, r: Reply)
    requires WellFormed(w) && Enabled(w, Event.Call(r)) && PatchesStatus(w.c, w.pass.value.pc, r)
    requires w.shared == Some(id) && id in w.jobs
    ensures var w', s := Next(w, Event.Call(r)), Refreshed(w.c, w.jobs[id].sare);
      && w'.c.secrets == w.c.secrets && id in w'.jobs && w'.jobs[id].phase == w.jobs[id].phase
      && w'.jobs[id].sare.uid == s.uid && ResolveSecretName(w'.jobs[id].sare) == ResolveSecretName(s)
  {
    StatusPatchKeepsSecrets(w.c, w.m, w.pass.value.pc, r);
  }

  /** A firing of a runner, with its check, its patch and its deletion, on the SARE as its closure captured it. */
  function Firing(id: nat, captured: Sare): seq<Event> {
    var call := JobCall(id, captured.status, OK);
    [Fire(id, captured)] + ([call] + ([call] + ([call] + [])))
  }

  lemma Chain(w: World, e: Event, rest: seq<Event>)
    requires Enabled(w, e) && Legal(Next(w, e), rest)
    ensures Legal(w, [e] + rest) && Exec(w, [e] + rest) == Exec(Next(w, e), rest)
  {
  }

  lemma FiringRemoves(w: World, id: nat, captured: Sare)
    requires WellFormed(w) && Enabled(w, Fire(id, captured)) && Controls(w.c, captured.uid, ResolveSecretName(captured))
    requires captured.name in w.c.sares
    ensures Legal(w, Firing(id, captured))
    ensures Exec(w, Firing(id, captured)).c.secrets == w.c.secrets - {ResolveSecretName(w.c.sares[captured.name])}
  {
    var call := JobCall(id, captured.status, OK);
    var fired := Next(w, Fire(id, captured));
    var checked := Next(fired, call);
    var patched := Next(checked, call);
    assert checked.c == w.c && checked.jobs[id] == Job(captured, ToPatch);
    PatchedJob(checked, id, captured);
    Chain(patched, call, []);
    Chain(checked, call, [call] + []);
    Chain(fired, call, [call] + ([call] + []));
    Chain(w, Fire(id, captured), [call] + ([call] + ([call] + [])));
  }

  lemma PatchedJob(w: World, id: nat, captured: Sare)
    requires id in w.jobs && w.jobs[id] == Job(captured, ToPatch) && captured.name in w.c.sares
    ensures var patched := JobNext(w, id, captured.status, OK);
      && id in patched.jobs && patched.c.secrets == w.c.secrets
      && patched.jobs[id].phase == ToDelete
      && ResolveSecretName(patched.jobs[id].sare) == ResolveSecretName(w.c.sares[captured.name])
  {
  }

  /**
   Such a firing, with nothing between its calls, deletes another one's secret exactly if the SARE has come to name
   one since its closure captured it. A pass for that SARE ends with a conflict and leaves the runner in place.
   */
  lemma FiringDeletesForeignIff(w: World, id: nat, captured: Sare)
    requires WellFormed(w) && Enabled(w, Fire(id, captured)) && Controls(w.c, captured.uid, ResolveSecretName(captured))
    requires captured.name in w.c.sares && w.c.sares[captured.name].uid == captured.uid
    ensures var n, run := ResolveSecretName(w.c.sares[captured.name]), Firing(id, captured);
      && Legal(w, run) && NothingFails(run)
      && (TouchesOnlyOwn(w.c, Exec(w, run).c, captured.uid) <==> !Foreign(w.c, captured.uid, n))
  {
    FiringRemoves(w, id, captured);
  }
}
