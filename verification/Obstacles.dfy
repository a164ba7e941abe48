/**
 Why a pass fails when every call gets through: another one's secret under its name, a refused rotation expression, a
 missing producer that is required, a producer that cannot be asked, and a migration secret that lacks keys. A pass
 ends with exactly the first of these that is in its way, and a system where none turns up converges.
 */
module Obstacles {
  import opened Wrappers
  import opened Api
  import opened Migration
  import opened Registry
  import opened Pass
  import opened Operator
  import opened Drain

  /** What the cron factory says of an expression: nothing, or why it refuses it. */
  type CronFactory = string -> Option<string>

  predicate Conflicting(c: Cluster, s: Sare) {
    ResolveSecretName(s) in c.secrets && !Controls(c, s.uid, ResolveSecretName(s))
  }

  function Refusal(cron: CronFactory, s: Sare): Option<string> {
    if RotationEnabled(s) then cron(s.spec.rotation.value.expression) else None
  }

  function Unaskable(sapr: Sapr): Option<Error> {
    if sapr.http.None? then Some(NoHttpSpec(sapr.name)) else None
  }

  /** Without a secret, the migration secret comes first, and the producer is asked if that holds nothing. */
  ghost function Unmigrated(c: Cluster, s: Sare, sapr: Sapr): Option<Error> {
    var read := CredentialsOf(c, s, sapr, OK);
    if read.Failure? then Some(read.error) else if read.value.Some? then None else Unaskable(sapr)
  }

  ghost function Unprovided(c: Cluster, s: Sare): Option<Error> {
    var p := s.spec.producer;
    if p !in c.producers then if s.spec.optional then None else Some(ProducerMissing(p))
    else if Controls(c, s.uid, ResolveSecretName(s)) then Unaskable(c.producers[p])
    else Unmigrated(c, s, c.producers[p])
  }

  ghost function Unwatched(c: Cluster, cron: CronFactory, s: Sare): Option<Error> {
    if Refusal(cron, s).Some? then Some(CallFailed(Refusal(cron, s).value)) else Unprovided(c, s)
  }

  ghost function Unchecked(c: Cluster, cron: CronFactory, s: Sare): Option<Error> {
    if Conflicting(c, s) then Some(SecretConflict(ResolveSecretName(s))) else Unwatched(c, cron, s)
  }

  /** Until the timeout the account has to go first, and a producer that is there has to delete it. */
  function Unreleased(c: Cluster, m: Memory, s: Sare): Option<Error>
    requires s.deletedAt.Some?
  {
    if s.finalizer && c.clock <= s.deletedAt.value + m.timeout && s.spec.producer in c.producers
    then Unaskable(c.producers[s.spec.producer]) else None
  }

  /** What keeps this SARE from being reconciled, other than a failing call. */
  ghost function Obstacle(c: Cluster, m: Memory, cron: CronFactory, k: Name): Option<Error> {
    if k !in c.sares then None
    else if c.sares[k].deletedAt.Some? then Unreleased(c, m, c.sares[k])
    else Unchecked(c, cron, c.sares[k])
  }

  /** A reply of a call that gets through. Of the cron factory it is a verdict on the expression. */
  predicate Answered(cron: CronFactory, pc: Pc, r: Reply) {
    if pc.SetRunner? && Refusal(cron, pc.sare).Some? then !r.ok && r.text == Refusal(cron, pc.sare).value else r.ok
  }

  /** What the pass is going to end with, if its calls get through. */
  ghost function Fate(c: Cluster, m: Memory, cron: CronFactory, pc: Pc): Option<Error> {
    match pc
    case Begin(key) => Obstacle(c, m, cron, key)
    case AddFinalizer(s) => Unchecked(c, cron, s)
    case CheckSecret(s) => Unchecked(c, cron, s)
    case SetRunner(s, _) => Unwatched(c, cron, s)
    case FindProducer(s, _, _) => Unprovided(c, s)
    case DropSecret(s) => if s.spec.optional then None else Some(ProducerMissing(s.spec.producer))
    case ReadMigration(s, sapr, _) => Unmigrated(c, s, sapr)
    case Request(_, sapr, _, _) => Unaskable(sapr)
    case FindProducerToDelete(s) =>
      if s.spec.producer in c.producers then Unaskable(c.producers[s.spec.producer]) else None
    case CheckAccount(_, sapr) => Unaskable(sapr)
    case PersistFailed(_, error) => Some(error)
    case Done(result) => result
    case _ => None
  }

  /** The SARE has been told the error. */
  predicate Told(c: Cluster, k: Name, error: Error) {
    && k in c.sares
    && var reason := if error.MigrationIncomplete? then MigrationFailed else Failed;
       c.sares[k].status.ready == Some(Condition(false, reason, Some(error), c.sares[k].generation))
  }

  /** The pass has not yet come past what the secrets of the cluster decide. */
  predicate Undecided(pc: Pc) {
    || pc.Begin? || pc.AddFinalizer? || pc.CheckSecret? || pc.SetRunner? || pc.FindProducer? || pc.ReadMigration?
  }

  /** The pass holds the SARE as it is stored, and knows of its secret and its producer. */
  predicate Aware(c: Cluster, k: Name, pc: Pc) {
    && (pc.Begin? ==> pc.key == k)
    && (HasSare(pc) ==> k in c.sares && c.sares[k] == pc.sare && pc.sare.name == k)
    && (Undecided(pc) && !pc.Begin? ==> pc.sare.deletedAt.None?)
    && (pc.SetRunner? || pc.FindProducer? ==>
          if pc.present then Controls(c, pc.sare.uid, ResolveSecretName(pc.sare))
          else ResolveSecretName(pc.sare) !in c.secrets)
    && (pc.ReadMigration? ==>
          && ResolveSecretName(pc.sare) !in c.secrets
          && pc.sare.spec.producer in c.producers && c.producers[pc.sare.spec.producer] == pc.sapr)
    && (pc.Request? || pc.Store? ==> !Conflicting(c, pc.sare))
    && (pc.Done? && pc.result.Some? ==> Told(c, k, pc.result.value))
  }

  /** The call does not change what the pass is going to end with. */
  ghost predicate KeepsFate(c: Cluster, m: Memory, cron: CronFactory, k: Name, pc: Pc, r: Reply) {
    var a := Step(c, m, pc, r);
    Aware(a.c, k, a.pc) && Fate(a.c, a.m, cron, a.pc) == Fate(c, m, cron, pc)
  }

  lemma StepKeepsFate(c: Cluster, m: Memory, cron: CronFactory, k: Name, pc: Pc, r: Reply)
    requires ClusterFormed(c) && Aware(c, k, pc) && !pc.Done? && Answered(cron, pc, r)
    ensures KeepsFate(c, m, cron, k, pc, r)
  {
    if pc.Begin? || pc.AddFinalizer? {
      EarlyFate(c, m, cron, k, pc, r);
    } else if pc.CheckSecret? || pc.SetRunner? {
      CheckFate(c, m, cron, k, pc, r);
    } else if Undecided(pc) {
      FindFate(c, m, cron, k, pc, r);
    } else if KeepsObjects(pc) {
      AskFate(c, m, cron, k, pc, r);
    } else {
      WriteFate(c, m, cron, k, pc, r);
    }
  }

  lemma EarlyFate(c: Cluster, m: Memory, cron: CronFactory, k: Name, pc: Pc, r: Reply)
    requires ClusterFormed(c) && Aware(c, k, pc) && (pc.Begin? || pc.AddFinalizer?) && Answered(cron, pc, r)
    ensures KeepsFate(c, m, cron, k, pc, r)
  {
  }

  lemma CheckFate(c: Cluster, m: Memory, cron: CronFactory, k: Name, pc: Pc, r: Reply)
    requires Aware(c, k, pc) && (pc.CheckSecret? || pc.SetRunner?) && Answered(cron, pc, r)
    ensures KeepsFate(c, m, cron, k, pc, r)
  {
  }

  lemma FindFate(c: Cluster, m: Memory, cron: CronFactory, k: Name, pc: Pc, r: Reply)
    requires Aware(c, k, pc) && (pc.FindProducer? || pc.ReadMigration?) && Answered(cron, pc, r)
    ensures KeepsFate(c, m, cron, k, pc, r)
  {
  }

  lemma AskFate(c: Cluster, m: Memory, cron: CronFactory, k: Name, pc: Pc, r: Reply)
    requires Aware(c, k, pc) && !pc.Done? && !Undecided(pc) && KeepsObjects(pc) && Answered(cron, pc, r)
    ensures KeepsFate(c, m, cron, k, pc, r)
  {
  }

  lemma WriteFate(c: Cluster, m: Memory, cron: CronFactory, k: Name, pc: Pc, r: Reply)
    requires Aware(c, k, pc) && !Undecided(pc) && !KeepsObjects(pc) && Answered(cron, pc, r)
    ensures KeepsFate(c, m, cron, k, pc, r)
  {
  }

  /**
   A pass whose calls get through ends with exactly the error of the first obstacle in its way, which the SARE is told,
   and without an obstacle it succeeds.
   */
  lemma PassEndsAtObstacle(c: Cluster, m: Memory, cron: CronFactory, k: Name, answers: Answers)
    requires ClusterFormed(c) && (forall pc :: Answered(cron, pc, answers(pc)))
    ensures var end := Run(c, m, Begin(k), answers);
      && end.pc.result == Obstacle(c, m, cron, k)
      && (end.pc.result.Some? ==> Told(end.c, k, end.pc.result.value))
  {
    RestEndsAsFated(c, m, cron, Running(k, Begin(k)), answers);
  }

  lemma {:induction false} RestEndsAsFated(c: Cluster, m: Memory, cron: CronFactory, running: Running, answers: Answers)
    requires ClusterFormed(c) && PassFormed(c, running) && Aware(c, running.key, running.pc)
    requires forall pc :: Answered(cron, pc, answers(pc))
    ensures var end := Run(c, m, running.pc, answers);
      && end.pc.result == Fate(c, m, cron, running.pc)
      && (end.pc.result.Some? ==> Told(end.c, running.key, end.pc.result.value))
    decreases Rank(running.pc)
  {
    var Running(k, pc) := running;
    if !pc.Done? {
      var a := Step(c, m, pc, answers(pc));
      StepDescends(c, m, pc, answers(pc));
      StepFormed(c, m, running, answers(pc));
      StepKeepsFate(c, m, cron, k, pc, answers(pc));
      RestEndsAsFated(a.c, a.m, cron, Running(k, a.pc), answers);
    }
  }

  /** Some SARE had an obstacle in its way at moment `i` of the history or before. */
  ghost predicate Obstructed(worlds: nat -> World, cron: CronFactory, i: nat) {
    exists n: nat, k :: n <= i && Obstacle(worlds(n).c, worlds(n).m, cron, k).Some?
  }

  /** A working step of the history whose call, if it is one, gets through. */
  ghost predicate Answering(worlds: nat -> World, events: nat -> Event, cron: CronFactory, i: nat) {
    && Working(worlds(i), events(i))
    && (events(i).Call? ==> Answered(cron, worlds(i).pass.value.pc, events(i).reply))
  }

  /** If the pass in flight is going to fail, there was an obstacle. */
  ghost predicate Explained(worlds: nat -> World, cron: CronFactory, i: nat) {
    var w := worlds(i);
    w.pass.Some? ==>
      && Aware(w.c, w.pass.value.key, w.pass.value.pc)
      && (Fate(w.c, w.m, cron, w.pass.value.pc).Some? ==> Obstructed(worlds, cron, i))
  }

  /** An undecided pass that is going to fail has an obstacle in its way right now. */
  lemma FatedAtObstacle(c: Cluster, m: Memory, cron: CronFactory, k: Name, pc: Pc)
    requires Aware(c, k, pc) && Undecided(pc) && Fate(c, m, cron, pc).Some?
    ensures Obstacle(c, m, cron, k).Some?
  {
  }

  /** The garbage collector takes only secrets whose SARE is gone, so what a pass knows stays true. */
  lemma CollectKeepsAware(w: World, n: Name)
    requires WellFormed(w) && w.pass.Some? && Aware(w.c, w.pass.value.key, w.pass.value.pc) && Enabled(w, Collect(n))
    ensures Aware(RemoveSecretNext(w, n).c, w.pass.value.key, w.pass.value.pc)
  {
  }

  lemma StepExplained(worlds: nat -> World, events: nat -> Event, cron: CronFactory, i: nat)
    requires History(worlds, events) && Answering(worlds, events, cron, i)
    requires WellFormed(worlds(i)) && Explained(worlds, cron, i)
    ensures Explained(worlds, cron, i + 1)
  {
    var w, e, w' := worlds(i), events(i), worlds(i + 1);
    if e.Call? {
      StepKeepsFate(w.c, w.m, cron, w.pass.value.key, w.pass.value.pc, e.reply);
    } else if e.Collect? && w.pass.Some? {
      CollectKeepsAware(w, e.secret);
    }
    if w'.pass.Some? && Undecided(w'.pass.value.pc) && Fate(w'.c, w'.m, cron, w'.pass.value.pc).Some? {
      FatedAtObstacle(w'.c, w'.m, cron, w'.pass.value.key, w'.pass.value.pc);
    }
  }

  lemma {:induction false} WorkExplained(worlds: nat -> World, events: nat -> Event, cron: CronFactory, j: nat)
    requires History(worlds, events) && (forall n: nat | n < j :: Answering(worlds, events, cron, n))
    requires Frozen(worlds(0)) && worlds(0).pass.None? && worlds(0).jobs == map[]
    ensures Explained(worlds, cron, j)
  {
    if j > 0 {
      WorkExplained(worlds, events, cron, j - 1);
      forall n: nat | n < j - 1 ensures Working(worlds(n), events(n)) {
        assert Answering(worlds, events, cron, n);
      }
      WorkKeepsFrozen(worlds, events, j - 1);
      StepExplained(worlds, events, cron, j - 1);
    }
  }

  /**
   From any quiet moment, if work is taken up as long as there is any, and the calls get through: either some SARE
   meets an obstacle on the way, or everything converges.
   */
  lemma UnobstructedSystemConverges(worlds: nat -> World, events: nat -> Event, cron: CronFactory) returns (j: nat)
    requires History(worlds, events)
    requires forall i: nat :: HasWork(worlds(i)) ==> Answering(worlds, events, cron, i)
    requires WellFormed(worlds(0)) && worlds(0).pass.None? && worlds(0).jobs == map[]
    ensures Obstructed(worlds, cron, j) || Settled(worlds, events, j)
  {
    j := FrozenSystemConverges(worlds, events);
    WorkExplained(worlds, events, cron, j);
  }
}
