/**
 One reconcile of a SARE and one firing of its rotation job, cut at every call to the API server or to a producer
 (internal/controller/request/controller.go, internal/serviceaccount/secret_manager.go). A step makes the call its
 program counter names, gets a reply, and moves to the next call. The local work between two calls belongs to the
 earlier one.
 */
module Pass {
  import opened Wrappers
  import opened Api
  import opened Migration
  import opened Registry

  /** Why a finalizer may go: the account is gone at the producer, the producer is gone, or the timeout passed. */
  datatype Why = AccountGone | ProducerGone | TimedOut

  /**
   The next call of a pass. The SARE is the copy in memory, `present` and `secretName` are the answer of
   SecretManager.Exists, or the name that SecretManager.CreateOrUpdate has written to.
   */
  datatype Pc =
    | Begin(key: Name)
    | AddFinalizer(sare: Sare)
    | CheckSecret(sare: Sare)
    | SetRunner(sare: Sare, present: bool)
    | FindProducer(sare: Sare, present: bool, secretName: Name)
    | DropSecret(sare: Sare)
    | PersistNotFound(sare: Sare)
    | ReadMigration(sare: Sare, sapr: Sapr, secretName: Name)
    | Request(sare: Sare, sapr: Sapr, present: bool, secretName: Name)
    | Store(sare: Sare, creds: Creds, migrated: bool)
    | PersistReady(sare: Sare, secretName: Name, reason: Reason, rotated: bool)
    | FindProducerToDelete(sare: Sare)
    | CheckAccount(sare: Sare, sapr: Sapr)
    | DeleteAccount(sare: Sare)
    | StampProducer(sare: Sare)
    | DropFinalizer(sare: Sare, why: Why)
    | PersistFailed(sare: Sare, error: Error)
    | Done(result: Option<Error>)

  /** The state after a step, and the keys that the events it caused put on the work queue. */
  datatype After = After(c: Cluster, m: Memory, pc: Pc, woken: set<Name>)

  function Ready(sare: Sare, secretName: Name, reason: Reason, rotated: bool, clock: nat): Status {
    Status(
      Some(secretName),
      if rotated then Some(clock) else sare.status.lastRotation,
      Some(Condition(true, reason, None, sare.generation)))
  }

  function NotReady(sare: Sare, reason: Reason, error: Error): Status {
    sare.status.(ready := Some(Condition(false, reason, Some(error), sare.generation)))
  }

  function NotReadyForRotation(sare: Sare): Status {
    sare.status.(secretRef := None, ready := Some(Condition(false, RotationInProgress, None, sare.generation)))
  }

  function FailureReason(e: Error): Reason {
    if e.MigrationIncomplete? then MigrationFailed else Failed
  }

  /** Reconcile up to its first write. */
  function BeginStep(c: Cluster, m: Memory, key: Name, r: Reply): After {
    if !r.ok then After(c, m, Done(Some(CallFailed(r.text))), {})
    else if key !in c.sares then After(c, m, Done(None), {})
    else
      var sare := c.sares[key];
      if sare.deletedAt.Some? then
        var m' := DeleteWatcher(m, NamespacedName(key, m.namespace));
        if !sare.finalizer then After(c, m', Done(None), {})
        else if c.clock > sare.deletedAt.value + m.timeout then After(c, m', DropFinalizer(sare, TimedOut), {})
        else After(c, m', FindProducerToDelete(sare), {})
      else if sare.finalizer then After(c, m, CheckSecret(sare), {})
      else After(c, m, AddFinalizer(sare), {})
  }

  /** An Update carries the resource version: it fails when the stored object is not the one that was read. */
  function AddFinalizerStep(c: Cluster, m: Memory, sare: Sare, r: Reply): After {
    if !r.ok || sare.name !in c.sares || c.sares[sare.name] != sare then After(c, m, Done(Some(CallFailed(r.text))), {})
    else
      var sare' := sare.(finalizer := true);
      After(c.(sares := c.sares[sare.name := sare']), m, CheckSecret(sare'), {})
  }

  /** SecretManager.Exists. */
  function CheckSecretStep(c: Cluster, m: Memory, sare: Sare, r: Reply): After {
    var n := ResolveSecretName(sare);
    if !r.ok then After(c, m, PersistFailed(sare, CallFailed(r.text)), {})
    else if n !in c.secrets then After(c, m, SetRunner(sare, false), {})
    else if Controls(c, sare.uid, n) then After(c, m, SetRunner(sare, true), {})
    else After(c, m, PersistFailed(sare, SecretConflict(n)), {})
  }

  /** handleSaRotationWatcher; the cron factory may refuse the expression. */
  function SetRunnerStep(c: Cluster, m: Memory, sare: Sare, present: bool, r: Reply): After {
    var key, next := NamespacedName(sare.name, m.namespace), FindProducer(sare, present, ResolveSecretName(sare));
    if !RotationEnabled(sare) then After(c, DeleteWatcher(m, key), next, {})
    else
      var m' := SetWatcher(m, key, sare.spec.rotation.value.expression, r.ok);
      After(c, m', if r.ok then next else PersistFailed(sare, CallFailed(r.text)), {})
  }

  function FindProducerStep(c: Cluster, m: Memory, sare: Sare, present: bool, secretName: Name, r: Reply): After {
    var p := sare.spec.producer;
    if !r.ok then After(c, m, PersistFailed(sare, CallFailed(r.text)), {})
    else if p !in c.producers then After(c, m, DropSecret(sare), {})
    else if present then After(c, m, Request(sare, c.producers[p], true, secretName), {})
    else After(c, m, ReadMigration(sare, c.producers[p], secretName), {})
  }

  /**
   SecretManager.Delete of a request whose producer is gone; there is no owner check. When the call fails the code
   dereferences a nil producer: the pass ends with an error and no status is written.
   */
  function DropSecretStep(c: Cluster, m: Memory, sare: Sare, r: Reply): After {
    var n := ResolveSecretName(sare);
    if !r.ok then After(c, m, Done(Some(CallFailed(r.text))), {})
    else After(DeleteSecret(c, n), m,
               if sare.spec.optional then PersistNotFound(sare)
               else PersistFailed(sare, ProducerMissing(sare.spec.producer)),
               OwnerOf(c, n))
  }

  function PersistNotFoundStep(c: Cluster, m: Memory, sare: Sare, r: Reply): After {
    var next := NotReady(sare, ProducerNotFound, ProducerMissing(sare.spec.producer));
    if !r.ok || sare.name !in c.sares then After(c, m, PersistFailed(sare.(status := next), CallFailed(r.text)), {})
    else After(PatchStatus(c, sare.name, sare.status, next), m, Done(None), {})
  }

  ghost function ReadMigrationStep(c: Cluster, m: Memory, sare: Sare, sapr: Sapr, secretName: Name, r: Reply): After {
    var read := CredentialsOf(c, sare, sapr, r);
    After(c, m,
          if read.Failure? then PersistFailed(sare, read.error)
          else if read.value.None? then Request(sare, sapr, false, secretName)
          else Store(sare, read.value.value, true), {})
  }

  /** The account that a PUT to the producer is about. */
  function AccountAt(sapr: Sapr, sare: Sare): Account {
    Account(sapr.name, sare.spec.consumer)
  }

  /**
   requestCredentials: the client is built, then the PUT is sent. It asks for a rotation exactly when the secret is
   missing. Without an HTTP strategy nothing is sent. `applied` of a refused reply says whether the PUT took effect.
   */
  function RequestStep(c: Cluster, m: Memory, sare: Sare, sapr: Sapr, present: bool, secretName: Name, r: Reply)
    : After
  {
    if sapr.http.None? then After(c, m, PersistFailed(sare, NoHttpSpec(sapr.name)), {})
    else
      var c' := if r.ok || r.applied then Asked(c, Put(AccountAt(sapr, sare), sare.spec.params, !present)) else c;
      After(c', m,
            if !r.ok then PersistFailed(sare, CallFailed(r.text))
            else if r.body.None? then PersistReady(sare, secretName, Created, false)
            else Store(sare, r.body.value, false), {})
  }

  /** SecretManager.CreateOrUpdate. */
  function StoreStep(c: Cluster, m: Memory, sare: Sare, creds: Creds, migrated: bool, r: Reply): After {
    var n := ResolveSecretName(sare);
    if !r.ok then After(c, m, PersistFailed(sare, CallFailed(r.text)), {})
    else if n in c.secrets && !Controls(c, sare.uid, n) then After(c, m, PersistFailed(sare, SecretConflict(n)), {})
    else After(WriteSecret(c, n, sare.uid, creds), m,
               PersistReady(sare, n, if migrated then Migrated else Created, !migrated), {})
  }

  function PersistReadyStep(c: Cluster, m: Memory, sare: Sare, secretName: Name, reason: Reason, rotated: bool,
                            r: Reply): After
  {
    if !r.ok || sare.name !in c.sares then After(c, m, Done(Some(CallFailed(r.text))), {})
    else
      var next := Ready(sare, secretName, reason, rotated, c.clock);
      After(PatchStatus(c, sare.name, sare.status, next), m, Done(None), {})
  }

  function FindProducerToDeleteStep(c: Cluster, m: Memory, sare: Sare, r: Reply): After {
    var p := sare.spec.producer;
    After(c, m,
          if !r.ok then PersistFailed(sare, CallFailed(r.text))
          else if p !in c.producers then DropFinalizer(sare, ProducerGone)
          else CheckAccount(sare, c.producers[p]), {})
  }

  function CheckAccountStep(c: Cluster, m: Memory, sare: Sare, sapr: Sapr, r: Reply): After {
    After(c, m,
          if sapr.http.None? then PersistFailed(sare, NoHttpSpec(sapr.name))
          else if !r.ok then PersistFailed(sare, CallFailed(r.text))
          else if AccountOf(sare) in c.accounts then DeleteAccount(sare)
          else DropFinalizer(sare, AccountGone), {})
  }

  function DeleteAccountStep(c: Cluster, m: Memory, sare: Sare, r: Reply): After {
    var c' := if r.ok || r.applied then c.(accounts := c.accounts - {AccountOf(sare)}) else c;
    After(c', m, if r.ok then StampProducer(sare) else PersistFailed(sare, CallFailed(r.text)), {})
  }

  /** The patch of the producer's lastExecution after a deletion; that it fails is only logged. */
  function StampProducerStep(c: Cluster, m: Memory, sare: Sare, r: Reply): After {
    var p := sare.spec.producer;
    After(if r.ok && p in c.producers then c.(executions := c.executions[p := c.clock]) else c, m,
          DropFinalizer(sare, AccountGone), {})
  }

  /**
   removeFinalizer. With its last finalizer a deleted SARE disappears, and its deletion event wakes its key. A SARE
   that is already gone is no error.
   */
  function DropFinalizerStep(c: Cluster, m: Memory, sare: Sare, why: Why, r: Reply): After {
    if !r.ok then After(c, m, Done(Some(CallFailed(r.text))), {})
    else if sare.name !in c.sares then After(c, m, Done(None), {})
    else if c.sares[sare.name] != sare then After(c, m, Done(Some(CallFailed(r.text))), {})
    else
      var c' := c.(released := if why.AccountGone? then c.released else c.released + {AccountOf(sare)});
      if sare.foreign then
        After(c'.(sares := c.sares[sare.name := sare.(finalizer := false)]), m, Done(None), {})
      else
        After(c'.(sares := c.sares - {sare.name}), m, Done(None), {sare.name})
  }

  /** fail and failWithReason: a failing patch is only logged. */
  function PersistFailedStep(c: Cluster, m: Memory, sare: Sare, error: Error, r: Reply): After {
    var next := NotReady(sare, FailureReason(error), error);
    After(if r.ok then PatchStatus(c, sare.name, sare.status, next) else c, m, Done(Some(error)), {})
  }

  ghost function Step(c: Cluster, m: Memory, pc: Pc, r: Reply): After {
    match pc
    case Begin(key) => BeginStep(c, m, key, r)
    case AddFinalizer(sare) => AddFinalizerStep(c, m, sare, r)
    case CheckSecret(sare) => CheckSecretStep(c, m, sare, r)
    case SetRunner(sare, present) => SetRunnerStep(c, m, sare, present, r)
    case FindProducer(sare, present, name) => FindProducerStep(c, m, sare, present, name, r)
    case DropSecret(sare) => DropSecretStep(c, m, sare, r)
    case PersistNotFound(sare) => PersistNotFoundStep(c, m, sare, r)
    case ReadMigration(sare, sapr, name) => ReadMigrationStep(c, m, sare, sapr, name, r)
    case Request(sare, sapr, present, name) => RequestStep(c, m, sare, sapr, present, name, r)
    case Store(sare, creds, migrated) => StoreStep(c, m, sare, creds, migrated, r)
    case PersistReady(sare, name, reason, rotated) => PersistReadyStep(c, m, sare, name, reason, rotated, r)
    case FindProducerToDelete(sare) => FindProducerToDeleteStep(c, m, sare, r)
    case CheckAccount(sare, sapr) => CheckAccountStep(c, m, sare, sapr, r)
    case DeleteAccount(sare) => DeleteAccountStep(c, m, sare, r)
    case StampProducer(sare) => StampProducerStep(c, m, sare, r)
    case DropFinalizer(sare, why) => DropFinalizerStep(c, m, sare, why, r)
    case PersistFailed(sare, error) => PersistFailedStep(c, m, sare, error, r)
    case Done(_) => After(c, m, pc, {})
  }

  /** An upper bound on the calls a pass still makes. */
  function Rank(pc: Pc): nat {
    match pc
    case Begin(_) => 11
    case AddFinalizer(_) => 10
    case CheckSecret(_) => 9
    case SetRunner(_, _) => 8
    case FindProducer(_, _, _) => 7
    case DropSecret(_) => 6
    case ReadMigration(_, _, _) => 6
    case Request(_, _, _, _) => 5
    case Store(_, _, _) => 4
    case PersistReady(_, _, _, _) => 3
    case FindProducerToDelete(_) => 6
    case CheckAccount(_, _) => 5
    case DeleteAccount(_) => 4
    case StampProducer(_) => 3
    case DropFinalizer(_, _) => 2
    case PersistNotFound(_) => 2
    case PersistFailed(_, _) => 1
    case Done(_) => 0
  }

  lemma StepDescends(c: Cluster, m: Memory, pc: Pc, r: Reply)
    requires !pc.Done?
    ensures Rank(Step(c, m, pc, r).pc) < Rank(pc)
  {
  }

  /** The call sites of a pass, and what the outside answers at each of them. */
  type Answers = Pc -> Reply

  /** A pass that nothing interrupts. */
  ghost function Run(c: Cluster, m: Memory, pc: Pc, answers: Answers): (r: After)
    ensures r.pc.Done?
    decreases Rank(pc)
  {
    if pc.Done? then After(c, m, pc, {})
    else
      StepDescends(c, m, pc, answers(pc));
      var a := Step(c, m, pc, answers(pc));
      var rest := Run(a.c, a.m, a.pc, answers);
      rest.(woken := a.woken + rest.woken)
  }
}
