/**
 The request controller as a program (internal/controller/request/controller.go): its methods change the cluster, the
 SARE in memory and the watcher map in place, call by call. Each is tied to the stretch of module Pass it stands for,
 so that everything proved about passes holds of the program.
 */
module Controllers {
  import opened Wrappers
  import opened Api
  import opened Migration
  import opened Registry
  import opened Pass
  import opened Operator
  import opened Watchers
  import opened SecretManagers
  import opened StatusConditions

  /** A task of the cron library: the SARE its closure captured, and whether it is running. A stop is final. */
  class TaskRunner {
    ghost const id: nat
    const key: string
    const expression: string
    const sare: ServiceAccountRequest
    var running: bool

    constructor (ghost id: nat, key: string, expression: string, sare: ServiceAccountRequest)
      ensures this.id == id && this.key == key && this.expression == expression && this.sare == sare && !running
    {
      this.id, this.key, this.expression, this.sare, this.running := id, key, expression, sare, false;
    }

    method Run()
      modifies this
      ensures running
    {
      running := true;
    }

    method Stop()
      modifies this
      ensures !running
    {
      running := false;
    }
  }

  /** From one moment of a pass to a later one, with nothing of the outside between them. */
  ghost predicate Leads(c: Cluster, m: Memory, pc: Pc, c': Cluster, m': Memory, pc': Pc, answers: Answers) {
    var end, end' := Run(c, m, pc, answers), Run(c', m', pc', answers);
    end.c == end'.c && end.m == end'.m && end.pc == end'.pc
  }

  lemma OneStep(c: Cluster, m: Memory, pc: Pc, answers: Answers)
    requires !pc.Done?
    ensures var a := Step(c, m, pc, answers(pc)); Leads(c, m, pc, a.c, a.m, a.pc, answers)
  {
  }

  /** What a create or update did; `Panicked` stands for the nil dereference after a failed deletion. */
  datatype Outcome =
    | Aborted(error: Option<Error>)
    | Rotated(secretName: Name)
    | Unchanged(secretName: Name)
    | Migrated(secretName: Name)
    | Panicked(cause: Error)

  /** How a pass goes on after createOrUpdate. */
  function AfterCreateOrUpdate(outcome: Outcome, sare: Sare): Pc {
    match outcome
    case Aborted(None) => Done(None)
    case Aborted(Some(e)) => PersistFailed(sare, e)
    case Rotated(secretName) => PersistReady(sare, secretName, Created, true)
    case Unchanged(secretName) => PersistReady(sare, secretName, Created, false)
    case Migrated(secretName) => PersistReady(sare, secretName, Reason.Migrated, false)
    case Panicked(e) => Done(Some(e))
  }

  lemma StoppedAll(m: Memory, runners: seq<Runner>)
    requires |runners| == |m.runners|
    requires forall i | 0 <= i < |runners| ::
      runners[i].key == m.runners[i].key && runners[i].expression == m.runners[i].expression
    requires forall i | 0 <= i < |runners| ::
      runners[i].running <==> m.runners[i].running && forall key | key in m.watch :: m.watch[key] != i
    ensures runners == StopAll(m).runners
  {
  }

  class Controller {
    const client: Client
    const secretManager: SecretManager
    const migrationSource: MigrationSource
    const deletionTimeout: nat
    const namespace: string
    var rotateCronWatcher: map<string, TaskRunner>
    /** Every runner ever created, in order. */
    ghost var created: seq<TaskRunner>

    ghost predicate Valid()
      reads this
    {
      && secretManager.client == client && migrationSource.client == client
      && (forall i | 0 <= i < |created| :: created[i].id == i)
      && (forall key | key in rotateCronWatcher ::
            rotateCronWatcher[key].id < |created| && created[rotateCronWatcher[key].id] == rotateCronWatcher[key])
    }

    ghost function Runners(): (r: seq<Runner>)
      reads this, created
      ensures |r| == |created|
    {
      seq(|created|, i requires 0 <= i < |created| reads this, created =>
        Runner(created[i].key, created[i].expression, created[i].running))
    }

    ghost function Mem(): Memory
      reads this, created
    {
      Memory(map key | key in rotateCronWatcher :: rotateCronWatcher[key].id, Runners(), deletionTimeout, namespace)
    }

    constructor (client: Client, deletionTimeout: nat, namespace: string)
      ensures Valid() && this.client == client && created == [] && rotateCronWatcher == map[]
      ensures Mem() == Memory(map[], [], deletionTimeout, namespace)
    {
      this.client := client;
      this.secretManager := new SecretManager(client);
      this.migrationSource := new MigrationSource(client);
      this.deletionTimeout, this.namespace := deletionTimeout, namespace;
      this.rotateCronWatcher, this.created := map[], [];
    }

    /** The cleanup function that New returns. */
    method Cleanup()
      requires Valid()
      modifies created
      ensures Valid() && Mem() == StopAll(old(Mem()))
      ensures rotateCronWatcher == old(rotateCronWatcher)
      ensures forall key | key in rotateCronWatcher :: !rotateCronWatcher[key].running
    {
      ghost var m := Mem();
      var todo := rotateCronWatcher.Keys;
      while todo != {}
        invariant Valid() && todo <= rotateCronWatcher.Keys
        invariant forall i | 0 <= i < |created| ::
          created[i].running <==>
          m.runners[i].running && forall key | key in m.watch && key !in todo :: m.watch[key] != i
      {
        var key :| key in todo;
        todo := todo - {key};
        rotateCronWatcher[key].Stop();
      }
      forall key | key in rotateCronWatcher ensures !rotateCronWatcher[key].running {
        assert m.watch[key] == rotateCronWatcher[key].id;
      }
      StoppedAll(m, Runners());
    }

    /** Stops the runner that is stored under the key, if there is one. */
    method StopStored(sareName: string)
      requires Valid()
      modifies created
      ensures Valid() && Mem() == StopWatcher(old(Mem()), sareName)
      ensures sareName in rotateCronWatcher ==> !rotateCronWatcher[sareName].running
    {
      if sareName in rotateCronWatcher {
        rotateCronWatcher[sareName].Stop();
      }
      assert Mem().runners == StopWatcher(old(Mem()), sareName).runners;
    }

    method StoreRunner(sareName: string, cronWatcher: TaskRunner)
      requires Valid() && cronWatcher.id == |created|
      modifies this
      ensures Valid() && created == old(created) + [cronWatcher]
      ensures rotateCronWatcher == old(rotateCronWatcher)[sareName := cronWatcher]
      ensures var m := old(Mem());
        Mem() == m.(runners := m.runners + [Runner(cronWatcher.key, cronWatcher.expression, cronWatcher.running)],
                    watch := m.watch[sareName := |m.runners|])
    {
      rotateCronWatcher := rotateCronWatcher[sareName := cronWatcher];
      created := created + [cronWatcher];
      assert Runners() == old(Runners()) + [Runner(cronWatcher.key, cronWatcher.expression, cronWatcher.running)];
    }

    method SetSaRotationWatcher(sare: ServiceAccountRequest, reply: Reply) returns (error: Option<Error>)
      requires Valid() && RotationEnabled(sare.value)
      modifies this, created
      ensures Valid() && fresh(set r | r in created && r !in old(created))
      ensures error == if reply.ok then None else Some(CallFailed(reply.text))
      ensures Mem() == SetWatcher(old(Mem()), NamespacedName(sare.value.name, namespace),
                                  sare.value.spec.rotation.value.expression, reply.ok)
      ensures var key := sare.value.name + "-" + namespace;
        && (key in old(rotateCronWatcher) ==> !old(rotateCronWatcher)[key].running)
        && (!reply.ok ==> rotateCronWatcher == old(rotateCronWatcher))
        && (reply.ok ==>
              && key in rotateCronWatcher && rotateCronWatcher[key] !in old(created)
              && rotateCronWatcher == old(rotateCronWatcher)[key := rotateCronWatcher[key]]
              && rotateCronWatcher[key].running && rotateCronWatcher[key].sare == sare
              && rotateCronWatcher[key].expression == sare.value.spec.rotation.value.expression)
    {
      var sareName := NamespacedName(sare.value.name, namespace);
      StopStored(sareName);
      if !reply.ok {
        return Some(CallFailed(reply.text));
      }
      var cronWatcher := new TaskRunner(|created|, sareName, sare.value.spec.rotation.value.expression, sare);
      cronWatcher.Run();
      StoreRunner(sareName, cronWatcher);
      return None;
    }

    method DeleteSaRotationWatcher(sare: Sare)
      requires Valid()
      modifies this, created
      ensures Valid() && created == old(created)
      ensures Mem() == DeleteWatcher(old(Mem()), NamespacedName(sare.name, namespace))
      ensures var key := sare.name + "-" + namespace;
        && rotateCronWatcher == old(rotateCronWatcher) - {key}
        && (key in old(rotateCronWatcher) ==> !old(rotateCronWatcher)[key].running)
    {
      var sareName := NamespacedName(sare.name, namespace);
      StopStored(sareName);
      rotateCronWatcher := rotateCronWatcher - {sareName};
    }

    /** Whether the secret is there is part of where the pass stands, but not of what this does. */
    method HandleSaRotationWatcher(sare: ServiceAccountRequest, present: bool, reply: Reply)
      returns (error: Option<Error>)
      requires Valid()
      modifies this, created
      ensures Valid() && fresh(set r | r in created && r !in old(created))
      ensures var a := SetRunnerStep(client.store, old(Mem()), sare.value, present, reply);
        && Mem() == a.m
        && a.pc == if error.None? then FindProducer(sare.value, present, ResolveSecretName(sare.value))
                   else PersistFailed(sare.value, error.value)
      ensures var rotation, key := sare.value.spec.rotation, sare.value.name + "-" + namespace;
        && (key in old(rotateCronWatcher) ==> !old(rotateCronWatcher)[key].running)
        && (rotation.None? || !rotation.value.enabled ==>
              error.None? && rotateCronWatcher == old(rotateCronWatcher) - {key})
        && (rotation.Some? && rotation.value.enabled && reply.ok ==>
              && error.None? && key in rotateCronWatcher && rotateCronWatcher[key] !in old(created)
              && rotateCronWatcher == old(rotateCronWatcher)[key := rotateCronWatcher[key]]
              && rotateCronWatcher[key].running && rotateCronWatcher[key].sare == sare
              && rotateCronWatcher[key].expression == rotation.value.expression)
        && (rotation.Some? && rotation.value.enabled && !reply.ok ==>
              error == Some(CallFailed(reply.text)) && rotateCronWatcher == old(rotateCronWatcher))
    {
      if RotationEnabled(sare.value) {
        error := SetSaRotationWatcher(sare, reply);
      } else {
        DeleteSaRotationWatcher(sare.value);
        error := None;
      }
    }

    method GetProducer(name: Name, reply: Reply) returns (sapr: Option<Sapr>, error: Option<Error>)
      ensures error == if reply.ok then None else Some(CallFailed(reply.text))
      ensures error.None? ==> (sapr.Some? <==> name in client.store.producers)
      ensures sapr.Some? ==> error.None? && sapr.value == client.store.producers[name]
    {
      if !reply.ok {
        return None, Some(CallFailed(reply.text));
      }
      if name !in client.store.producers {
        return None, None;
      }
      return Some(client.store.producers[name]), None;
    }

    /** Without a producer the pass is over, and the secret goes. */
    method GetProducerForCreateOrUpdate(sare: ServiceAccountRequest, present: bool, secretName: Name,
                                        answers: Answers, ghost m: Memory)
      returns (sapr: Option<Sapr>, outcome: Outcome)
      requires Valid()
      modifies client, sare
      ensures sapr.None? ==>
        Leads(old(client.store), m, FindProducer(old(sare.value), present, secretName),
              client.store, m, AfterCreateOrUpdate(outcome, sare.value), answers)
      ensures sapr.Some? ==> client.store == old(client.store) && sare.value == old(sare.value)
      ensures sapr.Some? ==>
        Leads(client.store, m, FindProducer(sare.value, present, secretName), client.store, m,
              if present then Request(sare.value, sapr.value, true, secretName)
              else ReadMigration(sare.value, sapr.value, secretName), answers)
    {
      OneStep(client.store, m, FindProducer(sare.value, present, secretName), answers);
      var error;
      sapr, error := GetProducer(sare.value.spec.producer, answers(FindProducer(sare.value, present, secretName)));
      if error.Some? {
        return None, Aborted(error);
      }
      if sapr.Some? {
        return sapr, Aborted(None);
      }
      outcome := ProducerIsGone(sare, answers, m);
    }

    method ProducerIsGone(sare: ServiceAccountRequest, answers: Answers, ghost m: Memory) returns (outcome: Outcome)
      requires Valid()
      modifies client, sare
      ensures Leads(old(client.store), m, DropSecret(old(sare.value)), client.store, m,
          AfterCreateOrUpdate(outcome, sare.value), answers)
    {
      OneStep(client.store, m, DropSecret(sare.value), answers);
      var error := secretManager.Delete(sare.value, answers(DropSecret(sare.value)));
      if error.Some? {
        return Panicked(error.value);
      }
      if sare.value.spec.optional {
        OneStep(client.store, m, PersistNotFound(sare.value), answers);
        error := StatusConditions.ProducerNotFound(client, sare, answers(PersistNotFound(sare.value)));
        return Aborted(error);
      }
      return Aborted(Some(ProducerMissing(sare.value.spec.producer)));
    }

    /** Tells where migrated credentials have been stored, if there are any. */
    method MigrateCredentials(sare: Sare, sapr: Sapr, secretName: Name, answers: Answers, ghost m: Memory)
      returns (migrated: Option<Name>, error: Option<Error>)
      requires Valid()
      modifies client
      ensures Leads(old(client.store), m, ReadMigration(sare, sapr, secretName), client.store, m,
                    if error.Some? then PersistFailed(sare, error.value)
                    else if migrated.Some? then PersistReady(sare, migrated.value, Reason.Migrated, false)
                    else Request(sare, sapr, false, secretName), answers)
      ensures error.None? && migrated.None? ==> client.store == old(client.store)
    {
      var pc := ReadMigration(sare, sapr, secretName);
      OneStep(client.store, m, pc, answers);
      var read := migrationSource.Credentials(sare, sapr, answers(pc));
      if read.Failure? {
        return None, Some(read.error);
      }
      if read.value.None? {
        return None, None;
      }
      var name;
      name, error := StoreMigrated(sare, read.value.value, answers, m);
      return Some(name), error;
    }

    method StoreMigrated(sare: Sare, credentials: Creds, answers: Answers, ghost m: Memory)
      returns (secretName: Name, error: Option<Error>)
      requires Valid()
      modifies client
      ensures Leads(old(client.store), m, Store(sare, credentials, true), client.store, m,
                    if error.Some? then PersistFailed(sare, error.value)
                    else PersistReady(sare, secretName, Reason.Migrated, false), answers)
    {
      OneStep(client.store, m, Store(sare, credentials, true), answers);
      secretName, error := secretManager.CreateOrUpdate(sare, credentials, answers(Store(sare, credentials, true)));
    }

    /** A rotation is asked for exactly if there is no secret; a PUT that fails may have taken effect all the same. */
    method RequestCredentials(sare: Sare, sapr: Sapr, secretExists: bool, reply: Reply)
      returns (credentials: Option<Creds>, error: Option<Error>)
      modifies client
      ensures sapr.http.None? ==> client.store == old(client.store) && error == Some(NoHttpSpec(sapr.name))
      ensures sapr.http.Some? ==>
        && error == (if reply.ok then None else Some(CallFailed(reply.text)))
        && (error.None? ==> credentials == reply.body)
        && var put := Put(AccountAt(sapr, sare), sare.spec.params, !secretExists);
           client.store == if reply.ok || reply.applied then Asked(old(client.store), put) else old(client.store)
      ensures sapr.http.Some? && (reply.ok || reply.applied) ==>
        var c, account := old(client.store), Account(sapr.name, sare.spec.consumer);
        client.store == c.(puts := c.puts + [Put(account, sare.spec.params, !secretExists)],
                           accounts := c.accounts + {account}, released := c.released - {account})
    {
      if sapr.http.None? {
        return None, Some(NoHttpSpec(sapr.name));
      }
      var rotateServiceAccountNow := false;
      if !secretExists {
        rotateServiceAccountNow := true;
      }
      if reply.ok || reply.applied {
        client.store := client.store.(
          puts := client.store.puts + [Put(AccountAt(sapr, sare), sare.spec.params, rotateServiceAccountNow)],
          accounts := client.store.accounts + {AccountAt(sapr, sare)},
          released := client.store.released - {AccountAt(sapr, sare)});
      }
      if !reply.ok {
        return None, Some(CallFailed(reply.text));
      }
      return reply.body, None;
    }

    method RequestAndStore(sare: Sare, sapr: Sapr, secretExists: bool, secretName: Name, answers: Answers,
                           ghost m: Memory)
      returns (outcome: Outcome)
      requires Valid()
      modifies client
      ensures Leads(old(client.store), m, Request(sare, sapr, secretExists, secretName), client.store, m,
                    AfterCreateOrUpdate(outcome, sare), answers)
    {
      var pc := Request(sare, sapr, secretExists, secretName);
      OneStep(client.store, m, pc, answers);
      var credentials, error := RequestCredentials(sare, sapr, secretExists, answers(pc));
      if error.Some? {
        return Aborted(error);
      }
      if credentials.None? {
        return Unchanged(secretName);
      }
      OneStep(client.store, m, Store(sare, credentials.value, false), answers);
      var name;
      name, error := secretManager.CreateOrUpdate(sare, credentials.value,
        answers(Store(sare, credentials.value, false)));
      return if error.Some? then Aborted(error) else Rotated(name);
    }

    /** createOrUpdate: the secret, the watcher, the producer, and then the credentials. */
    method CreateOrUpdate(sare: ServiceAccountRequest, answers: Answers) returns (outcome: Outcome)
      requires Valid()
      modifies this, created, client, sare
      ensures Valid() && fresh(set r | r in created && r !in old(created))
      ensures Leads(old(client.store), old(Mem()), CheckSecret(old(sare.value)),
                    client.store, Mem(), AfterCreateOrUpdate(outcome, sare.value), answers)
    {
      var reply := answers(CheckSecret(sare.value));
      var secretExists, secretName, error := secretManager.Exists(sare.value, reply);
      OneStep(client.store, Mem(), CheckSecret(sare.value), answers);
      if error.Some? {
        return Aborted(error);
      }
      outcome := WatchAndProvide(sare, secretExists, secretName, answers);
    }

    method WatchAndProvide(sare: ServiceAccountRequest, secretExists: bool, secretName: Name, answers: Answers)
      returns (outcome: Outcome)
      requires Valid() && secretName == ResolveSecretName(sare.value)
      modifies this, created, client, sare
      ensures Valid() && fresh(set r | r in created && r !in old(created))
      ensures Leads(old(client.store), old(Mem()), SetRunner(old(sare.value), secretExists),
                    client.store, Mem(), AfterCreateOrUpdate(outcome, sare.value), answers)
    {
      OneStep(client.store, Mem(), SetRunner(sare.value, secretExists), answers);
      var error := HandleSaRotationWatcher(sare, secretExists, answers(SetRunner(sare.value, secretExists)));
      if error.Some? {
        return Aborted(error);
      }
      outcome := Provide(sare, secretExists, secretName, answers, Mem());
    }

    method Provide(sare: ServiceAccountRequest, secretExists: bool, secretName: Name, answers: Answers, ghost m: Memory)
      returns (outcome: Outcome)
      requires Valid()
      modifies client, sare
      ensures Leads(old(client.store), m, FindProducer(old(sare.value), secretExists, secretName),
                    client.store, m, AfterCreateOrUpdate(outcome, sare.value), answers)
    {
      var sapr;
      sapr, outcome := GetProducerForCreateOrUpdate(sare, secretExists, secretName, answers, m);
      if sapr.None? {
        return outcome;
      }
      if !secretExists {
        var migrated, error := MigrateCredentials(sare.value, sapr.value, secretName, answers, m);
        if error.Some? {
          return Aborted(error);
        } else if migrated.Some? {
          return Outcome.Migrated(migrated.value);
        }
      }
      outcome := RequestAndStore(sare.value, sapr.value, secretExists, secretName, answers, m);
    }

    /** The status tells how it went; what fails is tried again. */
    method ReconcileCreateOrUpdate(sare: ServiceAccountRequest, answers: Answers) returns (error: Option<Error>)
      requires Valid()
      modifies this, created, client, sare
      ensures Valid() && fresh(set r | r in created && r !in old(created))
      ensures Leads(old(client.store), old(Mem()), CheckSecret(old(sare.value)), client.store, Mem(), Done(error),
          answers)
    {
      var outcome := CreateOrUpdate(sare, answers);
      error := Report(sare, outcome, answers, Mem());
    }

    method Report(sare: ServiceAccountRequest, outcome: Outcome, answers: Answers, ghost m: Memory)
      returns (error: Option<Error>)
      requires Valid()
      modifies client, sare
      ensures Leads(old(client.store), m, AfterCreateOrUpdate(outcome, old(sare.value)), client.store, m, Done(error),
          answers)
    {
      match outcome
      case Panicked(cause) => return Some(cause);
      case Aborted(None) => return None;
      case Aborted(Some(e)) =>
        error := FailWithReason(sare, FailureReason(e), e, answers, m);
      case Migrated(secretName) =>
        var pc := PersistReady(sare.value, secretName, Reason.Migrated, false);
        OneStep(client.store, m, pc, answers);
        error := ServiceAccountMigrated(client, sare, secretName, answers(pc));
      case _ =>
        var pc := PersistReady(sare.value, outcome.secretName, Created, outcome.Rotated?);
        OneStep(client.store, m, pc, answers);
        error := StatusConditions.ServiceAccountReady(client, sare, outcome.secretName, outcome.Rotated?, answers(pc));
    }

    /** A status patch that fails is only logged; the pass fails with the original error. */
    method FailWithReason(sare: ServiceAccountRequest, reason: Reason, err: Error, answers: Answers, ghost m: Memory)
      returns (error: Option<Error>)
      requires reason == FailureReason(err)
      modifies client, sare
      ensures error == Some(err)
      ensures Leads(old(client.store), m, PersistFailed(old(sare.value), err), client.store, m, Done(error), answers)
    {
      OneStep(client.store, m, PersistFailed(sare.value, err), answers);
      var patchErr := ServiceAccountFailed(client, sare, reason, err, answers(PersistFailed(sare.value, err)));
      return Some(err);
    }

    /** An update of the whole object carries the version that was read, and fails if the stored one is another. */
    method Update(read: Sare, next: Sare, reply: Reply) returns (notFound: bool, error: Option<Error>)
      requires next.name == read.name
      modifies client
      ensures error.None? <==>
        reply.ok && read.name in old(client.store.sares) && old(client.store.sares)[read.name] == read
      ensures error.Some? ==> error == Some(CallFailed(reply.text)) && client.store == old(client.store)
      ensures notFound <==> reply.ok && read.name !in old(client.store.sares)
      ensures error.None? ==> client.store == old(client.store).(sares :=
        if next.deletedAt.Some? && !next.finalizer && !next.foreign then old(client.store.sares) - {next.name}
        else old(client.store.sares)[next.name := next])
    {
      if !reply.ok {
        return false, Some(CallFailed(reply.text));
      }
      if read.name !in client.store.sares {
        return true, Some(CallFailed(reply.text));
      }
      if client.store.sares[read.name] != read {
        return false, Some(CallFailed(reply.text));
      }
      if next.deletedAt.Some? && !next.finalizer && !next.foreign {
        client.store := client.store.(sares := client.store.sares - {next.name});
      } else {
        client.store := client.store.(sares := client.store.sares[next.name := next]);
      }
      return false, None;
    }

    method AddFinalizer(sare: ServiceAccountRequest, answers: Answers, ghost m: Memory) returns (error: Option<Error>)
      requires sare.value.deletedAt.None?
      modifies client, sare
      ensures error.None? ==> sare.value == old(sare.value).(finalizer := true)
      ensures var c, s, reply := old(client.store), old(sare.value), answers(Pc.AddFinalizer(old(sare.value)));
        && (error.None? <==> reply.ok && s.name in c.sares && c.sares[s.name] == s)
        && client.store == if error.None? then c.(sares := c.sares[s.name := s.(finalizer := true)]) else c
      ensures Leads(old(client.store), m, Pc.AddFinalizer(old(sare.value)), client.store, m,
                    if error.None? then CheckSecret(sare.value) else Done(error), answers)
    {
      var read := sare.value;
      OneStep(client.store, m, Pc.AddFinalizer(read), answers);
      sare.value := sare.value.(finalizer := true);
      var notFound;
      notFound, error := Update(read, sare.value, answers(Pc.AddFinalizer(read)));
    }

    /** A SARE that is already gone is no error. */
    method RemoveFinalizer(sare: ServiceAccountRequest, why: Why, answers: Answers, ghost m: Memory)
      returns (error: Option<Error>)
      requires sare.value.finalizer && sare.value.deletedAt.Some?
      modifies client, sare
      ensures var c, s, reply := old(client.store), old(sare.value), answers(DropFinalizer(old(sare.value), why));
        && (error.None? <==> reply.ok && (s.name in c.sares ==> c.sares[s.name] == s))
        && (error.Some? ==> error == Some(CallFailed(reply.text)))
        && (error.Some? || s.name !in c.sares ==> client.store == c)
        && (error.None? && s.name in c.sares ==>
              client.store.sares == if s.foreign then c.sares[s.name := s.(finalizer := false)] else c.sares - {s.name})
      ensures Leads(old(client.store), m, DropFinalizer(old(sare.value), why), client.store, m, Done(error), answers)
    {
      var read, pc := sare.value, DropFinalizer(sare.value, why);
      OneStep(client.store, m, pc, answers);
      sare.value := sare.value.(finalizer := false);
      var notFound;
      notFound, error := Update(read, sare.value, answers(pc));
      if notFound {
        return None;
      }
      if error.None? && !why.AccountGone? {
        client.store := client.store.(released := client.store.released + {AccountOf(read)});
      }
    }

    /** Tells why the finalizer may go now, or what went wrong. */
    method DeleteServiceAccount(sare: Sare, answers: Answers, ghost m: Memory) returns (why: Why, error: Option<Error>)
      modifies client
      ensures Leads(old(client.store), m, FindProducerToDelete(sare), client.store, m,
                    if error.None? then DropFinalizer(sare, why) else PersistFailed(sare, error.value), answers)
    {
      why := AccountGone;
      OneStep(client.store, m, FindProducerToDelete(sare), answers);
      var sapr;
      sapr, error := GetProducer(sare.spec.producer, answers(FindProducerToDelete(sare)));
      if error.Some? {
        return;
      }
      if sapr.None? {
        return ProducerGone, None;
      }
      error := DeleteAtProducer(sare, sapr.value, answers, m);
    }

    /** At a producer that is there: an account that does not exist need not be deleted. */
    method DeleteAtProducer(sare: Sare, sapr: Sapr, answers: Answers, ghost m: Memory) returns (error: Option<Error>)
      modifies client
      ensures Leads(old(client.store), m, CheckAccount(sare, sapr), client.store, m,
                    if error.None? then DropFinalizer(sare, AccountGone) else PersistFailed(sare, error.value), answers)
    {
      var check := CheckAccount(sare, sapr);
      OneStep(client.store, m, check, answers);
      if sapr.http.None? {
        return Some(NoHttpSpec(sapr.name));
      }
      if !answers(check).ok {
        return Some(CallFailed(answers(check).text));
      }
      if AccountOf(sare) !in client.store.accounts {
        return None;
      }
      OneStep(client.store, m, DeleteAccount(sare), answers);
      var reply := answers(DeleteAccount(sare));
      if reply.ok || reply.applied {
        client.store := client.store.(accounts := client.store.accounts - {AccountOf(sare)});
      }
      if !reply.ok {
        return Some(CallFailed(reply.text));
      }
      StampLastExecution(sare, answers, m);
      return None;
    }

    /** A patch that fails is only logged. */
    method StampLastExecution(sare: Sare, answers: Answers, ghost m: Memory)
      modifies client
      ensures Leads(old(client.store), m, StampProducer(sare), client.store, m, DropFinalizer(sare, AccountGone),
          answers)
    {
      OneStep(client.store, m, StampProducer(sare), answers);
      if answers(StampProducer(sare)).ok && sare.spec.producer in client.store.producers {
        client.store := client.store.(executions := client.store.executions[sare.spec.producer := client.store.clock]);
      }
    }

    method ReconcileDelete(sare: ServiceAccountRequest, answers: Answers) returns (error: Option<Error>)
      requires Valid() && sare.value.deletedAt.Some? && answers(Begin(sare.value.name)).ok
      requires sare.value.name in client.store.sares && client.store.sares[sare.value.name] == sare.value
      modifies this, created, client, sare
      ensures Valid() && created == old(created)
      ensures Leads(old(client.store), old(Mem()), Begin(old(sare.value.name)), client.store, Mem(), Done(error),
          answers)
    {
      OneStep(client.store, Mem(), Begin(sare.value.name), answers);
      DeleteSaRotationWatcher(sare.value);
      if !sare.value.finalizer {
        return None;
      }
      if client.store.clock - sare.value.deletedAt.value > deletionTimeout {
        error := RemoveFinalizer(sare, TimedOut, answers, Mem());
        return;
      }
      var why;
      why, error := DeleteServiceAccount(sare.value, answers, Mem());
      if error.Some? {
        error := FailWithReason(sare, FailureReason(error.value), error.value, answers, Mem());
        return;
      }
      error := RemoveFinalizer(sare, why, answers, Mem());
    }

    /** A pass of the program is a pass of the state machine that nothing interrupts. */
    method Reconcile(name: Name, answers: Answers) returns (error: Option<Error>)
      requires Valid()
      requires name in client.store.sares ==> client.store.sares[name].name == name
      modifies this, created, client
      ensures Valid() && fresh(set r | r in created && r !in old(created))
      ensures var end := Run(old(client.store), old(Mem()), Begin(name), answers);
        client.store == end.c && Mem() == end.m && error == end.pc.result
    {
      OneStep(client.store, Mem(), Begin(name), answers);
      if !answers(Begin(name)).ok {
        return Some(CallFailed(answers(Begin(name)).text));
      }
      if name !in client.store.sares {
        return None;
      }
      var sare := new ServiceAccountRequest(client.store.sares[name]);
      error := ReconcileFound(sare, name, answers);
    }

    method ReconcileFound(sare: ServiceAccountRequest, name: Name, answers: Answers) returns (error: Option<Error>)
      requires Valid() && answers(Begin(name)).ok && name == sare.value.name
      requires name in client.store.sares && client.store.sares[name] == sare.value
      modifies this, created, client, sare
      ensures Valid() && fresh(set r | r in created && r !in old(created))
      ensures Leads(old(client.store), old(Mem()), Begin(name), client.store, Mem(), Done(error), answers)
    {
      if sare.value.deletedAt.Some? {
        error := ReconcileDelete(sare, answers);
        return;
      }
      OneStep(client.store, Mem(), Begin(name), answers);
      if !sare.value.finalizer {
        error := AddFinalizer(sare, answers, Mem());
        if error.Some? {
          return;
        }
      }
      error := ReconcileCreateOrUpdate(sare, answers);
    }

    /** The closure of rotateSaSecretFunc, with nothing between its calls. */
    method RotateSaSecret(sare: ServiceAccountRequest, replies: (Reply, Reply, Reply)) returns (code: nat)
      requires Valid()
      modifies client, sare
      ensures client.store == FiredAlone(old(client.store), old(sare.value), replies).c
      ensures var c, s, ref := old(client.store), old(sare.value), old(sare.value).spec.secretRef;
        var n := if ref == None || ref == Some("") then s.name else ref.value;
        && (code == 0 <==> replies.0.ok && (n in c.secrets ==> c.secrets[n].owner == Some(s.uid) && replies.2.ok))
        && (!replies.0.ok || n !in c.secrets || c.secrets[n].owner != Some(s.uid) ==> client.store == c)
        && (replies.0.ok && n in c.secrets && c.secrets[n].owner == Some(s.uid)
            && s.name in c.sares && c.sares[s.name] == s ==>
              && client.store.secrets == (if replies.2.ok then c.secrets - {n} else c.secrets)
              && client.store.sares ==
                 (if replies.1.ok then
                    var ready := Some(Condition(false, RotationInProgress, None, s.generation));
                    c.sares[s.name := s.(status := Status(None, s.status.lastRotation, ready))]
                  else c.sares))
    {
      var present, secretName, error := secretManager.Exists(sare.value, replies.0);
      if error.Some? {
        return 1;
      }
      if !present {
        return 0;
      }
      error := ServiceAccountNotReadyForRotation(client, sare, replies.1);
      error := secretManager.Delete(sare.value, replies.2);
      return if error.Some? then 1 else 0;
    }

    /** The List comes in any order; a List that fails wakes nobody. */
    method EnqueueRequestsForProducer(producer: Name, listed: bool) returns (requests: seq<Name>)
      ensures forall k :: k in requests <==>
        listed && k in client.store.sares && client.store.sares[k].spec.producer == producer
      ensures (set k | k in requests) == Requests(client.store, producer, listed)
      ensures forall i, j | 0 <= i < j < |requests| :: requests[i] != requests[j]
    {
      requests := [];
      if !listed {
        return;
      }
      var todo := client.store.sares.Keys;
      while todo != {}
        invariant todo <= client.store.sares.Keys
        invariant forall k :: k in requests <==>
          k in client.store.sares && k !in todo && client.store.sares[k].spec.producer == producer
        invariant forall i, j | 0 <= i < j < |requests| :: requests[i] != requests[j]
      {
        var name :| name in todo;
        todo := todo - {name};
        if client.store.sares[name].spec.producer == producer {
          requests := requests + [name];
        }
      }
    }
  }

  /** The calls of one rotation job on the SARE that its closure holds, one after the other. */
  function FiredAlone(c: Cluster, captured: Sare, replies: (Reply, Reply, Reply)): World {
    var fired := World(c, Memory(map[], [], 0, ""), {}, None, None, map[0 := Job(captured, ToCheck)]);
    var checked := JobNext(fired, 0, captured.status, replies.0);
    if 0 !in checked.jobs then checked
    else JobNext(JobNext(checked, 0, captured.status, replies.1), 0, captured.status, replies.2)
  }
}
