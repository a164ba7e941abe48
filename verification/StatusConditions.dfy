/**
 The status transitions of a SARE (internal/controller/request/status_conditions.go), on the object in memory and on
 the stored one. The value-level counterparts of the contracts are the functions of module Pass.
 */
module StatusConditions {
  import opened Wrappers
  import opened Api
  import opened Pass
  import opened Operator

  /** A SARE in memory, which passes and rotation closures share and update in place. */
  class ServiceAccountRequest {
    var value: Sare

    constructor (value: Sare)
      ensures this.value == value
    {
      this.value := value;
    }
  }

  /** A patch of the status subresource went through, or it did not. */
  predicate Patchable(c: Cluster, sare: Sare, reply: Reply) {
    reply.ok && sare.name in c.sares
  }

  /**
   From the stored cluster `c` and the SARE `was` in memory, writing `next` as the new status ends in `c'` and `now`: by
   a merge patch that goes through, or with an error and a SARE that is changed in memory only.
   */
  predicate Persisted(c: Cluster, was: Sare, next: Status, reply: Reply, c': Cluster, now: Sare, error: Option<Error>) {
    if Patchable(c, was, reply) then
      error == None && c' == PatchStatus(c, was.name, was.status, next) && now == Refreshed(c', was)
    else
      error == Some(CallFailed(reply.text)) && c' == c && now == was.(status := next)
  }

  /**
   setAndPersist. The merge base is taken before the status changes in memory. A patch that succeeds brings the object
   up to date with the server, a patch that fails leaves it changed.
   */
  method SetAndPersist(client: Client, sare: ServiceAccountRequest, mutateStatus: Status -> Status, ok: bool,
                       reason: Reason,
                       message: Option<Error>, reply: Reply)
    returns (error: Option<Error>)
    modifies client, sare
    ensures Persisted(old(client.store), old(sare.value),
                      mutateStatus(old(sare.value.status)).(
                        ready := Some(Condition(ok, reason, message, old(sare.value.generation)))),
                      reply, client.store, sare.value, error)
  {
    var patchBase := sare.value.status;
    sare.value := sare.value.(status := mutateStatus(sare.value.status));
    var condition := Condition(ok, reason, message, sare.value.generation);
    sare.value := sare.value.(status := sare.value.status.(ready := Some(condition)));
    if !reply.ok || sare.value.name !in client.store.sares {
      return Some(CallFailed(reply.text));
    }
    client.store := PatchStatus(client.store, sare.value.name, patchBase, sare.value.status);
    sare.value := client.store.sares[sare.value.name];
    return None;
  }

  /** secretRef stays as it is. */
  method ProducerNotFound(client: Client, sare: ServiceAccountRequest, reply: Reply) returns (error: Option<Error>)
    modifies client, sare
    ensures var was := old(sare.value);
      var next := NotReady(was, Reason.ProducerNotFound, ProducerMissing(was.spec.producer));
      && Persisted(old(client.store), was, next, reply, client.store, sare.value, error)
      && next == Status(was.status.secretRef, was.status.lastRotation,
                        Some(Condition(false, Reason.ProducerNotFound, Some(ProducerMissing(was.spec.producer)),
                                       was.generation)))
  {
    error := SetAndPersist(client, sare, status => status, false, Reason.ProducerNotFound,
                           Some(ProducerMissing(sare.value.spec.producer)), reply);
  }

  method ServiceAccountReady(client: Client, sare: ServiceAccountRequest, secretName: Name, isRotation: bool,
                             reply: Reply)
    returns (error: Option<Error>)
    modifies client, sare
    ensures var was, now := old(sare.value), old(client.store.clock);
      var next := Ready(was, secretName, Created, isRotation, now);
      && Persisted(old(client.store), was, next, reply, client.store, sare.value, error)
      && next == Status(Some(secretName), if isRotation then Some(now) else was.status.lastRotation,
                        Some(Condition(true, Created, None, was.generation)))
  {
    var now := client.store.clock;
    error := SetAndPersist(client, sare,
      (status: Status) => Status(Some(secretName), if isRotation then Some(now) else status.lastRotation, status.ready),
      true, Created, None, reply);
  }

  method ServiceAccountMigrated(client: Client, sare: ServiceAccountRequest, secretName: Name, reply: Reply)
    returns (error: Option<Error>)
    modifies client, sare
    ensures var was := old(sare.value);
      var next := Ready(was, secretName, Reason.Migrated, false, old(client.store.clock));
      && Persisted(old(client.store), was, next, reply, client.store, sare.value, error)
      && next == Status(Some(secretName), was.status.lastRotation,
                        Some(Condition(true, Reason.Migrated, None, was.generation)))
  {
    error := SetAndPersist(client, sare, (status: Status) => status.(secretRef := Some(secretName)), true,
        Reason.Migrated, None, reply);
  }

  method ServiceAccountNotReadyForRotation(client: Client, sare: ServiceAccountRequest, reply: Reply)
    returns (error: Option<Error>)
    modifies client, sare
    ensures var was, next := old(sare.value), NotReadyForRotation(old(sare.value));
      && Persisted(old(client.store), was, next, reply, client.store, sare.value, error)
      && next == Status(None, was.status.lastRotation,
                        Some(Condition(false, RotationInProgress, None, was.generation)))
  {
    error := SetAndPersist(client, sare, (status: Status) => status.(secretRef := None), false, RotationInProgress,
        None, reply);
  }

  method ServiceAccountFailed(client: Client, sare: ServiceAccountRequest, reason: Reason, err: Error, reply: Reply)
    returns (error: Option<Error>)
    modifies client, sare
    ensures var was, next := old(sare.value), NotReady(old(sare.value), reason, err);
      && Persisted(old(client.store), was, next, reply, client.store, sare.value, error)
      && next == Status(was.status.secretRef, was.status.lastRotation,
                        Some(Condition(false, reason, Some(err), was.generation)))
  {
    error := SetAndPersist(client, sare, status => status, false, reason, Some(err), reply);
  }
}
