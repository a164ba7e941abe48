/**
 The objects the operator reads and writes: requests (SAREs), producers (SAPRs), secrets and the accounts that
 producers hold. All of them live in one namespace, the only one the operator's cache watches, so an object is
 known by its name.
 */
module Api {
  import opened Wrappers

  type Name = string
  type Creds = map<string, string>

  datatype Rotation = Rotation(enabled: bool, expression: string)

  datatype Spec = Spec(
    producer: Name,
    consumer: string,
    optional: bool,
    secretRef: Option<Name>,
    rotation: Option<Rotation>,
    params: map<string, string>)

  /** What can go wrong in a pass. An error is what the condition message is made of. */
  datatype Error =
    | CallFailed(text: string)
    | SecretConflict(secret: Name)
    | ProducerMissing(producer: Name)
    | NoHttpSpec(producer: Name)
    | MigrationIncomplete(secret: Name, missing: seq<string>)

  datatype Reason = Created | Migrated | RotationInProgress | ProducerNotFound | Failed | MigrationFailed

  /** The ServiceAccountReady condition, the only condition type a SARE carries. */
  datatype Condition = Condition(ok: bool, reason: Reason, message: Option<Error>, observedGeneration: nat)

  datatype Status = Status(secretRef: Option<Name>, lastRotation: Option<nat>, ready: Option<Condition>)

  /** `finalizer` is the operator's own finalizer, `foreign` stands for anybody else's; `dogu` is the dogu label. */
  datatype Sare = Sare(
    name: Name,
    uid: nat,
    generation: nat,
    deletedAt: Option<nat>,
    finalizer: bool,
    foreign: bool,
    dogu: string,
    spec: Spec,
    status: Status)

  /** The HTTP strategy of a producer: where it listens, and the attributes it declares to return. */
  datatype Http = Http(endpoint: string, attributes: set<string>)

  datatype Sapr = Sapr(name: Name, uid: nat, http: Option<Http>)

  /** `owner` is the uid of the controlling SARE. */
  datatype Secret = Secret(owner: Option<nat>, data: Creds)

  datatype Account = Account(producer: Name, consumer: string)

  /** One PUT that took effect at a producer. */
  datatype Put = Put(account: Account, params: map<string, string>, rotate: bool)

  /**
   `executions` is the lastExecution that this controller stamps on producers. `born[u]` is the name of the SARE that
   got uid `u`; uids are never reused. `puts` and `released` are histories: the PUTs that took effect so far, and the
   accounts whose finalizer was dropped, after their last PUT, without the account being gone.
   */
  datatype Cluster = Cluster(
    sares: map<Name, Sare>,
    producers: map<Name, Sapr>,
    executions: map<Name, nat>,
    secrets: map<Name, Secret>,
    accounts: set<Account>,
    puts: seq<Put>,
    released: set<Account>,
    born: seq<Name>,
    clock: nat)

  /**
   What the outside answers to one call. A refused call (`ok` false) carries the error text; a request to a producer
   may have taken effect although its reply was lost (`applied`). `body` holds the credentials of a PUT, or none for
   204 and for a JSON null.
   */
  datatype Reply = Reply(ok: bool, text: string, applied: bool, body: Option<Creds>)

  function ResolveSecretName(sare: Sare): Name {
    if sare.spec.secretRef.Some? && sare.spec.secretRef.value != "" then sare.spec.secretRef.value else sare.name
  }

  function AccountOf(sare: Sare): Account {
    Account(sare.spec.producer, sare.spec.consumer)
  }

  predicate RotationEnabled(sare: Sare) {
    sare.spec.rotation.Some? && sare.spec.rotation.value.enabled
  }

  /** The secret called `n` exists and is controlled by the SARE with uid `uid`. */
  predicate Controls(c: Cluster, uid: nat, n: Name) {
    n in c.secrets && c.secrets[n].owner == Some(uid)
  }

  /** A merge patch writes exactly the fields in which `next` differs from `base` (RFC 7386, section 2). */
  function MergePatch(stored: Status, base: Status, next: Status): Status {
    Status(
      if next.secretRef != base.secretRef then next.secretRef else stored.secretRef,
      if next.lastRotation != base.lastRotation then next.lastRotation else stored.lastRotation,
      if next.ready != base.ready then next.ready else stored.ready)
  }

  /** The status subresource of `name` after a merge patch; a missing object is left missing. */
  function PatchStatus(c: Cluster, name: Name, base: Status, next: Status): Cluster {
    if name in c.sares then
      c.(sares := c.sares[name := c.sares[name].(status := MergePatch(c.sares[name].status, base, next))])
    else c
  }

  /** The keys woken by a deletion event of secret `n`: its controlling SARE, by name. */
  function OwnerOf(c: Cluster, n: Name): set<Name> {
    if n in c.secrets && c.secrets[n].owner.Some? && c.secrets[n].owner.value < |c.born|
    then {c.born[c.secrets[n].owner.value]} else {}
  }

  function DeleteSecret(c: Cluster, n: Name): Cluster {
    c.(secrets := c.secrets - {n})
  }

  /** Creates the secret for `uid`, or merges the credentials into the data it already has. */
  function WriteSecret(c: Cluster, n: Name, uid: nat, creds: Creds): Cluster {
    if n in c.secrets then
      c.(secrets := c.secrets[n := Secret(Some(uid), c.secrets[n].data + creds)])
    else
      c.(secrets := c.secrets[n := Secret(Some(uid), creds)])
  }

  /** A PUT takes effect: the account is there, and whatever was given up before is taken up again. */
  function Asked(c: Cluster, put: Put): Cluster {
    c.(puts := c.puts + [put], accounts := c.accounts + {put.account}, released := c.released - {put.account})
  }

  /** The Kubernetes client: every component of the operator shares this one view of the cluster. */
  class Client {
    var store: Cluster

    constructor (store: Cluster)
      ensures this.store == store
    {
      this.store := store;
    }
  }
}
