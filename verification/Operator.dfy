/**
 The whole system as a state machine: the cluster and the producers, the work queue with its single worker, the
 rotation jobs that fire beside it, and the events that put keys on the queue
 (internal/controller/request/controller.go, SetupWithManager). Between any two calls of a pass or of a job, users,
 the garbage collector and the other components may act.
 */
module Operator {
  import opened Wrappers
  import opened Api
  import opened Registry
  import opened Pass

  datatype Running = Running(key: Name, pc: Pc)

  datatype Phase = ToCheck | ToPatch | ToDelete

  /** A firing of a rotation runner, with the SARE that its closure captured. */
  datatype Job = Job(sare: Sare, phase: Phase)

  /**
   A deduplicating queue: a key that comes in while its pass runs waits for the next pass. `shared` is the runner that
   the pass in flight has started, if it has: the closure of that runner and the pass hold the same SARE object.
   */
  datatype World = World(
    c: Cluster,
    m: Memory,
    queue: set<Name>,
    pass: Option<Running>,
    shared: Option<nat>,
    jobs: map<nat, Job>)

  datatype Event =
    | Start(key: Name)
    | Call(reply: Reply)
    | Finish
    | Fire(id: nat, sare: Sare)
    | JobCall(id: nat, base: Status, reply: Reply)
    | ApplySare(key: Name, spec: Spec, dogu: string)
    | DeleteSare(key: Name)
    | SetForeignFinalizer(key: Name, present: bool)
    | StripFinalizer(key: Name)
    | ApplyProducer(sapr: Sapr, listed: bool)
    | DeleteProducer(producer: Name, listed: bool)
    | ProducerGotReady(producer: Name, listed: bool)
    | PutSecret(secret: Name, data: Creds)
    | RemoveSecret(secret: Name)
    | Collect(secret: Name)
    | Restart
    | Tick

  const NO_STATUS := Status(None, None, None)

  predicate Vanished(c: Cluster, uid: nat) {
    forall k | k in c.sares :: c.sares[k].uid != uid
  }

  /** The pass is past its watcher step. */
  predicate Providing(pc: Pc) {
    pc.FindProducer? || pc.DropSecret? || pc.PersistNotFound? || pc.ReadMigration? || pc.Request? || pc.Store? ||
    pc.PersistReady? || pc.PersistFailed?
  }

  /** The pass in flight holds the same SARE object as the closure of this runner. */
  predicate Shares(w: World, id: nat) {
    w.shared == Some(id) && w.pass.Some? && Providing(w.pass.value.pc)
  }

  predicate Enabled(w: World, e: Event) {
    match e
    case Start(key) => w.pass.None? && key in w.queue
    case Call(_) => w.pass.Some? && !w.pass.value.pc.Done?
    case Finish => w.pass.Some? && w.pass.value.pc.Done?
    case Fire(id, sare) =>
      && id < |w.m.runners| && w.m.runners[id].running && id !in w.jobs
      && w.m.runners[id].key == NamespacedName(sare.name, w.m.namespace)
      && sare.uid < |w.c.born| && w.c.born[sare.uid] == sare.name
      && (Shares(w, id) ==> sare == w.pass.value.pc.sare)
    case JobCall(id, _, _) => id in w.jobs
    case Collect(n) =>
      n in w.c.secrets && w.c.secrets[n].owner.Some? && Vanished(w.c, w.c.secrets[n].owner.value)
    case _ => true
  }

  /** A SARE without finalizers goes away when it is deleted; its deletion event wakes its key. */
  function SetSare(w: World, sare: Sare): World {
    if sare.deletedAt.Some? && !sare.finalizer && !sare.foreign then
      w.(c := w.c.(sares := w.c.sares - {sare.name}), queue := w.queue + {sare.name})
    else
      w.(c := w.c.(sares := w.c.sares[sare.name := sare]))
  }

  function Wake(w: World, keys: set<Name>): World {
    w.(queue := w.queue + keys)
  }

  /** GenerationChangedPredicate: a change of the spec bumps the generation and wakes, a change of labels does not. */
  function ApplySareNext(w: World, key: Name, spec: Spec, dogu: string): World {
    if key !in w.c.sares then
      var sare := Sare(key, |w.c.born|, 1, None, false, false, dogu, spec, NO_STATUS);
      Wake(w.(c := w.c.(sares := w.c.sares[key := sare], born := w.c.born + [key])), {key})
    else
      var sare := w.c.sares[key];
      if spec == sare.spec then w.(c := w.c.(sares := w.c.sares[key := sare.(dogu := dogu)]))
      else
        var sare' := sare.(spec := spec, dogu := dogu, generation := sare.generation + 1);
        Wake(w.(c := w.c.(sares := w.c.sares[key := sare'])), {key})
  }

  /** The deletion timestamp bumps the generation, too. */
  function DeleteSareNext(w: World, key: Name): World {
    if key !in w.c.sares || w.c.sares[key].deletedAt.Some? then w
    else
      var sare := w.c.sares[key];
      Wake(SetSare(w, sare.(deletedAt := Some(w.c.clock), generation := sare.generation + 1)), {key})
  }

  /** enqueueRequestsForProducer; a failing List wakes nobody. */
  function Requests(c: Cluster, producer: Name, listed: bool): set<Name> {
    if listed then set k | k in c.sares && c.sares[k].spec.producer == producer else {}
  }

  function ApplyProducerNext(w: World, sapr: Sapr, listed: bool): World {
    if sapr.name in w.c.producers && w.c.producers[sapr.name] == sapr then w
    else Wake(w.(c := w.c.(producers := w.c.producers[sapr.name := sapr])), Requests(w.c, sapr.name, listed))
  }

  function DeleteProducerNext(w: World, producer: Name, listed: bool): World {
    if producer !in w.c.producers then w
    else Wake(w.(c := w.c.(producers := w.c.producers - {producer}, executions := w.c.executions - {producer})),
      Requests(w.c, producer, listed))
  }

  /** Users may create secrets and change their data, but nobody else makes a SARE the controller of a secret. */
  function PutSecretNext(w: World, n: Name, data: Creds): World {
    var secret := if n in w.c.secrets then w.c.secrets[n].(data := data) else Secret(None, data);
    w.(c := w.c.(secrets := w.c.secrets[n := secret]))
  }

  /** Of the events of secrets only deletions wake, and they wake the controlling SARE. */
  function RemoveSecretNext(w: World, n: Name): World {
    Wake(w.(c := Api.DeleteSecret(w.c, n)), OwnerOf(w.c, n))
  }

  /** A write that succeeds overwrites the object in memory with the stored one. */
  function Refreshed(c: Cluster, sare: Sare): Sare {
    if sare.name in c.sares then c.sares[sare.name] else sare
  }

  /** The patch of a job changes the copy of the pass, too, if they share it. */
  function PassAfterPatch(w: World, id: nat, c': Cluster, next: Status, r: Reply): Option<Running> {
    if Shares(w, id) then
      var Running(key, pc) := w.pass.value;
      Some(Running(key, pc.(sare := if r.ok then Refreshed(c', pc.sare) else pc.sare.(status := next))))
    else w.pass
  }

  /**
   One call of a rotation job; `base` is the status in the captured SARE at that moment. The patch brings the captured
   SARE up to date, so that the deletion may go to another name than the check did.
   */
  function JobNext(w: World, id: nat, base: Status, r: Reply): World
    requires id in w.jobs
  {
    var Job(sare, phase) := w.jobs[id];
    match phase
    case ToCheck =>
      if r.ok && Controls(w.c, sare.uid, ResolveSecretName(sare))
      then w.(jobs := w.jobs[id := Job(sare, ToPatch)])
      else w.(jobs := w.jobs - {id})
    case ToPatch =>
      var next := NotReadyForRotation(sare.(status := base));
      var c' := if r.ok then PatchStatus(w.c, sare.name, base, next) else w.c;
      w.(c := c', pass := PassAfterPatch(w, id, c', next, r),
         jobs := w.jobs[id := Job(if r.ok then Refreshed(c', sare) else sare, ToDelete)])
    case ToDelete =>
      var done := w.(jobs := w.jobs - {id});
      if r.ok then RemoveSecretNext(done, ResolveSecretName(sare)) else done
  }

  /** A new operator process: empty memory, and the initial List wakes every SARE. */
  function RestartNext(w: World): World {
    World(w.c, w.m.(watch := map[], runners := []), w.c.sares.Keys, None, None, map[])
  }

  /** A failed pass is tried again. */
  function FinishNext(w: World, running: Running): World
    requires running.pc.Done?
  {
    w.(pass := None, shared := None, queue := if running.pc.result.Some? then w.queue + {running.key} else w.queue)
  }

  /** A status patch of a pass that goes through brings its copy up to date. */
  predicate PatchesStatus(c: Cluster, pc: Pc, r: Reply) {
    (pc.PersistReady? || pc.PersistNotFound? || pc.PersistFailed?) && r.ok && pc.sare.name in c.sares
  }

  /** It changes the SARE of a job, too, if they share it. */
  function JobsAfterPatch(w: World, c': Cluster, pc: Pc, r: Reply): map<nat, Job> {
    if w.shared.Some? && w.shared.value in w.jobs && PatchesStatus(w.c, pc, r) then
      var id := w.shared.value;
      w.jobs[id := w.jobs[id].(sare := Refreshed(c', w.jobs[id].sare))]
    else w.jobs
  }

  /** The runner that the pass has started, as of this call. */
  function SharedAfter(w: World, pc: Pc, r: Reply): Option<nat> {
    if pc.SetRunner? && RotationEnabled(pc.sare) && r.ok then Some(|w.m.runners|) else w.shared
  }

  ghost function CallNext(w: World, running: Running, r: Reply): World {
    var pc := running.pc;
    var a := Step(w.c, w.m, pc, r);
    World(a.c, a.m, w.queue + a.woken, Some(Running(running.key, a.pc)), SharedAfter(w, pc, r),
          JobsAfterPatch(w, a.c, pc, r))
  }

  ghost function Next(w: World, e: Event): World
    requires Enabled(w, e)
  {
    match e
    case Start(key) => w.(queue := w.queue - {key}, pass := Some(Running(key, Begin(key))), shared := None)
    case Call(r) => CallNext(w, w.pass.value, r)
    case Finish => FinishNext(w, w.pass.value)
    case Fire(id, sare) => w.(jobs := w.jobs[id := Job(sare, ToCheck)])
    case JobCall(id, base, r) => JobNext(w, id, base, r)
    case ApplySare(key, spec, dogu) => ApplySareNext(w, key, spec, dogu)
    case DeleteSare(key) => DeleteSareNext(w, key)
    case SetForeignFinalizer(key, present) =>
      if key in w.c.sares && !(present && w.c.sares[key].deletedAt.Some?)
      then SetSare(w, w.c.sares[key].(foreign := present)) else w
    case StripFinalizer(key) => if key in w.c.sares then SetSare(w, w.c.sares[key].(finalizer := false)) else w
    case ApplyProducer(sapr, listed) => ApplyProducerNext(w, sapr, listed)
    case DeleteProducer(p, listed) => DeleteProducerNext(w, p, listed)
    case ProducerGotReady(p, listed) => Wake(w, Requests(w.c, p, listed))
    case PutSecret(n, data) => PutSecretNext(w, n, data)
    case RemoveSecret(n) => RemoveSecretNext(w, n)
    case Collect(n) => RemoveSecretNext(w, n)
    case Restart => RestartNext(w)
    case Tick => w.(c := w.c.(clock := w.c.clock + 1))
  }

  /** Every event of the run can happen when its turn comes. */
  ghost predicate Legal(w: World, run: seq<Event>)
    decreases |run|
  {
    run == [] || (Enabled(w, run[0]) && Legal(Next(w, run[0]), run[1..]))
  }

  ghost function Exec(w: World, run: seq<Event>): World
    requires Legal(w, run)
    decreases |run|
  {
    if run == [] then w else Exec(Next(w, run[0]), run[1..])
  }

  const OK := Reply(true, "", false, None)

  predicate NothingFails(run: seq<Event>) {
    forall i | 0 <= i < |run| :: (run[i].Call? || run[i].JobCall? ==> run[i].reply.ok)
  }

  /** An operator that has just started, on whatever cluster it finds. */
  ghost predicate Initial(w: World) {
    && w.queue == w.c.sares.Keys && w.pass.None? && w.shared.None? && w.jobs == map[]
    && w.m.watch == map[] && w.m.runners == []
    && ClusterFormed(w.c)
  }

  /** Uids tell SAREs apart, over time, and name the SARE they were given to; objects are stored under their names. */
  ghost predicate ClusterFormed(c: Cluster) {
    && (forall p | p in c.producers :: c.producers[p].name == p)
    && (forall k | k in c.sares :: Formed(c, c.sares[k]) && c.sares[k].name == k)
    && (forall n | n in c.secrets && c.secrets[n].owner.Some? :: c.secrets[n].owner.value < |c.born|)
  }

  predicate Formed(c: Cluster, sare: Sare) {
    sare.uid < |c.born| && c.born[sare.uid] == sare.name
  }

  predicate HasSare(pc: Pc) {
    !pc.Begin? && !pc.Done?
  }

  ghost predicate WellFormed(w: World) {
    && ClusterFormed(w.c)
    && (forall id | id in w.jobs :: Formed(w.c, w.jobs[id].sare))
    && (w.pass.Some? ==> PassFormed(w.c, w.pass.value))
    && SharingFormed(w)
  }

  /** Sharing begins with the watcher step, and what is shared is one SARE. */
  ghost predicate SharingFormed(w: World) {
    && (forall id | id in w.jobs :: id < |w.m.runners|)
    && (w.pass.Some? && w.shared.Some? ==> Providing(w.pass.value.pc) || w.pass.value.pc.Done?)
    && (forall id | id in w.jobs && Shares(w, id) :: w.jobs[id].sare.name == w.pass.value.key)
  }

  ghost predicate PassFormed(c: Cluster, running: Running) {
    && (running.pc.Begin? ==> running.pc.key == running.key)
    && (HasSare(running.pc) ==> Formed(c, running.pc.sare) && running.pc.sare.name == running.key)
  }

  predicate ReadsOnly(pc: Pc) {
    pc.Begin? || pc.CheckSecret? || pc.SetRunner? || pc.FindProducer? || pc.ReadMigration? ||
    pc.FindProducerToDelete? || pc.CheckAccount? || pc.Done?
  }

  /** The calls that leave SAREs, producers and secrets as they are. */
  predicate KeepsObjects(pc: Pc) {
    ReadsOnly(pc) || pc.Request? || pc.DeleteAccount? || pc.StampProducer?
  }

  predicate SameObjects(c: Cluster, c': Cluster) {
    c'.sares == c.sares && c'.secrets == c.secrets && c'.producers == c.producers && c'.born == c.born
      && c'.clock == c.clock
  }

  lemma KeepsObjectsCorrect(c: Cluster, m: Memory, pc: Pc, r: Reply)
    requires KeepsObjects(pc)
    ensures var a := Step(c, m, pc, r); SameObjects(c, a.c) && a.woken == {}
    ensures ReadsOnly(pc) ==> Step(c, m, pc, r).c == c
  {
  }

  predicate WritesSecret(pc: Pc) {
    pc.DropSecret? || pc.Store?
  }

  /** Of the cluster's objects these calls write at most the secret of the SARE; a removal wakes its controller. */
  lemma WritesOneSecret(c: Cluster, m: Memory, pc: Pc, r: Reply)
    requires WritesSecret(pc)
    ensures var a, n := Step(c, m, pc, r), ResolveSecretName(pc.sare);
      && a.c == c.(secrets := a.c.secrets)
      && (forall o | o != n ::
            (o in a.c.secrets <==> o in c.secrets) && (o in c.secrets ==> a.c.secrets[o] == c.secrets[o]))
      && (n in c.secrets && n !in a.c.secrets ==> OwnerOf(c, n) <= a.woken)
      && (n in a.c.secrets && (n !in c.secrets || a.c.secrets[n] != c.secrets[n]) ==>
            a.c.secrets[n].owner == Some(pc.sare.uid) && (n in c.secrets ==> Controls(c, pc.sare.uid, n)))
  {
  }

  /** All other calls write at most the SARE of the pass. */
  lemma WritesOwnSare(c: Cluster, m: Memory, pc: Pc, r: Reply)
    requires !KeepsObjects(pc) && !WritesSecret(pc)
    ensures var a := Step(c, m, pc, r);
      && a.c == c.(sares := a.c.sares, released := a.c.released)
      && (forall k | k != pc.sare.name ::
            (k in a.c.sares <==> k in c.sares) && (k in c.sares ==> a.c.sares[k] == c.sares[k]))
  {
  }

  /** A pass keeps to the SARE it was started for, and to the copy it read. */
  lemma StepKeepsSare(c: Cluster, m: Memory, pc: Pc, r: Reply)
    requires !pc.Done?
    ensures var a := Step(c, m, pc, r);
      && (HasSare(pc) && HasSare(a.pc) ==> a.pc.sare.name == pc.sare.name && a.pc.sare.uid == pc.sare.uid)
      && (pc.Begin? && HasSare(a.pc) ==> pc.key in c.sares && a.pc.sare == c.sares[pc.key])
      && !a.pc.Begin?
  {
  }

  lemma StepFormed(c: Cluster, m: Memory, running: Running, r: Reply)
    requires ClusterFormed(c) && PassFormed(c, running) && !running.pc.Done?
    ensures var a := Step(c, m, running.pc, r);
      a.c.born == c.born && ClusterFormed(a.c) && PassFormed(a.c, Running(running.key, a.pc))
  {
    StepKeepsSare(c, m, running.pc, r);
    StepDescends(c, m, running.pc, r);
    if KeepsObjects(running.pc) {
      KeepsObjectsCorrect(c, m, running.pc, r);
    } else {
      WriteFormed(c, m, running.pc, r);
    }
  }

  lemma WriteFormed(c: Cluster, m: Memory, pc: Pc, r: Reply)
    requires ClusterFormed(c) && !KeepsObjects(pc) && Formed(c, pc.sare)
    ensures var a := Step(c, m, pc, r); a.c.born == c.born && ClusterFormed(a.c)
  {
  }

  predicate EditsSares(e: Event) {
    e.ApplySare? || e.DeleteSare? || e.SetForeignFinalizer? || e.StripFinalizer?
  }

  predicate EditsSecrets(e: Event) {
    e.PutSecret? || e.RemoveSecret? || e.Collect?
  }

  predicate EditsProducers(e: Event) {
    e.ApplyProducer? || e.DeleteProducer? || e.ProducerGotReady?
  }

  lemma NextFormed(w: World, e: Event)
    requires WellFormed(w) && Enabled(w, e)
    ensures WellFormed(Next(w, e))
    ensures w.c.born <= Next(w, e).c.born
  {
    if e.Call? {
      CallFormed(w, e.reply);
    } else if EditsSares(e) {
      EditSaresFormed(w, e);
    } else if e.JobCall? {
      JobFormed(w, e.id, e.base, e.reply);
    } else {
      OtherFormed(w, e);
    }
  }

  lemma CallFormed(w: World, r: Reply)
    requires WellFormed(w) && Enabled(w, Call(r))
    ensures WellFormed(Next(w, Call(r))) && Next(w, Call(r)).c.born == w.c.born
  {
    StepFormed(w.c, w.m, w.pass.value, r);
    CallKeepsSharing(w, r);
  }

  lemma CallKeepsSharing(w: World, r: Reply)
    requires WellFormed(w) && Enabled(w, Call(r)) && ClusterFormed(Next(w, Call(r)).c)
    ensures SharingFormed(Next(w, Call(r)))
    ensures forall id | id in w.jobs :: id in Next(w, Call(r)).jobs
    ensures forall id | id in Next(w, Call(r)).jobs ::
      && id in w.jobs && Next(w, Call(r)).jobs[id].phase == w.jobs[id].phase
      && Next(w, Call(r)).jobs[id].sare.name == w.jobs[id].sare.name
      && (Next(w, Call(r)).jobs[id].sare == w.jobs[id].sare
          || Formed(Next(w, Call(r)).c, Next(w, Call(r)).jobs[id].sare))
  {
    StepKeepsProviding(w.c, w.m, w.pass.value.pc, r);
  }

  lemma StepKeepsProviding(c: Cluster, m: Memory, pc: Pc, r: Reply)
    ensures var a := Step(c, m, pc, r);
      && |m.runners| <= |a.m.runners|
      && (Providing(pc) || pc.Done? ==> Providing(a.pc) || a.pc.Done?)
      && (pc.SetRunner? ==> Providing(a.pc))
      && (pc.SetRunner? && RotationEnabled(pc.sare) && r.ok ==> |m.runners| < |a.m.runners|)
  {
  }

  function KeyOf(e: Event): Name
    requires EditsSares(e)
  {
    match e
    case ApplySare(key, _, _) => key
    case DeleteSare(key) => key
    case SetForeignFinalizer(key, _) => key
    case StripFinalizer(key) => key
  }

  /** What users can do to a SARE: every change that matters wakes its key, and its status stays. */
  ghost predicate SareEdited(w: World, w': World, key: Name) {
    && w' == World(w'.c, w.m, w'.queue, w.pass, w.shared, w.jobs)
    && w'.c == w.c.(sares := w'.c.sares, born := w'.c.born)
    && (forall k | k in w.c.sares && k != key :: k in w'.c.sares && w'.c.sares[k] == w.c.sares[k])
    && (forall k | k in w'.c.sares && k != key :: k in w.c.sares)
    && w.queue <= w'.queue
    && (key in w'.c.sares && key in w.c.sares ==>
          && w'.c.born == w.c.born
          && SameIdentity(w.c.sares[key], w'.c.sares[key])
          && (key !in w'.queue ==> SameRequest(w.c.sares[key], w'.c.sares[key])))
    && (key in w'.c.sares && key !in w.c.sares ==>
          && w'.c.born == w.c.born + [key] && key in w'.queue
          && w'.c.sares[key].name == key && w'.c.sares[key].uid == |w.c.born| && w'.c.sares[key].status == NO_STATUS)
    && (key !in w'.c.sares ==> w'.c.born == w.c.born && (key in w.c.sares ==> key in w'.queue))
  }

  predicate SameIdentity(s: Sare, s': Sare) {
    s'.name == s.name && s'.uid == s.uid && s'.status == s.status
  }

  predicate SameRequest(s: Sare, s': Sare) {
    s'.spec == s.spec && s'.generation == s.generation && s'.deletedAt == s.deletedAt
  }

  lemma EditSaresEffect(w: World, e: Event)
    requires ClusterFormed(w.c) && EditsSares(e)
    ensures SareEdited(w, Next(w, e), KeyOf(e))
  {
    if e.ApplySare? {
      ApplySareEffect(w, e.key, e.spec, e.dogu);
    } else if e.DeleteSare? {
      DeleteSareEffect(w, e.key);
    } else if e.key in w.c.sares {
      var sare := w.c.sares[e.key];
      SetSareEffect(w, if e.SetForeignFinalizer? then sare.(foreign := e.present) else sare.(finalizer := false));
    }
  }

  lemma ApplySareEffect(w: World, key: Name, spec: Spec, dogu: string)
    requires ClusterFormed(w.c)
    ensures SareEdited(w, ApplySareNext(w, key, spec, dogu), key)
  {
  }

  lemma DeleteSareEffect(w: World, key: Name)
    requires ClusterFormed(w.c)
    ensures SareEdited(w, DeleteSareNext(w, key), key)
  {
  }

  lemma SetSareEffect(w: World, sare: Sare)
    requires sare.name in w.c.sares && SameIdentity(w.c.sares[sare.name], sare)
        && SameRequest(w.c.sares[sare.name], sare)
    ensures SareEdited(w, SetSare(w, sare), sare.name)
  {
  }

  /** Only a user who strips the finalizer takes it away. */
  lemma EditKeepsFinalizer(w: World, e: Event, k: Name)
    requires ClusterFormed(w.c) && EditsSares(e) && !e.StripFinalizer? && k in w.c.sares && w.c.sares[k].finalizer
    ensures var c' := Next(w, e).c; k in c'.sares && c'.sares[k].finalizer
    ensures var t := Next(w, e).c.sares[k]; w.c.sares[k].deletedAt.Some? ==> t.deletedAt == w.c.sares[k].deletedAt
  {
    if e.ApplySare? {
      ApplySareKeepsFinalizer(w, e.key, e.spec, e.dogu, k);
    } else if e.DeleteSare? {
      DeleteSareKeepsFinalizer(w, e.key, k);
    } else if e.key in w.c.sares {
      assert SetSare(w, w.c.sares[e.key].(foreign := e.present)).c.sares.Keys >= w.c.sares.Keys - {e.key};
    }
  }

  lemma ApplySareKeepsFinalizer(w: World, key: Name, spec: Spec, dogu: string, k: Name)
    requires k in w.c.sares && w.c.sares[k].finalizer
    ensures var c' := ApplySareNext(w, key, spec, dogu).c;
      k in c'.sares && c'.sares[k].finalizer && c'.sares[k].deletedAt == w.c.sares[k].deletedAt
  {
  }

  lemma DeleteSareKeepsFinalizer(w: World, key: Name, k: Name)
    requires ClusterFormed(w.c) && k in w.c.sares && w.c.sares[k].finalizer
    ensures var c' := DeleteSareNext(w, key).c; k in c'.sares && c'.sares[k].finalizer
    ensures w.c.sares[k].deletedAt.Some? ==> DeleteSareNext(w, key).c.sares[k].deletedAt == w.c.sares[k].deletedAt
  {
  }

  lemma EditSaresFormed(w: World, e: Event)
    requires WellFormed(w) && EditsSares(e)
    ensures WellFormed(Next(w, e))
    ensures w.c.born <= Next(w, e).c.born
  {
    EditSaresEffect(w, e);
    EditedFormed(w, Next(w, e), KeyOf(e));
  }

  lemma EditedFormed(w: World, w': World, key: Name)
    requires WellFormed(w) && SareEdited(w, w', key)
    ensures WellFormed(w') && w.c.born <= w'.c.born
  {
  }

  lemma JobFormed(w: World, id: nat, base: Status, r: Reply)
    requires WellFormed(w) && id in w.jobs
    ensures var w' := JobNext(w, id, base, r); WellFormed(w') && w'.c.born == w.c.born
  {
    if w.jobs[id].phase.ToPatch? {
      JobPatchFormed(w, id, base, r);
    }
  }

  /** What the patch of a job does to jobs and pass: only SAREs change, to ones of the same name. */
  ghost predicate JobPatched(w: World, w': World, id: nat)
    requires id in w.jobs
  {
    && ClusterFormed(w'.c) && w'.c.born == w.c.born && w'.m == w.m && w'.shared == w.shared
    && id in w'.jobs && w'.jobs == w.jobs[id := w'.jobs[id]]
    && Formed(w'.c, w'.jobs[id].sare) && w'.jobs[id].sare.name == w.jobs[id].sare.name
    && (w'.pass == w.pass
        || (&& w.pass.Some? && w'.pass.Some? && w'.pass.value.key == w.pass.value.key
            && Providing(w.pass.value.pc) && Providing(w'.pass.value.pc)
            && w'.pass.value.pc.sare.name == w.pass.value.pc.sare.name && Formed(w'.c, w'.pass.value.pc.sare)))
  }

  lemma JobPatchEffect(w: World, id: nat, base: Status, r: Reply)
    requires WellFormed(w) && id in w.jobs && w.jobs[id].phase.ToPatch?
    ensures JobPatched(w, JobNext(w, id, base, r), id)
  {
    var sare := w.jobs[id].sare;
    PatchFormed(w.c, sare.name, base, NotReadyForRotation(sare.(status := base)));
  }

  lemma JobPatchedFormed(w: World, w': World, id: nat)
    requires WellFormed(w) && id in w.jobs && JobPatched(w, w', id)
    ensures WellFormed(w')
  {
    assert forall i | i in w'.jobs ::
      i in w.jobs && w'.jobs[i].sare.name == w.jobs[i].sare.name && Formed(w'.c, w'.jobs[i].sare);
  }

  lemma JobPatchFormed(w: World, id: nat, base: Status, r: Reply)
    requires WellFormed(w) && id in w.jobs && w.jobs[id].phase.ToPatch?
    ensures var w' := JobNext(w, id, base, r); WellFormed(w') && w'.c.born == w.c.born
  {
    JobPatchEffect(w, id, base, r);
    JobPatchedFormed(w, JobNext(w, id, base, r), id);
  }

  lemma PatchFormed(c: Cluster, name: Name, base: Status, next: Status)
    requires ClusterFormed(c)
    ensures ClusterFormed(PatchStatus(c, name, base, next)) && PatchStatus(c, name, base, next).born == c.born
  {
  }

  lemma OtherFormed(w: World, e: Event)
    requires WellFormed(w) && Enabled(w, e) && !EditsSares(e) && !e.Call? && !e.JobCall?
    ensures WellFormed(Next(w, e))
    ensures w.c.born == Next(w, e).c.born
  {
    if EditsProducers(e) || EditsSecrets(e) {
      ObjectsFormed(w, e);
    }
  }

  lemma ObjectsFormed(w: World, e: Event)
    requires WellFormed(w) && Enabled(w, e) && (EditsProducers(e) || EditsSecrets(e))
    ensures var w' := Next(w, e);
      && ClusterFormed(w'.c) && w'.c.born == w.c.born
      && w'.m == w.m && w'.pass == w.pass && w'.shared == w.shared && w'.jobs == w.jobs
  {
    if EditsSecrets(e) {
      SecretsFormed(w, e);
    }
  }

  lemma SecretsFormed(w: World, e: Event)
    requires ClusterFormed(w.c) && Enabled(w, e) && EditsSecrets(e)
    ensures ClusterFormed(Next(w, e).c)
  {
  }

  /** Apart from users and passes, nobody changes more of a SARE than its status. */
  ghost predicate OnlyStatus(c: Cluster, c': Cluster) {
    && (forall k :: k in c'.sares <==> k in c.sares)
    && (forall k | k in c.sares :: c'.sares[k] == c.sares[k].(status := c'.sares[k].status))
    && c'.accounts == c.accounts && c'.released == c.released && c'.puts == c.puts && c'.born == c.born
    && c.clock <= c'.clock
  }

  /** At most the SARE of the pass differs, and it then is up to date or differs in the status only. */
  predicate PassKept(w: World, w': World) {
    || w'.pass == w.pass
    || (&& w.pass.Some? && w'.pass.Some? && w'.pass.value.key == w.pass.value.key && Providing(w.pass.value.pc)
        && Providing(w'.pass.value.pc) && w'.pass.value.pc == w.pass.value.pc.(sare := w'.pass.value.pc.sare)
        && var s, s' := w.pass.value.pc.sare, w'.pass.value.pc.sare;
           s' == Refreshed(w'.c, s) || s' == s.(status := s'.status))
  }

  lemma OutsideKeepsSares(w: World, e: Event)
    requires Enabled(w, e) && !EditsSares(e) && !e.Call?
    ensures OnlyStatus(w.c, Next(w, e).c)
    ensures !e.Start? && !e.Finish? && !e.Restart? ==> PassKept(w, Next(w, e)) && Next(w, e).m == w.m
    ensures !e.Start? && !e.Finish? && !e.Restart? && !e.JobCall? ==> Next(w, e).pass == w.pass
  {
    if e.JobCall? {
      JobKeepsSares(w, e.id, e.base, e.reply);
    }
  }

  lemma JobKeepsSares(w: World, id: nat, base: Status, r: Reply)
    requires id in w.jobs
    ensures var w' := JobNext(w, id, base, r); OnlyStatus(w.c, w'.c) && PassKept(w, w') && w'.m == w.m
    ensures !(w.jobs[id].phase.ToPatch? && Shares(w, id)) ==> JobNext(w, id, base, r).pass == w.pass
  {
  }
}
