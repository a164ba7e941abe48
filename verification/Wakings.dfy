/**
 Whom an event puts on the work queue, and whom it does not (internal/controller/request/controller.go,
 SetupWithManager); and that the generation of a SARE, on which its own events are filtered, tells whether there is
 anything new to reconcile.
 */
module Wakings {
  import opened Wrappers
  import opened Api
  import opened Registry
  import opened Pass
  import opened Operator

  /** The secret is there, and was made for a SARE of this name. */
  predicate MadeFor(c: Cluster, n: Name, k: Name) {
    && n in c.secrets && c.secrets[n].owner.Some?
    && c.secrets[n].owner.value < |c.born| && c.born[c.secrets[n].owner.value] == k
  }

  /** The SARE is there and asks for this producer. */
  predicate AsksFor(c: Cluster, k: Name, producer: Name) {
    k in c.sares && c.sares[k].spec.producer == producer
  }

  /** The last finalizer of a deleted SARE goes, and the SARE with it. */
  predicate Disappears(c: Cluster, k: Name, finalizer: bool, foreign: bool) {
    k in c.sares && c.sares[k].deletedAt.Some? && !finalizer && !foreign
  }

  /** A call of a pass wakes by removing a secret, or by dropping the last finalizer of the SARE that was read. */
  predicate CallWakes(c: Cluster, pc: Pc, r: Reply, k: Name) {
    || (pc.DropSecret? && r.ok && MadeFor(c, ResolveSecretName(pc.sare), k))
    || (pc.DropFinalizer? && r.ok && k == pc.sare.name && k in c.sares && c.sares[k] == pc.sare && !pc.sare.foreign)
  }

  /** The reasons for an event to put the key on the queue. */
  predicate Wakes(w: World, e: Event, k: Name)
    requires Enabled(w, e)
  {
    match e
    case ApplySare(key, spec, _) => k == key && (k in w.c.sares ==> w.c.sares[k].spec != spec)
    case DeleteSare(key) => k == key && k in w.c.sares && w.c.sares[k].deletedAt.None?
    case SetForeignFinalizer(key, present) =>
      k == key && k in w.c.sares && Disappears(w.c, k, w.c.sares[k].finalizer, present)
    case StripFinalizer(key) => k == key && k in w.c.sares && Disappears(w.c, k, false, w.c.sares[k].foreign)
    case ApplyProducer(sapr, listed) =>
      listed && AsksFor(w.c, k, sapr.name) && (sapr.name in w.c.producers ==> w.c.producers[sapr.name] != sapr)
    case DeleteProducer(producer, listed) => listed && AsksFor(w.c, k, producer) && producer in w.c.producers
    case ProducerGotReady(producer, listed) => listed && AsksFor(w.c, k, producer)
    case RemoveSecret(n) => MadeFor(w.c, n, k)
    case Collect(n) => MadeFor(w.c, n, k)
    case Call(r) => CallWakes(w.c, w.pass.value.pc, r, k)
    case JobCall(id, _, r) =>
      w.jobs[id].phase.ToDelete? && r.ok && MadeFor(w.c, ResolveSecretName(w.jobs[id].sare), k)
    case Finish => w.pass.value.pc.result.Some? && k == w.pass.value.key
    case Restart => k in w.c.sares
    case _ => false
  }

  /** After any event exactly those keys are queued that were before, unless their pass starts, and those it wakes. */
  lemma QueuedIff(w: World, e: Event, k: Name)
    requires WellFormed(w) && Enabled(w, e)
    ensures k in Next(w, e).queue <==>
      Wakes(w, e, k) || (k in w.queue && !(e.Start? && e.key == k) && !e.Restart?)
  {
    if e.Call? {
      CallQueues(w.c, w.m, w.pass.value.pc, e.reply, k);
    } else if EditsSares(e) {
      EditQueues(w, e, k);
    }
  }

  lemma CallQueues(c: Cluster, m: Memory, pc: Pc, r: Reply, k: Name)
    ensures k in Step(c, m, pc, r).woken <==> CallWakes(c, pc, r, k)
  {
  }

  lemma EditQueues(w: World, e: Event, k: Name)
    requires WellFormed(w) && EditsSares(e)
    ensures k in Next(w, e).queue <==> Wakes(w, e, k) || k in w.queue
  {
    if e.DeleteSare? {
      DeleteQueues(w, e.key, k);
    }
  }

  lemma DeleteQueues(w: World, key: Name, k: Name)
    requires ClusterFormed(w.c)
    ensures k in DeleteSareNext(w, key).queue <==>
      (k == key && k in w.c.sares && w.c.sares[k].deletedAt.None?) || k in w.queue
  {
  }

  /** A producer event whose List succeeds wakes all SAREs of this producer, and no event wakes any other SARE. */
  lemma ProducerWakesItsRequests(w: World, e: Event, k: Name)
    requires WellFormed(w) && EditsProducers(e)
    ensures var p := if e.ApplyProducer? then e.sapr.name else e.producer;
      && (k in Next(w, e).queue ==>
            k in w.queue || (e.listed && k in w.c.sares && w.c.sares[k].spec.producer == p))
      && (e.listed && k in w.c.sares && w.c.sares[k].spec.producer == p ==>
            e.ProducerGotReady? || Next(w, e).c.producers != w.c.producers ==> k in Next(w, e).queue)
  {
    QueuedIff(w, e, k);
  }

  /** What a user writes is what is stored, and of a SARE that is there nothing else changes but the generation. */
  lemma ApplyIsStored(w: World, key: Name, spec: Spec, dogu: string)
    requires ClusterFormed(w.c)
    ensures var c, c' := w.c, ApplySareNext(w, key, spec, dogu).c;
      && key in c'.sares && c'.sares == c.sares[key := c'.sares[key]] && c'.secrets == c.secrets
      && (key in c.sares ==>
            c'.sares[key] == c.sares[key].(spec := spec, dogu := dogu, generation := c'.sares[key].generation))
      && (key !in c.sares ==>
            && c'.born == c.born + [key]
            && c'.sares[key] == Sare(key, |c.born|, 1, None, false, false, dogu, spec, Status(None, None, None)))
  {
  }

  /** A deleted SARE waits for its finalizers with a timestamp, and without any it is gone at once. */
  lemma DeletionIsStored(w: World, key: Name)
    requires ClusterFormed(w.c) && key in w.c.sares && w.c.sares[key].deletedAt.None?
    ensures var s, c' := w.c.sares[key], DeleteSareNext(w, key).c;
      c' == w.c.(sares :=
        if s.finalizer || s.foreign then
          w.c.sares[key := s.(deletedAt := Some(w.c.clock), generation := s.generation + 1)]
        else w.c.sares - {key})
  {
  }

  /** A restart is a start: nothing is left of the memory, no runner runs, and all SAREs are queued. */
  lemma RestartStartsOver(w: World)
    requires WellFormed(w)
    ensures var w' := Next(w, Restart);
      Initial(w') && w'.c == w.c && w'.m == Memory(map[], [], w.m.timeout, w.m.namespace)
  {
  }

  /** The SARE under this name with this uid. */
  predicate Is(c: Cluster, k: Name, uid: nat) {
    k in c.sares && c.sares[k].uid == uid
  }

  /** One event: the generation counts exactly the changes of spec and deletion timestamp, and such a change wakes. */
  ghost predicate Counts(w: World, w': World, k: Name)
    requires k in w.c.sares && k in w'.c.sares
  {
    var s, t := w.c.sares[k], w'.c.sares[k];
    if t.spec == s.spec && t.deletedAt == s.deletedAt then t.generation == s.generation
    else t.generation == s.generation + 1 && k in w'.queue
  }

  lemma NextCounts(w: World, e: Event, k: Name, uid: nat)
    requires WellFormed(w) && Enabled(w, e) && Is(Next(w, e).c, k, uid)
    ensures if Is(w.c, k, uid) then Counts(w, Next(w, e), k) else uid >= |w.c.born|
  {
    if e.Call? {
      CallCounts(w, e.reply, k, uid);
    } else if EditsSares(e) {
      EditCounts(w, e, k, uid);
    } else {
      OutsideKeepsSares(w, e);
    }
  }

  lemma CallCounts(w: World, r: Reply, k: Name, uid: nat)
    requires WellFormed(w) && Enabled(w, Event.Call(r)) && Is(Next(w, Event.Call(r)).c, k, uid)
    ensures Is(w.c, k, uid) && Counts(w, Next(w, Event.Call(r)), k)
  {
    var pc := w.pass.value.pc;
    if KeepsObjects(pc) {
      KeepsObjectsCorrect(w.c, w.m, pc, r);
    } else if WritesSecret(pc) {
      WritesOneSecret(w.c, w.m, pc, r);
    } else {
      WritesOwnSare(w.c, w.m, pc, r);
      OwnSareKeeps(w.c, w.m, pc, r);
    }
  }

  lemma OwnSareKeeps(c: Cluster, m: Memory, pc: Pc, r: Reply)
    requires !KeepsObjects(pc) && !WritesSecret(pc)
    ensures var k, c' := pc.sare.name, Step(c, m, pc, r).c;
      k in c'.sares ==>
        && k in c.sares
        && var s, t := c.sares[k], c'.sares[k];
           t.uid == s.uid && t.spec == s.spec && t.deletedAt == s.deletedAt && t.generation == s.generation
  {
  }

  lemma EditCounts(w: World, e: Event, k: Name, uid: nat)
    requires WellFormed(w) && EditsSares(e) && Is(Next(w, e).c, k, uid)
    ensures if Is(w.c, k, uid) then Counts(w, Next(w, e), k) else uid >= |w.c.born|
  {
    if e.ApplySare? {
      ApplyCounts(w, e.key, e.spec, e.dogu, k, uid);
    } else if e.DeleteSare? {
      DeleteCounts(w, e.key, k, uid);
    } else if e.key in w.c.sares {
      var sare := w.c.sares[e.key];
      SetCounts(w, if e.SetForeignFinalizer? then sare.(foreign := e.present) else sare.(finalizer := false), k, uid);
    }
  }

  lemma ApplyCounts(w: World, key: Name, spec: Spec, dogu: string, k: Name, uid: nat)
    requires ClusterFormed(w.c) && Is(ApplySareNext(w, key, spec, dogu).c, k, uid)
    ensures if Is(w.c, k, uid) then Counts(w, ApplySareNext(w, key, spec, dogu), k) else uid >= |w.c.born|
  {
  }

  lemma DeleteCounts(w: World, key: Name, k: Name, uid: nat)
    requires ClusterFormed(w.c) && Is(DeleteSareNext(w, key).c, k, uid)
    ensures Is(w.c, k, uid) && Counts(w, DeleteSareNext(w, key), k)
  {
  }

  lemma SetCounts(w: World, sare: Sare, k: Name, uid: nat)
    requires sare.name in w.c.sares && SameRequest(w.c.sares[sare.name], sare) && w.c.sares[sare.name].uid == sare.uid
    requires Is(SetSare(w, sare).c, k, uid)
    ensures Is(w.c, k, uid) && Counts(w, SetSare(w, sare), k)
  {
  }

  lemma {:induction false} GoneForGood(w: World, run: seq<Event>, k: Name, uid: nat)
    requires WellFormed(w) && Legal(w, run) && !Is(w.c, k, uid) && uid < |w.c.born|
    ensures !Is(Exec(w, run).c, k, uid)
    decreases |run|
  {
    if run != [] {
      var w' := Next(w, run[0]);
      NextFormed(w, run[0]);
      if Is(w'.c, k, uid) {
        NextCounts(w, run[0], k, uid);
      }
      GoneForGood(w', run[1..], k, uid);
    }
  }

  /**
   Over any run, the generation of a SARE never falls, and it is the same at two moments only if spec and deletion
   timestamp are: a status observed for the current generation has been written for the current request.
   */
  lemma {:induction false} GenerationTells(w: World, run: seq<Event>, k: Name)
    requires WellFormed(w) && Legal(w, run) && k in w.c.sares && Is(Exec(w, run).c, k, w.c.sares[k].uid)
    ensures var s, t := w.c.sares[k], Exec(w, run).c.sares[k];
      && s.generation <= t.generation
      && (s.generation == t.generation ==> t.spec == s.spec && t.deletedAt == s.deletedAt)
    decreases |run|
  {
    if run != [] {
      var w' := Next(w, run[0]);
      NextFormed(w, run[0]);
      if !Is(w'.c, k, w.c.sares[k].uid) {
        GoneForGood(w', run[1..], k, w.c.sares[k].uid);
      } else {
        NextCounts(w, run[0], k, w.c.sares[k].uid);
        GenerationTells(w', run[1..], k);
      }
    }
  }
}
