/**
 The queue drains: once users, rotations and the producer controller hold still and no pass fails, only finitely many
 steps of the worker and of the garbage collector remain, and what they leave has converged.
 */
module Drain {
  import opened Api
  import opened Registry
  import opened Pass
  import opened Operator
  import opened Wakeup

  /** A step of the worker, without a failing pass, or of the garbage collector. */
  predicate Working(w: World, e: Event) {
    && Enabled(w, e)
    && (e.Start? || e.Call? || e.Collect? || (e.Finish? && w.pass.value.pc.result.None?))
  }

  /** The secret has lost its SARE, or its SARE has lost its producer. */
  predicate Doomed(c: Cluster, n: Name) {
    && n in c.secrets && c.secrets[n].owner.Some?
    && var u := c.secrets[n].owner.value;
       || u >= |c.born| || c.born[u] !in c.sares || c.sares[c.born[u]].uid != u
       || c.sares[c.born[u]].spec.producer !in c.producers
  }

  function DoomedSecrets(c: Cluster): set<Name> {
    set n | n in c.secrets && Doomed(c, n)
  }

  function Work(w: World): nat {
    13 * |w.queue| + (if w.pass.None? then 0 else Rank(w.pass.value.pc) + 1)
  }

  /** Lexicographic: fewer SAREs, or as many and fewer doomed secrets, or as many of both and less work. */
  predicate Closer(w: World, w': World) {
    || |w'.c.sares| < |w.c.sares|
    || (|w'.c.sares| == |w.c.sares| && |DoomedSecrets(w'.c)| < |DoomedSecrets(w.c)|)
    || (|w'.c.sares| == |w.c.sares| && |DoomedSecrets(w'.c)| == |DoomedSecrets(w.c)| && Work(w') < Work(w))
  }

  /** While nobody interferes, a pass knows its SARE, the presence of its producer and the state of its secret. */
  predicate Informed(c: Cluster, pc: Pc) {
    && (HasSare(pc) ==>
          pc.sare.name in c.sares && c.sares[pc.sare.name].uid == pc.sare.uid
            && c.sares[pc.sare.name].spec == pc.sare.spec)
    && (pc.SetRunner? || pc.FindProducer? || pc.DropSecret? ==>
          ResolveSecretName(pc.sare) in c.secrets ==> Controls(c, pc.sare.uid, ResolveSecretName(pc.sare)))
    && (pc.DropSecret? ==> pc.sare.spec.producer !in c.producers)
    && (pc.ReadMigration? || pc.Request? || pc.Store? ==> pc.sare.spec.producer in c.producers)
  }

  ghost predicate Frozen(w: World) {
    WellFormed(w) && (w.pass.Some? ==> Informed(w.c, w.pass.value.pc))
  }

  lemma StepInformed(c: Cluster, m: Memory, running: Running, r: Reply)
    requires ClusterFormed(c) && PassFormed(c, running) && Informed(c, running.pc) && !running.pc.Done?
    ensures var a := Step(c, m, running.pc, r); Informed(a.c, a.pc)
  {
    var pc := running.pc;
    if ReadsOnly(pc) {
      ReadInformed(c, m, pc, r);
    } else if KeepsObjects(pc) || WritesSecret(pc) {
      StoreInformed(c, m, pc, r);
    } else {
      WriteInformed(c, m, pc, r);
    }
  }

  lemma ReadInformed(c: Cluster, m: Memory, pc: Pc, r: Reply)
    requires ClusterFormed(c) && Informed(c, pc) && ReadsOnly(pc)
    ensures Step(c, m, pc, r).c == c && Informed(c, Step(c, m, pc, r).pc)
  {
    KeepsObjectsCorrect(c, m, pc, r);
    if pc.Begin? {
      BeginInformed(c, m, pc, r);
    }
  }

  lemma BeginInformed(c: Cluster, m: Memory, pc: Pc, r: Reply)
    requires ClusterFormed(c) && pc.Begin?
    ensures Informed(c, Step(c, m, pc, r).pc)
  {
  }

  lemma StoreInformed(c: Cluster, m: Memory, pc: Pc, r: Reply)
    requires ClusterFormed(c) && Informed(c, pc) && !ReadsOnly(pc) && (KeepsObjects(pc) || WritesSecret(pc))
    ensures var a := Step(c, m, pc, r); Informed(a.c, a.pc)
  {
    if KeepsObjects(pc) {
      KeepsObjectsCorrect(c, m, pc, r);
    } else {
      WritesOneSecret(c, m, pc, r);
    }
  }

  lemma WriteInformed(c: Cluster, m: Memory, pc: Pc, r: Reply)
    requires ClusterFormed(c) && Informed(c, pc) && !KeepsObjects(pc) && !WritesSecret(pc)
    ensures var a := Step(c, m, pc, r); Informed(a.c, a.pc)
  {
  }

  /**
   A pass ends, or goes on with less work; it wakes a key only for a SARE that is gone or a doomed secret it removed.
   */
  lemma StepCloser(w: World, r: Reply)
    requires Frozen(w) && w.pass.Some? && !w.pass.value.pc.Done?
    ensures Closer(w, CallNext(w, w.pass.value, r))
  {
    var running, w' := w.pass.value, CallNext(w, w.pass.value, r);
    var pc := running.pc;
    StepDescends(w.c, w.m, pc, r);
    if KeepsObjects(pc) {
      KeepsObjectsCorrect(w.c, w.m, pc, r);
      assert DoomedSecrets(w'.c) == DoomedSecrets(w.c);
    } else if pc.DropSecret? {
      DropCloser(w, r);
    } else if pc.Store? {
      StoreCloser(w, r);
    } else {
      OwnSareCloser(w, r);
    }
  }

  lemma DropCloser(w: World, r: Reply)
    requires Frozen(w) && w.pass.Some? && w.pass.value.pc.DropSecret?
    ensures Closer(w, CallNext(w, w.pass.value, r))
  {
    var pc, w' := w.pass.value.pc, CallNext(w, w.pass.value, r);
    var n := ResolveSecretName(pc.sare);
    StepDescends(w.c, w.m, pc, r);
    if r.ok && n in w.c.secrets {
      assert Doomed(w.c, n);
      RemovalShrinks(w.c, n);
    } else if r.ok {
      assert w'.c.secrets == w.c.secrets;
      assert w'.queue == w.queue;
      assert DoomedSecrets(w'.c) == DoomedSecrets(w.c);
    }
  }

  lemma RemovalShrinks(c: Cluster, n: Name)
    requires Doomed(c, n)
    ensures |DoomedSecrets(DeleteSecret(c, n))| < |DoomedSecrets(c)|
  {
    assert DoomedSecrets(DeleteSecret(c, n)) == DoomedSecrets(c) - {n};
  }

  lemma StoreCloser(w: World, r: Reply)
    requires Frozen(w) && w.pass.Some? && w.pass.value.pc.Store?
    ensures Closer(w, CallNext(w, w.pass.value, r))
  {
    var pc := w.pass.value.pc;
    StepDescends(w.c, w.m, pc, r);
    StoreDoomsNothing(w.c, w.m, pc, r);
    SubsetSize(DoomedSecrets(Step(w.c, w.m, pc, r).c), DoomedSecrets(w.c));
  }

  lemma StoreDoomsNothing(c: Cluster, m: Memory, pc: Pc, r: Reply)
    requires ClusterFormed(c) && pc.Store? && Informed(c, pc)
    requires Formed(c, pc.sare)
    ensures var a := Step(c, m, pc, r); DoomedSecrets(a.c) <= DoomedSecrets(c) && a.c.sares == c.sares && a.woken == {}
  {
    var c' := Step(c, m, pc, r).c;
    assert !Doomed(c', ResolveSecretName(pc.sare)) || c' == c;
  }

  /** Status patches and finalizers change no uid, spec or secret; a SARE that disappears leaves one SARE less. */
  lemma OwnSareCloser(w: World, r: Reply)
    requires Frozen(w) && w.pass.Some?
    requires var pc := w.pass.value.pc; !KeepsObjects(pc) && !WritesSecret(pc)
    ensures Closer(w, CallNext(w, w.pass.value, r))
  {
    var pc := w.pass.value.pc;
    if pc.sare.name in Step(w.c, w.m, pc, r).c.sares {
      StepDescends(w.c, w.m, pc, r);
      OwnSareKeepsDoomed(w.c, w.m, pc, r);
    } else {
      OwnSareGone(w.c, w.m, pc, r);
    }
  }

  lemma OwnSareGone(c: Cluster, m: Memory, pc: Pc, r: Reply)
    requires !KeepsObjects(pc) && !WritesSecret(pc) && pc.sare.name in c.sares
    requires pc.sare.name !in Step(c, m, pc, r).c.sares
    ensures |Step(c, m, pc, r).c.sares| < |c.sares|
  {
  }

  lemma OwnSareKeepsDoomed(c: Cluster, m: Memory, pc: Pc, r: Reply)
    requires ClusterFormed(c) && Informed(c, pc) && !KeepsObjects(pc) && !WritesSecret(pc)
    requires pc.sare.name in Step(c, m, pc, r).c.sares
    ensures var a := Step(c, m, pc, r);
      DoomedSecrets(a.c) == DoomedSecrets(c) && a.woken == {} && a.c.sares.Keys == c.sares.Keys
  {
    var a := Step(c, m, pc, r);
    WritesOwnSare(c, m, pc, r);
    var s, t := c.sares[pc.sare.name], a.c.sares[pc.sare.name];
    assert t.uid == s.uid && t.spec == s.spec;
    forall n ensures Doomed(a.c, n) == Doomed(c, n) {
    }
  }

  lemma WorkingCloser(w: World, e: Event)
    requires Frozen(w) && Working(w, e)
    ensures Frozen(Next(w, e)) && Closer(w, Next(w, e))
  {
    var w' := Next(w, e);
    NextFormed(w, e);
    if e.Call? {
      StepInformed(w.c, w.m, w.pass.value, e.reply);
      StepCloser(w, e.reply);
    } else if e.Collect? {
      CollectCloser(w, e.secret);
    }
  }

  lemma CollectCloser(w: World, n: Name)
    requires Frozen(w) && Enabled(w, Collect(n))
    ensures var w' := RemoveSecretNext(w, n); Closer(w, w') && Frozen(w')
  {
    assert Doomed(w.c, n);
    RemovalShrinks(w.c, n);
  }

  /** An endless history: what happens at every moment, and the state it happens in. */
  ghost predicate History(worlds: nat -> World, events: nat -> Event) {
    forall i: nat :: Working(worlds(i), events(i)) ==> worlds(i + 1) == Next(worlds(i), events(i))
  }

  /** The worker and the garbage collector start no rotation. */
  lemma WorkingStartsNoJob(w: World, e: Event)
    requires Working(w, e) && w.jobs == map[]
    ensures Next(w, e).jobs == map[]
  {
  }

  /** From any frozen state the remaining work is finite: sooner or later something else than a working step happens. */
  lemma {:induction false} WorkEnds(worlds: nat -> World, events: nat -> Event, i: nat) returns (j: nat)
    requires History(worlds, events) && Frozen(worlds(i))
    ensures i <= j && !Working(worlds(j), events(j))
    ensures forall n: nat | i <= n < j :: Working(worlds(n), events(n))
    decreases |worlds(i).c.sares|, |DoomedSecrets(worlds(i).c)|, Work(worlds(i))
  {
    if !Working(worlds(i), events(i)) {
      return i;
    }
    WorkingCloser(worlds(i), events(i));
    j := WorkEnds(worlds, events, i + 1);
    forall n: nat | i <= n < j ensures Working(worlds(n), events(n)) {
      assert n == i || i + 1 <= n;
    }
  }

  /** Up to moment `j`, `k` always gets credentials when its producer is asked because the secret is missing. */
  ghost predicate AlwaysServed(worlds: nat -> World, events: nat -> Event, j: nat, k: Name) {
    forall n: nat | n < j :: !RotationIgnored(worlds(n), events(n), k)
  }

  lemma {:induction false} WorkKeepsFrozen(worlds: nat -> World, events: nat -> Event, j: nat)
    requires History(worlds, events) && Frozen(worlds(0)) && worlds(0).jobs == map[]
    requires forall n: nat | n < j :: Working(worlds(n), events(n))
    ensures Frozen(worlds(j)) && worlds(j).jobs == map[]
  {
    if j > 0 {
      WorkKeepsFrozen(worlds, events, j - 1);
      WorkingCloser(worlds(j - 1), events(j - 1));
      WorkingStartsNoJob(worlds(j - 1), events(j - 1));
    }
  }

  lemma {:induction false} WorkKeepsWakeful(worlds: nat -> World, events: nat -> Event, j: nat, k: Name)
    requires History(worlds, events) && Frozen(worlds(0)) && worlds(0).jobs == map[] && Wakeful(worlds(0), k)
    requires forall n: nat | n < j :: Working(worlds(n), events(n))
    requires AlwaysServed(worlds, events, j, k)
    ensures Wakeful(worlds(j), k)
  {
    if j > 0 {
      WorkKeepsWakeful(worlds, events, j - 1, k);
      WorkKeepsFrozen(worlds, events, j - 1);
      NextKeepsWakeful(worlds(j - 1), events(j - 1), k);
    }
  }

  /** The worker or the garbage collector has something to do that is not the retry of a failed pass. */
  ghost predicate HasWork(w: World) {
    || (w.pass.None? && w.queue != {})
    || (w.pass.Some? && !(w.pass.value.pc.Done? && w.pass.value.pc.result.Some?))
    || (exists n :: Enabled(w, Collect(n)))
  }

  /** The worker waits to try a failed pass again. */
  predicate Failed(w: World) {
    w.pass.Some? && w.pass.value.pc.Done? && w.pass.value.pc.result.Some?
  }

  /** Nothing is left to do, no secret has lost its SARE, and those SAREs have converged that are served and awake. */
  ghost predicate Settled(worlds: nat -> World, events: nat -> Event, j: nat) {
    var w := worlds(j);
    && w.pass.None? && w.queue == {}
    && (forall k | Live(w.c, k) && Wakeful(worlds(0), k) && AlwaysServed(worlds, events, j, k) :: Converged(w.c, k))
    && (forall n | n in w.c.secrets && w.c.secrets[n].owner.Some? :: !Vanished(w.c, w.c.secrets[n].owner.value))
  }

  /**
   From any quiet moment, if work is taken up as long as there is any, either a pass fails or everything converges.
   */
  lemma FrozenSystemConverges(worlds: nat -> World, events: nat -> Event) returns (j: nat)
    requires History(worlds, events)
    requires forall i: nat :: HasWork(worlds(i)) ==> Working(worlds(i), events(i))
    requires WellFormed(worlds(0)) && worlds(0).pass.None? && worlds(0).jobs == map[]
    ensures forall n: nat | n < j :: Working(worlds(n), events(n))
    ensures Failed(worlds(j)) || Settled(worlds, events, j)
  {
    j := WorkEnds(worlds, events, 0);
    WorkKeepsFrozen(worlds, events, j);
    var w := worlds(j);
    assert !HasWork(w);
    forall n | n in w.c.secrets && w.c.secrets[n].owner.Some? ensures !Vanished(w.c, w.c.secrets[n].owner.value) {
      assert !Enabled(w, Collect(n));
    }
    forall k | w.pass.None? && Live(w.c, k) && Wakeful(worlds(0), k) && AlwaysServed(worlds, events, j, k)
      ensures Converged(w.c, k)
    {
      WorkKeepsWakeful(worlds, events, j, k);
    }
  }
}
