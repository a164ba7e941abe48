/**
 The rotation watchers over whole runs: at most one runner runs per key, it is the stored one, and, if only the operator
 strips its finalizer, no entry outlives its SARE.
 */
module Watchers {
  import opened Api
  import opened Registry
  import opened Pass
  import opened Operator
  import opened Runs
  import opened Wrappers

  /** The key belongs to a SARE that still carries the operator's finalizer. */
  ghost predicate Anchored(c: Cluster, m: Memory, key: string) {
    exists k :: AnchoredAt(c, m, key, k)
  }

  predicate AnchoredAt(c: Cluster, m: Memory, key: string, k: Name) {
    k in c.sares && c.sares[k].finalizer && key == NamespacedName(k, m.namespace)
  }

  /** While a pass may set a watcher the finalizer is in place; while it deletes its SARE there is no watcher. */
  predicate WatchingPass(c: Cluster, m: Memory, pc: Pc) {
    && (pc.CheckSecret? || pc.SetRunner? ==> pc.sare.name in c.sares && c.sares[pc.sare.name].finalizer)
    && (pc.FindProducerToDelete? || pc.CheckAccount? || pc.DeleteAccount? || pc.StampProducer? || pc.DropFinalizer? ==>
          NamespacedName(pc.sare.name, m.namespace) !in m.watch)
  }

  ghost predicate Tidy(w: World) {
    && Consistent(w.m)
    && (forall key | key in w.m.watch :: Anchored(w.c, w.m, key))
    && (w.pass.Some? ==> WatchingPass(w.c, w.m, w.pass.value.pc))
  }

  /** A step touches at most the entry of its own SARE. */
  lemma StepMemory(c: Cluster, m: Memory, running: Running, r: Reply)
    requires ClusterFormed(c) && PassFormed(c, running) && Consistent(m) && !running.pc.Done?
    ensures var m' := Step(c, m, running.pc, r).m;
      && Consistent(m') && m'.namespace == m.namespace && m'.timeout == m.timeout
      && (forall key | key != NamespacedName(running.key, m.namespace) ::
            && (key in m'.watch <==> key in m.watch)
            && (key in m.watch ==> m'.watch[key] == m.watch[key])
            && RunningFor(m', key) == RunningFor(m, key))
  {
    var pc := running.pc;
    if pc.Begin? {
      BeginMemory(c, m, pc, r);
    } else if pc.SetRunner? {
      SetRunnerMemory(c, m, pc, r);
    } else {
      StepKeepsMemory(c, m, pc, r);
    }
  }

  /** A pass that finds its SARE deleted removes the watcher first. */
  lemma BeginMemory(c: Cluster, m: Memory, pc: Pc, r: Reply)
    requires pc.Begin? && Consistent(m)
    ensures var m', key := Step(c, m, pc, r).m, NamespacedName(pc.key, m.namespace);
      && Consistent(m') && m'.namespace == m.namespace && m'.timeout == m.timeout
      && (r.ok && pc.key in c.sares && c.sares[pc.key].deletedAt.Some? ==> key !in m'.watch)
      && (forall other | other != key ::
            && (other in m'.watch <==> other in m.watch)
            && (other in m.watch ==> m'.watch[other] == m.watch[other])
            && RunningFor(m', other) == RunningFor(m, other))
  {
    DeleteWatcherCorrect(m, NamespacedName(pc.key, m.namespace));
    assert Step(c, m, pc, r).m == m || Step(c, m, pc, r).m == DeleteWatcher(m, NamespacedName(pc.key, m.namespace));
  }

  lemma StepKeepsMemory(c: Cluster, m: Memory, pc: Pc, r: Reply)
    requires !pc.Begin? && !pc.SetRunner?
    ensures Step(c, m, pc, r).m == m
  {
  }

  /**
   After the watcher step of a pass one runner runs, with the expression of the spec, if rotation is enabled and the
   expression is valid; no runner is left otherwise, and no entry if rotation is not enabled.
   */
  lemma SetRunnerMemory(c: Cluster, m: Memory, pc: Pc, r: Reply)
    requires pc.SetRunner? && Consistent(m)
    ensures var m', key := Step(c, m, pc, r).m, pc.sare.name + "-" + m.namespace;
      var rotation := pc.sare.spec.rotation;
      && Consistent(m') && m'.namespace == m.namespace && m'.timeout == m.timeout
      && (rotation.Some? && rotation.value.enabled && r.ok ==>
            key in m'.watch && RunningFor(m', key) == {m'.watch[key]}
            && m'.runners[m'.watch[key]].expression == rotation.value.expression)
      && (rotation.None? || !rotation.value.enabled || !r.ok ==> RunningFor(m', key) == {})
      && (rotation.None? || !rotation.value.enabled ==> key !in m'.watch)
      && (forall other | other != key ::
            && (other in m'.watch <==> other in m.watch)
            && (other in m.watch ==> m'.watch[other] == m.watch[other])
            && RunningFor(m', other) == RunningFor(m, other))
  {
    var key := NamespacedName(pc.sare.name, m.namespace);
    DeleteWatcherCorrect(m, key);
    if RotationEnabled(pc.sare) {
      SetWatcherCorrect(m, key, pc.sare.spec.rotation.value.expression, r.ok);
    }
  }

  lemma StepWatching(c: Cluster, m: Memory, running: Running, r: Reply)
    requires ClusterFormed(c) && PassFormed(c, running) && Consistent(m) && WatchingPass(c, m, running.pc)
        && !running.pc.Done?
    ensures var a := Step(c, m, running.pc, r); WatchingPass(a.c, a.m, a.pc)
  {
    var pc := running.pc;
    if pc.Begin? {
      BeginMemory(c, m, pc, r);
      BeginWatching(c, m, pc, r);
    } else if !pc.SetRunner? {
      StepKeepsMemory(c, m, pc, r);
      LaterWatching(c, m, pc, r);
    }
  }

  lemma BeginWatching(c: Cluster, m: Memory, pc: Pc, r: Reply)
    requires ClusterFormed(c) && pc.Begin?
    requires r.ok && pc.key in c.sares && c.sares[pc.key].deletedAt.Some? ==>
      NamespacedName(pc.key, m.namespace) !in Step(c, m, pc, r).m.watch && Step(c, m, pc, r).m.namespace == m.namespace
    ensures var a := Step(c, m, pc, r); WatchingPass(a.c, a.m, a.pc)
  {
  }

  lemma LaterWatching(c: Cluster, m: Memory, pc: Pc, r: Reply)
    requires WatchingPass(c, m, pc) && !pc.Begin? && !pc.SetRunner? && Step(c, m, pc, r).m == m
    ensures var a := Step(c, m, pc, r); WatchingPass(a.c, a.m, a.pc)
  {
  }

  /**
   A SARE loses the finalizer in a pass only when it has no watcher any more; its own watcher comes with a finalizer.
   */
  lemma StepAnchors(c: Cluster, m: Memory, running: Running, r: Reply, key: string)
    requires ClusterFormed(c) && PassFormed(c, running) && Consistent(m) && WatchingPass(c, m, running.pc)
        && !running.pc.Done?
    requires key in m.watch ==> Anchored(c, m, key)
    requires key in Step(c, m, running.pc, r).m.watch
    ensures var a := Step(c, m, running.pc, r); Anchored(a.c, a.m, key)
  {
    var pc, a := running.pc, Step(c, m, running.pc, r);
    StepMemory(c, m, running, r);
    if key in m.watch {
      var k :| AnchoredAt(c, m, key, k);
      if KeepsObjects(pc) {
        KeepsObjectsCorrect(c, m, pc, r);
      } else if WritesSecret(pc) {
        WritesOneSecret(c, m, pc, r);
      } else {
        WritesOwnSare(c, m, pc, r);
        StepKeepsMemory(c, m, pc, r);
        if k == running.key { OwnSareKeepsFinalizer(c, m, pc, r); }
      }
      assert AnchoredAt(a.c, a.m, key, k);
    } else {
      assert pc.SetRunner?;
      assert AnchoredAt(a.c, a.m, key, running.key);
    }
  }

  lemma OwnSareKeepsFinalizer(c: Cluster, m: Memory, pc: Pc, r: Reply)
    requires !KeepsObjects(pc) && !WritesSecret(pc) && !pc.DropFinalizer?
    requires pc.sare.name in c.sares && c.sares[pc.sare.name].finalizer
    ensures var c' := Step(c, m, pc, r).c; pc.sare.name in c'.sares && c'.sares[pc.sare.name].finalizer
  {
  }

  lemma CallTidy(w: World, r: Reply)
    requires WellFormed(w) && Enabled(w, Event.Call(r)) && Tidy(w)
    ensures Tidy(Next(w, Event.Call(r)))
  {
    var w' := Next(w, Event.Call(r));
    StepMemory(w.c, w.m, w.pass.value, r);
    StepWatching(w.c, w.m, w.pass.value, r);
    forall key | key in w'.m.watch ensures Anchored(w'.c, w'.m, key) {
      StepAnchors(w.c, w.m, w.pass.value, r, key);
    }
  }

  lemma EditTidy(w: World, e: Event)
    requires WellFormed(w) && EditsSares(e) && !e.StripFinalizer? && Tidy(w)
    ensures Tidy(Next(w, e))
  {
    var w' := Next(w, e);
    EditSaresEffect(w, e);
    forall k | k in w.c.sares && w.c.sares[k].finalizer ensures k in w'.c.sares && w'.c.sares[k].finalizer {
      EditKeepsFinalizer(w, e, k);
    }
    assert forall key, k | AnchoredAt(w.c, w.m, key, k) :: AnchoredAt(w'.c, w'.m, key, k);
  }

  lemma OutsideTidy(w: World, e: Event)
    requires WellFormed(w) && Enabled(w, e) && !EditsSares(e) && !e.Call? && Tidy(w)
    ensures Tidy(Next(w, e))
  {
    var w' := Next(w, e);
    OutsideKeepsSares(w, e);
    assert w'.m == w.m || w'.m.watch == map[];
    assert PassKept(w, w') || w'.pass.None? || w'.pass.value.pc.Begin?;
    assert forall key, k | AnchoredAt(w.c, w.m, key, k) :: AnchoredAt(w'.c, w'.m, key, k);
  }

  predicate OnlyOperatorStrips(run: seq<Event>) {
    forall i | 0 <= i < |run| :: !run[i].StripFinalizer?
  }

  lemma {:induction false} TidyThroughout(w: World, run: seq<Event>)
    requires WellFormed(w) && Legal(w, run) && OnlyOperatorStrips(run) && Tidy(w)
    ensures Tidy(Exec(w, run))
    decreases |run|
  {
    if run != [] {
      var e := run[0];
      NextFormed(w, e);
      if e.Call? {
        CallTidy(w, e.reply);
      } else if EditsSares(e) {
        EditTidy(w, e);
      } else {
        OutsideTidy(w, e);
      }
      TidyThroughout(Next(w, e), run[1..]);
    }
  }

  lemma NextConsistent(w: World, e: Event)
    requires WellFormed(w) && Enabled(w, e) && Consistent(w.m)
    ensures Consistent(Next(w, e).m)
  {
    if e.Call? {
      StepMemory(w.c, w.m, w.pass.value, e.reply);
    } else if EditsSares(e) {
      EditSaresEffect(w, e);
    } else {
      OutsideKeepsSares(w, e);
    }
  }

  lemma {:induction false} ConsistentThroughout(w: World, run: seq<Event>)
    requires WellFormed(w) && Legal(w, run) && Consistent(w.m)
    ensures Consistent(Exec(w, run).m)
    decreases |run|
  {
    if run != [] {
      NextConsistent(w, run[0]);
      NextFormed(w, run[0]);
      ConsistentThroughout(Next(w, run[0]), run[1..]);
    }
  }

  /** In every reachable state, at most one runner runs per key, and it is the one that is stored under the key. */
  lemma OneRunnerPerKey(w: World, run: seq<Event>, key: string)
    requires Initial(w) && Legal(w, run)
    ensures var m := Exec(w, run).m;
      && Consistent(m) && |RunningFor(m, key)| <= 1
      && (forall id | id in RunningFor(m, key) :: key in m.watch && m.watch[key] == id)
  {
    ConsistentThroughout(w, run);
    AtMostOneRunner(Exec(w, run).m, key);
  }

  /** As long as only the operator strips its finalizer, every entry is the key of a SARE that exists. */
  lemma WatchersBelongToSares(w: World, run: seq<Event>, key: string)
    requires Initial(w) && Legal(w, run) && OnlyOperatorStrips(run)
    ensures var end := Exec(w, run);
      key in end.m.watch ==> exists k :: k in end.c.sares && key == NamespacedName(k, end.m.namespace)
  {
    TidyThroughout(w, run);
    var end := Exec(w, run);
    if key in end.m.watch {
      var k :| AnchoredAt(end.c, end.m, key, k);
    }
  }

  /**
   If a user strips it and deletes the SARE, the watcher stays, running or not: the pass that this wakes does not find
   the SARE and ends.
   */
  lemma StrippedSareKeepsWatcher(w: World, k: Name) returns (run: seq<Event>)
    requires w.pass.None? && k in w.c.sares && w.c.sares[k].name == k
    requires w.c.sares[k].deletedAt.None? && !w.c.sares[k].foreign
    ensures Legal(w, run) && NothingFails(run)
    ensures var end := Exec(w, run);
      end.m == w.m && k !in end.c.sares && end.pass.None? && end.queue == w.queue - {k}
  {
    Extend(w, [], StripFinalizer(k));
    run := [] + [StripFinalizer(k)];
    Extend(w, run, DeleteSare(k));
    run := run + [DeleteSare(k)];
    assert k !in Exec(w, run).c.sares && Exec(w, run).queue == w.queue + {k} && Exec(w, run).m == w.m;
    run := PassFindsNothing(w, run, k);
  }

  lemma PassFindsNothing(w: World, run: seq<Event>, k: Name) returns (run': seq<Event>)
    requires Legal(w, run) && NothingFails(run)
    requires var v := Exec(w, run); v.pass.None? && k in v.queue && k !in v.c.sares
    ensures Legal(w, run') && NothingFails(run')
    ensures var v := Exec(w, run); Exec(w, run') == v.(queue := v.queue - {k}, shared := None)
  {
    Extend(w, run, Start(k));
    var run1 := run + [Start(k)];
    Extend(w, run1, Event.Call(OK));
    var run2 := run1 + [Event.Call(OK)];
    assert Exec(w, run2).pass == Some(Running(k, Done(None)));
    Extend(w, run2, Finish);
    run' := run2 + [Finish];
  }

  /** The cleanup at shutdown stops every entry of the map. */
  function StopAll(m: Memory): Memory {
    m.(runners := seq(|m.runners|, i requires 0 <= i < |m.runners| =>
         if i in m.watch.Values then m.runners[i].(running := false) else m.runners[i]))
  }

  /** At any moment of any run, the cleanup leaves no runner running at all. */
  lemma CleanupStopsEverything(w: World, run: seq<Event>, id: nat)
    requires Initial(w) && Legal(w, run) && id < |Exec(w, run).m.runners|
    ensures !StopAll(Exec(w, run).m).runners[id].running
  {
    ConsistentThroughout(w, run);
    var m := Exec(w, run).m;
    if m.runners[id].running {
      assert m.watch[m.runners[id].key] == id;
    }
  }
}
