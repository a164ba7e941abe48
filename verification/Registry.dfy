/**
 The operator's memory: the rotation runners it ever started and `rotateCronWatcher`, which says for every SARE key
 which of them is the current one (internal/controller/request/controller.go). A runner is created running and a stop
 is final; its identity is its position in `runners`.
 */
module Registry {
  datatype Runner = Runner(key: string, expression: string, running: bool)

  /** `timeout` (DeletionTimeout) and `namespace` are configuration and never change. */
  datatype Memory = Memory(watch: map<string, nat>, runners: seq<Runner>, timeout: nat, namespace: string)

  function NamespacedName(name: string, namespace: string): string {
    name + "-" + namespace
  }

  function Stop(runners: seq<Runner>, id: nat): (r: seq<Runner>)
    ensures |r| == |runners|
  {
    if id < |runners| then runners[id := runners[id].(running := false)] else runners
  }

  function StopWatcher(m: Memory, key: string): Memory {
    if key in m.watch then m.(runners := Stop(m.runners, m.watch[key])) else m
  }

  /** deleteSaRotationWatcher. */
  function DeleteWatcher(m: Memory, key: string): Memory {
    StopWatcher(m, key).(watch := m.watch - {key})
  }

  /** setSaRotationWatcher; `valid` tells whether the cron factory accepted the expression. */
  function SetWatcher(m: Memory, key: string, expression: string, valid: bool): Memory {
    var stopped := StopWatcher(m, key);
    if valid then
      stopped.(runners := stopped.runners + [Runner(key, expression, true)], watch := m.watch[key := |m.runners|])
    else stopped
  }

  /** The runners that run for a key. */
  ghost function RunningFor(m: Memory, key: string): set<nat> {
    set i: nat | i < |m.runners| && m.runners[i].running && m.runners[i].key == key
  }

  /** Every entry is a runner of its key, and whoever runs is the one stored under its key. */
  ghost predicate Consistent(m: Memory) {
    && (forall key | key in m.watch :: m.watch[key] < |m.runners| && m.runners[m.watch[key]].key == key)
    && (forall i: nat | i < |m.runners| && m.runners[i].running ::
          m.runners[i].key in m.watch && m.watch[m.runners[i].key] == i)
  }

  lemma AtMostOneRunner(m: Memory, key: string)
    requires Consistent(m)
    ensures |RunningFor(m, key)| <= 1
    ensures key in m.watch ==> RunningFor(m, key) <= {m.watch[key]}
    ensures key !in m.watch ==> RunningFor(m, key) == {}
  {
    if key in m.watch {
      assert RunningFor(m, key) <= {m.watch[key]};
      SubsetSize(RunningFor(m, key), {m.watch[key]});
    } else {
      assert RunningFor(m, key) == {};
    }
  }

  lemma {:induction false} SubsetSize<T>(a: set<T>, b: set<T>)
    requires a <= b
    ensures |a| <= |b|
  {
    if a != {} {
      var x :| x in a;
      SubsetSize(a - {x}, b - {x});
    }
  }

  /** A new runner replaces the old one; a rejected expression leaves nothing running; other keys are untouched. */
  lemma SetWatcherCorrect(m: Memory, key: string, expression: string, valid: bool)
    requires Consistent(m)
    ensures var m' := SetWatcher(m, key, expression, valid);
      && Consistent(m')
      && (valid ==> key in m'.watch && RunningFor(m', key) == {m'.watch[key]}
                    && m'.runners[m'.watch[key]].expression == expression)
      && (!valid ==> RunningFor(m', key) == {})
      && (forall other | other != key :: RunningFor(m', other) == RunningFor(m, other)
                                         && (other in m'.watch <==> other in m.watch))
      && (forall other | other != key && other in m.watch :: m'.watch[other] == m.watch[other])
  {
    var m' := SetWatcher(m, key, expression, valid);
    AtMostOneRunner(m, key);
    forall other ensures RunningFor(m', other) ==
      if other != key then RunningFor(m, other) else if valid then {|m.runners|} else {}
    {
    }
  }

  /** Nothing is left of the key, and other keys are untouched. */
  lemma DeleteWatcherCorrect(m: Memory, key: string)
    requires Consistent(m)
    ensures var m' := DeleteWatcher(m, key);
      && Consistent(m')
      && key !in m'.watch && RunningFor(m', key) == {}
      && (forall other | other != key :: RunningFor(m', other) == RunningFor(m, other)
                                         && (other in m'.watch <==> other in m.watch))
      && (forall other | other != key && other in m.watch :: m'.watch[other] == m.watch[other])
  {
  }

  /** Within one namespace the keys of two SAREs differ. */
  lemma KeyInjective(a: string, b: string, namespace: string)
    requires NamespacedName(a, namespace) == NamespacedName(b, namespace)
    ensures a == b
  {
    assert |a| == |b|;
    assert a == NamespacedName(a, namespace)[..|a|];
    assert b == NamespacedName(b, namespace)[..|b|];
  }

  /** The longer namespace ends with a hyphen and the shorter one. */
  predicate EndsIn(long: string, short: string) {
    |long| > |short| && long[|long| - |short| - 1..] == "-" + short
  }

  ghost predicate Collide(m: string, n: string) {
    exists a, b :: NamespacedName(a, m) == NamespacedName(b, n)
  }

  /** The name in namespace `m` whose key is that of name `b` in a namespace that ends in a hyphen and `m`. */
  function Twin(b: string, m: string, n: string): string
    requires EndsIn(n, m)
  {
    b + "-" + n[..|n| - |m| - 1]
  }

  lemma TwinsCollide(b: string, m: string, n: string)
    requires EndsIn(n, m)
    ensures NamespacedName(Twin(b, m, n), m) == NamespacedName(b, n)
  {
    assert n == n[..|n| - |m| - 1] + ("-" + m);
  }

  lemma LongerEndsInShorter(a: string, m: string, b: string, n: string)
    requires NamespacedName(a, m) == NamespacedName(b, n) && |m| < |n|
    ensures EndsIn(n, m)
  {
    var k := NamespacedName(a, m);
    assert k[|k| - |m| - 1..] == "-" + m;
    assert k[|k| - |n|..] == n;
    assert n[|n| - |m| - 1..] == k[|k| - |n|..][|n| - |m| - 1..] == k[|k| - |m| - 1..];
  }

  lemma SameKeyMeans(a: string, m: string, b: string, n: string)
    requires NamespacedName(a, m) == NamespacedName(b, n)
    ensures m == n || EndsIn(m, n) || EndsIn(n, m)
  {
    if |m| < |n| {
      LongerEndsInShorter(a, m, b, n);
    } else if |n| < |m| {
      LongerEndsInShorter(b, n, a, m);
    } else {
      var k := NamespacedName(a, m);
      assert k[|k| - |m|..] == m && k[|k| - |n|..] == n;
    }
  }

  /** Two namespaces have SAREs with the same key if and only if one ends in a hyphen and the other. */
  lemma NamespacesCollideIff(m: string, n: string)
    requires m != n
    ensures Collide(m, n) <==> EndsIn(m, n) || EndsIn(n, m)
  {
    if a, b :| NamespacedName(a, m) == NamespacedName(b, n) {
      SameKeyMeans(a, m, b, n);
    }
    if EndsIn(n, m) {
      TwinsCollide("x", m, n);
    } else if EndsIn(m, n) {
      TwinsCollide("x", n, m);
      assert NamespacedName("x", m) == NamespacedName(Twin("x", n, m), n);
    }
  }

  /** Within two namespaces of which neither ends in a hyphen and the other, different SAREs have different keys. */
  lemma KeyInjectiveAcross(a: string, m: string, b: string, n: string)
    requires !EndsIn(m, n) && !EndsIn(n, m)
    requires NamespacedName(a, m) == NamespacedName(b, n)
    ensures a == b && m == n
  {
    SameKeyMeans(a, m, b, n);
    KeyInjective(a, b, m);
  }

  /** So namespaces without hyphens never collide. */
  lemma EndsInNeedsHyphen(m: string, n: string)
    requires EndsIn(m, n)
    ensures '-' in m
  {
    assert m[|m| - |n| - 1] == ("-" + n)[0];
  }

  /**
   Where they collide, every SARE of the longer namespace has a twin, and the watcher of one stops the other's runner.
   */
  lemma KeyCollision(r: Memory, b: string, m: string, n: string, expression: string, other: string, valid: bool)
    requires EndsIn(n, m)
    ensures var first := SetWatcher(r, NamespacedName(Twin(b, m, n), m), expression, true);
      var both := SetWatcher(first, NamespacedName(b, n), other, valid);
      !both.runners[first.watch[NamespacedName(Twin(b, m, n), m)]].running
  {
    TwinsCollide(b, m, n);
  }
}
