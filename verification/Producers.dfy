/**
 The producer controller and its two conditions (internal/controller/producer/controller.go,
 internal/controller/producer/status_conditions.go): a producer that is reported ready has its network policy.
 */
module Producers {
  import opened Wrappers

  datatype ConditionType = ReadyType | NetworkPolicyUpserted

  datatype Condition = Condition(
    kind: ConditionType,
    ok: bool,
    reason: string,
    message: string,
    observedGeneration: nat)

  type Conditions = seq<Condition>

  const PRODUCER_READY := "ProducerReady"
  const NETWORK_POLICY_FAILED := "NetworkPolicyFailed"
  const TARGET_STATE_REACHED := "TargetStateReached"
  const INVALID_CONFIGURATION := "InvalidConfiguration"
  const AUTH_SECRET_NOT_FOUND := "AuthSecretNotFound"
  const CONNECTION_FAILED := "ConnectionFailed"
  const NO_HTTP_SPEC := "producer has no HTTP spec configured"
  const NETWORK_POLICY_FAILED_MESSAGE := "Failed to upsert network policy target state"

  /** meta.SetStatusCondition: replaces the first condition of the type, or appends. */
  function SetCondition(list: Conditions, c: Condition): Conditions {
    if list == [] then [c]
    else if list[0].kind == c.kind then [c] + list[1..]
    else [list[0]] + SetCondition(list[1..], c)
  }

  function SetAll(list: Conditions, updates: seq<Condition>): Conditions
    decreases |updates|
  {
    if updates == [] then list else SetAll(SetCondition(list, updates[0]), updates[1..])
  }

  predicate Holds(list: Conditions, kind: ConditionType) {
    exists i :: 0 <= i < |list| && list[i].kind == kind && list[i].ok
  }

  predicate OnePerType(list: Conditions) {
    forall i, j :: 0 <= i < j < |list| ==> list[i].kind != list[j].kind
  }

  /** A producer reported ready has its network policy, and no type occurs twice. */
  predicate Trustworthy(list: Conditions) {
    OnePerType(list) && (Holds(list, ReadyType) ==> Holds(list, NetworkPolicyUpserted))
  }

  /** Setting a condition gives its type the new value, keeps all other types, and keeps types unique. */
  lemma {:induction false} SetConditionCorrect(list: Conditions, c: Condition)
    requires OnePerType(list)
    ensures var r := SetCondition(list, c);
      && OnePerType(r)
      && (forall x :: x in r <==> x == c || (x in list && x.kind != c.kind))
  {
  }

  lemma HoldsIff(list: Conditions, kind: ConditionType)
    ensures Holds(list, kind) <==> exists x :: x in list && x.kind == kind && x.ok
  {
  }

  lemma SetConditionHolds(list: Conditions, c: Condition, kind: ConditionType)
    requires OnePerType(list)
    ensures OnePerType(SetCondition(list, c))
    ensures Holds(SetCondition(list, c), kind) <==> if kind == c.kind then c.ok else Holds(list, kind)
  {
    SetConditionCorrect(list, c);
    HoldsIff(list, kind);
    HoldsIff(SetCondition(list, c), kind);
    assert c in SetCondition(list, c);
  }

  function Upserted(generation: nat): Condition {
    Condition(NetworkPolicyUpserted, true, TARGET_STATE_REACHED, "", generation)
  }

  function UpsertFailed(generation: nat, message: string): seq<Condition> {
    [Condition(NetworkPolicyUpserted, false, NETWORK_POLICY_FAILED, message, generation),
     Condition(ReadyType, false, NETWORK_POLICY_FAILED, NETWORK_POLICY_FAILED_MESSAGE, generation)]
  }

  function IsReady(generation: nat): Condition {
    Condition(ReadyType, true, PRODUCER_READY, "", generation)
  }

  function IsNotReady(generation: nat, reason: string, message: string): Condition {
    Condition(ReadyType, false, reason, message, generation)
  }

  /** A merge patch replaces the whole list, if the list in memory changed at all. */
  function Patched(stored: Conditions, base: Conditions, next: Conditions): Conditions {
    if next != base then next else stored
  }

  class ServiceAccountProducer {
    const generation: nat
    var conditions: Conditions
    var lastExecution: nat

    constructor (generation: nat, conditions: Conditions)
      ensures this.generation == generation && this.conditions == conditions
    {
      this.generation, this.conditions, this.lastExecution := generation, conditions, 0;
    }
  }

  /** What the API server has stored of the producer's status. */
  class StatusStore {
    var conditions: Conditions
    var lastExecution: nat

    constructor (conditions: Conditions)
      ensures this.conditions == conditions
    {
      this.conditions, this.lastExecution := conditions, 0;
    }
  }

  /**
   setAndPersist. The copy in memory is changed first; a patch that succeeds stores the change and refreshes the copy
   from the server's answer, a patch that fails leaves the copy changed and the server as it was.
   */
  method SetAndPersist(store: StatusStore, sapr: ServiceAccountProducer, conditions: seq<Condition>, now: nat,
                       patched: bool)
    returns (ok: bool)
    modifies store, sapr
    ensures ok == patched
    ensures var next := SetAll(old(sapr.conditions), conditions);
      && store.conditions == (if patched then Patched(old(store.conditions), old(sapr.conditions), next)
          else old(store.conditions))
      && sapr.conditions == (if patched then store.conditions else next)
    ensures store.lastExecution == if patched then now else old(store.lastExecution)
  {
    var patchBase := sapr.conditions;
    var i := 0;
    while i < |conditions|
      invariant 0 <= i <= |conditions|
      invariant SetAll(sapr.conditions, conditions[i..]) == SetAll(patchBase, conditions)
      invariant store.conditions == old(store.conditions) && store.lastExecution == old(store.lastExecution)
    {
      sapr.conditions := SetCondition(sapr.conditions, conditions[i]);
      assert conditions[i..][1..] == conditions[i + 1..];
      i := i + 1;
    }
    sapr.lastExecution := now;
    if !patched {
      return false;
    }
    store.conditions := Patched(store.conditions, patchBase, sapr.conditions);
    store.lastExecution := now;
    sapr.conditions := store.conditions;
    return true;
  }

  /** What the outside answers to the calls of one producer reconcile. */
  datatype Answers = Answers(
    upsertError: Option<string>,
    http: bool,
    authError: Option<string>,
    probeError: Option<string>,
    firstPatch: bool,
    secondPatch: bool)

  /** checkReady: the first thing that is wrong gives the reason. */
  function CheckReady(a: Answers): (r: Option<(string, string)>)
    ensures r.None? <==> a.http && a.authError.None? && a.probeError.None?
    ensures r.Some? ==> (r.value.0 == INVALID_CONFIGURATION <==> !a.http)
    ensures r.Some? ==> (r.value.0 == CONNECTION_FAILED <==> a.http && a.authError.None?)
    ensures !a.http ==> r == Some(("InvalidConfiguration", "producer has no HTTP spec configured"))
    ensures a.http && a.authError.Some? ==> r == Some(("AuthSecretNotFound", a.authError.value))
    ensures a.http && a.authError.None? && a.probeError.Some? ==> r == Some(("ConnectionFailed", a.probeError.value))
  {
    if !a.http then Some((INVALID_CONFIGURATION, NO_HTTP_SPEC))
    else if a.authError.Some? then Some((AUTH_SECRET_NOT_FOUND, a.authError.value))
    else if a.probeError.Some? then Some((CONNECTION_FAILED, a.probeError.value))
    else None
  }

  function Verdict(generation: nat, a: Answers): Condition {
    if CheckReady(a).Some? then IsNotReady(generation, CheckReady(a).value.0, CheckReady(a).value.1)
    else IsReady(generation)
  }

  /** The conditions a reconcile leaves stored, when nobody else writes in between. */
  function Reconciled(stored: Conditions, generation: nat, a: Answers): Conditions {
    if a.upsertError.Some? then
      if a.firstPatch then Patched(stored, stored, SetAll(stored, UpsertFailed(generation, a.upsertError.value)))
      else stored
    else if !a.firstPatch then stored
    else
      var first := Patched(stored, stored, SetCondition(stored, Upserted(generation)));
      var verdict := Verdict(generation, a);
      if a.secondPatch then Patched(first, first, SetCondition(first, verdict)) else first
  }

  /**
   What is stored after a reconcile, told by the answers: nothing new if the first patch fails; both conditions false if
   the upsert failed; else the policy condition true, and the ready condition as the checks came out, or as it was if
   the second patch fails.
   */
  ghost predicate Tells(stored: Conditions, now: Conditions, generation: nat, a: Answers) {
    && (!a.firstPatch ==> now == stored)
    && (a.firstPatch && a.upsertError.Some? ==>
          forall x :: x in now <==>
            || x == Condition(NetworkPolicyUpserted, false, "NetworkPolicyFailed", a.upsertError.value, generation)
            || x == Condition(ReadyType, false, "NetworkPolicyFailed", "Failed to upsert network policy target state",
                              generation))
    && (a.firstPatch && a.upsertError.None? ==>
          forall x :: x in now <==>
            || x == Condition(NetworkPolicyUpserted, true, "TargetStateReached", "", generation)
            || (x.kind == ReadyType && if a.secondPatch then TellsReady(x, generation, a) else x in stored))
  }

  predicate TellsReady(x: Condition, generation: nat, a: Answers) {
    x == if !a.http then
           Condition(ReadyType, false, "InvalidConfiguration", "producer has no HTTP spec configured", generation)
         else if a.authError.Some? then
           Condition(ReadyType, false, "AuthSecretNotFound", a.authError.value, generation)
         else if a.probeError.Some? then
           Condition(ReadyType, false, "ConnectionFailed", a.probeError.value, generation)
         else
           Condition(ReadyType, true, "ProducerReady", "", generation)
  }

  lemma ReconciledTells(stored: Conditions, generation: nat, a: Answers)
    requires OnePerType(stored)
    ensures Tells(stored, Reconciled(stored, generation, a), generation, a)
    ensures OnePerType(Reconciled(stored, generation, a))
  {
    if a.upsertError.Some? {
      var updates := UpsertFailed(generation, a.upsertError.value);
      var first := SetCondition(stored, updates[0]);
      SetConditionCorrect(stored, updates[0]);
      SetConditionCorrect(first, updates[1]);
      assert SetAll(stored, updates) == SetAll(first, [updates[1]]) == SetAll(SetCondition(first, updates[1]), []);
    } else {
      SetConditionCorrect(stored, Upserted(generation));
      SetConditionCorrect(SetCondition(stored, Upserted(generation)), Verdict(generation, a));
    }
  }

  /** Reconcile of the producer controller: the policy first, then the probe, and a retry interval only at the end. */
  method Reconcile(store: StatusStore, generation: nat, a: Answers, now: nat) returns (ok: bool, requeueAfter: bool)
    modifies store
    ensures store.conditions == Reconciled(old(store.conditions), generation, a)
    ensures ok <==> a.upsertError.None? && a.firstPatch && a.secondPatch
    ensures requeueAfter == ok
    ensures OnePerType(old(store.conditions)) ==> Tells(old(store.conditions), store.conditions, generation, a)
    ensures store.lastExecution == if a.firstPatch then now else old(store.lastExecution)
  {
    if OnePerType(store.conditions) {
      ReconciledTells(store.conditions, generation, a);
    }
    var sapr := new ServiceAccountProducer(generation, store.conditions);
    var stored := store.conditions;
    if a.upsertError.Some? {
      var updates := UpsertFailed(generation, a.upsertError.value);
      var marked := SetAndPersist(store, sapr, updates, now, a.firstPatch);
      return false, false;
    }
    var marked := SetAndPersist(store, sapr, [Upserted(generation)], now, a.firstPatch);
    assert SetAll(stored, [Upserted(generation)]) == SetAll(SetCondition(stored, Upserted(generation)), []);
    if !marked {
      return false, false;
    }
    var verdict := Verdict(generation, a);
    ghost var first := sapr.conditions;
    marked := SetAndPersist(store, sapr, [verdict], now, a.secondPatch);
    assert SetAll(first, [verdict]) == SetAll(SetCondition(first, verdict), []);
    return marked, marked;
  }

  /** One reconcile keeps the conditions trustworthy, and says ready exactly if the probe succeeded last. */
  lemma ReconcileKeepsTrust(stored: Conditions, generation: nat, a: Answers)
    requires Trustworthy(stored)
    ensures Trustworthy(Reconciled(stored, generation, a))
    ensures a.upsertError.None? && a.firstPatch && a.secondPatch ==>
      (Holds(Reconciled(stored, generation, a), ReadyType) <==> a.http && a.authError.None? && a.probeError.None?)
    ensures a.upsertError.Some? && a.firstPatch ==> !Holds(Reconciled(stored, generation, a), ReadyType)
    ensures a.firstPatch ==> (Holds(Reconciled(stored, generation, a), NetworkPolicyUpserted) <==> a.upsertError.None?)
    ensures Tells(stored, Reconciled(stored, generation, a), generation, a)
  {
    ReconciledTells(stored, generation, a);
    if a.upsertError.Some? {
      var updates := UpsertFailed(generation, a.upsertError.value);
      var first := SetCondition(stored, updates[0]);
      SetConditionHolds(stored, updates[0], NetworkPolicyUpserted);
      SetConditionHolds(first, updates[1], NetworkPolicyUpserted);
      SetConditionHolds(first, updates[1], ReadyType);
      assert SetAll(stored, updates) == SetAll(first, [updates[1]]) == SetAll(SetCondition(first, updates[1]), []);
    } else {
      var first := SetCondition(stored, Upserted(generation));
      SetConditionHolds(stored, Upserted(generation), NetworkPolicyUpserted);
      SetConditionHolds(stored, Upserted(generation), ReadyType);
      var verdict := Verdict(generation, a);
      SetConditionHolds(first, verdict, NetworkPolicyUpserted);
      SetConditionHolds(first, verdict, ReadyType);
    }
  }

  /** A run: one reconcile after the other, each with the generation it finds. */
  function RunAll(stored: Conditions, run: seq<(nat, Answers)>): Conditions
    decreases |run|
  {
    if run == [] then stored else RunAll(Reconciled(stored, run[0].0, run[0].1), run[1..])
  }

  lemma {:induction false} RunsKeepTrust(stored: Conditions, run: seq<(nat, Answers)>)
    requires Trustworthy(stored)
    ensures Trustworthy(RunAll(stored, run))
    decreases |run|
  {
    if run != [] {
      ReconcileKeepsTrust(stored, run[0].0, run[0].1);
      RunsKeepTrust(Reconciled(stored, run[0].0, run[0].1), run[1..]);
    }
  }

  /** The first patch of a reconcile that has read `read`, on what is stored by then. */
  function FirstPatched(read: Conditions, stored: Conditions, generation: nat, a: Answers): Conditions {
    if !a.firstPatch then stored
    else if a.upsertError.Some? then Patched(stored, read, SetAll(read, UpsertFailed(generation, a.upsertError.value)))
    else Patched(stored, read, SetCondition(read, Upserted(generation)))
  }

  /** The reconcile gets to its second patch, and the patch goes through. */
  predicate PatchesTwice(a: Answers) {
    a.upsertError.None? && a.firstPatch && a.secondPatch
  }

  /**
   A reconcile during which the producer is deleted and created again, between the read and the first patch. The copy in
   memory is the new object from then on, with its generation.
   */
  function ReconciledOver(read: Conditions, recreated: Conditions, generation: nat, renewed: nat, a: Answers)
    : Conditions
  {
    var first := FirstPatched(read, recreated, generation, a);
    if PatchesTwice(a) then Patched(first, first, SetCondition(first, Verdict(renewed, a))) else first
  }

  /** If nothing is created again, this is a reconcile as before. */
  lemma ReconciledOverItself(stored: Conditions, generation: nat, a: Answers)
    ensures ReconciledOver(stored, stored, generation, generation, a) == Reconciled(stored, generation, a)
  {
  }

  lemma FirstPatchTrust(read: Conditions, recreated: Conditions, generation: nat, a: Answers)
    requires Trustworthy(read) && Trustworthy(recreated)
    ensures Trustworthy(FirstPatched(read, recreated, generation, a))
    ensures a.firstPatch && a.upsertError.None? ==>
      (Holds(FirstPatched(read, recreated, generation, a), NetworkPolicyUpserted) <==>
         SetCondition(read, Upserted(generation)) != read || Holds(recreated, NetworkPolicyUpserted))
  {
    if a.upsertError.Some? {
      var updates := UpsertFailed(generation, a.upsertError.value);
      var first := SetCondition(read, updates[0]);
      SetConditionHolds(read, updates[0], NetworkPolicyUpserted);
      SetConditionHolds(first, updates[1], ReadyType);
      assert SetAll(read, updates) == SetAll(first, [updates[1]]) == SetAll(SetCondition(first, updates[1]), []);
    } else {
      SetConditionHolds(read, Upserted(generation), NetworkPolicyUpserted);
      SetConditionHolds(read, Upserted(generation), ReadyType);
    }
  }

  lemma VerdictTrust(list: Conditions, generation: nat, a: Answers)
    requires Trustworthy(list)
    ensures Trustworthy(SetCondition(list, Verdict(generation, a))) <==>
      CheckReady(a).Some? || Holds(list, NetworkPolicyUpserted)
  {
    SetConditionHolds(list, Verdict(generation, a), NetworkPolicyUpserted);
    SetConditionHolds(list, Verdict(generation, a), ReadyType);
  }

  /**
   That breaks the promise exactly if the reconcile goes through and finds the producer ready, the old copy already said
   what the first patch wants to say, and the new object does not have its network policy.
   */
  lemma RecreationBreaksTrustIff(read: Conditions, recreated: Conditions, generation: nat, renewed: nat, a: Answers)
    requires Trustworthy(read) && Trustworthy(recreated)
    ensures !Trustworthy(ReconciledOver(read, recreated, generation, renewed, a)) <==>
      && PatchesTwice(a) && CheckReady(a).None?
      && SetCondition(read, Upserted(generation)) == read && !Holds(recreated, NetworkPolicyUpserted)
  {
    FirstPatchTrust(read, recreated, generation, a);
    VerdictTrust(FirstPatched(read, recreated, generation, a), renewed, a);
  }

  /**
   The same, if an answer of the server without conditions leaves the list in memory as it was. Then the promise breaks
   only for a new object that has conditions already.
   */
  function ReconciledKeeping(read: Conditions, recreated: Conditions, generation: nat, renewed: nat, a: Answers)
    : Conditions
  {
    var first := FirstPatched(read, recreated, generation, a);
    var memory := if first == [] then SetCondition(read, Upserted(generation)) else first;
    if PatchesTwice(a) then Patched(first, memory, SetCondition(memory, Verdict(renewed, a))) else first
  }

  lemma KeepingBreaksTrustIff(read: Conditions, recreated: Conditions, generation: nat, renewed: nat, a: Answers)
    requires Trustworthy(read) && Trustworthy(recreated)
    ensures !Trustworthy(ReconciledKeeping(read, recreated, generation, renewed, a)) <==>
      && PatchesTwice(a) && CheckReady(a).None?
      && SetCondition(read, Upserted(generation)) == read && !Holds(recreated, NetworkPolicyUpserted) && recreated != []
  {
    var first, next := FirstPatched(read, recreated, generation, a), SetCondition(read, Upserted(generation));
    FirstPatchTrust(read, recreated, generation, a);
    VerdictTrust(first, renewed, a);
    SetConditionHolds(read, Upserted(generation), NetworkPolicyUpserted);
    SetConditionHolds(read, Upserted(generation), ReadyType);
    VerdictTrust(next, renewed, a);
  }
}
