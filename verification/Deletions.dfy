/** What a pass for a deleted SARE does, from its watcher to its finalizer (controller.go, reconcileDelete). */
module Deletions {
  import opened Wrappers
  import opened Api
  import opened Registry
  import opened Pass
  import opened Operator
  import opened Passes

  /** The part of the cluster that a deletion leaves alone in any case. */
  predicate Beside(c: Cluster, c': Cluster) {
    && c'.secrets == c.secrets && c'.producers == c.producers && c'.puts == c.puts && c'.born == c.born
    && c'.clock == c.clock
  }

  /** The finalizer is dropped, and the SARE is gone unless somebody else holds it. */
  predicate Dropped(c: Cluster, s: Sare, end: After) {
    && end.c.sares == (if s.foreign then c.sares[s.name := s.(finalizer := false)] else c.sares - {s.name})
    && end.woken == (if s.foreign then {} else {s.name})
  }

  lemma DropFinalizerRun(c: Cluster, m: Memory, s: Sare, why: Why, answers: Answers)
    requires s.name in c.sares && c.sares[s.name] == s
    ensures var end := Run(c, m, DropFinalizer(s, why), answers);
      && end.m == m && Beside(c, end.c) && end.c.accounts == c.accounts && end.c.executions == c.executions
      && (if answers(DropFinalizer(s, why)).ok then
            && end.pc == Done(None) && Dropped(c, s, end)
            && end.c.released ==
               if why.AccountGone? then c.released
               else c.released + {Account(s.spec.producer, s.spec.consumer)}
          else end.pc.result.Some? && end.c == c && end.woken == {})
  {
  }

  /** A pass that fails has said so in the status of its SARE, or not even that. */
  predicate OnlyTold(c: Cluster, s: Sare, end: After)
    requires s.name in c.sares
  {
    && end.pc.Done? && end.pc.result.Some? && end.woken == {} && Beside(c, end.c) && end.c.released == c.released
    && s.name in end.c.sares && end.c.sares == c.sares[s.name := s.(status := end.c.sares[s.name].status)]
  }

  lemma FailedDeletion(c: Cluster, m: Memory, s: Sare, error: Error, answers: Answers)
    requires s.name in c.sares && c.sares[s.name] == s
    ensures var end := Run(c, m, PersistFailed(s, error), answers);
      && OnlyTold(c, s, end) && end.m == m
      && end.c.accounts == c.accounts && end.c.executions == c.executions
  {
  }

  /** At a producer that is there: the account is gone before the finalizer is, or the finalizer stays. */
  ghost predicate Taken(c: Cluster, m: Memory, s: Sare, answers: Answers, end: After)
    requires s.name in c.sares
  {
    var account := Account(s.spec.producer, s.spec.consumer);
    && end.m == m && Beside(c, end.c) && end.c.released == c.released && end.pc.Done?
    && (end.pc.result.Some? ==>
          && s.name in end.c.sares && end.woken == {} && c.accounts - {account} <= end.c.accounts <= c.accounts
          && end.c.sares == c.sares[s.name := s.(status := end.c.sares[s.name].status)])
    && (end.pc.result.None? ==>
          && Dropped(c, s, end) && end.c.accounts == c.accounts - {account}
          && end.c.executions ==
             if account in c.accounts && answers(StampProducer(s)).ok && s.spec.producer in c.producers
             then c.executions[s.spec.producer := c.clock] else c.executions)
  }

  lemma CheckAccountRun(c: Cluster, m: Memory, s: Sare, sapr: Sapr, answers: Answers)
    requires s.name in c.sares && c.sares[s.name] == s
    ensures var end := Run(c, m, CheckAccount(s, sapr), answers);
      Taken(c, m, s, answers, end) && (end.pc.result.None? ==> sapr.http.Some?)
  {
    var pc := CheckAccount(s, sapr);
    var a := Step(c, m, pc, answers(pc));
    if a.pc.PersistFailed? {
      FailedDeletion(c, m, s, a.pc.error, answers);
    } else if a.pc.DeleteAccount? {
      DeleteAccountRun(c, m, s, answers);
    } else {
      DropFinalizerRun(c, m, s, AccountGone, answers);
    }
  }

  lemma DeleteAccountRun(c: Cluster, m: Memory, s: Sare, answers: Answers)
    requires s.name in c.sares && c.sares[s.name] == s && AccountOf(s) in c.accounts
    ensures Taken(c, m, s, answers, Run(c, m, DeleteAccount(s), answers))
  {
    var a := Step(c, m, DeleteAccount(s), answers(DeleteAccount(s)));
    if a.pc.PersistFailed? {
      FailedDeletion(a.c, m, s, a.pc.error, answers);
    } else {
      var b := Step(a.c, m, StampProducer(s), answers(StampProducer(s)));
      DropFinalizerRun(b.c, m, s, AccountGone, answers);
    }
  }

  /**
   A pass for a deleted SARE that succeeds: its watcher is gone; if it carried the finalizer, that is dropped, and the
   account is gone at the producer, which is told when; or nobody was asked, because the timeout has passed or the
   producer is gone, and the account is given up.
   */
  lemma DeletingPass(c: Cluster, m: Memory, k: Name, answers: Answers)
    requires ClusterFormed(c) && k in c.sares && c.sares[k].deletedAt.Some?
    requires Run(c, m, Begin(k), answers).pc == Done(None)
    ensures var s, end := c.sares[k], Run(c, m, Begin(k), answers);
      var account, given := Account(s.spec.producer, s.spec.consumer),
                            c.clock > s.deletedAt.value + m.timeout || s.spec.producer !in c.producers;
      && (Consistent(m) ==> Consistent(end.m) && Follows(end.m, k + "-" + m.namespace, None))
      && Beside(c, end.c)
      && (!s.finalizer ==> end.c == c && end.woken == {})
      && (s.finalizer ==>
            && Dropped(c, s, end)
            && end.c.accounts == (if given then c.accounts else c.accounts - {account})
            && end.c.released == (if given then c.released + {account} else c.released)
            && end.c.executions == if !given && account in c.accounts && answers(StampProducer(s)).ok
                                   then c.executions[s.spec.producer := c.clock] else c.executions)
  {
    DeletionStarts(c, m, k, answers);
    var s, m' := c.sares[k], DeleteWatcher(m, NamespacedName(k, m.namespace));
    if Consistent(m) {
      DeleteWatcherCorrect(m, NamespacedName(k, m.namespace));
    }
    if s.finalizer && c.clock > s.deletedAt.value + m.timeout {
      DropFinalizerRun(c, m', s, TimedOut, answers);
    } else if s.finalizer {
      FindProducerToDeleteRun(c, m', s, answers);
    }
  }

  /** Such a pass that fails keeps SARE and finalizer, gives nothing up, and touches at most the account. */
  lemma FailedDeletingPass(c: Cluster, m: Memory, k: Name, answers: Answers)
    requires ClusterFormed(c) && k in c.sares && c.sares[k].deletedAt.Some?
    requires Run(c, m, Begin(k), answers).pc != Done(None)
    ensures var s, end := c.sares[k], Run(c, m, Begin(k), answers);
      && Beside(c, end.c) && end.c.released == c.released && end.woken == {}
      && c.accounts - {Account(s.spec.producer, s.spec.consumer)} <= end.c.accounts <= c.accounts
      && k in end.c.sares && end.c.sares == c.sares[k := s.(status := end.c.sares[k].status)]
      && (Consistent(m) && answers(Begin(k)).ok ==> Follows(end.m, k + "-" + m.namespace, None))
  {
    if Consistent(m) {
      DeleteWatcherCorrect(m, NamespacedName(k, m.namespace));
    }
    if answers(Begin(k)).ok {
      DeletionStarts(c, m, k, answers);
      var s, m' := c.sares[k], DeleteWatcher(m, NamespacedName(k, m.namespace));
      if s.finalizer && c.clock > s.deletedAt.value + m.timeout {
        DropFinalizerRun(c, m', s, TimedOut, answers);
      } else if s.finalizer {
        FindProducerToDeleteRun(c, m', s, answers);
      }
    }
  }

  /** The watcher goes first; then it is decided whether the producer is looked for. */
  lemma DeletionStarts(c: Cluster, m: Memory, k: Name, answers: Answers)
    requires ClusterFormed(c) && k in c.sares && c.sares[k].deletedAt.Some? && answers(Begin(k)).ok
    ensures var s, m' := c.sares[k], DeleteWatcher(m, NamespacedName(k, m.namespace));
      Run(c, m, Begin(k), answers) ==
        if !s.finalizer then After(c, m', Done(None), {})
        else if c.clock > s.deletedAt.value + m.timeout then Run(c, m', DropFinalizer(s, TimedOut), answers)
        else Run(c, m', FindProducerToDelete(s), answers)
  {
  }

  lemma FindProducerToDeleteRun(c: Cluster, m: Memory, s: Sare, answers: Answers)
    requires s.name in c.sares && c.sares[s.name] == s
    ensures var end := Run(c, m, FindProducerToDelete(s), answers);
      if s.spec.producer in c.producers then Taken(c, m, s, answers, end)
      else
        && end.m == m && Beside(c, end.c) && end.c.accounts == c.accounts && end.c.executions == c.executions
        && (end.pc == Done(None) ==>
              && Dropped(c, s, end)
              && end.c.released == c.released + {Account(s.spec.producer, s.spec.consumer)})
        && (end.pc != Done(None) ==> OnlyTold(c, s, end))
  {
    var pc := FindProducerToDelete(s);
    var a := Step(c, m, pc, answers(pc));
    if a.pc.PersistFailed? {
      FailedDeletion(c, m, s, a.pc.error, answers);
    } else if a.pc.CheckAccount? {
      CheckAccountRun(c, m, s, a.pc.sapr, answers);
    } else {
      DropFinalizerRun(c, m, s, ProducerGone, answers);
    }
  }
}
