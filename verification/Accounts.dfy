/**
 No leaked accounts: an account that the operator created is still covered by a SARE with the finalizer, or gone at
 the producer, or it was given up because the producer was gone or the deletion timeout had passed.
 */
module Accounts {
  import opened Api
  import opened Registry
  import opened Pass
  import opened Operator

  /** Users leave the operator's finalizer alone and change neither producer nor consumer of a SARE. */
  predicate Respectful(w: World, e: Event) {
    && !e.StripFinalizer?
    && (e.ApplySare? && e.key in w.c.sares ==>
          e.spec.producer == w.c.sares[e.key].spec.producer && e.spec.consumer == w.c.sares[e.key].spec.consumer)
  }

  /** The SARE still carries the finalizer and answers for the account. */
  predicate Answers(c: Cluster, k: Name, account: Account) {
    k in c.sares && c.sares[k].finalizer && AccountOf(c.sares[k]) == account
  }

  ghost predicate Covered(c: Cluster, account: Account) {
    exists k :: Answers(c, k, account)
  }

  /** A pass that can still create an account has its finalizer in place; after a deletion the account is gone. */
  predicate Guarded(c: Cluster, pc: Pc) {
    && (Creating(pc) ==> Answers(c, pc.sare.name, AccountOf(pc.sare)))
    && (pc.ReadMigration? || pc.Request? ==> AccountAt(pc.sapr, pc.sare) == AccountOf(pc.sare))
    && (pc.StampProducer? || (pc.DropFinalizer? && pc.why.AccountGone?) ==> AccountOf(pc.sare) !in c.accounts)
  }

  predicate Creating(pc: Pc) {
    pc.CheckSecret? || pc.SetRunner? || pc.FindProducer? || pc.ReadMigration? || pc.Request?
  }

  /** Since the cluster was `start`, no PUT for the account has taken effect. */
  predicate Unasked(start: Cluster, c: Cluster, account: Account) {
    forall i | |start.puts| <= i < |c.puts| :: c.puts[i].account != account
  }

  /** The account was there without a SARE that answers for it, and no PUT has taken it up since. */
  ghost predicate Stray(start: Cluster, c: Cluster, account: Account) {
    account in start.accounts && !Covered(start, account) && Unasked(start, c, account)
  }

  ghost predicate Conserved(start: Cluster, w: World) {
    && start.puts <= w.c.puts
    && (forall account | account in w.c.accounts ::
          Covered(w.c, account) || account in w.c.released || Stray(start, w.c, account))
    && (w.pass.Some? ==> Guarded(w.c, w.pass.value.pc))
  }

  lemma StepGuarded(c: Cluster, m: Memory, running: Running, r: Reply)
    requires ClusterFormed(c) && PassFormed(c, running) && Guarded(c, running.pc) && !running.pc.Done?
    ensures var a := Step(c, m, running.pc, r); Guarded(a.c, a.pc)
  {
    if ReadsOnly(running.pc) {
      ReadGuarded(c, m, running.pc, r);
    } else {
      WriteGuarded(c, m, running.pc, r);
    }
  }

  lemma ReadGuarded(c: Cluster, m: Memory, pc: Pc, r: Reply)
    requires ClusterFormed(c) && Guarded(c, pc) && ReadsOnly(pc)
    ensures Step(c, m, pc, r).c == c && Guarded(c, Step(c, m, pc, r).pc)
  {
    KeepsObjectsCorrect(c, m, pc, r);
  }

  lemma WriteGuarded(c: Cluster, m: Memory, pc: Pc, r: Reply)
    requires ClusterFormed(c) && Guarded(c, pc) && !ReadsOnly(pc)
    ensures var a := Step(c, m, pc, r); Guarded(a.c, a.pc)
  {
  }

  /** A SARE stops answering for its account only by dropping the finalizer with a reason. */
  lemma StepKeepsCover(c: Cluster, m: Memory, running: Running, r: Reply, k: Name, account: Account)
    requires ClusterFormed(c) && PassFormed(c, running) && Guarded(c, running.pc) && !running.pc.Done?
    requires Answers(c, k, account)
    ensures var a := Step(c, m, running.pc, r);
      Answers(a.c, k, account) || account in a.c.released || account !in c.accounts
  {
    if KeepsObjects(running.pc) {
      KeepsObjectsCorrect(c, m, running.pc, r);
    } else if WritesSecret(running.pc) {
      WritesOneSecret(c, m, running.pc, r);
    }
  }

  /** Only a PUT creates accounts or takes them up again, and the account it creates is covered. */
  lemma StepCreates(c: Cluster, m: Memory, pc: Pc, r: Reply, account: Account)
    requires Guarded(c, pc) && account in Step(c, m, pc, r).c.accounts
    ensures var c' := Step(c, m, pc, r).c;
      || Covered(c', account)
      || (account in c.accounts && Unasked(c, c', account) && (account in c.released ==> account in c'.released))
    ensures c.puts <= Step(c, m, pc, r).c.puts
  {
    if pc.Request? && AccountOf(pc.sare) == account {
      assert Answers(Step(c, m, pc, r).c, pc.sare.name, account);
    }
  }

  lemma CallConserves(start: Cluster, w: World, r: Reply)
    requires WellFormed(w) && Enabled(w, Event.Call(r)) && Conserved(start, w)
    ensures Conserved(start, Next(w, Event.Call(r)))
  {
    var running, w' := w.pass.value, Next(w, Event.Call(r));
    StepGuarded(w.c, w.m, running, r);
    StepPuts(w.c, w.m, running.pc, r);
    forall account | account in w'.c.accounts
      ensures Covered(w'.c, account) || account in w'.c.released || Stray(start, w'.c, account)
    {
      StepCreates(w.c, w.m, running.pc, r, account);
      if !Covered(w'.c, account) && Covered(w.c, account) {
        var k :| Answers(w.c, k, account);
        StepKeepsCover(w.c, w.m, running, r, k, account);
      }
    }
  }

  lemma StepPuts(c: Cluster, m: Memory, pc: Pc, r: Reply)
    ensures c.puts <= Step(c, m, pc, r).c.puts
  {
  }

  lemma EditConserves(start: Cluster, w: World, e: Event)
    requires WellFormed(w) && EditsSares(e) && Respectful(w, e) && Conserved(start, w)
    ensures Conserved(start, Next(w, e))
  {
    var w' := Next(w, e);
    forall k, account | Answers(w.c, k, account) ensures Answers(w'.c, k, account) {
      EditKeepsAnswer(w, e, k, account);
    }
    EditSaresEffect(w, e);
  }

  /** A respectful edit leaves account and finalizer alone, and a deletion timestamp that is there. */
  predicate StillAnswers(c: Cluster, c': Cluster, k: Name, account: Account)
    requires k in c.sares
  {
    Answers(c', k, account) && (c.sares[k].deletedAt.Some? ==> c'.sares[k].deletedAt == c.sares[k].deletedAt)
  }

  lemma EditKeepsAnswer(w: World, e: Event, k: Name, account: Account)
    requires WellFormed(w) && EditsSares(e) && Respectful(w, e) && Answers(w.c, k, account)
    ensures StillAnswers(w.c, Next(w, e).c, k, account)
  {
    if e.ApplySare? {
      ApplyKeepsAnswer(w, e, k, account);
    } else if e.DeleteSare? {
      DeleteKeepsAnswer(w, e.key, k, account);
    } else if e.key in w.c.sares {
      SetKeepsAnswer(w, w.c.sares[e.key].(foreign := e.present), k, account);
    }
  }

  lemma ApplyKeepsAnswer(w: World, e: Event, k: Name, account: Account)
    requires e.ApplySare? && Respectful(w, e) && Answers(w.c, k, account)
    ensures StillAnswers(w.c, ApplySareNext(w, e.key, e.spec, e.dogu).c, k, account)
  {
  }

  lemma DeleteKeepsAnswer(w: World, key: Name, k: Name, account: Account)
    requires ClusterFormed(w.c) && Answers(w.c, k, account)
    ensures StillAnswers(w.c, DeleteSareNext(w, key).c, k, account)
  {
  }

  lemma SetKeepsAnswer(w: World, sare: Sare, k: Name, account: Account)
    requires sare.name in w.c.sares && Answers(w.c, k, account)
    requires sare == w.c.sares[sare.name].(foreign := sare.foreign)
    ensures StillAnswers(w.c, SetSare(w, sare).c, k, account)
  {
  }

  lemma OtherConserves(start: Cluster, w: World, e: Event)
    requires WellFormed(w) && Enabled(w, e) && !EditsSares(e) && !e.Call? && Conserved(start, w)
    ensures Conserved(start, Next(w, e))
  {
    var w' := Next(w, e);
    OutsideKeepsSares(w, e);
    assert forall k, account | Answers(w.c, k, account) :: Answers(w'.c, k, account);
    if w'.pass.Some? && !w'.pass.value.pc.Begin? {
      KeptStaysGuarded(w, w');
    }
  }

  /** A copy that is brought up to date answers for the same account. */
  lemma KeptStaysGuarded(w: World, w': World)
    requires ClusterFormed(w.c) && OnlyStatus(w.c, w'.c) && PassKept(w, w') && w'.pass.Some?
    requires Guarded(w.c, w.pass.value.pc)
    ensures Guarded(w'.c, w'.pass.value.pc)
  {
    var pc, pc' := w.pass.value.pc, w'.pass.value.pc;
    if Creating(pc) {
      assert Answers(w'.c, pc.sare.name, AccountOf(pc.sare));
    }
  }

  /** The run keeps to the assumption about users. */
  ghost predicate RespectfulRun(w: World, run: seq<Event>)
    requires Legal(w, run)
    decreases |run|
  {
    run == [] || (Respectful(w, run[0]) && RespectfulRun(Next(w, run[0]), run[1..]))
  }

  lemma {:induction false} ConservedThroughout(start: Cluster, w: World, run: seq<Event>)
    requires WellFormed(w) && Legal(w, run) && RespectfulRun(w, run) && Conserved(start, w)
    ensures Conserved(start, Exec(w, run))
    decreases |run|
  {
    if run != [] {
      var e := run[0];
      NextFormed(w, e);
      if e.Call? {
        CallConserves(start, w, e.reply);
      } else if EditsSares(e) {
        EditConserves(start, w, e);
      } else {
        OtherConserves(start, w, e);
      }
      ConservedThroughout(start, Next(w, e), run[1..]);
    }
  }

  /** A deleted SARE with this account has lost its producer, or has been deleted for longer than the timeout. */
  ghost predicate MayGiveUp(w: World, account: Account) {
    exists k :: HopelessSare(w, k, account)
  }

  predicate HopelessSare(w: World, k: Name, account: Account) {
    && k in w.c.sares && AccountOf(w.c.sares[k]) == account && w.c.sares[k].deletedAt.Some?
    && (account.producer !in w.c.producers || w.c.clock > w.c.sares[k].deletedAt.value + w.m.timeout)
  }

  /** The pass in flight has decided to drop the finalizer without the account being gone. */
  predicate GivingUp(w: World, account: Account) {
    && w.pass.Some? && w.pass.value.pc.DropFinalizer? && !w.pass.value.pc.why.AccountGone?
    && AccountOf(w.pass.value.pc.sare) == account
  }

  /** This event is the decision, and there is a reason for it. */
  ghost predicate GivesUp(w: World, e: Event, account: Account)
    requires Enabled(w, e)
  {
    MayGiveUp(w, account) && !GivingUp(w, account) && GivingUp(Next(w, e), account)
  }

  /** An event of the run is the decision, with its reason, and from then on no PUT for the account takes effect. */
  ghost predicate GivenUpFor(w: World, run: seq<Event>, account: Account)
    requires Legal(w, run)
    decreases |run|
  {
    run != [] && (|| (GivesUp(w, run[0], account) && Unasked(w.c, Exec(w, run).c, account))
                  || GivenUpFor(Next(w, run[0]), run[1..], account))
  }

  /** The copy that a deleting pass works on was read, with its account and its age, from a SARE that is still there. */
  predicate Deciding(c: Cluster, pc: Pc) {
    pc.FindProducerToDelete? ==>
      && pc.sare.name in c.sares && AccountOf(c.sares[pc.sare.name]) == AccountOf(pc.sare)
      && c.sares[pc.sare.name].deletedAt == pc.sare.deletedAt && pc.sare.deletedAt.Some?
          && c.sares[pc.sare.name].finalizer
  }

  lemma DecisionNeedsReason(w: World, e: Event, account: Account)
    requires WellFormed(w) && Enabled(w, e)
    requires w.pass.Some? ==> Deciding(w.c, w.pass.value.pc)
    requires GivingUp(Next(w, e), account)
    ensures GivingUp(w, account) || (GivesUp(w, e, account) && Unasked(w.c, Next(w, e).c, account))
  {
    if e.Call? {
      StepNeedsReason(w, e.reply, account);
    } else if EditsSares(e) {
      EditSaresEffect(w, e);
    } else {
      OutsideKeepsSares(w, e);
    }
  }

  lemma StepNeedsReason(w: World, r: Reply, account: Account)
    requires WellFormed(w) && w.pass.Some? && !w.pass.value.pc.Done? && Deciding(w.c, w.pass.value.pc)
    requires GivingUp(CallNext(w, w.pass.value, r), account)
    ensures MayGiveUp(w, account) && !GivingUp(w, account) && CallNext(w, w.pass.value, r).c == w.c
  {
    var pc := w.pass.value.pc;
    var k := w.pass.value.key;
    assert pc.Begin? || pc.FindProducerToDelete?;
    assert HopelessSare(w, k, account);
  }

  lemma NextDeciding(w: World, e: Event)
    requires WellFormed(w) && Enabled(w, e) && Respectful(w, e)
    requires w.pass.Some? ==> Deciding(w.c, w.pass.value.pc)
    ensures Next(w, e).pass.Some? ==> Deciding(Next(w, e).c, Next(w, e).pass.value.pc)
  {
    if e.Call? {
      StepDeciding(w.c, w.m, w.pass.value, e.reply);
    } else if EditsSares(e) {
      EditSaresEffect(w, e);
      if w.pass.Some? && w.pass.value.pc.FindProducerToDelete? {
        EditKeepsDeleted(w, e, w.pass.value.pc.sare.name);
      }
    } else {
      OutsideKeepsSares(w, e);
    }
  }

  lemma StepDeciding(c: Cluster, m: Memory, running: Running, r: Reply)
    requires ClusterFormed(c) && PassFormed(c, running) && !running.pc.Done?
    ensures var a := Step(c, m, running.pc, r); Deciding(a.c, a.pc)
  {
    DeletionStarts(c, m, running.pc, r);
  }

  lemma DeletionStarts(c: Cluster, m: Memory, pc: Pc, r: Reply)
    ensures Step(c, m, pc, r).pc.FindProducerToDelete? ==> pc.Begin?
  {
  }

  lemma EditKeepsDeleted(w: World, e: Event, k: Name)
    requires WellFormed(w) && EditsSares(e) && Respectful(w, e)
    requires k in w.c.sares && w.c.sares[k].finalizer && w.c.sares[k].deletedAt.Some?
    ensures var c' := Next(w, e).c;
      && k in c'.sares && AccountOf(c'.sares[k]) == AccountOf(w.c.sares[k])
      && c'.sares[k].deletedAt == w.c.sares[k].deletedAt && c'.sares[k].finalizer
  {
    EditKeepsAnswer(w, e, k, AccountOf(w.c.sares[k]));
  }

  /** What is given up after an event was so before it, or the event ends the pass that has decided. */
  lemma ReleaseNeedsDecision(w: World, e: Event, account: Account)
    requires WellFormed(w) && Enabled(w, e) && account in Next(w, e).c.released
    ensures (account in w.c.released || GivingUp(w, account)) && Unasked(w.c, Next(w, e).c, account)
  {
    if e.Call? {
      StepReleases(w.c, w.m, w.pass.value.pc, e.reply, account);
    } else if EditsSares(e) {
      EditSaresEffect(w, e);
    } else {
      OutsideKeepsSares(w, e);
    }
  }

  lemma StepReleases(c: Cluster, m: Memory, pc: Pc, r: Reply, account: Account)
    requires account in Step(c, m, pc, r).c.released
    ensures account in c.released || (pc.DropFinalizer? && !pc.why.AccountGone? && AccountOf(pc.sare) == account)
    ensures Unasked(c, Step(c, m, pc, r).c, account)
  {
  }

  lemma NextPuts(w: World, e: Event)
    requires WellFormed(w) && Enabled(w, e)
    ensures w.c.puts <= Next(w, e).c.puts
    ensures w.pass.Some? && w.pass.value.pc.DropFinalizer? ==> w.c.puts == Next(w, e).c.puts
  {
    if e.Call? {
      StepPuts(w.c, w.m, w.pass.value.pc, e.reply);
    } else if EditsSares(e) {
      EditSaresEffect(w, e);
    } else {
      OutsideKeepsSares(w, e);
    }
  }

  lemma {:induction false} PutsGrow(w: World, run: seq<Event>)
    requires WellFormed(w) && Legal(w, run)
    ensures w.c.puts <= Exec(w, run).c.puts
    decreases |run|
  {
    if run != [] {
      NextFormed(w, run[0]);
      NextPuts(w, run[0]);
      PutsGrow(Next(w, run[0]), run[1..]);
    }
  }

  lemma UnaskedOnwards(c: Cluster, c': Cluster, end: Cluster, account: Account)
    requires c.puts <= c'.puts <= end.puts && Unasked(c, c', account) && Unasked(c', end, account)
    ensures Unasked(c, end, account)
  {
    assert forall i | |c.puts| <= i < |c'.puts| :: end.puts[i] == c'.puts[i];
  }

  /**
   Whatever is given up at the end of a run was so at the start, or its pass had decided so at the start, and no PUT has
   taken it up since; or the decision is an event of the run, and was made while a deleted SARE with the account had
   lost its producer or was older than the timeout.
   */
  lemma {:induction false} ReleasesHaveReasons(w: World, run: seq<Event>, account: Account)
    requires WellFormed(w) && Legal(w, run) && RespectfulRun(w, run)
    requires w.pass.Some? ==> Deciding(w.c, w.pass.value.pc)
    requires account in Exec(w, run).c.released
    ensures || GivenUpFor(w, run, account)
            || ((account in w.c.released || GivingUp(w, account)) && Unasked(w.c, Exec(w, run).c, account))
    decreases |run|
  {
    if run != [] {
      var e, w', end := run[0], Next(w, run[0]), Exec(w, run);
      NextFormed(w, e);
      NextDeciding(w, e);
      NextPuts(w, e);
      PutsGrow(w', run[1..]);
      ReleasesHaveReasons(w', run[1..], account);
      if !GivenUpFor(w', run[1..], account) {
        if account in w'.c.released {
          ReleaseNeedsDecision(w, e, account);
        } else {
          DecisionNeedsReason(w, e, account);
        }
        UnaskedOnwards(w.c, w'.c, end.c, account);
      }
    }
  }

  /**
   An account that is found at a producer at the end of a run is covered by a SARE with the finalizer; or it has been
   given up in the run, for a reason that held when that was decided, and no PUT has taken effect since; or no PUT has
   taken effect during the whole run, and at the start it was given up or not covered.
   */
  lemma AccountsConserved(w: World, run: seq<Event>, account: Account)
    requires Initial(w) && Legal(w, run) && RespectfulRun(w, run)
    requires account in Exec(w, run).c.accounts
    ensures var end := Exec(w, run).c;
      || Covered(end, account)
      || (account in end.released && GivenUpFor(w, run, account))
      || (Unasked(w.c, end, account)
          && (account in w.c.released || (account in w.c.accounts && !Covered(w.c, account))))
  {
    ConservedThroughout(w.c, w, run);
    if account in Exec(w, run).c.released {
      ReleasesHaveReasons(w, run, account);
    }
  }
}
