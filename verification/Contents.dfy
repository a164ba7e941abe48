/** What a controlled secret holds after any run, and that a migration never changes an existing one. */
module Contents {
  import opened Wrappers
  import opened Api
  import opened Registry
  import opened Pass
  import opened Operator

  /** The writes in order, later ones overriding earlier ones key by key. */
  function Override(data: Creds, log: seq<Creds>): Creds
    decreases |log|
  {
    if log == [] then data else Override(data + log[0], log[1..])
  }

  lemma {:induction false} OverrideAppend(data: Creds, log: seq<Creds>, creds: Creds)
    ensures Override(data, log + [creds]) == Override(data, log) + creds
    decreases |log|
  {
    if log == [] {
      assert Override(data, log + [creds]) == Override(data + creds, []);
    } else {
      assert (log + [creds])[1..] == log[1..] + [creds];
      OverrideAppend(data + log[0], log[1..], creds);
    }
  }

  /** The event is a call of a pass that stores credentials in the secret. */
  predicate StoresIn(w: World, e: Event, n: Name)
    requires Enabled(w, e)
  {
    && e.Call? && w.pass.value.pc.Store? && ResolveSecretName(w.pass.value.pc.sare) == n && e.reply.ok
    && (n in w.c.secrets ==> Controls(w.c, w.pass.value.pc.sare.uid, n))
  }

  /** What a secret held at first, and the credentials stored in it since. */
  datatype Ledger = Ledger(base: Creds, writes: seq<Creds>)

  const BLANK := Ledger(map[], [])

  /** A call that stores adds its credentials; a secret that is gone starts anew, and so does one that a user edits. */
  ghost function Entered(w: World, e: Event, n: Name, ledger: Ledger): Ledger
    requires Enabled(w, e)
  {
    if StoresIn(w, e, n) then ledger.(writes := ledger.writes + [w.pass.value.pc.creds])
    else if n !in Next(w, e).c.secrets then BLANK
    else if e.PutSecret? && e.secret == n then Ledger(e.data, [])
    else ledger
  }

  /** The ledger of a secret after a run, from the calls of the run alone. */
  ghost function Kept(w: World, run: seq<Event>, n: Name, ledger: Ledger): Ledger
    requires Legal(w, run)
    decreases |run|
  {
    if run == [] then ledger else Kept(Next(w, run[0]), run[1..], n, Entered(w, run[0], n, ledger))
  }

  /** The ledger accounts for what is in the secret, if a SARE controls it. */
  predicate Explained(c: Cluster, n: Name, ledger: Ledger) {
    && (n !in c.secrets ==> ledger == BLANK)
    && (n in c.secrets && c.secrets[n].owner.Some? ==> c.secrets[n].data == Override(ledger.base, ledger.writes))
  }

  /** Nobody but the operator edits the data of this secret while a SARE controls it. */
  predicate HandsOff(w: World, e: Event, n: Name) {
    e.PutSecret? && e.secret == n && n in w.c.secrets ==> w.c.secrets[n].owner.None?
  }

  lemma NextExplained(w: World, e: Event, n: Name, ledger: Ledger)
    requires Enabled(w, e) && Explained(w.c, n, ledger)
    ensures Explained(Next(w, e).c, n, Entered(w, e, n, ledger))
    ensures HandsOff(w, e, n) && FromNothing(w.c, n, ledger) ==>
      FromNothing(Next(w, e).c, n, Entered(w, e, n, ledger))
  {
    if e.Call? {
      CallExplained(w, e.reply, n, ledger);
      if FromNothing(w.c, n, ledger) {
        CallKeepsBase(w, e.reply, n, ledger);
      }
    } else {
      OutsideWritesNothing(w, e, n);
    }
  }

  /** If a SARE controls the secret, the ledger begins with an empty one. */
  predicate FromNothing(c: Cluster, n: Name, ledger: Ledger) {
    n in c.secrets && c.secrets[n].owner.Some? ==> ledger.base == map[]
  }

  lemma CallKeepsBase(w: World, r: Reply, n: Name, ledger: Ledger)
    requires Enabled(w, Event.Call(r)) && Explained(w.c, n, ledger) && FromNothing(w.c, n, ledger)
    ensures FromNothing(Next(w, Event.Call(r)).c, n, Entered(w, Event.Call(r), n, ledger))
  {
    var pc := w.pass.value.pc;
    if KeepsObjects(pc) {
      KeepsObjectsCorrect(w.c, w.m, pc, r);
    } else if pc.Store? {
      StoreWrites(w.c, w.m, pc, r);
    } else if pc.DropSecret? {
      WritesOneSecret(w.c, w.m, pc, r);
    } else {
      WritesOwnSare(w.c, w.m, pc, r);
    }
  }

  /** Outside of passes, a controlled secret is removed or edited, or it stays, and no secret becomes controlled. */
  lemma OutsideWritesNothing(w: World, e: Event, n: Name)
    requires Enabled(w, e) && !e.Call?
    ensures n in Next(w, e).c.secrets && Next(w, e).c.secrets[n].owner.Some? ==>
      && n in w.c.secrets && w.c.secrets[n].owner.Some?
      && (if e.PutSecret? && e.secret == n then Next(w, e).c.secrets[n].data == e.data
          else Next(w, e).c.secrets[n] == w.c.secrets[n])
  {
  }

  lemma CallExplained(w: World, r: Reply, n: Name, ledger: Ledger)
    requires Enabled(w, Event.Call(r)) && Explained(w.c, n, ledger)
    ensures Explained(Next(w, Event.Call(r)).c, n, Entered(w, Event.Call(r), n, ledger))
  {
    var pc := w.pass.value.pc;
    if KeepsObjects(pc) {
      KeepsObjectsCorrect(w.c, w.m, pc, r);
    } else if pc.Store? {
      StoreExplained(w, r, n, ledger);
    } else if pc.DropSecret? {
      WritesOneSecret(w.c, w.m, pc, r);
    } else {
      WritesOwnSare(w.c, w.m, pc, r);
    }
  }

  lemma StoreExplained(w: World, r: Reply, n: Name, ledger: Ledger)
    requires Enabled(w, Event.Call(r)) && w.pass.value.pc.Store? && Explained(w.c, n, ledger)
    ensures Explained(Next(w, Event.Call(r)).c, n, Entered(w, Event.Call(r), n, ledger))
  {
    StoreWrites(w.c, w.m, w.pass.value.pc, r);
    OverrideAppend(ledger.base, ledger.writes, w.pass.value.pc.creds);
    assert map[] + w.pass.value.pc.creds == w.pass.value.pc.creds;
  }

  /** Credentials are stored in a secret that is the SARE's own or missing, or else nothing happens. */
  lemma StoreWrites(c: Cluster, m: Memory, pc: Pc, r: Reply)
    requires pc.Store?
    ensures var n, c' := ResolveSecretName(pc.sare), Step(c, m, pc, r).c;
      if r.ok && (n in c.secrets ==> Controls(c, pc.sare.uid, n)) then
        var data := if n in c.secrets then c.secrets[n].data else map[];
        c'.secrets == c.secrets[n := Secret(Some(pc.sare.uid), data + pc.creds)]
      else c' == c
  {
    assert map[] + pc.creds == pc.creds;
  }

  ghost predicate HandsOffRun(w: World, run: seq<Event>, n: Name)
    requires Legal(w, run)
    decreases |run|
  {
    run == [] || (HandsOff(w, run[0], n) && HandsOffRun(Next(w, run[0]), run[1..], n))
  }

  lemma {:induction false} ExplainedThroughout(w: World, run: seq<Event>, n: Name, ledger: Ledger)
    requires Legal(w, run) && Explained(w.c, n, ledger)
    ensures Explained(Exec(w, run).c, n, Kept(w, run, n, ledger))
    ensures HandsOffRun(w, run, n) && FromNothing(w.c, n, ledger) ==>
      FromNothing(Exec(w, run).c, n, Kept(w, run, n, ledger))
    decreases |run|
  {
    if run != [] {
      NextExplained(w, run[0], n, ledger);
      ExplainedThroughout(Next(w, run[0]), run[1..], n, Entered(w, run[0], n, ledger));
    }
  }

  /**
   After any run, a controlled secret holds what the calls of the run have stored in it since it was last missing, in
   their order, if nobody else edits it while it is controlled. If somebody does, it holds what has been stored since,
   on top of the edit; and if it never was missing, on top of what it held at the start.
   */
  lemma ContentsAreTheWrites(w: World, run: seq<Event>, n: Name)
    requires Legal(w, run)
    requires n in Exec(w, run).c.secrets && Exec(w, run).c.secrets[n].owner.Some?
    ensures var ledger := Kept(w, run, n, if n in w.c.secrets then Ledger(w.c.secrets[n].data, []) else BLANK);
      && Exec(w, run).c.secrets[n].data == Override(ledger.base, ledger.writes)
      && (n !in w.c.secrets && HandsOffRun(w, run, n) ==> ledger.base == map[])
  {
    ExplainedThroughout(w, run, n, if n in w.c.secrets then Ledger(w.c.secrets[n].data, []) else BLANK);
  }

  /** On the way to a migration, the SARE controls no secret under its name. */
  predicate NothingToOverwrite(c: Cluster, pc: Pc) {
    && ((pc.SetRunner? || pc.FindProducer? || pc.Request?) && !pc.present ==>
          !Controls(c, pc.sare.uid, ResolveSecretName(pc.sare)))
    && (pc.ReadMigration? || (pc.Store? && pc.migrated) ==> !Controls(c, pc.sare.uid, ResolveSecretName(pc.sare)))
  }

  lemma StepNothingToOverwrite(c: Cluster, m: Memory, pc: Pc, r: Reply)
    requires NothingToOverwrite(c, pc) && !pc.Done?
    ensures var a := Step(c, m, pc, r); NothingToOverwrite(a.c, a.pc)
  {
    if ReadsOnly(pc) {
      KeepsObjectsCorrect(c, m, pc, r);
    }
  }

  /** Only passes make a SARE the controller of a secret. */
  lemma OutsideMakesNoOwner(w: World, e: Event, uid: nat, n: Name)
    requires Enabled(w, e) && !e.Call? && Controls(Next(w, e).c, uid, n)
    ensures Controls(w.c, uid, n)
  {
  }

  /** Every migration of the run creates its secret, which then holds exactly the migrated credentials. */
  ghost predicate MigrationsOnlyCreate(w: World, run: seq<Event>)
    requires Legal(w, run)
    decreases |run|
  {
    run == [] || (MigrationOnlyCreates(w, run[0]) && MigrationsOnlyCreate(Next(w, run[0]), run[1..]))
  }

  ghost predicate MigrationOnlyCreates(w: World, e: Event)
    requires Enabled(w, e)
  {
    e.Call? && w.pass.value.pc.Store? && w.pass.value.pc.migrated ==>
      var pc, n, c' := w.pass.value.pc, ResolveSecretName(w.pass.value.pc.sare), Next(w, e).c;
      || c' == w.c
      || (n !in w.c.secrets && c' == w.c.(secrets := w.c.secrets[n := Secret(Some(pc.sare.uid), pc.creds)]))
  }

  /** The pass has found no secret of its SARE and has not stored one yet. */
  predicate Vacant(pc: Pc) {
    || ((pc.FindProducer? || pc.Request?) && !pc.present)
    || pc.ReadMigration? || (pc.Store? && pc.migrated)
  }

  /** Until then a job that shares the SARE with the pass has not found a secret either, and so changes nothing. */
  ghost predicate Unspoilt(w: World) {
    && (w.pass.Some? ==> NothingToOverwrite(w.c, w.pass.value.pc))
    && (forall id | id in w.jobs && Shares(w, id) && Vacant(w.pass.value.pc) ::
          w.jobs[id].phase.ToCheck? && w.jobs[id].sare == w.pass.value.pc.sare)
  }

  lemma CallUnspoilt(w: World, r: Reply)
    requires WellFormed(w) && Enabled(w, Event.Call(r)) && Unspoilt(w)
    ensures Unspoilt(Next(w, Event.Call(r)))
  {
    StepNothingToOverwrite(w.c, w.m, w.pass.value.pc, r);
    StepStaysVacant(w.c, w.m, w.pass.value.pc, r);
  }

  lemma StepStaysVacant(c: Cluster, m: Memory, pc: Pc, r: Reply)
    ensures var pc' := Step(c, m, pc, r).pc;
      Vacant(pc') ==> pc.SetRunner? || (Vacant(pc) && pc'.sare == pc.sare && !PatchesStatus(c, pc, r))
  {
  }

  lemma JobUnspoilt(w: World, id: nat, base: Status, r: Reply)
    requires WellFormed(w) && id in w.jobs && Unspoilt(w)
    ensures Unspoilt(JobNext(w, id, base, r))
  {
    OutsideKeepsEmpty(w, JobCall(id, base, r));
    if Shares(w, id) && Vacant(w.pass.value.pc) {
      SharedJobStops(w, id, base, r);
    } else {
      JobKeepsSares(w, id, base, r);
    }
  }

  lemma SharedJobStops(w: World, id: nat, base: Status, r: Reply)
    requires id in w.jobs && Unspoilt(w) && Shares(w, id) && Vacant(w.pass.value.pc)
    ensures JobNext(w, id, base, r) == w.(jobs := w.jobs - {id})
  {
  }

  /** Where a SARE controls nothing, events outside of passes make it control nothing. */
  lemma OutsideKeepsEmpty(w: World, e: Event)
    requires Enabled(w, e) && !e.Call?
    ensures forall uid, n | Controls(Next(w, e).c, uid, n) :: Controls(w.c, uid, n)
  {
    forall uid, n | Controls(Next(w, e).c, uid, n) ensures Controls(w.c, uid, n) {
      OutsideMakesNoOwner(w, e, uid, n);
    }
  }

  lemma OutsideUnspoilt(w: World, e: Event)
    requires WellFormed(w) && Enabled(w, e) && !e.Call? && !e.JobCall? && Unspoilt(w)
    ensures Unspoilt(Next(w, e))
  {
    OutsideKeepsEmpty(w, e);
    OutsideKeepsSharing(w, e);
  }

  /** Jobs come only with a firing, and a job that shares the SARE starts from it. */
  lemma OutsideKeepsSharing(w: World, e: Event)
    requires WellFormed(w) && Enabled(w, e) && !e.Call? && !e.JobCall?
    ensures var w' := Next(w, e);
      && (w'.pass.Some? && Providing(w'.pass.value.pc) ==> w'.pass == w.pass && w'.shared == w.shared)
      && (forall id | id in w'.jobs ::
            (id in w.jobs && w'.jobs[id] == w.jobs[id])
            || (w'.jobs[id].phase.ToCheck? && (Shares(w, id) ==> w'.jobs[id].sare == w.pass.value.pc.sare)))
  {
    if EditsSares(e) {
      EditSaresEffect(w, e);
    }
  }

  lemma {:induction false} MigrationsOnlyCreateFrom(w: World, run: seq<Event>)
    requires WellFormed(w) && Legal(w, run) && Unspoilt(w)
    ensures MigrationsOnlyCreate(w, run)
    decreases |run|
  {
    if run != [] {
      var e := run[0];
      NextFormed(w, e);
      if e.Call? {
        CallUnspoilt(w, e.reply);
      } else if e.JobCall? {
        JobUnspoilt(w, e.id, e.base, e.reply);
      } else {
        OutsideUnspoilt(w, e);
      }
      MigrationsOnlyCreateFrom(Next(w, e), run[1..]);
    }
  }

  lemma MigrationsNeverOverwrite(w: World, run: seq<Event>)
    requires Initial(w) && Legal(w, run)
    ensures MigrationsOnlyCreate(w, run)
  {
    MigrationsOnlyCreateFrom(w, run);
  }
}
