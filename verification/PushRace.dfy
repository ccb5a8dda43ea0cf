/** Exactly when a setter call inside a pass can lead to two attempts for one provider: the scan, the
    check for a registration and the insertion of a new one take the lock separately. */
module PushRace {
  import opened Prelude
  import opened PushModel
  import opened PushSafety
  import opened PushProviders
  import opened PushConvergence
  import opened PushRoom

  ghost predicate IsQuietPath(path: seq<Sys>) {
    |path| > 0 && forall i :: 0 <= i < |path| - 1 ==> QuietStep(path[i], path[i + 1])
  }

  /** From `s` to `t` without a stirring setter call. */
  ghost predicate Reaches(s: Sys, t: Sys) {
    exists path :: IsQuietPath(path) && path[0] == s && path[|path| - 1] == t
  }

  /** From here on, without a further stirring call, a provider can come to have two attempts. */
  ghost predicate CanDuplicate(s: Sys) {
    exists t :: Reaches(s, t) && !OnePerProvider(t.m)
  }

  lemma ReachesSelf(s: Sys)
    ensures Reaches(s, s)
  {
    assert IsQuietPath([s]) && [s][0] == s && [s][|[s]| - 1] == s;
  }

  lemma ReachesNext(s: Sys, t: Sys, a: Action)
    requires Reaches(s, t) && Enabled(t, a) && !Stirs(t, a)
    ensures Reaches(s, Next(t, a))
  {
    var path :| IsQuietPath(path) && path[0] == s && path[|path| - 1] == t;
    var u := Next(t, a);
    assert QuietStep(t, u);
    QuietPathGrows(path, u);
    assert (path + [u])[0] == s && (path + [u])[|path + [u]| - 1] == u;
  }

  lemma QuietPathGrows(path: seq<Sys>, u: Sys)
    requires IsQuietPath(path) && QuietStep(path[|path| - 1], u)
    ensures IsQuietPath(path + [u])
  {
    var longer := path + [u];
    forall i | 0 <= i < |longer| - 1
      ensures QuietStep(longer[i], longer[i + 1])
    {
      if i < |path| - 1 { assert QuietStep(path[i], path[i + 1]); }
    }
  }

  /** Some run, stirring or not, ends here. */
  ghost predicate Reachable(s: Sys) {
    exists run :: IsRun(run) && run[|run| - 1] == s
  }

  lemma ReachableNext(s: Sys, t: Sys)
    requires Reachable(s) && Step(s, t)
    ensures Reachable(t)
  {
    var run :| IsRun(run) && run[|run| - 1] == s;
    var longer := run + [t];
    forall i | 0 <= i < |longer| - 1
      ensures Step(longer[i], longer[i + 1])
    {
      if i < |run| - 1 { assert Step(run[i], run[i + 1]); }
    }
    assert IsRun(longer) && longer[|longer| - 1] == t;
  }

  lemma {:induction false} PathReachable(path: seq<Sys>, i: nat)
    requires IsQuietPath(path) && i < |path| && Reachable(path[0])
    ensures Reachable(path[i])
  {
    if i > 0 {
      PathReachable(path, i - 1);
      assert QuietStep(path[i - 1], path[(i - 1) + 1]);
      ReachableNext(path[i - 1], path[i]);
    }
  }

  lemma ReachableInv(s: Sys)
    requires Reachable(s)
    ensures Inv(s) && Tidy(s)
  {
    var run :| IsRun(run) && run[|run| - 1] == s;
    RunInv(run, |run| - 1);
    RunTidy(run, |run| - 1);
  }

  lemma InvAt(s: Sys, t: Sys)
    requires Reachable(s) && Reaches(s, t)
    ensures Inv(t) && Tidy(t)
  {
    var path :| IsQuietPath(path) && path[0] == s && path[|path| - 1] == t;
    PathReachable(path, |path| - 1);
    ReachableInv(t);
  }

  // ---------- without stirring ----------

  lemma QuietNext(s: Sys, t: Sys)
    requires Inv(s) && QuietInv(s) && QuietStep(s, t)
    ensures Inv(t) && QuietInv(t)
  {
    var a :| Enabled(s, a) && t == Next(s, a) && !Stirs(s, a);
    StepKeeps(s, a);
    QuietKeeps(s, a);
  }

  lemma {:induction false} QuietPathInv(path: seq<Sys>, i: nat)
    requires IsQuietPath(path) && i < |path| && Inv(path[0]) && QuietInv(path[0])
    ensures Inv(path[i]) && QuietInv(path[i])
  {
    if i > 0 {
      QuietPathInv(path, i - 1);
      assert QuietStep(path[i - 1], path[(i - 1) + 1]);
      QuietNext(path[i - 1], path[i]);
    }
  }

  lemma QuietNeverDuplicates(s: Sys)
    requires Inv(s) && QuietInv(s)
    ensures !CanDuplicate(s)
  {
    forall t | Reaches(s, t)
      ensures OnePerProvider(t.m)
    {
      var path :| IsQuietPath(path) && path[0] == s && path[|path| - 1] == t;
      QuietPathInv(path, |path| - 1);
    }
  }

  // ---------- the steps of the pass that follow ----------

  /** What the lemmas below carry along: the same desires, permission, session and generation. */
  predicate SameWishes(s: Sys, t: Sys) {
    && t.m.permission == s.m.permission && t.m.desired == s.m.desired
    && t.m.session == s.m.session && t.generation == s.generation
  }

  lemma PassKeepsWishes(s: Sys, a: Action)
    requires IsSuccess(a) && Enabled(s, a)
    ensures SameWishes(s, Next(s, a))
  {
    if a.StepJournal? {
      assert SameWishes(s, NextJournal(s, a.secret, a.save));
    }
  }

  /** One successful step of the pass. */
  lemma Go(s: Sys, t: Sys, a: Action)
    requires Reaches(s, t) && IsSuccess(a) && Enabled(t, a)
    ensures Reaches(s, Next(t, a)) && SameWishes(t, Next(t, a))
  {
    ReachesNext(s, t, a);
    PassKeepsWishes(t, a);
  }

  /** With unique attempts, a wanted input is journaled. */
  lemma Journals(s: Sys, t: Sys) returns (secret: string)
    requires Reachable(s) && Reaches(s, t) && t.pc.RegJournaling? && t.pc.inputs != [] && OnePerProvider(t.m) && Wanted(t)
    ensures secret !in t.used && Digest(secret) !in t.m.attempts
    ensures t.m.journal.Some? && |t.m.journal.value.entries| < CAPACITY
  {
    InvAt(s, t);
    secret := FreshSecret(t.used.Keys);
    InvStatus(t);
    FewAttempts(t);
    FreshId(t, secret);
  }

  lemma Inserted(t: Sys, secret: string)
    requires t.pc.RegJournaling? && t.pc.inputs != [] && Wanted(t)
    requires secret !in t.used && Digest(secret) !in t.m.attempts
    requires t.m.journal.Some? && |t.m.journal.value.entries| < CAPACITY
    ensures var u := NextJournal(t, secret, Saved);
            && u.pc == RegIssuing(t.pc.transport, t.pc.session, t.pc.inputs, Digest(secret))
            && u.m.attempts == t.m.attempts[Digest(secret) := Attempt(t.pc.session.epoch, t.pc.inputs[0].provider,
                                                                      InputDigest(t.pc.inputs[0]), false)]
  {
  }

  lemma TwoAttempts(m: State, n: State, id: Digest)
    requires id !in m.attempts && id in n.attempts && n.attempts == m.attempts[id := n.attempts[id]]
    requires !Unattempted(m, n.attempts[id].provider)
    ensures !OnePerProvider(n)
  {
    var x :| x in m.attempts && m.attempts[x].provider == n.attempts[id].provider;
    assert x in n.attempts && x != id;
  }

  /** Between check and insertion, a wanted input with an attempt gets a second one. */
  lemma JournalDuplicates(s: Sys, t: Sys)
    requires Reachable(s) && Reaches(s, t) && t.pc.RegJournaling? && t.pc.inputs != [] && Wanted(t)
    requires !Unattempted(t.m, t.pc.inputs[0].provider)
    ensures CanDuplicate(s)
  {
    if OnePerProvider(t.m) {
      var secret := Journals(s, t);
      Inserted(t, secret);
      Go(s, t, StepJournal(secret, Saved));
      TwoAttempts(t.m, NextJournal(t, secret, Saved).m, Digest(secret));
    }
  }

  lemma InsertDuplicates(s: Sys, t: Sys)
    requires Reachable(s) && Reaches(s, t) && Checked(t.pc) && Wanted(t)
    requires !Unattempted(t.m, t.pc.inputs[0].provider)
    ensures CanDuplicate(s)
  {
    if t.pc.RegInspecting? {
      Go(s, t, RegInspectAnswer(true));
      JournalDuplicates(s, NextRegInspected(t, true));
    } else {
      JournalDuplicates(s, t);
    }
  }

  /** The provider has attempts, all for another token than the desired one. */
  ghost predicate Stale(m: State, p: string) {
    && p in m.desired && !Unattempted(m, p)
    && forall id :: id in m.attempts && m.attempts[id].provider == p ==> m.attempts[id].digest != InputDigest(m.desired[p])
  }

  /** The registration loop is under way with everything it needs, over the inputs desired now. */
  ghost predicate LoopLive(s: Sys)
    requires InRegister(s.pc)
  {
    && s.m.permission && s.m.session == Some(s.pc.session) && Current(s.pc.session, s.generation)
    && InputsOf(s.m, s.pc.inputs)
  }

  /** A turn of the loop for an input without a registration, up to the PUT. */
  lemma TurnInspects(s: Sys, t: Sys) returns (u: Sys)
    requires t.pc.Register? && t.pc.inputs != [] && Reaches(s, t) && LoopLive(t)
    requires !AlreadyRegistered(t.m, t.generation, t.pc.inputs[0].provider)
    ensures Reaches(s, u) && SameWishes(t, u) && u.m.attempts == t.m.attempts
    ensures u.pc == RegJournaling(t.pc.transport, t.pc.session, t.pc.inputs) && Wanted(u)
  {
    Go(s, t, StepRegister);
    Go(s, NextRegister(t), RegInspectAnswer(true));
    u := NextRegInspected(NextRegister(t), true);
  }

  lemma TurnJournals(s: Sys, t: Sys) returns (u: Sys, id: Digest)
    requires t.pc.RegJournaling? && t.pc.inputs != [] && Reachable(s) && Reaches(s, t) && OnePerProvider(t.m) && Wanted(t)
    ensures Reaches(s, u) && SameWishes(t, u) && id !in t.m.attempts
    ensures u.pc == RegIssuing(t.pc.transport, t.pc.session, t.pc.inputs, id)
    ensures u.m.attempts == t.m.attempts[id := Attempt(t.pc.session.epoch, t.pc.inputs[0].provider,
                                                       InputDigest(t.pc.inputs[0]), false)]
  {
    var secret := Journals(s, t);
    Inserted(t, secret);
    Go(s, t, StepJournal(secret, Saved));
    u, id := NextJournal(t, secret, Saved), Digest(secret);
  }

  lemma JournalOpen(s: Sys, t: Sys)
    requires Reachable(s) && Reaches(s, t) && InRegister(t.pc)
    ensures t.m.journal.Some?
  {
    InvAt(s, t);
  }

  /** The rest of that turn, confirmed at its end. */
  lemma TurnBinds(s: Sys, t: Sys) returns (u: Sys)
    requires t.pc.RegIssuing? && t.pc.inputs != [] && Reachable(s) && Reaches(s, t) && Keep(t.m, t.generation, t.pc.id)
    ensures Reaches(s, u) && SameWishes(t, u)
    ensures u.pc == Register(t.pc.transport, t.pc.session, t.pc.inputs[1..]) && u.m == Confirm(t.m, t.pc.id)
  {
    JournalOpen(s, t);
    Go(s, t, IssuePut);
    var t1 := NextPut(t);
    Go(s, t1, PutAnswer(true));
    var t2 := NextPutAnswered(t1, true);
    Go(s, t2, StepRegRecheck);
    var t3 := NextRegRecheck(t2);
    Go(s, t3, StepRegConfirm);
    u := NextRegConfirm(t3);
  }

  /** A whole turn for an input without a registration adds one attempt for it. */
  lemma TurnRegisters(s: Sys, t: Sys) returns (u: Sys, id: Digest)
    requires t.pc.Register? && t.pc.inputs != [] && Reachable(s) && Reaches(s, t) && OnePerProvider(t.m) && LoopLive(t)
    requires !AlreadyRegistered(t.m, t.generation, t.pc.inputs[0].provider)
    ensures Reaches(s, u) && SameWishes(t, u) && u.pc == Register(t.pc.transport, t.pc.session, t.pc.inputs[1..])
    ensures id !in t.m.attempts && id in u.m.attempts && u.m.attempts[id].provider == t.pc.inputs[0].provider
    ensures u.m.attempts == t.m.attempts[id := u.m.attempts[id]]
  {
    var t1 := TurnInspects(s, t);
    var t2;
    t2, id := TurnJournals(s, t1);
    u := TurnBinds(s, t2);
  }

  /** A turn of the loop for another provider leads to the next turn, and the stale attempts stay. */
  lemma TurnPasses(s: Sys, t: Sys, p: string) returns (u: Sys)
    requires t.pc.Register? && t.pc.inputs != [] && Reachable(s) && Reaches(s, t) && OnePerProvider(t.m) && LoopLive(t)
    requires t.pc.inputs[0].provider != p && Stale(t.m, p)
    ensures Reaches(s, u) && SameWishes(t, u) && Stale(u.m, p)
    ensures u.pc == Register(t.pc.transport, t.pc.session, t.pc.inputs[1..])
  {
    if AlreadyRegistered(t.m, t.generation, t.pc.inputs[0].provider) {
      Go(s, t, StepRegister);
      u := NextRegister(t);
    } else {
      var id;
      u, id := TurnRegisters(s, t);
      StaleStays(t.m, u.m, id, p);
    }
  }

  lemma StaleStays(m: State, n: State, id: Digest, p: string)
    requires Stale(m, p) && n.desired == m.desired && id !in m.attempts && id in n.attempts
    requires n.attempts == m.attempts[id := n.attempts[id]] && n.attempts[id].provider != p
    ensures Stale(n, p)
  {
    var x :| x in m.attempts && m.attempts[x].provider == p;
    assert n.attempts[x].provider == p;
  }

  lemma StaleIsUnregistered(t: Sys, p: string)
    requires Stale(t.m, p)
    ensures !AlreadyRegistered(t.m, t.generation, p)
  {
  }

  /** At the stale provider itself the loop finds it unregistered and registers it again. */
  lemma TurnDuplicates(s: Sys, t: Sys, p: string)
    requires t.pc.Register? && t.pc.inputs != [] && Reachable(s) && Reaches(s, t) && LoopLive(t)
    requires t.pc.inputs[0].provider == p && Stale(t.m, p)
    ensures CanDuplicate(s)
  {
    StaleIsUnregistered(t, p);
    var u := TurnInspects(s, t);
    JournalDuplicates(s, u);
  }

  lemma TailLive(t: Sys, u: Sys, p: string)
    requires t.pc.Register? && t.pc.inputs != [] && LoopLive(t) && SameWishes(t, u)
    requires u.pc == Register(t.pc.transport, t.pc.session, t.pc.inputs[1..])
    requires t.pc.inputs[0].provider != p && Listed(t.pc.inputs, p)
    ensures LoopLive(u) && Listed(u.pc.inputs, p)
  {
    var i :| 0 <= i < |t.pc.inputs| && t.pc.inputs[i].provider == p;
    assert u.pc.inputs[i - 1].provider == p;
  }

  lemma {:induction false} LoopDuplicates(s: Sys, t: Sys, p: string)
    requires t.pc.Register? && Reachable(s) && Reaches(s, t) && LoopLive(t)
    requires Stale(t.m, p) && Listed(t.pc.inputs, p)
    ensures CanDuplicate(s)
    decreases |t.pc.inputs|
  {
    if !OnePerProvider(t.m) {
    } else if t.pc.inputs[0].provider == p {
      TurnDuplicates(s, t, p);
    } else {
      var u := TurnPasses(s, t, p);
      TailLive(t, u, p);
      LoopDuplicates(s, u, p);
    }
  }

  /** Whatever order the snapshot lists the inputs in. */
  lemma SnapshotDuplicates(s: Sys, t: Sys, p: string, order: seq<TokenInput>)
    requires t.pc.Snapshot? && Reachable(s) && Reaches(s, t) && Enumerates(order, t.m.desired)
    requires Live(t.m, t.generation) && Stale(t.m, p)
    ensures CanDuplicate(s)
  {
    Go(s, t, StepSnapshot(order));
    EnumeratesAll(order, t.m.desired, p);
    LoopDuplicates(s, NextSnapshot(t, order), p);
  }

  // ---------- the rest of the scan ----------

  /** Nothing in `n` that was not in `m`, apart from confirmations. */
  predicate Shrinks(m: State, n: State) {
    forall id :: id in n.attempts ==> id in m.attempts && n.attempts[id].provider == m.attempts[id].provider
                                      && n.attempts[id].digest == m.attempts[id].digest
  }

  lemma HeadIsNotTail(todo: seq<Intent>)
    requires todo != [] && DistinctIds(todo)
    ensures todo[0].Id() !in Ids(todo[1..])
  {
  }

  lemma ScanPasses(s: Sys, id: Digest)
    requires s.pc.Scan? && Inv(s) && id in s.m.attempts && Passed(s, id)
    ensures var t := NextScan(s);
            (InScan(t.pc) || t.pc.Snapshot?) && t.m == s.m && Passed(t, id)
  {
    if s.pc.todo != [] {
      assert s.pc.todo[0] in s.pc.todo;
    }
  }

  lemma ReadPasses(s: Sys, id: Digest)
    requires s.pc.ReadAttempt? && s.pc.todo != [] && DistinctIds(s.pc.todo) && id in s.m.attempts && Passed(s, id)
    ensures var t := NextRead(s);
            InScan(t.pc) && t.m == s.m && Passed(t, id)
  {
    TailIds(s.pc.todo);
    HeadIsNotTail(s.pc.todo);
  }

  lemma ConfirmPasses(s: Sys, id: Digest)
    requires s.pc.Confirming? && s.pc.todo != [] && DistinctIds(s.pc.todo) && id in s.m.attempts && Passed(s, id)
    ensures var t := NextConfirm(s);
            InScan(t.pc) && Shrinks(s.m, t.m) && id in t.m.attempts && Passed(t, id)
  {
    TailIds(s.pc.todo);
    HeadIsNotTail(s.pc.todo);
  }

  lemma RemovePasses(s: Sys, id: Digest)
    requires s.pc.Removing? && s.pc.todo != [] && id in s.m.attempts && Passed(s, id)
    ensures var t := NextRemove(s, Saved);
            InScan(t.pc) && Shrinks(s.m, t.m) && id in t.m.attempts && Passed(t, id)
  {
    TailIds(s.pc.todo);
  }

  /** A successful step of the scan leaves a passed attempt passed. */
  lemma PassedStays(s: Sys, a: Action, id: Digest)
    requires InScan(s.pc) && Inv(s) && IsSuccess(a) && Enabled(s, a) && id in s.m.attempts && Passed(s, id)
    ensures var t := Next(s, a);
            (InScan(t.pc) || t.pc.Snapshot?) && Shrinks(s.m, t.m) && id in t.m.attempts && Passed(t, id)
  {
    if s.pc.Scan? { ScanPasses(s, id); }
    else if s.pc.ReadAttempt? { ReadPasses(s, id); }
    else if s.pc.Confirming? { ConfirmPasses(s, id); }
    else if s.pc.Removing? { RemovePasses(s, id); }
  }

  lemma ScanTurn(t: Sys, id: Digest) returns (a: Action)
    requires InScan(t.pc) && Inv(t) && id in t.m.attempts && Passed(t, id)
    ensures IsSuccess(a) && Enabled(t, a) && 0 <= Rank(Next(t, a)) < Rank(t)
    ensures var u := Next(t, a);
            (InScan(u.pc) || u.pc.Snapshot?) && Shrinks(t.m, u.m) && id in u.m.attempts && Passed(u, id)
  {
    a := ScanProgress(t);
    PassedStays(t, a, id);
    SuccessDescends(t, a);
  }

  lemma ScanGoes(s: Sys, t: Sys, id: Digest) returns (u: Sys)
    requires InScan(t.pc) && Reachable(s) && Reaches(s, t) && id in t.m.attempts && Passed(t, id)
    ensures (InScan(u.pc) || u.pc.Snapshot?) && Reaches(s, u) && SameWishes(t, u)
    ensures Shrinks(t.m, u.m) && id in u.m.attempts && Passed(u, id) && 0 <= Rank(u) < Rank(t)
  {
    InvAt(s, t);
    var a := ScanTurn(t, id);
    Go(s, t, a);
    u := Next(t, a);
  }

  /** The scan ends with the attempts it has passed, in front of the snapshot. */
  lemma {:induction false} ScanEnds(s: Sys, t: Sys, id: Digest) returns (u: Sys)
    requires (InScan(t.pc) || t.pc.Snapshot?) && Reachable(s) && Reaches(s, t) && id in t.m.attempts && Passed(t, id)
    ensures u.pc.Snapshot? && Reaches(s, u) && SameWishes(t, u)
    ensures Shrinks(t.m, u.m) && id in u.m.attempts
    decreases Rank(t)
  {
    if t.pc.Snapshot? {
      u := t;
    } else {
      var t1 := ScanGoes(s, t, id);
      u := ScanEnds(s, t1, id);
    }
  }

  // ---------- stirring ----------

  lemma StaleAfterScan(m: State, n: State, id: Digest)
    requires OnePerProvider(m) && Shrinks(m, n) && id in n.attempts && n.desired == m.desired && id in m.attempts
    requires m.attempts[id].provider in m.desired
    requires m.attempts[id].digest != InputDigest(m.desired[m.attempts[id].provider])
    ensures Stale(n, m.attempts[id].provider)
  {
  }

  /** Permission may come back at any time before the snapshot without stirring. */
  lemma Permitted(s: Sys, t: Sys) returns (u: Sys)
    requires t.pc.Snapshot? && Reaches(s, t)
    ensures Reaches(s, u) && u == t.(m := t.m.(permission := true))
  {
    ReachesNext(s, t, Permission(true));
    u := Next(t, Permission(true));
  }

  lemma StaleDuplicates(s: Sys, t: Sys, p: string)
    requires t.pc.Snapshot? && Reachable(s) && Reaches(s, t) && Stale(t.m, p)
    requires t.m.session.Some? && Current(t.m.session.value, t.generation)
    ensures CanDuplicate(s)
  {
    var u := Permitted(s, t);
    var order := OrderAt(s, u);
    SnapshotDuplicates(s, u, p, order);
  }

  lemma OrderAt(s: Sys, t: Sys) returns (order: seq<TokenInput>)
    requires Reachable(s) && Reaches(s, t)
    ensures Enumerates(order, t.m.desired)
  {
    InvAt(s, t);
    order := SomeOrder(t.m.desired);
  }

  /** Another token for a passed attempt: the pass will leave the old binding and add a new one. */
  lemma RotationDuplicates(s: Sys, id: Digest)
    requires (InScan(s.pc) || s.pc.Snapshot?) && Reachable(s) && OnePerProvider(s.m)
    requires s.m.session.Some? && Current(s.m.session.value, s.generation)
    requires id in s.m.attempts && Passed(s, id) && s.m.attempts[id].provider in s.m.desired
    requires s.m.attempts[id].digest != InputDigest(s.m.desired[s.m.attempts[id].provider])
    ensures CanDuplicate(s)
  {
    ReachesSelf(s);
    var t := ScanEnds(s, s, id);
    StaleAfterScan(s.m, t.m, id);
    StaleDuplicates(s, t, s.m.attempts[id].provider);
  }

  lemma StirringDuplicates(s: Sys, a: Action)
    requires Reachable(s) && QuietInv(s) && Enabled(s, a) && Stirs(s, a)
    ensures CanDuplicate(Next(s, a))
  {
    var t := Next(s, a);
    assert Step(s, t);
    ReachableNext(s, t);
    if Checked(s.pc) {
      ReachesSelf(t);
      InsertDuplicates(t, t);
    } else {
      var id :| id in s.m.attempts && Passed(s, id) && s.m.attempts[id].provider == a.input.provider
                && s.m.attempts[id].digest != InputDigest(a.input);
      RotationDuplicates(t, id);
    }
  }

  /** Exactly when: after any run without stirring, and for every step that may come next, two attempts
      for one provider can result, without any further stirring, if and only if that step stirs. */
  lemma DuplicatesIffStirred(run: seq<Sys>, a: Action)
    requires IsQuietRun(run) && Enabled(run[|run| - 1], a)
    ensures Stirs(run[|run| - 1], a) <==> CanDuplicate(Next(run[|run| - 1], a))
  {
    var s := run[|run| - 1];
    QuietRunIsRun(run);
    RunInv(run, |run| - 1);
    QuietRunInv(run, |run| - 1);
    assert Reachable(s);
    if Stirs(s, a) {
      StirringDuplicates(s, a);
    } else {
      StepKeeps(s, a);
      QuietKeeps(s, a);
      QuietNeverDuplicates(Next(s, a));
    }
  }

  // ---------- the two kinds ----------

  /** A token rotation in front of the snapshot, in every state with a current session. */
  lemma UpdateDuplicates(run: seq<Sys>, input: TokenInput, id: Digest)
    requires IsQuietRun(run)
    requires var s := run[|run| - 1];
             && s.pc.Snapshot? && s.m.session.Some? && Current(s.m.session.value, s.generation)
             && ValidInput(input) && id in s.m.attempts && s.m.attempts[id].provider == input.provider
             && s.m.attempts[id].digest != InputDigest(input)
    ensures Stirs(run[|run| - 1], Update(input)) && CanDuplicate(Next(run[|run| - 1], Update(input)))
  {
    DuplicatesIffStirred(run, Update(input));
  }

  /** Permission going off before the check and on again before the insertion, in every state where the
      loop is about to find an input registered. */
  lemma FlickerDuplicates(run: seq<Sys>, id: Digest)
    requires IsQuietRun(run)
    requires var s := run[|run| - 1];
             && s.pc.Register? && s.pc.inputs != []
             && id in s.m.attempts && s.m.attempts[id].provider == s.pc.inputs[0].provider
             && StillDesired(s.m, s.generation, s.pc.session, s.pc.inputs[0])
    ensures exists u :: Reaches(run[|run| - 1], u) && Stirs(u, Permission(true)) && CanDuplicate(Next(u, Permission(true)))
  {
    var s := run[|run| - 1];
    QuietRunIsRun(run);
    RunInv(run, |run| - 1);
    QuietRunInv(run, |run| - 1);
    assert Reachable(s);
    var u := Flickered(s);
    StirringDuplicates(u, Permission(true));
  }

  lemma Flickered(s: Sys) returns (u: Sys)
    requires s.pc.Register? && s.pc.inputs != [] && Reachable(s) && Inv(s) && QuietInv(s)
    requires !Unattempted(s.m, s.pc.inputs[0].provider) && StillDesired(s.m, s.generation, s.pc.session, s.pc.inputs[0])
    ensures Reaches(s, u) && Reachable(u) && QuietInv(u) && Stirs(u, Permission(true))
  {
    ReachesSelf(s);
    var off := s.(m := s.m.(permission := false));
    ReachesNext(s, s, Permission(false));
    QuietNext(s, off) by { assert off == Next(s, Permission(false)); }
    ReachableNext(s, off) by { assert off == Next(s, Permission(false)); }
    u := off.(pc := RegInspecting(s.pc.transport, s.pc.session, s.pc.inputs), net := Called(s.net));
    assert u == Next(off, StepRegister);
    ReachesNext(s, off, StepRegister);
    QuietNext(off, u);
    ReachableNext(off, u);
  }
}
