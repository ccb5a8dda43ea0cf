/** Convergence: one undisturbed pass whose IO succeeds brings journal, attempts and desired
    providers into bijection, and the next pass has nothing to send. */
module PushConvergence {
  import opened Prelude
  import opened PushModel
  import opened PushSafety
  import opened PushLogout
  import opened PushProviders

  /** The pass's own steps, every answer a success. */
  predicate IsSuccess(a: Action) {
    match a
    case StepScan => true
    case StepRead => true
    case InspectAnswer(valid, _) => valid
    case StepRecheck => true
    case StepConfirm => true
    case RevokeAnswer(success) => success
    case StepRemove(save) => save.Saved?
    case StepSnapshot(_) => true
    case StepRegister => true
    case RegInspectAnswer(valid) => valid
    case StepJournal(_, save) => save.Saved?
    case IssuePut => true
    case PutAnswer(success) => success
    case StepRegRecheck => true
    case StepRegConfirm => true
    case StepFinish => true
    case _ => false
  }

  ghost predicate SuccessStep(s: Sys, t: Sys) {
    exists a :: IsSuccess(a) && Enabled(s, a) && t == Next(s, a)
  }

  /** A pass with no interleaving and no failed IO: the first state is idle, the second has just
      started. */
  ghost predicate IsCleanPass(path: seq<Sys>) {
    && |path| >= 2
    && path[0].pc.Idle? && path[1] == NextStart(path[0])
    && forall i :: 1 <= i < |path| - 1 ==> SuccessStep(path[i], path[i + 1])
  }

  /** Permission is on and a current session is attached. */
  predicate Live(m: State, generation: nat) {
    m.permission && m.session.Some? && Current(m.session.value, generation)
  }

  predicate Good(m: State, generation: nat, id: Digest) {
    id in m.attempts && m.attempts[id].confirmed && Keep(m, generation, id)
  }

  ghost predicate GoodBut(m: State, generation: nat, todo: set<Digest>) {
    forall id :: id in Ids(Entries(m)) && id !in todo ==> Good(m, generation, id)
  }

  ghost predicate Attempted(m: State, provider: string) {
    exists id :: id in m.attempts && m.attempts[id].provider == provider
  }

  ghost predicate Listed(inputs: seq<TokenInput>, provider: string) {
    exists i :: 0 <= i < |inputs| && inputs[i].provider == provider
  }

  ghost predicate CoveredBy(m: State, inputs: seq<TokenInput>) {
    forall p :: p in m.desired ==> Listed(inputs, p) || Attempted(m, p)
  }

  ghost predicate InputsOf(m: State, inputs: seq<TokenInput>) {
    && DistinctProviders(inputs)
    && forall i :: 0 <= i < |inputs| ==> inputs[i].provider in m.desired && m.desired[inputs[i].provider] == inputs[i]
  }

  ghost predicate ScanGood(s: Sys)
    requires InScan(s.pc)
  {
    && Ids(s.pc.todo) <= Ids(Entries(s.m))
    && GoodBut(s.m, s.generation, Ids(s.pc.todo))
    && ((s.pc.ReadAttempt? || s.pc.Confirming?) && s.pc.todo != [] ==> Keep(s.m, s.generation, s.pc.todo[0].Id()))
  }

  predicate Sending(pc: Pc) {
    pc.RegIssuing? || pc.RegPutting? || pc.RegRechecking? || pc.RegConfirming?
  }

  ghost predicate RegisterGood(s: Sys)
    requires InRegister(s.pc)
  {
    && s.m.session == Some(s.pc.session)
    && InputsOf(s.m, s.pc.inputs)
    && CoveredBy(s.m, Ahead(s.pc))
    && GoodBut(s.m, s.generation, if Sending(s.pc) then {s.pc.id} else {})
    && (Sending(s.pc) ==> Keep(s.m, s.generation, s.pc.id))
    && (Checked(s.pc) ==> Unattempted(s.m, s.pc.inputs[0].provider))
  }

  ghost predicate CleanInv(s: Sys) {
    && OnePerProvider(s.m)
    && Live(s.m, s.generation)
    && (InScan(s.pc) ==> ScanGood(s))
    && (s.pc.Snapshot? ==> GoodBut(s.m, s.generation, {}))
    && (InRegister(s.pc) ==> RegisterGood(s))
    && (s.pc.Finishing? || s.pc.Idle? ==> GoodBut(s.m, s.generation, {}) && CoveredBy(s.m, []))
    && (s.pc.Idle? ==> s.pc.outcome.RunOk? && s.m.lastError.None?)
    && !s.pc.Attaching?
  }

  /** Journal, attempts and desired providers in bijection, everything confirmed for the current
      session and token. */
  ghost predicate Converged(m: State, generation: nat) {
    && Live(m, generation)
    && OnePerProvider(m)
    && Registered(m, generation) == m.attempts.Keys == Ids(Entries(m))
    && Providers(m, m.attempts.Keys) == m.desired.Keys
    && |Entries(m)| == |m.desired|
  }

  // ---------- the scan ----------

  lemma StartClean(s: Sys)
    requires s.pc.Idle? && Inv(s) && OnePerProvider(s.m) && Live(s.m, s.generation)
    ensures CleanInv(NextStart(s))
  {
  }

  lemma AdvanceGood(m: State, generation: nat, todo: seq<Intent>)
    requires todo != [] && Ids(todo) <= Ids(Entries(m)) && GoodBut(m, generation, Ids(todo))
    requires todo[0].Id() in Ids(Entries(m)) ==> Good(m, generation, todo[0].Id())
    ensures Ids(todo[1..]) <= Ids(Entries(m)) && GoodBut(m, generation, Ids(todo[1..]))
  {
    assert todo == [todo[0]] + todo[1..];
    assert Ids(todo) == {todo[0].Id()} + Ids(todo[1..]);
  }

  lemma ScanClean(s: Sys)
    requires s.pc.Scan? && CleanInv(s) && Inv(s)
    ensures CleanInv(NextScan(s))
  {
    var t := NextScan(s);
    assert t.m == s.m && t.generation == s.generation;
    if s.pc.todo == [] {
      assert Ids([]) == {};
    } else {
      assert s.pc.todo[0] in s.pc.todo;
      assert InScan(t.pc) && t.pc.todo == s.pc.todo && !t.pc.Confirming?;
    }
  }

  lemma ReadClean(s: Sys)
    requires s.pc.ReadAttempt? && s.pc.todo != [] && CleanInv(s)
    ensures CleanInv(NextRead(s))
  {
    var t := NextRead(s);
    assert t.m == s.m && t.generation == s.generation;
    if s.m.attempts[s.pc.todo[0].Id()].confirmed { AdvanceGood(s.m, s.generation, s.pc.todo); }
  }

  /** Within the scan, at the same intent. */
  lemma ScanMoves(s: Sys, t: Sys)
    requires InScan(s.pc) && CleanInv(s) && t.m == s.m && t.generation == s.generation
    requires InScan(t.pc) && t.pc.todo == s.pc.todo
    requires (t.pc.ReadAttempt? || t.pc.Confirming?) && t.pc.todo != [] ==> Keep(t.m, t.generation, t.pc.todo[0].Id())
    ensures CleanInv(t)
  {
  }

  lemma InspectedClean(s: Sys, active: bool)
    requires s.pc.Inspecting? && s.pc.todo != [] && CleanInv(s)
    ensures CleanInv(NextInspected(s, true, active))
  {
    ScanMoves(s, NextInspected(s, true, active));
  }

  lemma RecheckClean(s: Sys)
    requires s.pc.Rechecking? && s.pc.todo != [] && CleanInv(s)
    ensures CleanInv(NextRecheck(s))
  {
    ScanMoves(s, NextRecheck(s));
  }

  lemma RevokedClean(s: Sys)
    requires s.pc.Revoking? && s.pc.todo != [] && CleanInv(s)
    ensures CleanInv(NextRevoked(s, true))
  {
    ScanMoves(s, NextRevoked(s, true));
  }

  lemma ConfirmClean(s: Sys)
    requires s.pc.Confirming? && s.pc.todo != [] && CleanInv(s)
    ensures CleanInv(NextConfirm(s))
  {
    var m := Confirm(s.m, s.pc.todo[0].Id());
    assert GoodBut(m, s.generation, Ids(s.pc.todo));
    assert OnePerProvider(m);
    AdvanceGood(m, s.generation, s.pc.todo);
    assert NextConfirm(s) == s.(m := m, pc := Scan(s.pc.transport, s.pc.todo[1..]));
  }

  lemma DropGood(m: State, n: State, generation: nat, todo: seq<Intent>)
    requires todo != [] && DistinctIds(todo) && Ids(todo) <= Ids(Entries(m)) && GoodBut(m, generation, Ids(todo))
    requires Ids(Entries(n)) == Ids(Entries(m)) - {todo[0].Id()}
    requires n == m.(journal := n.journal, attempts := m.attempts - {todo[0].Id()})
    ensures Ids(todo[1..]) <= Ids(Entries(n)) && GoodBut(n, generation, Ids(todo[1..]))
  {
    assert todo == [todo[0]] + todo[1..];
    assert Ids(todo) == {todo[0].Id()} + Ids(todo[1..]);
    assert todo[0].Id() !in Ids(todo[1..]);
    forall id | id in Ids(Entries(n)) && id !in Ids(todo[1..])
      ensures Good(n, generation, id)
    {
      assert Good(m, generation, id);
    }
  }

  lemma RemoveClean(s: Sys)
    requires s.pc.Removing? && s.pc.todo != [] && CleanInv(s) && Inv(s)
    ensures CleanInv(NextRemove(s, Saved))
  {
    WithoutDistinct(s.m.journal.value.entries, s.pc.todo[0].Id());
    var t := NextRemove(s, Saved);
    DropGood(s.m, t.m, s.generation, s.pc.todo);
  }

  // ---------- the registration loop ----------

  function ProviderSet(inputs: seq<TokenInput>): set<string> {
    set x | x in inputs :: x.provider
  }

  lemma {:induction false} ProviderSetSize(inputs: seq<TokenInput>)
    requires DistinctProviders(inputs)
    ensures |ProviderSet(inputs)| == |inputs|
  {
    if inputs == [] {
      assert ProviderSet(inputs) == {};
    } else {
      var n := |inputs| - 1;
      ProviderSetSize(inputs[..n]);
      assert inputs == inputs[..n] + [inputs[n]];
      assert ProviderSet(inputs) == ProviderSet(inputs[..n]) + {inputs[n].provider};
      assert inputs[n].provider !in ProviderSet(inputs[..n]);
    }
  }

  lemma EnumeratesAll(order: seq<TokenInput>, desired: map<string, TokenInput>, p: string)
    requires Enumerates(order, desired) && p in desired
    ensures Listed(order, p)
  {
    ProviderSetSize(order);
    SameSizeSubset(ProviderSet(order), desired.Keys);
    assert p in ProviderSet(order);
  }

  lemma SnapshotClean(s: Sys, order: seq<TokenInput>)
    requires s.pc.Snapshot? && Enumerates(order, s.m.desired) && CleanInv(s)
    ensures CleanInv(NextSnapshot(s, order))
  {
    forall p | p in s.m.desired
      ensures Listed(order, p)
    {
      EnumeratesAll(order, s.m.desired, p);
    }
    assert NextSnapshot(s, order).m == s.m;
  }

  /** When every journaled binding is good, an attempt for the provider is a registration. */
  lemma NotRegisteredMeansUnattempted(s: Sys, provider: string)
    requires GoodBut(s.m, s.generation, {}) && s.m.attempts.Keys <= Ids(Entries(s.m))
    requires !AlreadyRegistered(s.m, s.generation, provider)
    ensures Unattempted(s.m, provider)
  {
    assert forall id :: id in s.m.attempts ==> Good(s.m, s.generation, id);
  }

  lemma SkipClean(s: Sys)
    requires s.pc.Register? && s.pc.inputs != [] && CleanInv(s)
    requires AlreadyRegistered(s.m, s.generation, s.pc.inputs[0].provider)
    ensures CleanInv(s.(pc := Register(s.pc.transport, s.pc.session, s.pc.inputs[1..])))
  {
    assert Attempted(s.m, s.pc.inputs[0].provider);
    CoverTail(s.m, s.pc.inputs);
  }

  lemma InspectClean(s: Sys)
    requires s.pc.Register? && s.pc.inputs != [] && CleanInv(s) && s.m.attempts.Keys <= Ids(Entries(s.m))
    requires !AlreadyRegistered(s.m, s.generation, s.pc.inputs[0].provider)
    ensures CleanInv(s.(pc := RegInspecting(s.pc.transport, s.pc.session, s.pc.inputs), net := Called(s.net)))
  {
    NotRegisteredMeansUnattempted(s, s.pc.inputs[0].provider);
  }

  lemma RegisterClean(s: Sys)
    requires s.pc.Register? && CleanInv(s) && s.m.attempts.Keys <= Ids(Entries(s.m))
    ensures CleanInv(NextRegister(s))
  {
    if s.pc.inputs == [] {
      assert NextRegister(s) == s.(pc := Finishing);
    } else if AlreadyRegistered(s.m, s.generation, s.pc.inputs[0].provider) {
      SkipClean(s);
    } else {
      InspectClean(s);
    }
  }

  lemma CoverTail(m: State, inputs: seq<TokenInput>)
    requires inputs != [] && CoveredBy(m, inputs) && Attempted(m, inputs[0].provider)
    ensures CoveredBy(m, inputs[1..])
  {
    forall p | p in m.desired
      ensures Listed(inputs[1..], p) || Attempted(m, p)
    {
      if !Attempted(m, p) {
        var i :| 0 <= i < |inputs| && inputs[i].provider == p;
        assert inputs[1..][i - 1].provider == p;
      }
    }
  }

  /** Within the loop, at the same input, sending the same binding or none. */
  lemma LoopMovesClean(s: Sys, t: Sys)
    requires InRegister(s.pc) && CleanInv(s) && t.m == s.m && t.generation == s.generation
    requires InRegister(t.pc) && t.pc.session == s.pc.session && t.pc.inputs == s.pc.inputs && Ahead(t.pc) == Ahead(s.pc)
    requires Sending(t.pc) == Sending(s.pc) && (Sending(t.pc) ==> t.pc.id == s.pc.id)
    requires Checked(t.pc) ==> Checked(s.pc)
    ensures CleanInv(t)
  {
  }

  lemma RegInspectedClean(s: Sys)
    requires s.pc.RegInspecting? && CleanInv(s)
    ensures CleanInv(NextRegInspected(s, true))
  {
    LoopMovesClean(s, NextRegInspected(s, true));
  }

  lemma PutClean(s: Sys)
    requires s.pc.RegIssuing? && s.pc.inputs != [] && s.m.journal.Some? && CleanInv(s)
    ensures CleanInv(NextPut(s))
  {
    LoopMovesClean(s, NextPut(s));
  }

  lemma PutAnsweredClean(s: Sys)
    requires s.pc.RegPutting? && CleanInv(s)
    ensures CleanInv(NextPutAnswered(s, true))
  {
    LoopMovesClean(s, NextPutAnswered(s, true));
  }

  lemma RegRecheckClean(s: Sys)
    requires s.pc.RegRechecking? && s.pc.inputs != [] && CleanInv(s)
    ensures CleanInv(NextRegRecheck(s))
  {
    LoopMovesClean(s, NextRegRecheck(s));
  }

  lemma ConfirmCover(m: State, id: Digest, inputs: seq<TokenInput>)
    requires CoveredBy(m, inputs)
    ensures CoveredBy(Confirm(m, id), inputs)
  {
    forall p | p in m.desired
      ensures Listed(inputs, p) || Attempted(Confirm(m, id), p)
    {
      if !Listed(inputs, p) {
        var x :| x in m.attempts && m.attempts[x].provider == p;
        assert Confirm(m, id).attempts[x].provider == p;
      }
    }
  }

  lemma RegConfirmClean(s: Sys)
    requires s.pc.RegConfirming? && s.pc.inputs != [] && CleanInv(s)
    ensures CleanInv(NextRegConfirm(s))
  {
    var m := Confirm(s.m, s.pc.id);
    assert OnePerProvider(m);
    assert GoodBut(m, s.generation, {});
    ConfirmCover(s.m, s.pc.id, s.pc.inputs[1..]);
    assert NextRegConfirm(s) == s.(m := m, pc := Register(s.pc.transport, s.pc.session, s.pc.inputs[1..]));
  }

  /** With everything in the journal good, it holds at most one entry per valid provider. */
  lemma GoodIsSmall(s: Sys)
    requires Inv(s) && OnePerProvider(s.m) && GoodBut(s.m, s.generation, {})
    ensures |Entries(s.m)| <= 3
  {
    IdsBound(Entries(s.m));
    var ids := Ids(Entries(s.m));
    assert ids <= s.m.attempts.Keys;
    ProvidersSize(s.m, ids);
    var valid := {"apns", "fcm", "getui"};
    assert Providers(s.m, ids) <= valid;
    SubsetSize(Providers(s.m, ids), valid);
  }

  /** What the state looks like once the new intent is journaled. */
  lemma JournalCleanState(s: Sys, secret: string)
    requires s.pc.RegJournaling? && s.pc.inputs != [] && secret !in s.used && CleanInv(s) && Inv(s)
    ensures var RegJournaling(transport, session, inputs) := s.pc;
            var t := NextJournal(s, secret, Saved);
            var e := Intent(secret, Digest(transport.identity), inputs[0].provider);
            && t.pc == RegIssuing(transport, session, inputs, Digest(secret))
            && t.generation == s.generation
            && Entries(t.m) == Entries(s.m) + [e]
            && t.m == s.m.(journal := t.m.journal,
                           attempts := s.m.attempts[Digest(secret) := Attempt(session.epoch, inputs[0].provider, InputDigest(inputs[0]), false)])
  {
    GoodIsSmall(s);
    assert StillDesired(s.m, s.generation, s.pc.session, s.pc.inputs[0]);
  }

  lemma JournalClean(s: Sys, secret: string)
    requires s.pc.RegJournaling? && s.pc.inputs != [] && secret !in s.used && CleanInv(s) && Inv(s)
    ensures CleanInv(NextJournal(s, secret, Saved))
  {
    JournalCleanState(s, secret);
    FreshId(s, secret);
    JournaledIsClean(s, NextJournal(s, secret, Saved), Digest(secret));
  }

  lemma JournaledIsClean(s: Sys, t: Sys, id: Digest)
    requires CleanInv(s) && s.pc.RegJournaling? && s.pc.inputs != [] && id !in s.m.attempts
    requires t.pc == RegIssuing(s.pc.transport, s.pc.session, s.pc.inputs, id) && t.generation == s.generation
    requires exists e: Intent :: e.Id() == id && Entries(t.m) == Entries(s.m) + [e]
    requires var input := s.pc.inputs[0];
             t.m == s.m.(journal := t.m.journal,
                         attempts := s.m.attempts[id := Attempt(s.pc.session.epoch, input.provider, InputDigest(input), false)])
    ensures CleanInv(t)
  {
    assert forall x :: x in Ids(Entries(t.m)) ==> x == id || x in Ids(Entries(s.m));
    forall x | x in Ids(Entries(t.m)) && x != id
      ensures Good(t.m, t.generation, x)
    {
      assert Good(s.m, s.generation, x);
    }
    JournalCover(s.m, t.m, s.pc.inputs, id);
  }

  lemma JournalCover(m: State, n: State, inputs: seq<TokenInput>, id: Digest)
    requires inputs != [] && CoveredBy(m, inputs) && n.desired == m.desired && id !in m.attempts
    requires id in n.attempts && n.attempts[id].provider == inputs[0].provider
    requires n.attempts == m.attempts[id := n.attempts[id]]
    ensures CoveredBy(n, inputs[1..])
  {
    assert Attempted(n, inputs[0].provider);
    forall p | p in n.desired
      ensures Listed(inputs, p) || Attempted(n, p)
    {
      if !Listed(inputs, p) {
        var x :| x in m.attempts && m.attempts[x].provider == p;
        assert n.attempts[x].provider == p;
      }
    }
    CoverTail(n, inputs);
  }

  lemma FinishClean(s: Sys)
    requires s.pc.Finishing? && CleanInv(s)
    ensures CleanInv(NextFinish(s))
  {
    var m := s.m.(lastError := None);
    assert forall id :: Good(m, s.generation, id) <==> Good(s.m, s.generation, id);
    forall p | p in m.desired
      ensures Attempted(m, p)
    {
      assert Attempted(s.m, p);
    }
  }

  lemma CleanKeeps(s: Sys, a: Action)
    requires CleanInv(s) && Inv(s) && Enabled(s, a) && IsSuccess(a)
    ensures CleanInv(Next(s, a))
  {
    if a.StepScan? { ScanClean(s); }
    else if a.StepRead? { ReadClean(s); }
    else if a.InspectAnswer? { InspectedClean(s, a.activeAndCurrent); }
    else if a.StepRecheck? { RecheckClean(s); }
    else if a.RevokeAnswer? { RevokedClean(s); }
    else if a.StepConfirm? { ConfirmClean(s); }
    else if a.StepRemove? { RemoveClean(s); }
    else if a.StepSnapshot? { SnapshotClean(s, a.order); }
    else if a.StepRegister? { RegisterClean(s); }
    else if a.StepJournal? { JournalClean(s, a.secret); }
    else if a.StepRegConfirm? { RegConfirmClean(s); }
    else if a.StepFinish? { FinishClean(s); }
    else if a.RegInspectAnswer? { RegInspectedClean(s); }
    else if a.IssuePut? { PutClean(s); }
    else if a.PutAnswer? { PutAnsweredClean(s); }
    else { RegRecheckClean(s); }
  }

  // ---------- convergence ----------

  lemma CleanStep(s: Sys, t: Sys)
    requires Inv(s) && CleanInv(s) && SuccessStep(s, t)
    ensures Inv(t) && CleanInv(t)
  {
    var a :| IsSuccess(a) && Enabled(s, a) && t == Next(s, a);
    StepKeeps(s, a);
    CleanKeeps(s, a);
  }

  lemma CleanStart(s: Sys)
    requires s.pc.Idle? && Inv(s) && OnePerProvider(s.m) && Live(s.m, s.generation)
    ensures Inv(NextStart(s)) && CleanInv(NextStart(s))
  {
    StartKeeps(s);
    StartClean(s);
  }

  lemma {:induction false} CleanAlong(path: seq<Sys>, i: nat)
    requires IsCleanPass(path) && 1 <= i < |path|
    requires Inv(path[0]) && OnePerProvider(path[0].m) && Live(path[0].m, path[0].generation)
    ensures Inv(path[i]) && CleanInv(path[i])
  {
    if i == 1 {
      CleanStart(path[0]);
    } else {
      CleanAlong(path, i - 1);
      assert SuccessStep(path[i - 1], path[(i - 1) + 1]);
      CleanStep(path[i - 1], path[i]);
    }
  }

  lemma CleanEndConverged(s: Sys)
    requires Inv(s) && CleanInv(s) && s.pc.Idle?
    ensures Converged(s.m, s.generation)
  {
    var ids := Ids(Entries(s.m));
    assert forall id :: id in ids ==> Good(s.m, s.generation, id);
    assert Registered(s.m, s.generation) == s.m.attempts.Keys == ids;
    forall p | p in s.m.desired
      ensures p in Providers(s.m, ids)
    {
      assert Attempted(s.m, p);
    }
    assert Providers(s.m, ids) == s.m.desired.Keys;
    ProvidersSize(s.m, ids);
    IdsBound(Entries(s.m));
  }

  lemma CleanEndStatus(s: Sys)
    requires s.pc.Idle? && CleanInv(s) && Converged(s.m, s.generation) && |Ids(Entries(s.m))| == |Entries(s.m)|
    ensures StatusOf(s.m, s.generation).phase == if s.m.desired == map[] then WaitingForToken else AllRegistered
  {
    assert |Registered(s.m, s.generation)| == |Entries(s.m)|;
  }

  lemma CleanEnd(s: Sys)
    requires s.pc.Idle? && Inv(s) && CleanInv(s)
    ensures s.pc == Idle(RunOk) && Converged(s.m, s.generation)
    ensures StatusOf(s.m, s.generation).phase == if s.m.desired == map[] then WaitingForToken else AllRegistered
  {
    CleanEndConverged(s);
    IdsBound(Entries(s.m));
    CleanEndStatus(s);
  }

  /** Convergence: from any reachable state with at most one attempt per provider, permission and a
      current session, an undisturbed pass whose IO succeeds ends in success with journal, confirmed
      attempts and desired providers in bijection, and status says so. */
  lemma Convergence(run: seq<Sys>, path: seq<Sys>)
    requires IsRun(run) && IsCleanPass(path) && path[0] == run[|run| - 1]
    requires OnePerProvider(path[0].m) && Live(path[0].m, path[0].generation)
    requires path[|path| - 1].pc.Idle?
    ensures var s := path[|path| - 1];
            && Inv(s) && s.pc == Idle(RunOk) && Converged(s.m, s.generation) && AllForNow(s)
            && StatusOf(s.m, s.generation).phase == (if s.m.desired == map[] then WaitingForToken else AllRegistered)
  {
    RunInv(run, |run| - 1);
    CleanAlong(path, |path| - 1);
    CleanEnd(path[|path| - 1]);
    RegisteredIsForNow(path[|path| - 1]);
  }

  // ---------- the pass ends ----------

  /** Steps still ahead of an undisturbed pass over `n` desired inputs, at most. */
  function PcRank(n: nat, pc: Pc): int {
    var rest := 10 * n + 3;
    match pc
    case Scan(_, todo) => 10 * |todo| + rest + 1
    case ReadAttempt(_, todo) => 10 * |todo| + rest
    case Inspecting(_, todo, _) => 10 * |todo| + rest - 1
    case Rechecking(_, todo) => 10 * |todo| + rest - 2
    case Confirming(_, todo) => 10 * |todo| + rest - 3
    case Revoking(_, todo) => 10 * |todo| + rest - 4
    case Removing(_, todo) => 10 * |todo| + rest - 5
    case Snapshot(_) => rest
    case Register(_, _, inputs) => 10 * |inputs| + 2
    case RegInspecting(_, _, inputs) => 10 * |inputs| + 1
    case RegJournaling(_, _, inputs) => 10 * |inputs|
    case RegIssuing(_, _, inputs, _) => 10 * |inputs| - 1
    case RegPutting(_, _, inputs, _) => 10 * |inputs| - 2
    case RegRechecking(_, _, inputs, _) => 10 * |inputs| - 3
    case RegConfirming(_, _, inputs, _) => 10 * |inputs| - 4
    case Finishing => 1
    case _ => 0
  }

  function Rank(s: Sys): int {
    PcRank(|s.m.desired|, s.pc)
  }

  /** A step of the pass itself leaves what is desired alone. */
  lemma DesiredStays(s: Sys, a: Action)
    requires IsSuccess(a) && Enabled(s, a)
    ensures Next(s, a).m.desired == s.m.desired
  {
    if a.StepJournal? {
      assert NextJournal(s, a.secret, a.save).m.desired == s.m.desired;
    }
  }

  lemma ScanDescends(s: Sys, a: Action, n: nat)
    requires InScan(s.pc) && IsSuccess(a) && Enabled(s, a)
    ensures 0 <= PcRank(n, Next(s, a).pc) < PcRank(n, s.pc)
  {
  }

  lemma LoopDescends(s: Sys, a: Action, n: nat)
    requires InRegister(s.pc) && (!s.pc.Register? ==> s.pc.inputs != []) && IsSuccess(a) && Enabled(s, a)
    ensures 0 <= PcRank(n, Next(s, a).pc) < PcRank(n, s.pc)
  {
  }

  lemma SuccessDescends(s: Sys, a: Action)
    requires PcInv(s) && IsSuccess(a) && Enabled(s, a)
    ensures 0 <= Rank(Next(s, a)) < Rank(s)
  {
    DesiredStays(s, a);
    if InScan(s.pc) {
      ScanDescends(s, a, |s.m.desired|);
    } else if InRegister(s.pc) {
      LoopDescends(s, a, |s.m.desired|);
    }
  }

  lemma {:induction false} FreshSecret(used: set<string>) returns (secret: string)
    ensures secret !in used
    ensures forall u :: u in used ==> |u| < |secret|
    decreases |used|
  {
    if used == {} {
      secret := "0";
    } else {
      var u :| u in used;
      var rest := FreshSecret(used - {u});
      secret := if |u| < |rest| then rest else u + "0";
    }
  }

  lemma {:induction false} SomeOrder(desired: map<string, TokenInput>) returns (order: seq<TokenInput>)
    requires forall p :: p in desired ==> desired[p].provider == p
    ensures Enumerates(order, desired)
    decreases |desired|
  {
    if desired == map[] {
      order := [];
    } else {
      var p :| p in desired;
      var rest := desired - {p};
      assert |rest.Keys| == |desired.Keys - {p}|;
      var tail := SomeOrder(rest);
      order := [desired[p]] + tail;
    }
  }

  lemma ScanProgress(s: Sys) returns (a: Action)
    requires InScan(s.pc) && PcInv(s)
    ensures Enabled(s, a) && IsSuccess(a)
  {
    match s.pc
    case Scan(_, _) => a := StepScan;
    case ReadAttempt(_, _) => a := StepRead;
    case Inspecting(_, _, _) => a := InspectAnswer(true, true);
    case Rechecking(_, _) => a := StepRecheck;
    case Confirming(_, _) => a := StepConfirm;
    case Revoking(_, _) => a := RevokeAnswer(true);
    case Removing(_, _) => a := StepRemove(Saved);
  }

  lemma RegisterProgress(s: Sys) returns (a: Action)
    requires InRegister(s.pc) && PcInv(s)
    ensures Enabled(s, a) && IsSuccess(a)
  {
    match s.pc
    case Register(_, _, _) => a := StepRegister;
    case RegInspecting(_, _, _) => a := RegInspectAnswer(true);
    case RegJournaling(_, _, _) =>
      var secret := FreshSecret(s.used.Keys);
      a := StepJournal(secret, Saved);
    case RegIssuing(_, _, _, _) => a := IssuePut;
    case RegPutting(_, _, _, _) => a := PutAnswer(true);
    case RegRechecking(_, _, _, _) => a := StepRegRecheck;
    case RegConfirming(_, _, _, _) => a := StepRegConfirm;
  }

  /** Until it has returned, a successful step of the pass is possible: it is never stuck. */
  lemma Progress(s: Sys) returns (a: Action)
    requires Inv(s) && InRun(s.pc)
    ensures Enabled(s, a) && IsSuccess(a)
  {
    if InScan(s.pc) {
      a := ScanProgress(s);
    } else if InRegister(s.pc) {
      a := RegisterProgress(s);
    } else if s.pc.Snapshot? {
      var order := SomeOrder(s.m.desired);
      a := StepSnapshot(order);
    } else {
      a := StepFinish;
    }
  }

  lemma SuccessStays(s: Sys, a: Action)
    requires InRun(s.pc) && IsSuccess(a) && Enabled(s, a)
    ensures InRun(Next(s, a).pc) || Next(s, a).pc.Idle?
  {
  }

  lemma OneStep(s: Sys) returns (t: Sys)
    requires Inv(s) && InRun(s.pc)
    ensures SuccessStep(s, t) && Inv(t) && (InRun(t.pc) || t.pc.Idle?) && 0 <= Rank(t) < Rank(s)
  {
    var a := Progress(s);
    SuccessDescends(s, a);
    SuccessStays(s, a);
    StepKeeps(s, a);
    t := Next(s, a);
  }

  /** From every reachable state of a pass, its undisturbed end can be reached. */
  lemma {:induction false} PassCompletes(s: Sys) returns (path: seq<Sys>)
    requires Inv(s) && (InRun(s.pc) || s.pc.Idle?)
    ensures |path| > 0 && path[0] == s && path[|path| - 1].pc.Idle?
    ensures forall i :: 0 <= i < |path| - 1 ==> SuccessStep(path[i], path[i + 1])
    decreases Rank(s)
  {
    if s.pc.Idle? {
      path := [s];
    } else {
      var t := OneStep(s);
      var rest := PassCompletes(t);
      path := [s] + rest;
    }
  }

  /** Whenever no pass is under way, a whole undisturbed pass exists. */
  lemma CleanPassExists(s: Sys) returns (path: seq<Sys>)
    requires Inv(s) && s.pc.Idle?
    ensures IsCleanPass(path) && path[0] == s && path[|path| - 1].pc.Idle?
  {
    StartKeeps(s);
    var rest := PassCompletes(NextStart(s));
    path := [s] + rest;
    forall i | 1 <= i < |path| - 1
      ensures SuccessStep(path[i], path[i + 1])
    {
      assert SuccessStep(rest[i - 1], rest[(i - 1) + 1]);
    }
  }

  // ---------- the next pass is silent ----------

  ghost predicate SilentInv(s: Sys) {
    && Converged(s.m, s.generation)
    && (InScan(s.pc) ==>
          && (s.pc.Scan? || s.pc.ReadAttempt?)
          && Ids(s.pc.todo) <= Ids(Entries(s.m)))
    && (InRegister(s.pc) ==> s.pc.Register? && InputsOf(s.m, s.pc.inputs))
    && !s.pc.Attaching?
  }

  lemma ConvergedKeeps(s: Sys, id: Digest)
    requires Converged(s.m, s.generation) && id in Ids(Entries(s.m))
    ensures Good(s.m, s.generation, id)
  {
    assert id in Registered(s.m, s.generation);
  }

  lemma ConvergedRegistered(s: Sys, p: string)
    requires Converged(s.m, s.generation) && p in s.m.desired
    ensures AlreadyRegistered(s.m, s.generation, p)
  {
    assert p in Providers(s.m, s.m.attempts.Keys);
    var id :| id in s.m.attempts && s.m.attempts[id].provider == p;
    ConvergedKeeps(s, id);
  }

  lemma SilentScan(s: Sys)
    requires s.pc.Scan? && Inv(s) && SilentInv(s)
    ensures SilentInv(NextScan(s)) && NextScan(s).net == s.net
  {
    if s.pc.todo != [] {
      assert s.pc.todo[0] in s.pc.todo;
      assert s.pc.todo[0].Id() in Ids(s.pc.todo);
      ConvergedKeeps(s, s.pc.todo[0].Id());
    }
    assert NextScan(s).m == s.m;
  }

  lemma SilentRead(s: Sys)
    requires s.pc.ReadAttempt? && s.pc.todo != [] && SilentInv(s)
    ensures SilentInv(NextRead(s)) && NextRead(s).net == s.net
  {
    assert s.pc.todo[0] in s.pc.todo;
    assert s.pc.todo[0].Id() in Ids(s.pc.todo);
    ConvergedKeeps(s, s.pc.todo[0].Id());
    assert Ids(s.pc.todo[1..]) <= Ids(s.pc.todo);
    assert NextRead(s).m == s.m;
  }

  lemma SilentTail(s: Sys)
    requires s.pc.Register? && s.pc.inputs != [] && SilentInv(s)
    ensures SilentInv(s.(pc := Register(s.pc.transport, s.pc.session, s.pc.inputs[1..])))
  {
  }

  lemma SilentRegister(s: Sys)
    requires s.pc.Register? && SilentInv(s)
    ensures SilentInv(NextRegister(s)) && NextRegister(s).net == s.net
  {
    if s.pc.inputs == [] {
      assert NextRegister(s) == s.(pc := Finishing);
    } else {
      ConvergedRegistered(s, s.pc.inputs[0].provider);
      SilentTail(s);
      assert NextRegister(s) == s.(pc := Register(s.pc.transport, s.pc.session, s.pc.inputs[1..]));
    }
  }

  lemma SilentSnapshot(s: Sys, order: seq<TokenInput>)
    requires s.pc.Snapshot? && Enumerates(order, s.m.desired) && SilentInv(s)
    ensures SilentInv(NextSnapshot(s, order)) && NextSnapshot(s, order).net == s.net
  {
    assert NextSnapshot(s, order).m == s.m;
  }

  lemma SilentFinish(s: Sys)
    requires s.pc.Finishing? && SilentInv(s)
    ensures SilentInv(NextFinish(s)) && NextFinish(s).net == s.net
  {
    assert Registered(NextFinish(s).m, s.generation) == Registered(s.m, s.generation);
  }

  lemma SilentAct(s: Sys, a: Action)
    requires Inv(s) && SilentInv(s) && Enabled(s, a) && IsSuccess(a)
    ensures SilentInv(Next(s, a)) && Next(s, a).net == s.net
  {
    if a.StepScan? { SilentScan(s); }
    else if a.StepRead? { SilentRead(s); }
    else if a.StepRegister? { SilentRegister(s); }
    else if a.StepSnapshot? { SilentSnapshot(s, a.order); }
    else { SilentFinish(s); }
  }

  lemma SilentStep(s: Sys, t: Sys)
    requires Inv(s) && SilentInv(s) && SuccessStep(s, t)
    ensures Inv(t) && SilentInv(t) && t.net == s.net
  {
    var a :| IsSuccess(a) && Enabled(s, a) && t == Next(s, a);
    StepKeeps(s, a);
    SilentAct(s, a);
  }

  lemma SilentStart(s: Sys)
    requires s.pc.Idle? && Inv(s) && Converged(s.m, s.generation)
    ensures Inv(NextStart(s)) && SilentInv(NextStart(s)) && NextStart(s).net == s.net
  {
    StartKeeps(s);
    assert NextStart(s).m == s.m;
  }

  /** After convergence an undisturbed pass makes no network call at all. */
  lemma {:induction false} SecondPassIsSilent(path: seq<Sys>, i: nat)
    requires IsCleanPass(path) && i < |path|
    requires Inv(path[0]) && Converged(path[0].m, path[0].generation)
    ensures Inv(path[i]) && SilentInv(path[i]) && path[i].net == path[0].net
  {
    if i == 1 {
      SilentStart(path[0]);
    } else if i > 1 {
      SecondPassIsSilent(path, i - 1);
      assert SuccessStep(path[i - 1], path[(i - 1) + 1]);
      SilentStep(path[i - 1], path[i]);
    }
  }

  /** After every run without a stirring setter call, with permission and a current session: two
      undisturbed passes exist, and whatever two are taken, the first converges and the second makes no
      network call and leaves it so. */
  lemma ReconcileTwice(run: seq<Sys>, first: seq<Sys>, second: seq<Sys>, i: nat)
    requires IsQuietRun(run) && Live(run[|run| - 1].m, run[|run| - 1].generation)
    requires IsCleanPass(first) && first[0] == run[|run| - 1] && first[|first| - 1].pc.Idle?
    requires IsCleanPass(second) && second[0] == first[|first| - 1] && i < |second|
    ensures first[|first| - 1].pc == Idle(RunOk) && Converged(first[|first| - 1].m, first[|first| - 1].generation)
    ensures second[i].net == second[0].net && Converged(second[i].m, second[i].generation)
  {
    QuietRunIsRun(run);
    QuietRunInv(run, |run| - 1);
    Convergence(run, first);
    SecondPassIsSilent(second, i);
  }

  lemma TwoPassesExist(run: seq<Sys>) returns (first: seq<Sys>, second: seq<Sys>)
    requires IsQuietRun(run) && run[|run| - 1].pc.Idle? && Live(run[|run| - 1].m, run[|run| - 1].generation)
    ensures IsCleanPass(first) && first[0] == run[|run| - 1] && first[|first| - 1].pc.Idle?
    ensures IsCleanPass(second) && second[0] == first[|first| - 1] && second[|second| - 1].pc.Idle?
  {
    QuietRunIsRun(run);
    QuietRunInv(run, |run| - 1);
    RunInv(run, |run| - 1);
    first := CleanPassExists(run[|run| - 1]);
    Convergence(run, first);
    second := CleanPassExists(first[|first| - 1]);
  }
}
