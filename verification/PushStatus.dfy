/** What `status` tells: in every reachable state its counts and its phase say exactly how journal,
    attempts, desires and session stand to each other. */
module PushStatus {
  import opened Prelude
  import opened PushModel
  import opened PushSafety

  predicate HasSession(s: Sys) {
    s.m.session.Some? && s.m.session.value.epoch == s.generation
  }

  /** The journaled binding is confirmed, of the current session, for a desired input, and permitted. */
  predicate Counted(s: Sys, id: Digest) {
    && s.m.permission && HasSession(s)
    && id in s.m.attempts
    && var a := s.m.attempts[id];
       a.confirmed && a.epoch == s.generation && a.provider in s.m.desired
       && a.digest == InputDigest(s.m.desired[a.provider])
  }

  function CountedIds(s: Sys): set<Digest> {
    set id | id in s.m.attempts && Counted(s, id)
  }

  lemma RegisteredIsCounted(s: Sys)
    ensures Registered(s.m, s.generation) == CountedIds(s)
  {
  }

  lemma SplitSize<T>(part: set<T>, whole: set<T>)
    requires part <= whole
    ensures |whole - part| == |whole| - |part|
  {
    assert whole == part + (whole - part);
  }

  lemma InvCounts(s: Sys)
    requires Inv(s)
    ensures CountedIds(s) <= Ids(Entries(s.m))
    ensures StatusOf(s.m, s.generation).registered == |CountedIds(s)|
    ensures StatusOf(s.m, s.generation).pending == |Ids(Entries(s.m)) - CountedIds(s)|
  {
    InvStatus(s);
    RegisteredIsCounted(s);
    SplitSize(CountedIds(s), Ids(Entries(s.m)));
  }

  /** The two counts split the journal into the bindings that count as registered and the rest. */
  lemma CountsSplitTheJournal(run: seq<Sys>, i: nat)
    requires IsRun(run) && i < |run|
    ensures var s := run[i];
            var status := StatusOf(s.m, s.generation);
            && CountedIds(s) <= Ids(Entries(s.m))
            && status.registered == |CountedIds(s)|
            && status.pending == |Ids(Entries(s.m)) - CountedIds(s)|
            && status.configured == |s.m.desired| && status.lastError == s.m.lastError
  {
    RunInv(run, i);
    InvCounts(run[i]);
  }

  lemma NothingLeft(s: Sys)
    ensures |Ids(Entries(s.m)) - CountedIds(s)| == 0 <==> forall id :: id in Ids(Entries(s.m)) ==> Counted(s, id)
  {
    var rest := Ids(Entries(s.m)) - CountedIds(s);
    if rest != {} {
      var id :| id in rest;
      assert !Counted(s, id);
    } else {
      forall id | id in Ids(Entries(s.m))
        ensures Counted(s, id)
      {
        assert id !in rest;
      }
    }
  }

  lemma NoneCounted(s: Sys)
    requires !s.m.permission || !HasSession(s) || s.m.desired == map[]
    ensures (forall id :: id in Ids(Entries(s.m)) ==> Counted(s, id)) <==> Entries(s.m) == []
  {
    if Entries(s.m) != [] {
      assert Entries(s.m)[0] in Entries(s.m);
      assert !Counted(s, Entries(s.m)[0].Id());
    }
  }

  /** Each phase, exactly: an error or a binding that does not count makes it pending; otherwise the first
      thing that is missing names it. */
  ghost predicate PhaseSays(s: Sys) {
    var phase := StatusOf(s.m, s.generation).phase;
    var quiet := s.m.lastError.None? && Entries(s.m) == [];
    && (phase == Disabled <==> quiet && !s.m.permission)
    && (phase == WaitingForSession <==> quiet && s.m.permission && !HasSession(s))
    && (phase == WaitingForToken <==> quiet && s.m.permission && HasSession(s) && s.m.desired == map[])
    && (phase == AllRegistered <==>
          && s.m.lastError.None? && s.m.permission && HasSession(s) && s.m.desired != map[]
          && (forall id :: id in Ids(Entries(s.m)) ==> Counted(s, id))
          && |Entries(s.m)| == |s.m.desired|)
  }

  lemma PhaseExact(s: Sys)
    requires Inv(s)
    ensures PhaseSays(s)
  {
    InvCounts(s);
    InvStatus(s);
    NothingLeft(s);
    if !s.m.permission || !HasSession(s) || s.m.desired == map[] {
      NoneCounted(s);
    }
  }

  /** In every state of every run. */
  lemma PhaseInRuns(run: seq<Sys>, i: nat)
    requires IsRun(run) && i < |run|
    ensures PhaseSays(run[i])
  {
    RunInv(run, i);
    PhaseExact(run[i]);
  }
}
