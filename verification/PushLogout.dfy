/** Logout completeness: a reconcile pass with no usable session or no permission, once it reports
    success, has emptied the journal. */
module PushLogout {
  import opened Prelude
  import opened PushModel
  import opened PushSafety

  /** Nothing may be kept: permission is off, or no current session is attached. */
  predicate LoggedOut(s: Sys) {
    !s.m.permission || s.m.session.None? || !Current(s.m.session.value, s.generation)
  }

  /** The states `i + 1 .. j` of `run` are one whole pass: it starts at `i` and returns at `j`. */
  ghost predicate IsPass(run: seq<Sys>, i: nat, j: nat) {
    && i + 1 <= j < |run|
    && run[i].pc.Idle? && run[i + 1] == NextStart(run[i])
    && (forall k :: i < k < j ==> InRun(run[k].pc))
    && run[j].pc.Idle?
  }

  /** While logged out, the journal is exactly what the pass still has to revoke. */
  ghost predicate Draining(s: Sys) {
    match s.pc
    case Scan(_, todo) => Entries(s.m) == todo
    case Revoking(_, todo) => Entries(s.m) == todo
    case Removing(_, todo) => Entries(s.m) == todo
    case Snapshot(_) => Entries(s.m) == []
    case Finishing => Entries(s.m) == []
    case Idle(outcome) => outcome.RunOk? ==> Entries(s.m) == []
    case _ => false
  }

  lemma {:induction false} WithoutAbsent(entries: seq<Intent>, id: Digest)
    requires forall e :: e in entries ==> e.Id() != id
    ensures Without(entries, id) == entries
  {
    if entries != [] {
      assert entries[0] in entries;
      assert entries == [entries[0]] + entries[1..];
      WithoutAbsent(entries[1..], id);
    }
  }

  lemma WithoutHead(entries: seq<Intent>)
    requires entries != [] && DistinctIds(entries)
    ensures Without(entries, entries[0].Id()) == entries[1..]
  {
    WithoutAbsent(entries[1..], entries[0].Id());
  }

  lemma DrainingRemove(s: Sys, save: SaveResult)
    requires s.pc.Removing? && s.pc.todo != [] && Draining(s) && DistinctIds(s.pc.todo)
    ensures Draining(NextRemove(s, save))
  {
    WithoutHead(Entries(s.m));
  }

  lemma DrainingStep(s: Sys, a: Action)
    requires Enabled(s, a) && InRun(s.pc) && LoggedOut(s) && Draining(s) && DistinctIds(Entries(s.m))
    ensures Draining(Next(s, a))
  {
    if a.StepRemove? {
      DrainingRemove(s, a.save);
    }
  }

  lemma DrainingStart(s: Sys)
    requires s.pc.Idle? && Inv(s)
    ensures Draining(NextStart(s))
  {
  }

  lemma DrainingNext(run: seq<Sys>, k: nat)
    requires IsRun(run) && k + 1 < |run| && InRun(run[k].pc) && LoggedOut(run[k]) && Draining(run[k])
    ensures Draining(run[k + 1])
  {
    RunInv(run, k);
    assert Step(run[k], run[k + 1]);
    var a :| Enabled(run[k], a) && run[k + 1] == Next(run[k], a);
    DrainingStep(run[k], a);
  }

  lemma DrainingFirst(run: seq<Sys>, i: nat)
    requires IsRun(run) && i + 1 < |run| && run[i].pc.Idle? && run[i + 1] == NextStart(run[i])
    ensures Draining(run[i + 1])
  {
    RunInv(run, i);
    DrainingStart(run[i]);
  }

  lemma {:induction false} DrainingInduction(run: seq<Sys>, i: nat, k: nat)
    requires i < k < |run| && Draining(run[i + 1])
    requires forall n :: i < n < k && Draining(run[n]) ==> Draining(run[n + 1])
    ensures Draining(run[k])
  {
    if k > i + 1 {
      DrainingInduction(run, i, k - 1);
      assert Draining(run[(k - 1) + 1]);
    }
  }

  lemma DrainingAlong(run: seq<Sys>, i: nat, j: nat, k: nat)
    requires IsRun(run) && IsPass(run, i, j) && i < k <= j
    requires forall n :: i <= n <= j ==> LoggedOut(run[n])
    ensures Draining(run[k])
  {
    DrainingFirst(run, i);
    forall n | i < n < k && Draining(run[n])
      ensures Draining(run[n + 1])
    {
      DrainingNext(run, n);
    }
    DrainingInduction(run, i, k);
  }

  /** Whatever interleaves, a pass that was logged out throughout and returned Ok leaves the
      journal empty, and every binding of that namespace has an acknowledged revoke. */
  lemma LogoutCompleteness(run: seq<Sys>, i: nat, j: nat)
    requires IsRun(run) && IsPass(run, i, j) && run[j].pc == Idle(RunOk)
    requires forall n :: i <= n <= j ==> LoggedOut(run[n])
    ensures Entries(run[j].m) == []
    ensures run[j].m.journal.Some? ==>
              forall p :: p in run[j].net.puts && p.root == run[j].m.journal.value.root ==> Revoked(run[j], p)
  {
    DrainingAlong(run, i, j, j);
    RunInv(run, j);
    if run[j].m.journal.Some? {
      forall p | p in run[j].net.puts && p.root == run[j].m.journal.value.root
        ensures Revoked(run[j], p)
      {
        AckedIsRevoked(run[j], p);
      }
    }
  }
}
