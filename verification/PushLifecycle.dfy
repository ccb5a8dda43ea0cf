/** The push lifecycle as the object it is: guarded fields, methods that change them region by region,
    and the reconcile pass with its two loops. Every method extends a recorded history, and what is
    proved about histories holds of it. */
module PushLifecycle {
  import opened Prelude
  import opened PushModel
  import opened PushSafety
  import opened PushLogout
  import opened PushConvergence

  lemma RunGrows(run: seq<Sys>, a: Action)
    requires IsRun(run) && Enabled(run[|run| - 1], a)
    ensures IsRun(run + [Next(run[|run| - 1], a)])
  {
    var t := Next(run[|run| - 1], a);
    var longer := run + [t];
    forall i | 0 <= i < |longer| - 1
      ensures Step(longer[i], longer[i + 1])
    {
      if i < |run| - 1 { assert Step(run[i], run[i + 1]); }
    }
  }

  /** What a pass from `start` to the end of `run` leaves behind: every binding ever sent is durable in
      its journal or has an acknowledged revoke, and a pass that was logged out throughout and
      succeeded has emptied the open journal. */
  ghost predicate LeavesNothing(run: seq<Sys>, start: nat) {
    run != [] &&
    var s := run[|run| - 1];
    && (forall p :: p in s.net.puts ==> Revoked(s, p) || p.id in Ids(OnDisk(s.disk, p.root)))
    && (s.pc == Idle(RunOk) && (forall n :: start <= n < |run| ==> LoggedOut(run[n])) ==> Entries(s.m) == [])
  }

  lemma PassLeavesNothing(run: seq<Sys>, start: nat)
    requires IsRun(run) && IsPass(run, start, |run| - 1)
    ensures LeavesNothing(run, start)
  {
    var s := run[|run| - 1];
    forall p | p in s.net.puts
      ensures Revoked(s, p) || p.id in Ids(OnDisk(s.disk, p.root))
    {
      WriteAheadSafety(run, |run| - 1, p);
    }
    if s.pc == Idle(RunOk) && forall n :: start <= n < |run| ==> LoggedOut(run[n]) {
      LogoutCompleteness(run, start, |run| - 1);
    }
  }

  lemma JournalOpen(run: seq<Sys>)
    requires IsRun(run) && InRegister(run[|run| - 1].pc)
    ensures run[|run| - 1].m.journal.Some?
  {
    RunInv(run, |run| - 1);
  }

  class PushLifecycle {
    // the guarded state
    var permission: bool
    var desired: map<string, TokenInput>
    var session: Option<Session>
    var transport: Option<HttpClient>
    var journal: Option<Journal>
    var attempts: map<Digest, Attempt>
    var lastError: Option<string>
    // what it is used with: the generation atomic, the file system, the secrets drawn so far
    var generation: nat
    var disk: map<Root, seq<Intent>>
    var drawn: set<string>
    ghost var history: seq<Sys>

    function View(): State
      reads this
    {
      State(permission, desired, session, transport, journal, attempts, lastError)
    }

    ghost function Now(): Sys
      requires history != []
      reads this
    {
      history[|history| - 1]
    }

    ghost predicate Shows(t: Sys)
      reads this
    {
      t.m == View() && t.generation == generation && t.disk == disk && t.used.Keys == drawn
    }

    ghost predicate Valid()
      reads this
    {
      IsRun(history) && Shows(Now())
    }

    /** The history was extended by `n` states. */
    ghost predicate Grown(before: seq<Sys>, n: nat)
      reads this
    {
      before <= history && |history| == |before| + n
    }

    /** From `from` on, the recorded states belong to a pass, except possibly the last. */
    ghost predicate PassSince(from: nat)
      reads this
    {
      forall k :: from <= k < |history| - 1 ==> InRun(history[k].pc)
    }

    /** A fresh process, over what earlier ones left on disk: `past` is empty-handed at its end, from the
        start or after a crash. */
    constructor (g: nat, stored: map<Root, seq<Intent>>, used: set<string>, ghost past: seq<Sys>)
      requires IsRun(past)
      requires var s := past[|past| - 1];
               s.m == EMPTY && s.pc == Idle(NotRun) && s.generation == g && s.disk == stored && s.used.Keys == used
      ensures Valid() && history == past
    {
      permission, desired, session, transport := false, map[], None, None;
      journal, attempts, lastError := None, map[], None;
      generation, disk, drawn := g, stored, used;
      history := past;
    }

    ghost method Record(a: Action)
      requires IsRun(history) && Enabled(Now(), a) && Shows(Next(Now(), a))
      modifies this`history
      ensures Valid() && history == old(history) + [Next(old(Now()), a)]
    {
      RunGrows(history, a);
      history := history + [Next(Now(), a)];
    }

    // ---------- the synchronous setters ----------

    method Update(input: TokenInput) returns (ok: bool)
      requires Valid()
      modifies this`desired, this`lastError, this`history
      ensures Valid() && ok == ValidInput(input)
      ensures desired == (if ok then old(desired)[input.provider := input] else old(desired))
      ensures lastError == (if ok then None else old(lastError))
      ensures history == old(history) + (if ok then [Next(old(Now()), PushModel.Update(input))] else [])
    {
      ok := ValidInput(input);
      if ok {
        desired, lastError := desired[input.provider := input], None;
        Record(PushModel.Update(input));
      }
    }

    method Clear(provider: string) returns (ok: bool)
      requires Valid()
      modifies this`desired, this`history
      ensures Valid() && ok == ValidProvider(provider)
      ensures desired == (if ok then old(desired) - {provider} else old(desired))
      ensures history == old(history) + (if ok then [Next(old(Now()), PushModel.Clear(provider))] else [])
    {
      ok := ValidProvider(provider);
      if ok {
        desired := desired - {provider};
        Record(PushModel.Clear(provider));
      }
    }

    method Permission(allowed: bool)
      requires Valid()
      modifies this`permission, this`history
      ensures Valid() && history == old(history) + [Next(old(Now()), PushModel.Permission(allowed))]
      ensures permission == allowed
    {
      permission := allowed;
      Record(PushModel.Permission(allowed));
    }

    method Detach()
      requires Valid()
      modifies this`session, this`history
      ensures Valid() && history == old(history) + [Next(old(Now()), PushModel.Detach)]
      ensures session.None?
    {
      session := None;
      Record(PushModel.Detach);
    }

    method StoreGeneration(g: nat)
      requires Valid() && generation < g
      modifies this`generation, this`history
      ensures Valid() && history == old(history) + [Next(old(Now()), PushModel.StoreGeneration(g))]
      ensures generation == g
    {
      generation := g;
      Record(PushModel.StoreGeneration(g));
    }

    /** What other threads may do between two lock regions: any number of setter calls. */
    method Interleave()
      requires Valid()
      modifies this`permission, this`desired, this`session, this`lastError, this`generation, this`history
      ensures Valid() && old(history) <= history && |old(history)| <= |history|
      ensures forall k :: |old(history)| - 1 <= k < |history| ==> history[k].pc == old(Now()).pc
      ensures Now().pc == old(Now()).pc
    {
      var calls: nat := *;
      while calls > 0
        invariant Valid() && old(history) <= history
        invariant forall k :: |old(history)| - 1 <= k < |history| ==> history[k].pc == old(Now()).pc
      {
        var input: TokenInput := *;
        var provider: string := *;
        var flag: bool := *;
        var g: nat := *;
        if {
          case true => var _ := Update(input);
          case true => var _ := Clear(provider);
          case true => Permission(flag);
          case true => Detach();
          case generation < g => StoreGeneration(g);
        }
        calls := calls - 1;
      }
    }

    // ---------- configure, attach, status ----------

    /** One lock region under the io lock; `opens` is whether the journal can be opened. */
    method ConfigureRegion(http: HttpClient, base: string, device: string, opens: bool) returns (ok: bool)
      modifies this`session, this`lastError, this`journal, this`attempts, this`transport
      ensures var r := ConfigureLocked(old(View()), old(disk), http, base, device, opens);
              View() == r.state && ok == r.ok
    {
      if !http.acceptable || !ValidDevice(device) {
        return false;
      }
      var root := Root(base, Namespace(http.identity, device));
      if journal.None? || journal.value.root != root {
        session := None;
        if journal.Some? && journal.value.entries != [] {
          lastError := Some("storage");
          return false;
        }
        journal := None;
        if !opens {
          lastError := Some("storage");
          return false;
        }
        journal := Some(Journal(root, if root in disk then disk[root] else []));
        attempts := map[];
        session := None;
      }
      transport := Some(http.Anonymous());
      ok := true;
    }

    method Configure(http: HttpClient, base: string, device: string, opens: bool) returns (ok: bool)
      requires Valid() && Now().pc.Idle?
      modifies this
      ensures Valid() && history == old(history) + [Next(old(Now()), PushModel.Configure(http, base, device, opens))]
      ensures ok ==> transport == Some(http.Anonymous()) && journal.Some?
                     && journal.value.root == Root(base, Namespace(http.identity, device))
    {
      ok := ConfigureRegion(http, base, device, opens);
      Record(PushModel.Configure(http, base, device, opens));
    }

    /** The first half of an attach, up to the end of the configure region. */
    method AttachStart(q: AttachRequest, opens: bool) returns (ok: bool)
      requires Valid() && Now().pc.Idle?
      modifies this
      ensures Valid() && history == old(history) + [Next(old(Now()), AttachBegin(q, opens))]
      ensures ok ==> Now().pc == Attaching(Session(q.epoch, q.device, q.http)) && transport == Some(q.http.Anonymous())
      ensures !ok ==> Now().pc == old(Now()).pc
    {
      ok := q.authentic && q.device != "" && ByteLength(q.device) <= 128 && generation == q.epoch;
      if ok {
        ok := AttachRegion(q, opens);
      } else {
        Record(AttachBegin(q, opens));
      }
    }

    method AttachRegion(q: AttachRequest, opens: bool) returns (ok: bool)
      requires Valid() && Now().pc.Idle?
      requires q.authentic && q.device != "" && ByteLength(q.device) <= 128 && generation == q.epoch
      modifies this
      ensures Valid() && history == old(history) + [NextAttachBegin(old(Now()), q, opens)]
      ensures ok == ConfigureLocked(old(View()), old(disk), q.http, q.base, q.device, opens).ok
      ensures ok ==> transport == Some(q.http.Anonymous())
    {
      ok := ConfigureRegion(q.http, q.base, q.device, opens);
      Record(AttachBegin(q, opens));
    }

    /** The second half: the session is stored only if its generation is still current. */
    method AttachFinish(attached: Session) returns (ok: bool)
      requires Valid() && Now().pc == Attaching(attached)
      modifies this`session, this`lastError, this`history
      ensures Valid() && history == old(history) + [Next(old(Now()), AttachEnd)] && Now().pc.Idle?
      ensures ok == (generation == attached.epoch)
      ensures if ok then session == Some(attached) && lastError.None?
              else session == old(session) && lastError == old(lastError)
    {
      ok := generation == attached.epoch;
      if ok {
        session, lastError := Some(attached), None;
      }
      Record(AttachEnd);
    }

    method Attach(q: AttachRequest, opens: bool) returns (ok: bool)
      requires Valid() && Now().pc.Idle?
      modifies this
      ensures Valid() && old(history) <= history && Now().pc.Idle?
      ensures ok ==> session == Some(Session(q.epoch, q.device, q.http)) && Current(session.value, generation)
                     && transport == Some(q.http.Anonymous())
    {
      ok := AttachStart(q, opens);
      if ok {
        Interleave();
        ok := AttachFinish(Session(q.epoch, q.device, q.http));
      }
    }

    method Status() returns (status: Status)
      requires Valid()
      ensures status == StatusOf(View(), generation)
      ensures status.registered + status.pending == |Entries(View())|
    {
      RunInv(history, |history| - 1);
      InvStatus(Now());
      status := StatusOf(View(), generation);
    }

    // ---------- the reconcile pass, region by region ----------

    /** Timeout or cancellation: the future is dropped at an await. */
    method CancelPass()
      requires Valid() && InRun(Now().pc)
      modifies this`history
      ensures Valid() && Grown(old(history), 1) && Now().pc == Idle(RunFailed)
    {
      Record(Cancel);
    }

    method AnswerRevoke(client: HttpClient, todo: seq<Intent>, success: bool)
      requires Valid() && todo != [] && Now().pc == Revoking(client, todo)
      modifies this`history
      ensures Valid() && Grown(old(history), 1)
      ensures Now().pc == if success then Removing(client, todo) else Idle(RunFailed)
    {
      Record(RevokeAnswer(success));
    }

    /** The lock region after a successful revoke (src/client/push_lifecycle.rs:424-428). */
    method DropIntent(id: Digest, save: SaveResult) returns (ok: bool)
      modifies this`journal, this`attempts, this`disk
      ensures ok == (old(journal).None? || save.Saved?)
      ensures attempts == if ok then old(attempts) - {id} else old(attempts)
      ensures old(journal).None? ==> disk == old(disk) && journal == None
      ensures old(journal).Some? ==>
                var next := Without(old(journal).value.entries, id);
                && disk == SaveDisk(old(disk), old(journal).value.root, next, save)
                && journal == (if ok then Some(old(journal).value.(entries := next)) else old(journal))
    {
      ok := true;
      if journal.Some? {
        var next := Without(journal.value.entries, id);
        if !save.FailedBeforeRename? {
          disk := disk[journal.value.root := next];
        }
        if !save.Saved? {
          return false;
        }
        journal := Some(journal.value.(entries := next));
      }
      attempts := attempts - {id};
    }

    method Remove(client: HttpClient, todo: seq<Intent>, save: SaveResult) returns (ok: bool)
      requires Valid() && todo != [] && Now().pc == Removing(client, todo)
      modifies this`journal, this`attempts, this`disk, this`history
      ensures Valid() && Grown(old(history), 1)
      ensures Now().pc == if ok then Scan(client, todo[1..]) else Idle(RunFailed)
    {
      ok := DropIntent(todo[0].Id(), save);
      Record(StepRemove(save));
    }

    method AwaitRevoke(client: HttpClient, todo: seq<Intent>) returns (ok: bool)
      requires Valid() && todo != [] && Now().pc == Revoking(client, todo)
      modifies this
      ensures Valid() && old(history) <= history && PassSince(|old(history)| - 1)
      ensures Now().pc == if ok then Removing(client, todo) else Idle(RunFailed)
    {
      Interleave();
      var cancelled: bool := *;
      if cancelled {
        CancelPass();
        return false;
      }
      ok := *;
      AnswerRevoke(client, todo, ok);
    }

    /** Revoke the intent at the head and drop it from the journal. */
    method Revoke(client: HttpClient, todo: seq<Intent>) returns (ok: bool)
      requires Valid() && todo != [] && Now().pc == Revoking(client, todo)
      modifies this
      ensures Valid() && old(history) <= history && PassSince(|old(history)| - 1)
      ensures Now().pc == if ok then Scan(client, todo[1..]) else Idle(RunFailed)
    {
      ok := AwaitRevoke(client, todo);
      if ok {
        Interleave();
        var save: SaveResult := *;
        ok := Remove(client, todo, save);
      }
    }

    /** The endpoint check and the first `keep`
        (src/client/push_lifecycle.rs:391-395). */
    method LookAt(client: HttpClient, todo: seq<Intent>) returns (kept: bool, ok: bool)
      requires Valid() && todo != [] && Now().pc == Scan(client, todo)
      modifies this`history
      ensures Valid() && Grown(old(history), 1)
      ensures Now().pc == if !ok then Idle(RunFailed) else if kept then ReadAttempt(client, todo) else Revoking(client, todo)
    {
      ok := todo[0].endpoint == Digest(client.identity);
      kept := Keep(View(), generation, todo[0].Id());
      Record(StepScan);
    }

    /** Whether the attempt is confirmed, and the session to ask with
        (src/client/push_lifecycle.rs:396-406). */
    method ReadHead(client: HttpClient, todo: seq<Intent>) returns (confirmed: bool, asking: Option<Session>)
      requires Valid() && todo != [] && Now().pc == ReadAttempt(client, todo)
      modifies this`history
      ensures Valid() && Grown(old(history), 1)
      ensures Now().pc == if confirmed then Scan(client, todo[1..])
                          else if asking.Some? then Inspecting(client, todo, asking.value) else Revoking(client, todo)
    {
      var id := todo[0].Id();
      confirmed := id in attempts && attempts[id].confirmed;
      asking := session;
      Record(StepRead);
    }

    method AnswerInspect(client: HttpClient, todo: seq<Intent>, asking: Session, valid: bool, active: bool)
      requires Valid() && todo != [] && Now().pc == Inspecting(client, todo, asking)
      modifies this`history
      ensures Valid() && Grown(old(history), 1)
      ensures Now().pc == if !valid then Idle(RunFailed) else if active then Rechecking(client, todo) else Revoking(client, todo)
    {
      Record(InspectAnswer(valid, active));
    }

    method Recheck(client: HttpClient, todo: seq<Intent>) returns (kept: bool)
      requires Valid() && todo != [] && Now().pc == Rechecking(client, todo)
      modifies this`history
      ensures Valid() && Grown(old(history), 1)
      ensures Now().pc == if kept then Confirming(client, todo) else Revoking(client, todo)
    {
      kept := Keep(View(), generation, todo[0].Id());
      Record(StepRecheck);
    }

    method ConfirmHead(client: HttpClient, todo: seq<Intent>)
      requires Valid() && todo != [] && Now().pc == Confirming(client, todo)
      modifies this`attempts, this`history
      ensures Valid() && Grown(old(history), 1) && Now().pc == Scan(client, todo[1..])
    {
      var id := todo[0].Id();
      if id in attempts {
        attempts := attempts[id := attempts[id].(confirmed := true)];
      }
      Record(StepConfirm);
    }

    /** Ask the server, and confirm the attempt if it still is to be kept
        (src/client/push_lifecycle.rs:407-414). */
    method AskServer(client: HttpClient, todo: seq<Intent>, asking: Session) returns (settled: bool, ok: bool)
      requires Valid() && todo != [] && Now().pc == Inspecting(client, todo, asking)
      modifies this
      ensures Valid() && old(history) <= history && PassSince(|old(history)| - 1)
      ensures Now().pc == if !ok then Idle(RunFailed) else if settled then Scan(client, todo[1..]) else Revoking(client, todo)
    {
      var active;
      ok, active := AwaitView(client, todo, asking);
      settled := false;
      if ok && active {
        settled := Settle(client, todo);
      }
    }

    method AwaitView(client: HttpClient, todo: seq<Intent>, asking: Session) returns (valid: bool, active: bool)
      requires Valid() && todo != [] && Now().pc == Inspecting(client, todo, asking)
      modifies this
      ensures Valid() && old(history) <= history && PassSince(|old(history)| - 1)
      ensures Now().pc == if !valid then Idle(RunFailed) else if active then Rechecking(client, todo) else Revoking(client, todo)
    {
      Interleave();
      var cancelled: bool := *;
      if cancelled {
        CancelPass();
        return false, false;
      }
      valid, active := *, *;
      AnswerInspect(client, todo, asking, valid, active);
    }

    method Settle(client: HttpClient, todo: seq<Intent>) returns (settled: bool)
      requires Valid() && todo != [] && Now().pc == Rechecking(client, todo)
      modifies this
      ensures Valid() && old(history) <= history && PassSince(|old(history)| - 1)
      ensures Now().pc == if settled then Scan(client, todo[1..]) else Revoking(client, todo)
    {
      Interleave();
      settled := Recheck(client, todo);
      if settled {
        SettleAfterPause(client, todo);
      }
    }

    /** The lock is released between the check and the update it allows. */
    method SettleAfterPause(client: HttpClient, todo: seq<Intent>)
      requires Valid() && todo != [] && Now().pc == Confirming(client, todo)
      modifies this
      ensures Valid() && old(history) <= history && PassSince(|old(history)| - 1)
      ensures Now().pc == Scan(client, todo[1..])
    {
      Interleave();
      ConfirmHead(client, todo);
    }

    /** One turn of the loop over the journal, from the decision to keep on: `settled` when the intent
        stays, otherwise it is to be revoked. */
    method Confirmed(client: HttpClient, todo: seq<Intent>) returns (settled: bool, ok: bool)
      requires Valid() && todo != [] && Now().pc == ReadAttempt(client, todo)
      modifies this
      ensures Valid() && old(history) <= history && PassSince(|old(history)| - 1)
      ensures Now().pc == if !ok then Idle(RunFailed) else if settled then Scan(client, todo[1..]) else Revoking(client, todo)
    {
      Interleave();
      var confirmed, asking := ReadHead(client, todo);
      if confirmed || asking.None? {
        return confirmed, true;
      }
      settled, ok := AskServer(client, todo, asking.value);
    }

    /** One turn of the loop over the journal. */
    method ReconcileIntent(client: HttpClient, todo: seq<Intent>) returns (ok: bool)
      requires Valid() && todo != [] && Now().pc == Scan(client, todo)
      modifies this
      ensures Valid() && old(history) <= history && PassSince(|old(history)| - 1)
      ensures Now().pc == if ok then Scan(client, todo[1..]) else Idle(RunFailed)
    {
      var settled;
      settled, ok := KeepOrRevoke(client, todo);
      if ok && !settled {
        ok := Revoke(client, todo);
      }
    }

    /** Up to the decision: `settled` when the intent stays, otherwise it is to be revoked. */
    method KeepOrRevoke(client: HttpClient, todo: seq<Intent>) returns (settled: bool, ok: bool)
      requires Valid() && todo != [] && Now().pc == Scan(client, todo)
      modifies this
      ensures Valid() && old(history) <= history && PassSince(|old(history)| - 1)
      ensures Now().pc == if !ok then Idle(RunFailed) else if settled then Scan(client, todo[1..]) else Revoking(client, todo)
    {
      Interleave();
      var kept;
      kept, ok := LookAt(client, todo);
      settled := false;
      if ok && kept {
        settled, ok := Confirmed(client, todo);
      }
    }

    // ---------- registration ----------

    /** The snapshot of session, permission and desires
        (src/client/push_lifecycle.rs:430-437). */
    method TakeSnapshot(client: HttpClient, order: seq<TokenInput>) returns (using: Option<Session>)
      requires Valid() && Now().pc == Snapshot(client) && Enumerates(order, desired)
      modifies this`history
      ensures Valid() && Grown(old(history), 1)
      ensures Now().pc == if using.Some? then Register(client, using.value, order) else Finishing
    {
      using := if session.Some? && permission && Current(session.value, generation) then session else None;
      Record(StepSnapshot(order));
    }

    /** The check for a registration
        (src/client/push_lifecycle.rs:439-447). */
    method CheckRegistered(client: HttpClient, using: Session, inputs: seq<TokenInput>) returns (registered: bool)
      requires Valid() && inputs != [] && Now().pc == Register(client, using, inputs)
      modifies this`history
      ensures Valid() && Grown(old(history), 1)
      ensures Now().pc == if registered then Register(client, using, inputs[1..]) else RegInspecting(client, using, inputs)
    {
      registered := AlreadyRegistered(View(), generation, inputs[0].provider);
      Record(StepRegister);
    }

    method AnswerRegInspect(client: HttpClient, using: Session, inputs: seq<TokenInput>, valid: bool)
      requires Valid() && inputs != [] && Now().pc == RegInspecting(client, using, inputs)
      modifies this`history
      ensures Valid() && Grown(old(history), 1)
      ensures Now().pc == if valid then RegJournaling(client, using, inputs) else Idle(RunFailed)
    {
      Record(RegInspectAnswer(valid));
    }

    /** The write itself, once the input is still desired and the journal has room
        (src/client/push_lifecycle.rs:470-482). */
    method WriteAhead(client: HttpClient, using: Session, input: TokenInput, secret: string, save: SaveResult)
      returns (ok: bool)
      requires journal.Some?
      modifies this`journal, this`attempts, this`disk, this`drawn
      ensures ok == save.Saved? && drawn == old(drawn) + {secret}
      ensures var j := old(journal).value;
              var next := j.entries + [Intent(secret, Digest(client.identity), input.provider)];
              && disk == SaveDisk(old(disk), j.root, next, save)
              && journal == (if ok then Some(j.(entries := next)) else old(journal))
      ensures attempts == (if ok then old(attempts)[Digest(secret) := Attempt(using.epoch, input.provider, InputDigest(input), false)]
                           else old(attempts))
    {
      var next := journal.value.entries + [Intent(secret, Digest(client.identity), input.provider)];
      drawn := drawn + {secret};
      if !save.FailedBeforeRename? {
        disk := disk[journal.value.root := next];
      }
      ok := save.Saved?;
      if ok {
        journal := Some(journal.value.(entries := next));
        attempts := attempts[Digest(secret) := Attempt(using.epoch, input.provider, InputDigest(input), false)];
      }
    }

    /** Write the intent ahead, then remember the attempt
        (src/client/push_lifecycle.rs:459-483). */
    method JournalIntent(client: HttpClient, using: Session, inputs: seq<TokenInput>, secret: string, save: SaveResult)
      returns (outcome: Outcome)
      requires Valid() && inputs != [] && secret !in drawn && Now().pc == RegJournaling(client, using, inputs)
      modifies this`journal, this`attempts, this`disk, this`drawn, this`history
      ensures Valid() && Grown(old(history), 1)
      ensures Now().pc == if outcome.NotRun? then RegIssuing(client, using, inputs, Digest(secret)) else Idle(outcome)
    {
      if !StillDesired(View(), generation, using, inputs[0]) {
        Record(StepJournal(secret, save));
        return RunOk;
      }
      if journal.None? || |journal.value.entries| >= CAPACITY {
        Record(StepJournal(secret, save));
        return RunFailed;
      }
      outcome := JournalNow(client, using, inputs, secret, save);
    }

    method JournalNow(client: HttpClient, using: Session, inputs: seq<TokenInput>, secret: string, save: SaveResult)
      returns (outcome: Outcome)
      requires Valid() && inputs != [] && secret !in drawn && Now().pc == RegJournaling(client, using, inputs)
      requires StillDesired(View(), generation, using, inputs[0]) && journal.Some? && |journal.value.entries| < CAPACITY
      modifies this`journal, this`attempts, this`disk, this`drawn, this`history
      ensures Valid() && Grown(old(history), 1)
      ensures Now().pc == if outcome.NotRun? then RegIssuing(client, using, inputs, Digest(secret)) else Idle(outcome)
    {
      var ok := WriteAhead(client, using, inputs[0], secret, save);
      outcome := if ok then NotRun else RunFailed;
      Record(StepJournal(secret, save));
    }

    method SendPut(client: HttpClient, using: Session, inputs: seq<TokenInput>, id: Digest)
      requires Valid() && inputs != [] && Now().pc == RegIssuing(client, using, inputs, id)
      modifies this`history
      ensures Valid() && Grown(old(history), 1) && Now().pc == RegPutting(client, using, inputs, id)
    {
      JournalOpen(history);
      Record(IssuePut);
    }

    method AnswerPut(client: HttpClient, using: Session, inputs: seq<TokenInput>, id: Digest, success: bool)
      requires Valid() && inputs != [] && Now().pc == RegPutting(client, using, inputs, id)
      modifies this`history
      ensures Valid() && Grown(old(history), 1)
      ensures Now().pc == if success then RegRechecking(client, using, inputs, id) else Idle(RunFailed)
    {
      Record(PutAnswer(success));
    }

    method RecheckBinding(client: HttpClient, using: Session, inputs: seq<TokenInput>, id: Digest) returns (kept: bool)
      requires Valid() && inputs != [] && Now().pc == RegRechecking(client, using, inputs, id)
      modifies this`history
      ensures Valid() && Grown(old(history), 1)
      ensures Now().pc == if kept then RegConfirming(client, using, inputs, id) else Register(client, using, inputs[1..])
    {
      kept := Keep(View(), generation, id);
      Record(StepRegRecheck);
    }

    method ConfirmBinding(client: HttpClient, using: Session, inputs: seq<TokenInput>, id: Digest)
      requires Valid() && inputs != [] && Now().pc == RegConfirming(client, using, inputs, id)
      modifies this`attempts, this`history
      ensures Valid() && Grown(old(history), 1) && Now().pc == Register(client, using, inputs[1..])
    {
      if id in attempts {
        attempts := attempts[id := attempts[id].(confirmed := true)];
      }
      Record(StepRegConfirm);
    }

    method Finish()
      requires Valid() && Now().pc == Finishing
      modifies this`lastError, this`history
      ensures Valid() && Grown(old(history), 1) && Now().pc == Idle(RunOk)
    {
      lastError := None;
      Record(StepFinish);
    }

    /** Send the binding that is now in the journal, and confirm it
        (src/client/push_lifecycle.rs:485-497). */
    method Bind(client: HttpClient, using: Session, inputs: seq<TokenInput>, id: Digest) returns (ok: bool)
      requires Valid() && inputs != [] && Now().pc == RegIssuing(client, using, inputs, id)
      modifies this
      ensures Valid() && old(history) <= history && PassSince(|old(history)| - 1)
      ensures Now().pc == if ok then Register(client, using, inputs[1..]) else Idle(RunFailed)
    {
      Interleave();
      SendPut(client, using, inputs, id);
      ok := AwaitPut(client, using, inputs, id);
      if ok {
        ConfirmIfKept(client, using, inputs, id);
      }
    }

    method AwaitPut(client: HttpClient, using: Session, inputs: seq<TokenInput>, id: Digest) returns (ok: bool)
      requires Valid() && inputs != [] && Now().pc == RegPutting(client, using, inputs, id)
      modifies this
      ensures Valid() && old(history) <= history && PassSince(|old(history)| - 1)
      ensures Now().pc == if ok then RegRechecking(client, using, inputs, id) else Idle(RunFailed)
    {
      Interleave();
      var cancelled: bool := *;
      if cancelled {
        CancelPass();
        return false;
      }
      ok := *;
      AnswerPut(client, using, inputs, id, ok);
    }

    method ConfirmIfKept(client: HttpClient, using: Session, inputs: seq<TokenInput>, id: Digest)
      requires Valid() && inputs != [] && Now().pc == RegRechecking(client, using, inputs, id)
      modifies this
      ensures Valid() && old(history) <= history && PassSince(|old(history)| - 1)
      ensures Now().pc == Register(client, using, inputs[1..])
    {
      Interleave();
      var kept := RecheckBinding(client, using, inputs, id);
      if kept {
        ConfirmAfterPause(client, using, inputs, id);
      }
    }

    /** The lock is released between the check and the update it allows. */
    method ConfirmAfterPause(client: HttpClient, using: Session, inputs: seq<TokenInput>, id: Digest)
      requires Valid() && inputs != [] && Now().pc == RegConfirming(client, using, inputs, id)
      modifies this
      ensures Valid() && old(history) <= history && PassSince(|old(history)| - 1)
      ensures Now().pc == Register(client, using, inputs[1..])
    {
      Interleave();
      ConfirmBinding(client, using, inputs, id);
    }

    /** One turn of the registration loop; `NotRun` means that the loop goes on. */
    method RegisterInput(client: HttpClient, using: Session, inputs: seq<TokenInput>) returns (outcome: Outcome)
      requires Valid() && inputs != [] && Now().pc == Register(client, using, inputs)
      modifies this
      ensures Valid() && old(history) <= history && PassSince(|old(history)| - 1)
      ensures Now().pc == if outcome.NotRun? then Register(client, using, inputs[1..]) else Idle(outcome)
    {
      Interleave();
      var registered := CheckRegistered(client, using, inputs);
      if registered {
        return NotRun;
      }
      outcome := RegisterAnew(client, using, inputs);
    }

    /** The rest of a turn, once the input was found unregistered. */
    method RegisterAnew(client: HttpClient, using: Session, inputs: seq<TokenInput>) returns (outcome: Outcome)
      requires Valid() && inputs != [] && Now().pc == RegInspecting(client, using, inputs)
      modifies this
      ensures Valid() && old(history) <= history && PassSince(|old(history)| - 1)
      ensures Now().pc == if outcome.NotRun? then Register(client, using, inputs[1..]) else Idle(outcome)
    {
      var valid := AwaitVersion(client, using, inputs);
      if !valid {
        return RunFailed;
      }
      outcome := JournalAndBind(client, using, inputs);
    }

    method AwaitVersion(client: HttpClient, using: Session, inputs: seq<TokenInput>) returns (valid: bool)
      requires Valid() && inputs != [] && Now().pc == RegInspecting(client, using, inputs)
      modifies this
      ensures Valid() && old(history) <= history && PassSince(|old(history)| - 1)
      ensures Now().pc == if valid then RegJournaling(client, using, inputs) else Idle(RunFailed)
    {
      Interleave();
      var cancelled: bool := *;
      if cancelled {
        CancelPass();
        return false;
      }
      valid := *;
      AnswerRegInspect(client, using, inputs, valid);
    }

    method JournalAndBind(client: HttpClient, using: Session, inputs: seq<TokenInput>) returns (outcome: Outcome)
      requires Valid() && inputs != [] && Now().pc == RegJournaling(client, using, inputs)
      modifies this
      ensures Valid() && old(history) <= history && PassSince(|old(history)| - 1)
      ensures Now().pc == if outcome.NotRun? then Register(client, using, inputs[1..]) else Idle(outcome)
    {
      Interleave();
      var secret := Draw();
      var save: SaveResult := *;
      outcome := JournalIntent(client, using, inputs, secret, save);
      if outcome.NotRun? {
        var ok := Bind(client, using, inputs, Digest(secret));
        outcome := if ok then NotRun else RunFailed;
      }
    }

    /** A random 256-bit secret, taken never to repeat. */
    method Draw() returns (secret: string)
      ensures secret !in drawn
    {
      ghost var unused := FreshSecret(drawn);
      secret :| secret !in drawn;
    }

    method RegisterAll(client: HttpClient, using: Session, order: seq<TokenInput>) returns (outcome: Outcome)
      requires Valid() && Now().pc == Register(client, using, order)
      modifies this
      ensures Valid() && old(history) <= history && PassSince(|old(history)| - 1)
      ensures outcome.NotRun? ==> Now().pc == Register(client, using, [])
      ensures !outcome.NotRun? ==> Now().pc == Idle(outcome)
    {
      var inputs := order;
      outcome := NotRun;
      while inputs != [] && outcome.NotRun?
        invariant Valid() && old(history) <= history && PassSince(|old(history)| - 1)
        invariant Now().pc == if outcome.NotRun? then Register(client, using, inputs) else Idle(outcome)
        decreases |inputs|
      {
        outcome := RegisterInput(client, using, inputs);
        inputs := inputs[1..];
      }
    }

    method ReconcileAll(client: HttpClient, entries: seq<Intent>) returns (ok: bool)
      requires Valid() && Now().pc == Scan(client, entries)
      modifies this
      ensures Valid() && old(history) <= history && PassSince(|old(history)| - 1)
      ensures Now().pc == if ok then Scan(client, []) else Idle(RunFailed)
    {
      var todo := entries;
      ok := true;
      while todo != [] && ok
        invariant Valid() && old(history) <= history && PassSince(|old(history)| - 1)
        invariant Now().pc == if ok then Scan(client, todo) else Idle(RunFailed)
        decreases |todo|
      {
        ok := ReconcileIntent(client, todo);
        todo := todo[1..];
      }
    }

    /** The pass between its start and its end. */
    method Pass(client: HttpClient, entries: seq<Intent>) returns (ok: bool)
      requires Valid() && Now().pc == Scan(client, entries)
      modifies this
      ensures Valid() && old(history) <= history && PassSince(|old(history)| - 1)
      ensures Now().pc == Idle(if ok then RunOk else RunFailed)
    {
      ok := ReconcileAll(client, entries);
      if !ok {
        return;
      }
      Interleave();
      EndScan(client);
      Interleave();
      ok := RegisterDesired(client);
    }

    method RegisterDesired(client: HttpClient) returns (ok: bool)
      requires Valid() && Now().pc == Snapshot(client)
      modifies this
      ensures Valid() && old(history) <= history && PassSince(|old(history)| - 1)
      ensures Now().pc == Idle(if ok then RunOk else RunFailed)
    {
      var order := Order();
      var using := TakeSnapshot(client, order);
      if using.Some? {
        ok := RegisterThenFinish(client, using.value, order);
      } else {
        FinishAfterPause();
        ok := true;
      }
    }

    method FinishAfterPause()
      requires Valid() && Now().pc == Finishing
      modifies this
      ensures Valid() && old(history) <= history && PassSince(|old(history)| - 1)
      ensures Now().pc == Idle(RunOk)
    {
      Interleave();
      Finish();
    }

    method RegisterThenFinish(client: HttpClient, using: Session, order: seq<TokenInput>) returns (ok: bool)
      requires Valid() && Now().pc == Register(client, using, order)
      modifies this
      ensures Valid() && old(history) <= history && PassSince(|old(history)| - 1)
      ensures Now().pc == Idle(if ok then RunOk else RunFailed)
    {
      var outcome := RegisterAll(client, using, order);
      if !outcome.NotRun? {
        return outcome.RunOk?;
      }
      FinishLoop(client, using);
      ok := true;
    }

    method FinishLoop(client: HttpClient, using: Session)
      requires Valid() && Now().pc == Register(client, using, [])
      modifies this
      ensures Valid() && old(history) <= history && PassSince(|old(history)| - 1)
      ensures Now().pc == Idle(RunOk)
    {
      Interleave();
      EndLoop(client, using);
      Interleave();
      Finish();
    }

    method EndLoop(client: HttpClient, using: Session)
      requires Valid() && Now().pc == Register(client, using, [])
      modifies this`history
      ensures Valid() && Grown(old(history), 1) && Now().pc == Finishing
    {
      Record(StepRegister);
    }

    method EndScan(client: HttpClient)
      requires Valid() && Now().pc == Scan(client, [])
      modifies this`history
      ensures Valid() && Grown(old(history), 1) && Now().pc == Snapshot(client)
    {
      Record(StepScan);
    }

    /** The desired inputs, each once. */
    method Order() returns (order: seq<TokenInput>)
      requires Valid()
      ensures Enumerates(order, desired)
    {
      RunInv(history, |history| - 1);
      ghost var some := SomeOrder(desired);
      order :| Enumerates(order, desired);
    }

    /** One reconcile pass, with anything the other threads may do in between. The history it records is
        a whole pass, so what is proved of passes and of runs holds of it: nothing sent is left without
        a durable intent or an acknowledged revoke, and a pass that was logged out throughout and
        succeeded has emptied the journal. */
    method Run() returns (ok: bool, ghost start: nat)
      requires Valid() && Now().pc.Idle?
      modifies this
      ensures Valid() && old(history) <= history && |old(history)| - 1 <= start
      ensures IsPass(history, start, |history| - 1)
      ensures ok <==> Now().pc == Idle(RunOk)
      ensures LeavesNothing(history, start)
    {
      Interleave();
      start := |history| - 1;
      ok := SafePass();
    }

    /** A whole pass, with what it leaves behind. */
    method SafePass() returns (ok: bool)
      requires Valid() && Now().pc.Idle?
      modifies this
      ensures Valid() && old(history) <= history
      ensures IsPass(history, |old(history)| - 1, |history| - 1) && LeavesNothing(history, |old(history)| - 1)
      ensures ok <==> Now().pc == Idle(RunOk)
    {
      ok := WholePass();
      PassLeavesNothing(history, |old(history)| - 1);
    }

    method WholePass() returns (ok: bool)
      requires Valid() && Now().pc.Idle?
      modifies this
      ensures Valid() && old(history) <= history
      ensures IsPass(history, |old(history)| - 1, |history| - 1)
      ensures ok <==> Now().pc == Idle(RunOk)
    {
      var client, entries := Start();
      ok := true;
      if client.Some? {
        ok := StartedPass(client.value, entries);
      }
    }

    /** The pass after its first step. */
    method StartedPass(client: HttpClient, entries: seq<Intent>) returns (ok: bool)
      requires Valid() && |history| >= 2 && Now().pc == Scan(client, entries)
      requires history[|history| - 2].pc.Idle? && Now() == NextStart(history[|history| - 2])
      modifies this
      ensures Valid() && old(history) <= history
      ensures IsPass(history, |old(history)| - 2, |history| - 1)
      ensures Now().pc == Idle(if ok then RunOk else RunFailed)
    {
      ghost var started := history;
      ok := Pass(client, entries);
      assert history[|started| - 2] == started[|started| - 2] && history[|started| - 1] == started[|started| - 1];
    }

    method Start() returns (client: Option<HttpClient>, entries: seq<Intent>)
      requires Valid() && Now().pc.Idle?
      modifies this`history
      ensures Valid() && history == old(history) + [NextStart(old(Now()))]
      ensures Now().pc == if client.Some? then Scan(client.value, entries) else Idle(RunOk)
    {
      client, entries := transport, Entries(View());
      Record(StartRun);
    }

    method MarkUnavailable()
      requires Valid() && Now().pc.Idle?
      modifies this`history, this`lastError
      ensures Valid() && history == old(history) + [Next(old(Now()), ReportUnavailable)] && Now().pc.Idle?
      ensures lastError == Some("unavailable")
    {
      lastError := Some("unavailable");
      Record(ReportUnavailable);
    }

    /** `reconcile`: a pass from `start` to `end`, the error mark exactly if it failed, and the status. */
    method Reconcile() returns (status: Status, ghost start: nat, ghost end: nat)
      requires Valid() && Now().pc.Idle?
      modifies this
      ensures Valid() && old(history) <= history && Now().pc.Idle?
      ensures |old(history)| - 1 <= start < end < |history| <= end + 2
      ensures IsPass(history[..end + 1], start, end) && LeavesNothing(history[..end + 1], start)
      ensures history[end].pc == Idle(RunOk) ==> |history| == end + 1
      ensures history[end].pc != Idle(RunOk) ==> status.lastError == Some("unavailable")
      ensures status == StatusOf(View(), generation)
      ensures status.registered + status.pending == |Entries(View())|
    {
      var ok;
      ok, start := Run();
      end := |history| - 1;
      ghost var passed := history;
      if !ok {
        MarkUnavailable();
      }
      assert history[..end + 1] == passed;
      status := Status();
    }
  }
}
