/** What every transition of the push lifecycle keeps, and what follows over whole runs:
    write-ahead safety, endpoint confinement and status conservation. */
module PushSafety {
  import opened Prelude
  import opened PushModel

  // ---------- the endpoint a journal belongs to ----------

  /** The text before the last NUL: what `Namespace` put there, since a device has no NUL. */
  function BeforeLastNul(s: string): string {
    if s == [] then []
    else if s[|s| - 1] == NUL then s[..|s| - 1]
    else BeforeLastNul(s[..|s| - 1])
  }

  function RootIdentity(root: Root): string {
    BeforeLastNul(root.ns.text)
  }

  lemma {:induction false} BeforeLastNulOfNamespace(identity: string, device: string)
    requires NUL !in device
    ensures BeforeLastNul(identity + [NUL] + device) == identity
  {
    var s := identity + [NUL] + device;
    if device == [] {
      assert s[..|s| - 1] == identity;
    } else {
      assert s[|s| - 1] == device[|device| - 1];
      assert s[..|s| - 1] == identity + [NUL] + device[..|device| - 1];
      BeforeLastNulOfNamespace(identity, device[..|device| - 1]);
    }
  }

  /** One journal directory serves one endpoint and one device. */
  lemma NamespaceInjective(i1: string, d1: string, i2: string, d2: string)
    requires ValidDevice(d1) && ValidDevice(d2)
    ensures Namespace(i1, d1) == Namespace(i2, d2) <==> i1 == i2 && d1 == d2
  {
    if Namespace(i1, d1) == Namespace(i2, d2) {
      DeviceHasNoNul(d1);
      DeviceHasNoNul(d2);
      BeforeLastNulOfNamespace(i1, d1);
      BeforeLastNulOfNamespace(i2, d2);
      var s := i1 + [NUL] + d1;
      assert d1 == s[|i1| + 1..] && d2 == (i2 + [NUL] + d2)[|i2| + 1..];
    }
  }

  lemma DeviceHasNoNul(device: string)
    requires ValidDevice(device)
    ensures NUL !in device
  {
    assert IsControl(NUL);
  }

  // ---------- the invariant ----------

  ghost predicate DistinctIds(entries: seq<Intent>) {
    forall i, j :: 0 <= i < j < |entries| ==> entries[i].Id() != entries[j].Id()
  }

  /** Entries of the journal at `root`: drawn for it, and carrying its endpoint. */
  ghost predicate EntriesOf(entries: seq<Intent>, root: Root, used: map<string, Root>) {
    && DistinctIds(entries)
    && forall e :: e in entries ==>
         && e.revocationToken in used && used[e.revocationToken] == root
         && e.endpoint == Digest(RootIdentity(root))
  }

  /** Every binding of `root` ever sent to the server is in `entries` or has been revoked. */
  ghost predicate Covers(entries: seq<Intent>, root: Root, puts: set<Put>, acked: set<Digest>) {
    forall p :: p in puts && p.root == root ==> p.id in acked || p.id in Ids(entries)
  }

  function OnDisk(disk: map<Root, seq<Intent>>, root: Root): seq<Intent> {
    if root in disk then disk[root] else []
  }

  ghost predicate DiskInv(disk: map<Root, seq<Intent>>, used: map<string, Root>, puts: set<Put>, acked: set<Digest>) {
    forall root ::
      && EntriesOf(OnDisk(disk, root), root, used)
      && Covers(OnDisk(disk, root), root, puts, acked)
  }

  ghost predicate JournalInv(journal: Option<Journal>, attempts: set<Digest>, used: map<string, Root>,
                             puts: set<Put>, acked: set<Digest>)
  {
    if journal.Some? then
      && attempts <= Ids(journal.value.entries)
      && EntriesOf(journal.value.entries, journal.value.root, used)
      && Covers(journal.value.entries, journal.value.root, puts, acked)
    else attempts == {}
  }

  /** Session, revoke transport and open journal name one endpoint. */
  ghost predicate EndpointInv(journal: Option<Journal>, transport: Option<HttpClient>, session: Option<Session>) {
    && (journal.Some? ==>
          transport.Some? && transport.value.identity == RootIdentity(journal.value.root))
    && (transport.Some? ==> transport.value.bearer.None?)
    && (session.Some? ==> SessionFits(session.value, journal))
  }

  ghost predicate SessionFits(session: Session, journal: Option<Journal>) {
    && journal.Some?
    && session.http.identity == RootIdentity(journal.value.root)
    && journal.value.root.ns == Namespace(session.http.identity, session.device)
  }

  ghost predicate PutsInv(puts: set<Put>, used: map<string, Root>) {
    forall p :: p in puts ==>
      && p.id.text in used && used[p.id.text] == p.root
      && p.identity == RootIdentity(p.root)
      && p.root.ns == Namespace(p.identity, p.device)
  }

  ghost predicate PostsInv(posts: set<Post>, used: map<string, Root>) {
    forall p :: p in posts ==>
      && p.secret in used
      && p.identity == RootIdentity(used[p.secret])
      && p.bearer.None?
  }

  function Secrets(posts: set<Post>): set<string> {
    set p | p in posts :: p.secret
  }

  /** Only a posted secret is ever acknowledged. */
  ghost predicate AckInv(posts: set<Post>, acked: set<Digest>) {
    forall id :: id in acked ==> id.text in Secrets(posts)
  }

  /** The intents still to be reconciled come from the open journal. */
  ghost predicate TodoInv(journal: Option<Journal>, used: map<string, Root>, todo: seq<Intent>) {
    if journal.Some? then EntriesOf(todo, journal.value.root, used) else todo == []
  }

  /** The binding about to be sent is in the journal and on disk. */
  ghost predicate Journaled(s: Sys, id: Digest) {
    && s.m.journal.Some?
    && id in Ids(s.m.journal.value.entries)
    && id in Ids(OnDisk(s.disk, s.m.journal.value.root))
  }

  /** The PUT of the binding under way: its id, the open journal, and the session and input of this turn. */
  predicate Sent(s: Sys)
    requires s.pc.RegPutting? || s.pc.RegRechecking? || s.pc.RegConfirming?
  {
    && s.m.journal.Some? && s.pc.inputs != []
    && Put(s.pc.id, s.m.journal.value.root, s.pc.session.http.identity, s.pc.session.device, s.pc.inputs[0]) in s.net.puts
  }

  ghost predicate PcInv(s: Sys) {
    && (InScan(s.pc) ==>
          && s.m.transport == Some(s.pc.transport)
          && TodoInv(s.m.journal, s.used, s.pc.todo)
          && (!s.pc.Scan? ==> s.pc.todo != []))
    && (s.pc.Snapshot? ==> s.m.transport == Some(s.pc.transport))
    && (s.pc.Inspecting? ==> SessionFits(s.pc.session, s.m.journal))
    && (s.pc.Attaching? ==> SessionFits(s.pc.session, s.m.journal))
    && (s.pc.Removing? && s.pc.todo != [] ==> s.pc.todo[0].Id() in s.net.acked)
    && (InRegister(s.pc) ==>
          && s.m.transport == Some(s.pc.transport)
          && SessionFits(s.pc.session, s.m.journal)
          && (!s.pc.Register? ==> s.pc.inputs != []))
    && (s.pc.RegIssuing? ==> Journaled(s, s.pc.id))
    && (s.pc.Revoking? && s.pc.todo != [] ==> s.pc.todo[0].revocationToken in Secrets(s.net.posts))
    && (s.pc.RegPutting? || s.pc.RegRechecking? || s.pc.RegConfirming? ==> Sent(s))
  }

  ghost predicate DesiredInv(desired: map<string, TokenInput>) {
    forall p :: p in desired ==> desired[p].provider == p && ValidProvider(p)
  }

  ghost predicate CoreInv(m: State, disk: map<Root, seq<Intent>>, used: map<string, Root>,
                          puts: set<Put>, posts: set<Post>, acked: set<Digest>)
  {
    && DiskInv(disk, used, puts, acked)
    && JournalInv(m.journal, m.attempts.Keys, used, puts, acked)
    && EndpointInv(m.journal, m.transport, m.session)
    && PutsInv(puts, used)
    && PostsInv(posts, used)
    && AckInv(posts, acked)
    && DesiredInv(m.desired)
  }

  ghost predicate Inv(s: Sys) {
    CoreInv(s.m, s.disk, s.used, s.net.puts, s.net.posts, s.net.acked) && PcInv(s)
  }

  lemma InitInv(s: Sys)
    requires Init(s)
    ensures Inv(s)
  {
  }

  /** A transition that moves only the program counter keeps what does not mention it. */
  lemma Moves(s: Sys, t: Sys)
    requires Inv(s) && PcInv(t)
    requires t.m == s.m && t.disk == s.disk && t.used == s.used
    requires t.net.puts == s.net.puts && t.net.posts == s.net.posts && t.net.acked == s.net.acked
    ensures Inv(t)
  {
  }

  predicate IsEnvironment(a: Action) {
    || a.Update? || a.Clear? || a.Permission? || a.Detach? || a.StoreGeneration? || a.ReportUnavailable?
    || a.Crash? || a.Cancel?
  }

  lemma EnvironmentKeeps(s: Sys, a: Action)
    requires Inv(s) && Enabled(s, a) && IsEnvironment(a)
    ensures Inv(Next(s, a))
  {
    if a.Crash? {
      CrashKeeps(s, a.generation);
    } else if a.Cancel? || a.StoreGeneration? {
      Moves(s, Next(s, a));
    } else {
      SetterKeeps(s, Next(s, a).m);
    }
  }

  lemma CrashKeeps(s: Sys, g: nat)
    requires Inv(s)
    ensures Inv(s.(m := EMPTY, pc := Idle(NotRun), generation := g))
  {
  }

  /** A setter changes what is wanted, or takes the session away. */
  lemma SetterKeeps(s: Sys, m: State)
    requires Inv(s) && DesiredInv(m.desired)
    requires m.journal == s.m.journal && m.attempts == s.m.attempts && m.transport == s.m.transport
    requires m.session == s.m.session || m.session.None?
    ensures Inv(s.(m := m))
  {
  }

  /** What configuring comes to: when it succeeds, that success opens exactly the journal of the endpoint
      and device and forgets session and attempts of another one, and that failure forgets no intent. */
  lemma ConfigureOutcome(m: State, disk: map<Root, seq<Intent>>, http: HttpClient, base: string, device: string, opens: bool)
    ensures var root := Root(base, Namespace(http.identity, device));
            var same := m.journal.Some? && m.journal.value.root == root;
            var sound := http.acceptable && ValidDevice(device);
            var r := ConfigureLocked(m, disk, http, base, device, opens);
            var n := r.state;
            && (r.ok <==> sound && (same || (Entries(m) == [] && opens)))
            && (r.ok ==>
                  && n.transport == Some(HttpClient(http.identity, http.acceptable, None))
                  && n.journal == Some(Journal(root, if same then Entries(m) else OnDisk(disk, root)))
                  && n.session == (if same then m.session else None)
                  && n.attempts == (if same then m.attempts else map[])
                  && n.lastError == m.lastError)
            && (!r.ok ==> n.transport == m.transport && n.attempts == m.attempts && Entries(n) == Entries(m))
            && (!r.ok && sound ==> n.session.None? && n.lastError == Some("storage"))
            && (!sound ==> n == m)
            && n.permission == m.permission && n.desired == m.desired
  {
  }

  /** Opening the journal of another namespace starts from what its disk holds. */
  lemma OpenKeeps(s: Sys, http: HttpClient, root: Root)
    requires Inv(s) && s.pc.Idle? && RootIdentity(root) == http.identity
    ensures Inv(s.(m := s.m.(session := None, journal := Some(Journal(root, OnDisk(s.disk, root))),
                             attempts := map[], transport := Some(http.Anonymous()))))
  {
  }

  /** The journal that is open already gets a transport of its own endpoint. */
  lemma ReopenKeeps(s: Sys, http: HttpClient)
    requires Inv(s) && s.pc.Idle? && s.m.journal.Some? && RootIdentity(s.m.journal.value.root) == http.identity
    ensures Inv(s.(m := s.m.(transport := Some(http.Anonymous()))))
  {
  }

  /** An empty journal that is closed takes nothing along. */
  lemma CloseKeeps(s: Sys)
    requires Inv(s) && s.pc.Idle? && Entries(s.m) == []
    ensures Inv(s.(m := s.m.(session := None, journal := None, lastError := Some("storage"))))
  {
    assert Ids([]) == {};
  }

  lemma ConfigureKeeps(s: Sys, http: HttpClient, base: string, device: string, opens: bool)
    requires Inv(s) && s.pc.Idle?
    ensures var r := ConfigureLocked(s.m, s.disk, http, base, device, opens);
            && Inv(s.(m := r.state))
            && (r.ok ==>
                  && r.state.journal.Some?
                  && RootIdentity(r.state.journal.value.root) == http.identity
                  && r.state.journal.value.root.ns == Namespace(http.identity, device))
  {
    if http.acceptable && ValidDevice(device) {
      var root := Root(base, Namespace(http.identity, device));
      DeviceHasNoNul(device);
      BeforeLastNulOfNamespace(http.identity, device);
      if s.m.journal.Some? && s.m.journal.value.root == root {
        ReopenKeeps(s, http);
      } else if Entries(s.m) != [] {
        SetterKeeps(s, s.m.(session := None, lastError := Some("storage")));
      } else if opens {
        OpenKeeps(s, http, root);
      } else {
        CloseKeeps(s);
      }
    }
  }

  lemma AttachEndKeeps(s: Sys)
    requires s.pc.Attaching? && Inv(s)
    ensures Inv(NextAttachEnd(s))
  {
  }

  lemma AttachBeginKeeps(s: Sys, q: AttachRequest, opens: bool)
    requires s.pc.Idle? && Inv(s)
    ensures Inv(NextAttachBegin(s, q, opens))
  {
    ConfigureKeeps(s, q.http, q.base, q.device, opens);
  }

  lemma TailEntries(todo: seq<Intent>, root: Root, used: map<string, Root>)
    requires todo != [] && EntriesOf(todo, root, used)
    ensures EntriesOf(todo[1..], root, used)
  {
  }

  predicate IsScanStep(a: Action) {
    || a.StartRun? || a.StepScan? || a.StepRead? || a.InspectAnswer? || a.StepRecheck? || a.StepConfirm?
    || a.RevokeAnswer?
  }

  /** A revoke goes to the endpoint of the journal its intent came from. */
  lemma BeginRevokeKeeps(s: Sys)
    requires Inv(s) && InScan(s.pc) && s.pc.todo != []
    ensures Inv(BeginRevoke(s, s.pc.transport, s.pc.todo))
  {
    assert s.pc.todo[0] in s.pc.todo;
    var t := BeginRevoke(s, s.pc.transport, s.pc.todo);
    assert Post(s.pc.todo[0].revocationToken, s.pc.transport.identity, s.pc.transport.bearer) in t.net.posts;
    assert Secrets(s.net.posts) <= Secrets(t.net.posts);
  }

  lemma AdvanceKeeps(s: Sys)
    requires Inv(s) && InScan(s.pc) && s.pc.todo != []
    ensures Inv(s.(pc := Scan(s.pc.transport, s.pc.todo[1..])))
  {
    TailEntries(s.pc.todo, s.m.journal.value.root, s.used);
  }

  lemma ConfirmKeeps(s: Sys, id: Digest)
    requires Inv(s)
    ensures Inv(s.(m := Confirm(s.m, id)))
  {
    assert Confirm(s.m, id).attempts.Keys == s.m.attempts.Keys;
  }

  lemma AckKeeps(s: Sys)
    requires Inv(s) && s.pc.Revoking? && s.pc.todo != []
    ensures Inv(NextRevoked(s, true))
  {
  }

  lemma StartKeeps(s: Sys)
    requires s.pc.Idle? && Inv(s)
    ensures Inv(NextStart(s))
  {
  }

  lemma NextScanKeeps(s: Sys)
    requires s.pc.Scan? && Inv(s)
    ensures Inv(NextScan(s))
  {
    var t := NextScan(s);
    if t.net == s.net { Moves(s, t); } else { BeginRevokeKeeps(s); }
  }

  lemma NextReadKeeps(s: Sys)
    requires s.pc.ReadAttempt? && s.pc.todo != [] && Inv(s)
    ensures Inv(NextRead(s))
  {
    BeginRevokeKeeps(s);
    AdvanceKeeps(s);
  }

  lemma NextInspectedKeeps(s: Sys, valid: bool, active: bool)
    requires s.pc.Inspecting? && s.pc.todo != [] && Inv(s)
    ensures Inv(NextInspected(s, valid, active))
  {
    BeginRevokeKeeps(s);
  }

  lemma RecheckKeeps(s: Sys)
    requires s.pc.Rechecking? && s.pc.todo != [] && Inv(s)
    ensures Inv(NextRecheck(s))
  {
    BeginRevokeKeeps(s);
  }

  lemma StepConfirmKeeps(s: Sys)
    requires s.pc.Confirming? && s.pc.todo != [] && Inv(s)
    ensures Inv(NextConfirm(s))
  {
    AdvanceKeeps(s);
    ConfirmKeeps(s.(pc := Scan(s.pc.transport, s.pc.todo[1..])), s.pc.todo[0].Id());
  }

  lemma RevokeAnswerKeeps(s: Sys, success: bool)
    requires s.pc.Revoking? && s.pc.todo != [] && Inv(s)
    ensures Inv(NextRevoked(s, success))
  {
    if success { AckKeeps(s); }
  }

  lemma ScanKeeps(s: Sys, a: Action)
    requires Inv(s) && Enabled(s, a) && IsScanStep(a)
    ensures Inv(Next(s, a))
  {
    match a
    case StartRun => StartKeeps(s);
    case StepScan => NextScanKeeps(s);
    case StepRead => NextReadKeeps(s);
    case InspectAnswer(valid, active) => NextInspectedKeeps(s, valid, active);
    case StepRecheck => RecheckKeeps(s);
    case StepConfirm => StepConfirmKeeps(s);
    case RevokeAnswer(success) => RevokeAnswerKeeps(s, success);
  }

  lemma {:induction false} WithoutDistinct(entries: seq<Intent>, id: Digest)
    requires DistinctIds(entries)
    ensures DistinctIds(Without(entries, id))
    ensures Ids(Without(entries, id)) == Ids(entries) - {id}
  {
    WithoutIds(entries, id);
    if entries != [] {
      var rest := Without(entries[1..], id);
      WithoutDistinct(entries[1..], id);
      assert forall i :: 0 <= i < |rest| ==> rest[i] in rest;
      assert forall e :: e in rest ==> e.Id() != entries[0].Id();
    }
  }

  lemma WithoutIds(entries: seq<Intent>, id: Digest)
    ensures Ids(Without(entries, id)) == Ids(entries) - {id}
  {
  }

  /** A save of journal content that covers what was sent keeps the disk safe, whether it
      completes or not. */
  lemma DiskSaveKeeps(s: Sys, next: seq<Intent>, used: map<string, Root>, save: SaveResult)
    requires s.m.journal.Some?
    requires DiskInv(s.disk, used, s.net.puts, s.net.acked)
    requires EntriesOf(next, s.m.journal.value.root, used)
    requires Covers(next, s.m.journal.value.root, s.net.puts, s.net.acked)
    ensures DiskInv(SaveDisk(s.disk, s.m.journal.value.root, next, save), used, s.net.puts, s.net.acked)
  {
    var root := s.m.journal.value.root;
    var disk := SaveDisk(s.disk, root, next, save);
    assert forall r :: r != root ==> OnDisk(disk, r) == OnDisk(s.disk, r);
  }

  /** Drawing a fresh secret disturbs nothing recorded about the others. */
  lemma UsedGrows(s: Sys, secret: string)
    requires Inv(s) && s.m.journal.Some? && secret !in s.used
    ensures var used := s.used[secret := s.m.journal.value.root];
            && DiskInv(s.disk, used, s.net.puts, s.net.acked)
            && JournalInv(s.m.journal, s.m.attempts.Keys, used, s.net.puts, s.net.acked)
            && PutsInv(s.net.puts, used) && PostsInv(s.net.posts, used)
  {
  }

  lemma RemoveKeeps(s: Sys, save: SaveResult)
    requires s.pc.Removing? && s.pc.todo != [] && Inv(s)
    ensures Inv(NextRemove(s, save))
  {
    var Removing(transport, todo) := s.pc;
    var id := todo[0].Id();
    var journal := s.m.journal.value;
    TailEntries(todo, journal.root, s.used);
    WithoutDistinct(journal.entries, id);
    var next := Without(journal.entries, id);
    assert EntriesOf(next, journal.root, s.used);
    assert Covers(next, journal.root, s.net.puts, s.net.acked);
    DiskSaveKeeps(s, next, s.used, save);
  }

  predicate IsRegisterStep(a: Action) {
    || a.StepSnapshot? || a.StepRegister? || a.RegInspectAnswer? || a.PutAnswer? || a.StepRegRecheck?
    || a.StepRegConfirm? || a.StepFinish?
  }

  lemma SnapshotKeeps(s: Sys, order: seq<TokenInput>)
    requires s.pc.Snapshot? && Enumerates(order, s.m.desired) && Inv(s)
    ensures Inv(NextSnapshot(s, order))
  {
  }

  lemma NextRegisterKeeps(s: Sys)
    requires s.pc.Register? && Inv(s)
    ensures Inv(NextRegister(s))
  {
    Moves(s, NextRegister(s));
  }

  lemma AnswerKeeps(s: Sys, valid: bool)
    requires s.pc.RegInspecting? && Inv(s)
    ensures Inv(NextRegInspected(s, valid))
  {
    Moves(s, NextRegInspected(s, valid));
  }

  lemma PutAnswerKeeps(s: Sys, success: bool)
    requires s.pc.RegPutting? && Inv(s)
    ensures Inv(NextPutAnswered(s, success))
  {
    Moves(s, NextPutAnswered(s, success));
  }

  lemma FinishKeeps(s: Sys)
    requires s.pc.Finishing? && Inv(s)
    ensures Inv(NextFinish(s))
  {
  }

  lemma RegRecheckKeeps(s: Sys)
    requires s.pc.RegRechecking? && s.pc.inputs != [] && Inv(s)
    ensures Inv(NextRegRecheck(s))
  {
    Moves(s, NextRegRecheck(s));
  }

  lemma RegConfirmKeeps(s: Sys)
    requires s.pc.RegConfirming? && s.pc.inputs != [] && Inv(s)
    ensures Inv(NextRegConfirm(s))
  {
    ConfirmKeeps(s.(pc := Register(s.pc.transport, s.pc.session, s.pc.inputs[1..])), s.pc.id);
  }

  lemma RegisterKeeps(s: Sys, a: Action)
    requires Inv(s) && Enabled(s, a) && IsRegisterStep(a)
    ensures Inv(Next(s, a))
  {
    match a
    case StepSnapshot(order) => SnapshotKeeps(s, order);
    case StepRegister => NextRegisterKeeps(s);
    case RegInspectAnswer(valid) => AnswerKeeps(s, valid);
    case PutAnswer(success) => PutAnswerKeeps(s, success);
    case StepRegRecheck => RegRecheckKeeps(s);
    case StepRegConfirm => RegConfirmKeeps(s);
    case StepFinish => FinishKeeps(s);
  }

  lemma AppendDistinct(entries: seq<Intent>, e: Intent)
    requires DistinctIds(entries)
    requires e.Id() !in Ids(entries)
    ensures DistinctIds(entries + [e])
    ensures Ids(entries + [e]) == Ids(entries) + {e.Id()}
  {
  }

  /** The intent appended ahead of the PUT belongs to the open journal. */
  lemma AppendKeeps(s: Sys, secret: string, provider: string)
    requires Inv(s) && s.pc.RegJournaling? && secret !in s.used
    ensures var journal := s.m.journal.value;
            var next := journal.entries + [Intent(secret, Digest(s.pc.transport.identity), provider)];
            var used := s.used[secret := journal.root];
            && Ids(next) == Ids(journal.entries) + {Digest(secret)}
            && EntriesOf(next, journal.root, used)
            && Covers(next, journal.root, s.net.puts, s.net.acked)
  {
    var journal := s.m.journal.value;
    var e := Intent(secret, Digest(s.pc.transport.identity), provider);
    assert e.Id() !in Ids(journal.entries);
    AppendDistinct(journal.entries, e);
    UsedGrows(s, secret);
  }

  /** The state with the secret drawn and the save attempted, before memory follows. */
  lemma DrawKeeps(s: Sys, secret: string, save: SaveResult)
    requires Inv(s) && s.pc.RegJournaling? && s.pc.inputs != [] && secret !in s.used
    ensures var journal := s.m.journal.value;
            var next := journal.entries + [Intent(secret, Digest(s.pc.transport.identity), s.pc.inputs[0].provider)];
            var disk := SaveDisk(s.disk, journal.root, next, save);
            CoreInv(s.m, disk, s.used[secret := journal.root], s.net.puts, s.net.posts, s.net.acked)
  {
    var journal := s.m.journal.value;
    AppendKeeps(s, secret, s.pc.inputs[0].provider);
    UsedGrows(s, secret);
    var next := journal.entries + [Intent(secret, Digest(s.pc.transport.identity), s.pc.inputs[0].provider)];
    DiskSaveKeeps(s, next, s.used[secret := journal.root], save);
  }

  /** The write-ahead region: a journal is open there; the PUT is next exactly if the input is still
      desired, the journal has room and the save completed, and then intent and attempt are recorded,
      on disk too; otherwise the pass is over and memory is as it was. */
  lemma JournalOutcome(s: Sys, secret: string, save: SaveResult)
    requires s.pc.RegJournaling? && s.pc.inputs != [] && secret !in s.used && Inv(s)
    ensures s.m.journal.Some?
    ensures var t := NextJournal(s, secret, save);
            && (t.pc.RegIssuing? <==>
                  StillDesired(s.m, s.generation, s.pc.session, s.pc.inputs[0]) && |Entries(s.m)| < CAPACITY && save.Saved?)
            && (t.pc.RegIssuing? ==>
                  && t.pc.id == Digest(secret) && Journaled(t, t.pc.id)
                  && t.m.attempts.Keys == s.m.attempts.Keys + {t.pc.id})
            && (!t.pc.RegIssuing? ==> t.pc.Idle? && t.m == s.m)
            && t.net == s.net
  {
    AppendKeeps(s, secret, s.pc.inputs[0].provider);
  }

  lemma SavedKeeps(s: Sys, secret: string, attempt: Attempt)
    requires s.pc.RegJournaling? && s.pc.inputs != [] && secret !in s.used && Inv(s)
    ensures var RegJournaling(transport, session, inputs) := s.pc;
            var journal := s.m.journal.value;
            var next := journal.entries + [Intent(secret, Digest(transport.identity), inputs[0].provider)];
            Inv(s.(pc := RegIssuing(transport, session, inputs, Digest(secret)),
                   disk := SaveDisk(s.disk, journal.root, next, Saved),
                   used := s.used[secret := journal.root],
                   m := s.m.(journal := Some(journal.(entries := next)),
                             attempts := s.m.attempts[Digest(secret) := attempt])))
  {
    DrawKeeps(s, secret, Saved);
    AppendKeeps(s, secret, s.pc.inputs[0].provider);
  }

  lemma UnsavedKeeps(s: Sys, secret: string, save: SaveResult)
    requires s.pc.RegJournaling? && s.pc.inputs != [] && secret !in s.used && Inv(s)
    ensures var journal := s.m.journal.value;
            var next := journal.entries + [Intent(secret, Digest(s.pc.transport.identity), s.pc.inputs[0].provider)];
            Inv(s.(pc := Idle(RunFailed), disk := SaveDisk(s.disk, journal.root, next, save),
                   used := s.used[secret := journal.root]))
  {
    DrawKeeps(s, secret, save);
  }

  lemma JournalKeeps(s: Sys, secret: string, save: SaveResult)
    requires s.pc.RegJournaling? && s.pc.inputs != [] && secret !in s.used && Inv(s)
    ensures Inv(NextJournal(s, secret, save))
  {
    var input := s.pc.inputs[0];
    if !StillDesired(s.m, s.generation, s.pc.session, input) || |s.m.journal.value.entries| >= CAPACITY {
      Moves(s, NextJournal(s, secret, save));
    } else if save.Saved? {
      SavedKeeps(s, secret, Attempt(s.pc.session.epoch, input.provider, InputDigest(input), false));
    } else {
      UnsavedKeeps(s, secret, save);
    }
  }

  lemma PutKeeps(s: Sys)
    requires s.pc.RegIssuing? && s.pc.inputs != [] && s.m.journal.Some? && Inv(s)
    ensures Inv(NextPut(s))
  {
  }

  /** Every transition keeps the invariant. */
  lemma StepKeeps(s: Sys, a: Action)
    requires Inv(s) && Enabled(s, a)
    ensures Inv(Next(s, a))
  {
    if IsEnvironment(a) { EnvironmentKeeps(s, a); }
    else if a.AttachBegin? { AttachBeginKeeps(s, a.request, a.opens); }
    else if a.AttachEnd? { AttachEndKeeps(s); }
    else if a.Configure? { ConfigureKeeps(s, a.http, a.base, a.device, a.opens); }
    else if IsScanStep(a) { ScanKeeps(s, a); }
    else if a.StepRemove? { RemoveKeeps(s, a.save); }
    else if IsRegisterStep(a) { RegisterKeeps(s, a); }
    else if a.StepJournal? { JournalKeeps(s, a.secret, a.save); }
    else { PutKeeps(s); }
  }

  lemma {:induction false} RunInv(run: seq<Sys>, i: nat)
    requires IsRun(run) && i < |run|
    ensures Inv(run[i])
  {
    if i == 0 {
      InitInv(run[0]);
    } else {
      RunInv(run, i - 1);
      assert Step(run[i - 1], run[(i - 1) + 1]);
      var a :| Enabled(run[i - 1], a) && run[i] == Next(run[i - 1], a);
      StepKeeps(run[i - 1], a);
    }
  }

  // ---------- what holds over whole runs ----------

  /** A revoke of this very binding has been answered with success: its own secret was posted, to the
      endpoint it had been registered on, without a bearer. */
  ghost predicate Revoked(s: Sys, p: Put) {
    && p.id in s.net.acked
    && exists post :: post in s.net.posts && Digest(post.secret) == p.id && post.identity == p.identity && post.bearer.None?
  }

  lemma AckedIsRevoked(s: Sys, p: Put)
    requires Inv(s) && p in s.net.puts && p.id in s.net.acked
    ensures Revoked(s, p)
  {
    assert p.id.text in Secrets(s.net.posts);
    var post :| post in s.net.posts && post.secret == p.id.text;
    assert Digest(post.secret) == p.id;
  }

  /** Write-ahead safety: in every state of every run, each binding ever sent to the server is in
      the durable journal of its namespace, or a revoke of it has been answered with success. */
  lemma WriteAheadSafety(run: seq<Sys>, i: nat, p: Put)
    requires IsRun(run) && i < |run| && p in run[i].net.puts
    ensures Revoked(run[i], p) || p.id in Ids(OnDisk(run[i].disk, p.root))
  {
    RunInv(run, i);
    if p.id in run[i].net.acked {
      AckedIsRevoked(run[i], p);
    }
  }

  /** Every acknowledged revoke is of a secret that was posted to the endpoint of every binding
      registered under its digest, and a revoke under way has posted the secret of its own intent. */
  lemma AcknowledgedWasPosted(run: seq<Sys>, i: nat)
    requires IsRun(run) && i < |run|
    ensures var s := run[i];
            && (forall id :: id in s.net.acked ==>
                  exists post :: post in s.net.posts && Digest(post.secret) == id
                                 && forall put :: put in s.net.puts && put.id == id ==> put.identity == post.identity)
            && (s.pc.Revoking? && s.pc.todo != [] ==>
                  exists post :: post in s.net.posts && Digest(post.secret) == s.pc.todo[0].Id()
                                 && Digest(post.identity) == s.pc.todo[0].endpoint)
  {
    RunInv(run, i);
    var s := run[i];
    forall id | id in s.net.acked
      ensures exists post :: post in s.net.posts && Digest(post.secret) == id
                             && forall put :: put in s.net.puts && put.id == id ==> put.identity == post.identity
    {
      PostOf(s, id.text);
    }
    if s.pc.Revoking? && s.pc.todo != [] {
      assert s.pc.todo[0] in s.pc.todo;
      PostOf(s, s.pc.todo[0].revocationToken);
    }
  }

  lemma PostOf(s: Sys, secret: string)
    requires Inv(s) && secret in Secrets(s.net.posts)
    ensures secret in s.used
    ensures exists post :: post in s.net.posts && post.secret == secret && post.identity == RootIdentity(s.used[secret])
  {
  }

  /** While a PUT is under way, and until its binding is confirmed, the PUT that left is the one of this
      turn: this id, the open journal, the session's endpoint and device, and the input of this turn. */
  lemma SentIsThisTurn(run: seq<Sys>, i: nat)
    requires IsRun(run) && i < |run|
    requires run[i].pc.RegPutting? || run[i].pc.RegRechecking? || run[i].pc.RegConfirming?
    ensures Sent(run[i])
  {
    RunInv(run, i);
  }

  lemma OnlyIssuePutSends(s: Sys, a: Action)
    requires Enabled(s, a)
    ensures !a.IssuePut? ==> Next(s, a).net.puts == s.net.puts
  {
  }

  /** The secret is durable before the PUT leaves. */
  lemma JournaledBeforeSent(run: seq<Sys>, i: nat, p: Put)
    requires IsRun(run) && i + 1 < |run|
    requires p in run[i + 1].net.puts && p !in run[i].net.puts
    ensures p.id in Ids(OnDisk(run[i].disk, p.root))
  {
    RunInv(run, i);
    assert Step(run[i], run[i + 1]);
    var a :| Enabled(run[i], a) && run[i + 1] == Next(run[i], a);
    OnlyIssuePutSends(run[i], a);
  }

  /** Endpoint confinement: a secret is posted only to the endpoint its binding went to, without
      a bearer. */
  lemma EndpointConfinement(run: seq<Sys>, i: nat, put: Put, post: Post)
    requires IsRun(run) && i < |run|
    requires put in run[i].net.puts && post in run[i].net.posts && put.id == Digest(post.secret)
    ensures post.identity == put.identity && post.bearer.None?
  {
    RunInv(run, i);
  }

  /** Session client, revoke transport and open journal agree on the endpoint and the device, and
      the mismatch check of the reconcile loop never fires. */
  lemma EndpointsAgree(run: seq<Sys>, i: nat)
    requires IsRun(run) && i < |run|
    ensures var s := run[i];
            && (s.m.journal.Some? ==>
                  && s.m.transport.Some?
                  && s.m.transport.value.identity == RootIdentity(s.m.journal.value.root))
            && (s.m.session.Some? ==>
                  && s.m.transport.Some? && s.m.journal.Some?
                  && s.m.session.value.http.identity == s.m.transport.value.identity
                  && s.m.journal.value.root.ns == Namespace(s.m.transport.value.identity, s.m.session.value.device))
            && (s.pc.Scan? && s.pc.todo != [] ==> s.pc.todo[0].endpoint == Digest(s.pc.transport.identity))
  {
    RunInv(run, i);
    var s := run[i];
    if s.pc.Scan? && s.pc.todo != [] {
      assert s.pc.todo[0] in s.pc.todo;
    }
  }

  // ---------- status ----------

  /** A set of the elements of a sequence is no larger than the sequence. */
  lemma {:induction false} IdsBound(entries: seq<Intent>)
    ensures |Ids(entries)| <= |entries|
    ensures DistinctIds(entries) ==> |Ids(entries)| == |entries|
  {
    if entries == [] {
      assert Ids(entries) == {};
    } else {
      var n := |entries| - 1;
      IdsBound(entries[..n]);
      assert entries == entries[..n] + [entries[n]];
      assert Ids(entries) == Ids(entries[..n]) + {entries[n].Id()};
    }
  }

  lemma SubsetSize<T>(a: set<T>, b: set<T>)
    requires a <= b
    ensures |a| <= |b|
  {
    assert b == a + (b - a);
  }

  /** Status conservation: the subtraction never saturates, so registered and pending bindings
      add up to the journal. */
  lemma StatusConservation(run: seq<Sys>, i: nat)
    requires IsRun(run) && i < |run|
    ensures var s := run[i];
            var status := StatusOf(s.m, s.generation);
            && s.m.attempts.Keys <= Ids(Entries(s.m))
            && status.registered + status.pending == |Entries(s.m)|
  {
    var s := run[i];
    RunInv(run, i);
    InvStatus(s);
  }

  lemma InvStatus(s: Sys)
    requires Inv(s)
    ensures var status := StatusOf(s.m, s.generation);
            && s.m.attempts.Keys <= Ids(Entries(s.m))
            && DistinctIds(Entries(s.m))
            && |Ids(Entries(s.m))| == |Entries(s.m)|
            && status.registered + status.pending == |Entries(s.m)|
  {
    IdsBound(Entries(s.m));
    SubsetSize(Registered(s.m, s.generation), Ids(Entries(s.m)));
  }
}
