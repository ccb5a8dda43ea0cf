/** The OS push binding lifecycle as a transition system.

    One state holds the mutex-guarded fields, the session generation, what is durable on disk,
    the program counter of the one task that owns the `io` lock, and a log of what the network
    saw. Every transition is one lock region or one network event, so any two lock regions can
    be separated by the synchronous setters, a generation change, a cancellation or a crash. */
module PushModel {
  import opened Prelude

  /** SHA-256 as an injective function: the digest remembers what it was taken of. */
  datatype Digest = Digest(text: string)

  // ---------- inputs ----------

  datatype TokenInput = TokenInput(provider: string, platform: string, token: string)

  predicate ValidProvider(provider: string) {
    provider in {"apns", "fcm", "getui"}
  }

  /** Bytes of `s` in UTF-8. */
  function ByteLength(s: string): nat {
    if s == [] then 0 else
      var u := s[0] as int;
      (if u < 0x80 then 1 else if u < 0x800 then 2 else if u < 0x10000 then 3 else 4) + ByteLength(s[1..])
  }

  predicate ValidInput(input: TokenInput) {
    && ValidProvider(input.provider)
    && input.platform in {"ios", "android", "harmony"}
    && input.token != ""
    && ByteLength(input.token) <= 4096
    && (forall c :: c in input.token ==> !IsControl(c) && !IsWhitespace(c))
    && (input.provider == "apns" ==>
          (forall c :: c in input.token ==> IsHexDigit(c)) && ByteLength(input.token) <= 512)
  }

  function InputDigest(input: TokenInput): Digest {
    Digest(input.provider + ":" + input.platform + ":" + input.token)
  }

  predicate ValidDevice(device: string) {
    && device != ""
    && ByteLength(device) <= 128
    && forall c :: c in device ==> !IsControl(c) && !IsWhitespace(c)
  }

  // ---------- transport, session, journal ----------

  /** `acceptable` is the verdict on the base URL: routed, or fixed and https or local http
      without query and fragment. */
  datatype HttpClient = HttpClient(identity: string, acceptable: bool, bearer: Option<string>) {
    function Anonymous(): HttpClient { this.(bearer := None) }
  }

  datatype Session = Session(epoch: nat, device: string, http: HttpClient)

  datatype Attempt = Attempt(epoch: nat, provider: string, digest: Digest, confirmed: bool)

  datatype Intent = Intent(revocationToken: string, endpoint: Digest, provider: string) {
    function Id(): Digest { Digest(revocationToken) }
  }

  /** A journal directory: the caller's data root and the digest naming endpoint and device. */
  datatype Root = Root(base: string, ns: Digest)

  const NUL: char := 0 as char

  function Namespace(identity: string, device: string): Digest {
    Digest(identity + [NUL] + device)
  }

  datatype Journal = Journal(root: Root, entries: seq<Intent>)

  const CAPACITY: nat := 64

  /** A save writes a temporary file, renames it over the journal and syncs the directory. It
      fails before the rename, or after it: then the new content is on disk all the same. */
  datatype SaveResult = Saved | FailedBeforeRename | FailedAfterRename

  function Ids(entries: seq<Intent>): (ids: set<Digest>) {
    set e | e in entries :: e.Id()
  }

  function Without(entries: seq<Intent>, id: Digest): (kept: seq<Intent>)
    ensures forall e :: e in kept <==> e in entries && e.Id() != id
  {
    if entries == [] then []
    else (if entries[0].Id() == id then [] else [entries[0]]) + Without(entries[1..], id)
  }

  function SaveDisk(disk: map<Root, seq<Intent>>, root: Root, next: seq<Intent>, save: SaveResult)
    : map<Root, seq<Intent>>
  {
    if save.FailedBeforeRename? then disk else disk[root := next]
  }

  // ---------- the guarded state ----------

  datatype State = State(
    permission: bool,
    desired: map<string, TokenInput>,
    session: Option<Session>,
    transport: Option<HttpClient>,
    journal: Option<Journal>,
    attempts: map<Digest, Attempt>,
    lastError: Option<string>)

  const EMPTY := State(false, map[], None, None, None, map[], None)

  function Entries(m: State): seq<Intent> {
    if m.journal.Some? then m.journal.value.entries else []
  }

  predicate Current(session: Session, generation: nat) {
    session.epoch == generation
  }

  /** The attempt belongs to the current session and to what is desired now. */
  predicate Matches(m: State, generation: nat, a: Attempt) {
    && m.session.Some?
    && Current(m.session.value, generation)
    && m.session.value.epoch == a.epoch
    && a.provider in m.desired
    && InputDigest(m.desired[a.provider]) == a.digest
  }

  predicate Keep(m: State, generation: nat, id: Digest) {
    m.permission && id in m.attempts && Matches(m, generation, m.attempts[id])
  }

  function Confirm(m: State, id: Digest): State {
    if id in m.attempts then m.(attempts := m.attempts[id := m.attempts[id].(confirmed := true)]) else m
  }

  predicate AlreadyRegistered(m: State, generation: nat, provider: string) {
    exists id :: id in m.attempts && m.attempts[id].provider == provider
                 && m.attempts[id].confirmed && Keep(m, generation, id)
  }

  /** The `registered` attempts that status counts. */
  function Registered(m: State, generation: nat): set<Digest> {
    set id | id in m.attempts && m.attempts[id].confirmed && m.permission
             && Matches(m, generation, m.attempts[id])
  }

  datatype Phase = Disabled | WaitingForSession | WaitingForToken | Pending | AllRegistered

  datatype Status = Status(phase: Phase, configured: nat, registered: nat, pending: nat, lastError: Option<string>)

  function SaturatingSub(a: nat, b: nat): nat { if a < b then 0 else a - b }

  function StatusOf(m: State, generation: nat): Status {
    var confirmed := |Registered(m, generation)|;
    var pending := SaturatingSub(|Entries(m)|, confirmed);
    var phase :=
      if pending > 0 || m.lastError.Some? then Pending
      else if !m.permission then Disabled
      else if m.session.None? || !Current(m.session.value, generation) then WaitingForSession
      else if m.desired == map[] then WaitingForToken
      else if confirmed == |m.desired| then AllRegistered
      else Pending;
    Status(phase, |m.desired|, confirmed, pending, m.lastError)
  }

  // ---------- configure ----------

  datatype ConfigureResult = ConfigureResult(state: State, ok: bool)

  function ConfigureLocked(m: State, disk: map<Root, seq<Intent>>, http: HttpClient,
                           base: string, device: string, opens: bool): ConfigureResult
  {
    if !http.acceptable || !ValidDevice(device) then ConfigureResult(m, false)
    else
      var root := Root(base, Namespace(http.identity, device));
      if m.journal.Some? && m.journal.value.root == root then
        ConfigureResult(m.(transport := Some(http.Anonymous())), true)
      else if Entries(m) != [] then
        ConfigureResult(m.(session := None, lastError := Some("storage")), false)
      else if !opens then
        ConfigureResult(m.(session := None, journal := None, lastError := Some("storage")), false)
      else
        var stored := if root in disk then disk[root] else [];
        ConfigureResult(
          m.(session := None, journal := Some(Journal(root, stored)), attempts := map[],
             transport := Some(http.Anonymous())),
          true)
  }

  // ---------- the system ----------

  datatype Outcome = NotRun | RunOk | RunFailed

  /** Where the owner of the `io` lock is. `todo[0]` is the intent being reconciled, `inputs[0]`
      the input being registered. */
  datatype Pc =
    | Idle(outcome: Outcome)
    | Attaching(session: Session)
    | Scan(transport: HttpClient, todo: seq<Intent>)
    | ReadAttempt(transport: HttpClient, todo: seq<Intent>)
    | Inspecting(transport: HttpClient, todo: seq<Intent>, session: Session)
    | Rechecking(transport: HttpClient, todo: seq<Intent>)
    | Confirming(transport: HttpClient, todo: seq<Intent>)
    | Revoking(transport: HttpClient, todo: seq<Intent>)
    | Removing(transport: HttpClient, todo: seq<Intent>)
    | Snapshot(transport: HttpClient)
    | Register(transport: HttpClient, session: Session, inputs: seq<TokenInput>)
    | RegInspecting(transport: HttpClient, session: Session, inputs: seq<TokenInput>)
    | RegJournaling(transport: HttpClient, session: Session, inputs: seq<TokenInput>)
    | RegIssuing(transport: HttpClient, session: Session, inputs: seq<TokenInput>, id: Digest)
    | RegPutting(transport: HttpClient, session: Session, inputs: seq<TokenInput>, id: Digest)
    | RegRechecking(transport: HttpClient, session: Session, inputs: seq<TokenInput>, id: Digest)
    | RegConfirming(transport: HttpClient, session: Session, inputs: seq<TokenInput>, id: Digest)
    | Finishing

  /** A register PUT as issued: the binding id, the journal it was written ahead in, the endpoint and
      the device path it went to, and the input it carries. */
  datatype Put = Put(id: Digest, root: Root, identity: string, device: string, input: TokenInput)

  /** A revoke POST as issued: the secret it discloses and the endpoint it went to. */
  datatype Post = Post(secret: string, identity: string, bearer: Option<string>)

  datatype Net = Net(puts: set<Put>, posts: set<Post>, acked: set<Digest>, calls: nat)

  /** `used` remembers every secret ever drawn and the journal it was drawn for. */
  datatype Sys = Sys(
    m: State,
    generation: nat,
    disk: map<Root, seq<Intent>>,
    pc: Pc,
    net: Net,
    used: map<string, Root>)

  predicate Init(s: Sys) {
    && s.m == EMPTY
    && s.disk == map[]
    && s.pc == Idle(NotRun)
    && s.net == Net({}, {}, {}, 0)
    && s.used == map[]
  }

  datatype AttachRequest = AttachRequest(epoch: nat, authentic: bool, device: string, base: string, http: HttpClient)

  datatype Action =
    // synchronous setters and the environment, at any moment
    | Update(input: TokenInput)
    | Clear(provider: string)
    | Permission(allowed: bool)
    | Detach
    | StoreGeneration(generation: nat)
    | ReportUnavailable
    | Crash(generation: nat)
    // under the io lock
    | Cancel
    | Configure(http: HttpClient, base: string, device: string, opens: bool)
    | AttachBegin(request: AttachRequest, opens: bool)
    | AttachEnd
    | StartRun
    | StepScan
    | StepRead
    | InspectAnswer(valid: bool, activeAndCurrent: bool)
    | StepRecheck
    | StepConfirm
    | RevokeAnswer(success: bool)
    | StepRemove(save: SaveResult)
    | StepSnapshot(order: seq<TokenInput>)
    | StepRegister
    | RegInspectAnswer(valid: bool)
    | StepJournal(secret: string, save: SaveResult)
    | IssuePut
    | PutAnswer(success: bool)
    | StepRegRecheck
    | StepRegConfirm
    | StepFinish

  /** `order` lists the desired inputs, each once. */
  predicate Enumerates(order: seq<TokenInput>, desired: map<string, TokenInput>) {
    && |order| == |desired|
    && (forall i :: 0 <= i < |order| ==> order[i].provider in desired && desired[order[i].provider] == order[i])
    && (forall i, j :: 0 <= i < j < |order| ==> order[i].provider != order[j].provider)
  }

  predicate InScan(pc: Pc) {
    pc.Scan? || pc.ReadAttempt? || pc.Inspecting? || pc.Rechecking? || pc.Confirming? || pc.Revoking? || pc.Removing?
  }

  predicate InRegister(pc: Pc) {
    || pc.Register? || pc.RegInspecting? || pc.RegJournaling? || pc.RegIssuing? || pc.RegPutting?
    || pc.RegRechecking? || pc.RegConfirming?
  }

  predicate InRun(pc: Pc) {
    InScan(pc) || pc.Snapshot? || InRegister(pc) || pc.Finishing?
  }

  predicate Enabled(s: Sys, a: Action) {
    match a
    case Update(input) => ValidInput(input)
    case Clear(provider) => ValidProvider(provider)
    case Permission(_) => true
    case Detach => true
    case StoreGeneration(g) => s.generation < g
    case ReportUnavailable => true
    case Crash(_) => true
    case Cancel => !s.pc.Idle?
    case Configure(_, _, _, _) => s.pc.Idle?
    case AttachBegin(_, _) => s.pc.Idle?
    case AttachEnd => s.pc.Attaching?
    case StartRun => s.pc.Idle?
    case StepScan => s.pc.Scan?
    case StepRead => s.pc.ReadAttempt? && s.pc.todo != []
    case InspectAnswer(_, _) => s.pc.Inspecting? && s.pc.todo != []
    case StepRecheck => s.pc.Rechecking? && s.pc.todo != []
    case StepConfirm => s.pc.Confirming? && s.pc.todo != []
    case RevokeAnswer(_) => s.pc.Revoking? && s.pc.todo != []
    case StepRemove(_) => s.pc.Removing? && s.pc.todo != []
    case StepSnapshot(order) => s.pc.Snapshot? && Enumerates(order, s.m.desired)
    case StepRegister => s.pc.Register?
    case RegInspectAnswer(_) => s.pc.RegInspecting?
    case StepJournal(secret, _) => s.pc.RegJournaling? && s.pc.inputs != [] && secret !in s.used
    case IssuePut => s.pc.RegIssuing? && s.pc.inputs != [] && s.m.journal.Some?
    case PutAnswer(_) => s.pc.RegPutting?
    case StepRegRecheck => s.pc.RegRechecking? && s.pc.inputs != []
    case StepRegConfirm => s.pc.RegConfirming? && s.pc.inputs != []
    case StepFinish => s.pc.Finishing?
  }

  function Called(net: Net): Net { net.(calls := net.calls + 1) }

  /** The revoke POST leaves with the intent's secret (src/client/push_lifecycle.rs:416-420). */
  function BeginRevoke(s: Sys, transport: HttpClient, todo: seq<Intent>): Sys
    requires todo != []
  {
    s.(pc := Revoking(transport, todo),
       net := Called(s.net).(posts := s.net.posts + {Post(todo[0].revocationToken, transport.identity, transport.bearer)}))
  }

  function NextScan(s: Sys): Sys
    requires s.pc.Scan?
  {
    var Scan(transport, todo) := s.pc;
    if todo == [] then s.(pc := Snapshot(transport))
    else if todo[0].endpoint != Digest(transport.identity) then s.(pc := Idle(RunFailed))
    else if Keep(s.m, s.generation, todo[0].Id()) then s.(pc := ReadAttempt(transport, todo))
    else BeginRevoke(s, transport, todo)
  }

  function NextRead(s: Sys): Sys
    requires s.pc.ReadAttempt? && s.pc.todo != []
  {
    var ReadAttempt(transport, todo) := s.pc;
    var id := todo[0].Id();
    if id in s.m.attempts && s.m.attempts[id].confirmed then s.(pc := Scan(transport, todo[1..]))
    else if s.m.session.Some? then
      s.(pc := Inspecting(transport, todo, s.m.session.value), net := Called(s.net))
    else BeginRevoke(s, transport, todo)
  }

  function NextInspected(s: Sys, valid: bool, activeAndCurrent: bool): Sys
    requires s.pc.Inspecting? && s.pc.todo != []
  {
    if !valid then s.(pc := Idle(RunFailed))
    else if activeAndCurrent then s.(pc := Rechecking(s.pc.transport, s.pc.todo))
    else BeginRevoke(s, s.pc.transport, s.pc.todo)
  }

  function NextRecheck(s: Sys): Sys
    requires s.pc.Rechecking? && s.pc.todo != []
  {
    if Keep(s.m, s.generation, s.pc.todo[0].Id()) then s.(pc := Confirming(s.pc.transport, s.pc.todo))
    else BeginRevoke(s, s.pc.transport, s.pc.todo)
  }

  function NextConfirm(s: Sys): Sys
    requires s.pc.Confirming? && s.pc.todo != []
  {
    s.(m := Confirm(s.m, s.pc.todo[0].Id()), pc := Scan(s.pc.transport, s.pc.todo[1..]))
  }

  function NextRevoked(s: Sys, success: bool): Sys
    requires s.pc.Revoking? && s.pc.todo != []
  {
    if success then
      s.(pc := Removing(s.pc.transport, s.pc.todo), net := s.net.(acked := s.net.acked + {s.pc.todo[0].Id()}))
    else s.(pc := Idle(RunFailed))
  }

  function NextRemove(s: Sys, save: SaveResult): Sys
    requires s.pc.Removing? && s.pc.todo != []
  {
    var Removing(transport, todo) := s.pc;
    var id := todo[0].Id();
    if s.m.journal.None? then
      s.(pc := Scan(transport, todo[1..]), m := s.m.(attempts := s.m.attempts - {id}))
    else
      var journal := s.m.journal.value;
      var next := Without(journal.entries, id);
      var disk := SaveDisk(s.disk, journal.root, next, save);
      if save.Saved? then
        s.(pc := Scan(transport, todo[1..]), disk := disk,
           m := s.m.(journal := Some(journal.(entries := next)), attempts := s.m.attempts - {id}))
      else s.(pc := Idle(RunFailed), disk := disk)
  }

  function NextSnapshot(s: Sys, order: seq<TokenInput>): Sys
    requires s.pc.Snapshot?
  {
    if s.m.session.Some? && s.m.permission && Current(s.m.session.value, s.generation) then
      s.(pc := Register(s.pc.transport, s.m.session.value, order))
    else s.(pc := Finishing)
  }

  function NextRegister(s: Sys): Sys
    requires s.pc.Register?
  {
    var Register(transport, session, inputs) := s.pc;
    if inputs == [] then s.(pc := Finishing)
    else if AlreadyRegistered(s.m, s.generation, inputs[0].provider) then
      s.(pc := Register(transport, session, inputs[1..]))
    else s.(pc := RegInspecting(transport, session, inputs), net := Called(s.net))
  }

  function NextRegInspected(s: Sys, valid: bool): Sys
    requires s.pc.RegInspecting?
  {
    if valid then s.(pc := RegJournaling(s.pc.transport, s.pc.session, s.pc.inputs))
    else s.(pc := Idle(RunFailed))
  }

  /** Still wanted when the lock is taken again (src/client/push_lifecycle.rs:461-467). */
  predicate StillDesired(m: State, generation: nat, session: Session, input: TokenInput) {
    && m.permission
    && Current(session, generation)
    && m.session.Some? && m.session.value.epoch == session.epoch
    && input.provider in m.desired
    && InputDigest(m.desired[input.provider]) == InputDigest(input)
  }

  function NextJournal(s: Sys, secret: string, save: SaveResult): Sys
    requires s.pc.RegJournaling? && s.pc.inputs != []
  {
    var RegJournaling(transport, session, inputs) := s.pc;
    var input := inputs[0];
    if !StillDesired(s.m, s.generation, session, input) then s.(pc := Idle(RunOk))
    else if s.m.journal.None? then s.(pc := Idle(RunFailed))
    else
      var journal := s.m.journal.value;
      if |journal.entries| >= CAPACITY then s.(pc := Idle(RunFailed))
      else
        var next := journal.entries + [Intent(secret, Digest(transport.identity), input.provider)];
        var disk := SaveDisk(s.disk, journal.root, next, save);
        var drawn := s.(disk := disk, used := s.used[secret := journal.root]);
        if save.Saved? then
          var attempt := Attempt(session.epoch, input.provider, InputDigest(input), false);
          drawn.(pc := RegIssuing(transport, session, inputs, Digest(secret)),
                 m := s.m.(journal := Some(journal.(entries := next)),
                           attempts := s.m.attempts[Digest(secret) := attempt]))
        else drawn.(pc := Idle(RunFailed))
  }

  function NextPut(s: Sys): Sys
    requires s.pc.RegIssuing? && s.pc.inputs != [] && s.m.journal.Some?
  {
    var RegIssuing(transport, session, inputs, id) := s.pc;
    var put := Put(id, s.m.journal.value.root, session.http.identity, session.device, inputs[0]);
    s.(pc := RegPutting(transport, session, inputs, id), net := Called(s.net).(puts := s.net.puts + {put}))
  }

  function NextPutAnswered(s: Sys, success: bool): Sys
    requires s.pc.RegPutting?
  {
    if success then s.(pc := RegRechecking(s.pc.transport, s.pc.session, s.pc.inputs, s.pc.id))
    else s.(pc := Idle(RunFailed))
  }

  function NextRegRecheck(s: Sys): Sys
    requires s.pc.RegRechecking? && s.pc.inputs != []
  {
    if Keep(s.m, s.generation, s.pc.id) then
      s.(pc := RegConfirming(s.pc.transport, s.pc.session, s.pc.inputs, s.pc.id))
    else s.(pc := Register(s.pc.transport, s.pc.session, s.pc.inputs[1..]))
  }

  function NextRegConfirm(s: Sys): Sys
    requires s.pc.RegConfirming? && s.pc.inputs != []
  {
    s.(m := Confirm(s.m, s.pc.id), pc := Register(s.pc.transport, s.pc.session, s.pc.inputs[1..]))
  }

  function NextFinish(s: Sys): Sys
    requires s.pc.Finishing?
  {
    s.(m := s.m.(lastError := None), pc := Idle(RunOk))
  }

  function NextConfigure(s: Sys, http: HttpClient, base: string, device: string, opens: bool): Sys {
    s.(m := ConfigureLocked(s.m, s.disk, http, base, device, opens).state)
  }

  function NextAttachBegin(s: Sys, request: AttachRequest, opens: bool): Sys {
    if !request.authentic || request.device == "" || ByteLength(request.device) > 128 then s
    else if s.generation != request.epoch then s
    else
      var r := ConfigureLocked(s.m, s.disk, request.http, request.base, request.device, opens);
      if r.ok then s.(m := r.state, pc := Attaching(Session(request.epoch, request.device, request.http)))
      else s.(m := r.state)
  }

  function NextAttachEnd(s: Sys): Sys
    requires s.pc.Attaching?
  {
    if s.generation != s.pc.session.epoch then s.(pc := Idle(NotRun))
    else s.(m := s.m.(session := Some(s.pc.session), lastError := None), pc := Idle(NotRun))
  }

  function NextStart(s: Sys): Sys {
    if s.m.transport.None? then s.(pc := Idle(RunOk))
    else s.(pc := Scan(s.m.transport.value, Entries(s.m)))
  }

  function Next(s: Sys, a: Action): Sys
    requires Enabled(s, a)
  {
    match a
    case Update(input) => s.(m := s.m.(desired := s.m.desired[input.provider := input], lastError := None))
    case Clear(provider) => s.(m := s.m.(desired := s.m.desired - {provider}))
    case Permission(allowed) => s.(m := s.m.(permission := allowed))
    case Detach => s.(m := s.m.(session := None))
    case StoreGeneration(g) => s.(generation := g)
    case ReportUnavailable => s.(m := s.m.(lastError := Some("unavailable")))
    case Crash(g) => s.(m := EMPTY, pc := Idle(NotRun), generation := g)
    case Cancel => s.(pc := Idle(RunFailed))
    case Configure(http, base, device, opens) => NextConfigure(s, http, base, device, opens)
    case AttachBegin(request, opens) => NextAttachBegin(s, request, opens)
    case AttachEnd => NextAttachEnd(s)
    case StartRun => NextStart(s)
    case StepScan => NextScan(s)
    case StepRead => NextRead(s)
    case InspectAnswer(valid, active) => NextInspected(s, valid, active)
    case StepRecheck => NextRecheck(s)
    case StepConfirm => NextConfirm(s)
    case RevokeAnswer(success) => NextRevoked(s, success)
    case StepRemove(save) => NextRemove(s, save)
    case StepSnapshot(order) => NextSnapshot(s, order)
    case StepRegister => NextRegister(s)
    case RegInspectAnswer(valid) => NextRegInspected(s, valid)
    case StepJournal(secret, save) => NextJournal(s, secret, save)
    case IssuePut => NextPut(s)
    case PutAnswer(success) => NextPutAnswered(s, success)
    case StepRegRecheck => NextRegRecheck(s)
    case StepRegConfirm => NextRegConfirm(s)
    case StepFinish => NextFinish(s)
  }

  // ---------- runs ----------

  ghost predicate Step(s: Sys, t: Sys) {
    exists a :: Enabled(s, a) && t == Next(s, a)
  }

  /** Consecutive states of `run` are transitions. */
  ghost predicate IsPath(run: seq<Sys>) {
    forall i :: 0 <= i < |run| - 1 ==> Step(run[i], run[i + 1])
  }

  /** A whole history of the system, from an empty disk on. */
  ghost predicate IsRun(run: seq<Sys>) {
    |run| > 0 && Init(run[0]) && IsPath(run)
  }
}
