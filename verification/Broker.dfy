/** The host token broker: renewal requests, the host's answers, and the waiters between them. */
module Broker {
  import opened Prelude

  /** `None` is the host saying that it has no token to give. */
  type Answer = Option<string>

  const MAX_PENDING: nat := 8

  /** One waiting renewal: its channel is open until the value is taken or the wait is dropped; the
      guard goes last. */
  datatype Waiter = Waiter(open: bool, slot: Option<Answer>)

  /** A `complete` call that has taken the sender and not sent yet. */
  datatype Sending = Sending(id: nat, answer: Answer)

  /** `completed` logs every answer given to `complete`, `accepted` how often it returned true for
      an id, `received` what a waiter returned. */
  datatype State = State(
    nextId: nat,
    reserved: set<nat>,
    pending: set<nat>,
    waiters: map<nat, Waiter>,
    sending: map<nat, Sending>,
    completed: set<(nat, Answer)>,
    accepted: map<nat, nat>,
    received: map<nat, Answer>)

  const INITIAL := State(1, {}, {}, map[], map[], {}, map[], map[])

  datatype Action =
    | Reserve                                     // begin: fetch_add
    | Register(id: nat)                            // begin: the locked part
    | Take(call: nat, id: nat, answer: Answer)     // complete: remove under the lock
    | Send(call: nat)                              // complete: send on the channel
    | Receive(id: nat)                             // the waiter wakes up with the value
    | CloseChannel(id: nat)                        // the wait is dropped
    | DropGuard(id: nat)                           // PendingGuard::drop

  predicate Enabled(s: State, a: Action) {
    match a
    case Reserve => true
    case Register(id) => id in s.reserved
    case Take(call, _, _) => call !in s.sending
    case Send(call) => call in s.sending
    case Receive(id) => id in s.waiters && s.waiters[id].open && s.waiters[id].slot.Some?
    case CloseChannel(id) => id in s.waiters && s.waiters[id].open
    case DropGuard(id) => id in s.waiters && !s.waiters[id].open
  }

  function Count(accepted: map<nat, nat>, id: nat): nat {
    if id in accepted then accepted[id] else 0
  }

  predicate Accepts(s: State, id: nat) {
    id in s.waiters && s.waiters[id].open
  }

  function NextSend(s: State, call: nat): State
    requires call in s.sending
  {
    var Sending(id, answer) := s.sending[call];
    var t := s.(sending := s.sending - {call});
    if Accepts(s, id) then
      t.(waiters := s.waiters[id := Waiter(true, Some(answer))], accepted := s.accepted[id := Count(s.accepted, id) + 1])
    else t
  }

  function Next(s: State, a: Action): State
    requires Enabled(s, a)
  {
    match a
    case Reserve => s.(nextId := s.nextId + 1, reserved := s.reserved + {s.nextId})
    case Register(id) =>
      if |s.pending| >= MAX_PENDING then s.(reserved := s.reserved - {id})
      else s.(reserved := s.reserved - {id}, pending := s.pending + {id}, waiters := s.waiters[id := Waiter(true, None)])
    case Take(call, id, answer) =>
      if id in s.pending then
        s.(pending := s.pending - {id}, sending := s.sending[call := Sending(id, answer)],
           completed := s.completed + {(id, answer)})
      else s.(completed := s.completed + {(id, answer)})
    case Send(call) => NextSend(s, call)
    case Receive(id) =>
      s.(waiters := s.waiters[id := Waiter(false, None)], received := s.received[id := s.waiters[id].slot.value])
    case CloseChannel(id) => s.(waiters := s.waiters[id := Waiter(false, None)])
    case DropGuard(id) => s.(waiters := s.waiters - {id}, pending := s.pending - {id})
  }

  ghost predicate Step(s: State, t: State) {
    exists a :: Enabled(s, a) && t == Next(s, a)
  }

  ghost predicate IsRun(run: seq<State>) {
    |run| > 0 && run[0] == INITIAL && forall i :: 0 <= i < |run| - 1 ==> Step(run[i], run[i + 1])
  }

  // ---------- the invariant ----------

  /** Where an id can be: reserved only, pending, taken by one call, or settled. */
  ghost predicate IdsInv(s: State) {
    && (forall id :: id in s.reserved ==> id < s.nextId && id !in s.waiters && id !in s.pending)
    && (forall id :: id in s.waiters ==> id < s.nextId)
    && (forall call :: call in s.sending ==> s.sending[call].id < s.nextId)
    && (forall id :: id in s.accepted ==> id < s.nextId && id !in s.reserved)
    && (forall call :: call in s.sending ==> s.sending[call].id !in s.reserved)
  }

  ghost predicate PairingInv(s: State) {
    && |s.pending| <= MAX_PENDING
    && (forall id :: id in s.pending ==> id in s.waiters && s.waiters[id].slot.None? && Count(s.accepted, id) == 0)
    && (forall call :: call in s.sending ==>
          s.sending[call].id !in s.pending && Count(s.accepted, s.sending[call].id) == 0)
    && (forall x, y :: x in s.sending && y in s.sending && s.sending[x].id == s.sending[y].id ==> x == y)
    && (forall id :: Count(s.accepted, id) <= 1)
  }

  ghost predicate ValueInv(s: State) {
    && (forall call :: call in s.sending ==> (s.sending[call].id, s.sending[call].answer) in s.completed)
    && (forall id :: id in s.waiters && s.waiters[id].slot.Some? ==> (id, s.waiters[id].slot.value) in s.completed)
    && (forall id :: id in s.received ==> (id, s.received[id]) in s.completed)
  }

  ghost predicate Inv(s: State) {
    IdsInv(s) && PairingInv(s) && ValueInv(s)
  }

  lemma SendKeepsIds(s: State, call: nat)
    requires call in s.sending && IdsInv(s)
    ensures IdsInv(NextSend(s, call))
  {
  }

  /** The request sent had not been accepted before, and no other call is sending for it. */
  lemma SendKeepsPairing(s: State, call: nat)
    requires call in s.sending && PairingInv(s)
    ensures PairingInv(NextSend(s, call))
  {
    var t := NextSend(s, call);
    var sent := s.sending[call].id;
    assert Count(s.accepted, sent) == 0 && sent !in s.pending;
    forall id
      ensures Count(t.accepted, id) <= 1 && (id != sent ==> Count(t.accepted, id) == Count(s.accepted, id))
    {
      assert Count(s.accepted, id) <= 1;
    }
    forall other | other in t.sending
      ensures t.sending[other].id !in t.pending && Count(t.accepted, t.sending[other].id) == 0
    {
      assert other in s.sending && other != call;
      assert t.sending[other].id != sent;
    }
  }

  lemma SendKeepsValues(s: State, call: nat)
    requires call in s.sending && ValueInv(s)
    ensures ValueInv(NextSend(s, call))
  {
  }

  lemma SendKeeps(s: State, call: nat)
    requires call in s.sending && Inv(s)
    ensures Inv(NextSend(s, call))
  {
    SendKeepsIds(s, call);
    SendKeepsPairing(s, call);
    SendKeepsValues(s, call);
  }

  lemma RegisterKeepsIds(s: State, id: nat)
    requires id in s.reserved && IdsInv(s)
    ensures IdsInv(Next(s, Register(id)))
  {
  }

  lemma RegisterKeepsPairing(s: State, id: nat)
    requires id in s.reserved && IdsInv(s) && PairingInv(s)
    ensures PairingInv(Next(s, Register(id)))
  {
    assert forall n :: n in s.accepted ==> n != id;
  }

  lemma RegisterKeepsValues(s: State, id: nat)
    requires id in s.reserved && ValueInv(s)
    ensures ValueInv(Next(s, Register(id)))
  {
  }

  lemma RegisterKeeps(s: State, id: nat)
    requires id in s.reserved && Inv(s)
    ensures Inv(Next(s, Register(id)))
  {
    RegisterKeepsIds(s, id);
    RegisterKeepsPairing(s, id);
    RegisterKeepsValues(s, id);
  }

  lemma TakeKeeps(s: State, call: nat, id: nat, answer: Answer)
    requires Inv(s) && Enabled(s, Take(call, id, answer))
    ensures Inv(Next(s, Take(call, id, answer)))
  {
    if id in s.pending { assert |s.pending - {id}| < |s.pending|; }
  }

  lemma DropKeepsPairing(s: State, id: nat)
    requires id in s.waiters && !s.waiters[id].open && PairingInv(s)
    ensures PairingInv(Next(s, DropGuard(id)))
  {
    if id in s.pending { assert |s.pending - {id}| < |s.pending|; } else { assert s.pending - {id} == s.pending; }
  }

  lemma DropKeeps(s: State, id: nat)
    requires id in s.waiters && !s.waiters[id].open && Inv(s)
    ensures Inv(Next(s, DropGuard(id)))
  {
    DropKeepsPairing(s, id);
  }

  lemma StepKeeps(s: State, a: Action)
    requires Inv(s) && Enabled(s, a)
    ensures Inv(Next(s, a))
  {
    match a
    case Send(call) => SendKeeps(s, call);
    case Register(id) => RegisterKeeps(s, id);
    case Take(call, id, answer) => TakeKeeps(s, call, id, answer);
    case DropGuard(id) => DropKeeps(s, id);
    case _ =>
  }

  lemma {:induction false} RunInv(run: seq<State>, i: nat)
    requires IsRun(run) && i < |run|
    ensures Inv(run[i])
  {
    if i > 0 {
      RunInv(run, i - 1);
      var s, t := run[i - 1], run[(i - 1) + 1];
      assert Step(s, t);
      var a :| Enabled(s, a) && t == Next(s, a);
      StepKeeps(s, a);
    }
  }

  // ---------- what holds over whole runs ----------

  /** At most eight requests are pending, each for a waiter whose guard is still held. */
  lemma PendingIsBoundedAndLive(run: seq<State>, i: nat)
    requires IsRun(run) && i < |run|
    ensures |run[i].pending| <= MAX_PENDING && run[i].pending <= run[i].waiters.Keys
  {
    RunInv(run, i);
  }

  /** `complete` answers true at most once per request. */
  lemma AcceptedAtMostOnce(run: seq<State>, i: nat, id: nat)
    requires IsRun(run) && i < |run|
    ensures Count(run[i].accepted, id) <= 1
  {
    RunInv(run, i);
  }

  /** A waiter returns only a value that was completed for its own request. */
  lemma ReceivesItsOwnAnswer(run: seq<State>, i: nat, id: nat)
    requires IsRun(run) && i < |run| && id in run[i].received
    ensures (id, run[i].received[id]) in run[i].completed
  {
    RunInv(run, i);
  }

  /** The request is past: handed out, and nobody is waiting for it any more. */
  predicate Over(s: State, id: nat) {
    id < s.nextId && id !in s.reserved && !Accepts(s, id)
  }

  lemma OverStays(s: State, a: Action, id: nat)
    requires Enabled(s, a) && Over(s, id)
    ensures Over(Next(s, a), id) && Count(Next(s, a).accepted, id) == Count(s.accepted, id)
  {
  }

  /** Once a waiter is dropped, no later answer to its request is accepted. */
  lemma {:induction false} LateAnswersIgnored(run: seq<State>, i: nat, j: nat, id: nat)
    requires IsRun(run) && i <= j < |run| && Over(run[i], id)
    ensures Over(run[j], id) && Count(run[j].accepted, id) == Count(run[i].accepted, id)
    decreases j
  {
    if i < j {
      LateAnswersIgnored(run, i, j - 1, id);
      var s, t := run[j - 1], run[(j - 1) + 1];
      assert Step(s, t);
      var a :| Enabled(s, a) && t == Next(s, a);
      OverStays(s, a, id);
    }
  }

  lemma UpdatedThenDropped(m: map<nat, Waiter>, id: nat, w: Waiter)
    ensures m[id := w] - {id} == m - {id}
  {
  }

  /** The broker itself: the counter and the pending table with its channels. Each method runs its
      lock regions without interruption; `IsRun` above covers every interleaving of them. */
  class HostTokenBroker {
    ghost var s: State
    var nextRequestId: nat
    var pending: set<nat>
    var channels: map<nat, Waiter>

    ghost predicate Valid()
      reads this
    {
      && Inv(s)
      && s.nextId == nextRequestId && s.pending == pending && s.waiters == channels
    }

    constructor ()
      ensures Valid() && s == INITIAL
    {
      s := INITIAL;
      nextRequestId, pending, channels := 1, {}, map[];
    }

    method Begin() returns (request: Option<nat>)
      requires Valid()
      modifies this
      ensures Valid()
      ensures s == Next(Next(old(s), Reserve), Register(old(nextRequestId)))
      ensures request == if |old(pending)| >= MAX_PENDING then None else Some(old(nextRequestId))
    {
      var id := nextRequestId;
      nextRequestId := nextRequestId + 1;
      StepKeeps(s, Reserve);
      s := Next(s, Reserve);
      if |pending| >= MAX_PENDING {
        request := None;
      } else {
        pending := pending + {id};
        channels := channels[id := Waiter(true, None)];
        request := Some(id);
      }
      RegisterKeeps(s, id);
      s := Next(s, Register(id));
    }

    /** The locked half of `complete`. */
    method TakeSender(ghost call: nat, id: nat, answer: Answer) returns (found: bool)
      requires Valid() && call !in s.sending
      modifies this`s, this`pending
      ensures Valid() && found == (id in old(pending)) && pending == old(pending) - {id}
      ensures s == Next(old(s), Take(call, id, answer))
    {
      TakeKeeps(s, call, id, answer);
      s := Next(s, Take(call, id, answer));
      found := id in pending;
      pending := pending - {id};
    }

    /** The half of `complete` outside the lock. */
    method SendAnswer(ghost call: nat, id: nat, answer: Answer) returns (ok: bool)
      requires Valid() && call in s.sending && s.sending[call] == Sending(id, answer)
      modifies this`s, this`channels
      ensures Valid() && ok == (id in old(channels) && old(channels)[id].open)
      ensures s == NextSend(old(s), call)
      ensures channels == if ok then old(channels)[id := Waiter(true, Some(answer))] else old(channels)
    {
      SendKeeps(s, call);
      s := NextSend(s, call);
      ok := id in channels && channels[id].open;
      if ok {
        channels := channels[id := Waiter(true, Some(answer))];
      }
    }

    /** `call` names this call among those that may be under way. */
    method Complete(ghost call: nat, id: nat, answer: Answer) returns (ok: bool)
      requires Valid() && call !in s.sending
      modifies this
      ensures Valid()
      ensures ok <==> id in old(pending) && old(channels)[id].open
      ensures channels == if ok then old(channels)[id := Waiter(true, Some(answer))] else old(channels)
      ensures pending == old(pending) - {id}
      ensures Count(s.accepted, id) == Count(old(s).accepted, id) + (if ok then 1 else 0)
    {
      ok := TakeSender(call, id, answer);
      if ok {
        ok := SendAnswer(call, id, answer);
      }
    }

    /** The receiver of a waiter goes out of scope. */
    method CloseReceiver(id: nat)
      requires Valid() && id in channels && channels[id].open
      modifies this`s, this`channels
      ensures Valid() && channels == old(channels)[id := Waiter(false, None)]
    {
      StepKeeps(s, CloseChannel(id));
      s := Next(s, CloseChannel(id));
      channels := channels[id := Waiter(false, None)];
    }

    /** `PendingGuard::drop`. */
    method DropPending(id: nat)
      requires Valid() && id in channels && !channels[id].open
      modifies this`s, this`pending, this`channels
      ensures Valid() && pending == old(pending) - {id} && channels == old(channels) - {id}
      ensures Over(s, id)
    {
      DropKeeps(s, id);
      s := Next(s, DropGuard(id));
      pending := pending - {id};
      channels := channels - {id};
    }

    /** Dropping a waiter: its channel closes, then the guard removes the request. */
    method DropWaiter(id: nat)
      requires Valid() && id in channels && channels[id].open
      modifies this
      ensures Valid()
      ensures pending == old(pending) - {id} && channels == old(channels) - {id} && Over(s, id)
    {
      UpdatedThenDropped(channels, id, Waiter(false, None));
      CloseReceiver(id);
      DropPending(id);
    }
  }
}
