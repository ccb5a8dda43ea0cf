/** The session-end signal: generation stores followed by a notification, and watchers that register
    before they check. */
module SessionEnd {
  import opened Prelude

  /** Where a watcher is in the loop of `ended`: about to register, registered and about to check,
      parked on the notification, or back with its answer. */
  datatype Phase = Entering | Registered | Parked | Returned

  /** `notified` says that a notification arrived since the watcher registered; `sinceStore` how many
      stores had happened when it last found its generation current. */
  datatype Watcher = Watcher(generation: nat, phase: Phase, notified: bool, sinceStore: nat)

  /** `stores` counts generation stores; `due` holds those whose notification is not issued yet. */
  datatype State = State(generation: nat, stores: nat, due: set<nat>, watchers: map<nat, Watcher>)

  datatype Action =
    | Watch(w: nat, generation: nat)
    | Enable(w: nat)
    | Check(w: nat)
    | Wake(w: nat)
    | Store(generation: nat)
    | Notify(store: nat)

  /** A watched generation is never made current again once it was left; apart from that any
      generation may be stored, the current one included, and any may be watched. */
  predicate Reusable(s: State, g: nat) {
    g == s.generation || forall w :: w in s.watchers ==> s.watchers[w].generation != g
  }

  predicate Enabled(s: State, a: Action) {
    match a
    case Watch(w, _) => w !in s.watchers
    case Enable(w) => w in s.watchers && s.watchers[w].phase.Entering?
    case Check(w) => w in s.watchers && s.watchers[w].phase.Registered?
    case Wake(w) => w in s.watchers && s.watchers[w].phase.Parked? && s.watchers[w].notified
    case Store(g) => Reusable(s, g)
    case Notify(store) => store in s.due
  }

  function NotifyWaiters(watchers: map<nat, Watcher>): map<nat, Watcher> {
    map w | w in watchers ::
      if watchers[w].phase.Registered? || watchers[w].phase.Parked? then watchers[w].(notified := true) else watchers[w]
  }

  predicate IsEnded(s: State, watcher: Watcher) {
    s.generation != watcher.generation
  }

  function Next(s: State, a: Action): State
    requires Enabled(s, a)
  {
    match a
    case Watch(w, g) => s.(watchers := s.watchers[w := Watcher(g, Entering, false, s.stores)])
    case Enable(w) => s.(watchers := s.watchers[w := s.watchers[w].(phase := Registered, notified := false)])
    case Check(w) =>
      s.(watchers := s.watchers[w := s.watchers[w].(
        phase := if IsEnded(s, s.watchers[w]) then Returned else Parked, sinceStore := s.stores)])
    case Wake(w) => s.(watchers := s.watchers[w := s.watchers[w].(phase := Entering)])
    case Store(g) => s.(generation := g, stores := s.stores + 1, due := s.due + {s.stores})
    case Notify(store) => s.(due := s.due - {store}, watchers := NotifyWaiters(s.watchers))
  }

  const INITIAL := State(0, 0, {}, map[])

  ghost predicate Step(s: State, t: State) {
    exists a :: Enabled(s, a) && t == Next(s, a)
  }

  ghost predicate IsPath(run: seq<State>) {
    forall i :: 0 <= i < |run| - 1 ==> Step(run[i], run[i + 1])
  }

  ghost predicate IsRun(run: seq<State>) {
    |run| > 0 && run[0] == INITIAL && IsPath(run)
  }

  /** Nothing is lost: a parked watcher that was not notified still has its generation, or the
      notification of a later store is on its way. */
  ghost predicate Heard(s: State, w: Watcher) {
    w.phase.Parked? && !w.notified ==>
      || (s.generation == w.generation && w.sinceStore <= s.stores)
      || exists store :: store in s.due && w.sinceStore <= store
  }

  ghost predicate Inv(s: State) {
    && (forall store :: store in s.due ==> store < s.stores)
    && (forall w :: w in s.watchers ==> s.watchers[w].sinceStore <= s.stores && Heard(s, s.watchers[w]))
    && (forall w :: w in s.watchers && s.watchers[w].phase.Returned? ==> s.watchers[w].generation != s.generation)
  }

  lemma NotifyKeeps(s: State, store: nat)
    requires Inv(s) && Enabled(s, Notify(store))
    ensures Inv(Next(s, Notify(store)))
  {
    var t := Next(s, Notify(store));
    forall w | w in t.watchers
      ensures Heard(t, t.watchers[w])
    {
      assert Heard(s, s.watchers[w]);
    }
  }

  lemma StoreKeeps(s: State, g: nat)
    requires Inv(s) && Enabled(s, Store(g))
    ensures Inv(Next(s, Store(g)))
  {
    var t := Next(s, Store(g));
    forall w | w in t.watchers
      ensures Heard(t, t.watchers[w])
    {
      assert Heard(s, s.watchers[w]);
      var x := s.watchers[w];
      if x.phase.Parked? && !x.notified {
        if s.generation == x.generation {
          assert s.stores in t.due && x.sinceStore <= s.stores;
        } else {
          var store :| store in s.due && x.sinceStore <= store;
          assert store in t.due;
        }
      }
    }
  }

  lemma StepKeeps(s: State, a: Action)
    requires Inv(s) && Enabled(s, a)
    ensures Inv(Next(s, a))
  {
    match a
    case Store(g) => StoreKeeps(s, g);
    case Notify(store) => NotifyKeeps(s, store);
    case _ =>
      var t := Next(s, a);
      forall w | w in t.watchers
        ensures Heard(t, t.watchers[w])
      {
        if w in s.watchers { assert Heard(s, s.watchers[w]); }
      }
  }

  lemma {:induction false} RunInv(run: seq<State>, i: nat)
    requires IsRun(run) && i < |run|
    ensures Inv(run[i])
  {
    if i > 0 {
      RunInv(run, i - 1);
      var s, t := run[i - 1], run[(i - 1) + 1];
      assert Step(s, t);
      var a :| Enabled(s, a) && t == Next(s, a);
      StepKeeps(s, a);
    }
  }

  /** No lost wakeup: whoever is parked without a notification still watches the current generation,
      or a store made after its check has yet to notify. */
  lemma NoLostWakeup(run: seq<State>, i: nat, w: nat)
    requires IsRun(run) && i < |run| && w in run[i].watchers
    requires run[i].watchers[w].phase.Parked? && !run[i].watchers[w].notified
    ensures || run[i].watchers[w].generation == run[i].generation
            || exists store :: store in run[i].due && run[i].watchers[w].sinceStore <= store
  {
    RunInv(run, i);
  }

  /** With every notification issued, no watcher of an ended generation is stuck: if parked, it can
      wake. */
  lemma EndedWatcherCanWake(run: seq<State>, i: nat, w: nat)
    requires IsRun(run) && i < |run| && w in run[i].watchers
    requires run[i].due == {} && IsEnded(run[i], run[i].watchers[w])
    ensures run[i].watchers[w].phase.Parked? ==> Enabled(run[i], Wake(w))
  {
    RunInv(run, i);
    assert Heard(run[i], run[i].watchers[w]);
  }

  /** A watcher returns only when its generation has ended. */
  lemma ReturnsOnlyWhenEnded(run: seq<State>, i: nat, w: nat)
    requires IsRun(run) && i < |run| && w in run[i].watchers && run[i].watchers[w].phase.Returned?
    ensures IsEnded(run[i], run[i].watchers[w])
  {
    RunInv(run, i);
  }

  // ---------- every ended watcher returns ----------

  /** The watcher's own steps that are left once its generation has ended and it was notified. */
  function StepsLeft(w: Watcher): nat {
    match w.phase
    case Parked => 3
    case Entering => 2
    case Registered => 1
    case Returned => 0
  }

  predicate Released(s: State, w: nat) {
    w in s.watchers && IsEnded(s, s.watchers[w]) && (s.watchers[w].phase.Parked? ==> s.watchers[w].notified)
  }

  predicate IsStepOf(a: Action, w: nat) {
    a == Enable(w) || a == Check(w) || a == Wake(w)
  }

  /** Whatever the others do, a released watcher stays released and gets no further from returning;
      each step of its own brings it one closer, and until it has returned it has one. */
  lemma ReleasedProgress(s: State, a: Action, w: nat)
    requires Inv(s) && Enabled(s, a) && Released(s, w)
    ensures var t := Next(s, a);
            && Released(t, w)
            && StepsLeft(t.watchers[w]) == StepsLeft(s.watchers[w]) - (if IsStepOf(a, w) then 1 else 0)
    ensures StepsLeft(s.watchers[w]) > 0 ==> Enabled(s, Enable(w)) || Enabled(s, Check(w)) || Enabled(s, Wake(w))
  {
  }

  ghost predicate Follows(path: seq<State>, acts: seq<Action>) {
    && |path| == |acts| + 1
    && forall i :: 0 <= i < |acts| ==> Enabled(path[i], acts[i]) && path[i + 1] == Next(path[i], acts[i])
  }

  /** So three steps of its own suffice, however they interleave with everything else. */
  lemma {:induction false} ReleasedReturns(path: seq<State>, acts: seq<Action>, w: nat)
    requires Follows(path, acts) && Inv(path[0]) && Released(path[0], w)
    ensures Released(path[|acts|], w)
    ensures StepsLeft(path[|acts|].watchers[w]) == StepsLeft(path[0].watchers[w]) - OwnSteps(acts, w)
    ensures OwnSteps(acts, w) <= 3
    ensures OwnSteps(acts, w) == 3 ==> path[|acts|].watchers[w].phase.Returned?
    decreases |acts|
  {
    if acts != [] {
      var n := |acts| - 1;
      ReleasedReturns(path[..|acts|], acts[..n], w);
      InvAlong(path, acts, n);
      ReleasedProgress(path[n], acts[n], w);
    }
  }

  lemma {:induction false} InvAlong(path: seq<State>, acts: seq<Action>, i: nat)
    requires Follows(path, acts) && Inv(path[0]) && i <= |acts|
    ensures Inv(path[i])
  {
    if i > 0 {
      InvAlong(path, acts, i - 1);
      StepKeeps(path[i - 1], acts[i - 1]);
      assert path[(i - 1) + 1] == Next(path[i - 1], acts[i - 1]);
    }
  }

  function OwnSteps(acts: seq<Action>, w: nat): nat {
    if acts == [] then 0
    else OwnSteps(acts[..|acts| - 1], w) + (if IsStepOf(acts[|acts| - 1], w) then 1 else 0)
  }

  // ---------- the client's side ----------

  /** The generation snapshot and the signal, as the client updates them. */
  class GenerationSignal {
    ghost var s: State
    var generation: nat

    ghost predicate Valid()
      reads this
    {
      Inv(s) && s.generation == generation
    }

    constructor ()
      ensures Valid() && s == INITIAL
    {
      s := INITIAL;
      generation := 0;
    }

    /** Store, then notify: every parked watcher can wake afterwards and look again. */
    method StoreGeneration(g: nat)
      requires Valid() && Reusable(s, g)
      modifies this
      ensures Valid() && generation == g
      ensures s == Next(Next(old(s), Store(g)), Notify(old(s).stores))
      ensures forall w :: w in s.watchers && s.watchers[w].phase.Parked? ==> Enabled(s, Wake(w))
    {
      ghost var store := s.stores;
      generation := g;
      StoreKeeps(s, g);
      s := Next(s, Store(g));
      NotifyKeeps(s, store);
      s := Next(s, Notify(store));
    }
  }
}
