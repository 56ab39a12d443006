/** The single-flight bind (packages/mcp/ensure-bound.ts): one state cell moved by the
    callers' fibers, each acquire's exit shared through a deferred, and a post-acquire hook
    that may call back in. A step is one atomic effect, so a run is any interleaving. */
module EnsureBound {
  import opened Core

  datatype Exit = Success(identity: nat) | Failure(error: nat)

  datatype AcquireState = Idle | Pending(deferred: nat) | Acquired(identity: nat)

  /** Where a caller is: its acquire running, its acquire ended and recorded but the
      deferred not yet completed, its hook running, awaiting another caller's deferred, or
      returned. */
  datatype Phase =
    | Acquiring(deferred: nat)
    | Completing(deferred: nat, exit: Exit)
    | Hooking(deferred: nat, identity: nat)
    | Waiting(deferred: nat)
    | Returned(from: Option<nat>, ran: bool, result: Exit)

  /** `exits` is history: the exit of the acquire run under each deferred. */
  datatype System = System(hasHook: bool, state: AcquireState, deferreds: seq<Option<Exit>>,
                           callers: map<nat, Phase>, exits: map<nat, Exit>)

  datatype Action =
    | Enter(caller: nat)
    | AcquireExits(caller: nat, exit: Exit)
    | Complete(caller: nat)
    | HookExits(caller: nat, error: Option<nat>)
    | Resume(caller: nat)

  predicate Enabled(s: System, a: Action) {
    match a
    case Enter(c) => c !in s.callers
    case AcquireExits(c, _) => c in s.callers && s.callers[c].Acquiring?
    case Complete(c) => c in s.callers && s.callers[c].Completing? && s.callers[c].deferred < |s.deferreds|
    case HookExits(c, _) => c in s.callers && s.callers[c].Hooking?
    case Resume(c) =>
      c in s.callers && s.callers[c].Waiting? && s.callers[c].deferred < |s.deferreds| && s.deferreds[s.callers[c].deferred].Some?
  }

  function Next(s: System, a: Action): System
    requires Enabled(s, a)
  {
    match a
    case Enter(c) =>
      var d := |s.deferreds|;
      var phase := match s.state
        case Acquired(identity) => Returned(None, false, Success(identity))
        case Pending(deferred) => Waiting(deferred)
        case Idle => Acquiring(d);
      s.(state := if s.state.Idle? then Pending(d) else s.state, deferreds := s.deferreds + [None], callers := s.callers[c := phase])
    case AcquireExits(c, exit) =>
      var d := s.callers[c].deferred;
      s.(state := if exit.Success? then Acquired(exit.identity) else Idle,
         callers := s.callers[c := Completing(d, exit)], exits := s.exits[d := exit])
    case Complete(c) =>
      var (d, exit) := (s.callers[c].deferred, s.callers[c].exit);
      var phase := if exit.Success? && s.hasHook then Hooking(d, exit.identity) else Returned(Some(d), true, exit);
      s.(deferreds := s.deferreds[d := Some(exit)], callers := s.callers[c := phase])
    case HookExits(c, error) =>
      var (d, identity) := (s.callers[c].deferred, s.callers[c].identity);
      var result := if error.None? then Success(identity) else Failure(error.value);
      s.(state := if error.None? then s.state else Idle, callers := s.callers[c := Returned(Some(d), true, result)])
    case Resume(c) =>
      var d := s.callers[c].deferred;
      s.(callers := s.callers[c := Returned(Some(d), false, s.deferreds[d].value)])
  }

  function Start(hasHook: bool): System { System(hasHook, Idle, [], map[], map[]) }

  predicate Runs(s: System, actions: seq<Action>)
    decreases |actions|
  {
    actions == [] || (Enabled(s, actions[0]) && Runs(Next(s, actions[0]), actions[1..]))
  }

  function Run(s: System, actions: seq<Action>): System
    requires Runs(s, actions)
    decreases |actions|
  {
    if actions == [] then s else Run(Next(s, actions[0]), actions[1..])
  }

  class EnsureBound {
    const hasHook: bool
    var state: AcquireState
    var deferreds: seq<Option<Exit>>
    var callers: map<nat, Phase>
    ghost var exits: map<nat, Exit>

    constructor (hasHook: bool)
      ensures Abstract() == Start(hasHook)
    {
      this.hasHook := hasHook;
      state, deferreds, callers, exits := Idle, [], map[], map[];
    }

    ghost function Abstract(): System reads this { System(hasHook, state, deferreds, callers, exits) }

    /** A call up to its first suspension: a fresh deferred, and the decision taken in one
        `Ref.modify`. */
    method Enter(c: nat)
      requires Enabled(Abstract(), Action.Enter(c))
      modifies this
      ensures Abstract() == Next(old(Abstract()), Action.Enter(c))
    {
      var own := |deferreds|;
      deferreds := deferreds + [None];
      match state {
        case Acquired(identity) => callers := callers[c := Returned(None, false, Success(identity))];
        case Pending(deferred) => callers := callers[c := Waiting(deferred)];
        case Idle =>
          state := Pending(own);
          callers := callers[c := Acquiring(own)];
      }
    }

    /** The acquire's `onExit`, first half: the state cell. */
    method AcquireExits(c: nat, exit: Exit)
      requires Enabled(Abstract(), Action.AcquireExits(c, exit))
      modifies this
      ensures Abstract() == Next(old(Abstract()), Action.AcquireExits(c, exit))
    {
      match exit {
        case Failure(_) => state := Idle;
        case Success(identity) => state := Acquired(identity);
      }
      exits := exits[callers[c].deferred := exit];
      callers := callers[c := Completing(callers[c].deferred, exit)];
    }

    /** The acquire's `onExit`, second half: the deferred; then the hook starts. */
    method Complete(c: nat)
      requires Enabled(Abstract(), Action.Complete(c))
      modifies this
      ensures Abstract() == Next(old(Abstract()), Action.Complete(c))
    {
      var d, exit := callers[c].deferred, callers[c].exit;
      deferreds := deferreds[d := Some(exit)];
      if exit.Success? && hasHook {
        callers := callers[c := Hooking(d, exit.identity)];
      } else {
        callers := callers[c := Returned(Some(d), true, exit)];
      }
    }

    method HookExits(c: nat, error: Option<nat>)
      requires Enabled(Abstract(), Action.HookExits(c, error))
      modifies this
      ensures Abstract() == Next(old(Abstract()), Action.HookExits(c, error))
    {
      var result := Success(callers[c].identity);
      if error.Some? {
        state := Idle;
        result := Failure(error.value);
      }
      callers := callers[c := Returned(Some(callers[c].deferred), true, result)];
    }

    method Resume(c: nat)
      requires Enabled(Abstract(), Action.Resume(c))
      modifies this
      ensures Abstract() == Next(old(Abstract()), Action.Resume(c))
    {
      var d := callers[c].deferred;
      callers := callers[c := Returned(Some(d), false, deferreds[d].value)];
    }
  }

  // ---- the invariant ----

  /** The caller holds the flight: its acquire runs, or has succeeded and its hook has not
      ended. */
  predicate InFlight(p: Phase) { p.Acquiring? || p.Hooking? || (p.Completing? && p.exit.Success?) }

  predicate OneFlight(s: System) {
    forall c, e :: c in s.callers && e in s.callers && InFlight(s.callers[c]) && InFlight(s.callers[e]) ==> c == e
  }

  /** What the state cell says of a caller in flight. */
  predicate CellMatches(state: AcquireState, p: Phase) {
    match p
    case Acquiring(d) => state == Pending(d)
    case Hooking(_, identity) => state == Acquired(identity)
    case Completing(_, exit) => exit.Success? ==> state == Acquired(exit.identity)
    case _ => true
  }

  /** How a caller's phase fits the deferreds and the acquires' exits. */
  predicate PhaseMatches(s: System, p: Phase) {
    match p
    case Acquiring(d) => d < |s.deferreds| && s.deferreds[d].None? && d !in s.exits
    case Completing(d, exit) => d < |s.deferreds| && s.deferreds[d].None? && d in s.exits && s.exits[d] == exit
    case Hooking(d, identity) =>
      s.hasHook && d < |s.deferreds| && s.deferreds[d] == Some(Success(identity)) && d in s.exits && s.exits[d] == Success(identity)
    case Waiting(d) => d < |s.deferreds| && (s.deferreds[d].None? ==> Driven(s, d))
    case Returned(from, ran, result) =>
      match from {
        case None => !ran && result.Success? && Obtained(s.exits, result)
        case Some(d) => d in s.exits && (s.exits[d] == result || (ran && s.hasHook && s.exits[d].Success? && result.Failure?))
      }
  }

  /** The caller is about to complete this deferred, and no hook stands in its way. */
  predicate Drives(p: Phase, d: nat) { (p.Acquiring? || p.Completing?) && p.deferred == d }

  predicate Driven(s: System, d: nat) { exists c :: c in s.callers && Drives(s.callers[c], d) }

  predicate Obtained(exits: map<nat, Exit>, exit: Exit) { exists d :: d in exits && exits[d] == exit }

  /** No deferred has two callers about to complete it. */
  predicate OneDriver(s: System) {
    forall c, e :: c in s.callers && e in s.callers && SameDriver(s.callers[c], s.callers[e]) ==> c == e
  }

  predicate SameDriver(p: Phase, q: Phase) { (p.Acquiring? || p.Completing?) && Drives(q, p.deferred) }

  ghost predicate Phases(s: System) {
    forall c :: c in s.callers ==> PhaseMatches(s, s.callers[c])
  }

  predicate Cell(s: System) {
    forall c :: c in s.callers ==> CellMatches(s.state, s.callers[c])
  }

  /** A completed deferred holds its acquire's exit, and the cell says only what some
      caller or some acquire stands for. */
  ghost predicate Recorded(s: System) {
    && (forall d :: 0 <= d < |s.deferreds| && s.deferreds[d].Some? ==> d in s.exits && s.exits[d] == s.deferreds[d].value)
    && (forall d :: d in s.exits ==> d < |s.deferreds|)
    && (s.state.Pending? ==> exists c :: c in s.callers && s.callers[c] == Acquiring(s.state.deferred))
    && (s.state.Acquired? ==> Obtained(s.exits, Success(s.state.identity)))
  }

  ghost predicate Inv(s: System) {
    OneFlight(s) && OneDriver(s) && Cell(s) && Phases(s) && Recorded(s)
  }

  lemma FlightKeeps(s: System, a: Action)
    requires Enabled(s, a) && OneFlight(s) && Cell(s)
    ensures OneFlight(Next(s, a)) && Cell(Next(s, a))
  {
  }

  lemma DriverKeeps(s: System, a: Action)
    requires Enabled(s, a) && Inv(s)
    ensures OneDriver(Next(s, a))
  {
    var n := Next(s, a);
    if a.Enter? {
      forall c | c in s.callers && (s.callers[c].Acquiring? || s.callers[c].Completing?) ensures s.callers[c].deferred < |s.deferreds| {
        assert PhaseMatches(s, s.callers[c]);
      }
    }
  }

  /** Exits are recorded once: an acquire's exit never changes. */
  lemma ExitsGrow(s: System, a: Action)
    requires Enabled(s, a) && Inv(s)
    ensures forall d :: d in s.exits ==> d in Next(s, a).exits && Next(s, a).exits[d] == s.exits[d]
    ensures forall exit :: Obtained(s.exits, exit) ==> Obtained(Next(s, a).exits, exit)
  {
    var n := Next(s, a);
    if a.AcquireExits? { assert PhaseMatches(s, s.callers[a.caller]); }
    forall exit | Obtained(s.exits, exit) ensures Obtained(n.exits, exit) {
      var d :| d in s.exits && s.exits[d] == exit;
      assert d in n.exits;
    }
  }

  /** A driver stays one until it completes its deferred. */
  lemma DrivenKeeps(s: System, a: Action, d: nat)
    requires Enabled(s, a) && Inv(s) && Driven(s, d) && d < |s.deferreds| && s.deferreds[d].None?
    ensures d < |Next(s, a).deferreds| && (Next(s, a).deferreds[d].None? ==> Driven(Next(s, a), d))
  {
    var c :| c in s.callers && Drives(s.callers[c], d);
    assert c in Next(s, a).callers;
    assert Next(s, a).deferreds[d].None? ==> Drives(Next(s, a).callers[c], d);
  }

  lemma RecordedKeeps(s: System, a: Action)
    requires Enabled(s, a) && Inv(s)
    ensures Recorded(Next(s, a))
  {
    var n := Next(s, a);
    ExitsGrow(s, a);
    assert a.caller in s.callers ==> PhaseMatches(s, s.callers[a.caller]) && CellMatches(s.state, s.callers[a.caller]);
    assert a.caller in n.callers;
    if s.state.Pending? {
      var c :| c in s.callers && s.callers[c] == Acquiring(s.state.deferred);
      assert c != a.caller ==> n.callers[c] == s.callers[c];
    }
    if a.AcquireExits? { assert n.exits[s.callers[a.caller].deferred] == a.exit; }
  }

  lemma PhaseKeeps(s: System, a: Action, c: nat)
    requires Enabled(s, a) && Inv(s) && c in s.callers && c != a.caller
    ensures PhaseMatches(Next(s, a), s.callers[c])
  {
    assert PhaseMatches(s, s.callers[c]);
    ExitsGrow(s, a);
    if s.callers[c].Waiting? && s.deferreds[s.callers[c].deferred].None? { DrivenKeeps(s, a, s.callers[c].deferred); }
    if a.caller in s.callers && s.callers[c].Acquiring? { assert PhaseMatches(s, s.callers[a.caller]); }
    assert a.caller in s.callers ==> !SameDriver(s.callers[c], s.callers[a.caller]);
  }

  lemma OwnPhaseKeeps(s: System, a: Action)
    requires Enabled(s, a) && Inv(s)
    ensures PhaseMatches(Next(s, a), Next(s, a).callers[a.caller])
  {
    var n := Next(s, a);
    ExitsGrow(s, a);
    assert a.caller in s.callers ==> PhaseMatches(s, s.callers[a.caller]);
    if a.Enter? && s.state.Pending? {
      var c :| c in s.callers && s.callers[c] == Acquiring(s.state.deferred);
      assert PhaseMatches(s, s.callers[c]) && n.callers[c] == s.callers[c];
      assert Driven(n, s.state.deferred);
    }
  }

  lemma NextKeeps(s: System, a: Action)
    requires Inv(s) && Enabled(s, a)
    ensures Inv(Next(s, a))
  {
    FlightKeeps(s, a);
    DriverKeeps(s, a);
    RecordedKeeps(s, a);
    OwnPhaseKeeps(s, a);
    forall c | c in Next(s, a).callers ensures PhaseMatches(Next(s, a), Next(s, a).callers[c]) {
      if c != a.caller { PhaseKeeps(s, a, c); }
    }
  }

  lemma {:induction false} RunKeeps(s: System, actions: seq<Action>)
    requires Inv(s) && Runs(s, actions)
    ensures Inv(Run(s, actions))
    decreases |actions|
  {
    if actions != [] {
      NextKeeps(s, actions[0]);
      RunKeeps(Next(s, actions[0]), actions[1..]);
    }
  }

  // ---- what every run keeps ----

  ghost predicate Reaches(hasHook: bool, actions: seq<Action>, s: System) {
    Runs(Start(hasHook), actions) && Run(Start(hasHook), actions) == s
  }

  /** In every interleaving at most one caller has an acquire or its hook running. */
  lemma SingleFlight(hasHook: bool, actions: seq<Action>, s: System, c: nat, e: nat)
    requires Reaches(hasHook, actions, s) && c in s.callers && e in s.callers
    requires InFlight(s.callers[c]) && InFlight(s.callers[e])
    ensures c == e
  {
    RunKeeps(Start(hasHook), actions);
  }

  /** A caller that awaited another's acquire returns exactly that acquire's exit, and
      every identity any caller returns was obtained by some acquire. */
  lemma WaiterGetsItsExit(hasHook: bool, actions: seq<Action>, s: System, c: nat)
    requires Reaches(hasHook, actions, s) && c in s.callers && s.callers[c].Returned?
    ensures var p := s.callers[c];
      && (p.from.Some? && !p.ran ==> p.from.value in s.exits && p.result == s.exits[p.from.value])
      && (p.result.Success? ==> Obtained(s.exits, p.result))
  {
    RunKeeps(Start(hasHook), actions);
    assert PhaseMatches(s, s.callers[c]);
  }

  /** An acquire's exit is recorded once and for all. */
  lemma {:induction false} ExitIsFinal(s: System, actions: seq<Action>, d: nat)
    requires Inv(s) && Runs(s, actions) && d in s.exits
    ensures d in Run(s, actions).exits && Run(s, actions).exits[d] == s.exits[d]
    decreases |actions|
  {
    if actions != [] {
      NextKeeps(s, actions[0]);
      ExitsGrow(s, actions[0]);
      ExitIsFinal(Next(s, actions[0]), actions[1..], d);
    }
  }

  predicate Fails(a: Action) { (a.AcquireExits? && a.exit.Failure?) || (a.HookExits? && a.error.Some?) }

  /** A failed acquire or hook returns the cell to idle and disturbs nobody: no acquire is
      running, the other callers and the deferreds are as they were, and the next call
      runs an acquire of its own under a new deferred. */
  lemma FailureResets(hasHook: bool, actions: seq<Action>, s: System, a: Action, next: nat)
    requires Reaches(hasHook, actions, s) && Enabled(s, a) && Fails(a) && next !in Next(s, a).callers
    ensures var n := Next(s, a);
      && n.state.Idle? && n.deferreds == s.deferreds
      && (forall c :: c in n.callers ==> !InFlight(n.callers[c]))
      && (forall c :: c in s.callers && c != a.caller ==> c in n.callers && n.callers[c] == s.callers[c])
      && Next(n, Enter(next)).callers[next] == Acquiring(|s.deferreds|)
  {
    RunKeeps(Start(hasHook), actions);
    assert PhaseMatches(s, s.callers[a.caller]) && CellMatches(s.state, s.callers[a.caller]);
    NextKeeps(s, a);
    var n := Next(s, a);
    forall c | c in n.callers ensures !InFlight(n.callers[c]) { assert CellMatches(n.state, n.callers[c]); }
  }

  /** While a hook runs, whoever calls in, the hook's own code included, has the identity
      at once; and no caller is left waiting on the hook's deferred. */
  lemma ReentryNeverWaits(hasHook: bool, actions: seq<Action>, s: System, c: nat, inner: nat)
    requires Reaches(hasHook, actions, s) && c in s.callers && s.callers[c].Hooking? && inner !in s.callers
    ensures Next(s, Enter(inner)).callers[inner] == Returned(None, false, Success(s.callers[c].identity))
    ensures forall e :: e in s.callers && s.callers[e] == Waiting(s.callers[c].deferred) ==> Enabled(s, Resume(e))
  {
    RunKeeps(Start(hasHook), actions);
    assert PhaseMatches(s, s.callers[c]) && CellMatches(s.state, s.callers[c]);
  }

  /** A waiting caller either can go on or waits for a caller whose own next step is an
      acquire's end or a deferred's completion, never for a hook or another waiter. */
  lemma WaiterIsDriven(hasHook: bool, actions: seq<Action>, s: System, c: nat)
    requires Reaches(hasHook, actions, s) && c in s.callers && s.callers[c].Waiting?
    ensures Enabled(s, Resume(c)) || exists e :: e in s.callers && Drives(s.callers[e], s.callers[c].deferred)
  {
    RunKeeps(Start(hasHook), actions);
    assert PhaseMatches(s, s.callers[c]);
  }

  function Rank(p: Phase): nat {
    match p
    case Acquiring(_) => 3
    case Completing(_, _) => 2
    case Hooking(_, _) => 1
    case Waiting(_) => 1
    case Returned(_, _, _) => 0
  }

  /** Every step but a new call brings its caller nearer its return and sets no other
      caller back. */
  lemma StepsReturn(s: System, a: Action)
    requires Enabled(s, a) && !a.Enter?
    ensures Next(s, a).callers.Keys == s.callers.Keys
    ensures Rank(Next(s, a).callers[a.caller]) < Rank(s.callers[a.caller])
    ensures forall c :: c in s.callers && c != a.caller ==> Next(s, a).callers[c] == s.callers[c]
  {
  }

  // ---- the post-acquire hook ----

  predicate NoHook(past: seq<Action>, c: nat) { forall a :: a in past && a.HookExits? ==> a.caller != c }

  /** What a call comes to whose hook ended like this. */
  function After(exit: Exit, error: Option<nat>): Exit { if error.None? then exit else Failure(error.value) }

  /** The caller's hook has run, and whenever it ended the call came to this. */
  ghost predicate HookRan(past: seq<Action>, c: nat, exit: Exit, result: Exit) {
    && (exists error :: HookExits(c, error) in past)
    && (forall error :: HookExits(c, error) in past ==> result == After(exit, error))
  }

  /** What the actions so far say of a caller. */
  ghost predicate CallerTold(s: System, past: seq<Action>, c: nat, p: Phase) {
    match p
    case Completing(_, exit) => AcquireExits(c, exit) in past && NoHook(past, c)
    case Hooking(_, identity) => s.hasHook && AcquireExits(c, Success(identity)) in past && NoHook(past, c)
    case Returned(from, ran, result) =>
      if !ran then NoHook(past, c) else
      && from.Some? && from.value in s.exits && AcquireExits(c, s.exits[from.value]) in past
      && (if s.hasHook && s.exits[from.value].Success? then HookRan(past, c, s.exits[from.value], result)
          else result == s.exits[from.value] && NoHook(past, c))
    case _ => NoHook(past, c)
  }

  ghost predicate Told(s: System, past: seq<Action>) {
    && (forall a :: a in past ==> a.caller in s.callers)
    && (forall c :: c in s.callers ==> CallerTold(s, past, c, s.callers[c]))
  }

  lemma OthersToldStill(s: System, a: Action, past: seq<Action>, c: nat)
    requires Inv(s) && Told(s, past) && Enabled(s, a) && c in s.callers && c != a.caller
    ensures CallerTold(Next(s, a), past + [a], c, Next(s, a).callers[c])
  {
    ExitsGrow(s, a);
    assert CallerTold(s, past, c, s.callers[c]);
    OthersHook(past, a, c, Success(0), Success(0));
    if s.callers[c].Returned? && s.callers[c].from.Some? && s.callers[c].from.value in s.exits {
      OthersHook(past, a, c, s.exits[s.callers[c].from.value], s.callers[c].result);
    }
  }

  lemma OthersHook(past: seq<Action>, a: Action, c: nat, exit: Exit, result: Exit)
    requires a.caller != c
    ensures NoHook(past, c) ==> NoHook(past + [a], c)
    ensures HookRan(past, c, exit, result) ==> HookRan(past + [a], c, exit, result)
  {
    if HookRan(past, c, exit, result) {
      var error :| HookExits(c, error) in past;
      assert HookExits(c, error) in past + [a];
    }
  }

  lemma OwnToldStill(s: System, a: Action, past: seq<Action>)
    requires Inv(s) && Told(s, past) && Enabled(s, a)
    ensures CallerTold(Next(s, a), past + [a], a.caller, Next(s, a).callers[a.caller])
  {
    var n, c, all := Next(s, a), a.caller, past + [a];
    assert a in all;
    if c in s.callers {
      assert CallerTold(s, past, c, s.callers[c]) && PhaseMatches(s, s.callers[c]);
      if a.HookExits? { assert HookExits(c, a.error) in all; } else { NoHookMore(past, a, c); }
    } else {
      NoHookMore(past, a, c);
    }
  }

  lemma NoHookMore(past: seq<Action>, a: Action, c: nat)
    requires !a.HookExits?
    ensures NoHook(past, c) ==> NoHook(past + [a], c)
  {
  }

  lemma {:induction false} RunTold(s: System, past: seq<Action>, actions: seq<Action>)
    requires Inv(s) && Told(s, past) && Runs(s, actions)
    ensures Inv(Run(s, actions)) && Told(Run(s, actions), past + actions)
    decreases |actions|
  {
    if actions == [] {
      assert past + [] == past;
    } else {
      NextKeeps(s, actions[0]);
      StepTold(s, past, actions[0]);
      RunTold(Next(s, actions[0]), past + [actions[0]], actions[1..]);
      OneMorePast(past, actions);
    }
  }

  lemma OneMorePast(past: seq<Action>, actions: seq<Action>)
    requires actions != []
    ensures past + [actions[0]] + actions[1..] == past + actions
  {
  }

  lemma StepTold(s: System, past: seq<Action>, a: Action)
    requires Inv(s) && Told(s, past) && Enabled(s, a)
    ensures Told(Next(s, a), past + [a])
  {
    var n := Next(s, a);
    OwnToldStill(s, a, past);
    forall c | c in n.callers ensures CallerTold(n, past + [a], c, n.callers[c]) {
      if c != a.caller { OthersToldStill(s, a, past, c); }
    }
  }

  /** In every run a call that acquired ran its acquire to the exit recorded, and returns it;
      but when the acquire succeeded and there is a hook, the hook ran to its end first, and
      the call returns the acquire's identity or the hook's failure. A call whose acquire
      failed runs no hook, nor does one that only waited. */
  lemma HookDecides(hasHook: bool, actions: seq<Action>, s: System, c: nat)
    requires Reaches(hasHook, actions, s) && c in s.callers && s.callers[c].Returned?
    ensures var p := s.callers[c];
      && (!p.ran ==> NoHook(actions, c))
      && (p.ran ==> p.from.Some? && p.from.value in s.exits && AcquireExits(c, s.exits[p.from.value]) in actions)
      && (p.ran && hasHook && s.exits[p.from.value].Success? ==> HookRan(actions, c, s.exits[p.from.value], p.result))
      && (p.ran && !(hasHook && s.exits[p.from.value].Success?) ==> NoHook(actions, c) && p.result == s.exits[p.from.value])
  {
    RunTold(Start(hasHook), [], actions);
    KeepsHook(Start(hasHook), actions);
    assert [] + actions == actions;
    assert CallerTold(s, actions, c, s.callers[c]);
  }

  lemma {:induction false} KeepsHook(s: System, actions: seq<Action>)
    requires Runs(s, actions)
    ensures Run(s, actions).hasHook == s.hasHook
    decreases |actions|
  {
    if actions != [] { KeepsHook(Next(s, actions[0]), actions[1..]); }
  }

  // ---- one acquire per binding ----

  function Acquisitions(actions: seq<Action>): nat {
    if actions == [] then 0 else (if actions[0].AcquireExits? && actions[0].exit.Success? then 1 else 0) + Acquisitions(actions[1..])
  }

  function HookFailures(actions: seq<Action>): nat {
    if actions == [] then 0 else (if actions[0].HookExits? && actions[0].error.Some? then 1 else 0) + HookFailures(actions[1..])
  }

  function Bound(s: System): nat { if s.state.Acquired? then 1 else 0 }

  lemma {:induction false} BindingsCount(s: System, actions: seq<Action>)
    requires Inv(s) && Runs(s, actions)
    ensures Bound(s) + Acquisitions(actions) == Bound(Run(s, actions)) + HookFailures(actions)
    decreases |actions|
  {
    if actions != [] {
      var a := actions[0];
      assert a.caller in s.callers ==> CellMatches(s.state, s.callers[a.caller]);
      NextKeeps(s, a);
      BindingsCount(Next(s, a), actions[1..]);
    }
  }

  /** In every run an identity is acquired anew only after a hook has failed. */
  lemma AcquiredOnce(hasHook: bool, actions: seq<Action>)
    requires Runs(Start(hasHook), actions)
    ensures Acquisitions(actions) <= HookFailures(actions) + 1
  {
    BindingsCount(Start(hasHook), actions);
  }
}
