/** The persisted queue cursor of a resuming seat (packages/mcp/queue-state-store.ts and
    queue-state-hooks.ts, and the boot check of server.ts), over a store that may be
    missing, unreadable, corrupt or refuse a write. A hook reads and then writes, so two
    fibers' calls interleave: the poller's, which registers queues and reports progress, and
    the subscriber's, which registers one queue on the first subscribe. */
module QueueState {
  import opened Core

  datatype Cursor = Cursor(queueId: string, lastEventId: int)

  /** The session's state file. */
  datatype File = Absent | Corrupt | Holds(cursor: Cursor)

  /** What a write did: replaced the file, left it, or left it cut short. */
  datatype Outcome = Written | Refused | Torn

  datatype ReadResult = Found(cursor: Cursor) | Nothing | ParseError | PlatformError

  function ReadFile(file: File, readable: bool): ReadResult {
    if !readable then PlatformError else
    match file
    case Absent => Nothing
    case Corrupt => ParseError
    case Holds(c) => Found(c)
  }

  function WriteFile(file: File, cursor: Cursor, outcome: Outcome): File {
    match outcome
    case Written => Holds(cursor)
    case Refused => file
    case Torn => Corrupt
  }

  predicate Fresh(file: File, readable: bool) { !ReadFile(file, readable).Found? }

  /** The file after an advance of the store that no other write falls into. */
  function Advanced(file: File, lastEventId: int, readable: bool, outcome: Outcome): File {
    var prior := ReadFile(file, readable);
    if prior.Found? && lastEventId > prior.cursor.lastEventId
    then WriteFile(file, Cursor(prior.cursor.queueId, lastEventId), outcome) else file
  }

  datatype Fiber = Poller | Subscriber

  /** Where a fiber's hook call is: a register about to read what is persisted or about to
      write, an advance about to read or about to write. `from` is the queue whose poll moved
      the cursor, which the hook is not told. */
  datatype Activity =
    | Idle
    | Checking(queue: Cursor)
    | Replacing(queue: Cursor)
    | Reading(from: string, lastEventId: int)
    | Moving(from: string, cursor: Cursor)

  /** `polled` is the queue the poller polls and `ready` those whose register hook has
      returned. The rest is bookkeeping no step reads: `idOf` is the queue whose event id is
      on file and `issued` every queue id so far. */
  datatype State = State(file: File, session: bool, verdict: Option<bool>, poller: Activity, subscriber: Activity,
                         polled: Option<string>, subscribed: bool, ready: set<string>,
                         idOf: Option<string>, issued: set<string>)

  datatype Op =
    | FeedSession
    | Verdict(queueReplayed: bool)
    | BootCheck(readable: bool)
    | Register(fiber: Fiber, queue: Cursor)
    | Advance(lastEventId: int)
    | Read(fiber: Fiber, readable: bool)
    | Write(fiber: Fiber, outcome: Outcome)
    // the poller goes on with this queue
    | TakeUp(queueId: string)

  function Doing(s: State, f: Fiber): Activity { if f.Poller? then s.poller else s.subscriber }

  function Does(s: State, f: Fiber, a: Activity): State {
    if f.Poller? then s.(poller := a) else s.(subscriber := a)
  }

  function Registered(s: State, f: Fiber, queue: Cursor): State { Does(s, f, Idle).(ready := s.ready + {queue.queueId}) }

  predicate Reads(a: Activity) { a.Checking? || a.Reading? }
  predicate Writes(a: Activity) { a.Replacing? || a.Moving? }

  predicate Enabled(s: State, op: Op) {
    match op
    case Register(f, queue) => Doing(s, f).Idle? && queue.queueId !in s.issued && (f.Subscriber? ==> !s.subscribed)
    case Advance(_) => s.poller.Idle? && s.polled.Some?
    case Read(f, _) => Reads(Doing(s, f))
    case Write(f, _) => Writes(Doing(s, f))
    case TakeUp(id) => s.poller.Idle? && id in s.ready
    case _ => true
  }

  function Wrote(s: State, cursor: Cursor, owner: string, outcome: Outcome): State {
    s.(file := WriteFile(s.file, cursor, outcome),
       idOf := match outcome case Written => Some(owner) case Refused => s.idOf case Torn => None)
  }

  /** A register hook up to its first suspension. */
  function Registering(s: State, f: Fiber, queue: Cursor): State {
    var n := s.(issued := s.issued + {queue.queueId}, subscribed := s.subscribed || f.Subscriber?);
    if !s.session then Registered(n, f, queue)
    else Does(n, f, if s.verdict.Some? then Replacing(queue) else Checking(queue))
  }

  function Next(s: State, op: Op): State
    requires Enabled(s, op)
  {
    match op
    case FeedSession => s.(session := true)
    case Verdict(replayed) => if s.verdict.None? then s.(verdict := Some(replayed)) else s
    case BootCheck(readable) =>
      if s.session && Fresh(s.file, readable) && s.verdict.None? then s.(verdict := Some(false)) else s
    case Register(f, queue) => Registering(s, f, queue)
    case Advance(id) => if s.session then s.(poller := Reading(s.polled.value, id)) else s
    case Read(f, readable) =>
      var prior := ReadFile(s.file, readable);
      (match Doing(s, f)
       case Checking(queue) => if prior.Found? then Registered(s, f, queue) else Does(s, f, Replacing(queue))
       case Reading(from, id) =>
         Does(s, f, if prior.Found? && id > prior.cursor.lastEventId then Moving(from, Cursor(prior.cursor.queueId, id)) else Idle))
    case Write(f, outcome) =>
      (match Doing(s, f)
       case Replacing(queue) => Registered(Wrote(s, queue, queue.queueId, outcome), f, queue)
       case Moving(from, cursor) => Does(Wrote(s, cursor, from, outcome), f, Idle))
    case TakeUp(id) => s.(polled := Some(id))
  }

  predicate Runs(s: State, ops: seq<Op>)
    decreases |ops|, 0
  {
    ops == [] || (Runs(s, ops[..|ops| - 1]) && Enabled(Run(s, ops[..|ops| - 1]), ops[|ops| - 1]))
  }

  function Run(s: State, ops: seq<Op>): State
    requires Runs(s, ops)
    decreases |ops|, 1
  {
    if ops == [] then s else Next(Run(s, ops[..|ops| - 1]), ops[|ops| - 1])
  }

  /** `resumeQueue`: the candidate a resuming seat polls first. */
  function ResumeQueue(s: State, readable: bool): Option<Cursor> {
    if s.session && ReadFile(s.file, readable).Found? then Some(ReadFile(s.file, readable).cursor) else None
  }

  class QueueStateStore {
    var file: File

    constructor (file: File)
      ensures this.file == file
    {
      this.file := file;
    }

    method Read(readable: bool) returns (r: ReadResult)
      ensures r == ReadFile(file, readable)
    {
      r := ReadFile(file, readable);
    }

    method Write(cursor: Cursor, outcome: Outcome)
      modifies this
      ensures file == WriteFile(old(file), cursor, outcome)
    {
      match outcome {
        case Written => file := Holds(cursor);
        case Refused =>
        case Torn => file := Corrupt;
      }
    }

    method Advance(lastEventId: int, readable: bool, outcome: Outcome)
      modifies this
      ensures file == Advanced(old(file), lastEventId, readable, outcome)
    {
      var prior := Read(readable);
      if prior.Found? && lastEventId > prior.cursor.lastEventId {
        Write(Cursor(prior.cursor.queueId, lastEventId), outcome);
      }
    }
  }

  class QueueStateHooks {
    const store: QueueStateStore
    var session: bool
    var resumeOutcome: Option<bool>
    var poller: Activity
    var subscriber: Activity
    var polled: Option<string>
    var subscribed: bool
    ghost var ready: set<string>
    ghost var idOf: Option<string>
    ghost var issued: set<string>

    /** A seat whose producer polls the resumed queue, if it resumes one. */
    constructor (store: QueueStateStore, polled: Option<string>, ghost idOf: Option<string>)
      ensures this.store == store
      ensures Abstract() == Boot(store.file, polled, idOf)
    {
      this.store, session, resumeOutcome := store, false, None;
      poller, subscriber, this.polled, subscribed := Idle, Idle, polled, false;
      ready, this.idOf, issued := Ids(polled), idOf, Mentioned(store.file, polled, idOf);
    }

    ghost function Abstract(): State reads this, store {
      State(store.file, session, resumeOutcome, poller, subscriber, polled, subscribed, ready, idOf, issued)
    }

    method OnFeed()
      modifies this
      ensures Abstract() == Next(old(Abstract()), FeedSession)
    {
      session := true;
    }

    method OnResumeOutcome(queueReplayed: bool)
      modifies this
      ensures Abstract() == Next(old(Abstract()), Verdict(queueReplayed))
    {
      if resumeOutcome.None? { resumeOutcome := Some(queueReplayed); }
    }

    method ReportNothingToResume(readable: bool)
      modifies this
      ensures Abstract() == Next(old(Abstract()), BootCheck(readable))
    {
      if !session { return; }
      var prior := store.Read(readable);
      if !prior.Found? && resumeOutcome.None? { resumeOutcome := Some(false); }
    }

    method Continue(f: Fiber, a: Activity)
      modifies this`poller, this`subscriber
      ensures Abstract() == Does(old(Abstract()), f, a)
    {
      match f {
        case Poller => poller := a;
        case Subscriber => subscriber := a;
      }
    }

    /** The register hook as far as it goes without suspending: both deferreds are polled. */
    method OnQueueRegister(f: Fiber, queue: Cursor)
      requires Enabled(Abstract(), Register(f, queue))
      modifies this
      ensures Abstract() == Next(old(Abstract()), Register(f, queue))
    {
      issued := issued + {queue.queueId};
      if f.Subscriber? { subscribed := true; }
      if !session {
        Continue(f, Idle);
        ready := ready + {queue.queueId};
      } else if resumeOutcome.Some? {
        Continue(f, Replacing(queue));
      } else {
        Continue(f, Checking(queue));
      }
    }

    method OnQueueAdvance(lastEventId: int)
      requires Enabled(Abstract(), Advance(lastEventId))
      modifies this
      ensures Abstract() == Next(old(Abstract()), Advance(lastEventId))
    {
      if session { poller := Reading(polled.value, lastEventId); }
    }

    /** The read a hook call suspended on is answered. */
    method ReadReturns(f: Fiber, readable: bool)
      requires Enabled(Abstract(), Read(f, readable))
      modifies this
      ensures Abstract() == Next(old(Abstract()), Read(f, readable))
    {
      var prior := store.Read(readable);
      match if f.Poller? then poller else subscriber {
        case Checking(queue) =>
          if prior.Found? {
            Continue(f, Idle);
            ready := ready + {queue.queueId};
          } else {
            Continue(f, Replacing(queue));
          }
        case Reading(from, id) =>
          Continue(f, if prior.Found? && id > prior.cursor.lastEventId then Moving(from, Cursor(prior.cursor.queueId, id)) else Idle);
      }
    }

    /** The write a hook call suspended on ends. */
    method WriteReturns(f: Fiber, outcome: Outcome)
      requires Enabled(Abstract(), Op.Write(f, outcome))
      modifies this, store
      ensures Abstract() == Next(old(Abstract()), Op.Write(f, outcome))
    {
      var a := if f.Poller? then poller else subscriber;
      var cursor := if a.Replacing? then a.queue else a.cursor;
      var owner := if a.Replacing? then a.queue.queueId else a.from;
      store.Write(cursor, outcome);
      idOf := match outcome case Written => Some(owner) case Refused => idOf case Torn => None;
      Continue(f, Idle);
      if a.Replacing? { ready := ready + {owner}; }
    }

    method GoOnWith(queueId: string)
      requires Enabled(Abstract(), TakeUp(queueId))
      modifies this`polled
      ensures Abstract() == Next(old(Abstract()), TakeUp(queueId))
    {
      polled := Some(queueId);
    }
  }

  function Ids(id: Option<string>): set<string> { if id.Some? then {id.value} else {} }

  function Mentioned(file: File, polled: Option<string>, idOf: Option<string>): set<string> {
    Ids(polled) + Ids(idOf) + (if file.Holds? then {file.cursor.queueId} else {})
  }

  /** Before any call. Queue ids issued later are new. */
  function Boot(file: File, polled: Option<string>, idOf: Option<string>): State {
    State(file, false, None, Idle, Idle, polled, false, Ids(polled), idOf, Mentioned(file, polled, idOf))
  }

  function Front(ops: seq<Op>): seq<Op>
    requires ops != []
  {
    ops[..|ops| - 1]
  }

  function Last(ops: seq<Op>): Op
    requires ops != []
  {
    ops[|ops| - 1]
  }

  // ---- one verdict ----

  /** Whoever reports first decides: a verdict never changes. */
  lemma {:induction false} VerdictIsFinal(s: State, ops: seq<Op>)
    requires Runs(s, ops) && s.verdict.Some?
    ensures Run(s, ops).verdict == s.verdict
  {
    if ops != [] { VerdictIsFinal(s, Front(ops)); }
  }

  // ---- one call alone ----

  /** A hook call carried to its end with no step of the other fiber in between. */
  function Settled(s: State, f: Fiber, readable: bool, outcome: Outcome): State {
    var r := if Reads(Doing(s, f)) then Next(s, Read(f, readable)) else s;
    if Writes(Doing(r, f)) then Next(r, Write(f, outcome)) else r
  }

  /** A register alone, made while the verdict is pending, keeps a candidate exactly when the
      file could be read, or was not written after all: an unreadable file is taken for no
      file. */
  lemma RegisterKeepsCandidateIff(s: State, f: Fiber, queue: Cursor, readable: bool, outcome: Outcome)
    requires Enabled(s, Register(f, queue)) && s.file.Holds? && s.session && s.verdict.None? && queue != s.file.cursor
    ensures Settled(Next(s, Register(f, queue)), f, readable, outcome).file == s.file <==> readable || outcome == Refused
  {
  }

  /** An advance alone is the store's. */
  lemma AdvanceAlone(s: State, id: int, readable: bool, outcome: Outcome)
    requires Enabled(s, Advance(id)) && s.session
    ensures Settled(Next(s, Advance(id)), Poller, readable, outcome).file == Advanced(s.file, id, readable, outcome)
    ensures Settled(Next(s, Advance(id)), Poller, readable, outcome).poller.Idle?
  {
  }

  /** The boot check never decides the verdict over a candidate it can read, so it never
      gives leave to replace one. */
  lemma BootCheckDecidesIff(s: State, readable: bool)
    requires s.verdict.None?
    ensures Next(s, BootCheck(readable)).verdict == if s.session && ResumeQueue(s, readable).None? then Some(false) else None
  {
  }

  /** A seat resumes exactly the cursor its file holds, when it can be read. */
  lemma ResumesWhatIsHeld(s: State, readable: bool, c: Cursor)
    ensures ResumeQueue(s, readable) == Some(c) <==> s.session && readable && s.file == Holds(c)
  {
  }

  /** With no verdict before it, a report said this, or a boot check found nothing to resume. */
  predicate Decided(s: State, ops: seq<Op>, queueReplayed: bool)
    requires Runs(s, ops)
    decreases |ops|
  {
    ops != [] &&
    var before, op := Run(s, Front(ops)), Last(ops);
    || Decided(s, Front(ops), queueReplayed)
    || (before.verdict.None?
        && (op == Verdict(queueReplayed)
            || (op.BootCheck? && !queueReplayed && before.session && (!op.readable || !before.file.Holds?))))
  }

  /** In every run the verdict is what the first report said, or that nothing is resumed when a
      boot check that found nothing came before it. */
  lemma {:induction false} VerdictIsFirstReport(s: State, ops: seq<Op>, queueReplayed: bool)
    requires s.verdict.None? && Runs(s, ops)
    ensures Run(s, ops).verdict == Some(queueReplayed) <==> Decided(s, ops, queueReplayed)
    decreases |ops|
  {
    if ops != [] { VerdictIsFirstReport(s, Front(ops), queueReplayed); }
  }

  // ---- the cursor between wholesale writes ----

  /** The write replaces the file whatever it held, or leaves it torn. */
  predicate Disturbs(s: State, op: Op) {
    op.Write? && ((Doing(s, op.fiber).Replacing? && op.outcome != Refused) || (Doing(s, op.fiber).Moving? && op.outcome == Torn))
  }

  predicate Undisturbed(s: State, ops: seq<Op>)
    requires Runs(s, ops)
    decreases |ops|
  {
    ops == [] || (Undisturbed(s, Front(ops)) && !Disturbs(Run(s, Front(ops)), Last(ops)))
  }

  /** The subscriber reports no progress. */
  predicate RolesOk(s: State) { !s.subscriber.Reading? && !s.subscriber.Moving? }

  /** An advance in flight read a file that has been replaced since. */
  predicate Stale(s: State) {
    s.poller.Moving? && s.file.Holds?
    && (s.poller.cursor.queueId != s.file.cursor.queueId || s.poller.cursor.lastEventId < s.file.cursor.lastEventId)
  }

  predicate NotBehind(a: Cursor, b: Cursor) { b.queueId == a.queueId && a.lastEventId <= b.lastEventId }

  predicate Kept(a: File, b: File) { a.Holds? && b.Holds? && NotBehind(a.cursor, b.cursor) }

  lemma StepAdvances(s: State, op: Op)
    requires s.file.Holds? && RolesOk(s) && !Stale(s) && Enabled(s, op) && !Disturbs(s, op)
    ensures Kept(s.file, Next(s, op).file) && RolesOk(Next(s, op)) && !Stale(Next(s, op))
  {
    if op.Write? { WriteAdvances(s, op.fiber, op.outcome); }
  }

  lemma WriteAdvances(s: State, f: Fiber, outcome: Outcome)
    requires s.file.Holds? && RolesOk(s) && !Stale(s) && Enabled(s, Write(f, outcome)) && !Disturbs(s, Write(f, outcome))
    ensures var n := Next(s, Write(f, outcome)); Kept(s.file, n.file) && RolesOk(n) && !Stale(n)
  {
  }

  /** Between wholesale writes the queue id is fixed and the last event id never falls,
      unless an advance was in flight across the last of them. */
  lemma {:induction false} CursorOnlyAdvances(s: State, ops: seq<Op>)
    requires s.file.Holds? && RolesOk(s) && !Stale(s) && Runs(s, ops) && Undisturbed(s, ops)
    ensures Kept(s.file, Run(s, ops).file) && RolesOk(Run(s, ops)) && !Stale(Run(s, ops))
  {
    if ops != [] {
      CursorOnlyAdvances(s, Front(ops));
      StepAdvances(Run(s, Front(ops)), Last(ops));
    }
  }

  ghost predicate OnlyAdvances(s: State) {
    forall ops :: Runs(s, ops) && Undisturbed(s, ops) ==> Kept(s.file, Run(s, ops).file)
  }

  lemma RunOne(s: State, op: Op)
    requires Enabled(s, op)
    ensures Runs(s, [op]) && Run(s, [op]) == Next(s, op) && (!Disturbs(s, op) ==> Undisturbed(s, [op]))
  {
    assert [op][..0] == [];
  }

  /** And exactly then: the write of such an advance brings back the earlier queue id, or an
      earlier event id. */
  lemma OnlyAdvancesIff(s: State)
    requires s.file.Holds? && RolesOk(s)
    ensures OnlyAdvances(s) <==> !Stale(s)
  {
    if Stale(s) {
      var op := Write(Poller, Written);
      RunOne(s, op);
      assert !Kept(s.file, Run(s, [op]).file);
    } else {
      forall ops | Runs(s, ops) && Undisturbed(s, ops) ensures Kept(s.file, Run(s, ops).file) { CursorOnlyAdvances(s, ops); }
    }
  }

  function Highest(last: int, ops: seq<Op>): int {
    if ops == [] then last else
    var before := Highest(last, Front(ops));
    if Last(ops).Advance? then Max(before, Last(ops).lastEventId) else before
  }

  /** The id an advance in flight is to leave, or the one on file if that is higher. */
  function Reached(s: State): int
    requires s.file.Holds?
  {
    var last := s.file.cursor.lastEventId;
    match s.poller
    case Reading(_, id) => Max(last, id)
    case Moving(_, cursor) => Max(last, cursor.lastEventId)
    case _ => last
  }

  predicate GoesThrough(op: Op) {
    (op.Read? && op.fiber.Poller? ==> op.readable) && (op.Write? && op.fiber.Poller? ==> op.outcome == Written)
  }

  /** When every read and write of the poller's goes through, the file holds the highest
      cursor reported, whatever order they came in. */
  lemma {:induction false} CursorIsHighest(s: State, ops: seq<Op>)
    requires s.file.Holds? && s.session && s.poller.Idle? && RolesOk(s) && Runs(s, ops) && Undisturbed(s, ops)
    requires forall i :: 0 <= i < |ops| ==> GoesThrough(ops[i])
    ensures Run(s, ops).session && Kept(s.file, Run(s, ops).file)
    ensures Reached(Run(s, ops)) == Highest(s.file.cursor.lastEventId, ops)
    ensures Run(s, ops).poller.Idle? ==>
      Run(s, ops).file == Holds(Cursor(s.file.cursor.queueId, Highest(s.file.cursor.lastEventId, ops)))
  {
    CursorOnlyAdvances(s, ops);
    if ops != [] {
      CursorIsHighest(s, Front(ops));
      CursorOnlyAdvances(s, Front(ops));
      assert GoesThrough(Last(ops));
    }
  }

  // ---- the resume candidate ----

  predicate ReadsThrough(op: Op) {
    (op.Read? || op.BootCheck? ==> op.readable) && (op.Write? ==> op.outcome != Torn)
  }

  predicate NotReplacing(s: State) { !s.poller.Replacing? && !s.subscriber.Replacing? }

  /** A candidate survives every register, boot check and advance made while the verdict is
      pending, in every interleaving, as long as the file can be read: only its own cursor
      moves, forward. */
  lemma {:induction false} CandidateSurvives(s: State, ops: seq<Op>)
    requires s.file.Holds? && s.verdict.None? && RolesOk(s) && !Stale(s) && NotReplacing(s)
    requires Runs(s, ops) && Run(s, ops).verdict.None?
    requires forall i :: 0 <= i < |ops| ==> ReadsThrough(ops[i])
    ensures Undisturbed(s, ops) && Kept(s.file, Run(s, ops).file) && NotReplacing(Run(s, ops))
  {
    if ops != [] {
      var before := Front(ops);
      if Run(s, before).verdict.Some? {
        RunOne(Run(s, before), Last(ops));
        VerdictIsFinal(Run(s, before), [Last(ops)]);
      }
      CandidateSurvives(s, before);
      CursorOnlyAdvances(s, before);
      assert ReadsThrough(Last(ops));
    }
    CursorOnlyAdvances(s, ops);
  }

  // ---- whose cursor the file holds ----

  /** The file names the queue with one of its own event ids. */
  predicate HeldBy(s: State, id: string) {
    s.file.Holds? && s.file.cursor.queueId == id && s.idOf == Some(id)
  }

  predicate OnFile(s: State) { s.polled.Some? && HeldBy(s, s.polled.value) }

  /** The queue a register in progress is about. */
  function Pending(a: Activity): set<string> { if a.Checking? || a.Replacing? then {a.queue.queueId} else {} }

  /** The ids a fiber may yet write. */
  function InHand(a: Activity): set<string> {
    match a
    case Reading(from, _) => {from}
    case Moving(from, cursor) => {from, cursor.queueId}
    case _ => Pending(a)
  }

  /** Every id anywhere was issued, a progress report is the polled queue's, and a queue whose
      hook has not returned is not ready. */
  predicate Known(s: State) {
    && s.ready <= s.issued && Ids(s.polled) <= s.ready && Ids(s.idOf) <= s.issued
    && (s.file.Holds? ==> s.file.cursor.queueId in s.issued)
    && InHand(s.poller) <= s.issued && InHand(s.subscriber) <= s.issued && RolesOk(s)
    && (s.poller.Reading? || s.poller.Moving? ==> s.polled == Some(s.poller.from))
    && Pending(s.poller) !! s.ready && Pending(s.subscriber) !! s.ready && Pending(s.poller) !! Pending(s.subscriber)
  }

  lemma RegisterKeepsKnown(s: State, f: Fiber, queue: Cursor)
    requires Known(s) && Enabled(s, Register(f, queue))
    ensures Known(Next(s, Register(f, queue)))
  {
  }

  lemma ReadKeepsKnown(s: State, f: Fiber, readable: bool)
    requires Known(s) && Enabled(s, Read(f, readable))
    ensures Known(Next(s, Read(f, readable)))
  {
  }

  lemma WriteKeepsKnown(s: State, f: Fiber, outcome: Outcome)
    requires Known(s) && Enabled(s, Write(f, outcome))
    ensures Known(Next(s, Write(f, outcome)))
  {
    if Doing(s, f).Replacing? { RegisterEnds(s, f, outcome); }
  }

  lemma RegisterEnds(s: State, f: Fiber, outcome: Outcome)
    requires Known(s) && Doing(s, f).Replacing?
    ensures Known(Next(s, Write(f, outcome)))
  {
  }

  lemma NextKeepsKnown(s: State, op: Op)
    requires Known(s) && Enabled(s, op)
    ensures Known(Next(s, op))
  {
    match op
    case Register(f, queue) => RegisterKeepsKnown(s, f, queue);
    case Read(f, readable) => ReadKeepsKnown(s, f, readable);
    case Write(f, outcome) => WriteKeepsKnown(s, f, outcome);
    case _ =>
  }

  lemma {:induction false} RunKeepsKnown(s: State, ops: seq<Op>)
    requires Known(s) && Runs(s, ops)
    ensures Known(Run(s, ops))
  {
    if ops != [] {
      RunKeepsKnown(s, Front(ops));
      NextKeepsKnown(Run(s, Front(ops)), Last(ops));
    }
  }

  lemma BootIsKnown(file: File, polled: Option<string>, idOf: Option<string>)
    ensures Known(Boot(file, polled, idOf))
  {
  }

  predicate Lands(op: Op) { op.Write? && op.outcome != Refused }

  /** The last write that went anywhere was the register's of this queue, in full. */
  predicate OnTop(s: State, ops: seq<Op>, queue: Cursor)
    requires Runs(s, ops)
    decreases |ops|
  {
    ops != [] &&
    (if Lands(Last(ops)) then Last(ops).outcome.Written? && Doing(Run(s, Front(ops)), Last(ops).fiber) == Replacing(queue)
     else OnTop(s, Front(ops), queue))
  }

  function Other(f: Fiber): Fiber { if f.Poller? then Subscriber else Poller }

  /** The queue was issued to this fiber's register and is not polled yet. */
  predicate Awaits(s: State, f: Fiber, queue: Cursor) {
    && Known(s) && queue.queueId in s.issued && s.polled != Some(queue.queueId)
    && (queue.queueId in Pending(Doing(s, f)) ==> Doing(s, f).queue == queue)
    && queue.queueId !in Pending(Doing(s, Other(f)))
  }

  lemma RegisterAwaits(s: State, f: Fiber, queue: Cursor)
    requires Known(s) && Enabled(s, Register(f, queue))
    ensures Awaits(Next(s, Register(f, queue)), f, queue) && !HeldBy(Next(s, Register(f, queue)), queue.queueId)
  {
    NextKeepsKnown(s, Register(f, queue));
  }

  lemma StepAwaits(s: State, op: Op, f: Fiber, queue: Cursor)
    requires Awaits(s, f, queue) && Enabled(s, op) && op != TakeUp(queue.queueId)
    ensures Awaits(Next(s, op), f, queue)
    ensures Lands(op) ==> (HeldBy(Next(s, op), queue.queueId) <==> op.outcome.Written? && Doing(s, op.fiber) == Replacing(queue))
    ensures !Lands(op) ==> (HeldBy(Next(s, op), queue.queueId) <==> HeldBy(s, queue.queueId))
  {
    NextKeepsKnown(s, op);
    match op
    case Register(g, other) => RegisterAside(s, g, other);
    case Read(g, readable) => ReadAside(s, g, readable);
    case Write(g, outcome) => WriteAside(s, g, outcome, f, queue);
    case _ =>
  }

  lemma RegisterAside(s: State, g: Fiber, other: Cursor)
    requires Enabled(s, Register(g, other))
    ensures var n := Next(s, Register(g, other));
      && n.file == s.file && n.idOf == s.idOf && n.polled == s.polled && s.issued <= n.issued
      && Doing(n, Other(g)) == Doing(s, Other(g)) && Pending(Doing(n, g)) <= {other.queueId}
      && (Pending(Doing(n, g)) != {} ==> Doing(n, g).queue == other)
  {
  }

  lemma ReadAside(s: State, g: Fiber, readable: bool)
    requires Enabled(s, Read(g, readable))
    ensures var n := Next(s, Read(g, readable));
      && n.file == s.file && n.idOf == s.idOf && n.polled == s.polled && s.issued <= n.issued
      && Doing(n, Other(g)) == Doing(s, Other(g)) && Pending(Doing(n, g)) <= Pending(Doing(s, g))
      && (Pending(Doing(n, g)) != {} ==> Doing(n, g).queue == Doing(s, g).queue)
  {
  }

  lemma WriteAside(s: State, g: Fiber, outcome: Outcome, f: Fiber, queue: Cursor)
    requires Awaits(s, f, queue) && Enabled(s, Write(g, outcome))
    ensures var n := Next(s, Write(g, outcome));
      && n.polled == s.polled && s.issued <= n.issued && Doing(n, Other(g)) == Doing(s, Other(g)) && Doing(n, g).Idle?
      && (if outcome == Refused then n.file == s.file && n.idOf == s.idOf
          else HeldBy(n, queue.queueId) <==> outcome.Written? && Doing(s, g) == Replacing(queue))
  {
  }

  predicate NotTaken(ops: seq<Op>, id: string) { TakeUp(id) !in ops }

  /** In every interleaving, until a newly registered queue is first taken up, the file names
      it with its own id exactly when its register's write is the last that went anywhere. */
  lemma {:induction false} LastWriteDecides(s: State, f: Fiber, queue: Cursor, ops: seq<Op>)
    requires Awaits(s, f, queue) && !HeldBy(s, queue.queueId) && Runs(s, ops) && NotTaken(ops, queue.queueId)
    ensures Awaits(Run(s, ops), f, queue)
    ensures HeldBy(Run(s, ops), queue.queueId) <==> OnTop(s, ops, queue)
  {
    if ops != [] {
      assert Last(ops) in ops;
      LastWriteDecides(s, f, queue, Front(ops));
      StepAwaits(Run(s, Front(ops)), Last(ops), f, queue);
    }
  }

  // ---- when the register is written ----

  /** The register's read found nothing to protect. */
  predicate FoundNothing(s: State, ops: seq<Op>, f: Fiber, queue: Cursor)
    requires Runs(s, ops)
    decreases |ops|
  {
    ops != [] &&
    var before, op := Run(s, Front(ops)), Last(ops);
    FoundNothing(s, Front(ops), f, queue)
    || (op.Read? && op.fiber == f && Doing(before, f) == Checking(queue) && Fresh(before.file, op.readable))
  }

  predicate WriteMade(s: State, ops: seq<Op>, f: Fiber, queue: Cursor)
    requires Runs(s, ops)
    decreases |ops|
  {
    ops != [] &&
    (WriteMade(s, Front(ops), f, queue)
     || (Last(ops).Write? && Last(ops).fiber == f && Doing(Run(s, Front(ops)), f) == Replacing(queue)))
  }

  /** At its register the session was known, and the verdict in or nothing found. */
  predicate Leave(s: State, ops: seq<Op>, f: Fiber, queue: Cursor)
    requires Enabled(s, Register(f, queue)) && Runs(Next(s, Register(f, queue)), ops)
  {
    s.session && (s.verdict.Some? || FoundNothing(Next(s, Register(f, queue)), ops, f, queue))
  }

  /** How far the register has come. */
  predicate ProgressOk(t: State, f: Fiber, queue: Cursor, session: bool, leave: bool, made: bool) {
    var a := Doing(t, f);
    if a == Checking(queue) then session && !leave && !made
    else if a == Replacing(queue) then leave && !made
    else queue.queueId in t.ready && (made <==> leave)
  }

  lemma ProgressStep(t: State, op: Op, f: Fiber, queue: Cursor, session: bool, leave: bool, made: bool)
    requires Known(t) && Enabled(t, op) && ProgressOk(t, f, queue, session, leave, made)
    ensures var found := op.Read? && op.fiber == f && Doing(t, f) == Checking(queue) && Fresh(t.file, op.readable);
      var wrote := op.Write? && op.fiber == f && Doing(t, f) == Replacing(queue);
      (found ==> session) && ProgressOk(Next(t, op), f, queue, session, leave || found, made || wrote)
  {
  }

  lemma RegisterStarts(s: State, f: Fiber, queue: Cursor)
    requires Enabled(s, Register(f, queue))
    ensures ProgressOk(Next(s, Register(f, queue)), f, queue, s.session, s.session && s.verdict.Some?, false)
  {
  }

  lemma {:induction false} RegisterProgress(s: State, f: Fiber, queue: Cursor, ops: seq<Op>)
    requires Known(s) && Enabled(s, Register(f, queue)) && Runs(Next(s, Register(f, queue)), ops)
    ensures var n := Next(s, Register(f, queue));
      Known(Run(n, ops)) && ProgressOk(Run(n, ops), f, queue, s.session, Leave(s, ops, f, queue), WriteMade(n, ops, f, queue))
  {
    var n := Next(s, Register(f, queue));
    if ops == [] {
      NextKeepsKnown(s, Register(f, queue));
      RegisterStarts(s, f, queue);
    } else {
      RegisterProgress(s, f, queue, Front(ops));
      NextKeepsKnown(Run(n, Front(ops)), Last(ops));
      ProgressStep(Run(n, Front(ops)), Last(ops), f, queue, s.session, Leave(s, Front(ops), f, queue), WriteMade(n, Front(ops), f, queue));
    }
  }

  lemma {:induction false} OnTopWasMade(s: State, ops: seq<Op>, f: Fiber, queue: Cursor)
    requires Awaits(s, f, queue) && Runs(s, ops) && NotTaken(ops, queue.queueId) && OnTop(s, ops, queue)
    ensures WriteMade(s, ops, f, queue)
    decreases |ops|
  {
    assert Last(ops) in ops;
    AwaitsOn(s, Front(ops), f, queue);
    if !Lands(Last(ops)) { OnTopWasMade(s, Front(ops), f, queue); }
  }

  lemma {:induction false} AwaitsOn(s: State, ops: seq<Op>, f: Fiber, queue: Cursor)
    requires Awaits(s, f, queue) && Runs(s, ops) && NotTaken(ops, queue.queueId)
    ensures Awaits(Run(s, ops), f, queue)
  {
    if ops != [] {
      assert Last(ops) in ops;
      AwaitsOn(s, Front(ops), f, queue);
      StepAwaits(Run(s, Front(ops)), Last(ops), f, queue);
    }
  }

  /** A register that returned was written, or its write tried, exactly when it had leave. */
  lemma RegisterWritesIff(s: State, f: Fiber, queue: Cursor, ops: seq<Op>)
    requires Known(s) && Enabled(s, Register(f, queue)) && Runs(Next(s, Register(f, queue)), ops)
    requires queue.queueId in Run(Next(s, Register(f, queue)), ops).ready
    ensures WriteMade(Next(s, Register(f, queue)), ops, f, queue) <==> Leave(s, ops, f, queue)
  {
    RegisterProgress(s, f, queue, ops);
  }

  /** In every interleaving from a queue's register to the moment the poller takes it up, by
      adoption or after a re-register: the file then names the polled queue with its own id
      exactly when that register's write went through and no write after it went anywhere,
      be it a progress report of the queue polled before or another register. The write is
      made only if the session was known, and the verdict in or nothing found. */
  lemma TakenUpOnFileIff(s: State, f: Fiber, queue: Cursor, ops: seq<Op>)
    requires Known(s) && Enabled(s, Register(f, queue)) && Runs(Next(s, Register(f, queue)), ops)
    requires NotTaken(ops, queue.queueId) && Enabled(Run(Next(s, Register(f, queue)), ops), TakeUp(queue.queueId))
    ensures var n := Next(s, Register(f, queue)); var u := Next(Run(n, ops), TakeUp(queue.queueId));
      && (OnFile(u) <==> OnTop(n, ops, queue))
      && (OnTop(n, ops, queue) ==> WriteMade(n, ops, f, queue))
      && (WriteMade(n, ops, f, queue) <==> Leave(s, ops, f, queue))
  {
    var n := Next(s, Register(f, queue));
    RegisterAwaits(s, f, queue);
    LastWriteDecides(n, f, queue, ops);
    RegisterWritesIff(s, f, queue, ops);
    if OnTop(n, ops, queue) { OnTopWasMade(n, ops, f, queue); }
  }

  // ---- while one queue is polled ----

  predicate NamesPolled(s: State) { s.polled.Some? && s.file.Holds? && s.file.cursor.queueId == s.polled.value }

  /** No wholesale write, no torn one and no other queue taken up. */
  predicate StaysWith(s: State, ops: seq<Op>)
    requires Runs(s, ops)
  {
    Undisturbed(s, ops) && forall i :: 0 <= i < |ops| ==> !ops[i].TakeUp?
  }

  /** A progress report of the poller's was written. */
  predicate ProgressWritten(s: State, ops: seq<Op>)
    requires Runs(s, ops)
    decreases |ops|
  {
    ops != [] &&
    (ProgressWritten(s, Front(ops))
     || (Last(ops) == Write(Poller, Written) && Run(s, Front(ops)).poller.Moving?))
  }

  lemma StaysStep(s: State, op: Op)
    requires Known(s) && Enabled(s, op) && !Disturbs(s, op) && !op.TakeUp? && !Stale(s) && s.file.Holds? && s.polled.Some?
    ensures var n := Next(s, op);
      && n.polled == s.polled && Kept(s.file, n.file) && !Stale(n)
      && n.idOf == if op == Write(Poller, Written) && s.poller.Moving? then s.polled else s.idOf
  {
  }

  lemma {:induction false} StaysNamed(s: State, ops: seq<Op>)
    requires Known(s) && s.poller.Idle? && s.polled.Some? && s.file.Holds? && Runs(s, ops) && StaysWith(s, ops)
    ensures var t := Run(s, ops);
      && Known(t) && t.polled == s.polled && Kept(s.file, t.file) && !Stale(t)
      && t.idOf == if ProgressWritten(s, ops) then s.polled else s.idOf
  {
    if ops != [] {
      assert !Last(ops).TakeUp?;
      assert forall i :: 0 <= i < |ops| - 1 ==> Front(ops)[i] == ops[i];
      StaysNamed(s, Front(ops));
      StaysStep(Run(s, Front(ops)), Last(ops));
      NextKeepsKnown(Run(s, Front(ops)), Last(ops));
    }
  }

  /** A file that holds no cursor is not moved by any progress report. */
  lemma {:induction false} StaysEmpty(s: State, ops: seq<Op>)
    requires Known(s) && s.poller.Idle? && !s.file.Holds? && Runs(s, ops) && StaysWith(s, ops)
    ensures Known(Run(s, ops)) && !Run(s, ops).file.Holds? && !Run(s, ops).poller.Moving?
  {
    if ops != [] {
      assert !Last(ops).TakeUp?;
      assert forall i :: 0 <= i < |ops| - 1 ==> Front(ops)[i] == ops[i];
      StaysEmpty(s, Front(ops));
      NextKeepsKnown(Run(s, Front(ops)), Last(ops));
    }
  }

  /** What the file says of the polled queue when it is taken up stands for as long as it is
      polled: a queue not named then is never named, and one named with another queue's event
      id keeps it until its own progress has passed that id. */
  lemma EpochOnFileIff(s: State, ops: seq<Op>)
    requires Known(s) && s.poller.Idle? && s.polled.Some? && Runs(s, ops) && StaysWith(s, ops)
    ensures var t := Run(s, ops);
      && (NamesPolled(t) <==> NamesPolled(s))
      && (OnFile(t) <==> NamesPolled(s) && (s.idOf == s.polled || ProgressWritten(s, ops)))
  {
    if s.file.Holds? { StaysNamed(s, ops); } else { StaysEmpty(s, ops); }
  }

  // ---- the three ways it goes wrong ----

  /** The file can come to name one queue with another's event id: a subscribe registers a
      queue while a resumed one is being polled for the first time, so the candidate stays on
      file; the poller then adopts the new queue and reports its progress. */
  lemma AdoptedQueueMovesCandidate(s: State, adopted: Cursor, id: int)
    requires Known(s) && s.session && s.verdict.None? && s.poller.Idle? && s.subscriber.Idle? && !s.subscribed
    requires s.file.Holds? && s.polled == Some(s.file.cursor.queueId)
    requires adopted.queueId !in s.issued && id > s.file.cursor.lastEventId
    ensures var ops := [Register(Subscriber, adopted), Read(Subscriber, true), Verdict(true), TakeUp(adopted.queueId),
                        Advance(id), Read(Poller, true), Write(Poller, Written)];
      && Runs(s, ops) && Run(s, ops).polled == Some(adopted.queueId)
      && Run(s, ops).file == Holds(Cursor(s.file.cursor.queueId, id))
  {
    var a := [Register(Subscriber, adopted)];
    RunOne(s, Register(Subscriber, adopted));
    RunMore(s, a, Read(Subscriber, true));
    var b := a + [Read(Subscriber, true)];
    RunMore(s, b, Verdict(true));
    var c := b + [Verdict(true)];
    RunMore(s, c, TakeUp(adopted.queueId));
    var d := c + [TakeUp(adopted.queueId)];
    RunMore(s, d, Advance(id));
    var e := d + [Advance(id)];
    RunMore(s, e, Read(Poller, true));
    var g := e + [Read(Poller, true)];
    RunMore(s, g, Write(Poller, Written));
    assert g + [Write(Poller, Written)] == [Register(Subscriber, adopted), Read(Subscriber, true), Verdict(true), TakeUp(adopted.queueId),
                        Advance(id), Read(Poller, true), Write(Poller, Written)];
  }

  lemma RunMore(s: State, ops: seq<Op>, op: Op)
    requires Runs(s, ops) && Enabled(Run(s, ops), op)
    ensures Runs(s, ops + [op]) && Run(s, ops + [op]) == Next(Run(s, ops), op)
  {
    assert (ops + [op])[..|ops + [op]| - 1] == ops;
  }

  /** An advance in flight across a subscribe's register brings the old queue id back. */
  lemma AdvanceRevivesOldQueue(s: State, queue: Cursor, id: int)
    requires Known(s) && s.session && s.verdict.Some? && s.poller.Idle? && s.subscriber.Idle? && !s.subscribed
    requires OnFile(s) && queue.queueId !in s.issued && id > s.file.cursor.lastEventId
    ensures var ops := [Advance(id), Read(Poller, true), Register(Subscriber, queue), Write(Subscriber, Written),
                        Write(Poller, Written), TakeUp(queue.queueId)];
      && Runs(s, ops) && Run(s, ops).polled == Some(queue.queueId)
      && Run(s, ops).file == Holds(Cursor(s.file.cursor.queueId, id))
  {
    var a := [Advance(id)];
    RunOne(s, Advance(id));
    RunMore(s, a, Read(Poller, true));
    var b := a + [Read(Poller, true)];
    RunMore(s, b, Register(Subscriber, queue));
    var c := b + [Register(Subscriber, queue)];
    RunMore(s, c, Write(Subscriber, Written));
    var d := c + [Write(Subscriber, Written)];
    RunMore(s, d, Write(Poller, Written));
    var e := d + [Write(Poller, Written)];
    RunMore(s, e, TakeUp(queue.queueId));
    assert e + [TakeUp(queue.queueId)] == [Advance(id), Read(Poller, true), Register(Subscriber, queue), Write(Subscriber, Written),
                        Write(Poller, Written), TakeUp(queue.queueId)];
  }

  /** An advance begun after that write gives the new queue the old one's event id, so that a
      resume skips the new queue's first events. */
  lemma AdvanceMovesNewQueue(s: State, queue: Cursor, id: int)
    requires Known(s) && s.session && s.verdict.Some? && s.poller.Idle? && s.subscriber.Idle? && !s.subscribed && s.polled.Some?
    requires queue.queueId !in s.issued && id > queue.lastEventId
    ensures var ops := [Register(Subscriber, queue), Write(Subscriber, Written), Advance(id), Read(Poller, true),
                        Write(Poller, Written), TakeUp(queue.queueId)];
      && Runs(s, ops) && Run(s, ops).polled == Some(queue.queueId)
      && Run(s, ops).file == Holds(Cursor(queue.queueId, id)) && !OnFile(Run(s, ops))
  {
    var a := [Register(Subscriber, queue)];
    RunOne(s, Register(Subscriber, queue));
    RunMore(s, a, Write(Subscriber, Written));
    var b := a + [Write(Subscriber, Written)];
    RunMore(s, b, Advance(id));
    var c := b + [Advance(id)];
    RunMore(s, c, Read(Poller, true));
    var d := c + [Read(Poller, true)];
    RunMore(s, d, Write(Poller, Written));
    var e := d + [Write(Poller, Written)];
    RunMore(s, e, TakeUp(queue.queueId));
    assert e + [TakeUp(queue.queueId)] == [Register(Subscriber, queue), Write(Subscriber, Written), Advance(id), Read(Poller, true),
                        Write(Poller, Written), TakeUp(queue.queueId)];
  }
}
