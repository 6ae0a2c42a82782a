/**
 Rescans of one wallet: the RPC handler and the goroutine that walks the chain share a
 64-slot heartbeat channel, a `finished` channel, cancellation and the per-wallet guard.
 A run is any interleaving of handler and walker actions of any number of Rescan calls,
 with every send outcome and every walk outcome; an action that is blocked leaves the
 state alone. The walk itself is the SDK's: it calls back at most `todo` more times and
 may return, with or without an error, at any moment.
 */
module Rescan {
  import opened LossyChannel
  import opened Wrappers

  datatype Item<P> = Progress(p: P) | Stats

  datatype Outcome = Completed | SendFailed | WalkFailed

  /** The handler's program counter; `Unwinding` is the first deferred call, `Releasing` the last. */
  datatype Handler<P> =
    | Ranging
    | Sending(p: P)
    | AwaitingFinish
    | SendingStats
    | Unwinding
    | Waiting
    | Releasing
    | Done

  datatype Walker = Walking | Returned | ChannelClosed | Exited

  datatype Session<P> = Session(
    handler: Handler<P>,
    walker: Walker,
    todo: nat,
    beats: seq<Offer<P>>,    // every heartbeat produced, and whether the channel had room
    buf: seq<P>,
    progressClosed: bool,
    finished: bool,
    walkErr: bool,
    cancelled: bool,
    out: seq<Item<P>>,
    unsent: seq<P>,          // taken from the channel but not (or not yet) sent
    outcome: Option<Outcome>,
    panicked: bool)

  datatype State<P> = State(rescanning: bool, sessions: seq<Session<P>>)

  datatype Action<P> =
    | Begin(callbacks: nat)
    | Handle(k: nat, sendOk: bool)
    | Heartbeat(k: nat, p: P)
    | Return(k: nat, err: bool)
    | Walk(k: nat)

  function NewSession<P>(callbacks: nat): Session<P> {
    Session(Ranging, Walking, callbacks, [], [], false, false, false, false, [], [], None, false)
  }

  predicate Unwound<P>(h: Handler<P>) {
    h.Unwinding? || h.Waiting? || h.Releasing? || h.Done?
  }

  /** The handler's body: the range loop, the wait for the walk, the stats message. */
  function BodyStep<P>(s: Session<P>, sendOk: bool): Session<P>
    requires !Unwound(s.handler)
  {
    match s.handler
    case Ranging =>
      if s.buf != [] then s.(handler := Sending(s.buf[0]), buf := s.buf[1..], unsent := [s.buf[0]])
      else if s.progressClosed then s.(handler := AwaitingFinish)
      else s
    case Sending(p) =>
      if sendOk then s.(handler := Ranging, out := s.out + [Progress(p)], unsent := [])
      else s.(handler := Unwinding, outcome := Some(SendFailed))
    case AwaitingFinish =>
      if !s.finished then s
      else if s.walkErr then s.(handler := Unwinding, outcome := Some(WalkFailed))
      else s.(handler := SendingStats)
    case SendingStats =>
      if sendOk then s.(handler := Unwinding, out := s.out + [Stats], outcome := Some(Completed))
      else s.(handler := Unwinding, outcome := Some(SendFailed))
  }

  /** Its deferred calls, last first: cancel and wait for the walk, then endRescan. */
  function DeferredStep<P>(s: Session<P>): Session<P>
    requires Unwound(s.handler)
  {
    match s.handler
    case Unwinding => s.(handler := Waiting, cancelled := true)
    case Waiting => if s.finished then s.(handler := Releasing) else s
    case Releasing => s.(handler := Done)
    case Done => s
  }

  function HandlerStep<P>(s: Session<P>, sendOk: bool): Session<P> {
    if Unwound(s.handler) then DeferredStep(s) else BodyStep(s, sendOk)
  }

  /** opts.Progress: a send that drops the heartbeat when the channel is full. */
  function HeartbeatStep<P>(s: Session<P>, p: P): Session<P> {
    if s.walker != Walking || s.todo == 0 then s
    else
      var room := |s.buf| < CAPACITY;
      s.(todo := s.todo - 1,
         beats := s.beats + [Offer(p, room)],
         buf := if room then s.buf + [p] else s.buf,
         panicked := s.panicked || s.progressClosed)
  }

  function ReturnStep<P>(s: Session<P>, err: bool): Session<P> {
    if s.walker != Walking then s else s.(walker := Returned, walkErr := err)
  }

  /** close(progress), then the deferred close(finished). */
  function WalkerStep<P>(s: Session<P>): Session<P> {
    match s.walker
    case Returned => s.(walker := ChannelClosed, progressClosed := true, panicked := s.panicked || s.progressClosed)
    case ChannelClosed => s.(walker := Exited, finished := true, panicked := s.panicked || s.finished)
    case _ => s
  }

  function SessionStep<P>(s: Session<P>, e: Action<P>): Session<P> {
    match e
    case Begin(_) => s
    case Handle(_, sendOk) => HandlerStep(s, sendOk)
    case Heartbeat(_, p) => HeartbeatStep(s, p)
    case Return(_, err) => ReturnStep(s, err)
    case Walk(_) => WalkerStep(s)
  }

  function Step<P>(s: State<P>, e: Action<P>): State<P> {
    if e.Begin? then
      // beginRescan refuses a second rescan of the wallet.
      if s.rescanning then s else State(true, s.sessions + [NewSession(e.callbacks)])
    else if e.k >= |s.sessions| then s
    else
      var releases := e.Handle? && s.sessions[e.k].handler == Releasing;
      State(s.rescanning && !releases, s.sessions[e.k := SessionStep(s.sessions[e.k], e)])
  }

  function Run<P>(run: seq<Action<P>>): State<P> {
    if run == [] then State(false, [])
    else Step(Run(run[..|run| - 1]), run[|run| - 1])
  }

  // ---- What a session keeps ----

  /** The heartbeats among the items sent. */
  function Heartbeats<P>(out: seq<Item<P>>): seq<P> {
    if out == [] then []
    else
      var rest, last := Heartbeats(out[..|out| - 1]), out[|out| - 1];
      if last.Progress? then rest + [last.p] else rest
  }

  /** progress* or progress* stats */
  ghost predicate Grammatical<P>(out: seq<Item<P>>) {
    forall i | 0 <= i < |out| - 1 :: out[i].Progress?
  }

  predicate HasStats<P>(out: seq<Item<P>>) {
    out != [] && out[|out| - 1].Stats?
  }

  ghost predicate SessionInv<P>(s: Session<P>) {
    && !s.panicked
    && |s.buf| <= CAPACITY
    // The walker's program counter and the channels it closes.
    && (s.progressClosed <==> s.walker.ChannelClosed? || s.walker.Exited?)
    && (s.finished <==> s.walker.Exited?)
    // The handler's program counter.
    && (s.outcome.Some? <==> Unwound(s.handler))
    && (s.handler.Waiting? || s.handler.Releasing? || s.handler.Done? ==> s.cancelled)
    && (s.handler.Releasing? || s.handler.Done? ==> s.finished)
    && (s.handler.Sending? ==> s.unsent == [s.handler.p])
    && (s.unsent != [] ==> s.handler.Sending? || s.outcome == Some(SendFailed))
    && (s.handler.AwaitingFinish? ==> s.buf == [] && s.progressClosed)
    && (s.handler.SendingStats? ==> s.buf == [] && s.finished && !s.walkErr)
    // The output.
    && Grammatical(s.out)
    && Kept(s.beats) == Heartbeats(s.out) + s.unsent + s.buf
    && (HasStats(s.out) <==> s.outcome == Some(Completed))
    && (s.outcome == Some(Completed) ==> s.finished && !s.walkErr && s.unsent == [] && s.buf == [])
    && (s.outcome == Some(WalkFailed) ==> s.finished && s.walkErr && s.buf == [])
    && (s.outcome == Some(SendFailed) && s.unsent == [] ==> s.finished && !s.walkErr && s.buf == [])
  }

  lemma HeartbeatsSnoc<P>(out: seq<Item<P>>, i: Item<P>)
    ensures Heartbeats(out + [i]) == if i.Progress? then Heartbeats(out) + [i.p] else Heartbeats(out)
  {
    assert (out + [i])[..|out|] == out;
  }

  lemma WaitKeepsInv<P>(s: Session<P>, sendOk: bool)
    requires SessionInv(s) && (s.handler.Ranging? || s.handler.AwaitingFinish?)
    ensures SessionInv(BodyStep(s, sendOk))
  {
    hide Kept, Heartbeats, Grammatical, HasStats;
    if s.handler.Ranging? && s.buf != [] {
      assert s.buf == [s.buf[0]] + s.buf[1..];
      assert Heartbeats(s.out) + [] + s.buf == Heartbeats(s.out) + [s.buf[0]] + s.buf[1..];
    }
  }

  /** Appending to heartbeats alone keeps the grammar, and only stats ends it. */
  lemma AppendItem<P>(out: seq<Item<P>>, i: Item<P>)
    requires Grammatical(out) && !HasStats(out)
    ensures Grammatical(out + [i]) && (HasStats(out + [i]) <==> i.Stats?)
  {}

  lemma SendKeepsInv<P>(s: Session<P>, sendOk: bool)
    requires SessionInv(s) && (s.handler.Sending? || s.handler.SendingStats?)
    ensures SessionInv(BodyStep(s, sendOk))
  {
    hide Kept, Heartbeats, Grammatical, HasStats;
    var item := if s.handler.Sending? then Progress(s.handler.p) else Stats;
    HeartbeatsSnoc(s.out, item);
    AppendItem(s.out, item);
    if s.handler.Sending? {
      var p := s.handler.p;
      assert Heartbeats(s.out) + [p] + s.buf == (Heartbeats(s.out) + [p]) + [] + s.buf;
    }
  }

  lemma BodyKeepsInv<P>(s: Session<P>, sendOk: bool)
    requires SessionInv(s) && !Unwound(s.handler)
    ensures SessionInv(BodyStep(s, sendOk))
  {
    hide SessionInv, BodyStep;
    if s.handler.Sending? || s.handler.SendingStats? {
      SendKeepsInv(s, sendOk);
    } else {
      WaitKeepsInv(s, sendOk);
    }
  }

  lemma DeferredKeepsInv<P>(s: Session<P>)
    requires SessionInv(s) && Unwound(s.handler)
    ensures SessionInv(DeferredStep(s))
  {
    hide Kept, Heartbeats, Grammatical, HasStats;
  }

  lemma HeartbeatKeepsInv<P>(s: Session<P>, p: P)
    requires SessionInv(s)
    ensures SessionInv(HeartbeatStep(s, p))
  {
    hide Kept, Heartbeats;
    var beat := Offer(p, |s.buf| < CAPACITY);
    KeptSnoc(s.beats, [beat]);
    KeptOne(beat);
    var sent := Heartbeats(s.out) + s.unsent;
    assert (sent + s.buf) + [p] == sent + (s.buf + [p]);
  }

  lemma SessionKeepsInv<P>(s: Session<P>, e: Action<P>)
    requires SessionInv(s)
    ensures SessionInv(SessionStep(s, e))
  {
    match e
    case Handle(_, sendOk) => if Unwound(s.handler) { DeferredKeepsInv(s); } else { BodyKeepsInv(s, sendOk); }
    case Heartbeat(_, p) => HeartbeatKeepsInv(s, p);
    case Return(_, err) => WalkerKeepsInv(s, err);
    case Walk(_) => WalkerKeepsInv(s, false);
    case Begin(_) =>
  }

  lemma WalkerKeepsInv<P>(s: Session<P>, err: bool)
    requires SessionInv(s)
    ensures SessionInv(ReturnStep(s, err)) && SessionInv(WalkerStep(s))
  {
    hide Kept, Heartbeats;
  }

  /** The guard is held exactly while one call, and only one, has not released it. */
  ghost predicate GuardInv<P>(s: State<P>) {
    && (forall k | 0 <= k < |s.sessions| :: !s.sessions[k].handler.Done? ==> s.rescanning && k == |s.sessions| - 1)
    && (s.rescanning ==> s.sessions != [] && !s.sessions[|s.sessions| - 1].handler.Done?)
  }

  ghost predicate Inv<P>(s: State<P>) {
    GuardInv(s) && forall k | 0 <= k < |s.sessions| :: SessionInv(s.sessions[k])
  }

  lemma HandlerDone<P>(s: Session<P>, sendOk: bool)
    ensures HandlerStep(s, sendOk).handler.Done? <==> s.handler.Done? || s.handler.Releasing?
  {
    if !Unwound(s.handler) {
      assert !BodyStep(s, sendOk).handler.Done?;
    }
  }

  lemma DoneStaysDone<P>(s: Session<P>, e: Action<P>)
    ensures SessionStep(s, e).handler.Done? <==> s.handler.Done? || (e.Handle? && s.handler.Releasing?)
  {
    hide HandlerStep;
    match e
    case Handle(_, sendOk) => HandlerDone(s, sendOk);
    case _ =>
  }

  lemma StepKeepsInv<P>(s: State<P>, e: Action<P>)
    requires Inv(s)
    ensures Inv(Step(s, e))
  {
    hide SessionInv, SessionStep;
    if e.Begin? {
      NewSessionInv<P>(e.callbacks);
    } else if e.k < |s.sessions| {
      SessionKeepsInv(s.sessions[e.k], e);
      DoneStaysDone(s.sessions[e.k], e);
    }
  }

  lemma NewSessionInv<P>(callbacks: nat)
    ensures SessionInv<P>(NewSession(callbacks))
  {}

  lemma {:induction false} RunInv<P>(run: seq<Action<P>>)
    ensures Inv(Run(run))
  {
    if run != [] {
      RunInv(run[..|run| - 1]);
      StepKeepsInv(Run(run[..|run| - 1]), run[|run| - 1]);
    }
  }

  // ---- How a walk ends ----

  /** How the walk of call `k` returned, with an error or not: its first Return in the run. */
  function WalkResult<P>(run: seq<Action<P>>, k: nat): Option<bool> {
    if run == [] then None
    else
      var before, e := run[..|run| - 1], run[|run| - 1];
      if WalkResult(before, k).Some? then WalkResult(before, k)
      else if e.Return? && e.k == k && k < |Run(before).sessions| then Some(e.err)
      else None
  }

  /** What a state knows of it. */
  function ResultIn<P>(s: State<P>, k: nat): Option<bool> {
    if k < |s.sessions| && !s.sessions[k].walker.Walking? then Some(s.sessions[k].walkErr) else None
  }

  lemma SessionResult<P>(s: Session<P>, e: Action<P>)
    ensures var t := SessionStep(s, e);
      if s.walker.Walking? && !e.Return? then t.walker.Walking?
      else !t.walker.Walking? && t.walkErr == if s.walker.Walking? then e.err else s.walkErr
  {
    hide BodyStep, DeferredStep;
    match e
    case Handle(_, sendOk) => HandlerKeepsWalk(s, sendOk);
    case _ =>
  }

  lemma HandlerKeepsWalk<P>(s: Session<P>, sendOk: bool)
    ensures HandlerStep(s, sendOk).walker == s.walker && HandlerStep(s, sendOk).walkErr == s.walkErr
  {
    if Unwound(s.handler) {
      assert DeferredStep(s).walker == s.walker && DeferredStep(s).walkErr == s.walkErr;
    } else {
      assert BodyStep(s, sendOk).walker == s.walker && BodyStep(s, sendOk).walkErr == s.walkErr;
    }
  }

  lemma StepResult<P>(s: State<P>, e: Action<P>, k: nat)
    ensures ResultIn(Step(s, e), k) ==
      if ResultIn(s, k).Some? then ResultIn(s, k)
      else if e.Return? && e.k == k && k < |s.sessions| then Some(e.err)
      else None
  {
    hide SessionStep;
    if k < |s.sessions| {
      SessionResult(s.sessions[k], e);
    }
  }

  lemma {:induction false} WalkResultIs<P>(run: seq<Action<P>>, k: nat)
    ensures WalkResult(run, k) == ResultIn(Run(run), k)
  {
    if run != [] {
      WalkResultIs(run[..|run| - 1], k);
      StepResult(Run(run[..|run| - 1]), run[|run| - 1], k);
      hide Step, ResultIn;
    }
  }

  // ---- Main results ----

  predicate WalkAlive<P>(s: Session<P>) {
    !s.finished
  }

  /**
   In any interleaving at most one walk of the wallet is alive, the guard is held while it is,
   and no path out of a handler gives the guard back before it has cancelled its own walk and
   seen it finished.
   */
  lemma OneWalkAtATime<P>(run: seq<Action<P>>)
    ensures var s := Run(run);
      && (forall j, k | 0 <= j < k < |s.sessions| :: !(WalkAlive(s.sessions[j]) && WalkAlive(s.sessions[k])))
      && (forall k | 0 <= k < |s.sessions| && WalkAlive(s.sessions[k]) :: s.rescanning)
      && (forall k | 0 <= k < |s.sessions| && s.sessions[k].handler.Releasing? :: s.sessions[k].finished)
      && (forall k | 0 <= k < |s.sessions| && s.sessions[k].handler.Waiting? :: s.sessions[k].cancelled)
  {
    RunInv(run);
    var s := Run(run);
    forall k | 0 <= k < |s.sessions| ensures WalkAlive(s.sessions[k]) ==> !s.sessions[k].handler.Done? {
      assert SessionInv(s.sessions[k]);
    }
    forall k | 0 <= k < |s.sessions| && (s.sessions[k].handler.Releasing? || s.sessions[k].handler.Waiting?)
      ensures s.sessions[k].cancelled && (s.sessions[k].handler.Releasing? ==> s.sessions[k].finished)
    {
      assert SessionInv(s.sessions[k]);
    }
  }

  /** A rescan is accepted if and only if every earlier call has returned, and then starts afresh. */
  lemma GuardReleased<P>(run: seq<Action<P>>, callbacks: nat)
    ensures var s, t := Run(run), Run(run + [Begin(callbacks)]);
      if forall k | 0 <= k < |s.sessions| :: s.sessions[k].handler.Done?
      then t == State(true, s.sessions + [NewSession(callbacks)])
      else t == s
  {
    RunInv(run);
    assert (run + [Begin(callbacks)])[..|run|] == run;
  }

  /**
   What a client sees: heartbeats, then at most one stats message, which comes last. The
   heartbeats sent are the first of those that entered the channel, in order; all of them
   have been sent by the time stats is. Nothing is ever sent on a closed channel.
   */
  lemma OutputGrammar<P>(run: seq<Action<P>>, k: nat)
    requires k < |Run(run).sessions|
    ensures var s := Run(run).sessions[k];
      && Grammatical(s.out)
      && Heartbeats(s.out) <= Kept(Offered(run, k))
      && (HasStats(s.out) ==> Heartbeats(s.out) == Kept(Offered(run, k)) && s.finished && WalkResult(run, k) == Some(false))
      && !s.panicked
  {
    hide Run, WalkResult, Offered, Heartbeats, Kept, Grammatical, HasStats;
    WalkResultIs(run, k);
    BeatsAreOffers(run, k);
    RunInv(run);
    var s := Run(run).sessions[k];
    assert SessionInv(s);
    assert Heartbeats(s.out) + s.unsent + s.buf == Heartbeats(s.out) + (s.unsent + s.buf);
  }

  /** What action `e` offers to the channel of call `k`: room exactly when fewer than 64 heartbeats wait there. */
  function Offering<P>(s: State<P>, e: Action<P>, k: nat): seq<Offer<P>> {
    if e.Heartbeat? && e.k == k && k < |s.sessions| && s.sessions[k].walker.Walking? && s.sessions[k].todo > 0
    then [Offer(e.p, |s.sessions[k].buf| < CAPACITY)]
    else []
  }

  /** The heartbeats the walk of call `k` offered to its channel in the whole run. */
  function Offered<P>(run: seq<Action<P>>, k: nat): seq<Offer<P>> {
    if run == [] then []
    else Offered(run[..|run| - 1], k) + Offering(Run(run[..|run| - 1]), run[|run| - 1], k)
  }

  lemma SessionOffers<P>(s: Session<P>, e: Action<P>)
    ensures SessionStep(s, e).beats ==
      s.beats + if e.Heartbeat? && s.walker.Walking? && s.todo > 0 then [Offer(e.p, |s.buf| < CAPACITY)] else []
  {
    assert s.beats + [] == s.beats;
    hide HandlerStep;
    match e
    case Handle(_, sendOk) => HandlerKeepsBeats(s, sendOk);
    case _ =>
  }

  lemma HandlerKeepsBeats<P>(s: Session<P>, sendOk: bool)
    ensures HandlerStep(s, sendOk).beats == s.beats
  {
    if Unwound(s.handler) {
      assert DeferredStep(s).beats == s.beats;
    } else {
      BodyKeepsBeats(s, sendOk);
    }
  }

  lemma BodyKeepsBeats<P>(s: Session<P>, sendOk: bool)
    requires !Unwound(s.handler)
    ensures BodyStep(s, sendOk).beats == s.beats
  {
    match s.handler
    case Ranging =>
    case Sending(_) =>
    case AwaitingFinish =>
    case SendingStats =>
  }

  function BeatsOf<P>(s: State<P>, k: nat): seq<Offer<P>> {
    if k < |s.sessions| then s.sessions[k].beats else []
  }

  lemma StepOffers<P>(s: State<P>, e: Action<P>, k: nat)
    ensures BeatsOf(Step(s, e), k) == BeatsOf(s, k) + Offering(s, e, k)
  {
    hide SessionStep;
    if k < |s.sessions| {
      SessionOffers(s.sessions[k], e);
    }
  }

  /** The callbacks a call's walk has left. */
  function TodoOf<P>(s: State<P>, k: nat): nat {
    if k < |s.sessions| then s.sessions[k].todo else 0
  }

  lemma SessionTodo<P>(s: Session<P>, e: Action<P>)
    ensures SessionStep(s, e).todo == s.todo - if e.Heartbeat? && s.walker.Walking? && s.todo > 0 then 1 else 0
  {
    hide BodyStep, DeferredStep;
    match e
    case Handle(_, sendOk) => HandlerKeepsTodo(s, sendOk);
    case _ =>
  }

  lemma HandlerKeepsTodo<P>(s: Session<P>, sendOk: bool)
    ensures HandlerStep(s, sendOk).todo == s.todo
  {
    if Unwound(s.handler) {
      assert DeferredStep(s).todo == s.todo;
    } else {
      assert BodyStep(s, sendOk).todo == s.todo;
    }
  }

  /** The number of callbacks the walk of call `k` was started with. */
  function Budget<P>(run: seq<Action<P>>, k: nat): nat {
    if run == [] then 0
    else if |Run(run[..|run| - 1]).sessions| <= k then
      if run[|run| - 1].Begin? && |Run(run[..|run| - 1]).sessions| == k && |Run(run).sessions| > k
      then run[|run| - 1].callbacks else 0
    else Budget(run[..|run| - 1], k)
  }

  lemma StepTodo<P>(s: State<P>, e: Action<P>, k: nat)
    ensures TodoOf(Step(s, e), k) == TodoOf(s, k) - |Offering(s, e, k)| +
      if e.Begin? && k == |s.sessions| < |Step(s, e).sessions| then e.callbacks else 0
  {
    hide SessionStep;
    if k < |s.sessions| {
      SessionTodo(s.sessions[k], e);
    }
  }

  /** A walk that is running can offer heartbeats until its callbacks are used up, each counting once. */
  lemma {:induction false} OffersUseBudget<P>(run: seq<Action<P>>, k: nat)
    ensures |Offered(run, k)| + TodoOf(Run(run), k) == Budget(run, k)
  {
    if run != [] {
      OffersUseBudget(run[..|run| - 1], k);
      StepTodo(Run(run[..|run| - 1]), run[|run| - 1], k);
      NothingOfferedBefore(run[..|run| - 1], k);
      SessionsGrow(Run(run[..|run| - 1]), run[|run| - 1]);
      hide Step, Offering;
    }
  }

  lemma SessionsGrow<P>(s: State<P>, e: Action<P>)
    ensures |s.sessions| <= |Step(s, e).sessions| <= |s.sessions| + if e.Begin? then 1 else 0
  {}

  lemma NothingOfferedBefore<P>(run: seq<Action<P>>, k: nat)
    ensures k >= |Run(run).sessions| ==> Offered(run, k) == [] && Budget(run, k) == 0
  {
    BeatsAreOffers(run, k);
    if run != [] {
      SessionsGrow(Run(run[..|run| - 1]), run[|run| - 1]);
    }
  }

  lemma {:induction false} BeatsAreOffers<P>(run: seq<Action<P>>, k: nat)
    ensures Offered(run, k) == BeatsOf(Run(run), k)
  {
    if run != [] {
      hide Step, Offering;
      BeatsAreOffers(run[..|run| - 1], k);
      StepOffers(Run(run[..|run| - 1]), run[|run| - 1], k);
    }
  }

  /**
   Every heartbeat is accounted for: the walk's offers found room exactly when fewer than 64
   were waiting, and those that did are, in order, the ones sent, the one being sent (or whose
   send failed) and the ones waiting.
   */
  lemma HeartbeatAccounting<P>(run: seq<Action<P>>, k: nat)
    requires k < |Run(run).sessions|
    ensures var s := Run(run).sessions[k];
      Kept(Offered(run, k)) == Heartbeats(s.out) + s.unsent + s.buf
  {
    hide Run, Kept, Heartbeats, Offered;
    RunInv(run);
    BeatsAreOffers(run, k);
    assert SessionInv(Run(run).sessions[k]);
  }

  // ---- The sends of a call ----

  /** The result of the send that action `e` makes for call `k`, if it makes one. */
  function SendIn<P>(s: State<P>, e: Action<P>, k: nat): seq<bool> {
    if e.Handle? && e.k == k && k < |s.sessions| && (s.sessions[k].handler.Sending? || s.sessions[k].handler.SendingStats?)
    then [e.sendOk]
    else []
  }

  /** The results of all sends the handler of call `k` made in the run. */
  function Sends<P>(run: seq<Action<P>>, k: nat): seq<bool> {
    if run == [] then []
    else Sends(run[..|run| - 1], k) + SendIn(Run(run[..|run| - 1]), run[|run| - 1], k)
  }

  /** As many sends that worked as messages went out, and one that failed if the call ended so. */
  function ResultsOf<P>(s: Session<P>): seq<bool> {
    seq(|s.out|, i => true) + if s.outcome == Some(SendFailed) then [false] else []
  }

  function ResultsIn<P>(s: State<P>, k: nat): seq<bool> {
    if k < |s.sessions| then ResultsOf(s.sessions[k]) else []
  }

  lemma SessionSends<P>(s: Session<P>, e: Action<P>)
    requires SessionInv(s)
    ensures ResultsOf(SessionStep(s, e)) == ResultsOf(s) +
      if e.Handle? && (s.handler.Sending? || s.handler.SendingStats?) then [e.sendOk] else []
  {
    hide Kept, Heartbeats, Grammatical, HasStats;
  }

  lemma NewSessionResults<P>(callbacks: nat)
    ensures ResultsOf(NewSession<P>(callbacks)) == []
  {}

  lemma StepSends<P>(s: State<P>, e: Action<P>, k: nat)
    requires Inv(s)
    ensures ResultsIn(Step(s, e), k) == ResultsIn(s, k) + SendIn(s, e, k)
  {
    hide SessionStep, SessionInv, ResultsOf;
    if k < |s.sessions| {
      SessionSends(s.sessions[k], e);
    } else if e.Begin? {
      NewSessionResults<P>(e.callbacks);
    }
  }

  lemma {:induction false} SendsAreResults<P>(run: seq<Action<P>>, k: nat)
    ensures Sends(run, k) == ResultsIn(Run(run), k)
  {
    if run != [] {
      hide Step, SendIn, ResultsIn, Inv;
      RunInv(run[..|run| - 1]);
      SendsAreResults(run[..|run| - 1], k);
      StepSends(Run(run[..|run| - 1]), run[|run| - 1], k);
    } else {
      assert ResultsIn(Run<P>([]), k) == [];
    }
  }

  /**
   A returned call sent its stats message if and only if every one of its sends worked and the
   walk returned without an error. The API text promises one in every case.
   */
  lemma StatsExactly<P>(run: seq<Action<P>>, k: nat)
    requires k < |Run(run).sessions| && Run(run).sessions[k].handler.Done?
    ensures var s := Run(run).sessions[k];
      HasStats(s.out) <==> (forall ok | ok in Sends(run, k) :: ok) && WalkResult(run, k) == Some(false)
  {
    WalkResultIs(run, k);
    hide Run, Sends, WalkResult, Heartbeats, Kept, Grammatical, HasStats;
    RunInv(run);
    SendsAreResults(run, k);
    var s := Run(run).sessions[k];
    assert SessionInv(s);
    var results := ResultsOf(s);
    assert Sends(run, k) == results;
    match s.outcome.value
    case SendFailed =>
      assert !results[|s.out|] && results[|s.out|] in results;
    case Completed =>
    case WalkFailed =>
  }

  /** The wallet's only call so far is in state `s`, its sends ended as `sends` says. */
  ghost predicate Alone<P>(run: seq<Action<P>>, s: Session<P>, sends: seq<bool>) {
    Run(run).sessions == [s] && Sends(run, 0) == sends
  }

  lemma BeginAlone<P>(callbacks: nat)
    ensures Alone<P>([Begin(callbacks)], NewSession(callbacks), [])
  {
    var run: seq<Action<P>> := [Begin(callbacks)];
    assert run[..0] == [];
  }

  lemma ActAlone<P>(run: seq<Action<P>>, s: Session<P>, sends: seq<bool>, e: Action<P>)
    requires Alone(run, s, sends) && !e.Begin? && e.k == 0
    ensures Alone(run + [e], SessionStep(s, e),
                  sends + if e.Handle? && (s.handler.Sending? || s.handler.SendingStats?) then [e.sendOk] else [])
  {
    hide SessionStep;
    assert (run + [e])[..|run|] == run;
  }

  /** From a finished walk and an unwinding handler, the deferred calls return. */
  lemma UnwindAlone<P>(run: seq<Action<P>>, s: Session<P>, sends: seq<bool>) returns (longer: seq<Action<P>>)
    requires Alone(run, s, sends) && s.handler.Unwinding? && s.finished
    ensures Alone(longer, s.(handler := Done, cancelled := true), sends)
  {
    hide Alone;
    assert sends + [] == sends;
    var e: Action<P> := Handle(0, true);
    ActAlone(run, s, sends, e);
    ActAlone(run + [e], s.(handler := Waiting, cancelled := true), sends, e);
    ActAlone(run + [e] + [e], s.(handler := Releasing, cancelled := true), sends, e);
    longer := run + [e] + [e] + [e];
  }

  /** A call that returns without stats because its walk failed, with nothing else going wrong. */
  lemma FailedWalkWithoutStats<P>() returns (run: seq<Action<P>>)
    ensures |Run(run).sessions| == 1
    ensures var s := Run(run).sessions[0];
      s.handler.Done? && WalkResult(run, 0) == Some(true) && Sends(run, 0) == [] && s.out == []
  {
    hide Run, Sends, WalkResult;
    BeginAlone<P>(0);
    var acts: seq<Action<P>> := [Return(0, true), Walk(0), Walk(0), Handle(0, true), Handle(0, true)];
    var s := NewSession<P>(0);
    run := [Begin(0)];
    ActAlone(run, s, [], acts[0]);
    var s1 := s.(walker := Returned, walkErr := true);
    ActAlone(run + [acts[0]], s1, [], acts[1]);
    var s2 := s1.(walker := ChannelClosed, progressClosed := true);
    ActAlone(run + [acts[0]] + [acts[1]], s2, [], acts[2]);
    var s3 := s2.(walker := Exited, finished := true);
    run := run + [acts[0]] + [acts[1]] + [acts[2]];
    ActAlone(run, s3, [], acts[3]);
    ActAlone(run + [acts[3]], s3.(handler := AwaitingFinish), [], acts[4]);
    run := UnwindAlone(run + [acts[3]] + [acts[4]], s3.(handler := Unwinding, outcome := Some(WalkFailed)), []);
    WalkResultIs(run, 0);
  }

  /** A call that returns without stats because a send failed, after a walk that did not. */
  lemma FailedSendWithoutStats<P>() returns (run: seq<Action<P>>)
    ensures |Run(run).sessions| == 1
    ensures var s := Run(run).sessions[0];
      s.handler.Done? && WalkResult(run, 0) == Some(false) && Sends(run, 0) == [false] && s.out == []
  {
    hide Run, Sends, WalkResult;
    BeginAlone<P>(0);
    var acts: seq<Action<P>> := [Return(0, false), Walk(0), Walk(0), Handle(0, true), Handle(0, true), Handle(0, false)];
    var s := NewSession<P>(0);
    run := [Begin(0)];
    ActAlone(run, s, [], acts[0]);
    var s1 := s.(walker := Returned);
    ActAlone(run + [acts[0]], s1, [], acts[1]);
    var s2 := s1.(walker := ChannelClosed, progressClosed := true);
    ActAlone(run + [acts[0]] + [acts[1]], s2, [], acts[2]);
    var s3 := s2.(walker := Exited, finished := true);
    run := run + [acts[0]] + [acts[1]] + [acts[2]];
    ActAlone(run, s3, [], acts[3]);
    ActAlone(run + [acts[3]], s3.(handler := AwaitingFinish), [], acts[4]);
    run := run + [acts[3]] + [acts[4]];
    ActAlone(run, s3.(handler := SendingStats), [], acts[5]);
    run := UnwindAlone(run + [acts[5]], s3.(handler := Unwinding, outcome := Some(SendFailed)), [false]);
    WalkResultIs(run, 0);
  }

  // ---- The handler's loop on its own ----

  function Messages<P>(beats: seq<P>): (out: seq<Item<P>>)
    ensures |out| == |beats|
  {
    seq(|beats|, i requires 0 <= i < |beats| => Progress(beats[i]))
  }

  /**
   What a handler sends, given the heartbeats its channel kept, how its walk ended, and which
   of its sends work: everything up to the first failing send, and stats after a good walk.
   */
  ghost predicate Transcript<P>(kept: seq<P>, walkErr: bool, sendOk: nat -> bool, out: seq<Item<P>>, outcome: Outcome) {
    var all := Messages(kept) + if walkErr then [] else [Stats];
    && out <= all
    && (forall n | 0 <= n < |out| :: sendOk(n))
    && (out == all <==> outcome != SendFailed)
    && (outcome == SendFailed ==> !sendOk(|out|))
    && (outcome == WalkFailed ==> walkErr)
    && (outcome == Completed ==> !walkErr)
  }

  /** A transcript is determined by the heartbeats, the walk and the sends. */
  lemma TranscriptUnique<P>(kept: seq<P>, walkErr: bool, sendOk: nat -> bool,
                            out1: seq<Item<P>>, outcome1: Outcome, out2: seq<Item<P>>, outcome2: Outcome)
    requires Transcript(kept, walkErr, sendOk, out1, outcome1) && Transcript(kept, walkErr, sendOk, out2, outcome2)
    ensures out1 == out2 && outcome1 == outcome2
  {
    var all := Messages(kept) + if walkErr then [] else [Stats];
    assert |out1| == |out2| by {
      assert |out1| < |all| ==> !sendOk(|out1|);
      assert |out2| < |all| ==> !sendOk(|out2|);
    }
    assert out1 == all[..|out1|] && out2 == all[..|out2|];
  }

  /** The body of Rescan after the guard: ranges over the heartbeats, then waits for the walk. */
  method Serve<P>(kept: seq<P>, walkErr: bool, sendOk: nat -> bool) returns (out: seq<Item<P>>, outcome: Outcome)
    ensures Transcript(kept, walkErr, sendOk, out, outcome)
  {
    out := [];
    for i := 0 to |kept|
      invariant |out| == i && out == Messages(kept)[..i]
      invariant forall n | 0 <= n < i :: sendOk(n)
    {
      if !sendOk(i) {
        return out, SendFailed;
      }
      out := out + [Progress(kept[i])];
    }
    if walkErr {
      return out, WalkFailed;
    }
    if !sendOk(|kept|) {
      return out, SendFailed;
    }
    return out + [Stats], Completed;
  }

  lemma {:induction false} OutFromHeartbeats<P>(out: seq<Item<P>>)
    requires Grammatical(out)
    ensures out == Messages(Heartbeats(out)) + if HasStats(out) then [Stats] else []
  {
    if out != [] {
      var front, last := out[..|out| - 1], out[|out| - 1];
      assert forall i | 0 <= i < |front| :: front[i] == out[i] && out[i].Progress?;
      OutFromHeartbeats(front);
      assert out == front + [last];
    }
  }

  /** The n-th send worked. */
  function Nth(sends: seq<bool>): nat -> bool {
    (n: nat) => n < |sends| && sends[n]
  }

  /**
   However handler and walker interleave, a call that has returned sent exactly what its loop
   sends when run on its own over the heartbeats that found room, each send ending as it did
   in the run.
   */
  lemma InterleavingRefinesLoop<P>(run: seq<Action<P>>, k: nat)
    requires k < |Run(run).sessions| && Run(run).sessions[k].handler.Done?
    ensures var s := Run(run).sessions[k];
      s.outcome.Some? && Transcript(Kept(Offered(run, k)), WalkResult(run, k) == Some(true), Nth(Sends(run, k)), s.out, s.outcome.value)
  {
    WalkResultIs(run, k);
    hide Run, WalkResult, Offered, Sends, Transcript, Nth, ResultsOf;
    RunInv(run);
    BeatsAreOffers(run, k);
    SendsAreResults(run, k);
    var s := Run(run).sessions[k];
    assert SessionInv(s);
    SessionRefinesLoop(s);
  }

  lemma SessionRefinesLoop<P>(s: Session<P>)
    requires SessionInv(s) && s.outcome.Some?
    ensures Transcript(Kept(s.beats), s.walkErr, Nth(ResultsOf(s)), s.out, s.outcome.value)
  {
    hide Kept, Heartbeats, Grammatical, HasStats;
    OutFromHeartbeats(s.out);
    var beats, later := Heartbeats(s.out), s.unsent + s.buf;
    assert Kept(s.beats) == beats + later;
    assert Messages(beats + later) == Messages(beats) + Messages(later);
  }

  // ---- Progress and termination ----

  function HandlerRank<P>(h: Handler<P>): nat {
    match h
    case Sending(_) => 8
    case Ranging => 7
    case AwaitingFinish => 6
    case SendingStats => 5
    case Unwinding => 4
    case Waiting => 3
    case Releasing => 2
    case Done => 0
  }

  function WalkerRank(w: Walker): nat {
    match w
    case Walking => 3
    case Returned => 2
    case ChannelClosed => 1
    case Exited => 0
  }

  /** What is left to do: callbacks to come, heartbeats waiting, and the two program counters. */
  function Measure<P>(s: Session<P>): nat {
    3 * s.todo + 2 * |s.buf| + HandlerRank(s.handler) + WalkerRank(s.walker)
  }

  lemma BodyCounts<P>(s: Session<P>, sendOk: bool)
    requires !Unwound(s.handler)
    ensures BodyStep(s, sendOk) == s || Measure(BodyStep(s, sendOk)) < Measure(s)
  {
    match s.handler
    case Ranging =>
    case AwaitingFinish =>
    case _ =>
  }

  lemma DeferredCounts<P>(s: Session<P>)
    requires Unwound(s.handler)
    ensures DeferredStep(s) == s || Measure(DeferredStep(s)) < Measure(s)
  {}

  lemma HeartbeatCounts<P>(s: Session<P>, p: P)
    ensures HeartbeatStep(s, p) == s || Measure(HeartbeatStep(s, p)) < Measure(s)
  {}

  lemma WalkerCounts<P>(s: Session<P>, err: bool)
    ensures ReturnStep(s, err) == s || Measure(ReturnStep(s, err)) < Measure(s)
    ensures WalkerStep(s) == s || Measure(WalkerStep(s)) < Measure(s)
  {}

  lemma EveryStepCounts<P>(s: Session<P>, e: Action<P>)
    ensures SessionStep(s, e) == s || Measure(SessionStep(s, e)) < Measure(s)
  {
    hide BodyStep, DeferredStep, HeartbeatStep, ReturnStep, WalkerStep, Measure;
    match e
    case Begin(_) =>
    case Handle(_, sendOk) => if Unwound(s.handler) { DeferredCounts(s); } else { BodyCounts(s, sendOk); }
    case Heartbeat(_, p) => HeartbeatCounts(s, p);
    case Return(_, err) => WalkerCounts(s, err);
    case Walk(_) => WalkerCounts(s, false);
  }

  /** How many actions of call `k` in the run were not blocked. */
  ghost function Effective<P>(run: seq<Action<P>>, k: nat): nat {
    if run == [] then 0
    else
      var before, e := Run(run[..|run| - 1]), run[|run| - 1];
      Effective(run[..|run| - 1], k) +
      if !e.Begin? && e.k == k && k < |before.sessions| && SessionStep(before.sessions[k], e) != before.sessions[k] then 1 else 0
  }

  /**
   Every call does a bounded amount of work: in any run its unblocked actions, and what its
   measure still allows, never exceed three per callback of the walk plus ten.
   */
  lemma {:induction false} BoundedWork<P>(run: seq<Action<P>>, k: nat)
    ensures if k < |Run(run).sessions| then Effective(run, k) + Measure(Run(run).sessions[k]) <= 3 * Budget(run, k) + 10
            else Effective(run, k) == 0
  {
    if run != [] {
      var before, e := run[..|run| - 1], run[|run| - 1];
      BoundedWork(before, k);
      var s := Run(before);
      if !e.Begin? && e.k == k && k < |s.sessions| {
        EveryStepCounts(s.sessions[k], e);
      }
    }
  }

  /** Some action of this call is not blocked. */
  ghost predicate CanStep<P(!new)>(s: Session<P>) {
    exists e: Action<P> :: SessionStep(s, e) != s
  }

  /**
   No deadlock: a call whose handler has not returned always has an action that is not
   blocked, and a walk that has not exited can always act on its own, even when the handler is
   gone after a failed send and the channel is full.
   */
  lemma NeverStuck<P(!new)>(run: seq<Action<P>>, k: nat, p: P)
    requires k < |Run(run).sessions|
    ensures var s := Run(run).sessions[k];
      && (!s.handler.Done? ==> CanStep(s))
      && (s.walker.Walking? ==> ReturnStep(s, true) != s && (s.todo > 0 ==> HeartbeatStep(s, p) != s))
      && (!s.walker.Walking? && !s.walker.Exited? ==> WalkerStep(s) != s)
  {
    RunInv(run);
    var s := Run(run).sessions[k];
    assert SessionInv(s);
    if !s.handler.Done? {
      if s.walker.Walking? {
        assert SessionStep(s, Return(k, true)) != s;
      } else if !s.walker.Exited? {
        assert SessionStep(s, Walk(k)) != s;
      } else {
        assert SessionStep(s, Handle(k, true)) != s;
      }
    }
  }
}
