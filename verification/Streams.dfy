/**
 The tenant event streams end to end: wallet callbacks stamp and publish events, the
 interceptor and the handler authorize the stream's request, and `streamFiltered` passes
 on what matches. A run is any sequence of actions by wallets, clients and the stream
 goroutines; an action that cannot happen leaves the system alone.
 */
module Streams {
  import opened Wrappers
  import opened Auth
  import opened LossyChannel
  import opened Tokens
  import Broker

  datatype Wallet = Wallet(tenantID: string, walletID: string)

  /** A Payment or WalletTransaction: the stamped identity and the rest of the message. */
  datatype Event = Event(tenantID: string, walletID: string, body: string)

  datatype Emission = Emission(source: Wallet, event: Event)

  /** The service keeps one broker for each of the two kinds of tenant event. */
  datatype Topic = Payments | WalletTransactions

  function MethodName(topic: Topic): string {
    SERVICE_PREFIX + if topic.Payments? then "StreamPayments" else "StreamWalletTransactions"
  }

  /** What a run is about: the service's authorization settings and one topic. */
  datatype Feed = Feed(auth: Config, topic: Topic)

  /** An empty request field matches everything. */
  predicate Matches(reqTenant: string, reqWallet: string, tenantID: string, walletID: string) {
    (reqTenant == "" || reqTenant == tenantID) && (reqWallet == "" || reqWallet == walletID)
  }

  predicate Keep(scope: Scope, v: Event) {
    Matches(scope.tenantID, scope.walletID, v.tenantID, v.walletID)
  }

  function Selected(scope: Scope, events: seq<Event>): seq<Event> {
    if events == [] then []
    else
      var rest, last := Selected(scope, events[..|events| - 1]), events[|events| - 1];
      if Keep(scope, last) then rest + [last] else rest
  }

  /**
   Admitted: past the interceptor. Streaming: at the select. Sending: inside a send, which may
   block. Leaving: about to run the deferred unsubscribe. Closing: between its two halves.
   */
  datatype Phase = Admitted | Streaming | Sending | Leaving | Closing | Gone

  /**
   `registered` and `admittedAt` record the check that let the stream in; `unsent` holds the
   event in hand: the one being sent, or the one whose send failed.
   */
  datatype Stream = Stream(
    scope: Scope,
    headers: Option<seq<string>>,
    registered: set<string>,
    admittedAt: int,
    phase: Phase,
    sub: Option<nat>,
    sent: seq<Event>,
    unsent: seq<Event>)

  datatype System = System(
    wallets: set<Wallet>,
    broker: seq<Broker.Event<Event>>,
    streams: seq<Stream>,
    emitted: seq<Emission>)

  datatype Action =
    | Register(w: Wallet)
    | Emit(w: Wallet, body: string)
    | Relay(id: nat)
    | EndEmit
    | Arrive(scope: Scope, headers: Option<seq<string>>, now: int)
    | Start(k: nat, at: int)
    | Take(k: nat)
    | Send(k: nat, sendOk: bool)
    | Cancel(k: nat)
    | Unregister(k: nat)
    | CloseChannel(k: nat)

  function Keys(wallets: set<Wallet>): set<string> {
    set w | w in wallets :: WalletKey(w.tenantID, w.walletID)
  }

  function CallOf(feed: Feed, st: Stream): Call {
    Call(MethodName(feed.topic), Some(st.scope), st.headers)
  }

  predicate At(s: System, k: nat, phase: Phase) {
    k < |s.streams| && s.streams[k].phase == phase && (phase != Admitted ==> s.streams[k].sub.Some?)
  }

  /** A publish holds the broker's lock. */
  predicate Locked(s: System) {
    Broker.Run(s.broker).publishing.Some?
  }

  function Update(s: System, k: nat, st: Stream, events: seq<Broker.Event<Event>>): System
    requires k < |s.streams|
  {
    s.(streams := s.streams[k := st], broker := s.broker + events)
  }

  /** A stream that has taken `v` from its channel: it passes over it, or starts to send it. */
  function Taken(st: Stream, v: Event): Stream {
    if Keep(st.scope, v) then st.(phase := Sending, unsent := [v]) else st
  }

  /** A stream whose send has ended. */
  function Sent(st: Stream, sendOk: bool): Stream {
    if sendOk then st.(phase := Streaming, sent := st.sent + st.unsent, unsent := [])
    else st.(phase := Leaving)
  }

  function Step(feed: Feed, s: System, a: Action): System {
    match a
    case Register(w) => s.(wallets := s.wallets + {w})
    case Emit(w, body) =>
      if w !in s.wallets || Locked(s) then s
      else
        var event := Event(w.tenantID, w.walletID, body);
        s.(broker := s.broker + [Broker.Publish(event)], emitted := s.emitted + [Emission(w, event)])
    case Relay(id) => s.(broker := s.broker + [Broker.Deliver(id)])
    case EndEmit => s.(broker := s.broker + [Broker.Unlock])
    case Arrive(scope, headers, now) =>
      // authServerStream.RecvMsg authorizes the request before the handler runs.
      var st := Stream(scope, headers, Keys(s.wallets), now, Admitted, None, [], []);
      if Authorize(feed.auth, Keys(s.wallets), now, CallOf(feed, st)).Ok? then s.(streams := s.streams + [st]) else s
    case Start(k, at) =>
      if !At(s, k, Admitted) then s
      else if Authorize(feed.auth, Keys(s.wallets), at, CallOf(feed, s.streams[k])).Err? then
        Update(s, k, s.streams[k].(phase := Gone), [])
      else if Locked(s) then s
      else
        Update(s, k, s.streams[k].(phase := Streaming, sub := Some(Broker.Run(s.broker).nextID)), [Broker.Subscribe])
    case Take(k) =>
      if !At(s, k, Streaming) then s
      else
        var st, id := s.streams[k], s.streams[k].sub.value;
        var b := Broker.Run(s.broker);
        if Broker.BufferOf(b, id) == [] then
          // The channel reports closed and drained; an open empty channel blocks.
          if id in b.chans && b.chans[id].closed then Update(s, k, st.(phase := Leaving), []) else s
        else Update(s, k, Taken(st, Broker.BufferOf(b, id)[0]), [Broker.Receive(id)])
    case Send(k, sendOk) =>
      if !At(s, k, Sending) then s
      else Update(s, k, Sent(s.streams[k], sendOk), [])
    case Cancel(k) =>
      if At(s, k, Streaming) then Update(s, k, s.streams[k].(phase := Leaving), []) else s
    case Unregister(k) =>
      if At(s, k, Leaving) && !Locked(s) then
        Update(s, k, s.streams[k].(phase := Closing), [Broker.Delete(s.streams[k].sub.value)])
      else s
    case CloseChannel(k) =>
      if At(s, k, Closing) then
        Update(s, k, s.streams[k].(phase := Gone), [Broker.Close(s.streams[k].sub.value)])
      else s
  }

  function Run(feed: Feed, run: seq<Action>): System {
    if run == [] then System({}, [], [], [])
    else Step(feed, Run(feed, run[..|run| - 1]), run[|run| - 1])
  }

  // ---- Invariants ----

  ghost predicate WasEmitted(s: System, v: Event) {
    exists i | 0 <= i < |s.emitted| ::
      && s.emitted[i].event == v
      && s.emitted[i].source.tenantID == v.tenantID
      && s.emitted[i].source.walletID == v.walletID
  }

  ghost predicate StreamInv(feed: Feed, s: System, st: Stream) {
    && Authorize(feed.auth, st.registered, st.admittedAt, CallOf(feed, st)).Ok?
    && (st.phase == Admitted ==> st.sub.None?)
    && (st.phase in {Streaming, Sending, Leaving, Closing} ==> st.sub.Some?)
    && (st.sub.None? ==> st.sent == [] && st.unsent == [])
    && |st.unsent| <= 1
    && (st.phase == Streaming ==> st.unsent == [])
    && (st.phase == Sending ==> st.unsent != [])
    && (st.sub.Some? ==>
          var id := st.sub.value;
          && id < Broker.Run(s.broker).nextID
          && (st.phase in {Streaming, Sending, Leaving} <==> id in Broker.Run(s.broker).subs)
          && (st.phase == Closing ==> id in Broker.Run(s.broker).closing)
          && (st.phase == Gone ==> Broker.ClosedIn(Broker.Run(s.broker), id))
          && st.sent + st.unsent == Selected(st.scope, Broker.Received(s.broker, id)))
  }

  ghost predicate Inv(feed: Feed, s: System) {
    && (forall v | Broker.Publish(v) in s.broker :: WasEmitted(s, v))
    && (forall k | 0 <= k < |s.streams| :: StreamInv(feed, s, s.streams[k]))
    && (forall j, k | 0 <= j < k < |s.streams| ::
          s.streams[j].sub.Some? && s.streams[k].sub.Some? ==> s.streams[j].sub != s.streams[k].sub)
  }

  lemma SelectedSnoc(scope: Scope, events: seq<Event>, v: Event)
    ensures Selected(scope, events + [v]) == if Keep(scope, v) then Selected(scope, events) + [v] else Selected(scope, events)
  {
    assert (events + [v])[..|events|] == events;
  }

  lemma SameReceived(run: seq<Broker.Event<Event>>, e: Broker.Event<Event>, id: nat)
    requires e != Broker.Receive(id)
    ensures Broker.Received(run + [e], id) == Broker.Received(run, id)
  {
    Broker.RunSnoc(run, e);
    assert Broker.Received(run, id) + [] == Broker.Received(run, id);
  }

  /** A stream is untouched by broker events that are not its own. */
  lemma StreamInvFrame(feed: Feed, s: System, t: System, st: Stream, e: Broker.Event<Event>)
    requires StreamInv(feed, s, st)
    requires t.broker == s.broker + [e]
    requires st.sub.Some? ==>
      e != Broker.Receive(st.sub.value) && e != Broker.Delete(st.sub.value) && e != Broker.Close(st.sub.value)
    ensures StreamInv(feed, t, st)
  {
    hide Authorize, Broker.Step;
    Broker.RunSnoc(s.broker, e);
    Broker.RunInv(s.broker);
    if st.sub.Some? {
      var id := st.sub.value;
      Broker.BufferStep(Broker.Run(s.broker), e, id);
      Broker.ClosingAfter(Broker.Run(s.broker), e, id);
      SameReceived(s.broker, e, id);
    }
  }

  lemma InvStream(feed: Feed, s: System, k: nat)
    requires Inv(feed, s) && k < |s.streams|
    ensures StreamInv(feed, s, s.streams[k])
  {}

  predicate OwnEvent(e: Broker.Event<Event>, id: nat) {
    e == Broker.Subscribe || e == Broker.Receive(id) || e == Broker.Delete(id) || e == Broker.Close(id)
  }

  /** A stream that acts on its own subscription keeps the invariant of all. */
  lemma UpdateKeepsInv(feed: Feed, s: System, k: nat, st: Stream, e: Broker.Event<Event>)
    requires Inv(feed, s) && k < |s.streams| && st.sub.Some? && OwnEvent(e, st.sub.value)
    requires s.streams[k].sub == st.sub || (s.streams[k].sub.None? && st.sub.value == Broker.Run(s.broker).nextID)
    requires StreamInv(feed, Update(s, k, st, [e]), st)
    ensures Inv(feed, Update(s, k, st, [e]))
  {
    hide StreamInv;
    var t := Update(s, k, st, [e]);
    forall j | 0 <= j < |t.streams| ensures StreamInv(feed, t, t.streams[j]) {
      if j != k {
        StreamSub(feed, s, j, k, st);
        StreamInvFrame(feed, s, t, s.streams[j], e);
      }
    }
    forall i, j | 0 <= i < j < |t.streams| && t.streams[i].sub.Some? && t.streams[j].sub.Some?
      ensures t.streams[i].sub != t.streams[j].sub
    {
      if i == k { StreamSub(feed, s, j, k, st); }
      if j == k { StreamSub(feed, s, i, k, st); }
    }
    forall v | Broker.Publish(v) in t.broker ensures WasEmitted(t, v) {
      assert Broker.Publish(v) in s.broker;
      assert WasEmitted(s, v);
    }
  }

  lemma StreamSub(feed: Feed, s: System, j: nat, k: nat, st: Stream)
    requires Inv(feed, s) && j < |s.streams| && k < |s.streams| && j != k && st.sub.Some?
    requires s.streams[k].sub == st.sub || (s.streams[k].sub.None? && st.sub.value == Broker.Run(s.broker).nextID)
    ensures s.streams[j].sub != st.sub
  {
    assert StreamInv(feed, s, s.streams[j]);
  }

  /** A stream that changes without a broker event. */
  lemma QuietKeepsInv(feed: Feed, s: System, k: nat, st: Stream)
    requires Inv(feed, s) && k < |s.streams| && st.sub == s.streams[k].sub
    requires StreamInv(feed, s, st)
    ensures Inv(feed, Update(s, k, st, []))
  {
    var t := Update(s, k, st, []);
    assert t.broker == s.broker;
    forall j | 0 <= j < |t.streams| ensures StreamInv(feed, t, t.streams[j]) {
      assert j != k ==> StreamInv(feed, s, s.streams[j]);
    }
    forall v | Broker.Publish(v) in t.broker ensures WasEmitted(t, v) {
      assert WasEmitted(s, v);
    }
  }

  lemma EmitKeepsInv(feed: Feed, s: System, w: Wallet, body: string)
    requires Inv(feed, s)
    ensures Inv(feed, Step(feed, s, Emit(w, body)))
  {
    if w in s.wallets && !Locked(s) {
      hide StreamInv;
      var t := Step(feed, s, Emit(w, body));
      var event := Event(w.tenantID, w.walletID, body);
      forall k | 0 <= k < |t.streams| ensures StreamInv(feed, t, t.streams[k]) {
        StreamInvFrame(feed, s, t, s.streams[k], Broker.Publish(event));
      }
      forall v | Broker.Publish(v) in t.broker ensures WasEmitted(t, v) {
        if v == event {
          assert t.emitted[|s.emitted|].event == v;
        } else {
          assert Broker.Publish(v) in s.broker;
          var i :| 0 <= i < |s.emitted| && s.emitted[i].event == v
            && s.emitted[i].source.tenantID == v.tenantID && s.emitted[i].source.walletID == v.walletID;
          assert t.emitted[i] == s.emitted[i];
        }
      }
    }
  }

  /** The later actions of a publish: its sends, and the release of the lock. */
  lemma PublishingKeepsInv(feed: Feed, s: System, t: System, e: Broker.Event<Event>)
    requires Inv(feed, s) && (e.Deliver? || e.Unlock?) && t == s.(broker := s.broker + [e])
    ensures Inv(feed, t)
  {
    hide StreamInv;
    forall k | 0 <= k < |t.streams| ensures StreamInv(feed, t, t.streams[k]) {
      StreamInvFrame(feed, s, t, s.streams[k], e);
    }
    forall v | Broker.Publish(v) in t.broker ensures WasEmitted(t, v) {
      assert Broker.Publish(v) in s.broker;
      assert WasEmitted(s, v);
    }
  }

  lemma JoinKeepsStreamInv(feed: Feed, s: System, t: System, st: Stream, next: Stream)
    requires StreamInv(feed, s, st) && st.phase == Admitted
    requires next == st.(phase := Streaming, sub := Some(Broker.Run(s.broker).nextID))
    requires t.broker == s.broker + [Broker.Subscribe] && !Locked(s)
    ensures StreamInv(feed, t, next)
  {
    hide Authorize, Broker.Step, Broker.Inv, Broker.Received, Broker.Run, Broker.BufferOf;
    var b := Broker.Run(s.broker);
    Broker.RunInv(s.broker);
    Broker.RunSnoc(s.broker, Broker.Subscribe);
    Broker.BufferStep(b, Broker.Subscribe, b.nextID);
    Broker.NothingBeforeSubscribing(s.broker, b.nextID);
    SameReceived(s.broker, Broker.Subscribe, b.nextID);
  }

  lemma StartKeepsInv(feed: Feed, s: System, k: nat, at: int)
    requires Inv(feed, s)
    ensures Inv(feed, Step(feed, s, Start(k, at)))
  {
    hide Inv, Authorize, Broker.Step, Broker.Inv, Broker.Received, Broker.Run, Selected;
    if At(s, k, Admitted) {
      var st := s.streams[k];
      InvStream(feed, s, k);
      if Authorize(feed.auth, Keys(s.wallets), at, CallOf(feed, st)).Err? {
        QuietKeepsInv(feed, s, k, st.(phase := Gone));
      } else if !Locked(s) {
        var next := st.(phase := Streaming, sub := Some(Broker.Run(s.broker).nextID));
        JoinKeepsStreamInv(feed, s, Update(s, k, next, [Broker.Subscribe]), st, next);
        UpdateKeepsInv(feed, s, k, next, Broker.Subscribe);
      }
    }
  }

  lemma ReceivedOne(run: seq<Broker.Event<Event>>, id: nat)
    requires Broker.Buffered(run, id) != []
    ensures Broker.Received(run + [Broker.Receive(id)], id) == Broker.Received(run, id) + [Broker.Buffered(run, id)[0]]
    ensures id in Broker.Run(run).subs ==> id in Broker.Run(run + [Broker.Receive(id)]).subs
    ensures Broker.Run(run + [Broker.Receive(id)]).nextID == Broker.Run(run).nextID
  {
    hide Broker.Step, Broker.Inv;
    Broker.RunInv(run);
    Broker.RunSnoc(run, Broker.Receive(id));
    Broker.BufferStep(Broker.Run(run), Broker.Receive(id), id);
  }

  lemma TakenKeepsStreamInv(feed: Feed, s: System, t: System, st: Stream)
    requires StreamInv(feed, s, st) && st.phase == Streaming
    requires Broker.Buffered(s.broker, st.sub.value) != []
    requires t.broker == s.broker + [Broker.Receive(st.sub.value)]
    ensures StreamInv(feed, t, Taken(st, Broker.Buffered(s.broker, st.sub.value)[0]))
  {
    hide Authorize, Keep, Selected, Broker.Buffered, Broker.Received, Broker.Run;
    ReceivedOne(s.broker, st.sub.value);
    SelectedSnoc(st.scope, Broker.Received(s.broker, st.sub.value), Broker.Buffered(s.broker, st.sub.value)[0]);
    assert st.sent + [] == st.sent;
  }

  lemma TakeKeepsInv(feed: Feed, s: System, k: nat)
    requires Inv(feed, s)
    ensures Inv(feed, Step(feed, s, Take(k)))
  {
    hide Inv, Authorize, Broker.Step, Broker.Inv, Broker.Received, Selected, Keep;
    if At(s, k, Streaming) {
      var st := s.streams[k];
      InvStream(feed, s, k);
      var id := st.sub.value;
      if Broker.Buffered(s.broker, id) == [] {
        QuietKeepsInv(feed, s, k, st.(phase := Leaving));
      } else {
        var next := Taken(st, Broker.Buffered(s.broker, id)[0]);
        TakenKeepsStreamInv(feed, s, Update(s, k, next, [Broker.Receive(id)]), st);
        UpdateKeepsInv(feed, s, k, next, Broker.Receive(id));
      }
    }
  }

  lemma SendKeepsInv(feed: Feed, s: System, k: nat, sendOk: bool)
    requires Inv(feed, s)
    ensures Inv(feed, Step(feed, s, Send(k, sendOk)))
  {
    hide Inv, Authorize, Broker.Step, Broker.Inv, Broker.Received, Broker.Run, Selected;
    if At(s, k, Sending) {
      InvStream(feed, s, k);
      var st := s.streams[k];
      assert (st.sent + st.unsent) + [] == st.sent + st.unsent;
      QuietKeepsInv(feed, s, k, Sent(st, sendOk));
    }
  }

  lemma CancelKeepsInv(feed: Feed, s: System, k: nat)
    requires Inv(feed, s)
    ensures Inv(feed, Step(feed, s, Cancel(k)))
  {
    hide Inv, Authorize, Broker.Step, Broker.Inv;
    if At(s, k, Streaming) {
      InvStream(feed, s, k);
      QuietKeepsInv(feed, s, k, s.streams[k].(phase := Leaving));
    }
  }

  lemma LeaveKeepsStreamInv(feed: Feed, s: System, t: System, st: Stream, e: Broker.Event<Event>, phase: Phase)
    requires StreamInv(feed, s, st) && st.sub.Some?
    requires || (st.phase == Leaving && !Locked(s) && phase == Closing && e == Broker.Delete(st.sub.value))
             || (st.phase == Closing && phase == Gone && e == Broker.Close(st.sub.value))
    requires t.broker == s.broker + [e]
    ensures StreamInv(feed, t, st.(phase := phase))
  {
    hide Authorize, Broker.Step, Broker.Inv, Broker.Received, Broker.Run, Broker.BufferOf, Selected;
    Broker.RunInv(s.broker);
    Broker.RunSnoc(s.broker, e);
    Broker.BufferStep(Broker.Run(s.broker), e, st.sub.value);
    Broker.ClosingAfter(Broker.Run(s.broker), e, st.sub.value);
    SameReceived(s.broker, e, st.sub.value);
  }

  lemma UnregisterKeepsInv(feed: Feed, s: System, k: nat)
    requires Inv(feed, s)
    ensures Inv(feed, Step(feed, s, Unregister(k)))
  {
    hide Inv, StreamInv, Authorize, Broker.Run;
    if At(s, k, Leaving) && !Locked(s) {
      var st := s.streams[k];
      InvStream(feed, s, k);
      var e := Broker.Delete(st.sub.value);
      LeaveKeepsStreamInv(feed, s, Update(s, k, st.(phase := Closing), [e]), st, e, Closing);
      UpdateKeepsInv(feed, s, k, st.(phase := Closing), e);
    }
  }

  lemma CloseKeepsInv(feed: Feed, s: System, k: nat)
    requires Inv(feed, s)
    ensures Inv(feed, Step(feed, s, CloseChannel(k)))
  {
    hide Inv, StreamInv, Authorize, Broker.Run;
    if At(s, k, Closing) {
      var st := s.streams[k];
      InvStream(feed, s, k);
      var e := Broker.Close(st.sub.value);
      LeaveKeepsStreamInv(feed, s, Update(s, k, st.(phase := Gone), [e]), st, e, Gone);
      UpdateKeepsInv(feed, s, k, st.(phase := Gone), e);
    }
  }

  lemma StepKeepsInv(feed: Feed, s: System, a: Action)
    requires Inv(feed, s)
    ensures Inv(feed, Step(feed, s, a))
  {
    hide Inv;
    match a
    case Emit(w, body) => EmitKeepsInv(feed, s, w, body);
    case Relay(id) => PublishingKeepsInv(feed, s, Step(feed, s, a), Broker.Deliver(id));
    case EndEmit => PublishingKeepsInv(feed, s, Step(feed, s, a), Broker.Unlock);
    case Start(k, at) => StartKeepsInv(feed, s, k, at);
    case Take(k) => TakeKeepsInv(feed, s, k);
    case Send(k, sendOk) => SendKeepsInv(feed, s, k, sendOk);
    case Cancel(k) => CancelKeepsInv(feed, s, k);
    case Unregister(k) => UnregisterKeepsInv(feed, s, k);
    case CloseChannel(k) => CloseKeepsInv(feed, s, k);
    case Register(w) => WalletsKeepInv(feed, s, Step(feed, s, a));
    case Arrive(scope, headers, now) => ArriveKeepsInv(feed, s, a);
  }

  lemma WalletsKeepInv(feed: Feed, s: System, t: System)
    requires Inv(feed, s) && t == s.(wallets := t.wallets)
    ensures Inv(feed, t)
  {
    hide Authorize;
    forall k | 0 <= k < |t.streams| ensures StreamInv(feed, t, t.streams[k]) {
      assert StreamInv(feed, s, s.streams[k]);
    }
    forall v | Broker.Publish(v) in t.broker ensures WasEmitted(t, v) {
      assert WasEmitted(s, v);
    }
  }

  lemma ArriveKeepsInv(feed: Feed, s: System, a: Action)
    requires Inv(feed, s) && a.Arrive?
    ensures Inv(feed, Step(feed, s, a))
  {
    hide Authorize;
    var t := Step(feed, s, a);
    forall k | 0 <= k < |t.streams| ensures StreamInv(feed, t, t.streams[k]) {
      if k < |s.streams| {
        assert StreamInv(feed, s, s.streams[k]);
      }
    }
    forall v | Broker.Publish(v) in t.broker ensures WasEmitted(t, v) {
      assert WasEmitted(s, v);
    }
  }

  lemma {:induction false} RunInv(feed: Feed, run: seq<Action>)
    ensures Inv(feed, Run(feed, run))
  {
    if run != [] {
      RunInv(feed, run[..|run| - 1]);
      StepKeepsInv(feed, Run(feed, run[..|run| - 1]), run[|run| - 1]);
    }
  }

  // ---- Main results ----

  lemma EventStreamsNeedToken(topic: Topic, registered: set<string>, scope: Option<Scope>)
    ensures IsBSVMSMethod(MethodName(topic)) && !NeedsNoToken(registered, MethodName(topic), scope)
  {
    var short := if topic.Payments? then "StreamPayments" else "StreamWalletTransactions";
    assert MethodName(topic) == "/bsvms.v1.BSVMS" + "/" + short;
    ShortMethodOf("/bsvms.v1.BSVMS", short);
    assert |short| > |"RestoreWallet"|;
  }

  lemma SelectedIn(scope: Scope, events: seq<Event>)
    ensures forall v | v in Selected(scope, events) :: v in events && Keep(scope, v)
  {}

  /**
   Tenant isolation, in every run with auth on: whatever a stream has sent or is sending was emitted by a
   wallet of the tenant named in the live access token the stream presented, and by the
   token's own wallet when the request names a wallet.
   */
  lemma StreamsIsolated(feed: Feed, run: seq<Action>, k: nat, v: Event, signed: set<Claims>) returns (c: Claims, i: nat)
    requires feed.auth.enabled
    requires var s := Run(feed, run);
      && k < |s.streams| && v in s.streams[k].sent + s.streams[k].unsent
      && Unforged(feed.auth.keys, signed, Presented(CallOf(feed, s.streams[k])))
    requires forall c | c in signed :: Faithful(feed.auth.keys, c)
    ensures var s, st := Run(feed, run), Run(feed, run).streams[k];
      && c in signed && c.typ == "access" && st.admittedAt < c.exp
      && i < |s.emitted| && s.emitted[i].event == v
      && s.emitted[i].source.tenantID == c.tenantID
      && (st.scope.walletID != "" ==> s.emitted[i].source.walletID == c.walletID)
  {
    var s := Run(feed, run);
    var st := s.streams[k];
    RunInv(feed, run);
    assert StreamInv(feed, s, st);
    EventStreamsNeedToken(feed.topic, st.registered, Some(st.scope));
    hide NeedsNoToken;
    c := AuthorizeSound(feed.auth, signed, st.registered, st.admittedAt, CallOf(feed, st));
    var received := Broker.Received(s.broker, st.sub.value);
    assert v in Selected(st.scope, received);
    SelectedIn(st.scope, received);
    Broker.ReceivedWasPublished(s.broker, st.sub.value);
    assert WasEmitted(s, v);
    i :| 0 <= i < |s.emitted| && s.emitted[i].event == v && s.emitted[i].source.tenantID == v.tenantID
      && s.emitted[i].source.walletID == v.walletID;
  }

  /**
   Which events a stream lets through, in terms of the token it was opened with: all those of
   the token's tenant, or of its one wallet when the request names a wallet, and no others.
   */
  lemma StreamKeepsOwnEvents(feed: Feed, run: seq<Action>, k: nat, signed: set<Claims>) returns (c: Claims)
    requires feed.auth.enabled
    requires var s := Run(feed, run);
      k < |s.streams| && Unforged(feed.auth.keys, signed, Presented(CallOf(feed, s.streams[k])))
    requires forall c | c in signed :: Faithful(feed.auth.keys, c)
    ensures c in signed && c.typ == "access" && Run(feed, run).streams[k].admittedAt < c.exp
    ensures var scope := Run(feed, run).streams[k].scope;
      forall v :: Keep(scope, v) <==> v.tenantID == c.tenantID && (scope.walletID != "" ==> v.walletID == c.walletID)
  {
    hide Unforged, Authorize;
    RunInv(feed, run);
    var st := Run(feed, run).streams[k];
    InvStream(feed, Run(feed, run), k);
    EventStreamsNeedToken(feed.topic, st.registered, Some(st.scope));
    hide NeedsNoToken;
    c := AuthorizeSound(feed.auth, signed, st.registered, st.admittedAt, CallOf(feed, st));
  }

  /**
   What a stream has sent, and the event in hand, are exactly the matching events its
   subscription received, in order. There is one in hand during a send and after a failed one,
   none at the select. Together with the broker's accounting this says what a stream missed.
   */
  lemma StreamSendsMatching(feed: Feed, run: seq<Action>, k: nat)
    requires k < |Run(feed, run).streams| && Run(feed, run).streams[k].sub.Some?
    ensures var s, st := Run(feed, run), Run(feed, run).streams[k];
      && st.sent + st.unsent == Selected(st.scope, Broker.Received(s.broker, st.sub.value))
      && |st.unsent| <= 1 && (st.phase == Streaming ==> st.unsent == []) && (st.phase == Sending ==> |st.unsent| == 1)
  {
    RunInv(feed, run);
    assert StreamInv(feed, Run(feed, run), Run(feed, run).streams[k]);
  }

  lemma {:induction false} SelectedConcat(scope: Scope, a: seq<Event>, b: seq<Event>)
    ensures Selected(scope, a + b) == Selected(scope, a) + Selected(scope, b)
  {
    if b == [] {
      assert a + b == a;
    } else {
      var front, v := b[..|b| - 1], b[|b| - 1];
      SelectedConcat(scope, a, front);
      SelectedSnoc(scope, a + front, v);
      SelectedSnoc(scope, front, v);
      hide Selected, Keep;
      assert b == front + [v] && a + b == (a + front) + [v];
    }
  }

  /**
   What is sent of the events taken from a channel, given which sends work: the matching ones, up
   to the first failing send.
   */
  ghost predicate Relayed(scope: Scope, received: seq<Event>, sendOk: nat -> bool, sent: seq<Event>, ok: bool) {
    && sent <= Selected(scope, received)
    && (forall n | 0 <= n < |sent| :: sendOk(n))
    && (ok <==> sent == Selected(scope, received))
    && (!ok ==> !sendOk(|sent|))
  }

  /** The loop of streamFiltered, on the events it takes from its channel before its context ends. */
  method StreamFiltered(scope: Scope, received: seq<Event>, sendOk: nat -> bool) returns (sent: seq<Event>, ok: bool)
    ensures Relayed(scope, received, sendOk, sent, ok)
  {
    sent := [];
    for i := 0 to |received|
      invariant sent == Selected(scope, received[..i])
      invariant forall n | 0 <= n < |sent| :: sendOk(n)
    {
      var v := received[i];
      SelectedSnoc(scope, received[..i], v);
      assert received[..i + 1] == received[..i] + [v];
      if Keep(scope, v) {
        if !sendOk(|sent|) {
          SelectedConcat(scope, received[..i + 1], received[i + 1..]);
          assert received == received[..i + 1] + received[i + 1..];
          return sent, false;
        }
        sent := sent + [v];
      }
    }
    assert received[..|received|] == received;
    return sent, true;
  }

  /** Inside the loop of streamFiltered. */
  predicate Live(st: Stream) {
    st.phase == Streaming || st.phase == Sending
  }

  lemma {:induction false} NothingDropped(offers: seq<Offer<Event>>)
    requires Dropped(offers) == []
    ensures Kept(offers) == Values(offers)
  {
    if offers != [] {
      NothingDropped(offers[..|offers| - 1]);
    }
  }

  /**
   A live stream that never fell more than 64 events behind misses nothing that was published:
   what it has sent, has in hand and will send from its buffer or from the publish under way is
   exactly the matching events published since it subscribed.
   */
  lemma NothingPublishedIsMissed(feed: Feed, run: seq<Action>, k: nat)
    requires var s := Run(feed, run);
      && k < |s.streams| && Live(s.streams[k]) && s.streams[k].sub.Some?
      && Broker.KeepsUp(s.broker, s.streams[k].sub.value)
    ensures var s := Run(feed, run);
      var scope, id := s.streams[k].scope, s.streams[k].sub.value;
      s.streams[k].sent + s.streams[k].unsent
      + Selected(scope, Broker.Buffered(s.broker, id)) + Selected(scope, Broker.PendingFor(Broker.Run(s.broker), id))
        == Selected(scope, Broker.PublishedTo(s.broker, id))
  {
    hide Broker.PendingFor, Broker.PublishedTo, Broker.Buffered, Selected;
    var s := Run(feed, run);
    var scope, id := s.streams[k].scope, s.streams[k].sub.value;
    StreamSendsMatching(feed, run, k);
    Broker.LosslessIffKeepsUp(s.broker, id);
    Broker.DeliveryAccounting(s.broker, id);
    Broker.EveryPublishIsSent(s.broker, id);
    NothingDropped(Broker.Offers(s.broker, id));
    SelectedConcat(scope, Broker.Received(s.broker, id), Broker.Buffered(s.broker, id));
    SelectedConcat(scope, Values(Broker.Offers(s.broker, id)), Broker.PendingFor(Broker.Run(s.broker), id));
  }

  /** A live stream's channel is open: streamFiltered never takes its "channel closed" branch. */
  lemma NeverClosedWhileStreaming(feed: Feed, run: seq<Action>, k: nat)
    requires k < |Run(feed, run).streams| && Live(Run(feed, run).streams[k])
    ensures var s := Run(feed, run);
      && s.streams[k].sub.Some?
      && var b, id := Broker.Run(s.broker), s.streams[k].sub.value;
      id in b.subs && id in b.chans && !b.chans[id].closed
  {
    RunInv(feed, run);
    assert StreamInv(feed, Run(feed, run), Run(feed, run).streams[k]);
    Broker.NoPanic(Run(feed, run).broker);
  }

  /**
   With auth on, an event stream whose request has an empty tenant is refused, although its
   filter would let every tenant's events through.
   */
  lemma EmptyTenantRefused(feed: Feed, registered: set<string>, now: int, walletID: string, headers: Option<seq<string>>)
    requires feed.auth.enabled
    ensures Authorize(feed.auth, registered, now, Call(MethodName(feed.topic), Some(Scope("", walletID)), headers)).Err?
    ensures forall v: Event :: Keep(Scope("", walletID), v) <==> walletID == "" || v.walletID == walletID
  {
    EventStreamsNeedToken(feed.topic, registered, Some(Scope("", walletID)));
    ExemptNeedsNoToken(registered, Call(MethodName(feed.topic), Some(Scope("", walletID)), headers));
    hide NeedsNoToken, IsRefreshMethod, IsBootstrapMethod, BootstrapAllowed;
  }
}
