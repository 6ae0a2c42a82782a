/**
 From a wallet's callback to the client: every event a registered wallet emits is published,
 once and in order, and reaches the streams that are open for it.
 */
module Delivery {
  import opened Wrappers
  import opened Auth
  import opened LossyChannel
  import opened Streams
  import Broker

  // ---- What the wallets emit ----

  /** The wallets registered in a run. */
  function Registered(run: seq<Action>): set<Wallet> {
    if run == [] then {}
    else Registered(run[..|run| - 1]) + if run[|run| - 1].Register? then {run[|run| - 1].w} else {}
  }

  /** The emission of an action, if it is one of a registered wallet that finds the broker's lock free. */
  function EmissionIn(feed: Feed, before: seq<Action>, a: Action): seq<Emission> {
    if a.Emit? && a.w in Registered(before) && !Locked(Run(feed, before))
    then [Emission(a.w, Event(a.w.tenantID, a.w.walletID, a.body))]
    else []
  }

  function Emissions(feed: Feed, run: seq<Action>): seq<Emission> {
    if run == [] then []
    else Emissions(feed, run[..|run| - 1]) + EmissionIn(feed, run[..|run| - 1], run[|run| - 1])
  }

  function EventsOf(emissions: seq<Emission>): seq<Event> {
    seq(|emissions|, i requires 0 <= i < |emissions| => emissions[i].event)
  }

  /** The values published, in order. */
  function Publishes(events: seq<Broker.Event<Event>>): seq<Event> {
    if events == [] then []
    else
      var rest, last := Publishes(events[..|events| - 1]), events[|events| - 1];
      if last.Publish? then rest + [last.v] else rest
  }

  lemma {:induction false} WalletsAreRegistered(feed: Feed, run: seq<Action>)
    ensures Run(feed, run).wallets == Registered(run)
  {
    if run != [] {
      hide Authorize, Broker.Run;
      WalletsAreRegistered(feed, run[..|run| - 1]);
      StepWallets(feed, Run(feed, run[..|run| - 1]), run[|run| - 1]);
    }
  }

  lemma StepWallets(feed: Feed, s: System, a: Action)
    ensures Step(feed, s, a).wallets == s.wallets + if a.Register? then {a.w} else {}
  {
    hide Authorize, Broker.Run;
  }

  predicate Emits(s: System, a: Action) {
    a.Emit? && a.w in s.wallets && !Locked(s)
  }

  /** What an action adds to the broker's history and to the streams. */
  lemma StepShape(feed: Feed, s: System, a: Action)
    ensures var t := Step(feed, s, a);
      && s.broker <= t.broker && |t.broker| <= |s.broker| + 1
      && (if Emits(s, a) then
            var event := Event(a.w.tenantID, a.w.walletID, a.body);
            t.broker == s.broker + [Broker.Publish(event)] && t.emitted == s.emitted + [Emission(a.w, event)]
          else t.emitted == s.emitted && (t.broker == s.broker || (t.broker == s.broker + [t.broker[|s.broker|]] && !t.broker[|s.broker|].Publish?)))
      && |s.streams| <= |t.streams|
      && (forall j | |s.streams| <= j < |t.streams| :: t.streams[j].sub.None?)
      && (forall j | 0 <= j < |s.streams| ::
            || t.streams[j].sub == s.streams[j].sub
            || (t.broker == s.broker + [Broker.Subscribe] && t.streams[j].sub == Some(Broker.Run(s.broker).nextID)
                && s.streams[j].phase == Admitted))
  {
    hide Authorize, Broker.Run, Broker.BufferOf;
  }

  lemma PublishesSnoc(events: seq<Broker.Event<Event>>, e: Broker.Event<Event>)
    ensures Publishes(events + [e]) == Publishes(events) + if e.Publish? then [e.v] else []
  {
    assert (events + [e])[..|events|] == events;
  }

  /** What a step emits, from its state. */
  function EmittedBy(s: System, a: Action): seq<Emission> {
    if Emits(s, a) then [Emission(a.w, Event(a.w.tenantID, a.w.walletID, a.body))] else []
  }

  lemma StepPublished(feed: Feed, s: System, a: Action)
    ensures var t := Step(feed, s, a);
      t.emitted == s.emitted + EmittedBy(s, a) && Publishes(t.broker) == Publishes(s.broker) + EventsOf(EmittedBy(s, a))
  {
    StepShape(feed, s, a);
    hide Step;
    var t := Step(feed, s, a);
    if t.broker != s.broker {
      PublishesSnoc(s.broker, t.broker[|s.broker|]);
    }
  }

  lemma EventsConcat(a: seq<Emission>, b: seq<Emission>)
    ensures EventsOf(a + b) == EventsOf(a) + EventsOf(b)
  {}

  /**
   Every event that a registered wallet emits is published, stamped with the wallet's tenant and
   id and with its body, once each and in order; and nothing else is.
   */
  lemma {:induction false} EmissionsArePublished(feed: Feed, run: seq<Action>)
    ensures Run(feed, run).emitted == Emissions(feed, run)
    ensures Publishes(Run(feed, run).broker) == EventsOf(Emissions(feed, run))
  {
    if run != [] {
      var before, a := run[..|run| - 1], run[|run| - 1];
      EmissionsArePublished(feed, before);
      WalletsAreRegistered(feed, before);
      StepPublished(feed, Run(feed, before), a);
      EventsConcat(Emissions(feed, before), EmissionIn(feed, before, a));
      hide Step, Locked, Registered, EventsOf, Publishes;
      assert EmissionIn(feed, before, a) == EmittedBy(Run(feed, before), a);
    } else {
      assert EventsOf([]) == [];
    }
  }

  // ---- What a stream is owed ----

  /** Between its subscribe and its unsubscribe. */
  predicate Subscribed(s: System, k: nat) {
    k < |s.streams| && s.streams[k].phase in {Streaming, Sending, Leaving}
  }

  /** The events emitted while stream `k` was subscribed. */
  function EmittedSince(feed: Feed, run: seq<Action>, k: nat): seq<Event> {
    if run == [] then []
    else
      var before := run[..|run| - 1];
      EmittedSince(feed, before, k) +
      if Subscribed(Run(feed, before), k) then EventsOf(EmissionIn(feed, before, run[|run| - 1])) else []
  }

  function PublishedFor(s: System, k: nat): seq<Event> {
    if k < |s.streams| && s.streams[k].sub.Some? then Broker.PublishedTo(s.broker, s.streams[k].sub.value) else []
  }

  lemma PublishedSnoc(run: seq<Broker.Event<Event>>, e: Broker.Event<Event>, id: nat)
    ensures Broker.PublishedTo(run + [e], id) == Broker.PublishedTo(run, id) + Broker.PublishedIn(Broker.Run(run), e, id)
  {
    assert (run + [e])[..|run|] == run;
  }

  lemma StepPublishes(feed: Feed, s: System, a: Action, k: nat)
    requires Inv(feed, s)
    ensures PublishedFor(Step(feed, s, a), k) == PublishedFor(s, k) +
      if Subscribed(s, k) && Emits(s, a) then [Event(a.w.tenantID, a.w.walletID, a.body)] else []
  {
    StepShape(feed, s, a);
    hide Step, Authorize, Broker.PublishedTo, Broker.Step, Broker.Inv, Broker.Run;
    var t := Step(feed, s, a);
    if k < |s.streams| {
      InvStream(feed, s, k);
      if s.streams[k].sub.Some? {
        var id := s.streams[k].sub.value;
        if t.broker != s.broker {
          PublishedSnoc(s.broker, t.broker[|s.broker|], id);
        }
        assert Broker.PublishedTo(s.broker, id) + [] == Broker.PublishedTo(s.broker, id);
      } else if t.streams[k].sub.Some? {
        Broker.NothingPublishedBefore(s.broker, t.streams[k].sub.value);
        PublishedSnoc(s.broker, Broker.Subscribe, t.streams[k].sub.value);
      }
    }
  }

  lemma {:induction false} PublishedSince(feed: Feed, run: seq<Action>, k: nat)
    ensures PublishedFor(Run(feed, run), k) == EmittedSince(feed, run, k)
  {
    if run != [] {
      var before, a := run[..|run| - 1], run[|run| - 1];
      PublishedSince(feed, before, k);
      RunInv(feed, before);
      WalletsAreRegistered(feed, before);
      StepPublishes(feed, Run(feed, before), a, k);
      hide Step, Inv, PublishedFor, Locked, Subscribed;
      assert EventsOf(EmissionIn(feed, before, a)) == if Emits(Run(feed, before), a) then [Event(a.w.tenantID, a.w.walletID, a.body)] else [];
      assert EmittedSince(feed, before, k) + [] == EmittedSince(feed, before, k);
    }
  }

  /**
   A live stream that never fell more than 64 events behind misses nothing: what it has sent, has
   in hand and will send from its buffer or from the publish under way is exactly the matching
   events that registered wallets emitted since it subscribed, in order.
   */
  lemma LosslessStream(feed: Feed, run: seq<Action>, k: nat)
    requires var s := Run(feed, run);
      && k < |s.streams| && Live(s.streams[k]) && s.streams[k].sub.Some?
      && Broker.KeepsUp(s.broker, s.streams[k].sub.value)
    ensures var s := Run(feed, run);
      var scope, id := s.streams[k].scope, s.streams[k].sub.value;
      s.streams[k].sent + s.streams[k].unsent
      + Selected(scope, Broker.Buffered(s.broker, id)) + Selected(scope, Broker.PendingFor(Broker.Run(s.broker), id))
        == Selected(scope, EmittedSince(feed, run, k))
  {
    hide Run, Broker.PendingFor, Broker.PublishedTo, Broker.Buffered, Selected, EmittedSince;
    NothingPublishedIsMissed(feed, run, k);
    PublishedSince(feed, run, k);
  }

  // ---- Who gets in, and what is sent ----

  /** Stream `k` came with an Arrive of the run, was authorized then, and keeps that request. */
  ghost predicate ArrivedAt(feed: Feed, run: seq<Action>, k: nat, n: nat)
    requires k < |Run(feed, run).streams|
  {
    && n < |run| && k == |Run(feed, run[..n]).streams|
    && var st, s := Run(feed, run).streams[k], Run(feed, run[..n]);
       && run[n] == Arrive(st.scope, st.headers, st.admittedAt)
       && st.registered == Keys(s.wallets)
       && Authorize(feed.auth, Keys(s.wallets), st.admittedAt, CallOf(feed, st)).Ok?
  }

  /** Exactly the authorized requests become streams. */
  lemma ArriveExact(feed: Feed, s: System, scope: Scope, headers: Option<seq<string>>, now: int)
    ensures var t := Step(feed, s, Arrive(scope, headers, now));
      var keys := set w | w in s.wallets :: WalletKey(w.tenantID, w.walletID);
      if Authorize(feed.auth, keys, now, Call(MethodName(feed.topic), Some(scope), headers)).Ok?
      then t == s.(streams := s.streams + [Stream(scope, headers, keys, now, Admitted, None, [], [])])
      else t == s
  {
    hide Authorize;
  }

  lemma StepKeepsRequests(feed: Feed, s: System, a: Action)
    ensures var t := Step(feed, s, a);
      && |s.streams| <= |t.streams| <= |s.streams| + 1 && (|t.streams| > |s.streams| ==> a.Arrive?)
      && forall k | 0 <= k < |s.streams| ::
           && t.streams[k].scope == s.streams[k].scope && t.streams[k].headers == s.streams[k].headers
           && t.streams[k].registered == s.streams[k].registered && t.streams[k].admittedAt == s.streams[k].admittedAt
  {
    hide Authorize, Broker.Run, Broker.BufferOf;
  }

  lemma {:induction false} StreamIsItsRequest(feed: Feed, run: seq<Action>, k: nat) returns (n: nat)
    requires k < |Run(feed, run).streams|
    ensures ArrivedAt(feed, run, k, n)
  {
    hide Authorize;
    var before, a := run[..|run| - 1], run[|run| - 1];
    var s := Run(feed, before);
    StepKeepsRequests(feed, s, a);
    if k < |s.streams| {
      hide Step;
      n := StreamIsItsRequest(feed, before, k);
      assert before[..n] == run[..n];
    } else {
      n := |run| - 1;
      ArriveExact(feed, s, a.scope, a.headers, a.now);
    }
  }

  /** The handler's own check: a stream subscribes if and only if its request is still authorized. */
  lemma StartExact(feed: Feed, run: seq<Action>, k: nat, at: int)
    requires k < |Run(feed, run).streams| && Run(feed, run).streams[k].phase == Admitted && !Locked(Run(feed, run))
    ensures var s := Run(feed, run);
      var t, st := Step(feed, s, Start(k, at)), s.streams[k];
      if Authorize(feed.auth, Keys(s.wallets), at, CallOf(feed, st)).Ok?
      then t.streams[k] == st.(phase := Streaming, sub := Some(Broker.Run(s.broker).nextID))
        && Broker.Run(s.broker).nextID in Broker.Run(t.broker).subs
      else t.streams[k] == st.(phase := Gone) && t.broker == s.broker
  {
    hide Authorize, Run, Broker.Step, Broker.Inv, Broker.Run;
    var b := Run(feed, run).broker;
    Broker.RunSnoc(b, Broker.Subscribe);
    Broker.RunInv(b);
    Broker.BufferStep(Broker.Run(b), Broker.Subscribe, Broker.Run(b).nextID);
  }

  // ---- The sends of a stream ----

  function SendIn(s: System, a: Action, k: nat): seq<bool> {
    if a.Send? && a.k == k && k < |s.streams| && s.streams[k].phase == Sending && s.streams[k].sub.Some? then [a.sendOk] else []
  }

  /** The results of the sends that stream `k` made in the run. */
  function Sends(feed: Feed, run: seq<Action>, k: nat): seq<bool> {
    if run == [] then []
    else Sends(feed, run[..|run| - 1], k) + SendIn(Run(feed, run[..|run| - 1]), run[|run| - 1], k)
  }

  /** The last send failed, and its event is left in hand. */
  predicate Failed(st: Stream) {
    st.phase != Sending && st.unsent != []
  }

  /** As many sends that worked as events went out, and one that failed if one is left in hand. */
  function ResultsOf(s: System, k: nat): seq<bool> {
    if k < |s.streams| then Results(|s.streams[k].sent|, Failed(s.streams[k])) else []
  }

  function Results(sent: nat, failed: bool): seq<bool> {
    seq(sent, i => true) + if failed then [false] else []
  }

  lemma StepSent(feed: Feed, s: System, a: Action, k: nat)
    requires Inv(feed, s) && k < |s.streams|
    ensures var t, st := Step(feed, s, a), s.streams[k];
      && k < |t.streams|
      && (if SendIn(s, a, k) == [] then |t.streams[k].sent| == |st.sent| && Failed(t.streams[k]) == Failed(st)
          else !Failed(st) && |t.streams[k].sent| == |st.sent| + (if a.sendOk then 1 else 0) && Failed(t.streams[k]) == !a.sendOk)
  {
    InvStream(feed, s, k);
    hide Inv, Step;
    match a
    case Send(_, _) => SendSent(feed, s, a, k);
    case Take(_) => TakeSent(feed, s, a, k);
    case _ => OtherSent(feed, s, a, k);
  }

  lemma SendSent(feed: Feed, s: System, a: Action, k: nat)
    requires k < |s.streams| && a.Send? && |s.streams[k].unsent| <= 1 && (s.streams[k].phase == Sending ==> s.streams[k].unsent != [])
    ensures var t, st := Step(feed, s, a), s.streams[k];
      && k < |t.streams|
      && (if SendIn(s, a, k) == [] then t.streams[k] == st
          else !Failed(st) && |t.streams[k].sent| == |st.sent| + (if a.sendOk then 1 else 0) && Failed(t.streams[k]) == !a.sendOk)
  {
    hide Authorize, Broker.Run, Broker.BufferOf;
  }

  lemma TakeSent(feed: Feed, s: System, a: Action, k: nat)
    requires k < |s.streams| && a.Take? && (s.streams[k].phase == Streaming ==> s.streams[k].unsent == [])
    ensures var t, st := Step(feed, s, a), s.streams[k];
      k < |t.streams| && t.streams[k].sent == st.sent && Failed(t.streams[k]) == Failed(st)
  {
    hide Authorize, Broker.Run, Broker.BufferOf, Keep;
  }

  lemma OtherSent(feed: Feed, s: System, a: Action, k: nat)
    requires k < |s.streams| && !a.Send? && !a.Take? && (s.streams[k].sub.None? ==> s.streams[k].unsent == [])
    requires (s.streams[k].phase == Streaming ==> s.streams[k].unsent == [])
    ensures var t, st := Step(feed, s, a), s.streams[k];
      k < |t.streams| && |t.streams[k].sent| == |st.sent| && Failed(t.streams[k]) == Failed(st)
  {
    hide Authorize, Broker.Run, Broker.BufferOf, Keep;
  }

  lemma StepSends(feed: Feed, s: System, a: Action, k: nat)
    requires Inv(feed, s)
    ensures ResultsOf(Step(feed, s, a), k) == ResultsOf(s, k) + SendIn(s, a, k)
  {
    StepShape(feed, s, a);
    if k < |s.streams| {
      StepSent(feed, s, a, k);
      hide Step, Inv, Failed;
    } else {
      if k < |Step(feed, s, a).streams| {
        NewStreams(feed, s, a, k);
      }
      hide Step, Inv;
    }
  }

  lemma NewStreams(feed: Feed, s: System, a: Action, k: nat)
    requires |s.streams| <= k < |Step(feed, s, a).streams|
    ensures var st := Step(feed, s, a).streams[k]; st.sent == [] && !Failed(st)
  {
    hide Authorize, Broker.Run, Broker.BufferOf;
  }

  lemma {:induction false} SendsAreResults(feed: Feed, run: seq<Action>, k: nat)
    ensures Sends(feed, run, k) == ResultsOf(Run(feed, run), k)
  {
    if run != [] {
      RunInv(feed, run[..|run| - 1]);
      SendsAreResults(feed, run[..|run| - 1], k);
      StepSends(feed, Run(feed, run[..|run| - 1]), run[|run| - 1], k);
      hide Step, Inv, ResultsOf, SendIn;
    }
  }

  /** The n-th send worked. */
  function Nth(sends: seq<bool>): nat -> bool {
    (n: nat) => n < |sends| && sends[n]
  }

  /**
   However the wallets, the other streams and the client interleave, a stream that is not inside a
   send has sent what its loop sends when run on its own over the events it received, each send
   ending as it did in the run.
   */
  lemma InterleavingRefinesLoop(feed: Feed, run: seq<Action>, k: nat)
    requires var streams := Run(feed, run).streams;
      k < |streams| && streams[k].sub.Some? && streams[k].phase != Sending
    ensures var s, st := Run(feed, run), Run(feed, run).streams[k];
      Relayed(st.scope, Broker.Received(s.broker, st.sub.value), Nth(Sends(feed, run, k)), st.sent, st.unsent == [])
  {
    hide Run, Sends, Selected, Broker.Received;
    StreamSendsMatching(feed, run, k);
    SendsAreResults(feed, run, k);
  }

  // ---- Streams that leave ----

  /**
   A stream is subscribed exactly while it is inside its loop or about to leave; once it has left,
   its subscription is gone, and in the end its channel is closed.
   */
  lemma DepartedIsUnsubscribed(feed: Feed, run: seq<Action>, k: nat)
    requires k < |Run(feed, run).streams| && Run(feed, run).streams[k].sub.Some?
    ensures var s := Run(feed, run);
      var b, id := Broker.Run(s.broker), s.streams[k].sub.value;
      && (id in b.subs <==> s.streams[k].phase in {Streaming, Sending, Leaving})
      && (s.streams[k].phase == Gone ==> id in b.chans && b.chans[id].closed)
  {
    hide Run, Authorize, Broker.Run, Broker.Received, Selected;
    RunInv(feed, run);
    InvStream(feed, Run(feed, run), k);
    hide Inv;
  }

  /** A stream leaves its loop if and only if its context ends while it waits, or a send of its own fails. */
  lemma LeavesExactly(feed: Feed, run: seq<Action>, k: nat, a: Action)
    requires k < |Run(feed, run).streams| && Live(Run(feed, run).streams[k])
    ensures var s, t := Run(feed, run), Step(feed, Run(feed, run), a);
      k < |t.streams| &&
      (!Live(t.streams[k]) <==>
        || (a == Cancel(k) && s.streams[k].phase == Streaming)
        || (a == Send(k, false) && s.streams[k].phase == Sending))
  {
    hide Run, Authorize, Keep, Broker.Run, Broker.BufferOf, Broker.Received, Selected;
    RunInv(feed, run);
    InvStream(feed, Run(feed, run), k);
    if Run(feed, run).streams[k].phase == Streaming {
      NeverClosedWhileStreaming(feed, run, k);
    }
    hide Inv;
  }

  /** A stream whose context ends while it waits leaves the broker and closes its channel. */
  lemma CancelledLeaves(feed: Feed, run: seq<Action>, k: nat)
    requires k < |Run(feed, run).streams| && Run(feed, run).streams[k].phase == Streaming
    requires Run(feed, run).streams[k].sub.Some? && !Locked(Run(feed, run))
    ensures var s := Run(feed, run);
      var t := Run(feed, run + [Cancel(k)] + [Unregister(k)] + [CloseChannel(k)]);
      var b, id := Broker.Run(t.broker), s.streams[k].sub.value;
      && k < |t.streams| && t.streams[k] == s.streams[k].(phase := Gone)
      && id !in b.subs && id in b.chans && b.chans[id].closed
  {
    hide Authorize, Broker.Run;
    var s := Run(feed, run);
    var a := run + [Cancel(k)];
    var b := a + [Unregister(k)];
    assert a[..|run|] == run && b[..|a|] == a && (b + [CloseChannel(k)])[..|b|] == b;
    assert Run(feed, a) == Update(s, k, s.streams[k].(phase := Leaving), []);
    assert Run(feed, a).broker == s.broker;
    assert Run(feed, b).streams[k].phase == Closing;
    DepartedIsUnsubscribed(feed, b + [CloseChannel(k)], k);
  }

  // ---- A delivery that nothing interrupts ----

  function RelayTo(feed: Feed, s: System, order: seq<nat>): System {
    if order == [] then s
    else Step(feed, RelayTo(feed, s, order[..|order| - 1]), Relay(order[|order| - 1]))
  }

  lemma {:induction false} RelaysAreSends(feed: Feed, s: System, t: System, v: Event, order: seq<nat>)
    requires t.broker == s.broker + [Broker.Publish(v)]
    ensures var u := RelayTo(feed, t, order);
      u == t.(broker := u.broker) && Broker.Run(u.broker) == Broker.SendTo(Broker.Run(s.broker), v, order)
  {
    if order == [] {
      Broker.RunSnoc(s.broker, Broker.Publish(v));
    } else {
      hide Authorize, Broker.Step, Broker.Run;
      var front := order[..|order| - 1];
      RelaysAreSends(feed, s, t, v, front);
      Broker.RunSnoc(RelayTo(feed, t, front).broker, Broker.Deliver(order[|order| - 1]));
    }
  }

  /** A wallet's callback from taking the lock to releasing it, with the subscribers served in some order. */
  function Uninterrupted(feed: Feed, s: System, w: Wallet, body: string, order: seq<nat>): System {
    Step(feed, RelayTo(feed, Step(feed, s, Emit(w, body)), order), EndEmit)
  }

  /** An uninterrupted emission of a registered wallet reaches every subscriber with room, and frees the lock. */
  lemma EmissionReachesAll(feed: Feed, run: seq<Action>, w: Wallet, body: string, order: seq<nat>)
    requires var s := Run(feed, run);
      && w in s.wallets && !Locked(s)
      && (forall i, j | 0 <= i < j < |order| :: order[i] != order[j]) && Broker.Members(order) == Broker.Run(s.broker).subs
    ensures var s, t := Run(feed, run), Uninterrupted(feed, Run(feed, run), w, body, order);
      && Broker.Run(t.broker) == Broker.PublishAll(Broker.Run(s.broker), Event(w.tenantID, w.walletID, body))
      && t.streams == s.streams && t.wallets == s.wallets && !Locked(t)
  {
    hide Run, Authorize, Broker.Step, Broker.Inv, Broker.Run, Broker.Members, Broker.SendTo;
    var s, v := Run(feed, run), Event(w.tenantID, w.walletID, body);
    var t := Step(feed, s, Emit(w, body));
    Broker.RunInv(s.broker);
    RelaysAreSends(feed, s, t, v, order);
    Broker.AnyOrder(Broker.Run(s.broker), v, order);
    Broker.RunSnoc(RelayTo(feed, t, order).broker, Broker.Unlock);
  }

  /** A stream whose channel holds one matching event takes it and sends it. */
  lemma TakeAndSend(feed: Feed, s: System, k: nat, v: Event)
    requires At(s, k, Streaming) && s.streams[k].unsent == [] && Keep(s.streams[k].scope, v)
    requires Broker.BufferOf(Broker.Run(s.broker), s.streams[k].sub.value) == [v]
    ensures var t := Step(feed, Step(feed, s, Take(k)), Send(k, true));
      && k < |t.streams| && t.streams[k] == s.streams[k].(sent := s.streams[k].sent + [v])
      && t.broker == s.broker + [Broker.Receive(s.streams[k].sub.value)]
  {
    hide Authorize, Broker.Run, Broker.BufferOf, Keep;
    var t := Step(feed, s, Take(k));
    assert t == Update(s, k, s.streams[k].(phase := Sending, unsent := [v]), [Broker.Receive(s.streams[k].sub.value)]);
    assert Step(feed, t, Send(k, true)).broker == t.broker + [] == t.broker;
  }

  lemma ReceiveKeepsLock(run: seq<Broker.Event<Event>>, id: nat)
    ensures Broker.Run(run + [Broker.Receive(id)]).publishing == Broker.Run(run).publishing
  {
    hide Broker.Run;
    Broker.RunSnoc(run, Broker.Receive(id));
  }

  /**
   In any reachable state: an uninterrupted emission that matches a stream waiting at an empty
   channel is what the stream sends next, and the stream goes on.
   */
  lemma EmissionIsDelivered(feed: Feed, run: seq<Action>, k: nat, w: Wallet, body: string, order: seq<nat>)
    requires var s := Run(feed, run);
      && w in s.wallets && !Locked(s)
      && (forall i, j | 0 <= i < j < |order| :: order[i] != order[j]) && Broker.Members(order) == Broker.Run(s.broker).subs
      && k < |s.streams| && s.streams[k].phase == Streaming && s.streams[k].sub.Some?
      && Broker.Buffered(s.broker, s.streams[k].sub.value) == []
      && Keep(s.streams[k].scope, Event(w.tenantID, w.walletID, body))
    ensures var s := Run(feed, run);
      var t := Uninterrupted(feed, s, w, body, order);
      var u := Step(feed, Step(feed, t, Take(k)), Send(k, true));
      && k < |u.streams| && u.streams[k].sent == s.streams[k].sent + [Event(w.tenantID, w.walletID, body)]
      && u.streams[k].phase == Streaming && !Locked(u)
  {
    hide Run, Authorize, Keep, Broker.Step, Broker.Inv, Broker.Run, Broker.Members, Uninterrupted;
    EmissionReachesAll(feed, run, w, body, order);
    RunInv(feed, run);
    var s := Run(feed, run);
    var t := Uninterrupted(feed, s, w, body, order);
    InvStream(feed, s, k);
    var id := s.streams[k].sub.value;
    Broker.RunInv(s.broker);
    Broker.InvSubs(Broker.Run(s.broker));
    hide Step;
    assert Broker.BufferOf(Broker.Run(t.broker), id) == [Event(w.tenantID, w.walletID, body)];
    TakeAndSend(feed, t, k, Event(w.tenantID, w.walletID, body));
    ReceiveKeepsLock(t.broker, id);
  }
}
