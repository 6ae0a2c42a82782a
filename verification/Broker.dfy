/**
 The event broker: a lossy publish/subscribe hub shared by node callbacks and stream
 goroutines. Every atomic action of a run is an `Event`: taking the lock to publish, one
 send of the publishing loop, releasing the lock, the critical sections of `subscribe` and
 `unsubscribe`, a receive from a subscriber's channel, and the close that `unsubscribe`
 makes after it has released the lock. Receives and closes need no lock and can fall between
 two sends of one publish. A run is any sequence of events; an event that cannot happen yet
 (a receive from an empty open channel, a critical section while the lock is held) leaves
 the state alone.
 */
module Broker {
  import opened LossyChannel
  import opened Wrappers

  datatype Chan<T> = Chan(buf: seq<T>, closed: bool)

  /** The publish that holds the lock: its value, and the subscribers still to be sent it. */
  datatype Publication<T> = Publication(v: T, todo: set<nat>)

  /**
   `chans` keeps every channel ever made, since a goroutine holds on to its own;
   `closing` counts the closes owed by goroutines between the two halves of `unsubscribe`.
   `publishing` is absent when the lock is free. `panicked` records a send on a closed channel or a second close.
   */
  datatype State<T> = State(
    nextID: nat,
    subs: set<nat>,
    chans: map<nat, Chan<T>>,
    closing: multiset<nat>,
    publishing: Option<Publication<T>>,
    panicked: bool)

  datatype Event<T> =
    | Subscribe
    | Publish(v: T)
    | Deliver(id: nat)
    | Unlock
    | Receive(id: nat)
    | Delete(id: nat)
    | Close(id: nat)

  function Initial<T>(): State<T> {
    State(0, {}, map[], multiset{}, None, false)
  }

  /** A send that gives up when the buffer is full. */
  function Send<T>(c: Chan<T>, v: T): Chan<T> {
    if |c.buf| < CAPACITY then c.(buf := c.buf + [v]) else c
  }

  /** The publish under way has yet to send to this subscriber. */
  predicate Pending<T>(s: State<T>, id: nat) {
    s.publishing.Some? && id in s.publishing.value.todo && id in s.chans
  }

  function Step<T>(s: State<T>, e: Event<T>): State<T> {
    match e
    case Subscribe =>
      if s.publishing.Some? then s
      else s.(nextID := s.nextID + 1, subs := s.subs + {s.nextID}, chans := s.chans[s.nextID := Chan([], false)])
    case Publish(v) =>
      if s.publishing.Some? then s else s.(publishing := Some(Publication(v, s.subs)))
    case Deliver(id) =>
      if Pending(s, id) then
        var p := s.publishing.value;
        s.(publishing := Some(p.(todo := p.todo - {id})),
           chans := s.chans[id := Send(s.chans[id], p.v)],
           panicked := s.panicked || s.chans[id].closed)
      else s
    case Unlock =>
      if s.publishing.Some? && s.publishing.value.todo == {} then s.(publishing := None) else s
    case Receive(id) =>
      if id in s.chans && s.chans[id].buf != [] then
        s.(chans := s.chans[id := s.chans[id].(buf := s.chans[id].buf[1..])])
      else s
    case Delete(id) =>
      if id in s.subs && s.publishing.None? then s.(subs := s.subs - {id}, closing := s.closing + multiset{id}) else s
    case Close(id) =>
      if id in s.closing && id in s.chans then
        s.(closing := s.closing - multiset{id},
           chans := s.chans[id := s.chans[id].(closed := true)],
           panicked := s.panicked || s.chans[id].closed)
      else s
  }

  function Run<T>(run: seq<Event<T>>): State<T> {
    if run == [] then Initial()
    else Step(Run(run[..|run| - 1]), run[|run| - 1])
  }

  // ---- Channels are closed once, and never sent to afterwards ----

  ghost predicate Inv<T>(s: State<T>) {
    && !s.panicked
    && s.subs <= s.chans.Keys
    && (forall i | i in s.chans :: i < s.nextID)
    && (forall i | i in s.subs :: !s.chans[i].closed && i !in s.closing)
    && (forall i | i in s.closing :: i in s.chans && !s.chans[i].closed && s.closing[i] == 1)
    && (forall i | i in s.chans :: |s.chans[i].buf| <= CAPACITY)
    && (s.publishing.Some? ==> s.publishing.value.todo <= s.subs)
  }

  // What each event does, channel by channel.

  lemma SubscribeFacts<T>(s: State<T>)
    requires Inv(s) && s.publishing.None?
    ensures var next := Step(s, Subscribe);
      && Inv(next) && !next.panicked && next.closing == s.closing && next.publishing == s.publishing
      && next.nextID == s.nextID + 1 && next.subs == s.subs + {s.nextID}
      && s.nextID !in s.chans && next.chans.Keys == s.chans.Keys + {s.nextID} && next.chans[s.nextID] == Chan([], false)
      && forall i | i in s.chans :: next.chans[i] == s.chans[i]
  {}

  lemma PublishFacts<T>(s: State<T>, v: T)
    requires Inv(s) && s.publishing.None?
    ensures var next := Step(s, Publish(v));
      Inv(next) && next == s.(publishing := Some(Publication(v, s.subs)))
  {}

  lemma DeliverFacts<T>(s: State<T>, id: nat)
    requires Inv(s) && Pending(s, id)
    ensures id in s.subs && !s.chans[id].closed
    ensures var next := Step(s, Deliver(id));
      && Inv(next) && !next.panicked && next.closing == s.closing
      && next.publishing == Some(Publication(s.publishing.value.v, s.publishing.value.todo - {id}))
      && next.nextID == s.nextID && next.subs == s.subs && next.chans.Keys == s.chans.Keys
      && forall i | i in s.chans :: next.chans[i] == if i == id then Send(s.chans[i], s.publishing.value.v) else s.chans[i]
  {}

  lemma UnlockFacts<T>(s: State<T>)
    requires Inv(s)
    ensures var next := Step(s, Unlock);
      && Inv(next)
      && next == if s.publishing.Some? && s.publishing.value.todo == {} then s.(publishing := None) else s
  {}

  lemma DeleteFacts<T>(s: State<T>, id: nat)
    requires Inv(s) && s.publishing.None?
    ensures var next := Step(s, Delete(id));
      && Inv(next) && !next.panicked && next.publishing == s.publishing
      && next.closing == (if id in s.subs then s.closing + multiset{id} else s.closing)
      && next.nextID == s.nextID && next.subs == s.subs - {id} && next.chans == s.chans
  {}

  lemma CloseFacts<T>(s: State<T>, id: nat)
    requires Inv(s) && id in s.closing
    ensures var next := Step(s, Close(id));
      && Inv(next) && !next.panicked && next.closing == s.closing - multiset{id} && next.publishing == s.publishing
      && next.nextID == s.nextID && next.subs == s.subs && next.chans.Keys == s.chans.Keys
      && forall i | i in s.chans :: next.chans[i] == if i == id then s.chans[i].(closed := true) else s.chans[i]
  {}

  lemma ReceiveFacts<T>(s: State<T>, id: nat)
    requires Inv(s) && id in s.chans
    ensures var next := Step(s, Receive(id));
      && Inv(next) && !next.panicked && next.closing == s.closing && next.publishing == s.publishing
      && next.nextID == s.nextID && next.subs == s.subs && next.chans.Keys == s.chans.Keys
      && forall i | i in s.chans :: next.chans[i] ==
          if i == id && s.chans[i].buf != [] then s.chans[i].(buf := s.chans[i].buf[1..]) else s.chans[i]
  {}

  /** The critical sections of `subscribe`, `publish` and `unsubscribe` wait for the lock. */
  predicate Blocked<T>(s: State<T>, e: Event<T>) {
    s.publishing.Some? && (e.Subscribe? || e.Publish? || e.Delete?)
  }

  lemma BlockedFacts<T>(s: State<T>, e: Event<T>)
    requires Blocked(s, e)
    ensures Step(s, e) == s
  {}

  lemma StepKeepsInv<T>(s: State<T>, e: Event<T>)
    requires Inv(s)
    ensures Inv(Step(s, e))
  {
    if Blocked(s, e) {
      BlockedFacts(s, e);
    } else {
      match e
      case Subscribe => SubscribeFacts(s);
      case Publish(v) => PublishFacts(s, v);
      case Deliver(id) => if Pending(s, id) { DeliverFacts(s, id); }
      case Unlock => UnlockFacts(s);
      case Receive(id) => if id in s.chans { ReceiveFacts(s, id); }
      case Delete(id) => DeleteFacts(s, id);
      case Close(id) => if id in s.closing { CloseFacts(s, id); }
    }
  }

  lemma {:induction false} RunInv<T>(run: seq<Event<T>>)
    ensures Inv(Run(run))
  {
    if run != [] {
      RunInv(run[..|run| - 1]);
      StepKeepsInv(Run(run[..|run| - 1]), run[|run| - 1]);
    }
  }

  /**
   No run sends on a closed channel or closes one twice: subscribed channels are open, a
   closed channel has left the subscriptions, no buffer outgrows its capacity, and an id
   once handed out is never handed out again.
   */
  lemma NoPanic<T>(run: seq<Event<T>>)
    ensures !Run(run).panicked
    ensures forall i | i in Run(run).subs :: i in Run(run).chans && !Run(run).chans[i].closed
    ensures forall i | i in Run(run).chans :: |Run(run).chans[i].buf| <= CAPACITY
    ensures Run(run).nextID !in Run(run).chans
  {
    RunInv(run);
  }

  // ---- What one subscriber is offered, keeps and receives ----

  function BufferOf<T>(s: State<T>, id: nat): seq<T> {
    if id in s.chans then s.chans[id].buf else []
  }

  function OfferIn<T>(s: State<T>, e: Event<T>, id: nat): seq<Offer<T>> {
    if e == Deliver(id) && Pending(s, id) then [Offer(s.publishing.value.v, |BufferOf(s, id)| < CAPACITY)] else []
  }

  function ReceivedIn<T>(s: State<T>, e: Event<T>, id: nat): seq<T> {
    if e == Receive(id) && BufferOf(s, id) != [] then [BufferOf(s, id)[0]] else []
  }

  function Buffered<T>(run: seq<Event<T>>, id: nat): seq<T> {
    BufferOf(Run(run), id)
  }

  function Offers<T>(run: seq<Event<T>>, id: nat): seq<Offer<T>> {
    if run == [] then []
    else Offers(run[..|run| - 1], id) + OfferIn(Run(run[..|run| - 1]), run[|run| - 1], id)
  }

  function Received<T>(run: seq<Event<T>>, id: nat): seq<T> {
    if run == [] then []
    else Received(run[..|run| - 1], id) + ReceivedIn(Run(run[..|run| - 1]), run[|run| - 1], id)
  }

  lemma RunSnoc<T>(run: seq<Event<T>>, e: Event<T>)
    ensures Run(run + [e]) == Step(Run(run), e)
    ensures forall id: nat :: Offers(run + [e], id) == Offers(run, id) + OfferIn(Run(run), e, id)
    ensures forall id: nat :: Received(run + [e], id) == Received(run, id) + ReceivedIn(Run(run), e, id)
  {
    assert (run + [e])[..|run|] == run;
  }

  lemma BufferAfter<T>(s: State<T>, e: Event<T>, id: nat)
    requires Inv(s)
    ensures BufferOf(Step(s, e), id) ==
      var buf := BufferOf(s, id);
      if e == Deliver(id) && Pending(s, id) && |buf| < CAPACITY then buf + [s.publishing.value.v]
      else if e == Receive(id) && buf != [] then buf[1..]
      else buf
  {
    hide Inv, Step;
    if Blocked(s, e) {
      BlockedFacts(s, e);
    } else {
      match e
      case Subscribe => SubscribeFacts(s);
      case Publish(v) => PublishFacts(s, v);
      case Deliver(i) => if Pending(s, i) { DeliverFacts(s, i); } else { IdleFacts(s, e); }
      case Unlock => UnlockFacts(s);
      case Receive(i) => if i in s.chans { ReceiveFacts(s, i); } else { IdleFacts(s, e); }
      case Delete(i) => DeleteFacts(s, i);
      case Close(i) => if i in s.closing { CloseFacts(s, i); } else { IdleFacts(s, e); }
    }
  }

  lemma MembersAfter<T>(s: State<T>, e: Event<T>, id: nat)
    ensures id in Step(s, e).chans <==> id in s.chans || (e.Subscribe? && !Blocked(s, e) && id == s.nextID)
    ensures id in Step(s, e).subs <==>
      (e.Subscribe? && !Blocked(s, e) && id == s.nextID) || (id in s.subs && (e != Delete(id) || Blocked(s, e)))
    ensures Step(s, e).nextID == if e.Subscribe? && !Blocked(s, e) then s.nextID + 1 else s.nextID
  {
    hide Send;
  }

  /** What an event does to one subscriber. */
  lemma BufferStep<T>(s: State<T>, e: Event<T>, id: nat)
    requires Inv(s)
    ensures BufferOf(Step(s, e), id) ==
      var buf := BufferOf(s, id);
      if e == Deliver(id) && Pending(s, id) && |buf| < CAPACITY then buf + [s.publishing.value.v]
      else if e == Receive(id) && buf != [] then buf[1..]
      else buf
    ensures id in Step(s, e).chans <==> id in s.chans || (e.Subscribe? && !Blocked(s, e) && id == s.nextID)
    ensures id in Step(s, e).subs <==>
      (e.Subscribe? && !Blocked(s, e) && id == s.nextID) || (id in s.subs && (e != Delete(id) || Blocked(s, e)))
    ensures s.nextID !in s.chans
    ensures Step(s, e).nextID == if e.Subscribe? && !Blocked(s, e) then s.nextID + 1 else s.nextID
    ensures Pending(s, id) ==> id in s.subs
  {
    hide Inv, Step, BufferOf, Pending, Blocked;
    InvRanges(s, id);
    BufferAfter(s, e, id);
    MembersAfter(s, e, id);
  }

  /** Which closes are owed, and which channels are closed. */
  lemma ClosingAfter<T>(s: State<T>, e: Event<T>, id: nat)
    requires Inv(s)
    ensures id in Step(s, e).closing <==>
      (id in s.closing && e != Close(id)) || (e == Delete(id) && id in s.subs && !Blocked(s, e))
    ensures ClosedIn(Step(s, e), id) <==> ClosedIn(s, id) || (e == Close(id) && id in s.closing)
    ensures id in s.subs ==> !ClosedIn(s, id) && id !in s.closing
  {
    ClosingOnce(s, id);
    hide Inv, Step, Send, Pending;
    if Blocked(s, e) {
      BlockedFacts(s, e);
    } else {
      match e
      case Subscribe => SubscribeFacts(s);
      case Publish(v) => PublishFacts(s, v);
      case Deliver(i) => if Pending(s, i) { DeliverFacts(s, i); } else { IdleFacts(s, e); }
      case Unlock => UnlockFacts(s);
      case Receive(i) => if i in s.chans { ReceiveFacts(s, i); } else { IdleFacts(s, e); }
      case Delete(i) => DeleteFacts(s, i);
      case Close(i) => if i in s.closing { CloseFacts(s, i); } else { IdleFacts(s, e); }
    }
  }

  lemma ClosingOnce<T>(s: State<T>, id: nat)
    requires Inv(s)
    ensures id in s.closing ==> s.closing[id] == 1 && id in s.chans && !s.chans[id].closed
    ensures id in s.subs ==> id in s.chans && !ClosedIn(s, id) && id !in s.closing
  {}

  predicate ClosedIn<T>(s: State<T>, id: nat) {
    id in s.chans && s.chans[id].closed
  }

  /** An event that cannot happen. */
  lemma IdleFacts<T>(s: State<T>, e: Event<T>)
    requires || (e.Deliver? && !Pending(s, e.id))
             || (e.Receive? && e.id !in s.chans)
             || (e.Close? && e.id !in s.closing)
    ensures Step(s, e) == s
  {}

  lemma InvRanges<T>(s: State<T>, id: nat)
    requires Inv(s)
    ensures s.nextID !in s.chans && (Pending(s, id) ==> id in s.subs)
  {}

  lemma StepAccounting<T>(s: State<T>, e: Event<T>, id: nat)
    requires Inv(s)
    ensures ReceivedIn(s, e, id) + BufferOf(Step(s, e), id) == BufferOf(s, id) + Kept(OfferIn(s, e, id))
  {
    hide Inv, Step;
    BufferStep(s, e, id);
    var offer, buf := OfferIn(s, e, id), BufferOf(s, id);
    if offer != [] {
      assert offer[..0] == [];
    }
    if e == Receive(id) && buf != [] {
      assert buf == [buf[0]] + buf[1..];
    }
  }

  lemma Regroup<T>(a: seq<T>, b: seq<T>, c: seq<T>, d: seq<T>, e: seq<T>)
    requires b + c == d + e
    ensures (a + b) + c == (a + d) + e
  {
    assert (a + b) + c == a + (b + c);
    assert (a + d) + e == a + (d + e);
  }

  /**
   First in, first out, with exact accounting: what a subscriber received, followed by what
   waits in its buffer, is exactly what was sent to it while its buffer had room, in order;
   and every send was received, is buffered or was dropped.
   */
  lemma {:induction false} DeliveryAccounting<T>(run: seq<Event<T>>, id: nat)
    ensures Received(run, id) + Buffered(run, id) == Kept(Offers(run, id))
    ensures |Offers(run, id)| == |Received(run, id)| + |Buffered(run, id)| + |Dropped(Offers(run, id))|
  {
    KeptPlusDropped(Offers(run, id));
    if run != [] {
      var before, last := run[..|run| - 1], run[|run| - 1];
      var s := Run(before);
      RunInv(before);
      DeliveryAccounting(before, id);
      StepAccounting(s, last, id);
      KeptSnoc(Offers(before, id), OfferIn(s, last, id));
      Regroup(Received(before, id), ReceivedIn(s, last, id), Buffered(run, id), BufferOf(s, id), Kept(OfferIn(s, last, id)));
    }
  }

  lemma {:induction false} NothingBeforeSubscribing<T>(run: seq<Event<T>>, id: nat)
    requires id >= Run(run).nextID
    ensures Received(run, id) == [] && Offers(run, id) == []
  {
    if run != [] {
      hide Step, Inv;
      var before, last := run[..|run| - 1], run[|run| - 1];
      RunInv(before);
      BufferStep(Run(before), last, id);
      IDsInRange(Run(before), id);
      NothingBeforeSubscribing(before, id);
    }
  }

  lemma IDsInRange<T>(s: State<T>, id: nat)
    requires Inv(s) && id >= s.nextID
    ensures id !in s.chans && id !in s.subs
  {}

  lemma StepPublishing<T>(s: State<T>, e: Event<T>)
    requires Inv(s)
    ensures var next := Step(s, e);
      next.publishing.Some? ==>
        if s.publishing.Some? then next.publishing.value.v == s.publishing.value.v else e == Publish(next.publishing.value.v)
  {}

  /** Nothing reaches a subscriber that was not published. */
  lemma {:induction false} ReceivedWasPublished<T>(run: seq<Event<T>>, id: nat)
    ensures forall v | v in Received(run, id) || v in Buffered(run, id) :: Publish(v) in run
    ensures Run(run).publishing.Some? ==> Publish(Run(run).publishing.value.v) in run
  {
    if run != [] {
      hide Step, Inv;
      var before, last := run[..|run| - 1], run[|run| - 1];
      RunInv(before);
      ReceivedWasPublished(before, id);
      BufferStep(Run(before), last, id);
      StepPublishing(Run(before), last);
      assert last in run && forall e | e in before :: e in run;
    }
  }

  // ---- Every publish reaches every subscriber ----

  function PublishedIn<T>(s: State<T>, e: Event<T>, id: nat): seq<T> {
    if e.Publish? && !Blocked(s, e) && id in s.subs then [e.v] else []
  }

  /** The values whose publish took the lock while the subscriber was registered. */
  function PublishedTo<T>(run: seq<Event<T>>, id: nat): seq<T> {
    if run == [] then []
    else PublishedTo(run[..|run| - 1], id) + PublishedIn(Run(run[..|run| - 1]), run[|run| - 1], id)
  }

  lemma {:induction false} NothingPublishedBefore<T>(run: seq<Event<T>>, id: nat)
    requires id >= Run(run).nextID
    ensures PublishedTo(run, id) == []
  {
    if run != [] {
      hide Step, Inv;
      var before, last := run[..|run| - 1], run[|run| - 1];
      RunInv(before);
      BufferStep(Run(before), last, id);
      IDsInRange(Run(before), id);
      NothingPublishedBefore(before, id);
    }
  }

  /** What the publish under way has yet to send to this subscriber. */
  function PendingFor<T>(s: State<T>, id: nat): seq<T> {
    if Pending(s, id) then [s.publishing.value.v] else []
  }

  lemma StepPending<T>(s: State<T>, e: Event<T>, id: nat)
    requires Inv(s)
    ensures Values(OfferIn(s, e, id)) + PendingFor(Step(s, e), id) == PendingFor(s, id) + PublishedIn(s, e, id)
  {
    BufferStep(s, e, id);
    var offer := OfferIn(s, e, id);
    if offer != [] {
      assert offer[..0] == [];
    }
  }

  /**
   The loop of publish misses nobody and sends to nobody twice: what was sent to a subscriber,
   and what the publish under way has yet to send to it, is exactly what was published while it
   was registered, each value once and in order.
   */
  lemma {:induction false} EveryPublishIsSent<T>(run: seq<Event<T>>, id: nat)
    ensures Values(Offers(run, id)) + PendingFor(Run(run), id) == PublishedTo(run, id)
  {
    if run != [] {
      hide Step, Inv, PendingFor, PublishedIn, OfferIn;
      var before, last := run[..|run| - 1], run[|run| - 1];
      var s := Run(before);
      RunInv(before);
      EveryPublishIsSent(before, id);
      StepPending(s, last, id);
      OneOffer(s, last, id);
      ValuesSnoc(Offers(before, id), OfferIn(s, last, id));
      Regroup(Values(Offers(before, id)), Values(OfferIn(s, last, id)), PendingFor(Run(run), id), PendingFor(s, id), PublishedIn(s, last, id));
    }
  }

  lemma OneOffer<T>(s: State<T>, e: Event<T>, id: nat)
    ensures |OfferIn(s, e, id)| <= 1
  {}

  // ---- Subscribers do not affect one another ----

  /** The events of a run as one subscriber sees them: the sends to it and its own actions. */
  datatype Local<T> = Join | Heard(v: T) | Take | Leave

  datatype Single<T> = Single(joined: bool, live: bool, buf: seq<T>, taken: seq<T>)

  /** A queue with a single consumer, on its own. */
  function SingleStep<T>(s: Single<T>, e: Local<T>): Single<T> {
    match e
    case Join => s.(joined := true, live := true, buf := [])
    case Heard(v) => if |s.buf| < CAPACITY then s.(buf := s.buf + [v]) else s
    case Take => if s.buf != [] then s.(buf := s.buf[1..], taken := s.taken + [s.buf[0]]) else s
    case Leave => s.(live := false)
  }

  function SingleRun<T>(run: seq<Local<T>>): Single<T> {
    if run == [] then Single(false, false, [], [])
    else SingleStep(SingleRun(run[..|run| - 1]), run[|run| - 1])
  }

  function ProjectIn<T>(s: State<T>, e: Event<T>, id: nat): seq<Local<T>> {
    match e
    case Subscribe => if !Blocked(s, e) && s.nextID == id then [Join] else []
    case Deliver(i) => if i == id && Pending(s, id) then [Heard(s.publishing.value.v)] else []
    case Receive(i) => if i == id then [Take] else []
    case Delete(i) => if i == id && id in s.subs && !Blocked(s, e) then [Leave] else []
    case _ => []
  }

  function Project<T>(run: seq<Event<T>>, id: nat): seq<Local<T>> {
    if run == [] then []
    else Project(run[..|run| - 1], id) + ProjectIn(Run(run[..|run| - 1]), run[|run| - 1], id)
  }

  lemma SingleRunSnoc<T>(run: seq<Local<T>>, more: seq<Local<T>>)
    requires |more| <= 1
    ensures SingleRun(run + more) == if more == [] then SingleRun(run) else SingleStep(SingleRun(run), more[0])
  {
    if more == [] {
      assert run + more == run;
    } else {
      assert (run + more)[..|run|] == run;
    }
  }

  /** One subscriber's share of the broker's state. */
  function Share<T>(s: State<T>, id: nat, received: seq<T>): Single<T> {
    Single(id in s.chans, id in s.subs, BufferOf(s, id), received)
  }

  lemma StepRefines<T>(s: State<T>, e: Event<T>, id: nat, received: seq<T>)
    requires Inv(s)
    ensures var local := ProjectIn(s, e, id);
      Share(Step(s, e), id, received + ReceivedIn(s, e, id))
      == if local == [] then Share(s, id, received) else SingleStep(Share(s, id, received), local[0])
  {
    hide Inv, Step;
    BufferStep(s, e, id);
    assert received + [] == received;
  }

  lemma OneProjected<T>(s: State<T>, e: Event<T>, id: nat)
    ensures |ProjectIn(s, e, id)| <= 1
  {}

  /** The shared broker gives each subscriber exactly what a private single-consumer queue would. */
  lemma {:induction false} BrokerRefinesSingle<T>(run: seq<Event<T>>, id: nat)
    ensures SingleRun(Project(run, id)) == Share(Run(run), id, Received(run, id))
  {
    if run != [] {
      var before, last := run[..|run| - 1], run[|run| - 1];
      var s, received := Run(before), Received(before, id);
      var more := ProjectIn(s, last, id);
      RunInv(before);
      BrokerRefinesSingle(before, id);
      StepRefines(s, last, id, received);
      OneProjected(s, last, id);
      SingleRunSnoc(Project(before, id), more);
      hide Step, Inv, SingleStep, ProjectIn, ReceivedIn, Share, SingleRun;
      assert Project(run, id) == Project(before, id) + more;
      assert Run(run) == Step(s, last) && Received(run, id) == received + ReceivedIn(s, last, id);
    }
  }

  /**
   Two runs that agree on what is sent to one subscriber and on its own actions give it the
   same values, whatever the other subscribers do in between.
   */
  lemma SubscribersIndependent<T>(run1: seq<Event<T>>, id1: nat, run2: seq<Event<T>>, id2: nat)
    requires Project(run1, id1) == Project(run2, id2)
    ensures Received(run1, id1) == Received(run2, id2)
    ensures Buffered(run1, id1) == Buffered(run2, id2)
  {
    BrokerRefinesSingle(run1, id1);
    BrokerRefinesSingle(run2, id2);
  }

  // ---- When nothing is lost ----

  /** At every moment the subscriber is at most one buffer behind the publishers. */
  ghost predicate KeepsUp<T>(run: seq<Event<T>>, id: nat) {
    forall n | 0 <= n <= |run| :: |Offers(run[..n], id)| - |Received(run[..n], id)| <= CAPACITY
  }

  lemma KeepsUpPrefix<T>(run: seq<Event<T>>, id: nat)
    requires run != []
    ensures KeepsUp(run, id)
       <==> KeepsUp(run[..|run| - 1], id) && |Offers(run, id)| - |Received(run, id)| <= CAPACITY
  {
    var before := run[..|run| - 1];
    assert run[..|run|] == run;
    assert forall n | 0 <= n <= |before| :: before[..n] == run[..n];
    if KeepsUp(before, id) && |Offers(run, id)| - |Received(run, id)| <= CAPACITY {
      forall n | 0 <= n <= |run| ensures |Offers(run[..n], id)| - |Received(run[..n], id)| <= CAPACITY {
        if n < |run| {
          assert before[..n] == run[..n];
        }
      }
    }
  }

  /** A subscriber misses nothing if and only if it never falls more than 64 events behind. */
  lemma {:induction false} LosslessIffKeepsUp<T>(run: seq<Event<T>>, id: nat)
    ensures Dropped(Offers(run, id)) == [] <==> KeepsUp(run, id)
  {
    DeliveryAccounting(run, id);
    RunInv(run);
    if run == [] {
      assert run[..0] == run;
    } else {
      var before, last := run[..|run| - 1], run[|run| - 1];
      var offer := OfferIn(Run(before), last, id);
      LosslessIffKeepsUp(before, id);
      KeepsUpPrefix(run, id);
      DeliveryAccounting(before, id);
      RunInv(before);
      KeptSnoc(Offers(before, id), offer);
      if offer != [] {
        assert offer[..0] == [];
        assert ReceivedIn(Run(before), last, id) == [];
      }
    }
  }

  function First64<T>(values: seq<T>): seq<T> {
    if |values| <= 64 then values else values[..64]
  }

  lemma First64Snoc<T>(values: seq<T>, more: seq<T>)
    requires |more| <= 1
    ensures First64(values + more) == if |First64(values)| < 64 then First64(values) + more else First64(values)
  {}

  lemma SlowStep<T>(s: State<T>, e: Event<T>, id: nat)
    requires Inv(s) && e != Receive(id)
    ensures var sent := Values(OfferIn(s, e, id));
      |sent| <= 1 && BufferOf(Step(s, e), id) == if |BufferOf(s, id)| < 64 then BufferOf(s, id) + sent else BufferOf(s, id)
  {
    hide Inv, Step;
    BufferAfter(s, e, id);
    if OfferIn(s, e, id) != [] {
      assert OfferIn(s, e, id)[..0] == [];
    } else {
      assert BufferOf(s, id) + [] == BufferOf(s, id);
    }
  }

  /** A subscriber that never receives holds the first 64 values sent to it, and no others. */
  lemma {:induction false} SlowSubscriberHolds<T>(run: seq<Event<T>>, id: nat)
    requires Receive(id) !in run
    ensures Buffered(run, id) == First64(Values(Offers(run, id)))
  {
    if run != [] {
      var before, e := run[..|run| - 1], run[|run| - 1];
      assert e in run && forall d | d in before :: d in run;
      SlowSubscriberHolds(before, id);
      RunInv(before);
      SlowStep(Run(before), e, id);
      OneOffer(Run(before), e, id);
      ValuesSnoc(Offers(before, id), OfferIn(Run(before), e, id));
      First64Snoc(Values(Offers(before, id)), Values(OfferIn(Run(before), e, id)));
      hide Step, Inv, OfferIn, First64, Values;
      assert Offers(run, id) == Offers(before, id) + OfferIn(Run(before), e, id);
    }
  }

  // ---- A publish that nothing interrupts ----

  /** Every subscriber with room gets the value, and the lock is free again. */
  ghost function PublishAll<T>(s: State<T>, v: T): State<T> {
    s.(chans := map i | i in s.chans :: if i in s.subs then Send(s.chans[i], v) else s.chans[i])
  }

  /** `t` is `s` with the value sent to the subscribers in `done`, the lock still held. */
  ghost predicate Midway<T>(s: State<T>, v: T, done: set<nat>, t: State<T>) {
    && Inv(t) && t.publishing == Some(Publication(v, s.subs - done))
    && t.nextID == s.nextID && t.subs == s.subs && t.closing == s.closing && t.panicked == s.panicked
    && t.chans.Keys == s.chans.Keys
    && forall i | i in s.chans :: t.chans[i] == if i in done then Send(s.chans[i], v) else s.chans[i]
  }

  lemma MidwayStarts<T>(s: State<T>, v: T)
    requires Inv(s) && s.publishing.None?
    ensures Midway(s, v, {}, Step(s, Publish(v)))
  {
    PublishFacts(s, v);
    assert s.subs - {} == s.subs;
  }

  lemma MidwayGoesOn<T>(s: State<T>, v: T, done: set<nat>, t: State<T>, id: nat)
    requires Midway(s, v, done, t) && id in s.subs - done
    ensures Pending(t, id) && Midway(s, v, done + {id}, Step(t, Deliver(id)))
  {
    InvSubs(t);
    DeliverFacts(t, id);
    hide Inv, Step, Send;
    assert s.subs - done - {id} == s.subs - (done + {id});
  }

  lemma MidwayEnds<T>(s: State<T>, v: T, t: State<T>)
    requires Inv(s) && s.publishing.None? && Midway(s, v, s.subs, t)
    ensures Step(t, Unlock) == PublishAll(s, v) && Inv(PublishAll(s, v))
  {
    UnlockFacts(t);
    hide Inv, Step, Send;
    assert s.subs - s.subs == {};
    assert t.chans == PublishAll(s, v).chans;
  }

  lemma InvSubs<T>(s: State<T>)
    requires Inv(s)
    ensures s.subs <= s.chans.Keys && !s.panicked
  {}

  /** The state once the value has been sent to the subscribers in `order`. */
  function SendTo<T>(s: State<T>, v: T, order: seq<nat>): State<T> {
    if order == [] then Step(s, Publish(v))
    else Step(SendTo(s, v, order[..|order| - 1]), Deliver(order[|order| - 1]))
  }

  function Members(order: seq<nat>): set<nat> {
    set id | id in order
  }

  lemma {:induction false} SendToSome<T>(s: State<T>, v: T, order: seq<nat>)
    requires Inv(s) && s.publishing.None?
    requires forall i, j | 0 <= i < j < |order| :: order[i] != order[j]
    requires Members(order) <= s.subs
    ensures Midway(s, v, Members(order), SendTo(s, v, order))
  {
    hide Inv, Step, Midway;
    if order == [] {
      assert Members(order) == {};
      MidwayStarts(s, v);
    } else {
      var front, last := order[..|order| - 1], order[|order| - 1];
      assert order == front + [last];
      assert Members(order) == Members(front) + {last};
      SendToSome(s, v, front);
      MidwayGoesOn(s, v, Members(front), SendTo(s, v, front), last);
    }
  }

  /** In whatever order the map is walked, an uninterrupted publish comes to the same. */
  lemma AnyOrder<T>(s: State<T>, v: T, order: seq<nat>)
    requires Inv(s) && s.publishing.None?
    requires (forall i, j | 0 <= i < j < |order| :: order[i] != order[j]) && Members(order) == s.subs
    ensures Step(SendTo(s, v, order), Unlock) == PublishAll(s, v)
  {
    SendToSome(s, v, order);
    MidwayEnds(s, v, SendTo(s, v, order));
  }

  // ---- The broker itself ----

  class Channel<T> {
    var buf: seq<T>
    var closed: bool
    // The subscription this channel was made for.
    ghost const id: nat

    constructor (ghost id: nat)
      ensures buf == [] && !closed && this.id == id
    {
      buf, closed := [], false;
      this.id := id;
    }

    /** select { case ch <- v: default: } */
    method TrySend(v: T)
      requires !closed
      modifies this`buf
      ensures buf == Send(Chan(old(buf), closed), v).buf
    {
      if |buf| < CAPACITY {
        buf := buf + [v];
      }
    }
  }

  /** Every subscriber is one of the channels made, each under its own id. */
  ghost predicate Linked<T>(subs: map<nat, Channel<T>>, all: map<nat, Channel<T>>) {
    && subs.Keys <= all.Keys
    && (forall i | i in subs :: subs[i] == all[i])
    && (forall i | i in all :: all[i].id == i)
  }

  lemma LinkedWith<T>(subs: map<nat, Channel<T>>, all: map<nat, Channel<T>>, ch: Channel<T>)
    requires Linked(subs, all) && ch.id !in all
    ensures Linked(subs[ch.id := ch], all[ch.id := ch])
  {}

  class Hub<T> {
    var nextID: nat
    var subs: map<nat, Channel<T>>
    // Every channel made so far, the closes still owed, and the publish that holds the lock.
    ghost var all: map<nat, Channel<T>>
    ghost var closing: multiset<nat>
    ghost var publishing: Option<Publication<T>>

    ghost function View(): State<T>
      reads this, all.Values
    {
      State(nextID, subs.Keys, map i | i in all :: Chan(all[i].buf, all[i].closed), closing, publishing, false)
    }

    ghost predicate Valid()
      reads this, all.Values
    {
      Linked(subs, all) && Inv(View())
    }

    lemma ViewIs(s: State<T>)
      requires s.nextID == nextID && s.subs == subs.Keys && s.closing == closing && s.publishing == publishing && !s.panicked
      requires s.chans.Keys == all.Keys
      requires forall i | i in all :: s.chans[i] == Chan(all[i].buf, all[i].closed)
      ensures View() == s
    {
      assert View().chans == s.chans;
    }

    lemma ViewHas()
      ensures var s := View();
        && s.nextID == nextID && s.subs == subs.Keys && s.closing == closing && s.publishing == publishing && !s.panicked
        && s.chans.Keys == all.Keys
        && forall i | i in all :: s.chans[i] == Chan(all[i].buf, all[i].closed)
    {}

    constructor ()
      ensures Valid() && View() == Initial()
      ensures all == map[]
    {
      nextID, subs, all, closing, publishing := 0, map[], map[], multiset{}, None;
    }

    method Subscribe() returns (id: nat, ch: Channel<T>)
      requires Valid() && publishing.None?
      modifies this
      ensures Valid() && View() == Step(old(View()), Event.Subscribe)
      ensures id == old(nextID) && fresh(ch) && all == old(all)[id := ch]
    {
      hide Valid, View, Step;
      id := nextID;
      ch := new Channel<T>(id);
      Enroll(ch);
    }

    /** A new channel becomes the next subscription's. */
    method Enroll(ch: Channel<T>)
      requires Valid() && publishing.None? && ch.id == nextID && ch.buf == [] && !ch.closed
      modifies this`nextID, this`subs, this`all
      ensures Valid() && View() == Step(old(View()), Event.Subscribe)
      ensures all == old(all)[old(nextID) := ch]
    {
      hide Inv, Step, View, Linked;
      ghost var s := View();
      ViewHas();
      SubscribeFacts(s);
      LinkedWith(subs, all, ch);
      subs := subs[nextID := ch];
      all := all[nextID := ch];
      nextID := nextID + 1;
      ViewIs(Step(s, Event.Subscribe));
    }

    /** One turn of the publishing loop. */
    method Deliver(ghost id: nat, ch: Channel<T>, v: T)
      requires Valid() && id in subs && ch == subs[id] && publishing.Some? && publishing.value.v == v && id in publishing.value.todo
      modifies this`publishing, ch`buf
      ensures Valid() && View() == Step(old(View()), Event.Deliver(id))
      ensures publishing == Some(Publication(v, old(publishing.value.todo) - {id}))
    {
      hide Inv, Step;
      ghost var s := View();
      DeliverFacts(s, id);
      ch.TrySend(v);
      publishing := Some(Publication(v, publishing.value.todo - {id}));
      ViewIs(Step(s, Event.Deliver(id)));
    }

    method Publish(v: T)
      requires Valid() && publishing.None?
      modifies this`publishing, all.Values`buf
      ensures Valid() && publishing.None? && View() == PublishAll(old(View()), v)
    {
      hide Inv, Step, PublishAll, Midway, Valid, View;
      ghost var s := View();
      Lock(v);
      var todo := subs.Keys;
      ghost var done: set<nat> := {};
      while todo != {}
        invariant Valid() && publishing == Some(Publication(v, todo)) && todo <= subs.Keys
        invariant subs == old(subs) && all == old(all) && done == subs.Keys - todo && Midway(s, v, done, View())
        decreases todo
      {
        var id :| id in todo;
        MidwayGoesOn(s, v, done, View(), id);
        SubInAll(id);
        Deliver(id, subs[id], v);
        todo, done := todo - {id}, done + {id};
      }
      assert done == subs.Keys;
      Finish(s, v);
    }

    lemma SubInAll(id: nat)
      requires Valid() && id in subs
      ensures subs[id] in all.Values
    {
      hide Inv;
    }

    /** The lock is taken. */
    ghost method Lock(v: T)
      requires Valid() && publishing.None?
      modifies this`publishing
      ensures Valid() && publishing == Some(Publication(v, subs.Keys)) && Inv(old(View()))
      ensures old(View()).publishing.None? && old(View()).subs == subs.Keys
      ensures Midway(old(View()), v, {}, View())
    {
      hide Inv, Step, Midway;
      ghost var s := View();
      PublishFacts(s, v);
      MidwayStarts(s, v);
      publishing := Some(Publication(v, subs.Keys));
      ViewIs(Step(s, Event.Publish(v)));
    }

    /** The lock is released. */
    ghost method Finish(s: State<T>, v: T)
      requires Valid() && publishing == Some(Publication(v, {})) && Inv(s) && s.publishing.None? && s.subs == subs.Keys
      requires Midway(s, v, subs.Keys, View())
      modifies this`publishing
      ensures Valid() && publishing.None? && View() == PublishAll(s, v)
    {
      hide Inv, Step, PublishAll, Midway;
      MidwayEnds(s, v, View());
      UnlockFacts(View());
      publishing := None;
      ViewIs(PublishAll(s, v));
    }

    /** The half of unsubscribe that runs under the lock. */
    method Remove(id: nat) returns (ch: Channel?<T>)
      requires Valid() && publishing.None?
      modifies this`subs, this`closing
      ensures Valid() && View() == Step(old(View()), Event.Delete(id))
      ensures ch == if id in old(subs) then old(subs[id]) else null
      ensures ch != null ==> id in closing && id in all && ch == all[id] && !ch.closed
    {
      hide Inv, Step, View;
      ghost var s := View();
      ViewHas();
      DeleteFacts(s, id);
      ch := null;
      if id in subs {
        ch := subs[id];
        closing := closing + multiset{id};
      }
      subs := subs - {id};
      ViewIs(Step(s, Event.Delete(id)));
    }

    /** The half that runs after the lock is released. */
    method CloseChannel(ghost id: nat, ch: Channel<T>)
      requires Valid() && id in closing && id in all && ch == all[id]
      requires !ch.closed
      modifies this`closing, ch`closed
      ensures Valid() && View() == Step(old(View()), Event.Close(id))
    {
      hide Inv, Step, View;
      ghost var s := View();
      ViewHas();
      CloseFacts(s, id);
      ch.closed := true;
      closing := closing - multiset{id};
      ViewIs(Step(s, Event.Close(id)));
    }

    lemma DeleteNothing(s: State<T>, id: nat)
      ensures id !in s.subs ==> Step(s, Event.Delete(id)) == s
    {}

    method Unsubscribe(id: nat)
      requires Valid() && publishing.None?
      modifies this`subs, this`closing, all.Values
      ensures Valid()
      ensures View() == if id in old(subs) then Step(Step(old(View()), Event.Delete(id)), Event.Close(id)) else old(View())
    {
      ghost var s := View();
      DeleteFacts(s, id);
      DeleteNothing(s, id);
      hide Inv, Step;
      var ch := Remove(id);
      if ch != null {
        CloseChannel(id, ch);
      }
    }

    /** A receive that does not block: a value, or the news that the channel is closed and drained. */
    method Receive(ghost id: nat, ch: Channel<T>) returns (r: Option<T>)
      requires Valid() && id in all && ch == all[id]
      requires ch.buf != [] || ch.closed
      modifies ch`buf
      ensures Valid() && View() == Step(old(View()), Event.Receive(id))
      ensures r == if old(ch.buf) == [] then None else Some(old(ch.buf[0]))
    {
      hide Inv, Step;
      ghost var s := View();
      ReceiveFacts(s, id);
      if ch.buf == [] {
        r := None;
      } else {
        r := Some(ch.buf[0]);
        ch.buf := ch.buf[1..];
      }
      ViewIs(Step(s, Event.Receive(id)));
    }
  }
}
