/**
 * Two RpcPeers of packages/protocol/src/jsonrpc.ts joined by a channel that may
 * reorder, lose and duplicate frames, with timeouts and closes at any moment.
 */
module Rpc {
  import opened Option

  /** A JSON value, as its text. */
  type Value = string

  datatype Id = Number(n: int) | Text(s: string)

  /** A raw message, by the fields dispatch looks at. */
  datatype Message = Message(version2: bool, name: Option<string>, id: Option<Id>, params: Value,
                             result: Value, error: Option<string>)

  datatype Call = Call(name: string, params: Value)

  datatype Reply = Result(value: Value) | Failure(message: string)

  /** How a promise was settled. */
  datatype Outcome = Resolved(value: Value) | Failed(message: string) | TimedOut | PeerClosed

  /** One request() call and every settling of its promise. */
  datatype Promise = Promise(call: Call, outcomes: seq<Outcome>)

  /** What the pending table keeps: whose promise to settle, and which timer to clear. */
  datatype Pending = Pending(promise: nat, timer: nat)

  /** What a running timer will do: forget the id and reject the promise. */
  datatype Alarm = Alarm(id: Id, promise: nat)

  /** A handler run that has not answered yet. */
  datatype Task = Task(id: Id, call: Call)

  /** What a handler made of a call. */
  datatype Computed = Computed(call: Call, reply: Reply)

  datatype Peer = Peer(
    nextId: nat, pending: map<Id, Pending>, timers: map<nat, Alarm>, handlers: set<string>,
    promises: seq<Promise>, tasks: multiset<Task>, computed: set<Computed>, sent: set<Message>)

  function NewPeer(): Peer {
    Peer(1, map[], map[], {}, [], multiset{}, {}, {})
  }

  function RequestFrame(id: Id, call: Call): Message {
    Message(true, Some(call.name), Some(id), call.params, "", None)
  }

  function NotificationFrame(call: Call): Message {
    Message(true, Some(call.name), None, call.params, "", None)
  }

  function ResponseFrame(id: Id, reply: Reply): Message {
    match reply
    case Result(value) => Message(true, None, Some(id), "", value, None)
    case Failure(message) => Message(true, None, Some(id), "", "", Some(message))
  }

  function ReplyIn(m: Message): Reply {
    if m.error.Some? then Failure(m.error.value) else Result(m.result)
  }

  function Unhandled(name: string): Reply {
    Failure("method not found: " + name)
  }

  function OutcomeOf(reply: Reply): Outcome {
    match reply
    case Result(value) => Resolved(value)
    case Failure(message) => Failed(message)
  }

  function Settle(promises: seq<Promise>, k: nat, outcome: Outcome): seq<Promise> {
    if k < |promises| then promises[k := Promise(promises[k].call, promises[k].outcomes + [outcome])] else promises
  }

  // ---- what one peer does ----

  /** request(): a fresh id, a timer, a pending entry and one frame. */
  function Requested(p: Peer, call: Call): Peer {
    var id := Number(p.nextId);
    p.(nextId := p.nextId + 1,
       pending := p.pending[id := Pending(|p.promises|, p.nextId)],
       timers := p.timers[p.nextId := Alarm(id, |p.promises|)],
       promises := p.promises + [Promise(call, [])],
       sent := p.sent + {RequestFrame(id, call)})
  }

  function Notified(p: Peer, call: Call): Peer {
    p.(sent := p.sent + {NotificationFrame(call)})
  }

  /** A timer goes off. */
  function Expired(p: Peer, timer: nat): Peer
    requires timer in p.timers
  {
    var alarm := p.timers[timer];
    p.(timers := p.timers - {timer}, pending := p.pending - {alarm.id},
       promises := Settle(p.promises, alarm.promise, TimedOut))
  }

  /** The promises the pending table would settle. */
  function Waiting(p: Peer): set<nat> {
    set id | id in p.pending :: p.pending[id].promise
  }

  function PendingTimers(p: Peer): set<nat> {
    set id | id in p.pending :: p.pending[id].timer
  }

  /** close(): everything pending is rejected; the peer itself stays usable. */
  function Closed(p: Peer): Peer {
    p.(pending := map[], timers := p.timers - PendingTimers(p),
       promises := RejectAll(p.promises, Waiting(p)))
  }

  function RejectAll(promises: seq<Promise>, waiting: set<nat>): seq<Promise> {
    seq(|promises|, k requires 0 <= k < |promises| =>
      if k in waiting then Promise(promises[k].call, promises[k].outcomes + [PeerClosed]) else promises[k])
  }

  /** A response settles the pending request it names, if there is one. */
  function Answered(p: Peer, id: Id, reply: Reply): Peer {
    if id !in p.pending then p
    else
      var entry := p.pending[id];
      p.(pending := p.pending - {id}, timers := p.timers - {entry.timer},
         promises := Settle(p.promises, entry.promise, OutcomeOf(reply)))
  }

  /** A call is answered: what was computed for it goes out under its id. */
  function Answering(p: Peer, tasks: multiset<Task>, id: Id, call: Call, reply: Reply): Peer {
    p.(tasks := tasks, computed := p.computed + {Computed(call, reply)}, sent := p.sent + {ResponseFrame(id, reply)})
  }

  /** A request starts its handler, or is answered at once when there is none. */
  function Asked(p: Peer, id: Id, call: Call): Peer {
    if call.name in p.handlers then p.(tasks := p.tasks + multiset{Task(id, call)})
    else Answering(p, p.tasks, id, call, Unhandled(call.name))
  }

  function Dispatched(p: Peer, m: Message): Peer {
    if !m.version2 then p
    else if m.name.None? then
      if m.id.Some? then Answered(p, m.id.value, ReplyIn(m)) else p
    else if m.id.Some? then Asked(p, m.id.value, Call(m.name.value, m.params))
    else p
  }

  /** A handler returns or throws, and its answer is sent. */
  function Finished(p: Peer, task: Task, reply: Reply): Peer {
    Answering(p, p.tasks - multiset{task}, task.id, task.call, reply)
  }

  // ---- the pair ----

  datatype Side = Here | There

  datatype Net = Net(here: Peer, there: Peer) {
    function At(side: Side): Peer {
      if side.Here? then here else there
    }

    function With(side: Side, p: Peer): Net {
      if side.Here? then this.(here := p) else this.(there := p)
    }
  }

  function Other(side: Side): Side {
    if side.Here? then There else Here
  }

  datatype Step =
    | Request(call: Call)
    | Notify(call: Call)
    | Deliver(m: Message)
    | Expire(timer: nat)
    | Close
    | Finish(task: Task, reply: Reply)
    | Register(name: string)

  /** One step of p; what it receives must have been sent by q, but may be old, repeated or overtaken. */
  function Act(p: Peer, q: Peer, step: Step): Peer {
    match step
    case Request(call) => Requested(p, call)
    case Notify(call) => Notified(p, call)
    case Deliver(m) => if m in q.sent then Dispatched(p, m) else p
    case Expire(timer) => if timer in p.timers then Expired(p, timer) else p
    case Close => Closed(p)
    case Finish(task, reply) => if task in p.tasks then Finished(p, task, reply) else p
    case Register(name) => p.(handlers := p.handlers + {name})
  }

  datatype Event = Event(side: Side, step: Step)

  /** The events so far, the latest one outermost. */
  datatype History = Nothing | Then(earlier: History, event: Event)

  function Next(net: Net, e: Event): Net {
    net.With(e.side, Act(net.At(e.side), net.At(Other(e.side)), e.step))
  }

  function After(h: History): Net {
    if h.Nothing? then Net(NewPeer(), NewPeer()) else Next(After(h.earlier), h.event)
  }

  // ---- what every run keeps ----

  predicate OwnId(p: Peer, id: Id) {
    id.Number? && 1 <= id.n <= |p.promises|
  }

  /**
   * Id n belongs to promise n - 1, timer n to pending id n, and a promise is settled once exactly
   * when no longer pending.
   */
  ghost predicate Tidy(p: Peer) {
    && p.nextId == |p.promises| + 1
    && (forall id :: id in p.pending ==> OwnId(p, id) && p.pending[id] == Pending(id.n - 1, id.n))
    && (forall n :: n in p.timers <==> Number(n) in p.pending)
    && (forall n :: n in p.timers ==> p.timers[n] == Alarm(Number(n), n - 1))
    && (forall k :: 0 <= k < |p.promises| ==>
          |p.promises[k].outcomes| == if Number(k + 1) in p.pending then 0 else 1)
  }

  /** The call that p asked under an id. */
  predicate AskedUnder(p: Peer, id: Id, call: Call) {
    OwnId(p, id) && p.promises[id.n - 1].call == call
  }

  /** Requests in flight and handlers running for p carry p's own calls. */
  ghost predicate Genuine(p: Peer, q: Peer) {
    && (forall m :: m in p.sent && m.name.Some? && m.id.Some? ==>
        AskedUnder(p, m.id.value, Call(m.name.value, m.params)))
    && (forall task :: task in q.tasks ==> AskedUnder(p, task.id, task.call))
  }

  /** q made this reply of the call p asked under this id. */
  predicate ComputedFor(p: Peer, q: Peer, id: Id, reply: Reply) {
    OwnId(p, id) && Computed(p.promises[id.n - 1].call, reply) in q.computed
  }

  /** What came back from q was computed by q for this very call. */
  predicate Backed(q: Peer, promise: Promise) {
    forall i :: 0 <= i < |promise.outcomes| ==>
      match promise.outcomes[i]
      case Resolved(value) => Computed(promise.call, Result(value)) in q.computed
      case Failed(message) => Computed(promise.call, Failure(message)) in q.computed
      case _ => true
  }

  /** Responses in flight to p, and what p settled from them, were computed by q for p's own call. */
  ghost predicate Truthful(p: Peer, q: Peer) {
    && (forall m :: m in q.sent && m.name.None? && m.id.Some? ==> ComputedFor(p, q, m.id.value, ReplyIn(m)))
    && (forall k :: 0 <= k < |p.promises| ==> Backed(q, p.promises[k]))
  }

  ghost predicate Half(p: Peer, q: Peer) {
    Tidy(p) && Genuine(p, q) && Truthful(p, q)
  }

  ghost predicate Inv(net: Net) {
    Half(net.here, net.there) && Half(net.there, net.here)
  }

  /** p' differs from p only in what is pending and settled. */
  predicate OnlySettles(p: Peer, p': Peer) {
    && p'.nextId == p.nextId && p'.sent == p.sent && p'.tasks == p.tasks && p'.computed == p.computed
    && |p'.promises| == |p.promises|
    && forall k :: 0 <= k < |p.promises| ==> p'.promises[k].call == p.promises[k].call
  }

  lemma SettlingKeeps(p: Peer, p': Peer, q: Peer)
    requires Half(p, q) && Half(q, p) && OnlySettles(p, p') && Tidy(p')
    requires forall k :: 0 <= k < |p'.promises| ==> Backed(q, p'.promises[k])
    ensures Half(p', q) && Half(q, p')
  {
    forall m | m in p'.sent && m.name.Some? && m.id.Some?
      ensures AskedUnder(p', m.id.value, Call(m.name.value, m.params))
    {
      assert AskedUnder(p, m.id.value, Call(m.name.value, m.params));
    }
    forall task | task in q.tasks
      ensures AskedUnder(p', task.id, task.call)
    {
      assert AskedUnder(p, task.id, task.call);
    }
    forall m | m in q.sent && m.name.None? && m.id.Some?
      ensures ComputedFor(p', q, m.id.value, ReplyIn(m))
    {
      assert ComputedFor(p, q, m.id.value, ReplyIn(m));
    }
  }

  /** One pending request settled. */
  function SettledOne(p: Peer, n: nat, outcome: Outcome): Peer
    requires 1 <= n
  {
    p.(pending := p.pending - {Number(n)}, timers := p.timers - {n}, promises := Settle(p.promises, n - 1, outcome))
  }

  lemma SettledOneIsTidy(p: Peer, n: nat, outcome: Outcome)
    requires Tidy(p) && 1 <= n && Number(n) in p.pending
    ensures Tidy(SettledOne(p, n, outcome)) && OnlySettles(p, SettledOne(p, n, outcome))
  {
    var p' := SettledOne(p, n, outcome);
    assert p.promises[n - 1].outcomes == [];
    forall k | 0 <= k < |p'.promises|
      ensures |p'.promises[k].outcomes| == if Number(k + 1) in p'.pending then 0 else 1
    {
      assert k != n - 1 ==> p'.promises[k] == p.promises[k];
    }
  }

  lemma SettledOneKeeps(p: Peer, q: Peer, n: nat, outcome: Outcome)
    requires Half(p, q) && Half(q, p) && 1 <= n && Number(n) in p.pending
    requires Backed(q, Promise(p.promises[n - 1].call, [outcome]))
    ensures Half(SettledOne(p, n, outcome), q) && Half(q, SettledOne(p, n, outcome))
  {
    var p' := SettledOne(p, n, outcome);
    SettledOneIsTidy(p, n, outcome);
    assert p.promises[n - 1].outcomes == [];
    forall k | 0 <= k < |p'.promises|
      ensures Backed(q, p'.promises[k])
    {
      assert k != n - 1 ==> p'.promises[k] == p.promises[k];
      assert [] + [outcome] == [outcome];
    }
    SettlingKeeps(p, p', q);
  }

  lemma WaitingMeans(p: Peer, k: nat)
    requires Tidy(p)
    ensures k in Waiting(p) <==> Number(k + 1) in p.pending
  {
    if Number(k + 1) in p.pending {
      assert p.pending[Number(k + 1)].promise == k;
    }
  }

  lemma AllTimersArePending(p: Peer)
    requires Tidy(p)
    ensures p.timers - PendingTimers(p) == map[]
  {
    forall n | n in p.timers
      ensures n in PendingTimers(p)
    {
      assert p.pending[Number(n)].timer == n;
    }
  }

  lemma PendingIsUnsettled(p: Peer, k: nat)
    requires Tidy(p) && k < |p.promises| && Number(k + 1) in p.pending
    ensures p.promises[k].outcomes == []
  {
  }

  lemma RejectedOne(promises: seq<Promise>, waiting: set<nat>, k: nat)
    requires k < |promises| && (k in waiting ==> promises[k].outcomes == [])
    ensures RejectAll(promises, waiting)[k]
         == Promise(promises[k].call, if k in waiting then [PeerClosed] else promises[k].outcomes)
  {
    assert [] + [PeerClosed] == [PeerClosed];
  }

  lemma ClosedSettlesPending(p: Peer, k: nat)
    requires Tidy(p) && k < |p.promises|
    ensures Closed(p).promises[k]
         == Promise(p.promises[k].call, if Number(k + 1) in p.pending then [PeerClosed] else p.promises[k].outcomes)
  {
    WaitingMeans(p, k);
    if Number(k + 1) in p.pending {
      PendingIsUnsettled(p, k);
    }
    RejectedOne(p.promises, Waiting(p), k);
  }

  lemma ClosedIsTidy(p: Peer)
    requires Tidy(p)
    ensures Tidy(Closed(p)) && OnlySettles(p, Closed(p))
  {
    var p' := Closed(p);
    AllTimersArePending(p);
    forall k | 0 <= k < |p.promises|
      ensures p'.promises[k].call == p.promises[k].call && |p'.promises[k].outcomes| == 1
    {
      ClosedSettlesPending(p, k);
    }
  }

  lemma ClosedKeeps(p: Peer, q: Peer)
    requires Half(p, q) && Half(q, p)
    ensures Half(Closed(p), q) && Half(q, Closed(p))
  {
    ClosedIsTidy(p);
    forall k | 0 <= k < |p.promises|
      ensures Backed(q, Closed(p).promises[k])
    {
      ClosedSettlesPending(p, k);
      assert Backed(q, p.promises[k]);
    }
    SettlingKeeps(p, Closed(p), q);
  }

  lemma ExpiredKeeps(p: Peer, q: Peer, timer: nat)
    requires Half(p, q) && Half(q, p) && timer in p.timers
    ensures Half(Expired(p, timer), q) && Half(q, Expired(p, timer))
  {
    SettledOneKeeps(p, q, timer, TimedOut);
  }

  lemma AnsweredKeeps(p: Peer, q: Peer, id: Id, reply: Reply)
    requires Half(p, q) && Half(q, p) && (id in p.pending ==> ComputedFor(p, q, id, reply))
    ensures Half(Answered(p, id, reply), q) && Half(q, Answered(p, id, reply))
  {
    if id in p.pending {
      SettledOneKeeps(p, q, id.n, OutcomeOf(reply));
    }
  }

  lemma RequestedIsTidy(p: Peer, call: Call)
    requires Tidy(p)
    ensures Tidy(Requested(p, call))
  {
  }

  lemma RequestedIsGenuine(p: Peer, q: Peer, call: Call)
    requires Tidy(p) && Genuine(p, q)
    ensures Genuine(Requested(p, call), q)
  {
    var p' := Requested(p, call);
    assert forall id, c :: AskedUnder(p, id, c) ==> AskedUnder(p', id, c);
    assert AskedUnder(p', Number(p.nextId), call);
  }

  lemma RequestedIsTruthful(p: Peer, q: Peer, call: Call)
    requires Truthful(p, q)
    ensures Truthful(Requested(p, call), q)
  {
    var p' := Requested(p, call);
    assert forall id, reply :: ComputedFor(p, q, id, reply) ==> ComputedFor(p', q, id, reply);
  }

  lemma RequestedKeeps(p: Peer, q: Peer, call: Call)
    requires Half(p, q) && Half(q, p)
    ensures Half(Requested(p, call), q) && Half(q, Requested(p, call))
  {
    RequestedIsTidy(p, call);
    RequestedIsGenuine(p, q, call);
    RequestedIsTruthful(p, q, call);
  }

  lemma AnsweringIsGenuine(p: Peer, q: Peer, id: Id, call: Call, reply: Reply, tasks: multiset<Task>)
    requires Genuine(p, q) && Genuine(q, p) && tasks <= p.tasks
    ensures var p' := Answering(p, tasks, id, call, reply); Genuine(p', q) && Genuine(q, p')
  {
    var p' := Answering(p, tasks, id, call, reply);
    assert forall id', call' :: AskedUnder(p, id', call') ==> AskedUnder(p', id', call');
  }

  lemma AnsweringIsTruthful(p: Peer, q: Peer, id: Id, call: Call, reply: Reply, tasks: multiset<Task>)
    requires Truthful(p, q) && Truthful(q, p) && AskedUnder(q, id, call)
    ensures var p' := Answering(p, tasks, id, call, reply); Truthful(p', q) && Truthful(q, p')
  {
    var p' := Answering(p, tasks, id, call, reply);
    assert forall id', reply' :: ComputedFor(q, p, id', reply') ==> ComputedFor(q, p', id', reply');
    assert forall promise :: Backed(p, promise) ==> Backed(p', promise);
    assert ComputedFor(q, p', id, reply) && ReplyIn(ResponseFrame(id, reply)) == reply;
  }

  /** p answers a call q asked: the frame carries what was computed for it. */
  lemma AnsweringKeeps(p: Peer, q: Peer, id: Id, call: Call, reply: Reply, tasks: multiset<Task>)
    requires Half(p, q) && Half(q, p) && AskedUnder(q, id, call) && tasks <= p.tasks
    ensures var p' := Answering(p, tasks, id, call, reply); Half(p', q) && Half(q, p')
  {
    AnsweringIsGenuine(p, q, id, call, reply, tasks);
    AnsweringIsTruthful(p, q, id, call, reply, tasks);
  }

  lemma StartingKeeps(p: Peer, q: Peer, task: Task)
    requires Half(p, q) && Half(q, p) && AskedUnder(q, task.id, task.call)
    ensures var p' := p.(tasks := p.tasks + multiset{task}); Half(p', q) && Half(q, p')
  {
  }

  lemma DeliveredKeeps(p: Peer, q: Peer, m: Message)
    requires Half(p, q) && Half(q, p) && m in q.sent
    ensures Half(Dispatched(p, m), q) && Half(q, Dispatched(p, m))
  {
    if m.version2 && m.id.Some? {
      var id := m.id.value;
      if m.name.None? {
        AnsweredKeeps(p, q, id, ReplyIn(m));
      } else {
        var call := Call(m.name.value, m.params);
        assert AskedUnder(q, id, call);
        if call.name in p.handlers {
          StartingKeeps(p, q, Task(id, call));
        } else {
          AnsweringKeeps(p, q, id, call, Unhandled(call.name), p.tasks);
        }
      }
    }
  }

  lemma FinishedKeeps(p: Peer, q: Peer, task: Task, reply: Reply)
    requires Half(p, q) && Half(q, p) && task in p.tasks
    ensures Half(Finished(p, task, reply), q) && Half(q, Finished(p, task, reply))
  {
    assert AskedUnder(q, task.id, task.call);
    AnsweringKeeps(p, q, task.id, task.call, reply, p.tasks - multiset{task});
  }

  lemma NotifiedKeeps(p: Peer, q: Peer, call: Call)
    requires Half(p, q) && Half(q, p)
    ensures Half(Notified(p, call), q) && Half(q, Notified(p, call))
  {
    assert Tidy(Notified(p, call)) && Genuine(q, Notified(p, call)) && Truthful(Notified(p, call), q);
  }

  lemma RegisteredKeeps(p: Peer, q: Peer, handlers: set<string>)
    requires Half(p, q) && Half(q, p)
    ensures Half(p.(handlers := handlers), q) && Half(q, p.(handlers := handlers))
  {
    var p' := p.(handlers := handlers);
    assert Tidy(p') && Genuine(q, p') && Truthful(p', q);
  }

  lemma ActKeeps(p: Peer, q: Peer, step: Step)
    requires Half(p, q) && Half(q, p)
    ensures Half(Act(p, q, step), q) && Half(q, Act(p, q, step))
  {
    match step
    case Request(call) => RequestedKeeps(p, q, call);
    case Deliver(m) =>
      if m in q.sent {
        DeliveredKeeps(p, q, m);
      }
    case Expire(timer) =>
      if timer in p.timers {
        ExpiredKeeps(p, q, timer);
      }
    case Close => ClosedKeeps(p, q);
    case Finish(task, reply) =>
      if task in p.tasks {
        FinishedKeeps(p, q, task, reply);
      }
    case Notify(call) => NotifiedKeeps(p, q, call);
    case Register(name) => RegisteredKeeps(p, q, p.handlers + {name});
  }

  lemma {:induction false} RunKeepsInv(h: History)
    ensures Inv(After(h))
  {
    if h.Then? {
      RunKeepsInv(h.earlier);
      var net := After(h.earlier);
      ActKeeps(net.At(h.event.side), net.At(Other(h.event.side)), h.event.step);
    }
  }

  // ---- what that means for callers ----

  /** Every request is settled at most once, and until then it is pending: none is lost, none settled twice. */
  lemma SettledAtMostOnce(h: History, side: Side, k: nat)
    requires k < |After(h).At(side).promises|
    ensures var p := After(h).At(side);
            && |p.promises[k].outcomes| <= 1
            && (p.promises[k].outcomes == [] <==> Number(k + 1) in p.pending)
  {
    RunKeepsInv(h);
  }

  /** Pending ids were all handed out by this peer. */
  lemma PendingIsBelowNextId(h: History, side: Side, id: Id)
    requires id in After(h).At(side).pending
    ensures id.Number? && 1 <= id.n < After(h).At(side).nextId
  {
    RunKeepsInv(h);
  }

  /** A request that resolves does so with what the other side computed for this very method and params. */
  lemma ResolvesWithItsOwnResult(h: History, side: Side, k: nat, value: Value)
    requires k < |After(h).At(side).promises| && Resolved(value) in After(h).At(side).promises[k].outcomes
    ensures Computed(After(h).At(side).promises[k].call, Result(value)) in After(h).At(Other(side)).computed
  {
    RunKeepsInv(h);
    assert Backed(After(h).At(Other(side)), After(h).At(side).promises[k]);
  }

  /** How a reply settles the promise it is for. */
  predicate SettledBy(outcomes: seq<Outcome>, reply: Reply) {
    match reply
    case Result(value) => outcomes == [Resolved(value)]
    case Failure(message) => outcomes == [Failed(message)]
  }

  /**
   * Asked, answered and delivered without loss, a request resolves with the handler's value, or is
   * rejected with the message the handler threw, whatever happened before; nobody else's promise moves.
   */
  lemma RoundTrip(p: Peer, q: Peer, call: Call, reply: Reply)
    requires Half(p, q) && Half(q, p) && call.name in q.handlers
    ensures var id := Number(p.nextId);
            var p1 := Act(p, q, Request(call));
            var q1 := Act(q, p1, Deliver(RequestFrame(id, call)));
            var q2 := Act(q1, p1, Finish(Task(id, call), reply));
            var p2 := Act(p1, q2, Deliver(ResponseFrame(id, reply)));
            && |p2.promises| == |p.promises| + 1 && p2.promises[..|p.promises|] == p.promises
            && p2.promises[|p.promises|].call == call && SettledBy(p2.promises[|p.promises|].outcomes, reply)
            && p2.pending == p.pending && p2.timers == p.timers && q2.tasks == q.tasks
  {
    var id := Number(p.nextId);
    var p1 := Requested(p, call);
    Served(p1, q, id, call, reply);
    ReplySettles(p, call, reply);
  }

  /** A method nobody registered is answered at once, and the caller is told which it was. */
  lemma AnUnknownMethodRejects(p: Peer, q: Peer, call: Call)
    requires Half(p, q) && Half(q, p) && call.name !in q.handlers
    ensures var id, reply := Number(p.nextId), Failure("method not found: " + call.name);
            var p1 := Act(p, q, Request(call));
            var q1 := Act(q, p1, Deliver(RequestFrame(id, call)));
            var p2 := Act(p1, q1, Deliver(ResponseFrame(id, reply)));
            && q1.tasks == q.tasks
            && |p2.promises| == |p.promises| + 1 && p2.promises[..|p.promises|] == p.promises
            && p2.promises[|p.promises|] == Promise(call, [Failed("method not found: " + call.name)])
            && p2.pending == p.pending && p2.timers == p.timers
  {
    var id, reply := Number(p.nextId), Failure("method not found: " + call.name);
    var p1 := Requested(p, call);
    var q1 := Act(q, p1, Deliver(RequestFrame(id, call)));
    assert ResponseFrame(id, reply) in q1.sent;
    ReplySettles(p, call, reply);
  }

  /** The answer to a request just made settles it and leaves the tables as they were. */
  lemma ReplySettles(p: Peer, call: Call, reply: Reply)
    requires Tidy(p)
    ensures var p1 := Requested(p, call);
            var p2 := Dispatched(p1, ResponseFrame(Number(p.nextId), reply));
            && |p2.promises| == |p.promises| + 1 && p2.promises[..|p.promises|] == p.promises
            && p2.promises[|p.promises|].call == call && SettledBy(p2.promises[|p.promises|].outcomes, reply)
            && p2.pending == p.pending && p2.timers == p.timers
  {
    var id := Number(p.nextId);
    var p1 := Requested(p, call);
    assert p1.promises[|p.promises|] == Promise(call, []) && [] + [OutcomeOf(reply)] == [OutcomeOf(reply)];
    AddedAndRemoved(p.pending, id, Pending(|p.promises|, p.nextId));
    AddedAndRemoved(p.timers, p.nextId, Alarm(id, |p.promises|));
  }

  lemma AddedAndRemoved<K, V>(m: map<K, V>, key: K, value: V)
    requires key !in m
    ensures m[key := value] - {key} == m
  {
  }

  lemma Served(p: Peer, q: Peer, id: Id, call: Call, reply: Reply)
    requires RequestFrame(id, call) in p.sent && call.name in q.handlers
    ensures var q1 := Act(q, p, Deliver(RequestFrame(id, call)));
            var q2 := Act(q1, p, Finish(Task(id, call), reply));
            ResponseFrame(id, reply) in q2.sent && q2.tasks == q.tasks
  {
    var q1 := Asked(q, id, call);
    assert Act(q, p, Deliver(RequestFrame(id, call))) == q1;
    assert Task(id, call) in q1.tasks && q1.tasks - multiset{Task(id, call)} == q.tasks;
  }

  /** A notification is sent without an id, and nothing is kept of it. */
  lemma ANotificationIsForgotten(p: Peer, q: Peer, call: Call)
    ensures var p' := Act(p, q, Notify(call));
            && p' == p.(sent := p'.sent)
            && forall m :: m in p'.sent && m !in p.sent ==>
                 m.version2 && m.name == Some(call.name) && m.params == call.params && m.id.None?
    ensures exists m :: m in Act(p, q, Notify(call)).sent && m.name == Some(call.name) && m.params == call.params
                        && m.id.None?
  {
    assert NotificationFrame(call) in Act(p, q, Notify(call)).sent;
  }

  /** A timer that goes off rejects its own request with a timeout, and no other. */
  lemma ATimeoutRejects(p: Peer, q: Peer, timer: nat)
    requires Tidy(p) && timer in p.timers
    ensures var p' := Act(p, q, Expire(timer));
            && 1 <= timer <= |p.promises| == |p'.promises|
            && p'.promises[timer - 1] == Promise(p.promises[timer - 1].call, [TimedOut])
            && (forall k :: 0 <= k < |p.promises| && k != timer - 1 ==> p'.promises[k] == p.promises[k])
            && p'.pending == p.pending - {Number(timer)} && p'.timers == p.timers - {timer} && p'.sent == p.sent
  {
    assert Number(timer) in p.pending;
    PendingIsUnsettled(p, timer - 1);
    assert [] + [TimedOut] == [TimedOut];
  }

  /** Closing rejects exactly what is pending, clears every timer, and sends nothing. */
  lemma ClosingRejects(p: Peer, q: Peer)
    requires Tidy(p)
    ensures var p' := Act(p, q, Close);
            && p'.pending == map[] && p'.timers == map[] && p'.sent == p.sent && p'.nextId == p.nextId
            && |p'.promises| == |p.promises|
            && forall k :: 0 <= k < |p.promises| ==>
                 p'.promises[k] == Promise(p.promises[k].call, if Number(k + 1) in p.pending then [PeerClosed]
                                                               else p.promises[k].outcomes)
  {
    AllTimersArePending(p);
    forall k | 0 <= k < |p.promises|
      ensures Closed(p).promises[k] == Promise(p.promises[k].call, if Number(k + 1) in p.pending then [PeerClosed]
                                                                   else p.promises[k].outcomes)
    {
      ClosedSettlesPending(p, k);
    }
  }

  /**
   * What dispatch ignores, besides running a notification's handler: another protocol version, a message without
   * method and id, a notification, and a response nobody waits for, be it late, repeated or made up.
   */
  lemma IgnoredMessages(p: Peer, m: Message)
    requires !m.version2 || m.id.None? || (m.name.None? && m.id.value !in p.pending)
    ensures Dispatched(p, m) == p
  {
  }
}
