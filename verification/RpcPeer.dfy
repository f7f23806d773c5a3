/** The RpcPeer class of packages/protocol/src/jsonrpc.ts, each method against Rpc. */
module RpcPeer {
  import opened Option
  import opened Rpc

  class RpcPeer {
    var nextId: nat
    var pending: map<Id, Pending>
    var timers: map<nat, Alarm>
    var handlers: set<string>
    var promises: seq<Promise>
    var tasks: multiset<Task>
    var sent: set<Message>
    ghost var computed: set<Computed>

    ghost function State(): Peer
      reads this
    {
      Peer(nextId, pending, timers, handlers, promises, tasks, computed, sent)
    }

    constructor ()
      ensures State() == NewPeer()
    {
      nextId := 1;
      pending := map[];
      timers := map[];
      handlers := {};
      promises := [];
      tasks := multiset{};
      sent := {};
      computed := {};
    }

    method On(name: string)
      modifies this`handlers
      ensures State() == old(State()).(handlers := old(handlers) + {name})
    {
      handlers := handlers + {name};
    }

    /** Returns which promise the caller now holds. */
    method Request(call: Call) returns (promise: nat)
      modifies this
      ensures State() == Requested(old(State()), call)
      ensures promise == |old(promises)|
    {
      var id := nextId;
      nextId := nextId + 1;
      promise := |promises|;
      promises := promises + [Promise(call, [])];
      timers := timers[id := Alarm(Number(id), promise)];
      pending := pending[Number(id) := Pending(promise, id)];
      sent := sent + {RequestFrame(Number(id), call)};
    }

    method Notify(call: Call)
      modifies this`sent
      ensures State() == Notified(old(State()), call)
    {
      sent := sent + {NotificationFrame(call)};
    }

    /** The callback of setTimeout. */
    method OnTimeout(timer: nat)
      requires timer in timers
      modifies this
      ensures State() == Expired(old(State()), timer)
    {
      var alarm := timers[timer];
      timers := timers - {timer};
      pending := pending - {alarm.id};
      promises := Settle(promises, alarm.promise, TimedOut);
    }

    /** Reject whatever is pending, one entry after the other. */
    method Close()
      requires Tidy(State())
      modifies this
      ensures State() == Closed(old(State()))
    {
      ghost var p := State();
      NothingRejected(p);
      var rest := pending.Keys;
      while rest != {}
        invariant rest <= p.pending.Keys && State() == RejectedSoFar(p, rest)
        decreases |rest|
      {
        var id :| id in rest;
        OneMoreRejected(p, rest, id);
        Reject(pending[id]);
        rest := rest - {id};
      }
      pending := map[];
    }

    method Reject(entry: Pending)
      modifies this`timers, this`promises
      ensures State() == Rejecting(old(State()), entry)
    {
      timers := timers - {entry.timer};
      promises := Settle(promises, entry.promise, PeerClosed);
    }

    /** A raw message arrives. */
    method Dispatch(m: Message)
      modifies this
      ensures State() == Dispatched(old(State()), m)
    {
      if !m.version2 {
        return;
      }
      if m.name.None? && m.id.Some? {
        if m.id.value in pending {
          var entry := pending[m.id.value];
          timers := timers - {entry.timer};
          pending := pending - {m.id.value};
          if m.error.Some? {
            promises := Settle(promises, entry.promise, Failed(m.error.value));
          } else {
            promises := Settle(promises, entry.promise, Resolved(m.result));
          }
        }
        return;
      }
      if m.name.None? {
        return;
      }
      if m.id.Some? {
        var call := Call(m.name.value, m.params);
        if m.name.value !in handlers {
          Respond(m.id.value, call, Unhandled(m.name.value));
          return;
        }
        tasks := tasks + multiset{Task(m.id.value, call)};
      }
    }

    /** A handler run ends, with a value or an error. */
    method Finish(task: Task, reply: Reply)
      requires task in tasks
      modifies this
      ensures State() == Finished(old(State()), task, reply)
    {
      tasks := tasks - multiset{task};
      Respond(task.id, task.call, reply);
    }

    method Respond(id: Id, call: Call, reply: Reply)
      modifies this`sent, this`computed
      ensures sent == old(sent) + {ResponseFrame(id, reply)} && computed == old(computed) + {Computed(call, reply)}
    {
      sent := sent + {ResponseFrame(id, reply)};
      computed := computed + {Computed(call, reply)};
    }
  }

  /** One pending entry rejected, its timer cleared. */
  ghost function Rejecting(p: Peer, entry: Pending): Peer {
    p.(timers := p.timers - {entry.timer}, promises := Settle(p.promises, entry.promise, PeerClosed))
  }

  ghost function PromisesBut(p: Peer, rest: set<Id>): set<nat> {
    set id | id in p.pending && id !in rest :: p.pending[id].promise
  }

  ghost function TimersBut(p: Peer, rest: set<Id>): set<nat> {
    set id | id in p.pending && id !in rest :: p.pending[id].timer
  }

  /** The closing loop with only `rest` still to reject. */
  ghost function RejectedSoFar(p: Peer, rest: set<Id>): Peer {
    p.(timers := p.timers - TimersBut(p, rest), promises := RejectAll(p.promises, PromisesBut(p, rest)))
  }

  lemma NothingRejected(p: Peer)
    ensures RejectedSoFar(p, p.pending.Keys) == p
    ensures RejectedSoFar(p, {}).(pending := map[]) == Closed(p)
  {
    assert PromisesBut(p, p.pending.Keys) == {} && TimersBut(p, p.pending.Keys) == {};
    assert RejectAll(p.promises, {}) == p.promises;
    assert PromisesBut(p, {}) == Waiting(p) && TimersBut(p, {}) == PendingTimers(p);
  }

  lemma PromiseIsStillWaiting(p: Peer, rest: set<Id>, id: Id)
    requires Tidy(p) && id in p.pending && id in rest
    ensures p.pending[id].promise !in PromisesBut(p, rest) && p.pending[id].promise < |p.promises|
  {
  }

  lemma OneLessToReject(p: Peer, rest: set<Id>, id: Id)
    requires id in p.pending && id in rest
    ensures PromisesBut(p, rest - {id}) == PromisesBut(p, rest) + {p.pending[id].promise}
    ensures TimersBut(p, rest - {id}) == TimersBut(p, rest) + {p.pending[id].timer}
  {
  }

  lemma OneMoreRejected(p: Peer, rest: set<Id>, id: Id)
    requires Tidy(p) && rest <= p.pending.Keys && id in rest
    ensures RejectedSoFar(p, rest - {id}) == Rejecting(RejectedSoFar(p, rest), p.pending[id])
  {
    var entry, done := p.pending[id], PromisesBut(p, rest);
    PromiseIsStillWaiting(p, rest, id);
    OneLessToReject(p, rest, id);
    RejectedNext(p.promises, done, entry.promise);
    RemovedOneByOne(p.timers, TimersBut(p, rest), entry.timer);
  }

  lemma RemovedOneByOne(timers: map<nat, Alarm>, cleared: set<nat>, timer: nat)
    ensures timers - (cleared + {timer}) == timers - cleared - {timer}
  {
  }

  lemma RejectedNext(promises: seq<Promise>, done: set<nat>, k: nat)
    requires k < |promises| && k !in done
    ensures RejectAll(promises, done + {k}) == Settle(RejectAll(promises, done), k, PeerClosed)
  {
  }
}
