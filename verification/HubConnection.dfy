/** The ControlPlane and HubConnection objects themselves, each method against Connections. */
module HubConnection {
  import opened Option
  import opened Connections

  class ControlPlane {
    var connections: map<string, HubConnection>
    var tokens: map<string, string>
    /** Every connection ever accepted, in order, and the value of everything. */
    ghost var all: seq<HubConnection>
    ghost var model: Hub

    ghost predicate Valid()
      reads this, all
    {
      && Known()
      && |model.conns| == |all| && tokens == model.tokens
      && forall i :: 0 <= i < |all| ==> all[i].Value() == model.conns[i]
    }

    /** The accepted connections are numbered, and the table names them by their numbers. */
    ghost predicate Known()
      reads this
    {
      && (forall i :: 0 <= i < |all| ==> all[i].cp == this && all[i].number == i)
      && connections.Keys == model.table.Keys
      && (forall id :: id in connections ==>
            model.table[id] < |all| && connections[id] == all[model.table[id]])
    }

    constructor (tokens: map<string, string>)
      ensures Valid() && all == [] && model == Hub([], map[], tokens)
    {
      this.tokens := tokens;
      connections := map[];
      all := [];
      model := Hub([], map[], tokens);
    }

    /** A socket is accepted. */
    method AcceptConnection() returns (c: HubConnection)
      requires Valid()
      modifies this`all, this`model
      ensures Valid() && fresh(c) && c.number == |old(all)| && all == old(all) + [c]
      ensures model == Next(old(model), Accept)
    {
      c := new HubConnection(this, |all|);
      all := all + [c];
      model := Next(model, Accept);
    }

    /** A node gets its long-term token. */
    method EnrollNode(id: string, token: string)
      requires Valid()
      modifies this`tokens, this`model
      ensures Valid() && all == old(all) && model == Next(old(model), Enroll(id, token))
    {
      tokens := tokens[id := token];
      model := Next(model, Enroll(id, token));
    }

    /** Peer control planes go to the HA layer, everything else into the table. */
    method OnNodeAuthenticated(nodeId: string, c: HubConnection)
      modifies this`connections
      ensures connections == if CP_PREFIX <= nodeId then old(connections) else old(connections)[nodeId := c]
    {
      if CP_PREFIX <= nodeId {
        return;
      }
      connections := connections[nodeId := c];
    }

    method Unroute(nodeId: string)
      requires Valid()
      modifies this`connections, this`model
      ensures Valid() && model == old(model).(table := old(model).table - {nodeId})
    {
      connections := connections - {nodeId};
      model := model.(table := model.table - {nodeId});
    }

    /** A node says goodbye: whatever is filed under its id goes. */
    method HandleRelease(nodeId: string)
      requires Valid()
      modifies this`connections, this`model
      ensures Valid() && model == old(model).(table := old(model).table - {nodeId})
    {
      Unroute(nodeId);
    }
  }

  class HubConnection {
    const cp: ControlPlane
    ghost const number: nat
    var nodeId: string
    var closed: bool
    var routed: bool
    // the handshake
    var done: bool
    var hello: Option<string>
    var challenged: bool
    var authAttempts: nat

    ghost function Value(): Conn
      reads this
    {
      Conn(nodeId, routed, closed, done, hello, challenged, authAttempts)
    }

    /** One of the control plane's connections. */
    ghost predicate Registered()
      reads this, cp, cp.all
    {
      cp.Valid() && number < |cp.all| && cp.all[number] == this
    }

    constructor (cp: ControlPlane, ghost number: nat)
      ensures this.cp == cp && this.number == number && Value() == NEW_CONN
    {
      this.cp := cp;
      this.number := number;
      nodeId := "";
      closed, routed, done, challenged := false, false, false, false;
      hello := None;
      authAttempts := 0;
    }

    /** The flag goes up first, so that a second close does nothing. */
    method MarkClosed()
      requires Registered()
      modifies this`closed, cp`model
      ensures Registered() && cp.all == old(cp.all) && closed
      ensures cp.model == old(cp.model).(conns := old(cp.model).conns[number := Value()])
      ensures Value() == old(Value()).(closed := true)
    {
      closed := true;
      cp.model := cp.model.(conns := cp.model.conns[number := Value()]);
    }

    method Close()
      requires Registered()
      modifies this`closed, cp`connections, cp`model
      ensures Registered() && cp.all == old(cp.all)
      ensures cp.model == Closed(old(cp.model), number)
    {
      if closed {
        return;
      }
      MarkClosed();
      if nodeId != "" {
        if nodeId in cp.connections && cp.connections[nodeId] == this {
          cp.Unroute(nodeId);
        }
      }
    }

    /** The handshake failed: report and close. */
    method Fail()
      requires Registered()
      modifies this`done, this`closed, cp`connections, cp`model
      ensures Registered() && cp.all == old(cp.all)
      ensures cp.model == Failed(old(cp.model), number)
    {
      done := true;
      cp.model := cp.model.(conns := cp.model.conns[number := Value()]);
      Close();
    }

    method Authenticate(id: string, proved: bool)
      requires Registered()
      modifies this`done, this`nodeId, this`routed, cp`connections, cp`model
      ensures Registered() && cp.all == old(cp.all)
      ensures cp.model == Authenticated(old(cp.model), number, id, proved)
    {
      cp.model := Authenticated(cp.model, number, id, proved);
      done := true;
      nodeId := id;
      routed := proved;
      if proved {
        cp.OnNodeAuthenticated(id, this);
      }
    }

    /** A hello: peers without a token are let in for enrollment only, everybody else is challenged. */
    method OnHello(versionOk: bool, id: string, hasNonce: bool)
      requires Registered() && !closed && !done
      modifies this, cp`connections, cp`model
      ensures Registered() && cp.all == old(cp.all)
      ensures cp.model == Received(old(cp.model), number, Hello(versionOk, id, hasNonce))
    {
      if !versionOk {
        Fail();
        return;
      }
      hello := Some(id);
      if ENROLL_PREFIX <= id {
        cp.model := cp.model.(conns := cp.model.conns[number := Value()]);
        Authenticate(id, false);
        return;
      }
      challenged := hasNonce;
      cp.model := cp.model.(conns := cp.model.conns[number := Value()]);
    }

    /** An auth message: the token is looked up under the id it carries. */
    method OnAuth(id: string, mac: Mac)
      requires Registered() && !closed && !done
      modifies this, cp`connections, cp`model
      ensures Registered() && cp.all == old(cp.all)
      ensures cp.model == Received(old(cp.model), number, Auth(id, mac))
    {
      if hello.None? || !challenged || authAttempts >= MAX_AUTH_ATTEMPTS {
        Fail();
        return;
      }
      authAttempts := authAttempts + 1;
      cp.model := cp.model.(conns := cp.model.conns[number := Value()]);
      if !Proves(cp.tokens, id, mac) {
        Fail();
        return;
      }
      Authenticate(hello.value, true);
    }

    method Inbound(msg: Wire)
      requires Registered()
      modifies this, cp`connections, cp`model
      ensures Registered() && cp.all == old(cp.all)
      ensures cp.model == Received(old(cp.model), number, msg)
    {
      if closed || done {
        return;
      }
      match msg
      case Hello(versionOk, id, hasNonce) => OnHello(versionOk, id, hasNonce);
      case Auth(id, mac) => OnAuth(id, mac);
      case Other =>
    }

    /** The node.release RPC, which an open, routed connection offers. */
    method Release()
      requires Registered()
      modifies cp`connections, cp`model
      ensures Registered() && cp.all == old(cp.all)
      ensures cp.model == Released(old(cp.model), number)
    {
      if !closed && routed {
        cp.HandleRelease(nodeId);
      }
    }
  }
}
