/**
 * The routing table of live node connections: packages/hub/src/connection.ts, the
 * server side of packages/protocol/src/handshake.ts and the connection methods of
 * packages/hub/src/control-plane.ts, over every history of events.
 */
module Connections {
  import opened Option

  const ENROLL_PREFIX := "enroll:"
  const CP_PREFIX := "cp:"
  const MAX_AUTH_ATTEMPTS := 3

  /** A message authentication code, by the token it was made with and whether over this handshake's nonces. */
  datatype Mac = Mac(token: string, ofThisHandshake: bool)

  /** A wire message, by what the handshake looks at. */
  datatype Wire = Hello(versionOk: bool, nodeId: string, hasNonce: bool) | Auth(nodeId: string, mac: Mac) | Other

  /** One connection: who it speaks for, whether it has the node RPCs, and its handshake. */
  datatype Conn = Conn(nodeId: string, routed: bool, closed: bool,
                       done: bool, hello: Option<string>, challenged: bool, authAttempts: nat)

  const NEW_CONN := Conn("", false, false, false, None, false, 0)

  /** Every connection ever accepted, the routing table, and the tokens of the nodes. */
  datatype Hub = Hub(conns: seq<Conn>, table: map<string, nat>, tokens: map<string, string>)

  /** The token of this id was used. */
  predicate Proves(tokens: map<string, string>, id: string, mac: Mac) {
    id in tokens && tokens[id] != "" && mac.ofThisHandshake && mac.token == tokens[id]
  }

  // ---- what one event does ----

  /** close(): the entry goes only if it is this connection's. */
  function Closed(h: Hub, c: nat): Hub
    requires c < |h.conns|
  {
    var conn := h.conns[c];
    if conn.closed then h
    else
      h.(conns := h.conns[c := conn.(closed := true)],
         table := if conn.nodeId != "" && conn.nodeId in h.table && h.table[conn.nodeId] == c
                  then h.table - {conn.nodeId} else h.table)
  }

  function Failed(h: Hub, c: nat): Hub
    requires c < |h.conns|
  {
    Closed(h.(conns := h.conns[c := h.conns[c].(done := true)]), c)
  }

  /** The handshake is over; only a proved connection gets the node RPCs and, unless it is a peer plane, an entry. */
  function Authenticated(h: Hub, c: nat, id: string, proved: bool): Hub
    requires c < |h.conns|
  {
    h.(conns := h.conns[c := h.conns[c].(done := true, nodeId := id, routed := proved)],
       table := if proved && !(CP_PREFIX <= id) then h.table[id := c] else h.table)
  }

  function Received(h: Hub, c: nat, msg: Wire): Hub
    requires c < |h.conns|
  {
    var conn := h.conns[c];
    if conn.closed || conn.done then h
    else
      match msg
      case Hello(versionOk, id, hasNonce) =>
        if !versionOk then Failed(h, c)
        else if ENROLL_PREFIX <= id then
          Authenticated(h.(conns := h.conns[c := conn.(hello := Some(id))]), c, id, false)
        else h.(conns := h.conns[c := conn.(hello := Some(id), challenged := hasNonce)])
      case Auth(id, mac) =>
        if conn.hello.None? || !conn.challenged || conn.authAttempts >= MAX_AUTH_ATTEMPTS then Failed(h, c)
        else
          var tried := h.(conns := h.conns[c := conn.(authAttempts := conn.authAttempts + 1)]);
          if Proves(h.tokens, id, mac) then Authenticated(tried, c, conn.hello.value, true) else Failed(tried, c)
      case Other => h
  }

  /** node.release, which only a routed connection can call: whatever is filed under its id goes. */
  function Released(h: Hub, c: nat): Hub
    requires c < |h.conns|
  {
    if h.conns[c].closed || !h.conns[c].routed then h else h.(table := h.table - {h.conns[c].nodeId})
  }

  datatype Event = Accept | Receive(c: nat, msg: Wire) | CloseSocket(c: nat) | Release(c: nat)
                 | Enroll(id: string, token: string)

  function Next(h: Hub, e: Event): Hub {
    match e
    case Accept => h.(conns := h.conns + [NEW_CONN])
    case Receive(c, msg) => if c < |h.conns| then Received(h, c, msg) else h
    case CloseSocket(c) => if c < |h.conns| then Closed(h, c) else h
    case Release(c) => if c < |h.conns| then Released(h, c) else h
    case Enroll(id, token) => h.(tokens := h.tokens[id := token])
  }

  /** The events so far, the latest one outermost. */
  datatype History = Nothing | Then(earlier: History, event: Event)

  function After(h: History): Hub {
    if h.Nothing? then Hub([], map[], map[]) else Next(After(h.earlier), h.event)
  }

  // ---- how a handshake can go ----

  /** Connection c is open and still shaking hands. */
  predicate Shaking(h: Hub, c: nat) {
    c < |h.conns| && !h.conns[c].closed && !h.conns[c].done && !h.conns[c].routed && h.conns[c].nodeId == ""
  }

  /** Nothing but connection c has changed. */
  predicate OnlyConn(h: Hub, h': Hub, c: nat, conn: Conn)
    requires c < |h.conns|
  {
    h'.conns == h.conns[c := conn] && h'.tokens == h.tokens
  }

  /** The connection is closed unrouted: the handshake is over. */
  predicate TurnedAway(h: Hub, h': Hub, c: nat)
    requires c < |h.conns|
  {
    && |h'.conns| == |h.conns| && h'.tokens == h.tokens && h'.table == h.table
    && (forall d :: 0 <= d < |h.conns| && d != c ==> h'.conns[d] == h.conns[d])
    && h'.conns[c].closed && h'.conns[c].done && !h'.conns[c].routed && h'.conns[c].nodeId == ""
  }

  /** A hello of another version closes; an enrolling one is welcomed, unrouted; any other is challenged. */
  lemma WhatAHelloBrings(h: Hub, c: nat, versionOk: bool, id: string, hasNonce: bool)
    requires Shaking(h, c)
    ensures var h', conn := Next(h, Receive(c, Hello(versionOk, id, hasNonce))), h.conns[c];
            if !versionOk then TurnedAway(h, h', c)
            else if "enroll:" <= id
            then OnlyConn(h, h', c, conn.(done := true, nodeId := id, hello := Some(id))) && h'.table == h.table
            else OnlyConn(h, h', c, conn.(hello := Some(id), challenged := hasNonce)) && h'.table == h.table
  {
  }

  /** The code was made with the token stored for this id, over this handshake's nonces. */
  predicate RightCode(h: Hub, id: string, mac: Mac) {
    id in h.tokens && h.tokens[id] == mac.token != "" && mac.ofThisHandshake
  }

  /**
   * An auth message before a hello with a nonce, after three others, or with a wrong code closes; the right code
   * admits the connection under the id of its hello and files it there, unless it is a peer plane's.
   */
  lemma WhatAnAuthBrings(h: Hub, c: nat, id: string, mac: Mac)
    requires Shaking(h, c)
    ensures var h', conn := Next(h, Receive(c, Auth(id, mac))), h.conns[c];
            if conn.hello.None? || !conn.challenged || conn.authAttempts >= 3 || !RightCode(h, id, mac)
            then TurnedAway(h, h', c)
            else
              && OnlyConn(h, h', c, conn.(done := true, nodeId := conn.hello.value, routed := true,
                                          authAttempts := conn.authAttempts + 1))
              && h'.table == if "cp:" <= conn.hello.value then h.table else h.table[conn.hello.value := c]
  {
  }

  /** Once the handshake is over or the connection closed, messages change nothing; nor do others before. */
  lemma NothingAfterTheHandshake(h: Hub, c: nat, msg: Wire)
    requires c < |h.conns| && (h.conns[c].closed || h.conns[c].done || msg.Other?)
    ensures Next(h, Receive(c, msg)) == h
  {
  }

  /** Only an open, admitted connection can release, and it closes nothing. */
  lemma WhatAReleaseBrings(h: Hub, c: nat)
    requires c < |h.conns|
    ensures var h' := Next(h, Release(c));
            && h'.conns == h.conns && h'.tokens == h.tokens
            && (h.conns[c].closed || !h.conns[c].routed ==> h' == h)
            && (!h.conns[c].closed && h.conns[c].routed ==>
                  h.conns[c].nodeId !in h'.table && forall id :: id in h.table && id != h.conns[c].nodeId ==>
                    id in h'.table && h'.table[id] == h.table[id])
  {
  }

  /** A close closes, and only once. */
  lemma WhatACloseBrings(h: Hub, c: nat)
    requires c < |h.conns|
    ensures var h' := Next(h, CloseSocket(c));
            && h'.conns == h.conns[c := h.conns[c].(closed := true)] && h'.tokens == h.tokens
            && Next(h', CloseSocket(c)) == h'
  {
  }

  // ---- the history behind the table ----

  /** The latest event admits a connection as the node, or the peer plane, of this id. */
  predicate Admits(h: History, id: string) {
    && h.Then? && h.event.Receive? && h.event.c < |After(h.earlier).conns|
    && !After(h.earlier).conns[h.event.c].routed && After(h).conns[h.event.c].routed
    && After(h).conns[h.event.c].nodeId == id
  }

  /** The latest event files a connection under an id: it admits it, and not as a peer plane. */
  predicate Files(h: History, id: string) {
    Admits(h, id) && !(CP_PREFIX <= id)
  }

  /** The latest event releases an id. */
  predicate Frees(h: History, id: string) {
    && h.Then? && h.event.Release? && h.event.c < |After(h.earlier).conns|
    && var conn := After(h.earlier).conns[h.event.c]; !conn.closed && conn.routed && conn.nodeId == id
  }

  /** The last connection to authenticate for an id since the id was last released. */
  function Latest(h: History, id: string): (c: Option<nat>)
    ensures c.Some? ==> c.value < |After(h).conns|
  {
    if h.Nothing? || Frees(h, id) then None
    else if Files(h, id) then Some(h.event.c)
    else Latest(h.earlier, id)
  }

  /** A connection that is still shaking hands speaks for nobody. */
  predicate Unnamed(conn: Conn) {
    !conn.done ==> conn.nodeId == "" && !conn.routed && (conn.hello.Some? ==> !(ENROLL_PREFIX <= conn.hello.value))
  }

  lemma {:induction false} HandshakesAreUnnamed(h: History)
    ensures forall c :: 0 <= c < |After(h).conns| ==> Unnamed(After(h).conns[c])
  {
    if h.Then? {
      HandshakesAreUnnamed(h.earlier);
    }
  }

  /** The table says of this id exactly what the history does. */
  ghost predicate Routes(h: History, id: string) {
    var s, latest := After(h), Latest(h, id);
    && (latest.Some? ==>
          && s.conns[latest.value].nodeId == id && s.conns[latest.value].routed
          && s.conns[latest.value].done && !(CP_PREFIX <= id) && !(ENROLL_PREFIX <= id))
    && (id in s.table <==> latest.Some? && (id == "" || !s.conns[latest.value].closed))
    && (id in s.table ==> s.table[id] == latest.value)
  }

  lemma AdmissionRoutes(h: History, admitted: string, id: string)
    requires Admits(h, admitted) && Routes(h.earlier, id)
    ensures Routes(h, id)
  {
    HandshakesAreUnnamed(h.earlier);
  }

  lemma OtherAuthRoutes(h: History, id: string)
    requires h.Then? && h.event.Receive? && h.event.msg.Auth? && Routes(h.earlier, id)
    requires h.event.c < |After(h).conns| ==> !Admits(h, After(h).conns[h.event.c].nodeId)
    ensures Routes(h, id)
  {
    HandshakesAreUnnamed(h.earlier);
  }

  lemma OtherMessageRoutes(h: History, id: string)
    requires h.Then? && h.event.Receive? && !h.event.msg.Auth? && Routes(h.earlier, id)
    ensures Routes(h, id)
  {
    HandshakesAreUnnamed(h.earlier);
  }

  lemma OtherEventRoutes(h: History, id: string)
    requires h.Then? && !h.event.Receive? && Routes(h.earlier, id)
    ensures Routes(h, id)
  {
  }

  /**
   * Over every history the table holds exactly the last connection to authenticate for each id
   * since its last release, while that connection is open. The empty id is the exception: its entry
   * outlives its connection.
   */
  lemma {:induction false} TableIsTheLatestOpen(h: History, id: string)
    ensures Routes(h, id)
  {
    if h.Then? {
      TableIsTheLatestOpen(h.earlier, id);
      if !h.event.Receive? {
        OtherEventRoutes(h, id);
      } else if !h.event.msg.Auth? {
        OtherMessageRoutes(h, id);
      } else if h.event.c < |After(h).conns| && Admits(h, After(h).conns[h.event.c].nodeId) {
        AdmissionRoutes(h, After(h).conns[h.event.c].nodeId, id);
      } else {
        OtherAuthRoutes(h, id);
      }
    }
  }

  /**
   * Every entry is a proved connection that speaks for the id it is filed under, and for no other;
   * a closed one is only ever found under the empty id.
   */
  lemma RoutedConnections(h: History, id: string)
    requires id in After(h).table
    ensures var s, c := After(h), After(h).table[id];
            && c < |s.conns| && s.conns[c].routed && s.conns[c].nodeId == id
            && (s.conns[c].closed ==> id == "")
            && forall other :: other in s.table && s.table[other] == c ==> other == id
  {
    TableIsTheLatestOpen(h, id);
    forall other | other in After(h).table && After(h).table[other] == After(h).table[id]
      ensures other == id
    {
      TableIsTheLatestOpen(h, other);
    }
  }

  // ---- a connection from hello to its entry ----

  /** Connection c says hello under an id and authenticates with the token of another, or the same, id. */
  function Connected(h: History, c: nat, id: string, authId: string, token: string): History {
    Then(Then(Then(h, Accept), Receive(c, Hello(true, id, true))), Receive(c, Auth(authId, Mac(token, true))))
  }

  function RoutedConn(id: string): Conn {
    Conn(id, true, false, true, Some(id), true, 1)
  }

  lemma ConnectedIsRouted(h: History, c: nat, id: string, authId: string, token: string)
    requires c == |After(h).conns| && !(ENROLL_PREFIX <= id)
    requires Proves(After(h).tokens, authId, Mac(token, true))
    ensures var s := After(h);
            After(Connected(h, c, id, authId, token))
              == Hub(s.conns + [RoutedConn(id)], if CP_PREFIX <= id then s.table else s.table[id := c], s.tokens)
    ensures Admits(Connected(h, c, id, authId, token), id)
    ensures After(Connected(h, c, id, authId, token).earlier).tokens == After(h).tokens
  {
    var s := After(h);
    var h1 := Then(h, Accept);
    var h2 := Then(h1, Receive(c, Hello(true, id, true)));
    var greeted := Conn("", false, false, false, Some(id), true, 0);
    assert After(h1).conns == s.conns + [NEW_CONN];
    assert After(h2).conns == s.conns + [greeted];
    var last := After(Connected(h, c, id, authId, token));
    assert last == Received(After(h2), c, Auth(authId, Mac(token, true)));
    assert last.conns == s.conns + [RoutedConn(id)];
  }

  // ---- closing ----

  /** Every entry of another connection survives. */
  predicate KeepsOthers(before: Hub, after: Hub, c: nat) {
    forall id :: id in before.table && before.table[id] != c ==>
      id in after.table && after.table[id] == before.table[id]
  }

  /** A close, however late it is processed, never takes out a newer connection. */
  lemma ClosingKeepsOthers(h: History, c: nat)
    ensures KeepsOthers(After(h), After(Then(h, CloseSocket(c))), c)
  {
  }

  /** Closing a routed connection takes it out of the table exactly if its id is not empty, and takes out no other. */
  lemma CloseUnroutesExactly(h: History, c: nat, id: string)
    requires id in After(h).table && After(h).table[id] == c
    ensures var after := After(Then(h, CloseSocket(c)));
            && KeepsOthers(After(h), after, c)
            && (id in after.table <==> id == "")
  {
    ClosingKeepsOthers(h, c);
    TableIsTheLatestOpen(h, id);
    TableIsTheLatestOpen(Then(h, CloseSocket(c)), id);
  }

  /** A node that says hello with an empty id, shows its own token, and leaves its dead connection in the table. */
  function UnnamedHistory(a: string, token: string): History {
    Then(Connected(Then(Nothing, Enroll(a, token)), 0, "", a, token), CloseSocket(0))
  }

  lemma AnUnnamedConnectionStays(a: string, token: string)
    requires a != "" && token != ""
    ensures var s := After(UnnamedHistory(a, token));
            s.table == map["" := 0] && s.conns == [RoutedConn("").(closed := true)]
  {
    var start := Then(Nothing, Enroll(a, token));
    assert After(start) == Hub([], map[], map[a := token]);
    ConnectedIsRouted(start, 0, "", a, token);
    assert After(Connected(start, 0, "", a, token)).conns == [RoutedConn("")];
  }

  // ---- releasing ----

  /**
   * A release is not checked against the connection that asks: it leaves the entries of all other
   * connections alone exactly when no other connection, still open, has since authenticated for its id.
   */
  lemma ReleaseKeepsOthersExactly(h: History, c: nat)
    requires c < |After(h).conns| && !After(h).conns[c].closed && After(h).conns[c].routed
    ensures var id := After(h).conns[c].nodeId;
            KeepsOthers(After(h), After(Then(h, Release(c))), c) <==>
              Latest(h, id).None? || Latest(h, id).value == c
              || (id != "" && After(h).conns[Latest(h, id).value].closed)
  {
    var id := After(h).conns[c].nodeId;
    TableIsTheLatestOpen(h, id);
  }

  /** A node reconnects, and then its old connection says goodbye. */
  function Reconnected(id: string, token: string): History {
    Connected(Connected(Then(Nothing, Enroll(id, token)), 0, id, id, token), 1, id, id, token)
  }

  lemma ALateReleaseDropsTheNewer(id: string, token: string)
    requires token != "" && !(CP_PREFIX <= id) && !(ENROLL_PREFIX <= id)
    ensures var before, after := After(Reconnected(id, token)), After(Then(Reconnected(id, token), Release(0)));
            && before.conns == after.conns == [RoutedConn(id), RoutedConn(id)]
            && before.table == map[id := 1] && after.table == map[]
  {
    var start := Then(Nothing, Enroll(id, token));
    var first := Connected(start, 0, id, id, token);
    assert After(start) == Hub([], map[], map[id := token]);
    ConnectedIsRouted(start, 0, id, id, token);
    assert After(first) == Hub([RoutedConn(id)], map[id := 0], map[id := token]);
    ConnectedIsRouted(first, 1, id, id, token);
    assert After(Reconnected(id, token)) == Hub([RoutedConn(id), RoutedConn(id)], map[id := 1], map[id := token]);
  }

  // ---- whose token was shown ----

  /** The id a connection is admitted under comes from its hello, the token from the id in its auth message. */
  lemma AdmittedByAToken(h: History, id: string)
    requires Admits(h, id)
    ensures h.event.msg.Auth? && After(h.earlier).conns[h.event.c].hello == Some(id)
    ensures Proves(After(h.earlier).tokens, h.event.msg.nodeId, h.event.msg.mac)
  {
    HandshakesAreUnnamed(h.earlier);
  }

  /**
   * The token of the admitted id itself, a node's or a peer plane's, was shown exactly when that id
   * has the token of the id in the auth message.
   */
  lemma OwnTokenShownExactly(h: History, id: string)
    requires Admits(h, id)
    ensures var tokens, auth := After(h.earlier).tokens, h.event.msg;
            Proves(tokens, id, auth.mac) <==> id in tokens && tokens[id] == tokens[auth.nodeId]
  {
    AdmittedByAToken(h, id);
  }

  /**
   * From any state: whoever holds the token of one id is admitted under every other id that is not
   * for enrollment, and without that id's token unless the two are the same.
   */
  lemma AdmittedWithoutItsOwnToken(h: History, a: string, b: string, token: string) returns (h': History)
    requires Proves(After(h).tokens, a, Mac(token, true)) && !(ENROLL_PREFIX <= b)
    requires b in After(h).tokens ==> After(h).tokens[b] != token
    ensures Admits(h', b) && !Proves(After(h'.earlier).tokens, b, h'.event.msg.mac)
  {
    h' := Connected(h, |After(h).conns|, b, a, token);
    ConnectedIsRouted(h, |After(h).conns|, b, a, token);
    OwnTokenShownExactly(h', b);
  }

  /** A node's token opens a connection as the peer plane x, which nobody ever gave a token. */
  lemma APeerPlaneByANodesToken(a: string, token: string)
    requires a != "" && a != CP_PREFIX + "x" && token != ""
    ensures var h := Connected(Then(Nothing, Enroll(a, token)), 0, CP_PREFIX + "x", a, token);
            && Admits(h, CP_PREFIX + "x") && CP_PREFIX + "x" !in After(h).tokens
            && After(h) == Hub([RoutedConn(CP_PREFIX + "x")], map[], map[a := token])
  {
    var start := Then(Nothing, Enroll(a, token));
    assert After(start) == Hub([], map[], map[a := token]);
    assert (CP_PREFIX + "x")[0] != ENROLL_PREFIX[0];
    ConnectedIsRouted(start, 0, CP_PREFIX + "x", a, token);
  }
}
