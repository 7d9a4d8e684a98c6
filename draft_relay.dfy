/**
 * The earlier relay of server.js: only a `users` map, no `clients` map, no
 * broadcaster slot and no `to` routing. Its `join` reply counts the keys of
 * `users` instead of the live sockets.
 *
 * As for server.ts, `State` and the `After...` functions say what an event
 * does, and class `Server` does it in place.
 */
module DraftRelay {
  import opened Json
  import opened Envelopes
  import opened Sockets
  import opened Events

  /**
   * `users` is the module-level map; `conns` is `wss.clients` in iteration
   * order and `open` the sockets whose readyState is OPEN; `idOf` is each
   * socket's `ws.id` and `nameOf` each connection's `username` variable.
   */
  datatype State = State(
    users: map<string, Value>,
    conns: seq<Socket>,
    open: set<Socket>,
    idOf: map<Socket, string>,
    nameOf: map<Socket, Value>,
    outbox: seq<Send>)

  ghost predicate Inv(st: State) {
    && Distinct(st.conns)
    && (forall s :: s in st.open ==> s in st.conns)
    && (forall s :: s in st.conns ==> s in st.idOf)
    && st.nameOf.Keys == st.idOf.Keys
    && (forall s, t :: s in st.idOf && t in st.idOf && s != t ==> st.idOf[s] != st.idOf[t])
    && (forall k :: k in st.users ==> k in st.idOf.Values)
  }

  function Initial(): State {
    State(map[], [], {}, map[], map[], [])
  }

  predicate Fresh(st: State, ws: Socket, id: string) {
    ws !in st.idOf && id !in st.idOf.Values
  }

  /** The `connection` handler: `ws.id = id; users[id] = id`. */
  function AfterConnect(st: State, ws: Socket, id: string): State {
    st.(users := st.users[id := Str(id)], conns := st.conns + [ws], open := st.open + {ws},
        idOf := st.idOf[ws := id], nameOf := st.nameOf[ws := Str(id)])
  }

  /** Which branch of the `message` handler a parsed frame takes, in the handler's order. */
  datatype Route = Rename | ChatAll | Join | RelayAll

  function RouteOf(data: Json.Object): Route {
    var kind := Get(data, "type");
    if LooseEqualsWord(kind, "username") then Rename
    else if LooseEqualsWord(kind, "message") then ChatAll
    else if LooseEqualsWord(kind, "join") then Join
    else RelayAll
  }

  /** `users[id] = data.username; username = data.username`. */
  function AfterRename(st: State, ws: Socket, data: Json.Object): State
    requires ws in st.idOf
  {
    st.(users := st.users[st.idOf[ws] := Get(data, "username")],
        nameOf := st.nameOf[ws := Get(data, "username")])
  }

  /** The chat envelope the `message` branch sends. */
  function ChatOf(st: State, ws: Socket, data: Json.Object): Envelope
    requires ws in st.nameOf
  {
    Chat(Get(data, "message"), SenderName(st.nameOf[ws]))
  }

  /** `wss.clients.forEach(c => c.send(chat))`. */
  function AfterChat(st: State, ws: Socket, data: Json.Object): State
    requires ws in st.nameOf
  {
    st.(outbox := st.outbox + SendAll(st.conns, ChatOf(st, ws, data)))
  }

  /** The join reply, positioned by the number of keys of `users`. */
  function AfterJoin(st: State, ws: Socket): State
    requires ws in st.idOf
  {
    var n := |st.users.Keys|;
    st.(outbox := st.outbox + [(ws, JoinReply(n, n == 1, st.idOf[ws]))])
  }

  /** `{...data, from: id}` to every OPEN socket. */
  function AfterRelayAll(st: State, ws: Socket, data: Json.Object): State
    requires ws in st.idOf
  {
    st.(outbox := st.outbox + SendOpen(st.conns, st.open, Spread(data, st.idOf[ws])))
  }

  /** The `message` handler for the connection of socket `ws`. */
  function AfterMessage(st: State, ws: Socket, frame: Frame): State
    requires ws in st.idOf && ws in st.nameOf
  {
    match frame
    case Malformed => st.(outbox := st.outbox + [(ws, ErrorEnvelope())])
    case Parsed(data) =>
      match RouteOf(data)
      case Rename => AfterRename(st, ws, data)
      case ChatAll => AfterChat(st, ws, data)
      case Join => AfterJoin(st, ws)
      case RelayAll => AfterRelayAll(st, ws, data)
  }

  /** The socket starts closing: its readyState is no longer OPEN. No handler runs. */
  function AfterClosing(st: State, ws: Socket): State {
    st.(open := st.open - {ws})
  }

  /** The `close` handler, after the server has dropped the socket: `delete users[username]`. */
  function AfterClose(st: State, ws: Socket): State
    requires ws in st.idOf && ws in st.nameOf
  {
    st.(conns := Remove(st.conns, ws), open := st.open - {ws},
        users := st.users - {PropertyKey(st.nameOf[ws])})
  }

  // ---------------------------------------------------------------------
  // The invariant is kept by every event.

  lemma InitialInv()
    ensures Inv(Initial())
  {
  }

  lemma ConnectInv(st: State, ws: Socket, id: string)
    requires Inv(st) && Fresh(st, ws, id)
    ensures Inv(AfterConnect(st, ws, id))
  {
    var st' := AfterConnect(st, ws, id);
    assert ws !in st.conns;
    forall i, j | 0 <= i < j < |st'.conns| ensures st'.conns[i] != st'.conns[j] {
      if j == |st.conns| {
        assert st.conns[i] in st.conns;
      }
    }
    forall k | k in st'.users ensures k in st'.idOf.Values {
      if k != id {
        var s :| s in st.idOf && st.idOf[s] == k;
        assert st'.idOf[s] == k;
      } else {
        assert st'.idOf[ws] == id;
      }
    }
  }

  /** The `message` handler only appends to the outbox or renames the sender. */
  lemma MessageEffect(st: State, ws: Socket, frame: Frame)
    requires ws in st.idOf && ws in st.nameOf
    ensures var st' := AfterMessage(st, ws, frame);
      && st.outbox <= st'.outbox
      && st'.(outbox := st.outbox, users := st.users, nameOf := st.nameOf) == st
      && st.users.Keys <= st'.users.Keys <= st.users.Keys + {st.idOf[ws]}
      && (forall k :: k in st.users && k != st.idOf[ws] ==> st'.users[k] == st.users[k])
      && st'.nameOf.Keys == st.nameOf.Keys
      && (forall s :: s in st.nameOf && s != ws ==> st'.nameOf[s] == st.nameOf[s])
  {
  }

  lemma MessageInv(st: State, ws: Socket, frame: Frame)
    requires Inv(st) && ws in st.conns
    ensures Inv(AfterMessage(st, ws, frame))
  {
    MessageEffect(st, ws, frame);
    assert st.idOf[ws] in st.idOf.Values;
  }

  lemma ClosingInv(st: State, ws: Socket)
    requires Inv(st)
    ensures Inv(AfterClosing(st, ws))
  {
  }

  lemma CloseInv(st: State, ws: Socket)
    requires Inv(st) && ws in st.conns
    ensures Inv(AfterClose(st, ws))
  {
    RemoveKeepsDistinct(st.conns, ws);
  }

  // ---------------------------------------------------------------------
  // What each branch of the `message` handler sends and changes.

  /** A frame that does not parse: exactly one error reply, to the sender; `users` unchanged. */
  lemma MalformedRepliesError(st: State, ws: Socket)
    requires ws in st.idOf && ws in st.nameOf
    ensures var st' := AfterMessage(st, ws, Malformed);
      && |st'.outbox| == |st.outbox| + 1
      && st'.outbox[..|st.outbox|] == st.outbox
      && st'.outbox[|st.outbox|].0 == ws
      && st'.outbox[|st.outbox|].1["type"] == Str("error")
      && st'.(outbox := st.outbox) == st
  {
  }

  /** Connect registers `users[id] = id`, sets the socket's id, and sends nothing. */
  lemma ConnectRegisters(st: State, ws: Socket, id: string)
    requires Inv(st) && Fresh(st, ws, id)
    ensures var st' := AfterConnect(st, ws, id);
      && id !in st.users
      && st'.users == st.users[id := Str(id)]
      && st'.idOf[ws] == id && st'.nameOf[ws] == Str(id)
      && st'.conns == st.conns + [ws] && ws in st'.open
      && st'.outbox == st.outbox
  {
  }

  /** `username`: the sender's `users` entry and current name change; nothing is sent. */
  lemma RenameSendsNothing(st: State, ws: Socket, data: Json.Object)
    requires ws in st.idOf && ws in st.nameOf
    requires LooseEqualsWord(Get(data, "type"), "username")
    ensures var st' := AfterMessage(st, ws, Parsed(data));
      && st'.users == st.users[st.idOf[ws] := Get(data, "username")]
      && st'.nameOf[ws] == Get(data, "username")
      && st'.outbox == st.outbox
      && st'.(users := st.users, nameOf := st.nameOf) == st
  {
  }

  /** `message`: one chat envelope to every live socket, the sender included. */
  lemma ChatReachesEveryone(st: State, ws: Socket, data: Json.Object)
    requires Distinct(st.conns) && ws in st.conns && ws in st.idOf && ws in st.nameOf
    requires LooseEqualsWord(Get(data, "type"), "message")
    ensures var st' := AfterMessage(st, ws, Parsed(data));
      && st.outbox <= st'.outbox
      && st'.(outbox := st.outbox) == st
      && var sends := st'.outbox[|st.outbox|..];
      && Recipients(sends) == st.conns
      && (forall c :: Count(sends, c) == if c in st.conns then 1 else 0)
      && Count(sends, ws) == 1
      && (forall i :: 0 <= i < |sends| ==>
            Get(sends[i].1, "type") == Str("message")
            && Get(sends[i].1, "sender") == (if Truthy(st.nameOf[ws]) then st.nameOf[ws] else Str("unknown"))
            && Get(sends[i].1, "message") == Get(data, "message"))
  {
    var e := ChatOf(st, ws, data);
    assert RouteOf(data) == ChatAll;
    assert AfterMessage(st, ws, Parsed(data)) == AfterChat(st, ws, data);
    assert AfterChat(st, ws, data).outbox[|st.outbox|..] == SendAll(st.conns, e);
    FanOutToAll(st.conns, e);
    ChatFields(Get(data, "message"), SenderName(st.nameOf[ws]));
  }

  /**
   * `join`: exactly one reply, to the sender, whose position is the number of
   * keys in `users` and which says broadcaster exactly when that number is 1.
   */
  lemma JoinRepliesToSenderOnly(st: State, ws: Socket, data: Json.Object)
    requires ws in st.idOf && ws in st.nameOf
    requires LooseEqualsWord(Get(data, "type"), "join")
    ensures var st' := AfterMessage(st, ws, Parsed(data));
      var n := |st.users.Keys|;
      && st'.outbox == st.outbox + [(ws, JoinReply(n, n == 1, st.idOf[ws]))]
      && st'.(outbox := st.outbox) == st
  {
  }

  /** Any other type: the frame, tagged `from`, to every OPEN socket, the sender included. */
  lemma RelayToOpen(st: State, ws: Socket, data: Json.Object)
    requires Distinct(st.conns) && ws in st.conns && ws in st.idOf && ws in st.nameOf
    requires !LooseEqualsWord(Get(data, "type"), "username")
    requires !LooseEqualsWord(Get(data, "type"), "message")
    requires !LooseEqualsWord(Get(data, "type"), "join")
    ensures var st' := AfterMessage(st, ws, Parsed(data));
      && st.outbox <= st'.outbox
      && st'.(outbox := st.outbox) == st
      && var sends := st'.outbox[|st.outbox|..];
      && Recipients(sends) == OpenOnly(st.conns, st.open)
      && (forall c :: Count(sends, c) == if c in st.conns && c in st.open then 1 else 0)
      && Count(sends, ws) == (if ws in st.open then 1 else 0)
      && (forall i :: 0 <= i < |sends| ==> sends[i].1 == Spread(data, st.idOf[ws]))
  {
    var e := Spread(data, st.idOf[ws]);
    assert RouteOf(data) == RelayAll;
    assert AfterMessage(st, ws, Parsed(data)) == AfterRelayAll(st, ws, data);
    assert AfterRelayAll(st, ws, data).outbox[|st.outbox|..] == SendOpen(st.conns, st.open, e);
    FanOutToOpen(st.conns, st.open, e);
  }

  /** Close deletes the `users` entry keyed by the current name and sends nothing. */
  lemma CloseForgets(st: State, ws: Socket)
    requires Inv(st) && ws in st.conns
    ensures var st' := AfterClose(st, ws);
      && st'.users == st.users - {PropertyKey(st.nameOf[ws])}
      && ws !in st'.conns && ws !in st'.open
      && (forall c :: c in st'.conns <==> c in st.conns && c != ws)
      && st'.outbox == st.outbox
  {
  }

  /**
   * After a rename, the departed client's entry under its id stays in
   * `users`, and the next `join` still counts it.
   */
  lemma StaleEntryCountedInJoin(st: State, a: Socket, b: Socket, rename: Json.Object, name: string,
                                join: Json.Object)
    requires a in st.conns && b in st.conns && a != b
    requires a in st.idOf && a in st.nameOf && b in st.idOf && b in st.nameOf
    requires st.idOf[a] in st.users && name != st.idOf[a] && name !in st.users
    requires LooseEqualsWord(Get(rename, "type"), "username") && Get(rename, "username") == Str(name)
    requires LooseEqualsWord(Get(join, "type"), "join")
    ensures var closed := AfterClose(AfterMessage(st, a, Parsed(rename)), a);
      && a !in closed.conns && b in closed.conns
      && st.idOf[a] in closed.users
      && closed.users.Keys == st.users.Keys
      && AfterMessage(closed, b, Parsed(join)).outbox
           == closed.outbox + [(b, JoinReply(|st.users.Keys|, |st.users.Keys| == 1, st.idOf[b]))]
  {
    assert RouteOf(rename) == Rename;
    var renamed := AfterRename(st, a, rename);
    assert AfterMessage(st, a, Parsed(rename)) == renamed;
    assert renamed.users.Keys == st.users.Keys;
    var closed := AfterClose(renamed, a);
    assert PropertyKey(renamed.nameOf[a]) == name;
    assert closed.users.Keys == st.users.Keys;
    assert RouteOf(join) == Join;
    assert AfterMessage(closed, b, Parsed(join)) == AfterJoin(closed, b);
  }

  // ---------------------------------------------------------------------
  // Runs of events.

  predicate Enabled(st: State, e: Event) {
    match e
    case Connect(ws, id) => Fresh(st, ws, id)
    case Message(ws, _) => ws in st.conns && ws in st.idOf && ws in st.nameOf
    case Closing(ws) => ws in st.conns
    case Close(ws) => ws in st.conns && ws in st.idOf && ws in st.nameOf
  }

  function Step(st: State, e: Event): State
    requires Enabled(st, e)
  {
    match e
    case Connect(ws, id) => AfterConnect(st, ws, id)
    case Message(ws, frame) => AfterMessage(st, ws, frame)
    case Closing(ws) => AfterClosing(st, ws)
    case Close(ws) => AfterClose(st, ws)
  }

  /** The state after a run of events; an event that cannot occur is passed over. */
  function Run(st: State, events: seq<Event>): State
    decreases |events|
  {
    if events == [] then st
    else Run(if Enabled(st, events[0]) then Step(st, events[0]) else st, events[1..])
  }

  lemma StepKeepsInv(st: State, e: Event)
    requires Inv(st) && Enabled(st, e)
    ensures Inv(Step(st, e))
    ensures st.outbox <= Step(st, e).outbox
  {
    match e
    case Connect(ws, id) => ConnectInv(st, ws, id);
    case Message(ws, frame) => MessageInv(st, ws, frame); MessageEffect(st, ws, frame);
    case Closing(ws) => ClosingInv(st, ws);
    case Close(ws) => CloseInv(st, ws);
  }

  /** Every reachable state is consistent and the outbox only grows. */
  lemma {:induction false} RunKeepsInv(st: State, events: seq<Event>)
    requires Inv(st)
    ensures Inv(Run(st, events))
    ensures st.outbox <= Run(st, events).outbox
    decreases |events|
  {
    if events != [] {
      var next := if Enabled(st, events[0]) then Step(st, events[0]) else st;
      if Enabled(st, events[0]) {
        StepKeepsInv(st, events[0]);
      }
      RunKeepsInv(next, events[1..]);
      assert Run(st, events) == Run(next, events[1..]);
    }
  }

  // ---------------------------------------------------------------------
  // The server, updating its registry in place.

  class Server {
    var users: map<string, Value>
    var conns: seq<Socket>
    var open: set<Socket>
    var idOf: map<Socket, string>
    var nameOf: map<Socket, Value>
    var outbox: seq<Send>

    ghost function Abs(): State
      reads this
    {
      State(users, conns, open, idOf, nameOf, outbox)
    }

    ghost predicate Valid()
      reads this
    {
      Inv(Abs())
    }

    constructor ()
      ensures Valid() && Abs() == Initial()
    {
      users, conns, open, idOf, nameOf, outbox := map[], [], {}, map[], map[], [];
    }

    /** `wss.on('connection')` for socket `ws`, `id` being the `uuid()` result. */
    method OnConnect(ws: Socket, id: string)
      requires Valid() && Fresh(Abs(), ws, id)
      modifies this
      ensures Valid() && Abs() == AfterConnect(old(Abs()), ws, id)
    {
      ConnectInv(Abs(), ws, id);
      conns := conns + [ws];
      open := open + {ws};
      idOf := idOf[ws := id];
      nameOf := nameOf[ws := Str(id)];
      users := users[id := Str(id)];
    }

    /** `ws.on('message')` on the live connection of socket `ws`. */
    method OnMessage(ws: Socket, frame: Frame)
      requires Valid() && ws in conns
      modifies this
      ensures Valid() && Abs() == AfterMessage(old(Abs()), ws, frame)
    {
      MessageInv(Abs(), ws, frame);
      match frame
      case Malformed =>
        outbox := outbox + [(ws, ErrorEnvelope())];
      case Parsed(data) =>
        match RouteOf(data)
        case Rename => SetName(ws, data);
        case ChatAll => SendChat(ws, data);
        case Join => AnswerJoin(ws);
        case RelayAll => SendRelay(ws, data);
    }

    /** The `username` branch of `OnMessage`, which keeps `Valid()`. */
    method SetName(ws: Socket, data: Json.Object)
      requires ws in idOf
      modifies this
      ensures Abs() == AfterRename(old(Abs()), ws, data)
    {
      users := users[idOf[ws] := Get(data, "username")];
      nameOf := nameOf[ws := Get(data, "username")];
    }

    /** The `message` branch of `OnMessage`, which keeps `Valid()`. */
    method SendChat(ws: Socket, data: Json.Object)
      requires ws in nameOf
      modifies this
      ensures Abs() == AfterChat(old(Abs()), ws, data)
    {
      var name := nameOf[ws];
      outbox := SendEach(outbox, conns, Chat(Get(data, "message"), SenderName(name)));
    }

    /** The `join` branch of `OnMessage`, which keeps `Valid()`: one reply, to the sender. */
    method AnswerJoin(ws: Socket)
      requires ws in idOf
      modifies this
      ensures Abs() == AfterJoin(old(Abs()), ws)
    {
      var position := |users.Keys|;
      outbox := outbox + [(ws, JoinReply(position, position == 1, idOf[ws]))];
    }

    /** The default branch of `OnMessage`, which keeps `Valid()`. */
    method SendRelay(ws: Socket, data: Json.Object)
      requires ws in idOf
      modifies this
      ensures Abs() == AfterRelayAll(old(Abs()), ws, data)
    {
      outbox := SendEachOpen(outbox, conns, open, Spread(data, idOf[ws]));
    }

    /** The socket of a live connection begins to close and leaves readyState OPEN. */
    method OnClosing(ws: Socket)
      requires Valid() && ws in conns
      modifies this
      ensures Valid() && Abs() == AfterClosing(old(Abs()), ws)
    {
      ClosingInv(Abs(), ws);
      open := open - {ws};
    }

    /** `ws.on('close')`, after the server has dropped `ws` from `wss.clients`. */
    method OnClose(ws: Socket)
      requires Valid() && ws in conns
      modifies this
      ensures Valid() && Abs() == AfterClose(old(Abs()), ws)
    {
      CloseInv(Abs(), ws);
      conns := Remove(conns, ws);
      open := open - {ws};
      users := users - {PropertyKey(nameOf[ws])};
    }
  }
}
