/**
 * The relay of server.ts: the registry (`users`, `clients`, the `broadcaster`
 * slot) and the three handlers a connection runs, `connection`, `message`
 * and `close`, each to completion before the next event.
 *
 * `State` is the value of everything the handlers read or write; the
 * `After...` functions say what one event does to it, and class `Server`
 * carries out the same updates in place, its methods proved to agree with
 * them. Sends are appended to `outbox`.
 */
module Relay {
  import opened Options
  import opened Json
  import opened Envelopes
  import opened Sockets
  import opened Events

  /**
   * `users` and `clients` are the module-level maps, `broadcaster` the slot;
   * `conns` is `wss.clients` in iteration order and `open` the sockets whose
   * readyState is OPEN; `idOf` and `nameOf` hold each connection's closure
   * variables `id` and `username`.
   */
  datatype State = State(
    users: map<string, Value>,
    clients: map<string, Socket>,
    broadcaster: Option<Socket>,
    conns: seq<Socket>,
    open: set<Socket>,
    idOf: map<Socket, string>,
    nameOf: map<Socket, Value>,
    outbox: seq<Send>)

  /** The registry's consistency, kept by every event. */
  ghost predicate Inv(st: State) {
    && Distinct(st.conns)
    && (forall s :: s in st.open ==> s in st.conns)
    && (forall s :: s in st.conns ==> s in st.idOf)
    && st.nameOf.Keys == st.idOf.Keys
    // every connection got its own id
    && (forall s, t :: s in st.idOf && t in st.idOf && s != t ==> st.idOf[s] != st.idOf[t])
    // clients maps exactly the live connections' ids to their sockets
    && (forall k :: k in st.clients ==> st.clients[k] in st.conns && st.idOf[st.clients[k]] == k)
    && (forall s :: s in st.conns ==> st.idOf[s] in st.clients && st.clients[st.idOf[s]] == s)
    // users is only ever written at a connection's own id
    && (forall k :: k in st.users ==> k in st.idOf.Values)
    && (st.broadcaster.Some? ==> st.broadcaster.value in st.idOf)
  }

  function Initial(): State {
    State(map[], map[], None, [], {}, map[], map[], [])
  }

  /** A new socket with an id no connection has had (the `uuid()` call). */
  predicate Fresh(st: State, ws: Socket, id: string) {
    ws !in st.idOf && id !in st.idOf.Values
  }

  /** The `connection` handler: register the id under itself and its socket. */
  function AfterConnect(st: State, ws: Socket, id: string): State {
    st.(users := st.users[id := Str(id)], clients := st.clients[id := ws],
        conns := st.conns + [ws], open := st.open + {ws},
        idOf := st.idOf[ws := id], nameOf := st.nameOf[ws := Str(id)])
  }

  /** The socket `to` designates: the broadcaster slot, or `clients[to]`. */
  function DirectTarget(st: State, to: Value): Option<Socket> {
    if LooseEqualsWord(to, "broadcaster") then st.broadcaster
    else if PropertyKey(to) in st.clients then Some(st.clients[PropertyKey(to)])
    else None
  }

  /** `broadcaster?.send(e)`. */
  function NoticeTo(b: Option<Socket>, e: Envelope): seq<Send> {
    match b
    case Some(s) => [(s, e)]
    case None => []
  }

  /** Which branch of the `message` handler a parsed frame takes, in the handler's order. */
  datatype Route = Direct(to: Value) | Rename | ChatAll | Join | RelayAll

  function RouteOf(data: Json.Object): (r: Route)
    ensures r.Direct? <==> Truthy(Get(data, "to"))
    ensures r.Direct? ==> r.to == Get(data, "to")
  {
    var to := Get(data, "to");
    var kind := Get(data, "type");
    if Truthy(to) then Direct(to)
    else if LooseEqualsWord(kind, "username") then Rename
    else if LooseEqualsWord(kind, "message") then ChatAll
    else if LooseEqualsWord(kind, "join") then Join
    else RelayAll
  }

  /** `if (toSocket) toSocket.send({...data, from: id})`. */
  function AfterDirect(st: State, ws: Socket, data: Json.Object, to: Value): State
    requires ws in st.idOf
  {
    match DirectTarget(st, to)
    case Some(t) => st.(outbox := st.outbox + [(t, Spread(data, st.idOf[ws]))])
    case None => st
  }

  /** `users[id] = data.username; username = data.username`. */
  function AfterRename(st: State, ws: Socket, data: Json.Object): State
    requires ws in st.idOf
  {
    st.(users := st.users[st.idOf[ws] := Get(data, "username")],
        nameOf := st.nameOf[ws := Get(data, "username")])
  }

  /** The chat envelope the `message` branch sends. */
  function ChatOf(st: State, ws: Socket, data: Json.Object): Envelope
    requires ws in st.nameOf
  {
    Chat(Get(data, "message"), SenderName(st.nameOf[ws]))
  }

  /** `wss.clients.forEach(c => c.send(chat))`. */
  function AfterChat(st: State, ws: Socket, data: Json.Object): State
    requires ws in st.nameOf
  {
    st.(outbox := st.outbox + SendAll(st.conns, ChatOf(st, ws, data)))
  }

  /** The join reply, and the broadcaster slot or the broadcaster's notice. */
  function AfterJoin(st: State, ws: Socket): State
    requires ws in st.idOf
  {
    var n := |st.conns|;
    var id := st.idOf[ws];
    var replied := st.outbox + [(ws, JoinReply(n, n == 1, id))];
    if n == 1 then st.(outbox := replied, broadcaster := Some(ws))
    else st.(outbox := replied + NoticeTo(st.broadcaster, JoinNotice(n, id)))
  }

  /** `{...data, from: id}` to every OPEN socket. */
  function AfterRelayAll(st: State, ws: Socket, data: Json.Object): State
    requires ws in st.idOf
  {
    st.(outbox := st.outbox + SendOpen(st.conns, st.open, Spread(data, st.idOf[ws])))
  }

  /** The `message` handler for the connection of socket `ws`. */
  function AfterMessage(st: State, ws: Socket, frame: Frame): State
    requires ws in st.idOf && ws in st.nameOf
  {
    match frame
    case Malformed => st.(outbox := st.outbox + [(ws, ErrorEnvelope())])
    case Parsed(data) =>
      match RouteOf(data)
      case Direct(to) => AfterDirect(st, ws, data, to)
      case Rename => AfterRename(st, ws, data)
      case ChatAll => AfterChat(st, ws, data)
      case Join => AfterJoin(st, ws)
      case RelayAll => AfterRelayAll(st, ws, data)
  }

  /** The socket starts closing: its readyState is no longer OPEN. No handler runs. */
  function AfterClosing(st: State, ws: Socket): State {
    st.(open := st.open - {ws})
  }

  /**
   * The `close` handler, after the server has dropped the socket from
   * `wss.clients`: `delete users[username]; delete clients[id]`.
   */
  function AfterClose(st: State, ws: Socket): State
    requires ws in st.idOf && ws in st.nameOf
  {
    st.(conns := Remove(st.conns, ws), open := st.open - {ws},
        users := st.users - {PropertyKey(st.nameOf[ws])},
        clients := st.clients - {st.idOf[ws]})
  }

  // ---------------------------------------------------------------------
  // The invariant is kept by every event.

  lemma InitialInv()
    ensures Inv(Initial())
  {
  }

  lemma ConnectInv(st: State, ws: Socket, id: string)
    requires Inv(st) && Fresh(st, ws, id)
    ensures Inv(AfterConnect(st, ws, id))
  {
    var st' := AfterConnect(st, ws, id);
    assert ws !in st.conns;
    forall i, j | 0 <= i < j < |st'.conns| ensures st'.conns[i] != st'.conns[j] {
      if j == |st.conns| {
        assert st.conns[i] in st.conns;
      }
    }
    forall k | k in st'.users ensures k in st'.idOf.Values {
      if k != id {
        var s :| s in st.idOf && st.idOf[s] == k;
        assert st'.idOf[s] == k;
      } else {
        assert st'.idOf[ws] == id;
      }
    }
  }

  /** An event that leaves the connections alone keeps the invariant. */
  lemma RegistryInv(st: State, st': State)
    requires Inv(st)
    requires st'.conns == st.conns && st'.open == st.open && st'.idOf == st.idOf
    requires st'.clients == st.clients && st'.nameOf.Keys == st.nameOf.Keys
    requires st'.users.Keys <= st.users.Keys + st.idOf.Values
    requires st'.broadcaster.Some? ==> st'.broadcaster.value in st.idOf
    ensures Inv(st')
  {
  }

  /** The `message` handler only appends to the outbox, renames, or sets the broadcaster. */
  lemma MessageEffect(st: State, ws: Socket, frame: Frame)
    requires ws in st.idOf && ws in st.nameOf
    ensures var st' := AfterMessage(st, ws, frame);
      && st.outbox <= st'.outbox
      && st'.(outbox := st.outbox, users := st.users, nameOf := st.nameOf, broadcaster := st.broadcaster) == st
      && st.users.Keys <= st'.users.Keys <= st.users.Keys + {st.idOf[ws]}
      && (forall k :: k in st.users && k != st.idOf[ws] ==> st'.users[k] == st.users[k])
      && st.nameOf.Keys <= st'.nameOf.Keys <= st.nameOf.Keys + {ws}
      && (forall s :: s in st.nameOf && s != ws ==> st'.nameOf[s] == st.nameOf[s])
      && (st'.broadcaster == st.broadcaster || st'.broadcaster == Some(ws))
  {
  }

  lemma MessageInv(st: State, ws: Socket, frame: Frame)
    requires Inv(st) && ws in st.conns
    ensures Inv(AfterMessage(st, ws, frame))
  {
    MessageEffect(st, ws, frame);
    assert st.idOf[ws] in st.idOf.Values;
    RegistryInv(st, AfterMessage(st, ws, frame));
  }

  lemma ClosingInv(st: State, ws: Socket)
    requires Inv(st)
    ensures Inv(AfterClosing(st, ws))
  {
  }

  lemma CloseInv(st: State, ws: Socket)
    requires Inv(st) && ws in st.conns
    ensures Inv(AfterClose(st, ws))
  {
    RemoveKeepsDistinct(st.conns, ws);
    var st' := AfterClose(st, ws);
    forall s | s in st'.conns ensures st'.idOf[s] in st'.clients && st'.clients[st'.idOf[s]] == s {
      assert s != ws;
      assert st.idOf[s] != st.idOf[ws];
    }
  }

  // ---------------------------------------------------------------------
  // What each branch of the `message` handler sends and changes.

  /** A frame that does not parse: exactly one error reply, to the sender; nothing else changes. */
  lemma MalformedRepliesError(st: State, ws: Socket)
    requires ws in st.idOf && ws in st.nameOf
    ensures var st' := AfterMessage(st, ws, Malformed);
      && |st'.outbox| == |st.outbox| + 1
      && st'.outbox[..|st.outbox|] == st.outbox
      && st'.outbox[|st.outbox|].0 == ws
      && st'.outbox[|st.outbox|].1["type"] == Str("error")
      && st'.(outbox := st.outbox) == st
  {
  }

  /**
   * A frame with a truthy `to` is only relayed, whatever its `type`: at most
   * one send, carrying the frame with `from` set, and no registry change.
   */
  lemma ToTakesPrecedence(st: State, ws: Socket, data: Json.Object)
    requires ws in st.idOf && ws in st.nameOf
    requires Truthy(Get(data, "to"))
    ensures var st' := AfterMessage(st, ws, Parsed(data));
      && st'.(outbox := st.outbox) == st
      && st.outbox <= st'.outbox
      && |st'.outbox| <= |st.outbox| + 1
      && forall i :: |st.outbox| <= i < |st'.outbox| ==> st'.outbox[i].1 == Spread(data, st.idOf[ws])
  {
  }

  /**
   * `to` naming a registered id: one send, to that id's own socket, of the
   * frame with `from` overwritten by the sender's id.
   */
  lemma DirectRelay(st: State, ws: Socket, data: Json.Object, k: string)
    requires Inv(st) && ws in st.conns
    requires Get(data, "to") == Str(k) && k != "" && k != "broadcaster"
    requires k in st.clients
    ensures var st' := AfterMessage(st, ws, Parsed(data));
      && st'.outbox == st.outbox + [(st.clients[k], Spread(data, st.idOf[ws]))]
      && st.idOf[st.clients[k]] == k
      && Spread(data, st.idOf[ws])["from"] == Str(st.idOf[ws])
      && st'.(outbox := st.outbox) == st
  {
  }

  /** `to: 'broadcaster'` reaches whatever socket the slot holds. */
  lemma RelayToBroadcaster(st: State, ws: Socket, data: Json.Object, b: Socket)
    requires ws in st.idOf && ws in st.nameOf
    requires LooseEqualsWord(Get(data, "to"), "broadcaster") && st.broadcaster == Some(b)
    ensures AfterMessage(st, ws, Parsed(data)).outbox == st.outbox + [(b, Spread(data, st.idOf[ws]))]
  {
  }

  /** An unregistered target, or the broadcaster while the slot is empty: nothing happens. */
  lemma UnknownTargetDropped(st: State, ws: Socket, data: Json.Object)
    requires ws in st.idOf && ws in st.nameOf
    requires Truthy(Get(data, "to"))
    requires if LooseEqualsWord(Get(data, "to"), "broadcaster") then st.broadcaster.None?
             else PropertyKey(Get(data, "to")) !in st.clients
    ensures AfterMessage(st, ws, Parsed(data)) == st
  {
  }

  /** `username`: the sender's `users` entry and current name change; nothing is sent. */
  lemma RenameSendsNothing(st: State, ws: Socket, data: Json.Object)
    requires ws in st.idOf && ws in st.nameOf
    requires !Truthy(Get(data, "to")) && LooseEqualsWord(Get(data, "type"), "username")
    ensures var st' := AfterMessage(st, ws, Parsed(data));
      && st'.users == st.users[st.idOf[ws] := Get(data, "username")]
      && st'.nameOf[ws] == Get(data, "username")
      && st'.outbox == st.outbox
      && st'.(users := st.users, nameOf := st.nameOf) == st
  {
  }

  /**
   * `message`: one chat envelope to every live socket, the sender included,
   * naming the sender's current name or "unknown" when that is falsy.
   */
  lemma ChatReachesEveryone(st: State, ws: Socket, data: Json.Object)
    requires Distinct(st.conns) && ws in st.conns && ws in st.idOf && ws in st.nameOf
    requires !Truthy(Get(data, "to")) && LooseEqualsWord(Get(data, "type"), "message")
    ensures var st' := AfterMessage(st, ws, Parsed(data));
      && st.outbox <= st'.outbox
      && st'.(outbox := st.outbox) == st
      && var sends := st'.outbox[|st.outbox|..];
      && Recipients(sends) == st.conns
      && (forall c :: Count(sends, c) == if c in st.conns then 1 else 0)
      && Count(sends, ws) == 1
      && (forall i :: 0 <= i < |sends| ==>
            Get(sends[i].1, "type") == Str("message")
            && Get(sends[i].1, "sender") == (if Truthy(st.nameOf[ws]) then st.nameOf[ws] else Str("unknown"))
            && Get(sends[i].1, "message") == Get(data, "message"))
  {
    var e := ChatOf(st, ws, data);
    assert RouteOf(data) == ChatAll;
    assert AfterMessage(st, ws, Parsed(data)) == AfterChat(st, ws, data);
    assert AfterChat(st, ws, data).outbox[|st.outbox|..] == SendAll(st.conns, e);
    FanOutToAll(st.conns, e);
    ChatFields(Get(data, "message"), SenderName(st.nameOf[ws]));
  }

  /**
   * `join`: the sender gets its position N = |wss.clients| and whether it is
   * first; the first becomes the broadcaster, otherwise the broadcaster (if
   * any) is told of the newcomer. Nobody else hears of it.
   */
  lemma JoinHandshake(st: State, ws: Socket, data: Json.Object)
    requires ws in st.idOf && ws in st.nameOf
    requires !Truthy(Get(data, "to")) && LooseEqualsWord(Get(data, "type"), "join")
    ensures var st' := AfterMessage(st, ws, Parsed(data));
      var n := |st.conns|;
      var id := st.idOf[ws];
      && st'.(outbox := st.outbox, broadcaster := st.broadcaster) == st
      && (n == 1 ==>
            st'.outbox == st.outbox + [(ws, JoinReply(1, true, id))] && st'.broadcaster == Some(ws))
      && (n != 1 ==>
            && st'.broadcaster == st.broadcaster
            && st'.outbox == st.outbox + [(ws, JoinReply(n, false, id))]
                 + (if st.broadcaster.Some? then [(st.broadcaster.value, JoinNotice(n, id))] else []))
      && (forall i :: |st.outbox| <= i < |st'.outbox| ==>
            st'.outbox[i].0 == ws || Some(st'.outbox[i].0) == st.broadcaster)
  {
  }

  /**
   * Any other frame without `to`: the frame, tagged `from`, to every live
   * socket whose readyState is OPEN. The sender is not left out.
   */
  lemma RelayToOpen(st: State, ws: Socket, data: Json.Object)
    requires Distinct(st.conns) && ws in st.conns && ws in st.idOf && ws in st.nameOf
    requires !Truthy(Get(data, "to"))
    requires !LooseEqualsWord(Get(data, "type"), "username")
    requires !LooseEqualsWord(Get(data, "type"), "message")
    requires !LooseEqualsWord(Get(data, "type"), "join")
    ensures var st' := AfterMessage(st, ws, Parsed(data));
      && st.outbox <= st'.outbox
      && st'.(outbox := st.outbox) == st
      && var sends := st'.outbox[|st.outbox|..];
      && Recipients(sends) == OpenOnly(st.conns, st.open)
      && (forall c :: Count(sends, c) == if c in st.conns && c in st.open then 1 else 0)
      && Count(sends, ws) == (if ws in st.open then 1 else 0)
      && (forall i :: 0 <= i < |sends| ==> sends[i].1 == Spread(data, st.idOf[ws]))
  {
    var e := Spread(data, st.idOf[ws]);
    assert RouteOf(data) == RelayAll;
    assert AfterMessage(st, ws, Parsed(data)) == AfterRelayAll(st, ws, data);
    assert AfterRelayAll(st, ws, data).outbox[|st.outbox|..] == SendOpen(st.conns, st.open, e);
    FanOutToOpen(st.conns, st.open, e);
  }

  // ---------------------------------------------------------------------
  // Connect and close.

  /** Connect registers the id under itself and its socket, and sends nothing. */
  lemma ConnectRegisters(st: State, ws: Socket, id: string)
    requires Inv(st) && Fresh(st, ws, id)
    ensures var st' := AfterConnect(st, ws, id);
      && st'.users == st.users[id := Str(id)]
      && id !in st.users && id !in st.clients
      && st'.clients == st.clients[id := ws]
      && st'.conns == st.conns + [ws] && ws in st'.open
      && st'.broadcaster == st.broadcaster && st'.outbox == st.outbox
  {
  }

  /**
   * Close removes `clients[id]` and the `users` entry keyed by the current
   * name; it sends nothing and leaves the broadcaster slot as it is.
   */
  lemma CloseForgets(st: State, ws: Socket)
    requires Inv(st) && ws in st.conns
    ensures var st' := AfterClose(st, ws);
      && st'.clients == st.clients - {st.idOf[ws]}
      && st'.users == st.users - {PropertyKey(st.nameOf[ws])}
      && ws !in st'.conns && ws !in st'.open
      && (forall c :: c in st'.conns <==> c in st.conns && c != ws)
      && st'.broadcaster == st.broadcaster
      && st'.outbox == st.outbox
  {
  }

  /** A renamed client's entry under its id survives its close. */
  lemma RenamedEntryOutlivesClose(st: State, ws: Socket, data: Json.Object, name: string)
    requires Inv(st) && ws in st.conns
    requires !Truthy(Get(data, "to")) && LooseEqualsWord(Get(data, "type"), "username")
    requires Get(data, "username") == Str(name) && name != st.idOf[ws]
    ensures var st' := AfterClose(AfterMessage(st, ws, Parsed(data)), ws);
      && st.idOf[ws] in st'.users && st'.users[st.idOf[ws]] == Str(name)
      && st.idOf[ws] !in st'.clients
  {
  }

  /**
   * A client that took another live client's id as its name deletes that
   * client's `users` entry when it closes, although the other stays connected.
   */
  lemma CloseDropsNamesakeEntry(st: State, ws: Socket, other: Socket, data: Json.Object)
    requires Inv(st) && ws in st.conns && other in st.conns && other != ws
    requires !Truthy(Get(data, "to")) && LooseEqualsWord(Get(data, "type"), "username")
    requires Get(data, "username") == Str(st.idOf[other])
    ensures var st' := AfterClose(AfterMessage(st, ws, Parsed(data)), ws);
      && st.idOf[other] !in st'.users
      && other in st'.conns && st.idOf[other] in st'.clients
  {
    assert st.idOf[other] != st.idOf[ws];
  }

  /** The broadcaster's close leaves the slot set: `to: 'broadcaster'` still goes to its dead socket. */
  lemma BroadcasterOutlivesClose(st: State, b: Socket, ws: Socket, data: Json.Object)
    requires Inv(st) && st.broadcaster == Some(b) && b in st.conns
    requires ws in st.conns && ws != b
    requires LooseEqualsWord(Get(data, "to"), "broadcaster")
    ensures var st' := AfterClose(st, b);
      && b !in st'.conns
      && st'.broadcaster == Some(b)
      && AfterMessage(st', ws, Parsed(data)).outbox == st'.outbox + [(b, Spread(data, st.idOf[ws]))]
  {
  }

  // ---------------------------------------------------------------------
  // Runs of events.

  /** An event that can occur: a fresh connection, or an event on a live one. */
  predicate Enabled(st: State, e: Event) {
    match e
    case Connect(ws, id) => Fresh(st, ws, id)
    case Message(ws, _) => ws in st.conns && ws in st.idOf && ws in st.nameOf
    case Closing(ws) => ws in st.conns
    case Close(ws) => ws in st.conns && ws in st.idOf && ws in st.nameOf
  }

  function Step(st: State, e: Event): State
    requires Enabled(st, e)
  {
    match e
    case Connect(ws, id) => AfterConnect(st, ws, id)
    case Message(ws, frame) => AfterMessage(st, ws, frame)
    case Closing(ws) => AfterClosing(st, ws)
    case Close(ws) => AfterClose(st, ws)
  }

  /** The state after a run of events; an event that cannot occur is passed over. */
  function Run(st: State, events: seq<Event>): State
    decreases |events|
  {
    if events == [] then st
    else Run(if Enabled(st, events[0]) then Step(st, events[0]) else st, events[1..])
  }

  /** One event keeps the invariant, only appends sends and never empties the broadcaster slot. */
  lemma StepKeepsInv(st: State, e: Event)
    requires Inv(st) && Enabled(st, e)
    ensures Inv(Step(st, e))
    ensures st.outbox <= Step(st, e).outbox
    ensures st.broadcaster.Some? ==> Step(st, e).broadcaster.Some?
  {
    match e
    case Connect(ws, id) => ConnectInv(st, ws, id);
    case Message(ws, frame) => MessageInv(st, ws, frame); MessageEffect(st, ws, frame);
    case Closing(ws) => ClosingInv(st, ws);
    case Close(ws) => CloseInv(st, ws);
  }

  /**
   * Every reachable state is consistent, the outbox only grows, and once the
   * broadcaster slot is set it is never cleared.
   */
  lemma {:induction false} RunKeepsInv(st: State, events: seq<Event>)
    requires Inv(st)
    ensures Inv(Run(st, events))
    ensures st.outbox <= Run(st, events).outbox
    ensures st.broadcaster.Some? ==> Run(st, events).broadcaster.Some?
    decreases |events|
  {
    if events != [] {
      var next := if Enabled(st, events[0]) then Step(st, events[0]) else st;
      if Enabled(st, events[0]) {
        StepKeepsInv(st, events[0]);
      }
      RunKeepsInv(next, events[1..]);
      assert Run(st, events) == Run(next, events[1..]);
    }
  }

  // ---------------------------------------------------------------------
  // The server, updating its registry in place.

  class Server {
    var users: map<string, Value>
    var clients: map<string, Socket>
    var broadcaster: Option<Socket>
    var conns: seq<Socket>
    var open: set<Socket>
    var idOf: map<Socket, string>
    var nameOf: map<Socket, Value>
    var outbox: seq<Send>

    ghost function Abs(): State
      reads this
    {
      State(users, clients, broadcaster, conns, open, idOf, nameOf, outbox)
    }

    ghost predicate Valid()
      reads this
    {
      Inv(Abs())
    }

    constructor ()
      ensures Valid() && Abs() == Initial()
    {
      users, clients, broadcaster := map[], map[], None;
      conns, open, idOf, nameOf, outbox := [], {}, map[], map[], [];
    }

    /** `wss.on('connection')` for socket `ws`, `id` being the `uuid()` result. */
    method OnConnect(ws: Socket, id: string)
      requires Valid() && Fresh(Abs(), ws, id)
      modifies this
      ensures Valid() && Abs() == AfterConnect(old(Abs()), ws, id)
    {
      ConnectInv(Abs(), ws, id);
      conns := conns + [ws];
      open := open + {ws};
      idOf := idOf[ws := id];
      nameOf := nameOf[ws := Str(id)];
      users := users[id := Str(id)];
      clients := clients[id := ws];
    }

    /** `ws.on('message')` on the live connection of socket `ws`. */
    method OnMessage(ws: Socket, frame: Frame)
      requires Valid() && ws in conns
      modifies this
      ensures Valid() && Abs() == AfterMessage(old(Abs()), ws, frame)
    {
      MessageInv(Abs(), ws, frame);
      match frame
      case Malformed =>
        outbox := outbox + [(ws, ErrorEnvelope())];
      case Parsed(data) =>
        match RouteOf(data)
        case Direct(to) => SendDirect(ws, data, to);
        case Rename => SetName(ws, data);
        case ChatAll => SendChat(ws, data);
        case Join => AnswerJoin(ws);
        case RelayAll => SendRelay(ws, data);
    }

    /**
     * The `to` branch of `OnMessage`, inline in the handler: look up the target
     * socket and relay the frame to it. `OnMessage` keeps `Valid()`.
     */
    method SendDirect(ws: Socket, data: Json.Object, to: Value)
      requires ws in idOf
      modifies this
      ensures Abs() == AfterDirect(old(Abs()), ws, data, to)
    {
      var target: Option<Socket>;
      if LooseEqualsWord(to, "broadcaster") {
        target := broadcaster;
      } else {
        var key := PropertyKey(to);
        target := if key in clients then Some(clients[key]) else None;
      }
      if target.Some? {
        outbox := outbox + [(target.value, Spread(data, idOf[ws]))];
      }
    }

    /** The `username` branch of `OnMessage`, which keeps `Valid()`. */
    method SetName(ws: Socket, data: Json.Object)
      requires ws in idOf
      modifies this
      ensures Abs() == AfterRename(old(Abs()), ws, data)
    {
      users := users[idOf[ws] := Get(data, "username")];
      nameOf := nameOf[ws := Get(data, "username")];
    }

    /** The `message` branch of `OnMessage`, which keeps `Valid()`. */
    method SendChat(ws: Socket, data: Json.Object)
      requires ws in nameOf
      modifies this
      ensures Abs() == AfterChat(old(Abs()), ws, data)
    {
      var name := nameOf[ws];
      outbox := SendEach(outbox, conns, Chat(Get(data, "message"), SenderName(name)));
    }

    /** The `join` branch of `OnMessage`, which keeps `Valid()`. */
    method AnswerJoin(ws: Socket)
      requires ws in idOf
      modifies this
      ensures Abs() == AfterJoin(old(Abs()), ws)
    {
      var size := |conns|;
      outbox := outbox + [(ws, JoinReply(size, size == 1, idOf[ws]))];
      if size == 1 {
        broadcaster := Some(ws);
      } else if broadcaster.Some? {
        outbox := outbox + [(broadcaster.value, JoinNotice(size, idOf[ws]))];
      }
    }

    /** The default branch of `OnMessage`, which keeps `Valid()`. */
    method SendRelay(ws: Socket, data: Json.Object)
      requires ws in idOf
      modifies this
      ensures Abs() == AfterRelayAll(old(Abs()), ws, data)
    {
      outbox := SendEachOpen(outbox, conns, open, Spread(data, idOf[ws]));
    }

    /** The socket of a live connection begins to close and leaves readyState OPEN. */
    method OnClosing(ws: Socket)
      requires Valid() && ws in conns
      modifies this
      ensures Valid() && Abs() == AfterClosing(old(Abs()), ws)
    {
      ClosingInv(Abs(), ws);
      open := open - {ws};
    }

    /** `ws.on('close')`, after the server has dropped `ws` from `wss.clients`. */
    method OnClose(ws: Socket)
      requires Valid() && ws in conns
      modifies this
      ensures Valid() && Abs() == AfterClose(old(Abs()), ws)
    {
      CloseInv(Abs(), ws);
      conns := Remove(conns, ws);
      open := open - {ws};
      users := users - {PropertyKey(nameOf[ws])};
      clients := clients - {idOf[ws]};
    }
  }
}
