/** The back end's registry of live connections and game sessions
    (backend/game_manager.py, class `GameManager`). Sockets are opaque
    numbers; whether each write to a socket succeeds is an input; clock
    readings are integer seconds; logging is not modelled. */
module Realtime {
  import opened Values

  type Socket = nat
  type Message = map<string, Value>

  /** The entry of one child: its game socket, if any, and the sockets of
      the caretakers watching it, in the order they joined. */
  datatype Conn = Conn(child: Option<Socket>, caretakers: seq<Socket>)

  const EmptyConn := Conn(None, [])

  datatype Status = Active | Completed

  datatype Session = Session(
    sessionId: string,
    childId: string,
    config: Value,
    startedAt: int,
    events: seq<Message>,
    status: Status,
    endedAt: Option<int>,
    summary: Option<Value>)

  /** One message written to a socket without error. */
  datatype Delivery = Delivery(socket: Socket, message: Message)

  /** Python's `list.remove` after an `in` test: drop the first occurrence
      of `x`, if there is one. */
  function RemoveFirst(s: seq<Socket>, x: Socket): (r: seq<Socket>)
    ensures x in s ==> |r| == |s| - 1
    ensures x !in s ==> r == s
  {
    if s == [] then []
    else if s[0] == x then
      assert s == [s[0]] + s[1..];
      s[1..]
    else
      assert s == [s[0]] + s[1..];
      [s[0]] + RemoveFirst(s[1..], x)
  }

  /** Removing, one at a time, the first occurrence of each of `rs`. */
  function RemoveEach(s: seq<Socket>, rs: seq<Socket>): seq<Socket>
    decreases |rs|
  {
    if rs == [] then s else RemoveEach(RemoveFirst(s, rs[0]), rs[1..])
  }

  /** The sockets of `cs` whose send result in `ok` equals `outcome`, in
      order. */
  function Select(cs: seq<Socket>, ok: seq<bool>, outcome: bool): (r: seq<Socket>)
    requires |ok| == |cs|
    ensures |r| <= |cs|
  {
    if cs == [] then []
    else (if ok[0] == outcome then [cs[0]] else []) + Select(cs[1..], ok[1..], outcome)
  }

  function Deliveries(sockets: seq<Socket>, m: Message): (r: seq<Delivery>)
    ensures |r| == |sockets|
  {
    if sockets == [] then [] else [Delivery(sockets[0], m)] + Deliveries(sockets[1..], m)
  }

  predicate Empty(c: Conn) {
    c.child.None? && c.caretakers == []
  }

  /** The entry after `add_connection` of socket `ws` in role `role`. */
  function Added(c: Conn, ws: Socket, role: string): (r: Conn)
    ensures role == "child" ==> r.child == Some(ws) && r.caretakers == c.caretakers
    ensures role != "child" ==> r.child == c.child && r.caretakers == c.caretakers + [ws]
    ensures !Empty(r)
  {
    if role == "child" then c.(child := Some(ws)) else c.(caretakers := c.caretakers + [ws])
  }

  /** `add_connection`: create an empty entry for an unknown child, then
      register the socket. */
  function WithConnection(conns: map<string, Conn>, childId: string, ws: Socket, role: string): (r: map<string, Conn>)
    ensures r.Keys == conns.Keys + {childId}
    ensures r[childId] == Added(if childId in conns then conns[childId] else EmptyConn, ws, role)
    ensures forall id :: id in conns && id != childId ==> r[id] == conns[id]
  {
    conns[childId := Added(if childId in conns then conns[childId] else EmptyConn, ws, role)]
  }

  /** The entry after `remove_connection` of `ws`, before the emptiness
      test: the child slot is cleared only if it holds `ws`, and one
      occurrence of `ws` leaves the caretakers. */
  function Removed(c: Conn, ws: Socket): (r: Conn)
    ensures r.child != Some(ws)
    ensures c.child != Some(ws) ==> r.child == c.child
    ensures ws in c.caretakers ==> |r.caretakers| == |c.caretakers| - 1
    ensures ws !in c.caretakers ==> r.caretakers == c.caretakers
  {
    Conn(if c.child == Some(ws) then None else c.child, RemoveFirst(c.caretakers, ws))
  }

  /** `remove_connection`: nothing for an unknown child; otherwise the
      entry is updated, and deleted once nothing is left in it. */
  function WithoutConnection(conns: map<string, Conn>, childId: string, ws: Socket): (r: map<string, Conn>)
    ensures childId !in conns ==> r == conns
    ensures childId in conns ==> (childId in r <==> !Empty(Removed(conns[childId], ws)))
    ensures childId in r ==> childId in conns && r[childId] == Removed(conns[childId], ws)
    ensures forall id :: id != childId ==> (id in r <==> id in conns)
    ensures forall id :: id in r && id != childId ==> r[id] == conns[id]
  {
    if childId !in conns then conns
    else if Empty(Removed(conns[childId], ws)) then conns - {childId}
    else conns[childId := Removed(conns[childId], ws)]
  }

  /** The sockets a broadcast to `childId` reaches. */
  function ToCaretakers(conns: map<string, Conn>, childId: string, m: Message, ok: seq<bool>): (r: seq<Delivery>)
    requires childId in conns ==> |ok| == |conns[childId].caretakers|
    ensures childId !in conns ==> r == []
    ensures childId in conns ==> r == Deliveries(Select(conns[childId].caretakers, ok, true), m)
  {
    if childId in conns then Deliveries(Select(conns[childId].caretakers, ok, true), m) else []
  }

  /** The registry after `broadcast_to_caretakers`: the caretakers whose
      send failed are removed, one `remove` per failure. */
  function AfterBroadcast(conns: map<string, Conn>, childId: string, ok: seq<bool>): (r: map<string, Conn>)
    requires childId in conns ==> |ok| == |conns[childId].caretakers|
    ensures r.Keys == conns.Keys
    ensures forall id :: id in r && id != childId ==> r[id] == conns[id]
    ensures childId in r ==> r[childId].child == conns[childId].child
  {
    if childId !in conns then conns
    else
      var c := conns[childId];
      conns[childId := c.(caretakers := RemoveEach(c.caretakers, Select(c.caretakers, ok, false)))]
  }

  /** The socket a control message to `childId` reaches, if any. */
  function ToChild(conns: map<string, Conn>, childId: string, m: Message, ok: bool): (r: seq<Delivery>)
    ensures |r| <= 1
    ensures r != [] <==> childId in conns && conns[childId].child.Some? && ok
    ensures r != [] ==> r[0] == Delivery(conns[childId].child.value, m)
  {
    if childId in conns && conns[childId].child.Some? && ok then [Delivery(conns[childId].child.value, m)] else []
  }

  /** The registry after `send_control_to_child`. A failed write clears
      the child slot; so does a message without a `"type"` key, whose
      lookup for the log line raises inside the same `try`. */
  function AfterChildSend(conns: map<string, Conn>, childId: string, m: Message, ok: bool): (r: map<string, Conn>)
    ensures r.Keys == conns.Keys
    ensures forall id :: id in r ==> r[id].caretakers == conns[id].caretakers
    ensures forall id :: id in r && id != childId ==> r[id] == conns[id]
    ensures childId in r ==> (r[childId].child == conns[childId].child || r[childId].child.None?)
    ensures childId in r && conns[childId].child.Some? ==>
              (r[childId].child.None? <==> !ok || "type" !in m)
  {
    if childId in conns && conns[childId].child.Some? && !(ok && "type" in m) then
      conns[childId := conns[childId].(child := None)]
    else conns
  }

  /** Whether `ok` has one send result per caretaker of `childId`. */
  predicate Fits(conns: map<string, Conn>, childId: string, ok: seq<bool>) {
    childId in conns ==> |ok| == |conns[childId].caretakers|
  }

  /** A completed session whose end (or, lacking one, its start) lies more
      than `hoursOld` hours before `now`. */
  predicate Stale(s: Session, now: int, hoursOld: int) {
    s.status == Completed && now - s.endedAt.GetOr(s.startedAt) > hoursOld * 3600
  }

  function StaleIds(sessions: map<string, Session>, now: int, hoursOld: int): (r: set<string>)
    ensures r <= sessions.Keys
    ensures forall id :: id in sessions && sessions[id].status == Active ==> id !in r
  {
    set id | id in sessions && Stale(sessions[id], now, hoursOld)
  }

  /** The ids of the sessions still running. */
  function ActiveIds(sessions: map<string, Session>): (r: set<string>)
    ensures r <= sessions.Keys
    ensures forall id :: id in r <==> id in sessions && sessions[id].status == Active
  {
    set id | id in sessions && sessions[id].status == Active
  }

  function Cleaned(sessions: map<string, Session>, now: int, hoursOld: int): (r: map<string, Session>)
    ensures r.Keys == sessions.Keys - StaleIds(sessions, now, hoursOld)
    ensures forall id :: id in r ==> r[id] == sessions[id] && !Stale(r[id], now, hoursOld)
  {
    map id | id in sessions && !Stale(sessions[id], now, hoursOld) :: sessions[id]
  }

  function Stamped(fields: Message, now: int): Message {
    fields["timestamp" := Num(now)]
  }

  function ConfirmationMessage(childId: string, role: string, now: int): Message {
    Stamped(map["type" := Str("connection_confirmed"), "child_id" := Str(childId), "role" := Str(role)], now)
  }

  function SessionStartMessage(sessionId: string, config: Value, now: int): Message {
    Stamped(map["type" := Str("session_start"), "session_id" := Str(sessionId), "config" := config], now)
  }

  function SessionStartedMessage(sessionId: string, childId: string, config: Value, now: int): Message {
    Stamped(map["type" := Str("session_started"), "session_id" := Str(sessionId), "child_id" := Str(childId),
                "config" := config], now)
  }

  function SessionEndMessage(sessionId: string, summary: Value, now: int): Message {
    Stamped(map["type" := Str("session_end"), "session_id" := Str(sessionId), "summary" := summary], now)
  }

  function SessionEndedMessage(sessionId: string, childId: string, summary: Value, now: int): Message {
    Stamped(map["type" := Str("session_ended"), "session_id" := Str(sessionId), "child_id" := Str(childId),
                "summary" := summary], now)
  }

  function GameEventMessage(sessionId: string, childId: string, event: Message, now: int): Message {
    Stamped(map["type" := Str("game_event"), "session_id" := Str(sessionId), "child_id" := Str(childId),
                "event" := Obj(event)], now)
  }

  function CaretakerControlMessage(control: Value, now: int): Message {
    Stamped(map["type" := Str("caretaker_control"), "control" := control], now)
  }

  function SurpriseTriggerMessage(surpriseType: string, now: int): Message {
    Stamped(map["type" := Str("surprise_trigger"), "surprise_type" := Str(surpriseType)], now)
  }

  function SurpriseTriggeredMessage(childId: string, surpriseType: string, now: int): Message {
    Stamped(map["type" := Str("surprise_triggered"), "child_id" := Str(childId),
                "surprise_type" := Str(surpriseType)], now)
  }

  function GamePauseMessage(duration: int, now: int): Message {
    Stamped(map["type" := Str("game_pause"), "duration" := Num(duration)], now)
  }

  function GamePausedMessage(childId: string, duration: int, now: int): Message {
    Stamped(map["type" := Str("game_paused"), "child_id" := Str(childId), "duration" := Num(duration)], now)
  }

  class GameManager {
    /** child id -> its connections */
    var connections: map<string, Conn>
    /** session id -> session */
    var activeSessions: map<string, Session>
    /** Every message written without error, in order. */
    var sent: seq<Delivery>

    /** Every session is filed under its own id, and is completed exactly
        when it has an end time and a summary. */
    ghost predicate Valid()
      reads this
    {
      forall id :: id in activeSessions ==>
        activeSessions[id].sessionId == id
        && (activeSessions[id].status == Completed <==> activeSessions[id].endedAt.Some?)
        && (activeSessions[id].status == Completed <==> activeSessions[id].summary.Some?)
    }

    constructor ()
      ensures Valid()
      ensures connections == map[] && activeSessions == map[] && sent == []
    {
      connections, activeSessions, sent := map[], map[], [];
    }

    /** `add_connection`: register the socket, then write the confirmation
        to it. A failing write raises to the caller (`ok` is false) after
        the registration has happened. */
    method AddConnection(childId: string, ws: Socket, role: string, now: int, confirmOk: bool) returns (ok: bool)
      modifies this`connections, this`sent
      ensures connections == WithConnection(old(connections), childId, ws, role)
      ensures sent == old(sent) + (if confirmOk then [Delivery(ws, ConfirmationMessage(childId, role, now))] else [])
      ensures ok == confirmOk
    {
      if childId !in connections {
        connections := connections[childId := EmptyConn];
      }
      var c := connections[childId];
      if role == "child" {
        c := c.(child := Some(ws));
      } else {
        c := c.(caretakers := c.caretakers + [ws]);
      }
      connections := connections[childId := c];
      if confirmOk {
        sent := sent + [Delivery(ws, ConfirmationMessage(childId, role, now))];
      }
      ok := confirmOk;
    }

    /** `remove_connection`. */
    method RemoveConnection(childId: string, ws: Socket)
      modifies this`connections
      ensures connections == WithoutConnection(old(connections), childId, ws)
    {
      if childId !in connections {
        return;
      }
      var c := connections[childId];
      if c.child == Some(ws) {
        c := c.(child := None);
      }
      if ws in c.caretakers {
        c := c.(caretakers := RemoveFirst(c.caretakers, ws));
      }
      assert c == Removed(connections[childId], ws);
      if Empty(c) {
        connections := connections - {childId};
      } else {
        connections := connections[childId := c];
      }
    }

    /** `broadcast_to_caretakers`: write to every caretaker in order,
        collecting the failures, then remove each failed socket. */
    method BroadcastToCaretakers(childId: string, m: Message, ok: seq<bool>)
      requires Fits(connections, childId, ok)
      modifies this`connections, this`sent
      ensures connections == AfterBroadcast(old(connections), childId, ok)
      ensures sent == old(sent) + ToCaretakers(old(connections), childId, m, ok)
    {
      if childId !in connections {
        return;
      }
      var caretakers := connections[childId].caretakers;
      var disconnected := SendEach(caretakers, m, ok);
      var remaining := RemoveDisconnected(caretakers, disconnected);
      connections := connections[childId := connections[childId].(caretakers := remaining)];
    }

    /** The first loop of `broadcast_to_caretakers`: write `m` to each
        socket in order and collect those whose write failed. */
    method SendEach(caretakers: seq<Socket>, m: Message, ok: seq<bool>) returns (disconnected: seq<Socket>)
      requires |ok| == |caretakers|
      modifies this`sent
      ensures disconnected == Select(caretakers, ok, false)
      ensures sent == old(sent) + Deliveries(Select(caretakers, ok, true), m)
    {
      disconnected := [];
      ghost var delivered: seq<Socket> := [];
      var i := 0;
      while i < |caretakers|
        invariant 0 <= i <= |caretakers|
        invariant disconnected == Select(caretakers[..i], ok[..i], false)
        invariant delivered == Select(caretakers[..i], ok[..i], true)
        invariant sent == old(sent) + Deliveries(delivered, m)
      {
        SelectSnoc(caretakers, ok, i, false);
        SelectSnoc(caretakers, ok, i, true);
        if ok[i] {
          DeliveriesAppend(delivered, [caretakers[i]], m);
          assert Deliveries([caretakers[i]], m) == [Delivery(caretakers[i], m)];
          sent := sent + [Delivery(caretakers[i], m)];
          delivered := delivered + [caretakers[i]];
        } else {
          disconnected := disconnected + [caretakers[i]];
        }
        i := i + 1;
      }
      assert caretakers[..i] == caretakers && ok[..i] == ok;
    }

    /** `send_control_to_child`. */
    method SendControlToChild(childId: string, m: Message, ok: bool)
      modifies this`connections, this`sent
      ensures connections == AfterChildSend(old(connections), childId, m, ok)
      ensures sent == old(sent) + ToChild(old(connections), childId, m, ok)
    {
      if childId !in connections {
        return;
      }
      var childWs := connections[childId].child;
      if childWs.None? {
        return;
      }
      if ok {
        sent := sent + [Delivery(childWs.value, m)];
      }
      if !ok || "type" !in m {
        connections := connections[childId := connections[childId].(child := None)];
      }
    }

    /** `start_game_session`: file a new active session under the given
        (random) id, tell the child, then tell the caretakers. */
    method StartGameSession(childId: string, config: Value, sessionId: string, now: int,
                            childOk: bool, caretakerOk: seq<bool>) returns (id: string)
      requires Valid() && Fits(connections, childId, caretakerOk)
      modifies this
      ensures Valid()
      ensures id == sessionId
      ensures activeSessions == old(activeSessions)[sessionId := Session(sessionId, childId, config, now, [], Active, None, None)]
      ensures connections == AfterBroadcast(AfterChildSend(old(connections), childId, SessionStartMessage(sessionId, config, now), childOk),
                                            childId, caretakerOk)
      ensures sent == old(sent) + ToChild(old(connections), childId, SessionStartMessage(sessionId, config, now), childOk)
                                + ToCaretakers(old(connections), childId, SessionStartedMessage(sessionId, childId, config, now), caretakerOk)
    {
      activeSessions := activeSessions[sessionId := Session(sessionId, childId, config, now, [], Active, None, None)];
      SendControlToChild(childId, SessionStartMessage(sessionId, config, now), childOk);
      BroadcastToCaretakers(childId, SessionStartedMessage(sessionId, childId, config, now), caretakerOk);
      id := sessionId;
    }

    /** `end_game_session`: nothing for an unknown id; otherwise mark the
        session completed with its end time and summary, then tell the
        child and the caretakers. */
    method EndGameSession(sessionId: string, summary: Value, now: int, childOk: bool, caretakerOk: seq<bool>)
      requires Valid()
      requires sessionId in activeSessions ==> Fits(connections, activeSessions[sessionId].childId, caretakerOk)
      modifies this
      ensures Valid()
      ensures sessionId !in old(activeSessions) ==> unchanged(this)
      ensures sessionId in old(activeSessions) ==>
                var s := old(activeSessions[sessionId]);
                activeSessions == old(activeSessions)[sessionId := s.(status := Completed, endedAt := Some(now), summary := Some(summary))]
                && connections == AfterBroadcast(AfterChildSend(old(connections), s.childId, SessionEndMessage(sessionId, summary, now), childOk),
                                                 s.childId, caretakerOk)
                && sent == old(sent) + ToChild(old(connections), s.childId, SessionEndMessage(sessionId, summary, now), childOk)
                                     + ToCaretakers(old(connections), s.childId, SessionEndedMessage(sessionId, s.childId, summary, now), caretakerOk)
    {
      if sessionId !in activeSessions {
        return;
      }
      var s := activeSessions[sessionId];
      activeSessions := activeSessions[sessionId := s.(status := Completed, endedAt := Some(now), summary := Some(summary))];
      SendControlToChild(s.childId, SessionEndMessage(sessionId, summary, now), childOk);
      BroadcastToCaretakers(s.childId, SessionEndedMessage(sessionId, s.childId, summary, now), caretakerOk);
    }

    /** `log_game_event`: nothing for an unknown id; otherwise stamp the
        event, append it to the session's events and broadcast it. */
    method LogGameEvent(sessionId: string, event: Message, now: int, caretakerOk: seq<bool>)
      requires Valid()
      requires sessionId in activeSessions ==> Fits(connections, activeSessions[sessionId].childId, caretakerOk)
      modifies this
      ensures Valid()
      ensures sessionId !in old(activeSessions) ==> unchanged(this)
      ensures sessionId in old(activeSessions) ==>
                var s := old(activeSessions[sessionId]);
                activeSessions == old(activeSessions)[sessionId := s.(events := s.events + [Stamped(event, now)])]
                && connections == AfterBroadcast(old(connections), s.childId, caretakerOk)
                && sent == old(sent) + ToCaretakers(old(connections), s.childId,
                                                    GameEventMessage(sessionId, s.childId, Stamped(event, now), now), caretakerOk)
    {
      if sessionId !in activeSessions {
        return;
      }
      var s := activeSessions[sessionId];
      var stamped := Stamped(event, now);
      activeSessions := activeSessions[sessionId := s.(events := s.events + [stamped])];
      BroadcastToCaretakers(s.childId, GameEventMessage(sessionId, s.childId, stamped, now), caretakerOk);
    }

    /** `send_caretaker_control`: wrap the control data and send it to the
        child. */
    method SendCaretakerControl(childId: string, control: Value, now: int, childOk: bool)
      modifies this`connections, this`sent
      ensures connections == AfterChildSend(old(connections), childId, CaretakerControlMessage(control, now), childOk)
      ensures sent == old(sent) + ToChild(old(connections), childId, CaretakerControlMessage(control, now), childOk)
    {
      SendControlToChild(childId, CaretakerControlMessage(control, now), childOk);
    }

    /** `handle_surprise_trigger`: tell the child, then the caretakers. */
    method HandleSurpriseTrigger(childId: string, surpriseType: string, now: int, childOk: bool, caretakerOk: seq<bool>)
      requires Fits(connections, childId, caretakerOk)
      modifies this`connections, this`sent
      ensures connections == AfterBroadcast(AfterChildSend(old(connections), childId, SurpriseTriggerMessage(surpriseType, now), childOk),
                                            childId, caretakerOk)
      ensures sent == old(sent) + ToChild(old(connections), childId, SurpriseTriggerMessage(surpriseType, now), childOk)
                                + ToCaretakers(old(connections), childId, SurpriseTriggeredMessage(childId, surpriseType, now), caretakerOk)
    {
      SendControlToChild(childId, SurpriseTriggerMessage(surpriseType, now), childOk);
      BroadcastToCaretakers(childId, SurpriseTriggeredMessage(childId, surpriseType, now), caretakerOk);
    }

    /** `handle_game_pause` (the caller's default duration is 30). */
    method HandleGamePause(childId: string, duration: int, now: int, childOk: bool, caretakerOk: seq<bool>)
      requires Fits(connections, childId, caretakerOk)
      modifies this`connections, this`sent
      ensures connections == AfterBroadcast(AfterChildSend(old(connections), childId, GamePauseMessage(duration, now), childOk),
                                            childId, caretakerOk)
      ensures sent == old(sent) + ToChild(old(connections), childId, GamePauseMessage(duration, now), childOk)
                                + ToCaretakers(old(connections), childId, GamePausedMessage(childId, duration, now), caretakerOk)
    {
      SendControlToChild(childId, GamePauseMessage(duration, now), childOk);
      BroadcastToCaretakers(childId, GamePausedMessage(childId, duration, now), caretakerOk);
    }

    /** `get_active_sessions`: each active session once, found by
        walking the table (the ghost `ids` names the key each entry came
        from; the dictionary's order is not modelled). */
    method GetActiveSessions() returns (active: seq<Session>, ghost ids: seq<string>)
      ensures |active| == |ids| == |ActiveIds(activeSessions)|
      ensures forall i :: 0 <= i < |ids| ==> ids[i] in ActiveIds(activeSessions) && active[i] == activeSessions[ids[i]]
      ensures forall i, j :: 0 <= i < j < |ids| ==> ids[i] != ids[j]
      ensures forall s :: s in active ==> s in activeSessions.Values && s.status == Active
      ensures forall id :: id in ActiveIds(activeSessions) ==> activeSessions[id] in active
    {
      active, ids := [], [];
      var rest := activeSessions.Keys;
      while rest != {}
        invariant rest <= activeSessions.Keys
        invariant |active| == |ids|
        invariant forall i :: 0 <= i < |ids| ==>
                    ids[i] in ActiveIds(activeSessions) && ids[i] !in rest && active[i] == activeSessions[ids[i]]
        invariant forall id :: id in ActiveIds(activeSessions) && id !in rest ==> id in ids
        invariant forall i, j :: 0 <= i < j < |ids| ==> ids[i] != ids[j]
        decreases rest
      {
        var id :| id in rest;
        if activeSessions[id].status == Active {
          active, ids := active + [activeSessions[id]], ids + [id];
        }
        rest := rest - {id};
      }
      ListedOnce(activeSessions, ids, active);
    }

    /** `cleanup_old_sessions`: collect the stale sessions, delete them and
        report how many went. */
    method CleanupOldSessions(now: int, hoursOld: int) returns (count: nat)
      requires Valid()
      modifies this`activeSessions
      ensures Valid()
      ensures activeSessions == Cleaned(old(activeSessions), now, hoursOld)
      ensures count == |StaleIds(old(activeSessions), now, hoursOld)|
    {
      var toRemove: set<string> := {};
      var rest := activeSessions.Keys;
      while rest != {}
        invariant rest <= activeSessions.Keys
        invariant toRemove == set id | id in activeSessions && id !in rest && Stale(activeSessions[id], now, hoursOld)
        decreases rest
      {
        var id :| id in rest;
        if Stale(activeSessions[id], now, hoursOld) {
          toRemove := toRemove + {id};
        }
        rest := rest - {id};
      }
      assert toRemove == StaleIds(activeSessions, now, hoursOld);
      count := |toRemove|;
      var gone := toRemove;
      while gone != {}
        invariant gone <= toRemove
        invariant activeSessions == map id | id in old(activeSessions) && (id !in toRemove || id in gone) :: old(activeSessions)[id]
        decreases gone
      {
        var id :| id in gone;
        activeSessions := activeSessions - {id};
        gone := gone - {id};
      }
    }
  }

  /** The second loop of `broadcast_to_caretakers`: `remove` each failed
      socket that is still in the list. */
  method RemoveDisconnected(caretakers: seq<Socket>, disconnected: seq<Socket>) returns (remaining: seq<Socket>)
    ensures remaining == RemoveEach(caretakers, disconnected)
  {
    remaining := caretakers;
    var j := 0;
    while j < |disconnected|
      invariant 0 <= j <= |disconnected|
      invariant RemoveEach(remaining, disconnected[j..]) == RemoveEach(caretakers, disconnected)
    {
      assert disconnected[j..][1..] == disconnected[j + 1..];
      if disconnected[j] in remaining {
        remaining := RemoveFirst(remaining, disconnected[j]);
      }
      j := j + 1;
    }
  }

  /** A walk that lists every active id exactly once has listed as many
      sessions as there are active ids, and every active session. */
  lemma ListedOnce(sessions: map<string, Session>, ids: seq<string>, active: seq<Session>)
    requires |active| == |ids|
    requires forall i :: 0 <= i < |ids| ==> ids[i] in ActiveIds(sessions) && active[i] == sessions[ids[i]]
    requires forall id :: id in ActiveIds(sessions) ==> id in ids
    requires forall i, j :: 0 <= i < j < |ids| ==> ids[i] != ids[j]
    ensures |ids| == |ActiveIds(sessions)|
    ensures forall s :: s in active ==> s in sessions.Values && s.status == Active
    ensures forall id :: id in ActiveIds(sessions) ==> sessions[id] in active
  {
    assert (set x | x in ids) == ActiveIds(sessions);
    DistinctCard(ids);
    forall s | s in active
      ensures s in sessions.Values && s.status == Active
    {
      var i :| 0 <= i < |active| && active[i] == s;
      assert ids[i] in sessions;
    }
    forall id | id in ActiveIds(sessions)
      ensures sessions[id] in active
    {
      var i :| 0 <= i < |ids| && ids[i] == id;
      assert active[i] == sessions[id];
    }
  }

  /** A sequence without repeats has as many distinct elements as entries. */
  lemma {:induction false} DistinctCard(xs: seq<string>)
    requires forall i, j :: 0 <= i < j < |xs| ==> xs[i] != xs[j]
    ensures |set x | x in xs| == |xs|
    decreases |xs|
  {
    if xs != [] {
      var t := xs[1..];
      DistinctCard(t);
      assert (set x | x in xs) == (set x | x in t) + {xs[0]};
      assert xs[0] !in t;
    }
  }

  lemma SelectSnoc(cs: seq<Socket>, ok: seq<bool>, i: nat, outcome: bool)
    requires |ok| == |cs| && i < |cs|
    ensures Select(cs[..i + 1], ok[..i + 1], outcome)
            == Select(cs[..i], ok[..i], outcome) + (if ok[i] == outcome then [cs[i]] else [])
  {
    assert cs[..i + 1] == cs[..i] + [cs[i]];
    assert ok[..i + 1] == ok[..i] + [ok[i]];
    SelectAppend(cs[..i], ok[..i], cs[i], ok[i], outcome);
  }

  lemma {:induction false} SelectAppend(cs: seq<Socket>, ok: seq<bool>, c: Socket, b: bool, outcome: bool)
    requires |ok| == |cs|
    ensures Select(cs + [c], ok + [b], outcome) == Select(cs, ok, outcome) + (if b == outcome then [c] else [])
    decreases |cs|
  {
    if cs == [] {
      assert cs + [c] == [c] && ok + [b] == [b];
    } else {
      var head := if ok[0] == outcome then [cs[0]] else [];
      assert (cs + [c])[1..] == cs[1..] + [c];
      assert (ok + [b])[1..] == ok[1..] + [b];
      assert Select(cs + [c], ok + [b], outcome) == head + Select(cs[1..] + [c], ok[1..] + [b], outcome);
      SelectAppend(cs[1..], ok[1..], c, b, outcome);
      assert Select(cs, ok, outcome) == head + Select(cs[1..], ok[1..], outcome);
    }
  }

  lemma {:induction false} DeliveriesAppend(a: seq<Socket>, b: seq<Socket>, m: Message)
    ensures Deliveries(a + b, m) == Deliveries(a, m) + Deliveries(b, m)
    decreases |a|
  {
    if a == [] {
      assert a + b == b;
    } else {
      assert (a + b)[1..] == a[1..] + b;
      DeliveriesAppend(a[1..], b, m);
    }
  }
}

/** Properties of the registry's pruning and of its add/remove rules. */
module RealtimeProps {
  import opened Values
  import opened Realtime

  predicate Distinct(s: seq<Socket>) {
    forall i, j :: 0 <= i < j < |s| ==> s[i] != s[j]
  }

  /** `RemoveFirst` drops exactly the earliest occurrence. */
  lemma {:induction false} RemoveFirstIsEarliest(s: seq<Socket>, x: Socket, i: nat)
    requires i < |s| && s[i] == x && x !in s[..i]
    ensures RemoveFirst(s, x) == s[..i] + s[i + 1..]
    decreases i
  {
    if i > 0 {
      assert s[0] in s[..i];
      RemoveFirstIsEarliest(s[1..], x, i - 1);
      assert s[1..][..i - 1] == s[1..i];
      assert s[..i] == [s[0]] + s[1..i];
    }
  }

  /** `list.remove` takes exactly one occurrence of `x` out, and nothing
      when there is none. */
  lemma {:induction false} RemoveFirstMultiset(s: seq<Socket>, x: Socket)
    ensures multiset(RemoveFirst(s, x)) == multiset(s) - multiset{x}
  {
    if s != [] {
      assert s == [s[0]] + s[1..];
      if s[0] != x {
        RemoveFirstMultiset(s[1..], x);
      }
    }
  }

  /** Removing `ws` from an entry takes exactly one occurrence of it out
      of the caretakers (none when it is absent). */
  lemma RemovedTakesOne(c: Conn, ws: Socket)
    ensures multiset(Removed(c, ws).caretakers) == multiset(c.caretakers) - multiset{ws}
  {
    RemoveFirstMultiset(c.caretakers, ws);
  }

  lemma {:induction false} RemoveEachMultiset(s: seq<Socket>, rs: seq<Socket>)
    ensures multiset(RemoveEach(s, rs)) == multiset(s) - multiset(rs)
    decreases |rs|
  {
    if rs != [] {
      var t := RemoveFirst(s, rs[0]);
      calc {
        multiset(RemoveEach(s, rs));
        { RemoveEachMultiset(t, rs[1..]); }
        multiset(t) - multiset(rs[1..]);
        { RemoveFirstMultiset(s, rs[0]); }
        (multiset(s) - multiset{rs[0]}) - multiset(rs[1..]);
        { DifferenceOfSum(multiset(s), multiset{rs[0]}, multiset(rs[1..])); }
        multiset(s) - (multiset{rs[0]} + multiset(rs[1..]));
        { assert rs == [rs[0]] + rs[1..]; }
        multiset(s) - multiset(rs);
      }
    }
  }

  lemma DifferenceOfSum(a: multiset<Socket>, x: multiset<Socket>, b: multiset<Socket>)
    ensures (a - x) - b == a - (x + b)
  {
    forall e ensures ((a - x) - b)[e] == (a - (x + b))[e] {
    }
  }

  /** Every caretaker either succeeded or failed. */
  lemma {:induction false} SelectPartitions(cs: seq<Socket>, ok: seq<bool>)
    requires |ok| == |cs|
    ensures multiset(cs) == multiset(Select(cs, ok, true)) + multiset(Select(cs, ok, false))
  {
    if cs != [] {
      SelectPartitions(cs[1..], ok[1..]);
      assert cs == [cs[0]] + cs[1..];
    }
  }

  /** Whatever the duplicates, the pruned list holds each socket as often
      as it succeeded. */
  lemma PruneKeepsSucceededCounts(cs: seq<Socket>, ok: seq<bool>)
    requires |ok| == |cs|
    ensures multiset(RemoveEach(cs, Select(cs, ok, false))) == multiset(Select(cs, ok, true))
  {
    RemoveEachMultiset(cs, Select(cs, ok, false));
    SelectPartitions(cs, ok);
  }

  lemma {:induction false} RemoveEachSkips(x: Socket, rest: seq<Socket>, rs: seq<Socket>)
    requires x !in rs
    ensures RemoveEach([x] + rest, rs) == [x] + RemoveEach(rest, rs)
    decreases |rs|
  {
    if rs != [] {
      assert rs[0] != x;
      assert ([x] + rest)[1..] == rest;
      assert RemoveFirst([x] + rest, rs[0]) == [x] + RemoveFirst(rest, rs[0]);
      assert forall y :: y in rs[1..] ==> y in rs;
      RemoveEachSkips(x, RemoveFirst(rest, rs[0]), rs[1..]);
    }
  }

  /** With each caretaker registered once, a broadcast leaves exactly the
      caretakers whose write succeeded, in their original order. */
  lemma {:induction false} PruneKeepsSucceeded(cs: seq<Socket>, ok: seq<bool>)
    requires |ok| == |cs| && Distinct(cs)
    ensures RemoveEach(cs, Select(cs, ok, false)) == Select(cs, ok, true)
  {
    if cs != [] {
      var c, rest := cs[0], cs[1..];
      assert cs == [c] + rest;
      assert Distinct(rest) by {
        forall i, j | 0 <= i < j < |rest| ensures rest[i] != rest[j] {
          assert rest[i] == cs[i + 1] && rest[j] == cs[j + 1];
        }
      }
      PruneKeepsSucceeded(rest, ok[1..]);
      SelectMembers(rest, ok[1..], false);
      assert c !in rest by {
        forall i | 0 <= i < |rest| ensures rest[i] != c {
          assert rest[i] == cs[i + 1];
        }
      }
      if ok[0] {
        assert Select(cs, ok, false) == Select(rest, ok[1..], false);
        assert Select(cs, ok, true) == [c] + Select(rest, ok[1..], true);
        RemoveEachSkips(c, rest, Select(rest, ok[1..], false));
      } else {
        assert Select(cs, ok, false) == [c] + Select(rest, ok[1..], false);
      }
    }
  }

  lemma {:induction false} SelectMembers(cs: seq<Socket>, ok: seq<bool>, outcome: bool)
    requires |ok| == |cs|
    ensures forall x :: x in Select(cs, ok, outcome) ==> x in cs
  {
    if cs != [] {
      SelectMembers(cs[1..], ok[1..], outcome);
    }
  }

  /** The registry-level statement: after a broadcast the child's
      caretakers are exactly the ones that received the message. */
  lemma BroadcastKeepsReceivers(conns: map<string, Conn>, childId: string, m: Message, ok: seq<bool>)
    requires childId in conns && Fits(conns, childId, ok) && Distinct(conns[childId].caretakers)
    ensures AfterBroadcast(conns, childId, ok)[childId].caretakers
            == Select(conns[childId].caretakers, ok, true)
    ensures Deliveries(AfterBroadcast(conns, childId, ok)[childId].caretakers, m)
            == ToCaretakers(conns, childId, m, ok)
  {
    PruneKeepsSucceeded(conns[childId].caretakers, ok);
  }

  /** Registering a socket for an unknown child and removing it again
      leaves the registry as it was, in either role. */
  lemma AddThenRemoveFresh(conns: map<string, Conn>, childId: string, ws: Socket, role: string)
    requires childId !in conns
    ensures WithoutConnection(WithConnection(conns, childId, ws, role), childId, ws) == conns
  {
    var added := WithConnection(conns, childId, ws, role);
    assert Empty(Removed(added[childId], ws));
  }

  lemma RemoveFirstOfAppended(cs: seq<Socket>, ws: Socket)
    requires ws !in cs
    ensures RemoveFirst(cs + [ws], ws) == cs
  {
    RemoveFirstIsEarliest(cs + [ws], ws, |cs|);
    assert (cs + [ws])[..|cs|] == cs;
  }

  /** A caretaker that joins a child still in the registry and then leaves
      restores the entry. */
  lemma AddThenRemoveCaretaker(conns: map<string, Conn>, childId: string, ws: Socket, role: string)
    requires childId in conns && role != "child" && !Empty(conns[childId])
    requires conns[childId].child != Some(ws) && ws !in conns[childId].caretakers
    ensures WithoutConnection(WithConnection(conns, childId, ws, role), childId, ws) == conns
  {
    RemoveFirstOfAppended(conns[childId].caretakers, ws);
    assert Removed(WithConnection(conns, childId, ws, role)[childId], ws) == conns[childId];
  }
}
