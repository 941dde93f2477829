/** The caretaker side of the live game channel
    (frontend/src/contexts/SocketContext.js): the reducer that folds each
    received message into `(gameEvents, liveGameData)`, the builders of
    the control envelopes a caretaker sends, the guard that drops a send
    on a socket that is not open, and the connection-URL rule. */
module SocketContext {
  import opened Values

  /** `liveGameData` when it is not `null`: a plain JavaScript object. */
  type LiveData = map<string, Value>

  /** The two pieces of React state the provider keeps. */
  datatype State = State(gameEvents: seq<Value>, liveGameData: Option<LiveData>)

  const Initial: State := State([], None)

  function TypeOf(data: Value): Value {
    Field(data, "type")
  }

  /** `handleGameMessage(data)`: the state after one received message.
      `game_event` and `surprise_triggered` append one event;
      `session_started` replaces the live data; `session_ended` and
      `game_paused` update live data that exists; every other type
      (including `connection_confirmed`) changes nothing. */
  function HandleGameMessage(st: State, data: Value): (r: State)
    ensures st.gameEvents <= r.gameEvents && |r.gameEvents| <= |st.gameEvents| + 1
    ensures |r.gameEvents| == |st.gameEvents| + 1 <==>
              TypeOf(data) in {Str("game_event"), Str("surprise_triggered")}
    ensures r.liveGameData != st.liveGameData ==>
              TypeOf(data) in {Str("session_started"), Str("session_ended"), Str("game_paused")}
  {
    var t := TypeOf(data);
    if t == Str("game_event") then
      st.(gameEvents := st.gameEvents + [Field(data, "event")])
    else if t == Str("session_started") then
      st.(liveGameData := Some(StartedData(data)))
    else if t == Str("session_ended") then
      st.(liveGameData := UpdateLive(st.liveGameData, map["status" := Str("ended"),
                                                          "summary" := Field(data, "summary"),
                                                          "endedAt" := Field(data, "timestamp")]))
    else if t == Str("surprise_triggered") then
      st.(gameEvents := st.gameEvents + [SurpriseEvent(data)])
    else if t == Str("game_paused") then
      st.(liveGameData := UpdateLive(st.liveGameData, map["status" := Str("paused"),
                                                          "pauseDuration" := Field(data, "duration")]))
    else
      st
  }

  /** The live data a `session_started` message installs. */
  function StartedData(data: Value): (d: LiveData)
    ensures d.Keys == {"sessionId", "childId", "config", "status", "startedAt"}
    ensures d["status"] == Str("active")
    ensures d["sessionId"] == Field(data, "session_id") && d["childId"] == Field(data, "child_id")
    ensures d["config"] == Field(data, "config") && d["startedAt"] == Field(data, "timestamp")
  {
    map["sessionId" := Field(data, "session_id"),
        "childId" := Field(data, "child_id"),
        "config" := Field(data, "config"),
        "status" := Str("active"),
        "startedAt" := Field(data, "timestamp")]
  }

  /** The event a `surprise_triggered` message appends. */
  function SurpriseEvent(data: Value): (e: Value)
    ensures e.Obj? && e.fields.Keys == {"type", "surpriseType", "timestamp"}
    ensures e.fields["type"] == Str("surprise")
    ensures e.fields["surpriseType"] == Field(data, "surprise_type")
    ensures e.fields["timestamp"] == Field(data, "timestamp")
  {
    Obj(map["type" := Str("surprise"),
            "surpriseType" := Field(data, "surprise_type"),
            "timestamp" := Field(data, "timestamp")])
  }

  /** `prev ? { ...prev, ...changes } : null`. */
  function UpdateLive(prev: Option<LiveData>, changes: map<string, Value>): (r: Option<LiveData>)
    ensures prev.None? <==> r.None?
    ensures r.Some? ==> r.value.Keys == prev.value.Keys + changes.Keys
    ensures r.Some? ==> forall k :: k in changes ==> r.value[k] == changes[k]
    ensures r.Some? ==> forall k :: k in prev.value && k !in changes ==> r.value[k] == prev.value[k]
  {
    match prev
    case None => None
    case Some(p) => Some(p + changes)
  }

  /** `clearGameEvents()` */
  function ClearGameEvents(st: State): (r: State)
    ensures r.gameEvents == [] && r.liveGameData == st.liveGameData
  {
    st.(gameEvents := [])
  }

  /** `resetLiveGameData()` */
  function ResetLiveGameData(st: State): (r: State)
    ensures r.liveGameData == None && r.gameEvents == st.gameEvents
  {
    st.(liveGameData := None)
  }

  /** The state after a sequence of messages received in order. */
  function Replay(st: State, msgs: seq<Value>): State
    decreases |msgs|
  {
    if msgs == [] then st else Replay(HandleGameMessage(st, msgs[0]), msgs[1..])
  }

  /** Number of messages that append to `gameEvents`. */
  function EventMessages(msgs: seq<Value>): nat
    decreases |msgs|
  {
    if msgs == [] then 0
    else (if TypeOf(msgs[0]) in {Str("game_event"), Str("surprise_triggered")} then 1 else 0)
         + EventMessages(msgs[1..])
  }

  // ---------------------------------------------------------------------
  // Sending

  const CONNECTING: int := 0
  const OPEN: int := 1

  /** A browser WebSocket as far as the provider uses it: its ready state,
      the URL it was opened with and the envelopes sent on it. */
  class WebSocketConn {
    var readyState: int
    var url: string
    var sent: seq<Value>

    constructor (url: string)
      ensures readyState == CONNECTING && this.url == url && sent == []
    {
      readyState := CONNECTING;
      this.url := url;
      sent := [];
    }
  }

  /** `{type, <key>: payload, timestamp}`: the envelope both send helpers
      write. The timestamp is the caller's clock reading. */
  function Envelope(kind: string, key: string, payload: Value, now: string): (e: Value)
    requires key != "type" && key != "timestamp"
    ensures e.Obj? && e.fields.Keys == {"type", key, "timestamp"}
    ensures Field(e, "type") == Str(kind) && Field(e, key) == payload && Field(e, "timestamp") == Str(now)
  {
    Obj(map["type" := Str(kind), key := payload, "timestamp" := Str(now)])
  }

  function ControlEnvelope(control: Value, now: string): Value {
    Envelope("control_command", "control", control, now)
  }

  function GameEventEnvelope(event: Value, now: string): Value {
    Envelope("game_event", "event", event, now)
  }

  predicate IsOpen(socket: WebSocketConn?)
    reads socket
  {
    socket != null && socket.readyState == OPEN
  }

  /** `sendCaretakerControl(gameSocket, controlData)`: sends a
      `control_command` envelope only on a non-null, open socket. */
  method SendCaretakerControl(socket: WebSocketConn?, control: Value, now: string)
    modifies socket
    ensures socket != null && old(socket.readyState) == OPEN ==>
              socket.sent == old(socket.sent) + [ControlEnvelope(control, now)]
    ensures socket != null && old(socket.readyState) != OPEN ==> socket.sent == old(socket.sent)
    ensures socket != null ==> socket.readyState == old(socket.readyState) && socket.url == old(socket.url)
  {
    if socket != null && socket.readyState == OPEN {
      socket.sent := socket.sent + [ControlEnvelope(control, now)];
    }
  }

  /** `sendGameEvent(gameSocket, eventData)`: same guard, `game_event`
      envelope. */
  method SendGameEvent(socket: WebSocketConn?, event: Value, now: string)
    modifies socket
    ensures socket != null && old(socket.readyState) == OPEN ==>
              socket.sent == old(socket.sent) + [GameEventEnvelope(event, now)]
    ensures socket != null && old(socket.readyState) != OPEN ==> socket.sent == old(socket.sent)
    ensures socket != null ==> socket.readyState == old(socket.readyState) && socket.url == old(socket.url)
  {
    if socket != null && socket.readyState == OPEN {
      socket.sent := socket.sent + [GameEventEnvelope(event, now)];
    }
  }

  /** The `control` payloads of the four caretaker commands. */
  function TriggerSurpriseControl(surpriseType: Value): (c: Value)
    ensures Field(c, "action") == Str("trigger_surprise") && Field(c, "surpriseType") == surpriseType
  {
    Obj(map["action" := Str("trigger_surprise"), "surpriseType" := surpriseType])
  }

  /** `pauseGame(gameSocket, duration = 30)`: an `undefined` duration takes
      the default 30; any other value, `null` included, is kept. */
  function PauseGameControl(duration: Value): (c: Value)
    ensures Field(c, "action") == Str("pause_game")
    ensures Field(c, "duration") == if duration.Undefined? then Num(30) else duration
  {
    Obj(map["action" := Str("pause_game"), "duration" := if duration.Undefined? then Num(30) else duration])
  }

  function ResumeGameControl(): (c: Value)
    ensures Field(c, "action") == Str("resume_game") && c.Obj? && c.fields.Keys == {"action"}
  {
    Obj(map["action" := Str("resume_game")])
  }

  function AdjustSettingsControl(settings: Value): (c: Value)
    ensures Field(c, "action") == Str("adjust_settings") && Field(c, "settings") == settings
  {
    Obj(map["action" := Str("adjust_settings"), "settings" := settings])
  }

  const ControlActions: set<string> := {"trigger_surprise", "pause_game", "resume_game", "adjust_settings"}

  /** One caretaker command, as the four helpers take it. */
  datatype Command =
    | TriggerSurprise(surpriseType: Value)
    | PauseGame(duration: Value)
    | ResumeGame
    | AdjustSettings(settings: Value)

  function CommandControl(cmd: Command): Value {
    match cmd
    case TriggerSurprise(s) => TriggerSurpriseControl(s)
    case PauseGame(d) => PauseGameControl(d)
    case ResumeGame => ResumeGameControl()
    case AdjustSettings(s) => AdjustSettingsControl(s)
  }

  /** What a receiver reads back from a control envelope: its `type` and
      its `control.action`. */
  function ReadControl(envelope: Value): (r: Option<string>)
  {
    if Field(envelope, "type") == Str("control_command") && Field(Field(envelope, "control"), "action").Str?
    then Some(Field(Field(envelope, "control"), "action").s)
    else None
  }

  /** `triggerSurprise`, `pauseGame`, `resumeGame` and `adjustGameSettings`:
      each sends its command's control payload through
      `sendCaretakerControl`. */
  method SendCommand(socket: WebSocketConn?, cmd: Command, now: string)
    modifies socket
    ensures socket != null && old(socket.readyState) == OPEN ==>
              socket.sent == old(socket.sent) + [ControlEnvelope(CommandControl(cmd), now)]
    ensures socket != null && old(socket.readyState) != OPEN ==> socket.sent == old(socket.sent)
    ensures socket != null ==> socket.readyState == old(socket.readyState) && socket.url == old(socket.url)
  {
    SendCaretakerControl(socket, CommandControl(cmd), now);
  }

  // ---------------------------------------------------------------------
  // Connecting

  const DefaultWsBase: string := "ws://localhost:8000"

  /** The URL `connectToChild` opens, or `None` when there is no user or no
      token. `connectionType` defaults to `caretaker`; the endpoint base
      comes from the environment, falling back to the local server. */
  function ChildSocketUrl(user: Value, token: Option<string>, childId: string,
                          connectionType: Option<string>, wsBase: Option<string>): (r: Option<string>)
    ensures r.None? <==> !Truthy(user) || !PresentStr(token)
    ensures r.Some? ==> r.value == (if PresentStr(wsBase) then wsBase.value else DefaultWsBase)
                                   + "/ws/" + childId + "?type=" + connectionType.GetOr("caretaker")
                                   + "&token=" + token.value
  {
    if !Truthy(user) || !PresentStr(token) then None
    else Some((if PresentStr(wsBase) then wsBase.value else DefaultWsBase)
              + "/ws/" + childId + "?type=" + connectionType.GetOr("caretaker") + "&token=" + token.value)
  }

  /** `connectToChild(childId, connectionType)`: `null` without a user or a
      token, otherwise a new socket (still connecting) on the child's URL. */
  method ConnectToChild(user: Value, token: Option<string>, childId: string,
                        connectionType: Option<string>, wsBase: Option<string>)
    returns (socket: WebSocketConn?)
    ensures socket == null <==> ChildSocketUrl(user, token, childId, connectionType, wsBase).None?
    ensures socket != null ==> fresh(socket) && socket.readyState == CONNECTING && socket.sent == []
                               && socket.url == ChildSocketUrl(user, token, childId, connectionType, wsBase).value
  {
    var url := ChildSocketUrl(user, token, childId, connectionType, wsBase);
    if url.None? {
      return null;
    }
    socket := new WebSocketConn(url.value);
  }
}

module SocketContextProps {
  import opened Values
  import opened SocketContext

  /** A `game_event` message appends exactly its `event` and touches
      nothing else. */
  lemma GameEventAppends(st: State, data: Value)
    requires TypeOf(data) == Str("game_event")
    ensures HandleGameMessage(st, data) == State(st.gameEvents + [Field(data, "event")], st.liveGameData)
  {
  }

  /** A `surprise_triggered` message appends a `surprise` event built from
      the message. */
  lemma SurpriseAppends(st: State, data: Value)
    requires TypeOf(data) == Str("surprise_triggered")
    ensures HandleGameMessage(st, data) == State(st.gameEvents + [SurpriseEvent(data)], st.liveGameData)
  {
  }

  /** `session_started` installs fresh `active` live data whatever was
      there before, an ended session included. */
  lemma SessionStartedActivates(st: State, data: Value)
    requires TypeOf(data) == Str("session_started")
    ensures var r := HandleGameMessage(st, data);
            r.gameEvents == st.gameEvents && r.liveGameData == Some(StartedData(data))
            && r.liveGameData.value["status"] == Str("active")
  {
  }

  /** `session_ended` leaves absent live data absent, and otherwise
      changes only `status`, `summary` and `endedAt`. */
  lemma SessionEndedUpdates(st: State, data: Value)
    requires TypeOf(data) == Str("session_ended")
    ensures var r := HandleGameMessage(st, data);
            r.gameEvents == st.gameEvents
            && (st.liveGameData.None? ==> r.liveGameData.None?)
            && (st.liveGameData.Some? ==>
                  r.liveGameData.Some?
                  && r.liveGameData.value.Keys == st.liveGameData.value.Keys + {"status", "summary", "endedAt"}
                  && r.liveGameData.value["status"] == Str("ended")
                  && r.liveGameData.value["summary"] == Field(data, "summary")
                  && r.liveGameData.value["endedAt"] == Field(data, "timestamp")
                  && forall k :: k in st.liveGameData.value && k !in {"status", "summary", "endedAt"} ==>
                       r.liveGameData.value[k] == st.liveGameData.value[k])
  {
  }

  /** `game_paused` leaves absent live data absent, and otherwise changes
      only `status` and `pauseDuration`. */
  lemma GamePausedUpdates(st: State, data: Value)
    requires TypeOf(data) == Str("game_paused")
    ensures var r := HandleGameMessage(st, data);
            r.gameEvents == st.gameEvents
            && (st.liveGameData.None? ==> r.liveGameData.None?)
            && (st.liveGameData.Some? ==>
                  r.liveGameData.Some?
                  && r.liveGameData.value.Keys == st.liveGameData.value.Keys + {"status", "pauseDuration"}
                  && r.liveGameData.value["status"] == Str("paused")
                  && r.liveGameData.value["pauseDuration"] == Field(data, "duration")
                  && forall k :: k in st.liveGameData.value && k !in {"status", "pauseDuration"} ==>
                       r.liveGameData.value[k] == st.liveGameData.value[k])
  {
  }

  const HandledTypes: set<Value> :=
    {Str("game_event"), Str("session_started"), Str("session_ended"), Str("surprise_triggered"), Str("game_paused")}

  /** Once reset, the live data stays `null` until a `session_started`
      message installs new data: the updating messages leave `null` alone. */
  lemma {:induction false} ResetStaysClearedUntilStarted(st: State, msgs: seq<Value>)
    requires forall i :: 0 <= i < |msgs| ==> TypeOf(msgs[i]) != Str("session_started")
    ensures Replay(ResetLiveGameData(st), msgs).liveGameData == None
    decreases |msgs|
  {
    if msgs != [] {
      var next := HandleGameMessage(ResetLiveGameData(st), msgs[0]);
      assert next == ResetLiveGameData(next);
      ResetStaysClearedUntilStarted(next, msgs[1..]);
    }
  }

  /** `connection_confirmed` and every type the switch does not list (a
      resume notice among them) leave both pieces of state as they were. */
  lemma OtherTypesIgnored(st: State, data: Value)
    requires TypeOf(data) !in HandledTypes
    ensures HandleGameMessage(st, data) == st
  {
  }

  /** Over any run of messages the event log only grows at its end, by one
      entry per `game_event` or `surprise_triggered` message. */
  lemma {:induction false} ReplayAppendsOnly(st: State, msgs: seq<Value>)
    ensures st.gameEvents <= Replay(st, msgs).gameEvents
    ensures |Replay(st, msgs).gameEvents| == |st.gameEvents| + EventMessages(msgs)
    decreases |msgs|
  {
    if msgs != [] {
      var next := HandleGameMessage(st, msgs[0]);
      ReplayAppendsOnly(next, msgs[1..]);
      assert st.gameEvents <= next.gameEvents;
    }
  }

  function ActionOf(cmd: Command): string {
    match cmd
    case TriggerSurprise(_) => "trigger_surprise"
    case PauseGame(_) => "pause_game"
    case ResumeGame => "resume_game"
    case AdjustSettings(_) => "adjust_settings"
  }

  /** Every command goes out as a `control_command` envelope whose
      `control.action` reads back as that command's action, one of the
      four the protocol knows. */
  lemma CommandEnvelopeReadsBack(cmd: Command, now: string)
    ensures ReadControl(ControlEnvelope(CommandControl(cmd), now)) == Some(ActionOf(cmd))
    ensures ActionOf(cmd) in ControlActions
  {
    var e := ControlEnvelope(CommandControl(cmd), now);
    assert Field(e, "control") == CommandControl(cmd);
  }
}
