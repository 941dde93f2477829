/** The parts of the back end's HTTP and websocket handlers
    (backend/main.py) that decide something: licence slots at
    registration, the licence gate on creating a child profile, the
    blanket `except Exception` that turns every raised error into a 500,
    and the type dispatch of the websocket loop. The database is a pair of
    maps; password hashing, tokens and the ORM are not modelled. */
module Api {
  import opened Values
  import opened Realtime
  import RealtimeProps

  datatype User = User(id: nat, email: string, role: string)

  /** A `LicenseUsage` row. */
  datatype License = License(role: string, totalSlots: int, usedSlots: int)

  datatype ChildProfile = ChildProfile(id: nat, userId: nat, name: string, age: int)

  /** What a handler answers: its body, or the `HTTPException` it
      raises. */
  datatype Response<T> = Success(body: T) | Failure(status: int, detail: string)

  const ParentSlots := 10
  const OtherSlots := 25

  /** Slots granted at registration: 10 for a parent, 25 for any other
      role. */
  function SlotsFor(role: string): (n: int)
    ensures role == "parent" ==> n == ParentSlots
    ensures role != "parent" ==> n == OtherSlots
    ensures n > 0
  {
    if role == "parent" then ParentSlots else OtherSlots
  }

  /** The licence gate of `create_child_profile`: a licence at capacity
      refuses; otherwise a licence counts one more slot; without a licence
      nothing is gated or counted. Returns the new licence and whether the
      child was admitted. */
  function Admit(license: Option<License>): (r: (Option<License>, bool))
    ensures r.1 <==> !(license.Some? && license.value.usedSlots >= license.value.totalSlots)
    ensures license.None? ==> r.0.None?
    ensures license.Some? ==> r.0.Some? && r.0.value.totalSlots == license.value.totalSlots
                              && r.0.value.role == license.value.role
                              && r.0.value.usedSlots == license.value.usedSlots + (if r.1 then 1 else 0)
  {
    if license.None? then (None, true)
    else if license.value.usedSlots >= license.value.totalSlots then (license, false)
    else (Some(license.value.(usedSlots := license.value.usedSlots + 1)), true)
  }

  /** `k` creation requests in a row against one licence: the licence
      afterwards and the number admitted. */
  function AdmitMany(license: License, k: nat): (License, nat)
    decreases k
  {
    if k == 0 then (license, 0)
    else
      var (next, admitted) := Admit(Some(license));
      var (last, n) := AdmitMany(next.value, k - 1);
      (last, n + (if admitted then 1 else 0))
  }

  function Min(a: int, b: int): int {
    if a <= b then a else b
  }

  class Backend {
    /** `users` by email and `license_usage` by user id. */
    var users: map<string, User>
    var licenses: map<nat, License>
    var children: seq<ChildProfile>

    /** No licence ever counts more children than it has slots. */
    ghost predicate Valid()
      reads this
    {
      forall uid :: uid in licenses ==> 0 <= licenses[uid].usedSlots <= licenses[uid].totalSlots
    }

    constructor ()
      ensures Valid() && users == map[] && licenses == map[] && children == []
    {
      users, licenses, children := map[], map[], [];
    }

    /** `register`: a known email raises 400, which the handler's own
        `except Exception` turns into 500; otherwise the user and a
        licence with `SlotsFor(role)` slots, none used, are stored. The
        database assigns `newId`. */
    method Register(email: string, role: string, newId: nat) returns (r: Response<User>)
      requires Valid()
      modifies this`users, this`licenses
      ensures Valid()
      ensures email in old(users) ==> r == Failure(500, "Registration failed")
                                      && users == old(users) && licenses == old(licenses)
      ensures email !in old(users) ==>
                r == Success(User(newId, email, role))
                && users == old(users)[email := User(newId, email, role)]
                && licenses == old(licenses)[newId := License(role, SlotsFor(role), 0)]
    {
      if email in users {
        return Failure(500, "Registration failed");
      }
      var user := User(newId, email, role);
      users := users[email := user];
      licenses := licenses[newId := License(role, SlotsFor(role), 0)];
      r := Success(user);
    }

    /** `create_child_profile`: the licence gate (its 400 also becomes a
        500), then the profile is stored and a licence, if any, counts one
        more used slot. */
    method CreateChild(userId: nat, name: string, age: int, newId: nat) returns (r: Response<ChildProfile>)
      requires Valid()
      modifies this`licenses, this`children
      ensures Valid()
      ensures var (next, admitted) := Admit(if userId in old(licenses) then Some(old(licenses)[userId]) else None);
              if admitted then
                r == Success(ChildProfile(newId, userId, name, age))
                && children == old(children) + [ChildProfile(newId, userId, name, age)]
                && licenses == (if next.Some? then old(licenses)[userId := next.value] else old(licenses))
              else
                r == Failure(500, "Failed to create child profile")
                && children == old(children) && licenses == old(licenses)
    {
      if userId in licenses && licenses[userId].usedSlots >= licenses[userId].totalSlots {
        return Failure(500, "Failed to create child profile");
      }
      var child := ChildProfile(newId, userId, name, age);
      children := children + [child];
      if userId in licenses {
        licenses := licenses[userId := licenses[userId].(usedSlots := licenses[userId].usedSlots + 1)];
      }
      r := Success(child);
    }
  }

  /** One frame the websocket loop receives: the result of `json.loads`,
      or `None` when the text is not JSON. */
  type Frame = Option<Value>

  /** What the loop does with a frame. A frame that is not JSON, not an
      object, or an object without `"type"` raises an exception other
      than `WebSocketDisconnect`, which ends the handler. */
  datatype Route = Broadcast(m: Message) | Control(m: Message) | Ignore | Crash

  function RouteOf(frame: Frame): (r: Route)
    ensures r.Broadcast? <==> frame.Some? && frame.value.Obj? && Field(frame.value, "type") == Str("game_event")
    ensures r.Control? <==> frame.Some? && frame.value.Obj? && Field(frame.value, "type") == Str("control_command")
    ensures r.Crash? <==> frame.None? || !frame.value.Obj? || "type" !in frame.value.fields
    ensures r.Broadcast? || r.Control? ==> r.m == frame.value.fields
  {
    if frame.None? || !frame.value.Obj? || "type" !in frame.value.fields then Crash
    else if frame.value.fields["type"] == Str("game_event") then Broadcast(frame.value.fields)
    else if frame.value.fields["type"] == Str("control_command") then Control(frame.value.fields)
    else Ignore
  }

  /** How the handler ends: the client went away (`WebSocketDisconnect`
      after the last frame), or the frame at `at` raised. */
  datatype Exit = Disconnected | Crashed(at: nat)

  function ExitOf(frames: seq<Frame>, from: nat): (r: Exit)
    requires from <= |frames|
    ensures r.Crashed? ==> from <= r.at < |frames| && RouteOf(frames[r.at]).Crash?
                           && forall i :: from <= i < r.at ==> !RouteOf(frames[i]).Crash?
    ensures r.Disconnected? ==> forall i :: from <= i < |frames| ==> !RouteOf(frames[i]).Crash?
    decreases |frames| - from
  {
    if from == |frames| then Disconnected
    else if RouteOf(frames[from]).Crash? then Crashed(from)
    else ExitOf(frames, from + 1)
  }

  /** The send results of caretaker number `j` for the frame at `i`. */
  function Results(caretakerOk: (nat, nat) -> bool, i: nat, n: nat): (ok: seq<bool>)
    ensures |ok| == n
  {
    seq(n, j requires 0 <= j < n => caretakerOk(i, j))
  }

  /** The registry after some frames, and what they delivered. */
  datatype Relayed = Relayed(conns: map<string, Conn>, sent: seq<Delivery>)

  /** Every socket the child has in `now` it already had in `start`: no
      caretaker is added, and the child slot is either kept or cleared. */
  ghost predicate Within(now: map<string, Conn>, start: map<string, Conn>, childId: string) {
    childId in now ==>
      childId in start
      && multiset(now[childId].caretakers) <= multiset(start[childId].caretakers)
      && (now[childId].child.Some? ==> now[childId].child == start[childId].child)
  }

  /** Whether socket `ws` is registered for the child in `conns`. */
  ghost predicate Registered(conns: map<string, Conn>, childId: string, ws: Socket) {
    childId in conns && (ws in conns[childId].caretakers || conns[childId].child == Some(ws))
  }

  /** What the frame at `i` does to the registry and the outbox: a
      `game_event` goes to every caretaker of the child (each send
      succeeding as `caretakerOk` says), a `control_command` to the child
      (succeeding as `childOk` says), anything else nothing. Either way
      the frame reaches only the child's own sockets and registers none. */
  function Relay1(conns: map<string, Conn>, childId: string, frame: Frame, i: nat,
                  childOk: nat -> bool, caretakerOk: (nat, nat) -> bool): (r: Relayed)
    ensures r.conns.Keys == conns.Keys
    ensures Within(r.conns, conns, childId)
    ensures forall d :: d in r.sent ==> Registered(conns, childId, d.socket)
    ensures childId !in conns ==> r == Relayed(conns, [])
  {
    match RouteOf(frame)
    case Broadcast(m) =>
      var ok := Results(caretakerOk, i, if childId in conns then |conns[childId].caretakers| else 0);
      BroadcastStaysWithChild(conns, childId, m, ok);
      Relayed(AfterBroadcast(conns, childId, ok), ToCaretakers(conns, childId, m, ok))
    case Control(m) =>
      Relayed(AfterChildSend(conns, childId, m, childOk(i)), ToChild(conns, childId, m, childOk(i)))
    case _ => Relayed(conns, [])
  }

  lemma BroadcastStaysWithChild(conns: map<string, Conn>, childId: string, m: Message, ok: seq<bool>)
    requires Fits(conns, childId, ok)
    ensures Within(AfterBroadcast(conns, childId, ok), conns, childId)
    ensures forall d :: d in ToCaretakers(conns, childId, m, ok) ==> Registered(conns, childId, d.socket)
  {
    if childId in conns {
      var c := conns[childId];
      RealtimeProps.RemoveEachMultiset(c.caretakers, Select(c.caretakers, ok, false));
      RealtimeProps.SelectMembers(c.caretakers, ok, true);
      DeliveriesTo(Select(c.caretakers, ok, true), m);
    }
  }

  lemma {:induction false} DeliveriesTo(sockets: seq<Socket>, m: Message)
    ensures forall d :: d in Deliveries(sockets, m) ==> d.socket in sockets && d.message == m
    decreases |sockets|
  {
    if sockets != [] {
      DeliveriesTo(sockets[1..], m);
    }
  }

  /** A frame and then the rest of the run: what either delivered went to
      a socket registered at the start, since registrations only shrink. */
  lemma ReachExtends(start: map<string, Conn>, childId: string, sent: seq<Delivery>, step: Relayed, rest: Relayed)
    requires Within(step.conns, start, childId)
    requires forall d :: d in step.sent ==> Registered(start, childId, d.socket)
    requires |sent + step.sent| <= |rest.sent| && rest.sent[..|sent + step.sent|] == sent + step.sent
    requires Within(rest.conns, step.conns, childId)
    requires forall d :: d in rest.sent[|sent + step.sent|..] ==> Registered(step.conns, childId, d.socket)
    ensures Within(rest.conns, start, childId)
    ensures forall d :: d in rest.sent[|sent|..] ==> Registered(start, childId, d.socket)
  {
    forall d | d in rest.sent[|sent|..] ensures Registered(start, childId, d.socket) {
      var j :| |sent| <= j < |rest.sent| && rest.sent[j] == d;
      if j < |sent + step.sent| {
        assert d == (sent + step.sent)[j] == step.sent[j - |sent|];
      } else {
        assert d in rest.sent[|sent + step.sent|..] by {
          assert d == rest.sent[|sent + step.sent|..][j - |sent + step.sent|];
        }
        if d.socket in step.conns[childId].caretakers {
          assert multiset(step.conns[childId].caretakers)[d.socket] > 0;
        }
      }
    }
  }

  /** What the handler does from frame `from` on, starting from the
      registry `conns` and the outbox `sent`: each frame is relayed in
      order until one raises or the frames run out. */
  function Relay(conns: map<string, Conn>, sent: seq<Delivery>, childId: string, frames: seq<Frame>, from: nat,
                 childOk: nat -> bool, caretakerOk: (nat, nat) -> bool): (r: Relayed)
    requires from <= |frames|
    ensures r.conns.Keys == conns.Keys
    ensures Within(r.conns, conns, childId)
    ensures |sent| <= |r.sent| && r.sent[..|sent|] == sent
    ensures forall d :: d in r.sent[|sent|..] ==> Registered(conns, childId, d.socket)
    ensures childId !in conns ==> r == Relayed(conns, sent)
    decreases |frames| - from
  {
    if from == |frames| || RouteOf(frames[from]).Crash? then Relayed(conns, sent)
    else
      var step := Relay1(conns, childId, frames[from], from, childOk, caretakerOk);
      var rest := Relay(step.conns, sent + step.sent, childId, frames, from + 1, childOk, caretakerOk);
      assert rest.sent[..|sent|] == (rest.sent[..|sent + step.sent|])[..|sent|];
      ReachExtends(conns, childId, sent, step, rest);
      rest
  }

  /** `websocket_endpoint`. The registration and the removal are
      coroutines that are called but never awaited, so they never run:
      the registry gains no entry for this socket and loses none. Each
      frame up to the one that raises is routed by its `"type"`; the sends
      inside the routes do run and may prune the registry as usual. */
  method WebsocketEndpoint(gm: GameManager, childId: string, frames: seq<Frame>,
                           childOk: nat -> bool, caretakerOk: (nat, nat) -> bool)
    returns (exit: Exit)
    modifies gm
    ensures exit == ExitOf(frames, 0)
    ensures gm.connections == Relay(old(gm.connections), old(gm.sent), childId, frames, 0, childOk, caretakerOk).conns
    ensures gm.sent == Relay(old(gm.connections), old(gm.sent), childId, frames, 0, childOk, caretakerOk).sent
    ensures gm.connections.Keys == old(gm.connections.Keys)
    ensures gm.activeSessions == old(gm.activeSessions)
    ensures childId !in old(gm.connections) ==> gm.connections == old(gm.connections) && gm.sent == old(gm.sent)
    ensures old(gm.connections) == map[] ==> gm.connections == map[] && gm.sent == old(gm.sent)
  {
    var i := 0;
    while i < |frames| && !RouteOf(frames[i]).Crash?
      invariant 0 <= i <= |frames|
      invariant ExitOf(frames, i) == ExitOf(frames, 0)
      invariant Relay(gm.connections, gm.sent, childId, frames, i, childOk, caretakerOk)
                == Relay(old(gm.connections), old(gm.sent), childId, frames, 0, childOk, caretakerOk)
      invariant gm.activeSessions == old(gm.activeSessions)
      decreases |frames| - i
    {
      HandleFrame(gm, childId, frames[i], i, childOk, caretakerOk);
      i := i + 1;
    }
    exit := if i < |frames| then Crashed(i) else Disconnected;
  }

  /** The body of the receive loop for one frame that did not raise. */
  method HandleFrame(gm: GameManager, childId: string, frame: Frame, i: nat,
                     childOk: nat -> bool, caretakerOk: (nat, nat) -> bool)
    modifies gm
    ensures gm.connections == Relay1(old(gm.connections), childId, frame, i, childOk, caretakerOk).conns
    ensures gm.sent == old(gm.sent) + Relay1(old(gm.connections), childId, frame, i, childOk, caretakerOk).sent
    ensures gm.activeSessions == old(gm.activeSessions)
  {
    match RouteOf(frame) {
      case Broadcast(m) =>
        var n := if childId in gm.connections then |gm.connections[childId].caretakers| else 0;
        gm.BroadcastToCaretakers(childId, m, Results(caretakerOk, i, n));
      case Control(m) =>
        gm.SendControlToChild(childId, m, childOk(i));
      case _ =>
    }
  }
}

module ApiProps {
  import opened Values
  import opened Api

  /** Starting from `used` of `total` slots, `k` requests admit
      `min(k, total - used)` children and count exactly that many. */
  lemma {:induction false} AdmitManyCounts(license: License, k: nat)
    requires 0 <= license.usedSlots <= license.totalSlots
    ensures AdmitMany(license, k).1 == Min(k, license.totalSlots - license.usedSlots)
    ensures AdmitMany(license, k).0 == license.(usedSlots := license.usedSlots + AdmitMany(license, k).1)
    decreases k
  {
    if k > 0 {
      var next := Admit(Some(license)).0.value;
      AdmitManyCounts(next, k - 1);
    }
  }

  /** A parent can add ten children and a doctor twenty-five; every
      further request is refused. */
  lemma RegisteredCapacity(role: string, k: nat)
    ensures AdmitMany(License(role, SlotsFor(role), 0), k).1 == Min(k, if role == "parent" then 10 else 25)
  {
    AdmitManyCounts(License(role, SlotsFor(role), 0), k);
  }
}
