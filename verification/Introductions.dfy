// Registration at the master: the new server is announced to the servers that
// should connect to it and told which servers it should connect to
// (MasterServer/LMasterServerMainLogic.cpp, LMasterServerPacketProcess_Common.cpp).
module Introductions {
  import opened ServerIds
  import opened Registry
  import opened Tallies

  // ---- The registration handler ---------------------------------------------------

  // `packet` says whether GetOneSendPacket has one; without it nobody is told.
  function Broadcast(r: Reg, raw: Id, packet: bool): seq<Message> {
    var ids := r.servers.Keys;
    match SetServerID(raw)
    case None => []
    case Some(s) =>
      if !packet then []
      else if s.kind == LOBBY || s.kind == GAME then ToKind(r, ids, GATE, raw)
      else if s.kind == DB then ToKind(r, ids, LOBBY, raw) + ToKind(r, ids, GAME, raw)
      else if s.kind == ACCOUNT_DB then ToKind(r, ids, LOGIN, raw)
      else []
  }

  method BroadCastServerToServers(m: LServerManager, raw: Id, packet: bool)
    requires m.Valid()
    modifies m`outbox
    ensures m.Valid() && m.View() == old(m.View())
    ensures m.outbox == old(m.outbox) + Broadcast(m.View(), raw, packet)
  {
    hide ToKind, Agree, Keyed, Apart, Sessions;
    if raw == 0 {
      return;
    }
    var id := SetServerID(raw);
    if id.None? {
      return;
    }
    if id.value.kind == LOBBY || id.value.kind == GAME || id.value.kind == DB || id.value.kind == ACCOUNT_DB {
      if !packet {
        return;
      }
    }
    if id.value.kind == LOBBY || id.value.kind == GAME {
      m.BroadCastToServersByServerType(GATE, raw);
    } else if id.value.kind == DB {
      m.BroadCastToServersByServerType(LOBBY, raw);
      m.BroadCastToServersByServerType(GAME, raw);
    } else if id.value.kind == ACCOUNT_DB {
      m.BroadCastToServersByServerType(LOGIN, raw);
    }
  }

  datatype Registration = Registration(reg: Reg, sent: seq<Message>, kicked: bool)

  // What a registration request does: the registry after it, the packets sent,
  // and whether the session is disconnected. `packet` and `response` say
  // whether there is a packet for the announcement (100 bytes) and one for the
  // response (120 bytes). A packet is missing only when no class is large enough,
  // so in the program a response implies an announcement.
  function RegisterNext(r: Reg, session: nat, raw: Id, packet: bool, response: bool): Registration {
    match SetServerID(raw)
    case None => Registration(r, [], true)
    case Some(s) =>
      var r' := AddServerNext(r, session, s);
      if !Admits(r, session, s) then Registration(r', [], true)
      else
        Registration(r', Broadcast(r', raw, packet) + ConnectInfos(r', raw) + Answer(session, response), false)
  }

  function Answer(session: nat, response: bool): seq<Message> {
    if response then [RegisterRes(session)] else []
  }

  // What is sent once the server is registered.
  method Introduce(m: LServerManager, session: nat, raw: Id, packet: bool, response: bool)
    requires m.Valid() && SetServerID(raw).Some? && session in m.View().servers.Values
    modifies m`outbox
    ensures m.Valid() && m.View() == old(m.View())
    ensures m.outbox == old(m.outbox) + (Broadcast(m.View(), raw, packet) + ConnectInfos(m.View(), raw) + Answer(session, response))
  {
    hide Broadcast, ConnectInfos, Agree, Keyed, Apart, Sessions, Unpack, Pack;
    ghost var was, told, infos := m.outbox, Broadcast(m.View(), raw, packet), ConnectInfos(m.View(), raw);
    SessionTaken(m.servers, m.bySession, session);
    BroadCastServerToServers(m, raw, packet);
    if raw != 0 {
      m.SendPacketToServerCanConnectToServerInfos(raw);
    }
    var server := m.FindServerBySessionID(session);
    assert was + (told + infos + []) == was + told + infos;
    if server != null && response {
      m.outbox := m.outbox + [RegisterRes(server.session)];
      assert was + (told + infos + [RegisterRes(session)]) == was + told + infos + [RegisterRes(session)];
    }
  }

  method RegisterServer(m: LServerManager, session: nat, raw: Id, packet: bool, response: bool) returns (kicked: bool)
    requires m.Valid()
    modifies m
    ensures m.Valid()
    ensures var n := RegisterNext(old(m.View()), session, raw, packet, response);
      m.View() == n.reg && m.outbox == old(m.outbox) + n.sent && kicked == n.kicked
    ensures !kicked <==> SetServerID(raw).Some? && Admits(old(m.View()), session, SetServerID(raw).value)
    ensures kicked ==> m.outbox == old(m.outbox) && m.View().servers == old(m.View()).servers
  {
    hide Broadcast, ConnectInfos, SetServerID, Agree, Keyed, Apart, Sessions, Unpack, Pack;
    var id := SetServerID(raw);
    if id.None? {
      return true;
    }
    var ok := m.AddServer(session, id.value);
    if !ok {
      return true;
    }
    assert m.View().servers[Pack(id.value)] == session;
    Introduce(m, session, raw, packet, response);
    return false;
  }

  // ---- Counting introductions -------------------------------------------------------

  predicate Names(m: Message, to: nat, server: Id) {
    !m.RegisterRes? && m.to == to && m.server == server
  }

  function Count(log: seq<Message>, to: nat, server: Id): nat {
    if log == [] then 0 else (if Names(log[0], to, server) then 1 else 0) + Count(log[1..], to, server)
  }

  lemma {:induction false} CountConcat(a: seq<Message>, b: seq<Message>, to: nat, server: Id)
    ensures Count(a + b, to, server) == Count(a, to, server) + Count(b, to, server)
  {
    if a == [] {
      assert a + b == b;
    } else {
      CountConcat(a[1..], b, to, server);
      assert (a + b)[1..] == a[1..] + b;
    }
  }

  lemma {:induction false} CountToKind(r: Reg, ids: set<Id>, kind: nat, name: Id, a: Id, n: Id)
    requires r.Sound() && ids <= r.servers.Keys && a in r.servers
    ensures Count(ToKind(r, ids, kind, name), r.servers[a], n) == Once(a in ids && Kind(a) == kind && n == name)
    decreases |ids|
  {
    hide Kind, Least;
    if ids != {} {
      var id := Least(ids);
      CountToKind(r, ids - {id}, kind, name, a, n);
      CountConcat(if Kind(id) == kind then [Announce(r.servers[id], name)] else [],
        ToKind(r, ids - {id}, kind, name), r.servers[a], n);
    }
  }

  lemma {:induction false} CountPeers(r: Reg, ids: set<Id>, kind: nat, to: nat, t: nat, n: Id)
    requires ids <= r.servers.Keys
    ensures Count(Peers(r, ids, kind, to), t, n) == Once(t == to && n in ids && Connects(kind, Kind(n)))
    decreases |ids|
  {
    hide Kind, Connects, Least;
    if ids != {} {
      var id := Least(ids);
      CountPeers(r, ids - {id}, kind, to, t, n);
      CountConcat(if Connects(kind, Kind(id)) then [CanConnect(to, id)] else [],
        Peers(r, ids - {id}, kind, to), t, n);
    }
  }

  // The switch over the type of the server announced is the converse of the
  // switch over the type of the server told.
  lemma {:induction false} BroadcastIsConverse(r: Reg, raw: Id, packet: bool, a: Id, n: Id)
    requires r.Sound() && a in r.servers && SetServerID(raw).Some?
    ensures Count(Broadcast(r, raw, packet), r.servers[a], n) == Once(packet && n == raw && Connects(Kind(a), Kind(raw)))
  {
    hide ToKind, Unpack;
    var ids := r.servers.Keys;
    CountToKind(r, ids, GATE, raw, a, n);
    CountToKind(r, ids, LOBBY, raw, a, n);
    CountToKind(r, ids, GAME, raw, a, n);
    CountToKind(r, ids, LOGIN, raw, a, n);
    CountConcat(ToKind(r, ids, LOBBY, raw), ToKind(r, ids, GAME, raw), r.servers[a], n);
  }

  // ---- Runs of the master -----------------------------------------------------------

  // What is remembered of the last registration under an identity: how many
  // came before it, how long the log was, the value sent, and whether there was
  // a packet to announce it with.
  datatype Entry = Entry(order: nat, since: nat, raw: Id, announced: bool)

  // `log` holds every packet sent so far and `count` how many servers have
  // registered.
  datatype World = World(reg: Reg, log: seq<Message>, count: nat, entries: map<Id, Entry>)

  datatype Event =
    | Connected(session: nat)
    | Register(session: nat, raw: Id, packet: bool, response: bool)
    | Closed(session: nat)
    | Removed(id: Id)

  function Start(): World {
    World(Reg(map[], {}), [], 0, map[])
  }

  function Next(w: World, e: Event): World {
    match e
    case Connected(session) => w.(reg := w.reg.(newUp := w.reg.newUp + {session}))
    case Register(session, raw, packet, response) =>
      var n := RegisterNext(w.reg, session, raw, packet, response);
      if n.kicked then w.(reg := n.reg)
      else
        var entry := Entry(w.count, |w.log|, raw, packet);
        World(n.reg, w.log + n.sent, w.count + 1, w.entries[Pack(Unpack(raw)) := entry])
    case Closed(session) => w.(reg := DropSession(w.reg, session))
    case Removed(id) => w.(reg := DropServer(w.reg, id))
  }

  function Run(w: World, events: seq<Event>): World
    decreases |events|
  {
    if events == [] then w else Run(Next(w, events[0]), events[1..])
  }

  // The pairs of types of which the first is told about the second.
  predicate Pair(a: nat, b: nat) {
    || (a == LOGIN && b == ACCOUNT_DB)
    || (a == GATE && b == LOBBY)
    || (a == GATE && b == GAME)
    || (a == LOBBY && b == DB)
    || (a == GAME && b == DB)
  }

  function Later(w: World, a: Id, b: Id): Id
    requires a in w.entries && b in w.entries
  {
    if w.entries[a].order < w.entries[b].order then b else a
  }

  // Since the later of the two registered, `a` was sent exactly one
  // introduction naming `b` when their types pair up, and none otherwise; but
  // a later registrant whose value had a non-zero top byte gets and causes none,
  // and one for which there was no packet causes none.
  ghost predicate Introduced(w: World, a: Id, b: Id)
    requires a in w.reg.servers && a in w.entries && b in w.entries
  {
    var l := Later(w, a, b);
    var e := w.entries[l];
    && e.since <= |w.log|
    && Count(w.log[e.since..], w.reg.servers[a], b)
       == Once(Pair(Kind(a), Kind(b)) && e.raw < P56 && (l == a || e.announced))
  }

  ghost predicate Inv(w: World) {
    && w.reg.Sound()
    && w.reg.servers.Keys <= w.entries.Keys
    && (forall a <- w.reg.servers :: w.entries[a].order < w.count && w.entries[a].since <= |w.log|)
    && (forall a <- w.reg.servers, b <- w.reg.servers :: a != b ==> w.entries[a].order != w.entries[b].order)
    && (forall a <- w.reg.servers, b <- w.reg.servers :: Introduced(w, a, b))
  }

  // What one accepted registration sends to `a` naming `b`.
  lemma {:induction false} SentNaming(r: Reg, session: nat, raw: Id, packet: bool, response: bool, a: Id, b: Id)
    requires r.Sound()
    requires var n := RegisterNext(r, session, raw, packet, response);
      !n.kicked && a in n.reg.servers && b in n.reg.servers
    ensures var n := RegisterNext(r, session, raw, packet, response); var x := Pack(Unpack(raw));
      Count(n.sent, n.reg.servers[a], b)
      == Once(raw < P56 && ((a == x) != (b == x)) && Pair(Kind(a), Kind(b)) && (a == x || packet))
  {
    hide Broadcast, Count, Unpack, Pack, Peers;
    var n := RegisterNext(r, session, raw, packet, response);
    var r', x := n.reg, Pack(Unpack(raw));
    var to := r'.servers[a];
    AddServerSound(r, session, Unpack(raw));
    PackUnpack(raw);
    KindOfPacked(raw);
    BroadcastIsConverse(r', raw, packet, a, b);
    CountPeers(r', r'.servers.Keys, Kind(raw), session, to, b);
    CountConcat(Broadcast(r', raw, packet) + ConnectInfos(r', raw), Answer(session, response), to, b);
    CountConcat(Broadcast(r', raw, packet), ConnectInfos(r', raw), to, b);
    CountResponse(session, to, b);
    assert r'.servers[x] == session;
    assert to == session <==> a == x;
  }

  lemma {:induction false} KindOfPacked(raw: Id)
    ensures Kind(Pack(Unpack(raw))) == Kind(raw)
  {
    UnpackPack(Unpack(raw));
  }

  lemma {:induction false} CountResponse(session: nat, to: nat, b: Id)
    ensures Count([RegisterRes(session)], to, b) == 0
    ensures Count([], to, b) == 0
  {
  }

  // A pair that was registered before is not disturbed: what was counted is
  // followed by packets that do not count.
  lemma {:induction false} StaysIntroduced(w: World, w': World, a: Id, b: Id, sent: seq<Message>)
    requires a in w.reg.servers && a in w'.reg.servers && w'.reg.servers[a] == w.reg.servers[a]
    requires a in w.entries && b in w.entries && a in w'.entries && b in w'.entries
    requires w'.entries[a] == w.entries[a] && w'.entries[b] == w.entries[b]
    requires w'.log == w.log + sent && Count(sent, w.reg.servers[a], b) == 0
    requires Introduced(w, a, b)
    ensures Introduced(w', a, b)
  {
    hide Count, Kind, Pair;
    var l := w.entries[Later(w, a, b)].since;
    CountConcat(w.log[l..], sent, w.reg.servers[a], b);
    assert w'.log[l..] == w.log[l..] + sent;
  }

  lemma {:induction false} RegisterIntroduces(w: World, e: Event, a: Id, b: Id)
    requires Inv(w) && e.Register? && !RegisterNext(w.reg, e.session, e.raw, e.packet, e.response).kicked
    requires var w' := Next(w, e); a in w'.reg.servers && b in w'.reg.servers
    ensures var w' := Next(w, e); a in w'.entries && b in w'.entries && Introduced(w', a, b)
  {
    hide Count, Unpack, Pack, Kind, Broadcast, ConnectInfos;
    var n := RegisterNext(w.reg, e.session, e.raw, e.packet, e.response);
    var x := Pack(Unpack(e.raw));
    var w' := Next(w, e);
    SentNaming(w.reg, e.session, e.raw, e.packet, e.response, a, b);
    if a == x || b == x {
      assert w'.log[|w.log|..] == n.sent;
    } else {
      hide Introduced;
      StaysIntroduced(w, w', a, b, n.sent);
    }
  }

  lemma {:induction false} AcceptedKeeps(w: World, e: Event)
    requires Inv(w) && e.Register? && !RegisterNext(w.reg, e.session, e.raw, e.packet, e.response).kicked
    ensures Inv(Next(w, e))
  {
    hide Introduced, Unpack, Pack, Kind, Broadcast, ConnectInfos;
    var w' := Next(w, e);
    AddServerSound(w.reg, e.session, SetServerID(e.raw).value);
    forall a <- w'.reg.servers, b <- w'.reg.servers
      ensures a in w'.entries && b in w'.entries && Introduced(w', a, b)
    {
      RegisterIntroduces(w, e, a, b);
    }
  }

  // Nothing that only removes servers disturbs the others.
  lemma {:induction false} ShrinkKeeps(w: World, w': World)
    requires Inv(w) && w'.log == w.log && w'.count == w.count && w'.entries == w.entries
    requires forall a <- w'.reg.servers :: a in w.reg.servers && w'.reg.servers[a] == w.reg.servers[a]
    ensures Inv(w')
  {
    hide Count, Kind, Pair;
    forall a <- w'.reg.servers, b <- w'.reg.servers
      ensures Introduced(w', a, b)
    {
      assert Introduced(w, a, b);
    }
  }

  lemma {:induction false} NextKeeps(w: World, e: Event)
    requires Inv(w)
    ensures Inv(Next(w, e))
  {
    hide Inv, Unpack, Pack, Kind, Broadcast, ConnectInfos;
    if e.Register? && !RegisterNext(w.reg, e.session, e.raw, e.packet, e.response).kicked {
      AcceptedKeeps(w, e);
    } else {
      ShrinkKeeps(w, Next(w, e));
    }
  }

  lemma {:induction false} RunKeeps(w: World, events: seq<Event>)
    requires Inv(w)
    ensures Inv(Run(w, events))
    decreases |events|
  {
    hide Inv, Next;
    if events != [] {
      NextKeeps(w, events[0]);
      RunKeeps(Next(w, events[0]), events[1..]);
    }
  }

  // Exactly-once introduction, over every run: whichever of two registered
  // servers came later, the one that should connect was told about the other
  // once, and no server was told about one it has no business with. The one
  // exception is the exact one: the later one's value had a non-zero top byte, or
  // it was the one to be announced and there was no packet for that.
  lemma {:induction false} ExactlyOnce(events: seq<Event>, a: Id, b: Id)
    requires var w := Run(Start(), events); a in w.reg.servers && b in w.reg.servers
    ensures var w := Run(Start(), events);
      a in w.entries && b in w.entries && Introduced(w, a, b)
  {
    hide Run, Introduced;
    RunKeeps(Start(), events);
  }

  // ---- Responses --------------------------------------------------------------------

  // How many responses a session was sent.
  function Responses(log: seq<Message>, session: nat): nat {
    if log == [] then 0 else (if log[0] == RegisterRes(session) then 1 else 0) + Responses(log[1..], session)
  }

  // The event makes `session` the session of a registered server, and there is a
  // packet to tell it.
  predicate Registers(w: World, e: Event, session: nat) {
    && e.Register? && e.session == session && e.response
    && session !in w.reg.servers.Values && session in Next(w, e).reg.servers.Values
  }

  function Registrations(w: World, events: seq<Event>, session: nat): nat
    decreases |events|
  {
    if events == [] then 0
    else Once(Registers(w, events[0], session)) + Registrations(Next(w, events[0]), events[1..], session)
  }

  lemma {:induction false} ResponsesConcat(a: seq<Message>, b: seq<Message>, session: nat)
    ensures Responses(a + b, session) == Responses(a, session) + Responses(b, session)
  {
    if a == [] {
      assert a + b == b;
    } else {
      ResponsesConcat(a[1..], b, session);
      assert (a + b)[1..] == a[1..] + b;
    }
  }

  lemma {:induction false} NoResponse(log: seq<Message>, session: nat)
    requires forall m <- log :: !m.RegisterRes?
    ensures Responses(log, session) == 0
  {
    if log != [] {
      NoResponse(log[1..], session);
    }
  }

  lemma {:induction false} OneResponse(m: Message, session: nat)
    ensures Responses([m], session) == Once(m == RegisterRes(session)) && Responses([], session) == 0
  {
    assert [m][1..] == [];
  }

  // Neither the announcements nor the peers it may connect to are responses.
  lemma {:induction false} NoneIsResponse(r: Reg, raw: Id, packet: bool)
    ensures forall m <- Broadcast(r, raw, packet) + ConnectInfos(r, raw) :: !m.RegisterRes?
  {
    hide ToKind, Peers, Kind, Unpack;
    var ids := r.servers.Keys;
    AnnouncementsOnly(r, ids, GATE, raw);
    AnnouncementsOnly(r, ids, LOBBY, raw);
    AnnouncementsOnly(r, ids, GAME, raw);
    AnnouncementsOnly(r, ids, LOGIN, raw);
    if raw in r.servers {
      PeersAreInfos(r, ids, Kind(raw), r.servers[raw]);
    }
  }

  lemma {:induction false} AnnouncementsOnly(r: Reg, ids: set<Id>, kind: nat, name: Id)
    requires ids <= r.servers.Keys
    ensures forall m <- ToKind(r, ids, kind, name) :: m.Announce?
    decreases |ids|
  {
    hide Kind, Least;
    if ids != {} {
      AnnouncementsOnly(r, ids - {Least(ids)}, kind, name);
    }
  }

  lemma {:induction false} PeersAreInfos(r: Reg, ids: set<Id>, kind: nat, to: nat)
    requires ids <= r.servers.Keys
    ensures forall m <- Peers(r, ids, kind, to) :: m.CanConnect?
    decreases |ids|
  {
    hide Connects, Kind, Least;
    if ids != {} {
      PeersAreInfos(r, ids - {Least(ids)}, kind, to);
    }
  }

  lemma {:induction false} RegisterResponds(r: Reg, session: nat, raw: Id, packet: bool, response: bool, k: nat)
    ensures var n := RegisterNext(r, session, raw, packet, response);
      && (n.kicked ==> n.sent == [] && n.reg.servers == r.servers)
      && (!n.kicked ==> session !in r.servers.Values && session in n.reg.servers.Values)
      && Responses(n.sent, k) == Once(!n.kicked && response && session == k)
  {
    hide Broadcast, ConnectInfos, Unpack, Pack;
    var n := RegisterNext(r, session, raw, packet, response);
    if !n.kicked {
      var told := Broadcast(n.reg, raw, packet) + ConnectInfos(n.reg, raw);
      assert n.reg.servers[Pack(Unpack(raw))] == session;
      NoneIsResponse(n.reg, raw, packet);
      NoResponse(told, k);
      ResponsesConcat(told, Answer(session, response), k);
      OneResponse(RegisterRes(session), k);
    }
  }

  lemma {:induction false} NextResponds(w: World, e: Event, session: nat)
    ensures Responses(Next(w, e).log, session) == Responses(w.log, session) + Once(Registers(w, e, session))
  {
    hide RegisterNext, DropSession, DropServer, Responses, Unpack, Pack;
    if e.Register? {
      RegisterResponds(w.reg, e.session, e.raw, e.packet, e.response, session);
      var n := RegisterNext(w.reg, e.session, e.raw, e.packet, e.response);
      ResponsesConcat(w.log, n.sent, session);
    }
  }

  lemma {:induction false} RunResponds(w: World, events: seq<Event>, session: nat)
    ensures Responses(Run(w, events).log, session) == Responses(w.log, session) + Registrations(w, events, session)
    decreases |events|
  {
    hide Next, Registers, Responses;
    if events != [] {
      NextResponds(w, events[0], session);
      RunResponds(Next(w, events[0]), events[1..], session);
    }
  }

  // Over every run a session is sent exactly one response for each time it became
  // the session of a registered server while there was a packet, and none for a
  // request that was refused.
  lemma {:induction false} AnsweredOnce(events: seq<Event>, session: nat)
    ensures Responses(Run(Start(), events).log, session) == Registrations(Start(), events, session)
  {
    hide Run, Registrations;
    RunResponds(Start(), events, session);
  }

  const A_GATE: Id := GATE * P48 + 1
  const A_LOBBY: Id := LOBBY * P48 + 1

  lemma {:induction false} GateAndLobby(top: nat)
    requires top == 0 || top == P56
    ensures Kind(A_GATE) == GATE && A_GATE < P56 && A_LOBBY < P56 && A_GATE != A_LOBBY
    ensures Kind(A_LOBBY) == Kind(A_LOBBY + top) == LOBBY && SetServerID(A_LOBBY + top).Some?
    ensures Pack(Unpack(A_LOBBY + top)) == A_LOBBY
  {
  }

  // A lobby that sends its identity with a bit set in the unused top byte is
  // registered, but the gate already there is not told about it.
  lemma {:induction false} TopByteHidesTheServer()
    ensures var n := RegisterNext(Reg(map[A_GATE := 1], {2}), 2, A_LOBBY + P56, true, true);
      && !n.kicked && n.reg.servers == map[A_GATE := 1, A_LOBBY := 2]
      && Pair(Kind(A_GATE), Kind(A_LOBBY))
      && Count(n.sent, 1, A_LOBBY) == 0
  {
    hide Broadcast, ConnectInfos, Count, Unpack, Pack;
    GateAndLobby(P56);
    var r := Reg(map[A_GATE := 1], {2});
    assert r.Sound();
    SentNaming(r, 2, A_LOBBY + P56, true, true, A_GATE, A_LOBBY);
  }

  // Where no packet class holds the 100 bytes of the announcement, a lobby is
  // registered and the gate already there is not told about it. (No class holds
  // the 120 bytes of the response then either.)
  lemma {:induction false} NoPacketHidesTheServer()
    ensures var n := RegisterNext(Reg(map[A_GATE := 1], {2}), 2, A_LOBBY, false, false);
      && !n.kicked && n.reg.servers == map[A_GATE := 1, A_LOBBY := 2]
      && Pair(Kind(A_GATE), Kind(A_LOBBY))
      && RegisterRes(2) !in n.sent
      && Count(n.sent, 1, A_LOBBY) == 0
  {
    hide Broadcast, ConnectInfos, Count, Unpack, Pack;
    GateAndLobby(0);
    var r := Reg(map[A_GATE := 1], {2});
    assert r.Sound();
    SentNaming(r, 2, A_LOBBY, false, false, A_GATE, A_LOBBY);
    NoneIsResponse(RegisterNext(r, 2, A_LOBBY, false, false).reg, A_LOBBY, false);
  }
}
