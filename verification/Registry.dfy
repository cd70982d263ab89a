// The registry of the master server: which peer servers are connected and
// which of them have registered (MasterServer/LServerManager.cpp).
module Registry {
  import opened ServerIds

  // Sessions of registered servers by server identity, and the sessions that
  // connected without having registered yet.
  datatype Reg = Reg(servers: map<Id, nat>, newUp: set<nat>) {
    // What every operation keeps: identities are packed from a type that has a
    // server class, and no two servers share a session.
    ghost predicate Sound() {
      && (forall id <- servers :: id < P56 && LOGIN <= Kind(id) <= ACCOUNT_DB)
      && (forall a <- servers, b <- servers :: servers[a] == servers[b] ==> a == b)
    }
  }

  // A packet handed to the network thread.
  datatype Message =
    | Announce(to: nat, server: Id)
    | CanConnect(to: nat, server: Id)
    | RegisterRes(to: nat)

  // ---- What the operations do to the registry -----------------------------------

  predicate Creatable(kind: nat) {
    LOGIN <= kind <= ACCOUNT_DB
  }

  predicate Admits(r: Reg, session: nat, s: ServerID)
    requires s.InRange()
  {
    session in r.newUp && Creatable(s.kind) && Pack(s) !in r.servers && session !in r.servers.Values
  }

  function AddServerNext(r: Reg, session: nat, s: ServerID): Reg
    requires s.InRange()
  {
    Reg(if Admits(r, session, s) then r.servers[Pack(s) := session] else r.servers, r.newUp - {session})
  }

  function DropSession(r: Reg, session: nat): Reg {
    Reg(map id <- r.servers | r.servers[id] != session :: r.servers[id], r.newUp - {session})
  }

  function DropServer(r: Reg, id: Id): Reg {
    r.(servers := r.servers - {id})
  }

  lemma {:induction false} DropSessionMiss(r: Reg, session: nat)
    requires session !in r.servers.Values
    ensures DropSession(r, session) == r.(newUp := r.newUp - {session})
  {
  }

  lemma {:induction false} DropSessionHit(r: Reg, session: nat, key: Id)
    requires forall id <- r.servers :: r.servers[id] == session <==> id == key
    ensures DropSession(r, session) == Reg(r.servers - {key}, r.newUp - {session})
  {
  }

  lemma {:induction false} AddServerSound(r: Reg, session: nat, s: ServerID)
    requires r.Sound() && s.InRange()
    ensures AddServerNext(r, session, s).Sound()
  {
    hide Pack, Unpack;
    UnpackPack(s);
  }

  // ---- Visiting servers in ascending order of identity ----------------------------

  function Least(ids: set<Id>): (m: Id)
    requires ids != {}
    ensures IsLeast(m, ids)
  {
    LeastExists(ids);
    var m :| IsLeast(m, ids);
    m
  }

  predicate IsLeast(m: Id, ids: set<Id>) {
    m in ids && forall id <- ids :: m <= id
  }

  lemma {:induction false} LeastExists(ids: set<Id>)
    requires ids != {}
    ensures exists m :: IsLeast(m, ids)
    decreases |ids|
  {
    var x :| x in ids;
    var rest := ids - {x};
    if rest == {} {
      assert ids == {x};
      assert IsLeast(x, ids);
    } else {
      LeastExists(rest);
      var m :| IsLeast(m, rest);
      assert ids == rest + {x};
      assert IsLeast(if x < m then x else m, ids);
    }
  }

  function ToKind(r: Reg, ids: set<Id>, kind: nat, name: Id): seq<Message>
    requires ids <= r.servers.Keys
    decreases |ids|
  {
    if ids == {} then []
    else
      var id := Least(ids);
      (if Kind(id) == kind then [Announce(r.servers[id], name)] else [])
      + ToKind(r, ids - {id}, kind, name)
  }

  lemma {:induction false} ToKindStep(r: Reg, ids: set<Id>, kind: nat, name: Id, before: seq<Message>)
    requires ids <= r.servers.Keys && ids != {}
    ensures var id := Least(ids);
      before + ToKind(r, ids, kind, name)
      == (if Kind(id) == kind then before + [Announce(r.servers[id], name)] else before)
         + ToKind(r, ids - {id}, kind, name)
  {
  }

  // The types a newly registered server of type `kind` is told to connect to.
  predicate Connects(kind: nat, peer: nat) {
    if kind == LOGIN then peer == ACCOUNT_DB
    else if kind == GATE then peer == LOBBY || peer == GAME
    else if kind == LOBBY then peer == DB
    else if kind == GAME then peer == DB
    else false
  }

  function Peers(r: Reg, ids: set<Id>, kind: nat, to: nat): seq<Message>
    requires ids <= r.servers.Keys
    decreases |ids|
  {
    if ids == {} then []
    else
      var id := Least(ids);
      (if Connects(kind, Kind(id)) then [CanConnect(to, id)] else [])
      + Peers(r, ids - {id}, kind, to)
  }

  lemma {:induction false} PeersStep(r: Reg, ids: set<Id>, kind: nat, to: nat, before: seq<Message>)
    requires ids <= r.servers.Keys && ids != {}
    ensures var id := Least(ids);
      before + Peers(r, ids, kind, to)
      == (if Connects(kind, Kind(id)) then before + [CanConnect(to, id)] else before) + Peers(r, ids - {id}, kind, to)
  {
  }

  // Servers are visited in ascending order of identity: those of `of`, in that
  // order, are the ones of `ids` with the property asked for.
  ghost predicate Ascends(of: seq<Id>, ids: set<Id>) {
    && (forall i | 0 <= i < |of| :: of[i] in ids)
    && (forall i, j | 0 <= i < j < |of| :: of[i] < of[j])
  }

  lemma {:induction false} FirstIsLeast(of: seq<Id>, ids: set<Id>, id: Id)
    requires ids != {} && Ascends(of, ids) && id == Least(ids)
    ensures id in of ==> of[0] == id && Ascends(of[1..], ids - {id}) && id !in of[1..]
    ensures id !in of ==> Ascends(of, ids - {id})
  {
    hide Least;
    if id in of {
      var k :| 0 <= k < |of| && of[k] == id;
      assert of[0] in ids && id <= of[0];
    }
  }

  function Announces(r: Reg, of: seq<Id>, name: Id): seq<Message>
    requires forall i | 0 <= i < |of| :: of[i] in r.servers
  {
    if of == [] then [] else [Announce(r.servers[of[0]], name)] + Announces(r, of[1..], name)
  }

  function CanConnects(to: nat, of: seq<Id>): seq<Message> {
    if of == [] then [] else [CanConnect(to, of[0])] + CanConnects(to, of[1..])
  }

  // The servers of one type are told of the new one in ascending order.
  lemma {:induction false} ToKindAscends(r: Reg, ids: set<Id>, kind: nat, name: Id, of: seq<Id>)
    requires ids <= r.servers.Keys && Ascends(of, ids)
    requires forall id <- ids :: id in of <==> Kind(id) == kind
    ensures (forall i | 0 <= i < |of| :: of[i] in r.servers) && ToKind(r, ids, kind, name) == Announces(r, of, name)
    decreases |ids|
  {
    assert forall i | 0 <= i < |of| :: of[i] in r.servers;
    hide Kind, Least, Ascends, ToKind;
    if ids != {} {
      var id := Least(ids);
      FirstIsLeast(of, ids, id);
      ToKindStep(r, ids, kind, name, []);
      assert [] + ToKind(r, ids, kind, name) == ToKind(r, ids, kind, name);
      if Kind(id) == kind {
        ToKindAscends(r, ids - {id}, kind, name, of[1..]);
      } else {
        assert [] + ToKind(r, ids - {id}, kind, name) == ToKind(r, ids - {id}, kind, name);
        ToKindAscends(r, ids - {id}, kind, name, of);
      }
    } else {
      NoneAscend(of, ids, r, kind, name, 0);
    }
  }

  // The servers it is told of come in ascending order too.
  lemma {:induction false} PeersAscend(r: Reg, ids: set<Id>, kind: nat, to: nat, of: seq<Id>)
    requires ids <= r.servers.Keys && Ascends(of, ids)
    requires forall id <- ids :: id in of <==> Connects(kind, Kind(id))
    ensures Peers(r, ids, kind, to) == CanConnects(to, of)
    decreases |ids|
  {
    hide Kind, Connects, Least, Ascends, Peers;
    if ids != {} {
      var id := Least(ids);
      FirstIsLeast(of, ids, id);
      PeersStep(r, ids, kind, to, []);
      assert [] + Peers(r, ids, kind, to) == Peers(r, ids, kind, to);
      if Connects(kind, Kind(id)) {
        PeersAscend(r, ids - {id}, kind, to, of[1..]);
      } else {
        assert [] + Peers(r, ids - {id}, kind, to) == Peers(r, ids - {id}, kind, to);
        PeersAscend(r, ids - {id}, kind, to, of);
      }
    } else {
      NoneAscend(of, ids, r, kind, 0, to);
    }
  }

  lemma {:induction false} NoneAscend(of: seq<Id>, ids: set<Id>, r: Reg, kind: nat, name: Id, to: nat)
    requires Ascends(of, ids) && ids == {}
    ensures of == [] && ToKind(r, ids, kind, name) == [] && Peers(r, ids, kind, to) == []
  {
    if of != [] {
      FirstIn(of, ids);
    }
  }

  lemma {:induction false} FirstIn(of: seq<Id>, ids: set<Id>)
    requires Ascends(of, ids) && of != []
    ensures ids != {}
  {
    assert of[0] in ids;
  }

  function ConnectInfos(r: Reg, raw: Id): seq<Message> {
    if raw in r.servers then Peers(r, r.servers.Keys, Kind(raw), r.servers[raw]) else []
  }

  function FirstGate(ids: set<Id>): (g: Option<Id>)
    ensures g.Some? ==> g.value in ids
    decreases |ids|
  {
    if ids == {} then None
    else
      var id := Least(ids);
      if Kind(id) == GATE then Some(id) else FirstGate(ids - {id})
  }

  // The gate that takes every login is the one with the smallest identity.
  lemma {:induction false} FirstGateIsSmallest(ids: set<Id>)
    ensures FirstGate(ids).None? <==> forall id <- ids :: Kind(id) != GATE
    ensures FirstGate(ids).Some? ==> var g := FirstGate(ids).value;
      g in ids && Kind(g) == GATE && forall id <- ids :: Kind(id) == GATE ==> g <= id
    decreases |ids|
  {
    if ids != {} {
      var id := Least(ids);
      FirstGateIsSmallest(ids - {id});
    }
  }

  // ---- The manager and its three maps ---------------------------------------------

  // The manager fills a server object in completely before it enters a map;
  // its identity and session never change after that.
  class LServer {
    const id: ServerID
    const session: nat

    constructor (id: ServerID, session: nat)
      ensures this.id == id && this.session == session
    {
      this.id := id;
      this.session := session;
    }
  }

  // The two registered maps hold the same objects, each under its own identity
  // and its own session.
  ghost predicate Agree(servers: map<Id, LServer>, bySession: map<nat, LServer>) {
    && (forall id <- servers :: var s := servers[id];
          && s.id.InRange() && Creatable(s.id.kind) && Pack(s.id) == id
          && s.session in bySession && bySession[s.session] == s)
    && (forall k <- bySession :: var s := bySession[k];
          && s.session == k && s.id.InRange()
          && Pack(s.id) in servers && servers[Pack(s.id)] == s)
  }

  // Waiting servers are keyed by session too and have no identity, so they are
  // other objects than the registered ones.
  ghost predicate Keyed(newUp: map<nat, LServer>) {
    forall k <- newUp :: newUp[k].session == k && newUp[k].id.kind == INVALID
  }

  function Sessions(servers: map<Id, LServer>): map<Id, nat> {
    map id <- servers :: servers[id].session
  }

  lemma {:induction false} AgreeIsSound(servers: map<Id, LServer>, bySession: map<nat, LServer>, newUp: set<nat>)
    requires Agree(servers, bySession)
    ensures Reg(Sessions(servers), newUp).Sound()
    ensures Sessions(servers).Values == bySession.Keys
    ensures Sessions(servers).Keys == servers.Keys
  {
    hide Pack, Unpack;
    var m := Sessions(servers);
    forall id <- servers
      ensures id < P56 && Creatable(Kind(id)) && m[id] in bySession
    {
      UnpackPack(servers[id].id);
    }
    forall k <- bySession
      ensures k in m.Values
    {
      assert m[Pack(bySession[k].id)] == k;
    }
  }

  // Nothing deleted can be reached.
  ghost predicate Apart(servers: map<Id, LServer>, newUp: map<nat, LServer>, deleted: set<LServer>) {
    && (forall id <- servers :: servers[id] !in deleted)
    && (forall k <- newUp :: newUp[k] !in deleted)
  }

  lemma {:induction false} RemovedApart(servers: map<Id, LServer>, bySession: map<nat, LServer>,
                     newUp: map<nat, LServer>, deleted: set<LServer>, s: LServer)
    requires Agree(servers, bySession) && Keyed(newUp) && Apart(servers, newUp, deleted)
    requires s.id.InRange() && Pack(s.id) in servers && servers[Pack(s.id)] == s
    ensures Apart(servers - {Pack(s.id)}, newUp, deleted + {s})
  {
    hide Pack;
  }

  lemma {:induction false} DroppedApart(servers: map<Id, LServer>, bySession: map<nat, LServer>,
                     newUp: map<nat, LServer>, deleted: set<LServer>, session: nat)
    requires Agree(servers, bySession) && Keyed(newUp) && Apart(servers, newUp, deleted)
    requires session in newUp
    ensures Apart(servers, newUp - {session}, deleted + {newUp[session]})
    ensures Keyed(newUp - {session})
  {
    hide Pack;
  }

  lemma {:induction false} RegisteredNotWaiting(servers: map<Id, LServer>, bySession: map<nat, LServer>, newUp: map<nat, LServer>)
    requires Agree(servers, bySession) && Keyed(newUp)
    ensures servers.Values !! newUp.Values
  {
    hide Pack;
  }

  lemma {:induction false} SessionTaken(servers: map<Id, LServer>, bySession: map<nat, LServer>, session: nat)
    requires Agree(servers, bySession)
    ensures session in Sessions(servers).Values <==> session in bySession
    ensures Sessions(servers).Keys == servers.Keys
  {
    hide Pack;
    if session in bySession {
      var s := bySession[session];
      assert Sessions(servers)[Pack(s.id)] == session;
    }
  }

  lemma {:induction false} Inserted(servers: map<Id, LServer>, bySession: map<nat, LServer>, s: LServer)
    requires Agree(servers, bySession)
    requires s.id.InRange() && Creatable(s.id.kind)
    requires Pack(s.id) !in servers && s.session !in bySession
    ensures Agree(servers[Pack(s.id) := s], bySession[s.session := s])
    ensures Sessions(servers[Pack(s.id) := s]) == Sessions(servers)[Pack(s.id) := s.session]
  {
    hide Pack;
  }

  lemma {:induction false} AgreeAtId(servers: map<Id, LServer>, bySession: map<nat, LServer>, id: Id)
    requires Agree(servers, bySession) && id in servers
    ensures var s := servers[id];
      && s.id.InRange() && Pack(s.id) == id && s.session in bySession && bySession[s.session] == s
      && Unpack(id) == s.id && Kind(id) == s.id.kind && Sessions(servers)[id] == s.session
  {
    hide Pack, Unpack;
    UnpackPack(servers[id].id);
  }

  lemma {:induction false} AgreeAt(servers: map<Id, LServer>, bySession: map<nat, LServer>, session: nat)
    requires Agree(servers, bySession) && session in bySession
    ensures var s := bySession[session];
      && s.session == session && s.id.InRange() && Pack(s.id) in servers && servers[Pack(s.id)] == s
  {
    hide Pack;
  }

  lemma {:induction false} Removed(servers: map<Id, LServer>, bySession: map<nat, LServer>, s: LServer)
    requires Agree(servers, bySession)
    requires s.id.InRange() && Pack(s.id) in servers && servers[Pack(s.id)] == s
    ensures Agree(servers - {Pack(s.id)}, bySession - {s.session})
    ensures Sessions(servers - {Pack(s.id)}) == Sessions(servers) - {Pack(s.id)}
    ensures forall id <- servers :: Sessions(servers)[id] == s.session <==> id == Pack(s.id)
  {
    hide Pack;
  }

  class LServerManager {
    var servers: map<Id, LServer>
    var bySession: map<nat, LServer>
    var newUp: map<nat, LServer>
    var outbox: seq<Message>
    ghost var deleted: set<LServer>

    ghost predicate Valid()
      reads this
    {
      Agree(servers, bySession) && Keyed(newUp) && Apart(servers, newUp, deleted)
    }

    ghost function View(): (r: Reg)
      reads this
    {
      Reg(Sessions(servers), newUp.Keys)
    }

    constructor ()
      ensures Valid() && View() == Reg(map[], {}) && outbox == [] && deleted == {}
    {
      servers, bySession, newUp, outbox, deleted := map[], map[], map[], [], {};
    }

    method AddNewUpServer(session: nat)
      requires Valid()
      modifies this
      ensures Valid() && outbox == old(outbox) && deleted == old(deleted)
      ensures View() == old(View()).(newUp := old(View()).newUp + {session})
    {
      var s := new LServer(ServerID(INVALID, 0, 0, 0), session);
      newUp := newUp[session := s];
    }

    // The waiting object of a session is deleted and its entry erased.
    method DropNewUp(session: nat)
      requires Valid()
      modifies this
      ensures Valid() && session !in newUp
      ensures newUp == old(newUp) - {session}
      ensures View() == old(View()).(newUp := old(View()).newUp - {session})
      ensures servers == old(servers) && bySession == old(bySession) && outbox == old(outbox)
      ensures deleted == old(deleted) + if session in old(newUp) then {old(newUp)[session]} else {}
    {
      hide Agree, Sessions, Keyed, Apart;
      if session in newUp {
        DroppedApart(servers, bySession, newUp, deleted, session);
        var waiting := newUp[session];
        newUp := newUp - {session};
        deleted := deleted + {waiting};
      }
    }

    method AddServer(session: nat, s: ServerID) returns (ok: bool)
      requires Valid() && s.InRange()
      modifies this
      ensures Valid() && outbox == old(outbox)
      ensures ok <==> Admits(old(View()), session, s)
      ensures View() == AddServerNext(old(View()), session, s)
      ensures var r := old(View());
        ok <==> session in r.newUp && LOGIN <= s.kind <= ACCOUNT_DB && Pack(s) !in r.servers && session !in r.servers.Values
      ensures View().servers == if ok then old(View()).servers[Pack(s) := session] else old(View()).servers
      ensures View().newUp == old(View()).newUp - {session}
      ensures newUp == old(newUp) - {session}
      ensures session in old(newUp) ==> old(newUp)[session] in deleted
      ensures old(deleted) <= deleted
    {
      hide Pack, Agree, Sessions, Keyed, Apart;
      SessionTaken(servers, bySession, session);
      assert Admits(View(), session, s) <==>
        session in newUp && Creatable(s.kind) && Pack(s) !in servers && session !in bySession;
      hide Admits, Creatable;
      if session !in newUp {
        assert View().newUp - {session} == View().newUp;
        return false;
      }
      DropNewUp(session);
      if !Creatable(s.kind) {
        return false;
      }
      ok := FileServer(session, s);
    }

    // Makes the server object and files it under its identity and session.
    method FileServer(session: nat, s: ServerID) returns (ok: bool)
      requires Valid() && s.InRange() && Creatable(s.kind) && session !in newUp
      modifies this
      ensures Valid() && outbox == old(outbox) && newUp == old(newUp) && old(deleted) <= deleted
      ensures ok <==> Pack(s) !in old(servers) && session !in old(bySession)
      ensures View() == if ok then old(View()).(servers := old(View()).servers[Pack(s) := session]) else old(View())
    {
      hide Pack, Agree, Sessions, Keyed, Creatable;
      var server := new LServer(s, session);
      if Pack(s) in servers {
        deleted := deleted + {server};
        return false;
      }
      if session in bySession {
        deleted := deleted + {server};
        return false;
      }
      Inserted(servers, bySession, server);
      servers := servers[Pack(s) := server];
      bySession := bySession[session := server];
      return true;
    }

    method FindServer(id: Id) returns (s: LServer?)
      requires Valid()
      ensures (s == null) <==> id !in View().servers
      ensures s != null ==> id in servers && servers[id] == s
      ensures s != null ==> s.id.InRange() && Pack(s.id) == id && s.session == View().servers[id]
    {
      hide Pack;
      if id in servers {
        return servers[id];
      }
      return null;
    }

    // The lookup by four fields finds the server with those fields and no other.
    method FindServerByFields(f: ServerID) returns (s: LServer?)
      requires Valid() && f.InRange()
      ensures s != null ==> s in servers.Values && s.id == f
      ensures s == null ==> forall x <- servers.Values :: x.id != f
    {
      hide Pack;
      s := FindServer(Pack(f));
      if s != null {
        PackInjective(s.id, f);
      }
    }

    method FindServerBySessionID(session: nat) returns (s: LServer?)
      requires Valid()
      ensures (s == null) <==> session !in bySession && session !in newUp
      ensures session in bySession ==> s == bySession[session]
      ensures session in newUp && session !in bySession ==> s == newUp[session]
      ensures s != null ==> s !in deleted && s.session == session
    {
      hide Pack;
      if session in bySession {
        return bySession[session];
      }
      if session in newUp {
        return newUp[session];
      }
      return null;
    }

    method RemoveServerByNetWorkSessionID(session: nat)
      requires Valid()
      modifies this
      ensures Valid() && outbox == old(outbox)
      ensures View() == DropSession(old(View()), session)
      ensures session !in View().servers.Values && session !in View().newUp
      ensures forall id: Id :: id in View().servers <==> id in old(View()).servers && old(View()).servers[id] != session
      ensures forall id <- View().servers :: View().servers[id] == old(View()).servers[id]
      ensures View().newUp == old(View()).newUp - {session}
      ensures old(deleted) <= deleted
      ensures session in old(bySession) ==> old(bySession)[session] in deleted
    {
      hide Pack, Agree, Sessions, Keyed, Apart, DropSession;
      AgreeIsSound(servers, bySession, newUp.Keys);
      if session !in bySession {
        DropSessionMiss(View(), session);
      }
      DropNewUp(session);
      if session in bySession {
        var s := bySession[session];
        AgreeAt(servers, bySession, session);
        Removed(servers, bySession, s);
        RemovedApart(servers, bySession, newUp, deleted, s);
        DropSessionHit(old(View()), session, Pack(s.id));
        bySession := bySession - {session};
        if Pack(s.id) in servers {
          servers := servers - {Pack(s.id)};
        }
        deleted := deleted + {s};
      }
    }

    method RemoveServer(id: Id)
      requires Valid()
      modifies this
      ensures Valid() && outbox == old(outbox) && newUp == old(newUp)
      ensures View() == DropServer(old(View()), id)
      ensures id !in View().servers && View().newUp == old(View()).newUp
      ensures forall x: Id | x != id :: x in View().servers <==> x in old(View()).servers
      ensures forall x <- View().servers :: View().servers[x] == old(View()).servers[x]
      ensures old(deleted) <= deleted
      ensures id in old(servers) ==> old(servers)[id] in deleted
    {
      hide Pack, Agree, Sessions, Keyed, Apart;
      AgreeIsSound(servers, bySession, newUp.Keys);
      if id in servers {
        var s := servers[id];
        AgreeAtId(servers, bySession, id);
        Removed(servers, bySession, s);
        RemovedApart(servers, bySession, newUp, deleted, s);
        servers := servers - {id};
        if s.session in bySession {
          bySession := bySession - {s.session};
        }
        deleted := deleted + {s};
      }
    }

    method BroadCastToServersByServerType(kind: nat, name: Id)
      requires Valid()
      modifies this`outbox
      ensures Valid() && View() == old(View())
      ensures outbox == old(outbox) + ToKind(View(), View().servers.Keys, kind, name)
    {
      hide Pack, Agree, Apart, Keyed, Least, Kind, Unpack, Sessions;
      ghost var r := View();
      AgreeIsSound(servers, bySession, newUp.Keys);
      ghost var goal := outbox + ToKind(r, servers.Keys, kind, name);
      var todo := servers.Keys;
      while todo != {}
        invariant todo <= servers.Keys
        invariant outbox + ToKind(r, todo, kind, name) == goal
        decreases |todo|
      {
        var id := Least(todo);
        AgreeAtId(servers, bySession, id);
        ToKindStep(r, todo, kind, name, outbox);
        if servers[id].id.kind == kind {
          outbox := outbox + [Announce(servers[id].session, name)];
        }
        todo := todo - {id};
      }
    }

    method SendPacketToServerCanConnectToServerInfos(raw: Id)
      requires Valid()
      modifies this`outbox
      ensures Valid() && View() == old(View())
      ensures outbox == old(outbox) + ConnectInfos(View(), raw)
    {
      hide Pack, Agree, Apart, Keyed, Least, Kind, Unpack, Sessions, Connects;
      var server := FindServer(raw);
      if server == null {
        return;
      }
      ghost var r := View();
      AgreeIsSound(servers, bySession, newUp.Keys);
      AgreeAtId(servers, bySession, raw);
      ghost var goal := outbox + Peers(r, servers.Keys, server.id.kind, server.session);
      var todo := servers.Keys;
      while todo != {}
        invariant todo <= servers.Keys
        invariant outbox + Peers(r, todo, server.id.kind, server.session) == goal
        decreases |todo|
      {
        var id := Least(todo);
        AgreeAtId(servers, bySession, id);
        PeersStep(r, todo, server.id.kind, server.session, outbox);
        if Connects(server.id.kind, servers[id].id.kind) {
          outbox := outbox + [CanConnect(server.session, Pack(servers[id].id))];
        }
        todo := todo - {id};
      }
    }

    method SelectBestGateServer() returns (session: Option<nat>)
      requires Valid()
      ensures var g := FirstGate(View().servers.Keys);
        session == if g.None? then None else Some(View().servers[g.value])
    {
      hide Pack, Agree, Apart, Keyed, Least, Kind, Unpack, Sessions;
      AgreeIsSound(servers, bySession, newUp.Keys);
      FirstGateIsSmallest(servers.Keys);
      var todo := servers.Keys;
      while todo != {}
        invariant todo <= servers.Keys
        invariant FirstGate(todo) == FirstGate(servers.Keys)
        decreases |todo|
      {
        var id := Least(todo);
        AgreeAtId(servers, bySession, id);
        if servers[id].id.kind == GATE {
          return Some(servers[id].session);
        }
        todo := todo - {id};
      }
      return None;
    }
  }
}
