// The servers a lobby has connected to, filed by identity and by session
// (LobbyServer/LLBServerManager.cpp).
module Peers {
  import opened ServerIds

  // The session filed under each identity value, and the identity the server
  // filed under each session reports: its value with the top byte cleared.
  datatype Table = Table(byId: map<Id, nat>, bySession: map<nat, Id>)

  function Canonical(raw: Id): Id {
    raw % P56
  }

  // ---- What the operations do --------------------------------------------------------

  predicate Adds(t: Table, session: nat, raw: Id) {
    SetServerID(raw).Some? && raw !in t.byId && session !in t.bySession
  }

  function AddNewServerNext(t: Table, session: nat, raw: Id): Table {
    if Adds(t, session, raw)
    then Table(t.byId[raw := session], t.bySession[session := Canonical(raw)]) else t
  }

  function RemoveByIdNext(t: Table, raw: Id): Table {
    if raw !in t.byId then t else Table(t.byId - {raw}, t.bySession - {t.byId[raw]})
  }

  // The other entry is looked up under the identity the server reports.
  function RemoveBySessionNext(t: Table, session: nat): Table {
    if session !in t.bySession then t
    else Table(t.byId - {t.bySession[session]}, t.bySession - {session})
  }

  // ---- When the two indices agree ------------------------------------------------------

  ghost predicate FiledAs(t: Table, raw: Id, session: nat) {
    raw in t.byId && t.byId[raw] == session
  }

  // Every server is filed in both, under one identity and one session.
  ghost predicate Agrees(t: Table) {
    && (forall raw <- t.byId :: t.byId[raw] in t.bySession && t.bySession[t.byId[raw]] == Canonical(raw))
    && (forall s <- t.bySession :: exists raw :: FiledAs(t, raw, s))
    && (forall a <- t.byId, b <- t.byId :: t.byId[a] == t.byId[b] ==> a == b)
  }

  lemma {:induction false} AddKeeps(t: Table, session: nat, raw: Id)
    requires Agrees(t)
    ensures Agrees(AddNewServerNext(t, session, raw))
  {
    hide SetServerID;
    var t' := AddNewServerNext(t, session, raw);
    if Adds(t, session, raw) {
      forall s <- t'.bySession
        ensures exists r :: FiledAs(t', r, s)
      {
        if s == session {
          assert FiledAs(t', raw, s);
        } else {
          var r :| FiledAs(t, r, s);
          assert FiledAs(t', r, s);
        }
      }
    }
  }

  lemma {:induction false} RemoveByIdKeeps(t: Table, raw: Id)
    requires Agrees(t)
    ensures Agrees(RemoveByIdNext(t, raw))
  {
    hide Canonical;
    var t' := RemoveByIdNext(t, raw);
    if raw in t.byId {
      forall s <- t'.bySession
        ensures exists r :: FiledAs(t', r, s)
      {
        var r :| FiledAs(t, r, s);
        assert FiledAs(t', r, s);
      }
    }
  }

  lemma {:induction false} RemoveCanonical(t: Table, raw: Id, session: nat)
    requires Agrees(t) && FiledAs(t, raw, session) && Canonical(raw) == raw
    ensures Agrees(RemoveBySessionNext(t, session))
  {
    hide Canonical;
    var t' := RemoveBySessionNext(t, session);
    assert t'.byId == t.byId - {raw};
    forall s <- t'.bySession
      ensures exists r :: FiledAs(t', r, s)
    {
      var r :| FiledAs(t, r, s);
      assert FiledAs(t', r, s);
    }
  }

  lemma {:induction false} RemoveLeavesEntry(t: Table, raw: Id, session: nat)
    requires Agrees(t) && FiledAs(t, raw, session) && Canonical(raw) != raw
    ensures !Agrees(RemoveBySessionNext(t, session))
  {
    hide Canonical;
    var t' := RemoveBySessionNext(t, session);
    assert raw in t'.byId && t'.byId[raw] !in t'.bySession;
  }

  // Removing by session keeps the indices in agreement exactly when the value
  // the server was filed under has a clear top byte; otherwise its entry stays
  // behind without a server.
  lemma {:induction false} RemoveBySessionKeeps(t: Table, raw: Id, session: nat)
    requires Agrees(t) && FiledAs(t, raw, session)
    ensures Agrees(RemoveBySessionNext(t, session)) <==> raw < P56
  {
    hide Agrees, FiledAs, RemoveBySessionNext;
    assert Canonical(raw) == raw <==> raw < P56;
    if raw < P56 {
      RemoveCanonical(t, raw, session);
    } else {
      RemoveLeavesEntry(t, raw, session);
    }
  }

  lemma {:induction false} ReportedIdentity(raw: Id)
    requires SetServerID(raw).Some?
    ensures Pack(SetServerID(raw).value) == Canonical(raw)
  {
    hide Pack, Unpack;
    PackUnpack(raw);
  }

  // ---- The manager ---------------------------------------------------------------------

  datatype Job = Job(server: Id, address: nat)

  class LLBServer {
    const id: ServerID
    const session: nat

    constructor (id: ServerID, session: nat)
      ensures this.id == id && this.session == session
    {
      this.id := id;
      this.session := session;
    }
  }

  function SessionsOf(byId: map<Id, LLBServer>): map<Id, nat> {
    map raw <- byId :: byId[raw].session
  }

  function IdsOf(bySession: map<nat, LLBServer>): map<nat, Id>
    requires forall s <- bySession :: bySession[s].id.InRange()
  {
    map s <- bySession :: Pack(bySession[s].id)
  }

  lemma {:induction false} SessionsOfUpdate(byId: map<Id, LLBServer>, raw: Id, x: LLBServer)
    ensures SessionsOf(byId[raw := x]) == SessionsOf(byId)[raw := x.session]
    ensures SessionsOf(byId - {raw}) == SessionsOf(byId) - {raw}
  {
  }

  lemma {:induction false} KeysOf(byId: map<Id, LLBServer>, bySession: map<nat, LLBServer>)
    requires forall s <- bySession :: bySession[s].id.InRange()
    ensures SessionsOf(byId).Keys == byId.Keys && IdsOf(bySession).Keys == bySession.Keys
  {
    hide Pack;
  }

  lemma {:induction false} SessionAt(byId: map<Id, LLBServer>, raw: Id)
    requires raw in byId
    ensures raw in SessionsOf(byId) && SessionsOf(byId)[raw] == byId[raw].session
  {
  }

  lemma {:induction false} IdAt(bySession: map<nat, LLBServer>, s: nat)
    requires s in bySession && forall s <- bySession :: bySession[s].id.InRange()
    ensures s in IdsOf(bySession) && IdsOf(bySession)[s] == Pack(bySession[s].id)
  {
    hide Pack;
  }

  lemma {:induction false} IdsOfUpdate(bySession: map<nat, LLBServer>, s: nat, x: LLBServer)
    requires x.id.InRange() && forall s <- bySession :: bySession[s].id.InRange()
    ensures IdsOf(bySession[s := x]) == IdsOf(bySession)[s := Pack(x.id)]
    ensures IdsOf(bySession - {s}) == IdsOf(bySession) - {s}
  {
    hide Pack;
  }

  class LLBServerManager {
    var byId: map<Id, LLBServer>
    var bySession: map<nat, LLBServer>
    var jobs: seq<Job>

    ghost predicate Valid()
      reads this
    {
      && (forall raw <- byId :: byId[raw].id.InRange())
      && (forall s <- bySession :: bySession[s].id.InRange() && bySession[s].session == s)
    }

    ghost function View(): Table
      requires Valid()
      reads this
    {
      Table(SessionsOf(byId), IdsOf(bySession))
    }

    constructor ()
      ensures Valid() && View() == Table(map[], map[]) && jobs == []
    {
      byId, bySession, jobs := map[], map[], [];
    }

    method AddNewServer(session: nat, raw: Id) returns (ok: bool)
      requires Valid()
      modifies this`byId, this`bySession
      ensures Valid()
      ensures ok <==> Adds(old(View()), session, raw)
      ensures View() == AddNewServerNext(old(View()), session, raw)
      ensures ok ==> View() == Table(old(View()).byId[raw := session], old(View()).bySession[session := raw % P56])
      ensures !ok ==> View() == old(View())
    {
      hide SetServerID, Pack, SessionsOf, IdsOf;
      KeysOf(byId, bySession);
      var id := SetServerID(raw);
      if id.None? {
        return false;
      }
      if raw in byId {
        return false;
      }
      if session in bySession {
        return false;
      }
      ReportedIdentity(raw);
      var server := new LLBServer(id.value, session);
      SessionsOfUpdate(byId, raw, server);
      IdsOfUpdate(bySession, session, server);
      bySession := bySession[session := server];
      byId := byId[raw := server];
      return true;
    }

    method FindServerByServerID(raw: Id) returns (s: LLBServer?)
      requires Valid()
      ensures (s == null) <==> raw !in View().byId
      ensures s != null ==> s.session == View().byId[raw]
    {
      if raw in byId {
        return byId[raw];
      }
      return null;
    }

    method RemoveServerByServerID(raw: Id)
      requires Valid()
      modifies this`byId, this`bySession
      ensures Valid() && View() == RemoveByIdNext(old(View()), raw)
      ensures View().byId == old(View()).byId - {raw}
      ensures View().bySession == old(View()).bySession - if raw in old(View()).byId then {old(View()).byId[raw]} else {}
    {
      hide Pack, SessionsOf, IdsOf;
      KeysOf(byId, bySession);
      if raw !in byId {
        return;
      }
      var server := byId[raw];
      SessionsOfUpdate(byId, raw, server);
      SessionAt(byId, raw);
      IdsOfUpdate(bySession, server.session, server);
      byId := byId - {raw};
      if server.session in bySession {
        bySession := bySession - {server.session};
      }
    }

    method RemoveServerBySessionID(session: nat)
      requires Valid()
      modifies this`byId, this`bySession
      ensures Valid() && View() == RemoveBySessionNext(old(View()), session)
      ensures View().bySession == old(View()).bySession - {session}
      ensures View().byId == old(View()).byId - if session in old(View()).bySession then {old(View()).bySession[session]} else {}
    {
      hide Pack, SessionsOf, IdsOf;
      KeysOf(byId, bySession);
      if session !in bySession {
        return;
      }
      var server := bySession[session];
      IdAt(bySession, session);
      IdsOfUpdate(bySession, session, server);
      SessionsOfUpdate(byId, Pack(server.id), server);
      bySession := bySession - {session};
      var id := Pack(server.id);
      if id in byId {
        byId := byId - {id};
      }
    }

    // `room` says whether the queue of connect work has room.
    method AddConnectWork(job: Job, room: bool) returns (ok: bool)
      requires Valid()
      modifies this`jobs
      ensures Valid() && View() == old(View()) && ok == room
      ensures jobs == if room then old(jobs) + [job] else old(jobs)
    {
      if !room {
        return false;
      }
      jobs := jobs + [job];
      return true;
    }
  }
}
