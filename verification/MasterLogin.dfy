// The master server's part of a login
// (MasterServer/LMasterServerPacketProcess_LoginServer.cpp,
// LMasterServerPacketProcess_GateServer.cpp, LMasterServerMainLogic.cpp).
module MasterLogin {
  import opened ServerIds
  import opened Registry
  import opened LoginPackets
  import opened MasterUsers

  // The branch a handler took; history only.
  datatype Fact = Ignored | Refused | NoGate | Forwarded | Unsent | Unreadable | LoginGone | UserGone | Passed | Failed | Unknown | Admitted

  datatype Handled = Handled(users: map<nat, nat>, sent: seq<Packet>, fact: Fact)

  predicate HasServer(reg: Reg, session: nat) {
    session in reg.servers.Values || session in reg.newUp
  }

  // A session that has not registered has no type yet.
  predicate IsLogin(reg: Reg, session: nat) {
    exists id <- reg.servers :: reg.servers[id] == session && Kind(id) == LOGIN
  }

  // ---- What the handlers do -----------------------------------------------------

  function FailedVerify(result: int, ticket: Ticket, user: nat): Packet {
    Verify(result, ticket, user, "")
  }

  // What is sent when there is, or is not, a packet for it.
  function IfPacket(packet: bool, m: Packet): seq<Packet> {
    if packet then [m] else []
  }

  // A login server reports that an account logged in. When no gate is
  // registered the new user stays in the table although the login fails; and it
  // stays there waiting when there is no packet to tell the gate with.
  function OnlineNext(reg: Reg, users: map<nat, nat>, ticket: Ticket, user: nat, packet: bool): Handled {
    if !IsLogin(reg, ticket.login) then Handled(users, [], Ignored)
    else if user == 0
    then Handled(users, IfPacket(packet, FailedVerify(UNKNOWN_ERROR, ticket, user)), Refused)
    else if user in users
    then Handled(users, IfPacket(packet, FailedVerify(ALREADY_ONLINE, ticket, user)), Refused)
    else
      var gate := FirstGate(reg.servers.Keys);
      if gate.None?
      then Handled(users[user := CREATED], IfPacket(packet, FailedVerify(UNKNOWN_ERROR, ticket, user)), NoGate)
      else
        Handled(users[user := WAITING_RESPONSE], IfPacket(packet, WillLogin(reg.servers[gate.value], ticket, user)),
          if packet then Forwarded else Unsent)
  }

  // A login server reports that the account left again. The handler is defined
  // but never registered, so in the program the packet is dropped.
  function OfflineFromLoginNext(reg: Reg, users: map<nat, nat>, session: nat, user: nat): map<nat, nat> {
    if HasServer(reg, session) && user in users && users[user] <= WAITING_RESPONSE then users - {user} else users
  }

  // How much of a gate's answer can be read: too little for its first fields, too
  // little for the key and the address of a good answer, or all.
  datatype Reading = Unread | KeyCut | Whole

  // A gate answers whether it will take the user.
  function WillLoginResNext(reg: Reg, users: map<nat, nat>, result: int, ticket: Ticket, user: nat, key: string,
                            reading: Reading): Handled
  {
    if reading.Unread? then Handled(users, [], Unreadable)
    else if !HasServer(reg, ticket.login) then Handled(users - {user}, [], LoginGone)
    else if user !in users then Handled(users, [], UserGone)
    else if result == 0 && reading.KeyCut?
    then Handled(users - {user}, [FailedVerify(UNKNOWN_ERROR, ticket, user)], Failed)
    else if result == 0
    then Handled(users[user := WAITING_LOGIN], [Verify(0, ticket, user, key)], Passed)
    else Handled(users - {user}, [FailedVerify(result, ticket, user)], Failed)
  }

  // A gate reports that the user is gone or that its login timed out.
  function OfflineFromGateNext(users: map<nat, nat>, user: nat): map<nat, nat> {
    if user in users && users[user] >= WAITING_RESPONSE then users - {user} else users
  }

  // A gate reports that the user presented the right key.
  function ReportNext(reg: Reg, users: map<nat, nat>, session: nat, client: nat, user: nat): Handled {
    if !HasServer(reg, session) then Handled(users, [], Ignored)
    else if user !in users then Handled(users, [Confirm(session, -1, user, client)], Unknown)
    else Handled(users[user := CONNECTED], [Confirm(session, 0, user, client)], Admitted)
  }

  // ---- The handlers ----------------------------------------------------------------

  // What looking a session up tells about the server behind it.
  lemma {:induction false} TypeOfSession(m: LServerManager, session: nat)
    requires m.Valid()
    ensures HasServer(m.View(), session) <==> session in m.bySession || session in m.newUp
    ensures session in m.bySession ==> (IsLogin(m.View(), session) <==> m.bySession[session].id.kind == LOGIN)
    ensures session !in m.bySession ==> !IsLogin(m.View(), session)
    ensures session in m.newUp ==> m.newUp[session].id.kind == INVALID
  {
    hide Pack, Unpack, Agree, Sessions, Kind;
    var r := m.View();
    AgreeIsSound(m.servers, m.bySession, m.newUp.Keys);
    if session in m.bySession {
      AgreeAt(m.servers, m.bySession, session);
      var id := Pack(m.bySession[session].id);
      AgreeAtId(m.servers, m.bySession, id);
      assert r.servers[id] == session;
      assert forall x <- r.servers :: r.servers[x] == session ==> x == id;
    }
  }

  // A user object for a number that has none.
  method AddUser(um: LUserManager, user: nat)
    requires um.Valid() && user !in um.users
    modifies um.Objects()
    ensures um.Valid() && fresh(um.Objects() - old(um.Objects()))
    ensures um.View() == old(um.View())[user := CREATED]
  {
    assert um in um.Objects();
    hide LUserManager.View, LUserManager.Valid, LUserManager.Objects;
    var u := um.AllocOneUser();
    u.db, u.state := user, CREATED;
    var ok := um.AddNewUserInfo(u);
    // The user was looked up just before, so adding it cannot fail.
    assert ok;
  }

  method UserOnlineFromLoginServer(um: LUserManager, user: nat) returns (result: int)
    requires um.Valid()
    modifies um.Objects()
    ensures um.Valid() && fresh(um.Objects() - old(um.Objects()))
    ensures result == if user == 0 then UNKNOWN_ERROR else if user in old(um.View()) then ALREADY_ONLINE else 0
    ensures um.View() == if result == 0 then old(um.View())[user := CREATED] else old(um.View())
  {
    hide LUserManager.View, LUserManager.Valid;
    if user == 0 {
      return UNKNOWN_ERROR;
    }
    var known := um.FindUser(user);
    if known != null {
      return ALREADY_ONLINE;
    }
    assert um.Objects() == old(um.Objects());
    hide LUserManager.Objects;
    AddUser(um, user);
    return 0;
  }

  method SelectedGate(m: LServerManager, gate: nat) returns (server: LServer)
    requires m.Valid() && gate in m.View().servers.Values
    ensures server.session == gate
  {
    hide Agree, Keyed, Apart, Sessions;
    AgreeIsSound(m.servers, m.bySession, m.newUp.Keys);
    server := m.FindServerBySessionID(gate);
  }

  // The new user is sent to the selected gate.
  method TellGate(m: LServerManager, um: LUserManager, ticket: Ticket, user: nat, packet: bool)
    returns (sent: seq<Packet>)
    requires m.Valid() && um.Valid() && user in um.View() && um.View()[user] == CREATED
    modifies um.Objects()
    ensures m.Valid() && m.View() == old(m.View())
    ensures um.Valid() && um.Objects() == old(um.Objects())
    ensures var gate := FirstGate(m.View().servers.Keys);
      if gate.None? then um.View() == old(um.View()) && sent == IfPacket(packet, FailedVerify(UNKNOWN_ERROR, ticket, user))
      else
        && um.View() == old(um.View())[user := WAITING_RESPONSE]
        && sent == IfPacket(packet, WillLogin(m.View().servers[gate.value], ticket, user))
  {
    hide Pack, Unpack, Agree, Keyed, Apart, Sessions, Kind, FirstGate, IsLogin;
    hide LUserManager.View, LUserManager.Valid;
    var gate := m.SelectBestGateServer();
    if gate.None? {
      return IfPacket(packet, FailedVerify(UNKNOWN_ERROR, ticket, user));
    }
    // The user was created just before and the gate is registered, so neither
    // of the next two steps can fail.
    var updated := um.UpdateUserState(user, WAITING_RESPONSE);
    assert updated;
    var gateServer := SelectedGate(m, gate.value);
    return IfPacket(packet, WillLogin(gateServer.session, ticket, user));
  }

  method UserOnline(m: LServerManager, um: LUserManager, ticket: Ticket, user: nat, packet: bool)
    returns (sent: seq<Packet>)
    requires m.Valid() && um.Valid()
    modifies um.Objects()
    ensures m.Valid() && m.View() == old(m.View())
    ensures um.Valid() && fresh(um.Objects() - old(um.Objects()))
    ensures var h := OnlineNext(m.View(), old(um.View()), ticket, user, packet);
      um.View() == h.users && sent == h.sent
    ensures !IsLogin(m.View(), ticket.login) ==> um.View() == old(um.View()) && sent == []
    ensures IsLogin(m.View(), ticket.login) && (user == 0 || user in old(um.View())) ==>
      var code := if user == 0 then UNKNOWN_ERROR else ALREADY_ONLINE;
      um.View() == old(um.View()) && sent == if packet then [Verify(code, ticket, user, "")] else []
    ensures IsLogin(m.View(), ticket.login) && user != 0 && user !in old(um.View()) ==>
      var gate := FirstGate(m.View().servers.Keys);
      && um.View() == old(um.View())[user := if gate.Some? then WAITING_RESPONSE else CREATED]
      && sent == if !packet then []
           else if gate.Some? then [WillLogin(m.View().servers[gate.value], ticket, user)]
           else [Verify(UNKNOWN_ERROR, ticket, user, "")]
  {
    hide Pack, Unpack, Agree, Keyed, Apart, Sessions, Kind, FirstGate, IsLogin;
    hide LUserManager.View, LUserManager.Valid;
    ghost var r := m.View();
    TypeOfSession(m, ticket.login);
    var server := m.FindServerBySessionID(ticket.login);
    if server == null || server.id.kind != LOGIN {
      return [];
    }
    var result := UserOnlineFromLoginServer(um, user);
    if result != 0 {
      return IfPacket(packet, FailedVerify(result, ticket, user));
    }
    sent := TellGate(m, um, ticket, user, packet);
  }

  method UserOfflineFromLogin(m: LServerManager, um: LUserManager, session: nat, user: nat)
    requires m.Valid() && um.Valid()
    modifies um.Objects()
    ensures um.Valid() && um.Objects() == old(um.Objects())
    ensures um.View() == OfflineFromLoginNext(m.View(), old(um.View()), session, user)
    ensures user !in um.View() <==>
      user !in old(um.View()) || (HasServer(m.View(), session) && old(um.View())[user] <= WAITING_RESPONSE)
    ensures um.View() - {user} == old(um.View()) - {user}
    ensures user in um.View() ==> um.View() == old(um.View())
  {
    hide Pack, Unpack, Agree, Keyed, Apart, Sessions, Kind, IsLogin;
    hide LUserManager.View, LUserManager.Valid;
    TypeOfSession(m, session);
    var server := m.FindServerBySessionID(session);
    if server == null {
      return;
    }
    var u := um.FindUser(user);
    if u == null {
      return;
    }
    if u.state <= WAITING_RESPONSE {
      um.RemoveUser(user);
    }
  }

  method UserWillLogin(m: LServerManager, um: LUserManager, result: int, ticket: Ticket, user: nat, key: string,
                       reading: Reading)
    returns (sent: seq<Packet>)
    requires m.Valid() && um.Valid()
    modifies um.Objects()
    ensures um.Valid() && um.Objects() == old(um.Objects())
    ensures var h := WillLoginResNext(m.View(), old(um.View()), result, ticket, user, key, reading);
      um.View() == h.users && sent == h.sent
    ensures !reading.Unread? && HasServer(m.View(), ticket.login) && user in old(um.View()) ==>
      if result == 0 && reading.Whole?
      then um.View() == old(um.View())[user := WAITING_LOGIN] && sent == [Verify(0, ticket, user, key)]
      else
        && um.View() == old(um.View()) - {user}
        && sent == [Verify(if result == 0 then UNKNOWN_ERROR else result, ticket, user, "")]
    ensures sent != [] <==> !reading.Unread? && HasServer(m.View(), ticket.login) && user in old(um.View())
    ensures sent == [] ==> um.View() == old(um.View()) - if reading.Unread? then {} else {user}
  {
    hide Pack, Unpack, Agree, Keyed, Apart, Sessions, Kind, IsLogin;
    hide LUserManager.View, LUserManager.Valid;
    if reading.Unread? {
      return [];
    }
    TypeOfSession(m, ticket.login);
    var server := m.FindServerBySessionID(ticket.login);
    var u := um.FindUser(user);
    if server == null {
      if u != null {
        um.RemoveUser(user);
      }
      return [];
    }
    if u == null {
      return [];
    }
    if result == 0 && reading.KeyCut? {
      sent := [FailedVerify(UNKNOWN_ERROR, ticket, user)];
      um.RemoveUser(user);
    } else if result == 0 {
      sent := [Verify(0, ticket, user, key)];
      um.SetUserState(user, WAITING_LOGIN);
    } else {
      sent := [FailedVerify(result, ticket, user)];
      um.RemoveUser(user);
    }
  }

  method UserGateServerOffline(um: LUserManager, user: nat)
    requires um.Valid()
    modifies um.Objects()
    ensures um.Valid() && um.Objects() == old(um.Objects())
    ensures um.View() == OfflineFromGateNext(old(um.View()), user)
    ensures user in um.View() <==> user in old(um.View()) && old(um.View())[user] < WAITING_RESPONSE
    ensures um.View() - {user} == old(um.View()) - {user}
    ensures user in um.View() ==> um.View() == old(um.View())
  {
    var u := um.FindUser(user);
    if u == null {
      return;
    }
    if u.state >= WAITING_RESPONSE {
      um.RemoveUser(user);
    }
  }

  method UserGateServerOnline(m: LServerManager, um: LUserManager, session: nat, client: nat, user: nat)
    returns (sent: seq<Packet>)
    requires m.Valid() && um.Valid()
    modifies um.Objects()
    ensures um.Valid() && um.Objects() == old(um.Objects())
    ensures var h := ReportNext(m.View(), old(um.View()), session, client, user);
      um.View() == h.users && sent == h.sent
    ensures sent == [] <==> !HasServer(m.View(), session)
    ensures sent != [] ==> sent == [Confirm(session, if user in old(um.View()) then 0 else -1, user, client)]
    ensures um.View() == if sent != [] && user in old(um.View()) then old(um.View())[user := CONNECTED] else old(um.View())
  {
    hide Pack, Unpack, Agree, Keyed, Apart, Sessions, Kind, IsLogin;
    hide LUserManager.View, LUserManager.Valid;
    TypeOfSession(m, session);
    var server := m.FindServerBySessionID(session);
    if server == null {
      return [];
    }
    var u := um.FindUser(user);
    if u == null {
      return [Confirm(server.session, -1, user, client)];
    }
    um.SetUserState(user, CONNECTED);
    return [Confirm(server.session, 0, user, client)];
  }
}
