// The gate server's clients and the logins it expects
// (GateServer/LClientManager.cpp, LGateServerPacketProcess_FromMasterServer.cpp,
// LGateServerPacketProcess_Client_Login.cpp).
module GateClients {
  import opened ObjectMaps
  import opened LoginPackets
  import opened Decimals
  import opened LoginKeys

  const LOGIN_TIMEOUT: nat := 5
  const EXPIRE_BATCH: nat := 100

  const JUST_CONNECT: nat := 1
  const INITIALIZE: nat := 2
  const WAITING_CONFIRM: nat := 3
  const LOGINED: nat := 4

  datatype Client = Client(user: nat, state: nat)
  datatype Entry = Entry(due: nat, user: nat)

  // Clients by session, the session of each logged-in user, the key each
  // expected user must present, the queue of deadlines and the key counter.
  datatype Gate = Gate(
    clients: map<nat, Client>,
    bound: map<nat, nat>,
    pending: map<nat, string>,
    queue: seq<Entry>,
    counter: nat)

  // ---- What the operations do -------------------------------------------------------

  // A client connected; `room` says whether the pool had an object left.
  function AddNewUpClientNext(g: Gate, session: nat, room: bool): (Gate, bool) {
    if session in g.clients || !room then (g, false)
    else (g.(clients := g.clients[session := Client(0, JUST_CONNECT)]), true)
  }

  function BuildLoginKeyNext(g: Gate): Gate {
    g.(counter := (g.counter + 1) % KEY_COUNT)
  }

  // A user that is already expected keeps the old key and the old deadline.
  function AddWillConnectNext(g: Gate, user: nat, key: string, now: nat): Gate {
    if user in g.pending then g
    else g.(pending := g.pending[user := key], queue := g.queue + [Entry(now + LOGIN_TIMEOUT, user)])
  }

  function WillLoginNext(g: Gate, ticket: Ticket, user: nat, now: nat): (Gate, Packet) {
    if user in g.bound then (g, WillLoginRes(-1, ticket, user, ""))
    else
      var g' := BuildLoginKeyNext(g);
      var key := Decimal(g'.counter);
      (AddWillConnectNext(g', user, key, now), WillLoginRes(0, ticket, user, key))
  }

  // An attempt uses the record up whether or not the key is right.
  function CheckClientInfoNext(g: Gate, session: nat, user: nat, key: string): (Gate, bool) {
    if session !in g.clients || user in g.bound || user !in g.pending then (g, false)
    else
      var g' := g.(pending := g.pending - {user});
      if g.pending[user] != key then (g', false)
      else
        (g'.(clients := g.clients[session := Client(user, INITIALIZE)], bound := g.bound[user := session]), true)
  }

  // The client is known, the user is expected and not logged in, and this is its key.
  predicate Opens(g: Gate, session: nat, user: nat, key: string) {
    session in g.clients && user !in g.bound && user in g.pending && g.pending[user] == key
  }

  datatype KeyOutcome = NoClient | Kicked | Reported

  function LoginKeyNext(g: Gate, session: nat, user: nat, key: string): (Gate, KeyOutcome) {
    if session !in g.clients then (g, NoClient)
    else
      var (g', ok) := CheckClientInfoNext(g, session, user, key);
      if !ok then (g', Kicked)
      else (g'.(clients := g'.clients[session := g'.clients[session].(state := WAITING_CONFIRM)]), Reported)
  }

  function ConfirmNext(g: Gate, result: int, client: nat): (Gate, bool) {
    if client !in g.clients then (g, false)
    else if result == 0 then (g.(clients := g.clients[client := g.clients[client].(state := LOGINED)]), false)
    else (g, true)
  }

  // Every popped entry is reported to the master, whether or not its record was
  // still there.
  function Expire(g: Gate, now: nat, budget: nat): (Gate, seq<nat>)
    decreases budget
  {
    if g.queue == [] || budget == 0 || g.queue[0].due >= now then (g, [])
    else
      var user := g.queue[0].user;
      var (g', users) := Expire(g.(queue := g.queue[1..], pending := g.pending - {user}), now, budget - 1);
      (g', [user] + users)
  }

  function ExpireFrom(g: Gate, now: nat, budget: nat, before: seq<nat>): (Gate, seq<nat>) {
    var r := Expire(g, now, budget);
    (r.0, before + r.1)
  }

  lemma {:induction false} ExpireStep(g: Gate, now: nat, budget: nat, before: seq<nat>)
    ensures
      if g.queue == [] || budget == 0 || g.queue[0].due >= now
      then ExpireFrom(g, now, budget, before) == (g, before)
      else
        var u := g.queue[0].user;
        ExpireFrom(g, now, budget, before)
        == ExpireFrom(g.(queue := g.queue[1..], pending := g.pending - {u}), now, budget - 1, before + [u])
  {
    if g.queue != [] && budget != 0 && g.queue[0].due < now {
      var u := g.queue[0].user;
      var rest := Expire(g.(queue := g.queue[1..], pending := g.pending - {u}), now, budget - 1);
      assert before + ([u] + rest.1) == before + [u] + rest.1;
    } else {
      assert before + [] == before;
    }
  }

  // ---- The manager ------------------------------------------------------------------

  class LClient {
    var session: nat
    var user: nat
    var state: nat

    constructor ()
      ensures session == 0 && user == 0 && state == 0
    {
      session, user, state := 0, 0, 0;
    }
  }

  class LClientManager {
    var bySession: map<nat, LClient>
    var byUser: map<nat, LClient>
    var pool: seq<LClient>
    var pending: map<nat, string>
    var queue: seq<Entry>
    var counter: nat

    ghost predicate Valid()
      reads this, bySession.Values, pool
    {
      && (forall s <- bySession :: bySession[s].session == s)
      && (forall u <- byUser :: byUser[u] in bySession.Values)
      && (forall i | 0 <= i < |pool| :: pool[i] !in bySession.Values && pool[i].user == 0)
      && (forall i, j | 0 <= i < j < |pool| :: pool[i] != pool[j])
      && counter < KEY_COUNT
    }

    ghost function View(): Gate
      reads this, bySession.Values, byUser.Values
    {
      Gate(map s <- bySession :: Client(bySession[s].user, bySession[s].state),
        map u <- byUser :: byUser[u].session,
        pending, queue, counter)
    }

    constructor (size: nat)
      ensures Valid() && View() == Gate(map[], map[], map[], [], 0)
      ensures |pool| == if size == 0 then 100 else size
    {
      bySession, byUser, pool, pending, queue, counter := map[], map[], [], map[], [], 0;
      new;
      var n := if size == 0 then 100 else size;
      for i := 0 to n
        invariant Valid() && fresh(pool) && |pool| == i
        invariant View() == Gate(map[], map[], map[], [], 0)
      {
        var client := new LClient();
        pool := pool + [client];
      }
    }

    method AllocClient() returns (client: LClient?)
      requires Valid()
      modifies this`pool
      ensures Valid() && View() == old(View())
      ensures (client == null) <==> old(pool) == []
      ensures client != null ==> client == old(pool)[0] && client.user == 0
      ensures client != null ==> client !in bySession.Values && client !in pool
    {
      if pool == [] {
        return null;
      }
      client := pool[0];
      pool := pool[1..];
    }

    // Files a client under a session that has none.
    method FileClient(session: nat, client: LClient)
      requires Valid() && session !in bySession
      requires client !in bySession.Values && client !in pool && client.user == 0
      modifies this`bySession, client
      ensures Valid()
      ensures View() == old(View()).(clients := old(View()).clients[session := Client(0, JUST_CONNECT)])
    {
      client.state, client.session := JUST_CONNECT, session;
      AddedValues(bySession, session, client);
      bySession := bySession[session := client];
      assert View().clients == old(View()).clients[session := Client(0, JUST_CONNECT)];
      assert View().bound == old(View()).bound;
    }

    method AddNewUpClient(session: nat) returns (ok: bool)
      requires Valid()
      modifies this, pool
      ensures Valid()
      ensures var n := AddNewUpClientNext(old(View()), session, old(pool) != []); View() == n.0 && ok == n.1
    {
      assert session in bySession <==> session in View().clients;
      hide LClientManager.View, LClientManager.Valid;
      if session in bySession {
        return false;
      }
      var client := AllocClient();
      if client == null {
        return false;
      }
      FileClient(session, client);
      return true;
    }

    method BuildLoginKey() returns (key: string)
      requires Valid()
      modifies this`counter
      ensures Valid() && View() == BuildLoginKeyNext(old(View()))
      ensures key == Decimal(View().counter)
    {
      counter := (counter + 1) % KEY_COUNT;
      key := Decimal(counter);
    }

    method AddWillConnectClientInfo(user: nat, key: string, now: nat)
      requires Valid()
      modifies this`pending, this`queue
      ensures Valid() && View() == AddWillConnectNext(old(View()), user, key, now)
    {
      if user in pending {
        return;
      }
      pending := pending[user := key];
      queue := queue + [Entry(now + LOGIN_TIMEOUT, user)];
    }

    method UserWillLogin(ticket: Ticket, user: nat, now: nat) returns (reply: Packet)
      requires Valid()
      modifies this
      ensures Valid()
      ensures var n := WillLoginNext(old(View()), ticket, user, now); View() == n.0 && reply == n.1
      ensures reply.WillLoginRes? && reply.user == user && reply.ticket == ticket
      ensures reply.WillLoginRes? && (reply.result != 0 <==> user in old(View()).bound)
      ensures user in old(View()).bound ==> View() == old(View())
    {
      if user in byUser {
        return WillLoginRes(-1, ticket, user, "");
      }
      var key := BuildLoginKey();
      AddWillConnectClientInfo(user, key, now);
      return WillLoginRes(0, ticket, user, key);
    }

    // Notes the user in the client's object.
    method NoteUser(client: LClient, user: nat)
      requires Valid() && client in bySession.Values
      modifies client
      ensures Valid() && client.session == old(client.session)
      ensures View() == old(View()).(clients := old(View()).clients[client.session := Client(user, INITIALIZE)])
    {
      ghost var session := client.session;
      assert session in bySession && bySession[session] == client;
      assert forall s <- bySession :: bySession[s] == client ==> s == session;
      client.user, client.state := user, INITIALIZE;
      assert View().clients == old(View()).clients[session := Client(user, INITIALIZE)];
      assert View().bound == old(View()).bound;
    }

    // The client has presented the right key.
    method BindUser(client: LClient, user: nat)
      requires Valid() && client in bySession.Values && user !in byUser
      modifies this`byUser, client
      ensures Valid() && bySession == old(bySession)
      ensures var g := old(View()); var session := old(client.session);
        View() == g.(clients := g.clients[session := Client(user, INITIALIZE)], bound := g.bound[user := session])
    {
      NoteUser(client, user);
      ghost var g := View();
      byUser := byUser[user := client];
      assert View().clients == g.clients;
      assert View().bound == g.bound[user := client.session];
    }

    method CheckClientInfo(session: nat, user: nat, key: string) returns (ok: bool)
      requires Valid()
      modifies this, bySession.Values
      ensures Valid() && bySession == old(bySession)
      ensures var n := CheckClientInfoNext(old(View()), session, user, key); View() == n.0 && ok == n.1
    {
      if session !in bySession {
        return false;
      }
      var client := bySession[session];
      if user in byUser {
        return false;
      }
      if user !in pending {
        return false;
      }
      var expected := pending[user];
      pending := pending - {user};
      assert View() == old(View()).(pending := pending);
      if expected != key {
        return false;
      }
      BindUser(client, user);
      return true;
    }

    // The state of a client the caller has looked up.
    method SetClientState(session: nat, state: nat)
      requires Valid() && session in bySession
      modifies bySession.Values
      ensures Valid() && session in old(View()).clients
      ensures View() == old(View()).(clients := old(View()).clients[session := old(View()).clients[session].(state := state)])
    {
      assert forall s <- bySession :: bySession[s] == bySession[session] ==> s == session;
      bySession[session].state := state;
      assert View().clients == old(View()).clients[session := old(View()).clients[session].(state := state)];
      assert View().bound == old(View()).bound;
    }

    // The handler of the client's key; when it reports to the master, the
    // report names this session and user.
    method UserLoginKey(session: nat, user: nat, key: string) returns (outcome: KeyOutcome)
      requires Valid()
      modifies this, bySession.Values
      ensures Valid()
      ensures var n := LoginKeyNext(old(View()), session, user, key); View() == n.0 && outcome == n.1
      ensures outcome == NoClient <==> session !in old(View()).clients
      ensures outcome == Reported <==> Opens(old(View()), session, user, key)
    {
      assert session in bySession <==> session in View().clients;
      hide LClientManager.View, LClientManager.Valid, CheckClientInfoNext;
      if session !in bySession {
        return NoClient;
      }
      var ok := CheckClientInfo(session, user, key);
      if !ok {
        return Kicked;
      }
      SetClientState(session, WAITING_CONFIRM);
      return Reported;
    }

    method UserOnlineConfirm(result: int, session: nat) returns (kick: bool)
      requires Valid()
      modifies bySession.Values
      ensures Valid()
      ensures var n := ConfirmNext(old(View()), result, session); View() == n.0 && kick == n.1
      ensures kick <==> session in old(View()).clients && result != 0
      ensures session in old(View()).clients && result == 0 ==>
        View() == old(View()).(clients := old(View()).clients[session := old(View()).clients[session].(state := LOGINED)])
      ensures session !in old(View()).clients || result != 0 ==> View() == old(View())
    {
      assert session in bySession <==> session in View().clients;
      hide LClientManager.View, LClientManager.Valid;
      if session !in bySession {
        return false;
      }
      if result == 0 {
        SetClientState(session, LOGINED);
        return false;
      }
      return true;
    }

    // Takes the front deadline, and the record of its user if there is one.
    method PopFront() returns (user: nat)
      requires Valid() && queue != []
      modifies this`pending, this`queue
      ensures Valid() && user == old(queue)[0].user
      ensures queue == old(queue)[1..] && pending == old(pending) - {user}
      ensures View() == old(View()).(pending := pending, queue := queue)
    {
      user := queue[0].user;
      queue := queue[1..];
      if user in pending {
        pending := pending - {user};
      } else {
        assert pending - {user} == pending;
      }
    }

    method ProcessTimeOutWillConnect(now: nat) returns (offline: seq<nat>)
      requires Valid()
      modifies this`pending, this`queue
      ensures Valid()
      ensures var n := Expire(old(View()), now, EXPIRE_BATCH); View() == n.0 && offline == n.1
    {
      ghost var g0 := View();
      assert g0.pending == pending && g0.queue == queue;
      hide Expire, LClientManager.View, LClientManager.Valid;
      ghost var goal := Expire(g0, now, EXPIRE_BATCH);
      offline := [];
      assert [] + goal.1 == goal.1;
      var processed := 0;
      while queue != []
        invariant Valid() && processed <= EXPIRE_BATCH
        invariant View() == g0.(pending := pending, queue := queue)
        invariant ExpireFrom(View(), now, EXPIRE_BATCH - processed, offline) == goal
        decreases |queue|
      {
        ExpireStep(View(), now, EXPIRE_BATCH - processed, offline);
        var front := queue[0];
        processed := processed + 1;
        if processed > EXPIRE_BATCH {
          return;
        }
        if front.due >= now {
          return;
        }
        var user := PopFront();
        offline := offline + [user];
      }
      ExpireStep(View(), now, EXPIRE_BATCH - processed, offline);
    }
  }
}
