// How a lobby comes to connect to a database server: the lobby asks the master,
// the master asks the database server, and its address travels back
// (LobbyServer/LLobbyServerPacketProcess_ServerToServer.cpp,
// MasterServer/LMasterServerPacketProcess_Common.cpp,
// DBServer/LDBServerPacketProcess_Common.cpp).
module Brokerage {
  import opened Tallies
  import opened ServerIds
  import opened Registry
  import opened Peers

  // A request and its relayed form, an answer and its relayed form.
  datatype Packet =
    | ConnectReq(src: Id, dst: Id)
    | Forward(src: Id, dst: Id)
    | Answer(code: int, src: Id, dst: Id, address: nat)
    | Result(code: int, src: Id, dst: Id, address: nat)

  // ---- The master relays ----------------------------------------------------------------

  function RelayReq(reg: Reg, src: Id, dst: Id): seq<Packet> {
    if src !in reg.servers then []
    else if dst !in reg.servers then [Result(-1, src, dst, 0)]
    else [Forward(src, dst)]
  }

  function RelayAnswer(reg: Reg, code: int, src: Id, dst: Id, address: nat): seq<Packet> {
    if src !in reg.servers then [] else [Result(code, src, dst, if code == 0 then address else 0)]
  }

  method WillConnectReq(m: LServerManager, src: Id, dst: Id) returns (sent: seq<Packet>)
    requires m.Valid()
    ensures sent == RelayReq(m.View(), src, dst)
    ensures Forward(src, dst) in sent <==> src in m.View().servers && dst in m.View().servers
    ensures Result(-1, src, dst, 0) in sent <==> src in m.View().servers && dst !in m.View().servers
    ensures |sent| == if src in m.View().servers then 1 else 0
  {
    var srcServer := m.FindServer(src);
    var dstServer := m.FindServer(dst);
    if srcServer == null {
      return [];
    }
    if dstServer == null {
      return [Result(-1, src, dst, 0)];
    }
    return [Forward(src, dst)];
  }

  method WillConnectRes(m: LServerManager, code: int, src: Id, dst: Id, address: nat) returns (sent: seq<Packet>)
    requires m.Valid()
    ensures sent == RelayAnswer(m.View(), code, src, dst, address)
    ensures sent == [] <==> src !in m.View().servers
    ensures forall x <- sent :: |sent| == 1 && x.Result? && (x.code, x.src, x.dst) == (code, src, dst)
    ensures forall x <- sent :: x.Result? ==> x.address == if code == 0 then address else 0
  {
    var where := 0;
    if code == 0 {
      where := address;
    }
    var srcServer := m.FindServer(src);
    if srcServer == null {
      return [];
    }
    return [Result(code, src, dst, where)];
  }

  // ---- The lobby ------------------------------------------------------------------------

  datatype Lobby = Lobby(id: Id, table: Table, jobs: seq<Job>)

  predicate NamesDB(raw: Id) {
    SetServerID(raw).Some? && SetServerID(raw).value.kind == DB
  }

  // The announcement of new servers. A server that is already connected ends
  // the whole list.
  function Requests(l: Lobby, ids: seq<Id>): seq<Packet> {
    if ids == [] then []
    else if !NamesDB(ids[0]) then Requests(l, ids[1..])
    else if ids[0] in l.table.byId then []
    else [ConnectReq(l.id, ids[0])] + Requests(l, ids[1..])
  }

  function AllowedRequest(l: Lobby, receiver: Id, raw: Id): seq<Packet> {
    if l.id != receiver || !NamesDB(raw) || raw in l.table.byId then [] else [ConnectReq(l.id, raw)]
  }

  predicate TakesJob(l: Lobby, code: int, src: Id, dst: Id) {
    code == 0 && l.id == src && dst !in l.table.byId
  }

  method RegisterBroadcast(m: LLBServerManager, myId: Id, ids: seq<Id>) returns (sent: seq<Packet>)
    requires m.Valid()
    ensures sent == Requests(Lobby(myId, m.View(), m.jobs), ids)
  {
    hide NamesDB, SessionsOf, IdsOf;
    KeysOf(m.byId, m.bySession);
    ghost var l := Lobby(myId, m.View(), m.jobs);
    sent := [];
    var i := 0;
    while i < |ids|
      invariant 0 <= i <= |ids|
      invariant sent + Requests(l, ids[i..]) == Requests(l, ids)
    {
      assert ids[i..][1..] == ids[i + 1..];
      if !NamesDB(ids[i]) {
        i := i + 1;
        continue;
      }
      var known := m.FindServerByServerID(ids[i]);
      if known != null {
        assert sent + [] == sent;
        return;
      }
      assert sent + ([ConnectReq(myId, ids[i])] + Requests(l, ids[i + 1..]))
          == sent + [ConnectReq(myId, ids[i])] + Requests(l, ids[i + 1..]);
      sent := sent + [ConnectReq(myId, ids[i])];
      i := i + 1;
    }
    assert sent + [] == sent;
  }

  method CanConnectTo(m: LLBServerManager, myId: Id, receiver: Id, raw: Id) returns (sent: seq<Packet>)
    requires m.Valid()
    ensures sent == AllowedRequest(Lobby(myId, m.View(), m.jobs), receiver, raw)
    ensures sent == [ConnectReq(myId, raw)] <==> myId == receiver && NamesDB(raw) && raw !in m.View().byId
    ensures sent == [] || sent == [ConnectReq(myId, raw)]
  {
    if myId != receiver {
      return [];
    }
    if !NamesDB(raw) {
      return [];
    }
    var known := m.FindServerByServerID(raw);
    if known != null {
      return [];
    }
    return [ConnectReq(myId, raw)];
  }

  method WillConnectResult(m: LLBServerManager, myId: Id, code: int, src: Id, dst: Id, address: nat, room: bool)
    requires m.Valid()
    modifies m`jobs
    ensures m.Valid() && m.View() == old(m.View())
    ensures m.jobs == if TakesJob(Lobby(myId, m.View(), old(m.jobs)), code, src, dst) && room
      then old(m.jobs) + [Job(dst, address)] else old(m.jobs)
    ensures code == 0 && src == myId && dst !in m.View().byId && room ==> m.jobs == old(m.jobs) + [Job(dst, address)]
    ensures code != 0 || src != myId || dst in m.View().byId || !room ==> m.jobs == old(m.jobs)
  {
    if code != 0 {
      return;
    }
    if myId != src {
      return;
    }
    var known := m.FindServerByServerID(dst);
    if known != null {
      return;
    }
    var added := m.AddConnectWork(Job(dst, address), room);
  }

  // ---- The system -----------------------------------------------------------------------

  datatype Responder = Responder(id: Id, address: nat)

  // What becomes of a request, of its relayed form, of the answer, and of the
  // relayed answer. QueuedAt names the lobby's process.
  datatype Fact =
    | Requested(src: Id, dst: Id)
    | Relayed(src: Id, dst: Id)
    | Refused(src: Id, dst: Id)
    | Dropped(src: Id, dst: Id)
    | LostReq(src: Id, dst: Id)
    | Answered(src: Id, dst: Id)
    | NotTaken(src: Id, dst: Id)
    | LostForward(src: Id, dst: Id)
    | Accepted(src: Id, dst: Id, address: nat)
    | Passed(src: Id, dst: Id, address: nat)
    | Undelivered(src: Id, dst: Id, address: nat)
    | LostAnswer(src: Id, dst: Id, address: nat)
    | Queued(src: Id, dst: Id, address: nat)
    | QueuedAt(p: nat, dst: Id, address: nat)
    | Discarded(src: Id, dst: Id, address: nat)
    | LostResult(src: Id, dst: Id, address: nat)
    | RefusalSeen(src: Id, dst: Id)
    | LostRefusal(src: Id, dst: Id)

  // Lobby processes, database server processes, and packets under way, each of
  // which is delivered at most once.
  datatype World = World(
    reg: Reg,
    lobbies: map<nat, Lobby>,
    responders: map<nat, Responder>,
    net: multiset<Packet>,
    tally: multiset<Fact>)

  // `at` is the process that gets a packet; any process may, since it checks
  // the identity itself. `yes` says whether a database server accepts the
  // request, or a lobby's queue of connect work has room.
  datatype Step =
    | Invite(p: nat, ids: seq<Id>)
    | Allow(p: nat, receiver: Id, raw: Id)
    | Deliver(m: Packet, at: nat, yes: bool)
    | Lose(m: Packet)
    | Connected(p: nat, j: nat, session: nat)
    | Disconnected(p: nat, session: nat)
    | StartLobby(p: nat, id: Id)
    | StartResponder(p: nat, id: Id, address: nat)
    | Reregister(reg: Reg)

  function Start(): World {
    World(Reg(map[], {}), map[], map[], multiset{}, multiset{})
  }

  // Requests are put on the network and counted.
  function Send(w: World, reqs: seq<Packet>): World
    requires forall m <- reqs :: m.ConnectReq?
    decreases |reqs|
  {
    if reqs == [] then w
    else
      Send(w.(net := Plus(w.net, reqs[0]), tally := Plus(w.tally, Requested(reqs[0].src, reqs[0].dst))), reqs[1..])
  }

  lemma {:induction false} RequestsAre(l: Lobby, ids: seq<Id>)
    ensures forall m <- Requests(l, ids) :: m.ConnectReq? && m.src == l.id && NamesDB(m.dst)
  {
    hide NamesDB;
    if ids != [] {
      RequestsAre(l, ids[1..]);
    }
  }

  // One packet is taken off the network, and what a handler sends is put on it.
  function Exchange(net: multiset<Packet>, m: Packet, sent: seq<Packet>): multiset<Packet> {
    if sent == [] then net - multiset{m} else Plus(net - multiset{m}, sent[0])
  }

  // The facts are read from the registry and from the processes, not from what
  // the handlers send.
  function ReqNext(w: World, m: Packet): World
    requires m.ConnectReq?
  {
    w.(net := Exchange(w.net, m, RelayReq(w.reg, m.src, m.dst)),
       tally := Plus(w.tally,
         if m.src !in w.reg.servers then Dropped(m.src, m.dst)
         else if m.dst !in w.reg.servers then Refused(m.src, m.dst)
         else Relayed(m.src, m.dst)))
  }

  function ForwardNext(w: World, m: Packet, at: nat, yes: bool): World
    requires m.Forward?
  {
    if at !in w.responders || w.responders[at].id != m.dst || !yes
    then w.(net := Exchange(w.net, m, []), tally := Plus(w.tally, NotTaken(m.src, m.dst)))
    else
      var a := w.responders[at].address;
      w.(net := Exchange(w.net, m, [Answer(0, m.src, m.dst, a)]),
         tally := Plus(Plus(w.tally, Answered(m.src, m.dst)), Accepted(m.src, m.dst, a)))
  }

  function AnswerNext(w: World, m: Packet): World
    requires m.Answer?
  {
    w.(net := Exchange(w.net, m, RelayAnswer(w.reg, m.code, m.src, m.dst, m.address)),
       tally := Plus(w.tally,
         if m.src !in w.reg.servers then Undelivered(m.src, m.dst, m.address) else Passed(m.src, m.dst, m.address)))
  }

  // The answer is for this lobby, which is not connected to the server and has
  // room for the job.
  predicate Wanted(w: World, m: Packet, at: nat, yes: bool)
    requires m.Result?
  {
    && at in w.lobbies && w.lobbies[at].id == m.src && m.dst !in w.lobbies[at].table.byId
    && m.code == 0 && yes
  }

  function WithJob(w: World, m: Packet, at: nat, yes: bool): map<nat, Lobby>
    requires m.Result?
  {
    if at !in w.lobbies || !TakesJob(w.lobbies[at], m.code, m.src, m.dst) || !yes then w.lobbies
    else w.lobbies[at := w.lobbies[at].(jobs := w.lobbies[at].jobs + [Job(m.dst, m.address)])]
  }

  function ResultNext(w: World, m: Packet, at: nat, yes: bool): World
    requires m.Result?
  {
    w.(net := Exchange(w.net, m, []),
       lobbies := WithJob(w, m, at, yes),
       tally :=
         if m.code != 0 then Plus(w.tally, RefusalSeen(m.src, m.dst))
         else if Wanted(w, m, at, yes)
         then Plus(Plus(w.tally, QueuedAt(at, m.dst, m.address)), Queued(m.src, m.dst, m.address))
         else Plus(w.tally, Discarded(m.src, m.dst, m.address)))
  }

  function DeliverNext(w: World, m: Packet, at: nat, yes: bool): World {
    if m !in w.net then w
    else
      match m
      case ConnectReq(_, _) => ReqNext(w, m)
      case Forward(_, _) => ForwardNext(w, m, at, yes)
      case Answer(_, _, _, _) => AnswerNext(w, m)
      case Result(_, _, _, _) => ResultNext(w, m, at, yes)
  }

  function LossOf(m: Packet): Fact {
    match m
    case ConnectReq(src, dst) => LostReq(src, dst)
    case Forward(src, dst) => LostForward(src, dst)
    case Answer(_, src, dst, address) => LostAnswer(src, dst, address)
    case Result(code, src, dst, address) => if code == 0 then LostResult(src, dst, address) else LostRefusal(src, dst)
  }

  function LoseNext(w: World, m: Packet): World {
    if m !in w.net then w else w.(net := Exchange(w.net, m, []), tally := Plus(w.tally, LossOf(m)))
  }

  ghost function Next(w: World, step: Step): World {
    match step
    case Invite(p, ids) =>
      if p !in w.lobbies then w
      else
        RequestsAre(w.lobbies[p], ids);
        Send(w, Requests(w.lobbies[p], ids))
    case Allow(p, receiver, raw) =>
      if p !in w.lobbies then w else Send(w, AllowedRequest(w.lobbies[p], receiver, raw))
    case Deliver(m, at, yes) => DeliverNext(w, m, at, yes)
    case Lose(m) => LoseNext(w, m)
    case Connected(p, j, session) =>
      if p !in w.lobbies || j >= |w.lobbies[p].jobs| then w
      else
        var l := w.lobbies[p];
        w.(lobbies := w.lobbies[p := l.(table := AddNewServerNext(l.table, session, l.jobs[j].server))])
    case Disconnected(p, session) =>
      if p !in w.lobbies then w
      else
        var l := w.lobbies[p];
        w.(lobbies := w.lobbies[p := l.(table := RemoveBySessionNext(l.table, session))])
    case StartLobby(p, id) =>
      if p in w.lobbies then w else w.(lobbies := w.lobbies[p := Lobby(id, Table(map[], map[]), [])])
    case StartResponder(p, id, address) =>
      if p in w.responders then w else w.(responders := w.responders[p := Responder(id, address)])
    // The registry never becomes unsound (see Introductions).
    case Reregister(reg) => if reg.Sound() then w.(reg := reg) else w
  }

  ghost function Run(w: World, steps: seq<Step>): World
    decreases |steps|
  {
    if steps == [] then w else Run(Next(w, steps[0]), steps[1..])
  }

  // ---- What every step keeps ------------------------------------------------------------

  // The accounts of one lobby, one server and one address: of its requests, of
  // those relayed, of the answers accepted, of those passed on, and of the
  // refusals. Each is on its way, went one step further, was turned down, or was
  // lost.
  ghost predicate RequestsBalance(net: multiset<Packet>, f: multiset<Fact>, s: Id, d: Id) {
    f[Requested(s, d)] == net[ConnectReq(s, d)] + f[Relayed(s, d)] + f[Refused(s, d)] + f[Dropped(s, d)] + f[LostReq(s, d)]
  }

  ghost predicate RelaysBalance(net: multiset<Packet>, f: multiset<Fact>, s: Id, d: Id) {
    f[Relayed(s, d)] == net[Forward(s, d)] + f[Answered(s, d)] + f[NotTaken(s, d)] + f[LostForward(s, d)]
  }

  ghost predicate AnswersBalance(net: multiset<Packet>, f: multiset<Fact>, s: Id, d: Id, a: nat) {
    && f[Accepted(s, d, a)] <= f[Answered(s, d)]
    && f[Accepted(s, d, a)]
       == net[Answer(0, s, d, a)] + f[Passed(s, d, a)] + f[Undelivered(s, d, a)] + f[LostAnswer(s, d, a)]
  }

  ghost predicate ResultsBalance(net: multiset<Packet>, f: multiset<Fact>, s: Id, d: Id, a: nat) {
    f[Passed(s, d, a)] == net[Result(0, s, d, a)] + f[Queued(s, d, a)] + f[Discarded(s, d, a)] + f[LostResult(s, d, a)]
  }

  ghost predicate RefusalsBalance(net: multiset<Packet>, f: multiset<Fact>, s: Id, d: Id) {
    f[Refused(s, d)] == net[Result(-1, s, d, 0)] + f[RefusalSeen(s, d)] + f[LostRefusal(s, d)]
  }

  ghost predicate Flow(net: multiset<Packet>, f: multiset<Fact>, s: Id, d: Id, a: nat) {
    && RequestsBalance(net, f, s, d) && RelaysBalance(net, f, s, d)
    && AnswersBalance(net, f, s, d, a) && ResultsBalance(net, f, s, d, a) && RefusalsBalance(net, f, s, d)
  }

  ghost predicate Caused(w: World, s: Id, d: Id, a: nat) {
    Flow(w.net, w.tally, s, d, a)
  }

  // Database servers only accept, and the master only refuses or passes on.
  predicate Proper(m: Packet) {
    (m.Answer? ==> m.code == 0) && (m.Result? ==> m.code == 0 || (m.code == -1 && m.address == 0))
  }

  ghost predicate AllProper(net: multiset<Packet>) {
    forall m <- net :: Proper(m)
  }

  ghost predicate HasLobby(lobbies: map<nat, Lobby>, id: Id) {
    exists p <- lobbies :: lobbies[p].id == id
  }

  // Where the facts come from.
  ghost predicate Sourced(w: World, s: Id, d: Id, a: nat) {
    && (w.tally[Requested(s, d)] > 0 ==> NamesDB(d) && HasLobby(w.lobbies, s))
    && (w.tally[Relayed(s, d)] > 0 ==> d < P56)
    && (w.tally[Accepted(s, d, a)] > 0 ==> exists q <- w.responders :: w.responders[q] == Responder(d, a))
  }

  ghost predicate Kept(l: Lobby) {
    && Agrees(l.table)
    && (forall raw <- l.table.byId :: raw < P56)
    && (forall j | 0 <= j < |l.jobs| :: l.jobs[j].server < P56)
  }

  ghost predicate AllQueued(f: multiset<Fact>, l: Lobby) {
    forall j | 0 <= j < |l.jobs| :: f[Queued(l.id, l.jobs[j].server, l.jobs[j].address)] > 0
  }

  ghost predicate Backed(w: World, p: nat) {
    p in w.lobbies ==> Kept(w.lobbies[p]) && AllQueued(w.tally, w.lobbies[p])
  }

  // The jobs of a lobby are those counted.
  ghost predicate JobsCounted(w: World, p: nat, d: Id, a: nat) {
    w.tally[QueuedAt(p, d, a)] == if p in w.lobbies then multiset(w.lobbies[p].jobs)[Job(d, a)] else 0
  }

  ghost predicate Inv(w: World) {
    && w.reg.Sound() && AllProper(w.net)
    && (forall p: nat, d: Id, a: nat :: JobsCounted(w, p, d, a))
    && (forall s: Id, d: Id, a: nat :: Caused(w, s, d, a))
    && (forall s: Id, d: Id, a: nat :: Sourced(w, s, d, a))
    && (forall p: nat :: Backed(w, p))
  }

  lemma {:induction false} SendKeeps(w: World, reqs: seq<Packet>, s: Id, d: Id, a: nat)
    requires forall m <- reqs :: m.ConnectReq? && NamesDB(m.dst) && HasLobby(w.lobbies, m.src)
    requires AllProper(w.net) && Caused(w, s, d, a) && Sourced(w, s, d, a)
    ensures var t := Send(w, reqs); AllProper(t.net) && Caused(t, s, d, a) && Sourced(t, s, d, a)
    decreases |reqs|
  {
    hide NamesDB, Plus, HasLobby, AllProper, Flow;
    if reqs != [] {
      var x := Requested(reqs[0].src, reqs[0].dst);
      var t := w.(net := Plus(w.net, reqs[0]), tally := Plus(w.tally, x));
      SendFlows(w.net, w.tally, reqs[0], s, d, a);
      SendKeeps(t, reqs[1..], s, d, a);
    }
  }

  lemma {:induction false} SendFlows(net: multiset<Packet>, f: multiset<Fact>, m: Packet, s: Id, d: Id, a: nat)
    requires m.ConnectReq? && AllProper(net) && Flow(net, f, s, d, a)
    ensures AllProper(Plus(net, m)) && Flow(Plus(net, m), Plus(f, Requested(m.src, m.dst)), s, d, a)
  {
    hide Plus;
  }

  // Which fact accounts for taking `m` and sending `sent`.
  predicate Accounts(m: Packet, sent: seq<Packet>, x: Fact) {
    match m
    case ConnectReq(s, d) =>
      || (x == Relayed(s, d) && sent == [Forward(s, d)])
      || (x == Refused(s, d) && sent == [Result(-1, s, d, 0)])
      || ((x == Dropped(s, d) || x == LostReq(s, d)) && sent == [])
    case Forward(s, d) => (x == NotTaken(s, d) || x == LostForward(s, d)) && sent == []
    case Answer(_, s, d, a) =>
      || (x == Passed(s, d, a) && sent == [Result(0, s, d, a)])
      || ((x == Undelivered(s, d, a) || x == LostAnswer(s, d, a)) && sent == [])
    case Result(code, s, d, a) =>
      && sent == []
      && if code == 0 then x == Queued(s, d, a) || x == Discarded(s, d, a) || x == LostResult(s, d, a)
         else x == RefusalSeen(s, d) || x == LostRefusal(s, d)
  }

  lemma {:induction false} Exchanged(net: multiset<Packet>, m: Packet, sent: seq<Packet>, x: Packet)
    requires m in net && |sent| <= 1
    ensures Exchange(net, m, sent)[x] == net[x] - Once(m == x) + (if sent == [] then 0 else Once(sent[0] == x))
  {
  }

  // Packets of these kinds, before and after.
  lemma {:induction false} ExchangedAll(net: multiset<Packet>, m: Packet, sent: seq<Packet>, s: Id, d: Id, a: nat)
    requires m in net && |sent| <= 1
    ensures forall x | x in [ConnectReq(s, d), Forward(s, d), Answer(0, s, d, a), Result(0, s, d, a), Result(-1, s, d, 0)] ::
      Exchange(net, m, sent)[x] == net[x] - Once(m == x) + (if sent == [] then 0 else Once(sent[0] == x))
  {
    hide Exchange;
    forall x | x in [ConnectReq(s, d), Forward(s, d), Answer(0, s, d, a), Result(0, s, d, a), Result(-1, s, d, 0)]
      ensures Exchange(net, m, sent)[x] == net[x] - Once(m == x) + (if sent == [] then 0 else Once(sent[0] == x))
    {
      Exchanged(net, m, sent, x);
    }
  }

  lemma {:induction false} RequestFlows(net: multiset<Packet>, f: multiset<Fact>, m: Packet, sent: seq<Packet>, x: Fact, s: Id, d: Id, a: nat)
    requires m in net && Proper(m) && Accounts(m, sent, x) && Flow(net, f, s, d, a)
    ensures var net', f' := Exchange(net, m, sent), Plus(f, x);
      RequestsBalance(net', f', s, d) && RelaysBalance(net', f', s, d)
  {
    hide Plus, Exchange, AnswersBalance, ResultsBalance, RefusalsBalance;
    Exchanged(net, m, sent, ConnectReq(s, d));
    Exchanged(net, m, sent, Forward(s, d));
  }

  lemma {:induction false} AnswerFlows(net: multiset<Packet>, f: multiset<Fact>, m: Packet, sent: seq<Packet>, x: Fact, s: Id, d: Id, a: nat)
    requires m in net && Proper(m) && Accounts(m, sent, x) && Flow(net, f, s, d, a)
    ensures var net', f' := Exchange(net, m, sent), Plus(f, x);
      AnswersBalance(net', f', s, d, a) && ResultsBalance(net', f', s, d, a)
  {
    hide Plus, Exchange, RequestsBalance, RelaysBalance, RefusalsBalance;
    Exchanged(net, m, sent, Answer(0, s, d, a));
    Exchanged(net, m, sent, Result(0, s, d, a));
  }

  lemma {:induction false} RefusalFlows(net: multiset<Packet>, f: multiset<Fact>, m: Packet, sent: seq<Packet>, x: Fact, s: Id, d: Id, a: nat)
    requires m in net && Proper(m) && Accounts(m, sent, x) && Flow(net, f, s, d, a)
    ensures RefusalsBalance(Exchange(net, m, sent), Plus(f, x), s, d)
  {
    hide Plus, Exchange, RequestsBalance, RelaysBalance, AnswersBalance, ResultsBalance;
    Exchanged(net, m, sent, Result(-1, s, d, 0));
  }

  lemma {:induction false} Flows(net: multiset<Packet>, f: multiset<Fact>, m: Packet, sent: seq<Packet>, x: Fact, s: Id, d: Id, a: nat)
    requires m in net && Proper(m) && Accounts(m, sent, x) && Flow(net, f, s, d, a)
    ensures Flow(Exchange(net, m, sent), Plus(f, x), s, d, a)
  {
    hide Plus, Exchange, RequestsBalance, RelaysBalance, AnswersBalance, ResultsBalance, RefusalsBalance, Accounts;
    RequestFlows(net, f, m, sent, x, s, d, a);
    AnswerFlows(net, f, m, sent, x, s, d, a);
    RefusalFlows(net, f, m, sent, x, s, d, a);
  }

  // An acceptance is two facts and an answer.
  lemma {:induction false} AcceptFlows(net: multiset<Packet>, f: multiset<Fact>, src: Id, dst: Id, address: nat, s: Id, d: Id, a: nat)
    requires Forward(src, dst) in net && Flow(net, f, s, d, a)
    ensures Flow(Exchange(net, Forward(src, dst), [Answer(0, src, dst, address)]),
      Plus(Plus(f, Answered(src, dst)), Accepted(src, dst, address)), s, d, a)
  {
    hide Plus, Exchange;
    ExchangedAll(net, Forward(src, dst), [Answer(0, src, dst, address)], s, d, a);
  }

  // Facts that no account speaks of.
  lemma {:induction false} AsideFlows(net: multiset<Packet>, f: multiset<Fact>, x: Fact, s: Id, d: Id, a: nat)
    requires x.QueuedAt? && Flow(net, f, s, d, a)
    ensures Flow(net, Plus(f, x), s, d, a)
  {
    hide Plus;
  }

  lemma {:induction false} ProperStays(net: multiset<Packet>, m: Packet, sent: seq<Packet>)
    requires AllProper(net) && forall x <- sent :: Proper(x)
    ensures AllProper(Exchange(net, m, sent))
  {
    hide Proper;
  }

  lemma {:induction false} DeliverCaused(w: World, m: Packet, at: nat, yes: bool, s: Id, d: Id, a: nat)
    requires m in w.net && AllProper(w.net) && Caused(w, s, d, a)
    ensures var t := DeliverNext(w, m, at, yes); Caused(t, s, d, a) && AllProper(t.net)
  {
    hide Plus, Exchange, Flow, AllProper, TakesJob, WithJob;
    assert Proper(m) by { IsProper(w.net, m); }
    match m
    case ConnectReq(src, dst) =>
      var sent := RelayReq(w.reg, src, dst);
      var x := if src !in w.reg.servers then Dropped(src, dst)
        else if dst !in w.reg.servers then Refused(src, dst) else Relayed(src, dst);
      ProperStays(w.net, m, sent);
      Flows(w.net, w.tally, m, sent, x, s, d, a);
    case Forward(src, dst) =>
      ProperStays(w.net, m, []);
      if at in w.responders && w.responders[at].id == dst && yes {
        ProperStays(w.net, m, [Answer(0, src, dst, w.responders[at].address)]);
        AcceptFlows(w.net, w.tally, src, dst, w.responders[at].address, s, d, a);
      } else {
        Flows(w.net, w.tally, m, [], NotTaken(src, dst), s, d, a);
      }
    case Answer(code, src, dst, address) =>
      var sent := RelayAnswer(w.reg, code, src, dst, address);
      var x := if src !in w.reg.servers then Undelivered(src, dst, address) else Passed(src, dst, address);
      ProperStays(w.net, m, sent);
      Flows(w.net, w.tally, m, sent, x, s, d, a);
    case Result(code, src, dst, address) =>
      ProperStays(w.net, m, []);
      if code != 0 {
        Flows(w.net, w.tally, m, [], RefusalSeen(src, dst), s, d, a);
      } else if Wanted(w, m, at, yes) {
        AsideFlows(w.net, w.tally, QueuedAt(at, dst, address), s, d, a);
        Flows(w.net, Plus(w.tally, QueuedAt(at, dst, address)), m, [], Queued(src, dst, address), s, d, a);
      } else {
        Flows(w.net, w.tally, m, [], Discarded(src, dst, address), s, d, a);
      }
  }

  lemma {:induction false} IsProper(net: multiset<Packet>, m: Packet)
    requires AllProper(net) && m in net
    ensures Proper(m)
  {
  }

  lemma {:induction false} LoseCaused(w: World, m: Packet, s: Id, d: Id, a: nat)
    requires AllProper(w.net) && Caused(w, s, d, a)
    ensures var t := LoseNext(w, m); Caused(t, s, d, a) && AllProper(t.net)
  {
    hide Plus, Exchange, Flow, AllProper;
    if m in w.net {
      IsProper(w.net, m);
      ProperStays(w.net, m, []);
      Flows(w.net, w.tally, m, [], LossOf(m), s, d, a);
    }
  }

  // Where new facts come from.
  lemma {:induction false} DeliverSourced(w: World, m: Packet, at: nat, yes: bool, s: Id, d: Id, a: nat)
    requires w.reg.Sound() && Sourced(w, s, d, a)
    ensures Sourced(DeliverNext(w, m, at, yes), s, d, a)
  {
    hide Sourced, ReqNext, ForwardNext, AnswerNext, ResultNext;
    if m in w.net {
      match m
      case ConnectReq(_, _) => ReqSourced(w, m, s, d, a);
      case Forward(_, _) => ForwardSourced(w, m, at, yes, s, d, a);
      case Answer(_, _, _, _) => AnswerSourced(w, m, s, d, a);
      case Result(_, _, _, _) => ResultSourced(w, m, at, yes, s, d, a);
    }
  }

  lemma {:induction false} ReqSourced(w: World, m: Packet, s: Id, d: Id, a: nat)
    requires m.ConnectReq? && w.reg.Sound() && Sourced(w, s, d, a)
    ensures Sourced(ReqNext(w, m), s, d, a)
  {
    hide NamesDB, Plus, Kind, HasLobby, Exchange;
  }

  lemma {:induction false} ForwardSourced(w: World, m: Packet, at: nat, yes: bool, s: Id, d: Id, a: nat)
    requires m.Forward? && Sourced(w, s, d, a)
    ensures Sourced(ForwardNext(w, m, at, yes), s, d, a)
  {
    hide NamesDB, Plus, HasLobby, Exchange;
  }

  lemma {:induction false} AnswerSourced(w: World, m: Packet, s: Id, d: Id, a: nat)
    requires m.Answer? && Sourced(w, s, d, a)
    ensures Sourced(AnswerNext(w, m), s, d, a)
  {
    hide NamesDB, Plus, HasLobby, Exchange;
  }

  lemma {:induction false} ResultSourced(w: World, m: Packet, at: nat, yes: bool, s: Id, d: Id, a: nat)
    requires m.Result? && Sourced(w, s, d, a)
    ensures Sourced(ResultNext(w, m, at, yes), s, d, a)
  {
    hide NamesDB, Plus, HasLobby, Exchange, WithJob;
    if HasLobby(w.lobbies, s) {
      JobKeepsLobbies(w, m, at, yes, s);
    }
  }

  lemma {:induction false} JobKeepsLobbies(w: World, m: Packet, at: nat, yes: bool, s: Id)
    requires m.Result? && HasLobby(w.lobbies, s)
    ensures HasLobby(WithJob(w, m, at, yes), s)
  {
    hide HasLobby;
    if at in w.lobbies {
      var l := w.lobbies[at];
      SameLobbies(w, at, l.(jobs := l.jobs + [Job(m.dst, m.address)]), s);
    }
  }

  // A lobby keeps its identity.
  lemma {:induction false} SameLobbies(w: World, p: nat, l: Lobby, s: Id)
    requires p in w.lobbies ==> l.id == w.lobbies[p].id
    requires HasLobby(w.lobbies, s)
    ensures HasLobby(w.lobbies[p := l], s)
  {
    var q :| q in w.lobbies && w.lobbies[q].id == s;
    assert w.lobbies[p := l][q].id == s;
  }

  lemma {:induction false} LobbyChange(w: World, p: nat, l: Lobby, s: Id, d: Id, a: nat)
    requires p in w.lobbies ==> l.id == w.lobbies[p].id
    requires Caused(w, s, d, a) && Sourced(w, s, d, a)
    ensures var t := w.(lobbies := w.lobbies[p := l]); Caused(t, s, d, a) && Sourced(t, s, d, a)
  {
    hide NamesDB, HasLobby;
    if HasLobby(w.lobbies, s) {
      SameLobbies(w, p, l, s);
    }
  }

  lemma {:induction false} ResponderStart(w: World, p: nat, r: Responder, s: Id, d: Id, a: nat)
    requires p !in w.responders && Caused(w, s, d, a) && Sourced(w, s, d, a)
    ensures var t := w.(responders := w.responders[p := r]); Caused(t, s, d, a) && Sourced(t, s, d, a)
  {
    hide NamesDB, HasLobby;
    if w.tally[Accepted(s, d, a)] > 0 {
      var q :| q in w.responders && w.responders[q] == Responder(d, a);
      assert w.responders[p := r][q] == Responder(d, a);
    }
  }

  lemma {:induction false} StepCauses(w: World, step: Step, s: Id, d: Id, a: nat)
    requires w.reg.Sound() && AllProper(w.net) && Caused(w, s, d, a) && Sourced(w, s, d, a)
    ensures var t := Next(w, step); AllProper(t.net) && Caused(t, s, d, a) && Sourced(t, s, d, a)
  {
    hide DeliverNext, LoseNext, Send, Requests, AllowedRequest, NamesDB, AddNewServerNext, RemoveBySessionNext, AllProper, Flow, HasLobby;
    match step
    case Invite(p, ids) =>
      if p in w.lobbies {
        RequestsAre(w.lobbies[p], ids);
        IsLobby(w.lobbies, p);
        SendKeeps(w, Requests(w.lobbies[p], ids), s, d, a);
      }
    case Allow(p, receiver, raw) =>
      if p in w.lobbies {
        AllowedAre(w.lobbies[p], receiver, raw);
        IsLobby(w.lobbies, p);
        SendKeeps(w, AllowedRequest(w.lobbies[p], receiver, raw), s, d, a);
      }
    case Deliver(m, at, yes) =>
      DeliverSourced(w, m, at, yes, s, d, a);
      if m in w.net {
        DeliverCaused(w, m, at, yes, s, d, a);
      } else {
        DeliverNothing(w, m, at, yes);
      }
    case Lose(m) =>
      LoseCaused(w, m, s, d, a);
      LoseSourced(w, m, s, d, a);
    case Connected(p, j, session) =>
      if p in w.lobbies && j < |w.lobbies[p].jobs| {
        var l := w.lobbies[p];
        LobbyChange(w, p, l.(table := AddNewServerNext(l.table, session, l.jobs[j].server)), s, d, a);
      }
    case Disconnected(p, session) =>
      if p in w.lobbies {
        var l := w.lobbies[p];
        LobbyChange(w, p, l.(table := RemoveBySessionNext(l.table, session)), s, d, a);
      }
    case StartLobby(p, id) =>
      if p !in w.lobbies {
        LobbyChange(w, p, Lobby(id, Table(map[], map[]), []), s, d, a);
      }
    case StartResponder(p, id, address) =>
      if p !in w.responders {
        ResponderStart(w, p, Responder(id, address), s, d, a);
      }
    case Reregister(reg) =>
  }

  lemma {:induction false} IsLobby(lobbies: map<nat, Lobby>, p: nat)
    requires p in lobbies
    ensures HasLobby(lobbies, lobbies[p].id)
  {
  }

  lemma {:induction false} LoseSourced(w: World, m: Packet, s: Id, d: Id, a: nat)
    requires Sourced(w, s, d, a)
    ensures Sourced(LoseNext(w, m), s, d, a)
  {
    hide NamesDB, Plus, HasLobby, Exchange;
  }

  lemma {:induction false} DeliverNothing(w: World, m: Packet, at: nat, yes: bool)
    requires m !in w.net
    ensures DeliverNext(w, m, at, yes) == w
  {
  }

  // ---- The lobbies' own state -------------------------------------------------------------

  lemma {:induction false} KeptAdd(l: Lobby, session: nat, raw: Id)
    requires Kept(l) && raw < P56
    ensures Kept(l.(table := AddNewServerNext(l.table, session, raw)))
  {
    hide Agrees;
    AddKeeps(l.table, session, raw);
  }

  lemma {:induction false} KeptRemove(l: Lobby, session: nat)
    requires Kept(l)
    ensures Kept(l.(table := RemoveBySessionNext(l.table, session)))
  {
    if session in l.table.bySession {
      var raw :| FiledAs(l.table, raw, session);
      RemoveBySessionKeeps(l.table, raw, session);
    }
  }

  lemma {:induction false} KeptQueue(l: Lobby, job: Job)
    requires Kept(l) && job.server < P56
    ensures Kept(l.(jobs := l.jobs + [job]))
  {
    hide Agrees;
  }

  // A packet gets to no process that is not there, and no fact is forgotten.
  lemma {:induction false} PacketsFound(w: World, m: Packet, at: nat, yes: bool, x: Fact)
    ensures var t := DeliverNext(w, m, at, yes); t.tally[x] >= w.tally[x] && t.lobbies.Keys == w.lobbies.Keys
    ensures var t := LoseNext(w, m); t.tally[x] >= w.tally[x] && t.lobbies.Keys == w.lobbies.Keys
  {
    hide Plus, Exchange, Wanted, TakesJob, RelayReq, RelayAnswer;
  }

  lemma {:induction false} TallyGrows(w: World, step: Step, s: Id, d: Id, a: nat)
    ensures Next(w, step).tally[Queued(s, d, a)] >= w.tally[Queued(s, d, a)]
  {
    hide Send, Requests, AllowedRequest, NamesDB, AddNewServerNext, RemoveBySessionNext, DeliverNext, LoseNext;
    match step
    case Invite(_, _) => AsksOnly(w, step, Queued(s, d, a));
    case Allow(_, _, _) => AsksOnly(w, step, Queued(s, d, a));
    case Deliver(m, at, yes) => PacketsFound(w, m, at, yes, Queued(s, d, a));
    case Lose(m) => PacketsFound(w, m, 0, true, Queued(s, d, a));
    case _ =>
  }

  lemma {:induction false} AllowedAre(l: Lobby, receiver: Id, raw: Id)
    ensures forall m <- AllowedRequest(l, receiver, raw) :: m.ConnectReq? && m.src == l.id && NamesDB(m.dst)
  {
    hide NamesDB;
  }

  // Requests change nothing but the network and their own count.
  lemma {:induction false} SendTally(w: World, reqs: seq<Packet>, x: Fact)
    requires forall m <- reqs :: m.ConnectReq?
    requires !x.Requested?
    ensures var t := Send(w, reqs);
      t.tally[x] == w.tally[x] && t.lobbies == w.lobbies && t.reg == w.reg && t.responders == w.responders
    decreases |reqs|
  {
    hide Plus;
    if reqs != [] {
      SendTally(w.(net := Plus(w.net, reqs[0]), tally := Plus(w.tally, Requested(reqs[0].src, reqs[0].dst))), reqs[1..], x);
    }
  }

  // So the announcements change nothing else either.
  lemma {:induction false} AsksOnly(w: World, step: Step, x: Fact)
    requires step.Invite? || step.Allow?
    requires !x.Requested?
    ensures var t := Next(w, step);
      t.tally[x] == w.tally[x] && t.lobbies == w.lobbies && t.reg == w.reg && t.responders == w.responders
  {
    hide Send, Requests, AllowedRequest, NamesDB;
    match step
    case Invite(p, ids) =>
      if p in w.lobbies {
        RequestsAre(w.lobbies[p], ids);
        SendTally(w, Requests(w.lobbies[p], ids), x);
      }
    case Allow(p, receiver, raw) =>
      if p in w.lobbies {
        AllowedAre(w.lobbies[p], receiver, raw);
        SendTally(w, AllowedRequest(w.lobbies[p], receiver, raw), x);
      }
  }

  // What can happen to one lobby.
  ghost predicate Moves(l: Lobby, l': Lobby) {
    || l' == l
    || (exists session: nat, raw: Id :: raw < P56 && l' == l.(table := AddNewServerNext(l.table, session, raw)))
    || (exists session: nat :: l' == l.(table := RemoveBySessionNext(l.table, session)))
  }

  lemma {:induction false} MovesKeeps(l: Lobby, l': Lobby)
    requires Kept(l) && Moves(l, l')
    ensures Kept(l') && l'.jobs == l.jobs && l'.id == l.id
  {
    hide Kept, AddNewServerNext, RemoveBySessionNext;
    if l' != l {
      if session: nat, raw: Id :| raw < P56 && l' == l.(table := AddNewServerNext(l.table, session, raw)) {
        KeptAdd(l, session, raw);
      } else {
        var session: nat :| l' == l.(table := RemoveBySessionNext(l.table, session));
        KeptRemove(l, session);
      }
    }
  }

  // A job is queued only for an identity the master could relay to.
  lemma {:induction false} ResultIsRelayed(w: World, src: Id, dst: Id, address: nat)
    requires Caused(w, src, dst, address) && Sourced(w, src, dst, address)
    requires Result(0, src, dst, address) in w.net
    ensures dst < P56
  {
  }

  lemma {:induction false} StepMoves(w: World, step: Step, p: nat)
    requires p in w.lobbies && Kept(w.lobbies[p])
    requires !(step.Deliver? && step.m.Result?)
    ensures p in Next(w, step).lobbies && Moves(w.lobbies[p], Next(w, step).lobbies[p])
  {
    hide Send, Requests, AllowedRequest, AddNewServerNext, RemoveBySessionNext, RelayReq, RelayAnswer, Plus, Agrees;
    if step.Invite? || step.Allow? {
      hide Next;
      AsksOnly(w, step, Queued(0, 0, 0));
    }
  }

  lemma {:induction false} NewLobby(w: World, step: Step, p: nat)
    requires p !in w.lobbies
    ensures Backed(Next(w, step), p)
  {
    hide Send, Requests, AllowedRequest, AddNewServerNext, RemoveBySessionNext, DeliverNext, LoseNext, Kept, AllQueued;
    match step
    case Invite(_, _) => AsksOnly(w, step, Queued(0, 0, 0));
    case Allow(_, _, _) => AsksOnly(w, step, Queued(0, 0, 0));
    case Deliver(m, at, yes) => PacketsFound(w, m, at, yes, Queued(0, 0, 0));
    case Lose(m) => PacketsFound(w, m, 0, true, Queued(0, 0, 0));
    case StartLobby(_, id) => EmptyKept(id, w.tally);
    case _ =>
  }

  lemma {:induction false} EmptyKept(id: Id, f: multiset<Fact>)
    ensures var l := Lobby(id, Table(map[], map[]), []); Kept(l) && AllQueued(f, l)
  {
  }

  lemma {:induction false} QueuesOne(f: multiset<Fact>, l: Lobby, job: Job)
    requires AllQueued(f, l)
    ensures AllQueued(Plus(f, Queued(l.id, job.server, job.address)), l.(jobs := l.jobs + [job]))
  {
    hide Plus;
  }

  lemma {:induction false} QueuesElsewhere(f: multiset<Fact>, l: Lobby, fact: Fact)
    requires AllQueued(f, l)
    ensures AllQueued(Plus(f, fact), l)
  {
    hide Plus;
  }

  // A queued job is that of the lobby the answer is for.
  lemma {:induction false} JobBacked(w: World, m: Packet, at: nat, yes: bool, p: nat)
    requires m.Result? && m.dst < P56 && p in w.lobbies && Backed(w, p)
    requires Wanted(w, m, at, yes)
    ensures Backed(ResultNext(w, m, at, yes), p)
  {
    hide Kept, AllQueued, Plus, Exchange;
    var l := w.lobbies[p];
    var f := Plus(w.tally, QueuedAt(at, m.dst, m.address));
    QueuesElsewhere(w.tally, l, QueuedAt(at, m.dst, m.address));
    if p == at {
      KeptQueue(l, Job(m.dst, m.address));
      QueuesOne(f, l, Job(m.dst, m.address));
    } else {
      QueuesElsewhere(f, l, Queued(m.src, m.dst, m.address));
    }
  }

  lemma {:induction false} NoJobBacked(w: World, m: Packet, at: nat, yes: bool, p: nat)
    requires m.Result? && p in w.lobbies && Backed(w, p)
    requires m.code == 0 ==> !Wanted(w, m, at, yes)
    ensures Backed(ResultNext(w, m, at, yes), p)
  {
    hide Kept, AllQueued, Plus, Exchange;
    QueuesElsewhere(w.tally, w.lobbies[p], if m.code != 0 then RefusalSeen(m.src, m.dst) else Discarded(m.src, m.dst, m.address));
  }

  lemma {:induction false} Successful(w: World, m: Packet, at: nat, yes: bool)
    requires m.Result? && Wanted(w, m, at, yes)
    ensures m == Result(0, m.src, m.dst, m.address)
  {
  }

  lemma {:induction false} ResultBacks(w: World, m: Packet, at: nat, yes: bool, p: nat)
    requires Inv(w) && m.Result? && p in w.lobbies
    ensures Backed(DeliverNext(w, m, at, yes), p)
  {
    hide Caused, Sourced, Backed, ResultNext, WithJob, JobsCounted, AllProper, Wanted;
    assert Backed(w, p) && Caused(w, m.src, m.dst, m.address) && Sourced(w, m.src, m.dst, m.address);
    hide Inv;
    if m in w.net {
      if Wanted(w, m, at, yes) {
        Successful(w, m, at, yes);
        ResultIsRelayed(w, m.src, m.dst, m.address);
        JobBacked(w, m, at, yes, p);
      } else {
        NoJobBacked(w, m, at, yes, p);
      }
    }
  }

  // ---- The jobs ---------------------------------------------------------------------------

  lemma {:induction false} ResultCounts(w: World, m: Packet, at: nat, yes: bool, p: nat, d: Id, a: nat)
    requires m.Result? && JobsCounted(w, p, d, a)
    ensures JobsCounted(ResultNext(w, m, at, yes), p, d, a)
  {
    hide Plus, Exchange;
    if m.code == 0 && Wanted(w, m, at, yes) && p == at {
      assert WithJob(w, m, at, yes)[p].jobs == w.lobbies[p].jobs + [Job(m.dst, m.address)];
    }
  }

  lemma {:induction false} DeliverCounts(w: World, m: Packet, at: nat, yes: bool, p: nat, d: Id, a: nat)
    requires JobsCounted(w, p, d, a)
    ensures JobsCounted(DeliverNext(w, m, at, yes), p, d, a)
  {
    hide Plus, Exchange, ResultNext, RelayReq, RelayAnswer;
    if m in w.net && m.Result? {
      ResultCounts(w, m, at, yes, p, d, a);
    }
  }

  lemma {:induction false} StepCounts(w: World, step: Step, p: nat, d: Id, a: nat)
    requires JobsCounted(w, p, d, a)
    ensures JobsCounted(Next(w, step), p, d, a)
  {
    hide Send, Requests, AllowedRequest, AddNewServerNext, RemoveBySessionNext, DeliverNext, Plus, Exchange;
    if step.Invite? || step.Allow? {
      hide Next;
      AsksOnly(w, step, QueuedAt(p, d, a));
    } else if step.Deliver? {
      DeliverCounts(w, step.m, step.at, step.yes, p, d, a);
    }
  }

  lemma {:induction false} NextDelivers(w: World, step: Step)
    requires step.Deliver?
    ensures Next(w, step) == DeliverNext(w, step.m, step.at, step.yes)
  {
  }

  lemma {:induction false} StepBacks(w: World, step: Step, p: nat)
    requires Inv(w)
    ensures Backed(Next(w, step), p)
  {
    hide Caused, Sourced, Next, Kept, Moves;
    var w' := Next(w, step);
    assert Backed(w, p);
    if p !in w.lobbies {
      NewLobby(w, step, p);
    } else if step.Deliver? && step.m.Result? {
      NextDelivers(w, step);
      ResultBacks(w, step.m, step.at, step.yes, p);
    } else {
      StepMoves(w, step, p);
      MovesKeeps(w.lobbies[p], w'.lobbies[p]);
      var l := w'.lobbies[p];
      forall j | 0 <= j < |l.jobs|
        ensures w'.tally[Queued(l.id, l.jobs[j].server, l.jobs[j].address)] > 0
      {
        TallyGrows(w, step, l.id, l.jobs[j].server, l.jobs[j].address);
      }
    }
  }

  lemma {:induction false} NextKeeps(w: World, step: Step)
    requires Inv(w)
    ensures Inv(Next(w, step))
  {
    hide Caused, Sourced, Backed, Next, JobsCounted, AllProper;
    var w' := Next(w, step);
    StepCauses(w, step, 0, 0, 0);
    forall s: Id, d: Id, a: nat
      ensures Caused(w', s, d, a) && Sourced(w', s, d, a)
    {
      StepCauses(w, step, s, d, a);
    }
    forall p: nat, d: Id, a: nat
      ensures JobsCounted(w', p, d, a)
    {
      StepCounts(w, step, p, d, a);
    }
    forall p: nat
      ensures Backed(w', p)
    {
      StepBacks(w, step, p);
    }
    StaysSound(w, step);
  }

  lemma {:induction false} StaysSound(w: World, step: Step)
    requires w.reg.Sound()
    ensures Next(w, step).reg.Sound()
  {
    hide Send, Requests, AllowedRequest, AddNewServerNext, RemoveBySessionNext, RelayReq, RelayAnswer, Plus;
    if step.Invite? || step.Allow? {
      hide Next;
      AsksOnly(w, step, Queued(0, 0, 0));
    }
  }

  lemma {:induction false} RunKeeps(w: World, steps: seq<Step>)
    requires Inv(w)
    ensures Inv(Run(w, steps))
    decreases |steps|
  {
    hide Inv, Next;
    if steps != [] {
      NextKeeps(w, steps[0]);
      RunKeeps(Next(w, steps[0]), steps[1..]);
    }
  }

  lemma {:induction false} Reached(steps: seq<Step>)
    ensures Inv(Run(Start(), steps))
  {
    hide Run;
    RunKeeps(Start(), steps);
  }

  // Every connect job a lobby holds was asked for by a lobby of that identity,
  // was relayed by the master, was accepted by a database server of the
  // identity the job names, and carries that server's own address. And jobs
  // queued are never more than acceptances, those than relays, those than
  // requests.
  lemma {:induction false} ConnectCausality(steps: seq<Step>, p: nat, j: nat)
    requires var w := Run(Start(), steps); p in w.lobbies && j < |w.lobbies[p].jobs|
    ensures var w := Run(Start(), steps); var l := w.lobbies[p]; var job := l.jobs[j]; var f := w.tally;
      && 0 < f[Queued(l.id, job.server, job.address)] <= f[Accepted(l.id, job.server, job.address)]
      && f[Accepted(l.id, job.server, job.address)] <= f[Answered(l.id, job.server)]
      && f[Answered(l.id, job.server)] <= f[Relayed(l.id, job.server)] <= f[Requested(l.id, job.server)]
      && NamesDB(job.server)
      && exists q <- w.responders :: w.responders[q] == Responder(job.server, job.address)
  {
    hide Run, NamesDB;
    Reached(steps);
    var w := Run(Start(), steps);
    assert Backed(w, p);
    var l := w.lobbies[p];
    var job := l.jobs[j];
    assert Caused(w, l.id, job.server, job.address) && Sourced(w, l.id, job.server, job.address);
  }

  // The two indices of every lobby always agree, since the master relays only
  // identities with a clear top byte; so no two entries belong to one server.
  lemma {:induction false} TablesAgree(steps: seq<Step>, p: nat)
    requires p in Run(Start(), steps).lobbies
    ensures var t := Run(Start(), steps).lobbies[p].table;
      && Agrees(t)
      && forall a <- t.byId, b <- t.byId :: Canonical(a) == Canonical(b) ==> a == b
  {
    hide Run, Agrees;
    Reached(steps);
    var w := Run(Start(), steps);
    assert Backed(w, p);
  }

  // After every run the accounts of every lobby, server and address balance, and
  // the jobs each lobby holds are those counted when a success reached a lobby of
  // the asking identity that was not connected to the server and had room.
  lemma {:induction false} EveryRequestAccounted(steps: seq<Step>, s: Id, d: Id, a: nat, p: nat)
    ensures var w := Run(Start(), steps); var net, f := w.net, w.tally;
      && RequestsBalance(net, f, s, d) && RelaysBalance(net, f, s, d)
      && AnswersBalance(net, f, s, d, a) && ResultsBalance(net, f, s, d, a)
      && RefusalsBalance(net, f, s, d)
      && JobsCounted(w, p, d, a)
  {
    hide Run, JobsCounted, RequestsBalance, RelaysBalance, AnswersBalance, ResultsBalance, RefusalsBalance;
    Reached(steps);
    assert Caused(Run(Start(), steps), s, d, a);
  }

  // ---- The announcement --------------------------------------------------------------------

  predicate AlreadyConnected(l: Lobby, raw: Id) {
    NamesDB(raw) && raw in l.table.byId
  }

  // The lobby asks for every announced database server as often as it is
  // announced before the first that is already connected, and for nothing else.
  lemma {:induction false} RequestsExact(l: Lobby, ids: seq<Id>, n: nat, m: Packet)
    requires n <= |ids| && forall raw <- ids[..n] :: !AlreadyConnected(l, raw)
    requires n < |ids| ==> AlreadyConnected(l, ids[n])
    ensures multiset(Requests(l, ids))[m]
      == if m.ConnectReq? && m.src == l.id && NamesDB(m.dst) then multiset(ids[..n])[m.dst] else 0
  {
    hide NamesDB;
    if n > 0 {
      assert ids[..n] == [ids[0]] + ids[1..][..n - 1];
      assert !AlreadyConnected(l, ids[0]);
      RequestsExact(l, ids[1..], n - 1, m);
    }
  }

  // ---- A run that ends with a job ------------------------------------------------------------

  lemma {:induction false} RunFirst(w: World, a: Step, rest: seq<Step>)
    ensures Run(w, [a] + rest) == Run(Next(w, a), rest)
  {
    hide Next;
    assert ([a] + rest)[0] == a && ([a] + rest)[1..] == rest;
  }

  // The lobby is allowed to connect to the server and asks for it.
  function Asked(reg: Reg, p: nat, l: Id, q: nat, d: Id, address: nat): seq<Step> {
    [Reregister(reg)] + ([StartLobby(p, l)] + ([StartResponder(q, d, address)] + [Allow(p, l, d)]))
  }

  function Brokered(p: nat, l: Id, q: nat, d: Id, address: nat): seq<Step> {
    [Deliver(ConnectReq(l, d), 0, true)] + ([Deliver(Forward(l, d), q, true)]
      + ([Deliver(Answer(0, l, d, address), 0, true)] + [Deliver(Result(0, l, d, address), p, true)]))
  }

  // Where the request is.
  ghost predicate Stage(w: World, reg: Reg, p: nat, l: Id, q: nat, d: Id, address: nat, m: Packet) {
    && w.reg == reg && w.lobbies == map[p := Lobby(l, Table(map[], map[]), [])]
    && w.responders == map[q := Responder(d, address)] && w.net == multiset{m}
  }

  lemma {:induction false} AskedReaches(reg: Reg, p: nat, l: Id, q: nat, d: Id, address: nat)
    requires reg.Sound() && NamesDB(d)
    ensures Stage(Run(Start(), Asked(reg, p, l, q, d, address)), reg, p, l, q, d, address, ConnectReq(l, d))
  {
    hide NamesDB, Reg.Sound, Send, Requests, AllowedRequest, DeliverNext, LoseNext, AddNewServerNext, RemoveBySessionNext;
    var w0 := Start();
    var w1 := Next(w0, Reregister(reg));
    var w2 := Next(w1, StartLobby(p, l));
    var w3 := Next(w2, StartResponder(q, d, address));
    RunFirst(w0, Reregister(reg), [StartLobby(p, l)] + ([StartResponder(q, d, address)] + [Allow(p, l, d)]));
    RunFirst(w1, StartLobby(p, l), [StartResponder(q, d, address)] + [Allow(p, l, d)]);
    RunFirst(w2, StartResponder(q, d, address), [Allow(p, l, d)]);
    AskReaches(w3, reg, p, l, q, d, address);
    RunOne(w3, Allow(p, l, d));
  }

  lemma {:induction false} RunOne(w: World, a: Step)
    ensures Run(w, [a]) == Next(w, a)
  {
    hide Next;
    assert [a][1..] == [];
  }

  lemma {:induction false} AskReaches(w: World, reg: Reg, p: nat, l: Id, q: nat, d: Id, address: nat)
    requires NamesDB(d)
    requires w == World(reg, map[p := Lobby(l, Table(map[], map[]), [])], map[q := Responder(d, address)], multiset{}, multiset{})
    ensures Stage(Next(w, Allow(p, l, d)), reg, p, l, q, d, address, ConnectReq(l, d))
  {
    hide NamesDB;
    var t := w.(net := Plus(w.net, ConnectReq(l, d)), tally := Plus(w.tally, Requested(l, d)));
    assert AllowedRequest(w.lobbies[p], l, d) == [ConnectReq(l, d)];
    assert Send(w, [ConnectReq(l, d)]) == t by {
      assert [ConnectReq(l, d)][1..] == [];
      assert Send(t, []) == t;
    }
    assert Next(w, Allow(p, l, d)) == t;
    assert Plus(multiset{}, ConnectReq(l, d)) == multiset{ConnectReq(l, d)};
  }

  lemma {:induction false} DeliverMoves(w: World, reg: Reg, p: nat, l: Id, q: nat, d: Id, address: nat, m: Packet, m': Packet, at: nat)
    requires Stage(w, reg, p, l, q, d, address, m) && l in reg.servers && d in reg.servers
    requires
      || (m == ConnectReq(l, d) && m' == Forward(l, d))
      || (m == Forward(l, d) && m' == Answer(0, l, d, address) && at == q)
      || (m == Answer(0, l, d, address) && m' == Result(0, l, d, address))
    ensures Stage(Next(w, Deliver(m, at, true)), reg, p, l, q, d, address, m')
  {
    hide Plus;
    assert Exchange(w.net, m, [m']) == multiset{m'};
  }

  // Whenever the master knows both and nothing is lost, an allowed request for a
  // database server ends as a connect job with that server's address.
  lemma {:induction false} AllowedRequestEndsAsJob(reg: Reg, p: nat, l: Id, q: nat, d: Id, address: nat)
    requires reg.Sound() && NamesDB(d) && l in reg.servers && d in reg.servers
    ensures var w := Run(Run(Start(), Asked(reg, p, l, q, d, address)), Brokered(p, l, q, d, address));
      p in w.lobbies && w.lobbies[p].jobs == [Job(d, address)]
  {
    hide NamesDB, Stage, Next;
    var w0 := Run(Start(), Asked(reg, p, l, q, d, address));
    var s1, s2 := Deliver(ConnectReq(l, d), 0, true), Deliver(Forward(l, d), q, true);
    var s3, s4 := Deliver(Answer(0, l, d, address), 0, true), Deliver(Result(0, l, d, address), p, true);
    var w1 := Next(w0, s1);
    var w2 := Next(w1, s2);
    var w3 := Next(w2, s3);
    AskedReaches(reg, p, l, q, d, address);
    DeliverMoves(w0, reg, p, l, q, d, address, ConnectReq(l, d), Forward(l, d), 0);
    DeliverMoves(w1, reg, p, l, q, d, address, Forward(l, d), Answer(0, l, d, address), q);
    DeliverMoves(w2, reg, p, l, q, d, address, Answer(0, l, d, address), Result(0, l, d, address), 0);
    RunFirst(w0, s1, [s2] + ([s3] + [s4]));
    RunFirst(w1, s2, [s3] + [s4]);
    RunFirst(w2, s3, [s4]);
    LastDelivers(w3, reg, p, l, q, d, address);
  }

  lemma {:induction false} LastDelivers(w: World, reg: Reg, p: nat, l: Id, q: nat, d: Id, address: nat)
    requires Stage(w, reg, p, l, q, d, address, Result(0, l, d, address))
    ensures var t := Run(w, [Deliver(Result(0, l, d, address), p, true)]);
      p in t.lobbies && t.lobbies[p].jobs == [Job(d, address)]
  {
    hide Plus, Exchange;
    RunOne(w, Deliver(Result(0, l, d, address), p, true));
  }
}
