// What holds of one gate over every run: how the login records, the deadline
// queue and the keys account for each other.
module GateRuns {
  import opened Tallies
  import opened LoginPackets
  import opened Decimals
  import opened LoginKeys
  import opened GateClients

  datatype Fact =
    | Handled(user: nat)
    | AlreadyBound(user: nat)
    | AlreadyPending(user: nat)
    | Inserted(user: nat)
    | KeyRight(user: nat)
    | KeyWrong(user: nat)
    | Reported(user: nat)
    | Expired(user: nat)
    | OfflineSent(user: nat)

  // Which key a record holds, counting the keys from 1, and its deadline.
  datatype Info = Info(serial: nat, due: nat)

  // A gate with its clock and its history: how many keys it has issued, where
  // each pending record came from, and how often each fact happened.
  datatype Trace = Trace(gate: Gate, clock: nat, issued: nat, info: map<nat, Info>, tally: multiset<Fact>)

  datatype Step =
    | Tick(seconds: nat)
    | NewClient(session: nat, room: bool)
    | WillLogin(ticket: Ticket, user: nat)
    | LoginKey(session: nat, user: nat, key: string)
    | Confirm(result: int, client: nat)
    | Timer

  function Start(): Trace {
    Trace(Gate(map[], map[], map[], [], 0), 0, 0, map[], multiset{})
  }

  predicate Uses(g: Gate, session: nat, user: nat) {
    session in g.clients && user !in g.bound && user in g.pending
  }

  function Pop(t: Trace): Trace
    requires t.gate.queue != []
  {
    var user := t.gate.queue[0].user;
    t.(gate := t.gate.(queue := t.gate.queue[1..], pending := t.gate.pending - {user}),
       info := t.info - {user},
       tally := if user in t.gate.pending
         then Plus(Plus(t.tally, OfflineSent(user)), Expired(user)) else Plus(t.tally, OfflineSent(user)))
  }

  predicate Due(t: Trace) {
    t.gate.queue != [] && t.gate.queue[0].due < t.clock
  }

  function Timeout(t: Trace, budget: nat): Trace
    decreases budget
  {
    if budget == 0 || !Due(t) then t else Timeout(Pop(t), budget - 1)
  }

  function Next(t: Trace, s: Step): Trace {
    match s
    case Tick(seconds) => t.(clock := t.clock + seconds)
    case NewClient(session, room) => t.(gate := AddNewUpClientNext(t.gate, session, room).0)
    case WillLogin(ticket, user) =>
      var g := WillLoginNext(t.gate, ticket, user, t.clock).0;
      if user in t.gate.bound
      then t.(gate := g, tally := Plus(Plus(t.tally, Handled(user)), AlreadyBound(user)))
      else if user in t.gate.pending
      then t.(gate := g, issued := t.issued + 1, tally := Plus(Plus(t.tally, Handled(user)), AlreadyPending(user)))
      else t.(gate := g, issued := t.issued + 1,
              info := t.info[user := Info(t.issued + 1, t.clock + LOGIN_TIMEOUT)],
              tally := Plus(Plus(t.tally, Handled(user)), Inserted(user)))
    case LoginKey(session, user, key) =>
      var (g, outcome) := LoginKeyNext(t.gate, session, user, key);
      if !Uses(t.gate, session, user) then t.(gate := g)
      else t.(gate := g, info := t.info - {user},
              tally := if outcome == KeyOutcome.Reported
                then Plus(Plus(t.tally, KeyRight(user)), Fact.Reported(user)) else Plus(t.tally, KeyWrong(user)))
    case Confirm(result, client) => t.(gate := ConfirmNext(t.gate, result, client).0)
    case Timer => Timeout(t, EXPIRE_BATCH)
  }

  function Run(t: Trace, steps: seq<Step>): Trace
    decreases |steps|
  {
    if steps == [] then t else Run(Next(t, steps[0]), steps[1..])
  }

  function Queued(queue: seq<Entry>, user: nat): nat {
    if queue == [] then 0 else (if queue[0].user == user then 1 else 0) + Queued(queue[1..], user)
  }

  // The accounts of one user, given the number of its pending records, logins
  // and queue entries. Every record inserted is pending, was used up by an
  // attempt with the right or a wrong key, or expired; every insertion has its
  // entry in the queue or its report to the master; a user is admitted at most
  // once, and each admission is reported.
  ghost predicate Tallied(f: multiset<Fact>, u: nat, pending: nat, bound: nat, queued: nat) {
    && f[Handled(u)] == f[AlreadyBound(u)] + f[AlreadyPending(u)] + f[Inserted(u)]
    && f[Inserted(u)] == pending + f[KeyRight(u)] + f[KeyWrong(u)] + f[Expired(u)]
    && f[Inserted(u)] == queued + f[OfflineSent(u)]
    && f[KeyRight(u)] == bound
    && f[Fact.Reported(u)] == f[KeyRight(u)]
  }

  ghost predicate Balanced(t: Trace, u: nat) {
    Tallied(t.tally, u, Once(u in t.gate.pending), Once(u in t.gate.bound), Queued(t.gate.queue, u))
  }

  // A pending record holds the key it was issued and has its own entry in the
  // queue.
  ghost predicate Backed(t: Trace, u: nat) {
    u in t.gate.pending ==>
      && u in t.info
      && t.gate.pending[u] == Key(t.info[u].serial)
      && 1 <= t.info[u].serial <= t.issued
      && Entry(t.info[u].due, u) in t.gate.queue
  }

  ghost predicate Sorted(t: Trace) {
    var q := t.gate.queue;
    && (forall i, j | 0 <= i < j < |q| :: q[i].due <= q[j].due)
    && (forall i | 0 <= i < |q| :: q[i].due <= t.clock + LOGIN_TIMEOUT)
  }

  ghost predicate Inv(t: Trace) {
    && t.gate.counter == t.issued % KEY_COUNT
    && Sorted(t)
    && (forall u: nat :: Balanced(t, u))
    && (forall u: nat :: Backed(t, u))
  }

  lemma {:induction false} QueuedPush(q: seq<Entry>, e: Entry, u: nat)
    ensures Queued(q + [e], u) == Queued(q, u) + Once(e.user == u)
  {
    if q != [] {
      QueuedPush(q[1..], e, u);
      assert (q + [e])[1..] == q[1..] + [e];
    }
  }

  lemma {:induction false} PopTallied(f: multiset<Fact>, user: nat, had: bool, u: nat, p: nat, b: nat, q: nat)
    requires Tallied(f, u, p, b, q)
    requires user == u ==> q > 0 && (had ==> p > 0)
    ensures var n := Once(user == u); var g := Plus(f, OfflineSent(user));
      Tallied(if had then Plus(g, Expired(user)) else g, u, if had then p - n else p, b, q - n)
  {
    hide Plus;
  }

  lemma {:induction false} PopBalanced(t: Trace, u: nat)
    requires Balanced(t, u) && t.gate.queue != []
    ensures Balanced(Pop(t), u)
  {
    hide Plus, Tallied;
    var user := t.gate.queue[0].user;
    PopTallied(t.tally, user, user in t.gate.pending, u,
      Once(u in t.gate.pending), Once(u in t.gate.bound), Queued(t.gate.queue, u));
  }

  lemma {:induction false} PopBacked(t: Trace, u: nat)
    requires Backed(t, u) && t.gate.queue != []
    ensures Backed(Pop(t), u)
  {
    hide Key;
    var q := t.gate.queue;
    if u in Pop(t).gate.pending {
      assert q == [q[0]] + q[1..];
    }
  }

  lemma {:induction false} PopKeeps(t: Trace)
    requires Inv(t) && t.gate.queue != []
    ensures Inv(Pop(t))
  {
    hide Balanced, Backed;
    var t' := Pop(t);
    forall u: nat
      ensures Balanced(t', u) && Backed(t', u)
    {
      PopBalanced(t, u);
      PopBacked(t, u);
    }
  }

  lemma {:induction false} TimeoutKeeps(t: Trace, budget: nat)
    requires Inv(t)
    ensures Inv(Timeout(t, budget))
    decreases budget
  {
    hide Inv;
    if budget != 0 && Due(t) {
      PopKeeps(t);
      TimeoutKeeps(Pop(t), budget - 1);
    }
  }

  // The effect of a login announcement on the parts the accounts speak of.
  lemma {:induction false} WillLoginEffect(g: Gate, ticket: Ticket, user: nat, now: nat)
    ensures var g' := WillLoginNext(g, ticket, user, now).0;
      && g'.bound == g.bound
      && g'.counter == (if user in g.bound then g.counter else (g.counter + 1) % KEY_COUNT)
      && (user in g.bound || user in g.pending ==> g'.pending == g.pending && g'.queue == g.queue)
      && (user !in g.bound && user !in g.pending ==>
            && g'.pending == g.pending[user := Decimal(g'.counter)]
            && g'.queue == g.queue + [Entry(now + LOGIN_TIMEOUT, user)])
  {
    hide Decimal;
  }

  lemma {:induction false} RefusalTallied(f: multiset<Fact>, user: nat, bound: bool, u: nat, p: nat, b: nat, q: nat)
    requires Tallied(f, u, p, b, q)
    ensures Tallied(Plus(Plus(f, Handled(user)), if bound then AlreadyBound(user) else AlreadyPending(user)), u, p, b, q)
  {
    hide Plus;
  }

  lemma {:induction false} InsertTallied(f: multiset<Fact>, user: nat, u: nat, p: nat, b: nat, q: nat)
    requires Tallied(f, u, p, b, q)
    ensures var n := Once(user == u); Tallied(Plus(Plus(f, Handled(user)), Inserted(user)), u, p + n, b, q + n)
  {
    hide Plus;
  }

  lemma {:induction false} WillLoginBalanced(t: Trace, ticket: Ticket, user: nat, u: nat)
    requires Balanced(t, u)
    ensures Balanced(Next(t, Step.WillLogin(ticket, user)), u)
  {
    hide Decimal, WillLoginNext, Queued, Plus, Tallied;
    var p, b, q := Once(u in t.gate.pending), Once(u in t.gate.bound), Queued(t.gate.queue, u);
    WillLoginEffect(t.gate, ticket, user, t.clock);
    QueuedPush(t.gate.queue, Entry(t.clock + LOGIN_TIMEOUT, user), u);
    RefusalTallied(t.tally, user, user in t.gate.bound, u, p, b, q);
    InsertTallied(t.tally, user, u, p, b, q);
  }

  // An attempt changes nothing unless it uses a record up.
  lemma {:induction false} LoginKeyEffect(g: Gate, session: nat, user: nat, key: string)
    ensures var (g', outcome) := LoginKeyNext(g, session, user, key);
      && g'.queue == g.queue && g'.counter == g.counter
      && (outcome == KeyOutcome.Reported <==> Uses(g, session, user) && g.pending[user] == key)
      && g'.pending == (if Uses(g, session, user) then g.pending - {user} else g.pending)
      && g'.bound == (if outcome == KeyOutcome.Reported then g.bound[user := session] else g.bound)
  {
  }

  lemma {:induction false} AttemptTallied(f: multiset<Fact>, user: nat, right: bool, u: nat, p: nat, b: nat, q: nat)
    requires Tallied(f, u, p, b, q) && (user == u ==> p > 0)
    ensures var n := Once(user == u);
      Tallied(if right then Plus(Plus(f, KeyRight(user)), Fact.Reported(user)) else Plus(f, KeyWrong(user)),
        u, p - n, if right then b + n else b, q)
  {
    hide Plus;
  }

  lemma {:induction false} LoginKeyBalanced(t: Trace, session: nat, user: nat, key: string, u: nat)
    requires Balanced(t, u)
    ensures Balanced(Next(t, LoginKey(session, user, key)), u)
  {
    hide Queued, Plus, LoginKeyNext, Tallied;
    var p, b, q := Once(u in t.gate.pending), Once(u in t.gate.bound), Queued(t.gate.queue, u);
    LoginKeyEffect(t.gate, session, user, key);
    if Uses(t.gate, session, user) {
      AttemptTallied(t.tally, user, t.gate.pending[user] == key, u, p, b, q);
    }
  }

  lemma {:induction false} NextBalanced(t: Trace, s: Step, u: nat)
    requires Balanced(t, u) && !s.Timer?
    ensures Balanced(Next(t, s), u)
  {
    match s
    case WillLogin(ticket, user) => WillLoginBalanced(t, ticket, user, u);
    case LoginKey(session, user, key) => LoginKeyBalanced(t, session, user, key, u);
    case _ =>
  }

  lemma {:induction false} WillLoginBacked(t: Trace, ticket: Ticket, user: nat, u: nat)
    requires Backed(t, u) && t.gate.counter == t.issued % KEY_COUNT
    ensures Backed(Next(t, Step.WillLogin(ticket, user)), u)
  {
    hide Decimal, WillLoginNext, Plus;
    WillLoginEffect(t.gate, ticket, user, t.clock);
  }

  lemma {:induction false} NextBacked(t: Trace, s: Step, u: nat)
    requires Backed(t, u) && t.gate.counter == t.issued % KEY_COUNT && !s.Timer?
    ensures Backed(Next(t, s), u)
  {
    if s.WillLogin? {
      hide Next;
      WillLoginBacked(t, s.ticket, s.user, u);
    } else {
      hide Decimal, WillLoginNext, LoginKeyNext, Timeout, Plus, Key;
      if s.LoginKey? {
        LoginKeyEffect(t.gate, s.session, s.user, s.key);
      }
    }
  }

  lemma {:induction false} WillLoginSorted(t: Trace, ticket: Ticket, user: nat)
    requires Sorted(t) && t.gate.counter == t.issued % KEY_COUNT
    ensures var t' := Next(t, Step.WillLogin(ticket, user)); Sorted(t') && t'.gate.counter == t'.issued % KEY_COUNT
  {
    hide Decimal, WillLoginNext, Plus;
    WillLoginEffect(t.gate, ticket, user, t.clock);
  }

  lemma {:induction false} NextSorted(t: Trace, s: Step)
    requires Sorted(t) && t.gate.counter == t.issued % KEY_COUNT && !s.Timer?
    ensures var t' := Next(t, s); Sorted(t') && t'.gate.counter == t'.issued % KEY_COUNT
  {
    if s.WillLogin? {
      hide Next, Sorted;
      WillLoginSorted(t, s.ticket, s.user);
    } else {
      hide Decimal, WillLoginNext, LoginKeyNext, Timeout, Plus;
      if s.LoginKey? {
        LoginKeyEffect(t.gate, s.session, s.user, s.key);
      }
    }
  }

  lemma {:induction false} EventKeeps(t: Trace, s: Step)
    requires Inv(t) && !s.Timer?
    ensures Inv(Next(t, s))
  {
    hide Balanced, Backed, Sorted, Next;
    NextSorted(t, s);
    forall u: nat
      ensures Balanced(Next(t, s), u) && Backed(Next(t, s), u)
    {
      NextBalanced(t, s, u);
      NextBacked(t, s, u);
    }
  }

  lemma {:induction false} NextKeeps(t: Trace, s: Step)
    requires Inv(t)
    ensures Inv(Next(t, s))
  {
    hide Inv, Timeout;
    if s.Timer? {
      TimeoutKeeps(t, EXPIRE_BATCH);
    } else {
      EventKeeps(t, s);
    }
  }

  lemma {:induction false} RunKeeps(t: Trace, steps: seq<Step>)
    requires Inv(t)
    ensures Inv(Run(t, steps))
    decreases |steps|
  {
    hide Inv, Next;
    if steps != [] {
      NextKeeps(t, steps[0]);
      RunKeeps(Next(t, steps[0]), steps[1..]);
    }
  }

  lemma {:induction false} Accounts(steps: seq<Step>, u: nat)
    ensures Balanced(Run(Start(), steps), u)
    ensures Backed(Run(Start(), steps), u)
    ensures Sorted(Run(Start(), steps))
  {
    hide Run, Balanced, Backed;
    StartKept();
    RunKeeps(Start(), steps);
  }

  lemma {:induction false} StartKept()
    ensures Inv(Start())
  {
    forall u: nat
      ensures Balanced(Start(), u)
    {
      assert Queued([], u) == 0;
    }
  }

  // ---- Deadlines --------------------------------------------------------------------

  // The history follows the timer call that the gate makes.
  lemma {:induction false} TimeoutIsExpire(t: Trace, budget: nat)
    ensures Timeout(t, budget).gate == Expire(t.gate, t.clock, budget).0
    ensures Timeout(t, budget).clock == t.clock && Timeout(t, budget).issued == t.issued
    decreases budget
  {
    if budget != 0 && Due(t) {
      TimeoutIsExpire(Pop(t), budget - 1);
    }
  }

  ghost predicate Ordered(q: seq<Entry>) {
    forall i, j | 0 <= i < j < |q| :: q[i].due <= q[j].due
  }

  ghost predicate Overdue(q: seq<Entry>, now: nat, u: nat) {
    exists i | 0 <= i < |q| :: q[i].user == u && q[i].due < now
  }

  // A timer call pops at most its budget. When it pops fewer, the records gone
  // are exactly those of users with an overdue entry, their own or an earlier
  // one, and no overdue entry is left.
  lemma {:induction false} ExpireExact(g: Gate, now: nat, budget: nat, u: nat)
    requires Ordered(g.queue)
    ensures var r := Expire(g, now, budget);
      && |r.1| <= budget
      && r.0.pending.Keys <= g.pending.Keys
      && (|r.1| < budget ==>
            && (u in r.0.pending <==> u in g.pending && !Overdue(g.queue, now, u))
            && !Overdue(r.0.queue, now, u))
    decreases budget
  {
    if g.queue != [] && budget != 0 && g.queue[0].due < now {
      var user := g.queue[0].user;
      var g' := g.(queue := g.queue[1..], pending := g.pending - {user});
      assert g.queue == [g.queue[0]] + g'.queue;
      ExpireExact(g', now, budget - 1, u);
      OverdueFront(g.queue, now, u);
    } else if g.queue != [] && budget != 0 {
      assert forall i | 0 <= i < |g.queue| :: g.queue[0].due <= g.queue[i].due;
    }
  }

  lemma {:induction false} OverdueFront(q: seq<Entry>, now: nat, u: nat)
    requires q != []
    ensures Overdue(q, now, u) <==> (q[0].user == u && q[0].due < now) || Overdue(q[1..], now, u)
  {
    if Overdue(q[1..], now, u) {
      var i :| 0 <= i < |q[1..]| && q[1..][i].user == u && q[1..][i].due < now;
      assert q[i + 1] == q[1..][i];
    }
    if Overdue(q, now, u) {
      var i :| 0 <= i < |q| && q[i].user == u && q[i].due < now;
      assert i > 0 ==> q[1..][i - 1] == q[i];
    }
  }

  // After any run, a timer call that stops before its limit leaves only records
  // that were added at most five seconds ago.
  lemma {:induction false} SurvivorsAreYoung(steps: seq<Step>, u: nat)
    requires var t := Run(Start(), steps);
      var r := Expire(t.gate, t.clock, EXPIRE_BATCH); |r.1| < EXPIRE_BATCH && u in r.0.pending
    ensures var t := Run(Start(), steps); u in t.info && t.info[u].due >= t.clock
  {
    hide Run, Expire, Balanced;
    var t := Run(Start(), steps);
    Accounts(steps, u);
    ExpireExact(t.gate, t.clock, EXPIRE_BATCH, u);
    var e := Entry(t.info[u].due, u);
    var i :| 0 <= i < |t.gate.queue| && t.gate.queue[i] == e;
  }

  // The timer is the only step that takes deadlines from the queue. Nothing in
  // the program calls it, so there the queue only grows: no record expires, the
  // master is never told OFFLINE, and the deadline of every user that logged in
  // is still queued.
  lemma {:induction false} QueueNeedsTimer(steps: seq<Step>, u: nat)
    requires forall i :: 0 <= i < |steps| ==> !steps[i].Timer?
    ensures var t := Run(Start(), steps);
      && t.tally[OfflineSent(u)] == 0 && t.tally[Expired(u)] == 0
      && Queued(t.gate.queue, u) == t.tally[Inserted(u)]
      && (u in t.gate.bound ==> t.gate.queue != [])
  {
    hide Run;
    NoTimerNoOffline(Start(), steps, u);
    Accounts(steps, u);
  }

  lemma {:induction false} NoTimerNoOffline(t: Trace, steps: seq<Step>, u: nat)
    requires forall i :: 0 <= i < |steps| ==> !steps[i].Timer?
    ensures var t' := Run(t, steps);
      t'.tally[OfflineSent(u)] == t.tally[OfflineSent(u)] && t'.tally[Expired(u)] == t.tally[Expired(u)]
    decreases |steps|
  {
    hide Next;
    if steps != [] {
      EventSendsNoOffline(t, steps[0], u);
      NoTimerNoOffline(Next(t, steps[0]), steps[1..], u);
    }
  }

  lemma {:induction false} EventSendsNoOffline(t: Trace, s: Step, u: nat)
    requires !s.Timer?
    ensures var t' := Next(t, s);
      t'.tally[OfflineSent(u)] == t.tally[OfflineSent(u)] && t'.tally[Expired(u)] == t.tally[Expired(u)]
  {
    hide Plus, WillLoginNext, LoginKeyNext;
  }

  // Where the timer is called, and once the queue has run empty, the master has
  // been told OFFLINE for every record there ever was, and so also for every user
  // that logged in.
  lemma {:induction false} LoggedInUsersTimeOutToo(steps: seq<Step>, u: nat)
    requires var t := Run(Start(), steps); t.gate.queue == [] && u in t.gate.bound
    ensures Run(Start(), steps).tally[OfflineSent(u)] >= 1
  {
    hide Run;
    Accounts(steps, u);
  }

  // ---- Keys -------------------------------------------------------------------------

  // The key handed to the login server opens the gate unless the user was
  // already expected; then it does so only when a multiple of 2^32 keys has been
  // issued since the record was made.
  lemma {:induction false} HandedOutKeyOpens(steps: seq<Step>, ticket: Ticket, user: nat)
    requires var t := Run(Start(), steps); user !in t.gate.bound
    ensures var t := Run(Start(), steps);
      var (g, reply) := WillLoginNext(t.gate, ticket, user, t.clock);
      && user in g.pending && reply.WillLoginRes? && reply.result == 0
      && (user in t.gate.pending ==> user in t.info)
      && (reply.key == g.pending[user] <==>
          user !in t.gate.pending || (t.issued + 1) % KEY_COUNT == t.info[user].serial % KEY_COUNT)
  {
    hide Run, Balanced, Decimal;
    var t := Run(Start(), steps);
    RunCounter(steps);
    Accounts(steps, user);
    if user in t.gate.pending {
      KeysRepeat(t.issued + 1, t.info[user].serial);
    }
  }

  lemma {:induction false} RunCounter(steps: seq<Step>)
    ensures Run(Start(), steps).gate.counter == Run(Start(), steps).issued % KEY_COUNT
  {
    hide Run, Balanced, Backed, Sorted;
    StartKept();
    RunKeeps(Start(), steps);
  }

  // ---- What a session sees ------------------------------------------------------------

  // Whether the handlers answer that a session is to be disconnected.
  predicate Kicks(g: Gate, step: Step, s: nat) {
    match step
    case LoginKey(session, user, key) => session == s && LoginKeyNext(g, session, user, key).1 == Kicked
    case Confirm(result, client) => client == s && ConfirmNext(g, result, client).1
    case _ => false
  }

  // Whether a client is turned away: its key does not open the gate, or the
  // master refuses it.
  predicate TurnedAway(g: Gate, step: Step, s: nat) {
    && s in g.clients
    && match step
       case LoginKey(session, user, key) => session == s && !Opens(g, s, user, key)
       case Confirm(result, client) => client == s && result != 0
       case _ => false
  }

  function TimesKicked(t: Trace, steps: seq<Step>, s: nat): nat
    decreases |steps|
  {
    if steps == [] then 0 else Once(Kicks(t.gate, steps[0], s)) + TimesKicked(Next(t, steps[0]), steps[1..], s)
  }

  function TimesTurnedAway(t: Trace, steps: seq<Step>, s: nat): nat
    decreases |steps|
  {
    if steps == [] then 0 else Once(TurnedAway(t.gate, steps[0], s)) + TimesTurnedAway(Next(t, steps[0]), steps[1..], s)
  }

  // What the steps say about one session: it connects, its key opens the gate, or
  // the master confirms it.
  function Told(g: Gate, step: Step, s: nat): map<nat, Client> {
    match step
    case NewClient(session, room) =>
      if session == s && s !in g.clients && room then map[s := Client(0, JUST_CONNECT)] else map[]
    case LoginKey(session, user, key) =>
      if session == s && Opens(g, s, user, key) then map[s := Client(user, WAITING_CONFIRM)] else map[]
    case Confirm(result, client) =>
      if client == s && s in g.clients && result == 0 then map[s := Client(g.clients[s].user, LOGINED)] else map[]
    case _ => map[]
  }

  // The last word on it.
  function LastTold(t: Trace, steps: seq<Step>, s: nat): (r: map<nat, Client>)
    decreases |steps|
  {
    if steps == [] then map[]
    else
      var later := LastTold(Next(t, steps[0]), steps[1..], s);
      if s in later then later else Told(t.gate, steps[0], s)
  }

  lemma {:induction false} TimeoutLeavesClients(t: Trace, budget: nat)
    ensures Timeout(t, budget).gate.clients == t.gate.clients
    decreases budget
  {
    hide Plus;
    if budget != 0 && Due(t) {
      TimeoutLeavesClients(Pop(t), budget - 1);
    }
  }

  lemma {:induction false} WillLoginLeaves(g: Gate, ticket: Ticket, user: nat, now: nat)
    ensures WillLoginNext(g, ticket, user, now).0.clients == g.clients
  {
    hide Decimal;
  }

  lemma {:induction false} StepTold(t: Trace, step: Step, s: nat)
    ensures var u, m := Next(t, step).gate.clients, Told(t.gate, step, s);
      if s in m then s in u && u[s] == m[s] else (s in u <==> s in t.gate.clients) && (s in u ==> u[s] == t.gate.clients[s])
    ensures Kicks(t.gate, step, s) <==> TurnedAway(t.gate, step, s)
  {
    hide Timeout, Plus, Decimal, WillLoginNext;
    if step.WillLogin? {
      WillLoginLeaves(t.gate, step.ticket, step.user, t.clock);
    }
    if step.Timer? {
      TimeoutLeavesClients(t, EXPIRE_BATCH);
    }
  }

  lemma {:induction false} RunTold(t: Trace, steps: seq<Step>, s: nat)
    ensures var u, m := Run(t, steps).gate.clients, LastTold(t, steps, s);
      if s in m then s in u && u[s] == m[s] else (s in u <==> s in t.gate.clients) && (s in u ==> u[s] == t.gate.clients[s])
    ensures TimesKicked(t, steps, s) == TimesTurnedAway(t, steps, s)
    decreases |steps|
  {
    hide Next, Told, Kicks, TurnedAway;
    if steps != [] {
      StepTold(t, steps[0], s);
      RunTold(Next(t, steps[0]), steps[1..], s);
    }
  }

  // Over every run: a session is told to go as often as its key did not open the
  // gate or the master refused it, and what the gate knows of it is the last thing
  // that was said about it.
  lemma {:induction false} SessionsAsTold(steps: seq<Step>, s: nat)
    ensures TimesKicked(Start(), steps, s) == TimesTurnedAway(Start(), steps, s)
    ensures var u, m := Run(Start(), steps).gate.clients, LastTold(Start(), steps, s);
      (s in u <==> s in m) && (s in u ==> u[s] == m[s])
  {
    hide Run, LastTold;
    RunTold(Start(), steps, s);
  }

  lemma {:induction false} ExpireTakes(g: Gate, now: nat, budget: nat)
    ensures var r := Expire(g, now, budget);
      && |r.1| <= |g.queue| && r.0.queue == g.queue[|r.1|..]
      && r.0 == g.(queue := r.0.queue, pending := r.0.pending)
    decreases budget
  {
    if g.queue != [] && budget != 0 && g.queue[0].due < now {
      var g' := g.(queue := g.queue[1..], pending := g.pending - {g.queue[0].user});
      ExpireTakes(g', now, budget - 1);
      var rest := Expire(g', now, budget - 1);
      assert g.queue[1..][|rest.1|..] == g.queue[1 + |rest.1|..];
    }
  }

  lemma {:induction false} ExpireForgets(g: Gate, now: nat, budget: nat, u: nat)
    ensures var r := Expire(g, now, budget);
      (u in r.0.pending <==> u in g.pending && u !in r.1) && (u in r.0.pending ==> r.0.pending[u] == g.pending[u])
    decreases budget
  {
    if g.queue != [] && budget != 0 && g.queue[0].due < now {
      ExpireForgets(g.(queue := g.queue[1..], pending := g.pending - {g.queue[0].user}), now, budget - 1, u);
    }
  }

  lemma {:induction false} ExpireCounts(g: Gate, now: nat, budget: nat, u: nat)
    ensures var r := Expire(g, now, budget);
      multiset(r.1)[u] + Queued(r.0.queue, u) == Queued(g.queue, u)
    decreases budget
  {
    if g.queue != [] && budget != 0 && g.queue[0].due < now {
      var g' := g.(queue := g.queue[1..], pending := g.pending - {g.queue[0].user});
      ExpireCounts(g', now, budget - 1, u);
      var rest := Expire(g', now, budget - 1);
      assert multiset([g.queue[0].user] + rest.1) == multiset{g.queue[0].user} + multiset(rest.1);
    }
  }

  // The users a timer call reports are those of the deadlines it takes from the
  // front of the queue, each as often as it has one there, and exactly theirs are
  // the records that are gone.
  lemma {:induction false} ExpireReports(g: Gate, now: nat, budget: nat, u: nat)
    ensures var r := Expire(g, now, budget);
      && |r.1| <= |g.queue| && r.0.queue == g.queue[|r.1|..]
      && multiset(r.1)[u] + Queued(r.0.queue, u) == Queued(g.queue, u)
      && (u in r.0.pending <==> u in g.pending && u !in r.1)
      && (u in r.0.pending ==> r.0.pending[u] == g.pending[u])
      && r.0 == g.(queue := r.0.queue, pending := r.0.pending)
  {
    hide Expire, Queued;
    ExpireTakes(g, now, budget);
    ExpireForgets(g, now, budget, u);
    ExpireCounts(g, now, budget, u);
  }

  lemma {:induction false} ExpireOne(t: Trace, budget: nat, u: nat)
    requires budget != 0 && Due(t)
    ensures multiset(Expire(t.gate, t.clock, budget).1)[u]
      == Once(u == t.gate.queue[0].user) + multiset(Expire(Pop(t).gate, t.clock, budget - 1).1)[u]
  {
    hide Plus;
    var user, rest := t.gate.queue[0].user, Expire(Pop(t).gate, t.clock, budget - 1).1;
    assert Expire(t.gate, t.clock, budget).1 == [user] + rest;
    assert multiset([user] + rest) == multiset{user} + multiset(rest);
  }

  lemma {:induction false} PopReports(t: Trace, u: nat)
    requires t.gate.queue != []
    ensures var t' := Pop(t);
      t'.tally[OfflineSent(u)] == t.tally[OfflineSent(u)] + Once(u == t.gate.queue[0].user) && t'.clock == t.clock
  {
    hide Plus;
  }

  // The history counts what the timer call of the gate reports.
  lemma {:induction false} TimeoutReports(t: Trace, budget: nat, u: nat)
    ensures Timeout(t, budget).tally[OfflineSent(u)]
      == t.tally[OfflineSent(u)] + multiset(Expire(t.gate, t.clock, budget).1)[u]
    decreases budget
  {
    hide Pop;
    if budget != 0 && Due(t) {
      PopReports(t, u);
      ExpireOne(t, budget, u);
      hide Expire;
      TimeoutReports(Pop(t), budget - 1, u);
    }
  }
}
