// Assigning sessions to threads by load (NetWork/LEpollThreadManager.cpp; the
// receive and send thread managers select and count in the same way).
module ThreadPools {
  import opened Tallies

  const LOAD_LIMIT: int := 0x0fff_ffff

  // The first of the least loaded threads below the limit, or -1.
  predicate IsSelected(counts: seq<int>, t: int) {
    if t == -1 then forall i | 0 <= i < |counts| :: counts[i] >= LOAD_LIMIT
    else
      && 0 <= t < |counts|
      && counts[t] < LOAD_LIMIT
      && (forall i | 0 <= i < |counts| :: counts[t] <= counts[i])
      && (forall i | 0 <= i < t :: counts[t] < counts[i])
  }

  function Selected(counts: seq<int>): (t: int)
    ensures IsSelected(counts, t)
  {
    if counts == [] then -1
    else
      var n := |counts| - 1;
      var t := Selected(counts[..n]);
      if counts[n] < (if t == -1 then LOAD_LIMIT else counts[t]) then n else t
  }

  lemma {:induction false} SelectionUnique(counts: seq<int>, t: int, u: int)
    requires IsSelected(counts, t) && IsSelected(counts, u)
    ensures t == u
  {
    if t != -1 && u != -1 {
      assert counts[t] <= counts[u] && counts[u] <= counts[t];
    }
  }

  class LThreadManager {
    const counts: array<int>

    constructor (n: nat)
      ensures fresh(counts) && counts.Length == (if n == 0 then 1 else n)
      ensures forall i | 0 <= i < counts.Length :: counts[i] == 0
    {
      counts := new int[if n == 0 then 1 else n](_ => 0);
    }

    method SelectThread() returns (t: int)
      ensures t == Selected(counts[..])
    {
      hide Selected;
      var least := LOAD_LIMIT;
      t := -1;
      for i := 0 to counts.Length
        invariant IsSelected(counts[..i], t)
        invariant least == if t == -1 then LOAD_LIMIT else counts[t]
      {
        if counts[i] < least {
          least, t := counts[i], i;
        }
      }
      assert counts[..counts.Length] == counts[..];
      SelectionUnique(counts[..], t, Selected(counts[..]));
    }

    // The caller notes the thread in its session.
    method BindThread() returns (t: int)
      modifies counts
      ensures t == Selected(old(counts[..]))
      ensures counts[..] == if t == -1 then old(counts[..]) else old(counts[..])[t := old(counts[t]) + 1]
    {
      t := SelectThread();
      if t < 0 || t >= counts.Length {
        return;
      }
      counts[t] := counts[t] + 1;
    }

    // The session's thread after the call is -1.
    method UnBindThread(t: int) returns (bound: bool)
      modifies counts
      ensures bound <==> 0 <= t < counts.Length
      ensures counts[..] == if bound then old(counts[..])[t := old(counts[t]) - 1] else old(counts[..])
    {
      if t < 0 || t >= counts.Length {
        return false;
      }
      counts[t] := counts[t] - 1;
      return true;
    }
  }

  // ---- Runs of one pool ----------------------------------------------------------------

  // The counts, the thread each session notes (-1 for none), and as history the
  // bindings that were overwritten by binding the session again.
  datatype Load = Load(counts: seq<int>, thread: map<nat, int>, leaked: multiset<int>)

  datatype Step = Bind(s: nat) | Unbind(s: nat)

  function ThreadOf(l: Load, s: nat): int {
    if s in l.thread then l.thread[s] else -1
  }

  function Next(l: Load, step: Step): Load {
    match step
    case Bind(s) =>
      var t := Selected(l.counts);
      if t == -1 then l
      else
        var before := ThreadOf(l, s);
        Load(l.counts[t := l.counts[t] + 1], l.thread[s := t],
          if before == -1 then l.leaked else Plus(l.leaked, before))
    case Unbind(s) =>
      var t := ThreadOf(l, s);
      if t < 0 || t >= |l.counts| then l
      else l.(counts := l.counts[t := l.counts[t] - 1], thread := l.thread[s := -1])
  }

  function Run(l: Load, steps: seq<Step>): Load
    decreases |steps|
  {
    if steps == [] then l else Run(Next(l, steps[0]), steps[1..])
  }

  function Start(n: nat): Load {
    Load(Zeros(n), map[], multiset{})
  }

  function Zeros(n: nat): (r: seq<int>)
    ensures |r| == n && forall i | 0 <= i < n :: r[i] == 0
  {
    if n == 0 then [] else [0] + Zeros(n - 1)
  }

  function Holders(thread: map<nat, int>, t: int): set<nat> {
    set s <- thread | thread[s] == t
  }

  // A thread's count is the number of sessions that note it, plus one for each
  // binding to it that was overwritten.
  ghost predicate Counted(l: Load, t: int) {
    0 <= t < |l.counts| ==> l.counts[t] == |Holders(l.thread, t)| + l.leaked[t]
  }

  ghost predicate Inv(l: Load) {
    && (forall t :: Counted(l, t))
    && (forall s <- l.thread :: -1 <= l.thread[s] < |l.counts|)
  }

  lemma {:induction false} SplitOff(a: set<nat>, s: nat)
    ensures |a| == |a - {s}| + Once(s in a)
  {
    if s in a {
      assert a == (a - {s}) + {s};
    } else {
      assert a == a - {s};
    }
  }

  lemma {:induction false} HoldersUpdate(thread: map<nat, int>, s: nat, u: int, t: int)
    ensures |Holders(thread[s := u], t)| + Once(s in thread && thread[s] == t) == |Holders(thread, t)| + Once(u == t)
  {
    hide Holders;
    HoldersMembers(thread, s, u, t);
    SplitOff(Holders(thread, t), s);
    SplitOff(Holders(thread[s := u], t), s);
  }

  lemma {:induction false} HoldersMembers(thread: map<nat, int>, s: nat, u: int, t: int)
    ensures Holders(thread, t) - {s} == Holders(thread[s := u], t) - {s}
    ensures s in Holders(thread, t) <==> s in thread && thread[s] == t
    ensures s in Holders(thread[s := u], t) <==> u == t
  {
  }

  lemma {:induction false} NextCounted(l: Load, step: Step, t: int)
    requires Inv(l)
    ensures Counted(Next(l, step), t)
  {
    hide Holders, Selected, Plus;
    assert Counted(l, t);
    if step.Bind? {
      HoldersUpdate(l.thread, step.s, Selected(l.counts), t);
    } else {
      HoldersUpdate(l.thread, step.s, -1, t);
    }
  }

  lemma {:induction false} NextKeeps(l: Load, step: Step)
    requires Inv(l)
    ensures Inv(Next(l, step))
  {
    hide Holders, Selected, Plus;
    forall t: int
      ensures Counted(Next(l, step), t)
    {
      NextCounted(l, step, t);
    }
  }

  lemma {:induction false} RunKeeps(l: Load, steps: seq<Step>)
    requires Inv(l)
    ensures Inv(Run(l, steps))
    decreases |steps|
  {
    hide Inv, Next;
    if steps != [] {
      NextKeeps(l, steps[0]);
      RunKeeps(Next(l, steps[0]), steps[1..]);
    }
  }

  lemma {:induction false} LoadAccounting(n: nat, steps: seq<Step>, t: int)
    ensures Counted(Run(Start(n), steps), t)
  {
    hide Run;
    RunKeeps(Start(n), steps);
  }

  // Only sessions that note no thread are bound.
  ghost predicate NoRebinding(l: Load, steps: seq<Step>)
    decreases |steps|
  {
    steps == [] || ((steps[0].Bind? ==> ThreadOf(l, steps[0].s) == -1) && NoRebinding(Next(l, steps[0]), steps[1..]))
  }

  lemma {:induction false} NothingLeaks(l: Load, steps: seq<Step>)
    requires NoRebinding(l, steps)
    ensures Run(l, steps).leaked == l.leaked
    decreases |steps|
  {
    hide Selected, Plus;
    if steps != [] {
      NothingLeaks(Next(l, steps[0]), steps[1..]);
    }
  }

  // Giving a thread back is done once only, whatever happened to other sessions
  // in between.
  lemma {:induction false} UnbindOnce(l: Load, s: nat, steps: seq<Step>)
    requires ThreadOf(l, s) == -1 && forall i | 0 <= i < |steps| :: steps[i] != Bind(s)
    ensures var t := Run(l, steps); ThreadOf(t, s) == -1 && Next(t, Unbind(s)) == t
    decreases |steps|
  {
    hide Selected, Plus;
    if steps != [] {
      UnbindOnce(Next(l, steps[0]), s, steps[1..]);
    }
  }

  // Without rebinding every count is exactly the number of sessions bound.
  lemma {:induction false} ExactAccounting(n: nat, steps: seq<Step>, t: int)
    requires NoRebinding(Start(n), steps) && 0 <= t < |Run(Start(n), steps).counts|
    ensures var l := Run(Start(n), steps); l.counts[t] == |Holders(l.thread, t)|
  {
    hide Run, Next, NoRebinding;
    LoadAccounting(n, steps, t);
    NothingLeaks(Start(n), steps);
  }

  // ---- Balance -------------------------------------------------------------------------

  ghost predicate Balanced(counts: seq<int>) {
    forall i, j | 0 <= i < |counts| && 0 <= j < |counts| :: counts[i] <= counts[j] + 1
  }

  // As long as sessions are only bound, no thread gets more than one session
  // ahead of another, also up to the limit.
  lemma {:induction false} BindingBalances(l: Load, steps: seq<Step>)
    requires Balanced(l.counts) && forall i | 0 <= i < |steps| :: steps[i].Bind?
    ensures Balanced(Run(l, steps).counts)
    decreases |steps|
  {
    hide Selected, Plus;
    if steps != [] {
      BindingBalances(Next(l, steps[0]), steps[1..]);
    }
  }
}
