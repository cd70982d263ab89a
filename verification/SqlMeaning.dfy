// What running the statements does, and that it is what the parameter list
// means.
module SqlMeaning {
  import opened SqlStatements
  import opened SqlConnector

  datatype Value = Null | Value(bits: int)

  // Client memory by address, and the session variables by number.
  type Memory = map<nat, Value>
  type Vars = map<nat, Value>

  function Load(m: map<nat, Value>, a: nat): Value {
    if a in m then m[a] else Null
  }

  // A value behind a pointer; the null pointer binds NULL.
  function Deref(mem: Memory, a: nat): Value {
    if a == 0 then Null else Load(mem, a)
  }

  // ---- The server ---------------------------------------------------------------------

  function ExecSets(ps: seq<Param>, sets: seq<Assign>, mem: Memory, vars: Vars): Vars
    requires forall j | 0 <= j < |sets| :: sets[j].index < |ps|
  {
    if sets == [] then vars
    else
      var n := |sets| - 1;
      ExecSets(ps, sets[..n], mem, vars)[sets[n].k := Load(mem, ps[sets[n].index].address)]
  }

  function Holes(items: seq<Item>): nat {
    if items == [] then 0 else Holes(items[..|items| - 1]) + if items[|items| - 1].Hole? then 1 else 0
  }

  // The value passed at position `i`: the j-th placeholder takes the j-th bound
  // address; a variable passes its value, but NULL where the procedure declares
  // OUT.
  function Argument(items: seq<Item>, modes: seq<Direction>, binds: seq<Param>, mem: Memory, vars: Vars, i: nat): Value
    requires i < |items| && |modes| == |items|
  {
    match items[i]
    case Hole =>
      var j := Holes(items[..i]);
      if j < |binds| then Deref(mem, binds[j].address) else Null
    case Var(k) => if modes[i] == Output then Null else Load(vars, k)
  }

  function Arguments(items: seq<Item>, modes: seq<Direction>, binds: seq<Param>, mem: Memory, vars: Vars, n: nat): (r: seq<Value>)
    requires n <= |items| == |modes|
    ensures |r| == n && forall i | 0 <= i < n :: r[i] == Argument(items, modes, binds, mem, vars, i)
  {
    if n == 0 then []
    else Arguments(items, modes, binds, mem, vars, n - 1) + [Argument(items, modes, binds, mem, vars, n - 1)]
  }

  // After the call each variable passed holds what the procedure left at its
  // position.
  function Returned(items: seq<Item>, results: seq<Value>, vars: Vars): Vars
    requires |results| == |items|
  {
    if items == [] then vars
    else
      var n := |items| - 1;
      var vars' := Returned(items[..n], results[..n], vars);
      if items[n].Var? then vars'[items[n].k := results[n]] else vars'
  }

  function Cell(item: Item, vars: Vars): Value {
    if item.Var? then Load(vars, item.k) else Null
  }

  function Row(items: seq<Item>, vars: Vars): (r: seq<Value>)
    ensures |r| == |items| && forall i | 0 <= i < |items| :: r[i] == Cell(items[i], vars)
  {
    if items == [] then [] else [Cell(items[0], vars)] + Row(items[1..], vars)
  }

  // Fetching stores column `j` at the j-th bound address; NULL leaves what was
  // there.
  function Fetch(cols: seq<Param>, row: seq<Value>, mem: Memory): Memory
    requires |cols| <= |row|
  {
    if cols == [] then mem
    else
      var n := |cols| - 1;
      var rest := Fetch(cols[..n], row, mem);
      if row[n].Null? then rest else rest[cols[n].address := row[n]]
  }

  // What a place holds after `v` was fetched into it.
  function Stored(v: Value, before: Value): Value {
    if v.Null? then before else v
  }

  // ---- What the parameter list means --------------------------------------------------

  function Modes(ps: seq<Param>): (r: seq<Direction>)
    ensures |r| == |ps| && forall i | 0 <= i < |ps| :: r[i] == ps[i].dir
  {
    if ps == [] then [] else [ps[0].dir] + Modes(ps[1..])
  }

  // What the caller means to pass at each position.
  function Meant(p: Param, mem: Memory): Value {
    match p.dir
    case Output => Null
    case Input => Deref(mem, p.address)
    case InOut => Load(mem, p.address)
  }

  function Intended(ps: seq<Param>, mem: Memory): (r: seq<Value>)
    ensures |r| == |ps| && forall i | 0 <= i < |ps| :: r[i] == Meant(ps[i], mem)
  {
    if ps == [] then [] else [Meant(ps[0], mem)] + Intended(ps[1..], mem)
  }

  // Every type can be bound, nothing exceeds the binding arrays, the last
  // parameter returns a value, and outputs go to different places.
  ghost predicate Proper(ps: seq<Param>) {
    && 0 < |ps| <= MAX_BIND_PARAM_NUM
    && Ins(ps, |ps|) < MAX_BIND_PARAM_NUM && Outs(ps, |ps|) < MAX_BIND_PARAM_NUM
    && (forall i | 0 <= i < |ps| :: Supported(ps[i].ty))
    && ps[|ps| - 1].dir != Input
    && Apart(ps)
  }

  ghost predicate Apart(ps: seq<Param>) {
    && (forall i | 0 <= i < |ps| :: ps[i].dir != Input ==> ps[i].address != 0)
    && (forall i, j | 0 <= i < j < |ps| ::
          ps[i].dir != Input && ps[j].dir != Input ==> ps[i].address != ps[j].address)
  }

  // ---- Arguments ------------------------------------------------------------------------

  lemma {:induction false} OutsGrow(ps: seq<Param>, i: nat, j: nat)
    requires i <= j <= |ps|
    ensures Outs(ps, i) <= Outs(ps, j)
    ensures i < j && ps[j - 1].dir != Input ==> Outs(ps, i) < Outs(ps, j)
    decreases j
  {
    if i < j {
      OutsGrow(ps, i, j - 1);
    }
  }

  lemma {:induction false} HolesAreInputs(ps: seq<Param>, i: nat)
    requires i <= |ps|
    ensures Holes(CallItems(ps)[..i]) == Ins(ps, i)
  {
    if i > 0 {
      HolesAreInputs(ps, i - 1);
      assert CallItems(ps)[..i][..i - 1] == CallItems(ps)[..i - 1];
    }
  }

  lemma {:induction false} BoundInput(ps: seq<Param>, i: nat, n: nat)
    requires i < n <= |ps| && ps[i].dir == Input
    requires forall j | 0 <= j < |ps| :: Supported(ps[j].ty)
    ensures |InputsBound(ps, n)| == Ins(ps, n)
    ensures Ins(ps, i) < Ins(ps, n) && InputsBound(ps, n)[Ins(ps, i)] == ps[i]
    decreases n
  {
    BoundCount(ps, n);
    BoundCount(ps, n - 1);
    if i < n - 1 {
      BoundInput(ps, i, n - 1);
    }
  }

  lemma {:induction false} BoundCount(ps: seq<Param>, n: nat)
    requires n <= |ps|
    requires forall j | 0 <= j < |ps| :: Supported(ps[j].ty)
    ensures |InputsBound(ps, n)| == Ins(ps, n)
  {
    if n > 0 {
      BoundCount(ps, n - 1);
    }
  }

  lemma {:induction false} SetsInRange(ps: seq<Param>, n: nat)
    requires n <= |ps|
    ensures forall j | 0 <= j < |SetsOf(ps, n)| :: SetsOf(ps, n)[j].index < n && SetsOf(ps, n)[j].k <= Outs(ps, n)
  {
    if n > 0 {
      SetsInRange(ps, n - 1);
    }
  }

  lemma {:induction false} ExecSetsPush(ps: seq<Param>, sets: seq<Assign>, x: Assign, mem: Memory, vars: Vars)
    requires forall j | 0 <= j < |sets| :: sets[j].index < |ps|
    requires x.index < |ps|
    ensures ExecSets(ps, sets + [x], mem, vars)
         == ExecSets(ps, sets, mem, vars)[x.k := Load(mem, ps[x.index].address)]
  {
    assert (sets + [x])[..|sets|] == sets;
  }

  lemma {:induction false} SetsStep(ps: seq<Param>, n: nat)
    requires 0 < n <= |ps| && forall j | 0 <= j < |ps| :: Supported(ps[j].ty)
    ensures SetsOf(ps, n)
         == if ps[n - 1].dir == InOut then SetsOf(ps, n - 1) + [Assign(Outs(ps, n), n - 1)] else SetsOf(ps, n - 1)
  {
    hide Outs;
  }

  lemma {:induction false} SetStored(ps: seq<Param>, n: nat, i: nat, mem: Memory, vars: Vars)
    requires i < n <= |ps| && ps[i].dir == InOut
    requires forall j | 0 <= j < |ps| :: Supported(ps[j].ty)
    requires forall j | 0 <= j < |SetsOf(ps, n)| :: SetsOf(ps, n)[j].index < |ps|
    ensures Load(ExecSets(ps, SetsOf(ps, n), mem, vars), Outs(ps, i + 1)) == Load(mem, ps[i].address)
    decreases n
  {
    hide SetsOf, ExecSets, Outs;
    SetsInRange(ps, n - 1);
    SetsStep(ps, n);
    if ps[n - 1].dir == InOut {
      ExecSetsPush(ps, SetsOf(ps, n - 1), Assign(Outs(ps, n), n - 1), mem, vars);
    }
    if i < n - 1 {
      SetStored(ps, n - 1, i, mem, vars);
      OutsGrow(ps, i + 1, n);
    }
  }

  lemma {:induction false} ArgumentIntended(ps: seq<Param>, mem: Memory, vars: Vars, i: nat)
    requires i < |ps| && forall j | 0 <= j < |ps| :: Supported(ps[j].ty)
    requires ps[i].dir == InOut ==> Load(vars, Outs(ps, i + 1)) == Load(mem, ps[i].address)
    ensures Argument(CallItems(ps), Modes(ps), InputsBound(ps, |ps|), mem, vars, i) == Intended(ps, mem)[i]
  {
    hide InputsBound, Holes, Outs;
    HolesAreInputs(ps, i);
    if ps[i].dir == Input {
      BoundInput(ps, i, |ps|);
    }
  }

  // Each argument arrives at its own position.
  lemma {:induction false} ArgumentsIntended(ps: seq<Param>, mem: Memory, vars: Vars)
    requires forall j | 0 <= j < |ps| :: Supported(ps[j].ty)
    requires forall j | 0 <= j < |SetsOf(ps, |ps|)| :: SetsOf(ps, |ps|)[j].index < |ps|
    ensures var vars' := ExecSets(ps, SetsOf(ps, |ps|), mem, vars);
      Arguments(CallItems(ps), Modes(ps), InputsBound(ps, |ps|), mem, vars', |ps|) == Intended(ps, mem)
  {
    hide Argument, InputsBound, SetsOf, ExecSets, Outs;
    var vars' := ExecSets(ps, SetsOf(ps, |ps|), mem, vars);
    forall i | 0 <= i < |ps|
      ensures Argument(CallItems(ps), Modes(ps), InputsBound(ps, |ps|), mem, vars', i) == Intended(ps, mem)[i]
    {
      if ps[i].dir == InOut {
        SetStored(ps, |ps|, i, mem, vars);
      }
      ArgumentIntended(ps, mem, vars', i);
    }
  }

  // ---- Results --------------------------------------------------------------------------

  lemma {:induction false} ReturnedAt(ps: seq<Param>, results: seq<Value>, vars: Vars, n: nat, i: nat)
    requires i < n <= |ps| == |results| && ps[i].dir != Input
    ensures Load(Returned(CallItems(ps)[..n], results[..n], vars), Outs(ps, i + 1)) == results[i]
    decreases n
  {
    var items := CallItems(ps)[..n];
    assert items[..n - 1] == CallItems(ps)[..n - 1] && results[..n][..n - 1] == results[..n - 1];
    if i < n - 1 {
      ReturnedAt(ps, results, vars, n - 1, i);
      OutsGrow(ps, i + 1, n);
    }
  }

  lemma {:induction false} ColumnAt(ps: seq<Param>, indices: seq<nat>, c: nat)
    requires c < |indices| && forall j | 0 <= j < |indices| :: indices[j] < |ps|
    requires forall j | 0 <= j < |ps| :: Supported(ps[j].ty)
    ensures |Columns(ps, indices)| == |indices| && Columns(ps, indices)[c] == ps[indices[c]]
    decreases |indices|
  {
    var n := |indices| - 1;
    if c < n {
      ColumnAt(ps, indices[..n], c);
    } else if n > 0 {
      ColumnAt(ps, indices[..n], 0);
    }
  }

  lemma {:induction false} IndexAt(ps: seq<Param>, n: nat, i: nat)
    requires i < n <= |ps| && ps[i].dir != Input
    ensures 0 < Outs(ps, i + 1) <= Outs(ps, n) && OutIndices(ps, n)[Outs(ps, i + 1) - 1] == i
    decreases n
  {
    OutsGrow(ps, i + 1, n);
    if i < n - 1 {
      IndexAt(ps, n - 1, i);
    }
  }

  lemma {:induction false} ColumnCount(ps: seq<Param>)
    requires forall j | 0 <= j < |ps| :: Supported(ps[j].ty)
    requires Outs(ps, |ps|) > 0
    ensures |Columns(ps, OutIndices(ps, |ps|))| == Outs(ps, |ps|)
    ensures forall p <- Columns(ps, OutIndices(ps, |ps|)) :: exists j | 0 <= j < |ps| :: ps[j].dir != Input && ps[j] == p
  {
    hide Columns, Outs;
    var indices := OutIndices(ps, |ps|);
    ColumnAt(ps, indices, 0);
    forall p <- Columns(ps, indices)
      ensures exists j | 0 <= j < |ps| :: ps[j].dir != Input && ps[j] == p
    {
      var c: nat :| c < |indices| && Columns(ps, indices)[c] == p;
      ColumnAt(ps, indices, c);
    }
  }

  // The column that the k-th output variable is fetched into is the address of
  // the k-th output.
  lemma {:induction false} ColumnOf(ps: seq<Param>, i: nat)
    requires i < |ps| && ps[i].dir != Input
    requires forall j | 0 <= j < |ps| :: Supported(ps[j].ty)
    ensures 0 < Outs(ps, i + 1) <= |Columns(ps, OutIndices(ps, |ps|))|
    ensures Columns(ps, OutIndices(ps, |ps|))[Outs(ps, i + 1) - 1] == ps[i]
  {
    hide Columns, Outs;
    IndexAt(ps, |ps|, i);
    ColumnAt(ps, OutIndices(ps, |ps|), Outs(ps, i + 1) - 1);
  }

  ghost predicate Distinct(cols: seq<Param>) {
    forall i, j | 0 <= i < j < |cols| :: cols[i].address != cols[j].address
  }

  lemma {:induction false} FetchSpares(cols: seq<Param>, row: seq<Value>, mem: Memory, a: nat)
    requires |cols| <= |row| && forall c <- cols :: c.address != a
    ensures Load(Fetch(cols, row, mem), a) == Load(mem, a)
  {
    if cols != [] {
      FetchSpares(cols[..|cols| - 1], row, mem, a);
    }
  }

  lemma {:induction false} FetchStores(cols: seq<Param>, row: seq<Value>, mem: Memory, j: nat)
    requires |cols| <= |row| && Distinct(cols) && j < |cols|
    ensures Load(Fetch(cols, row, mem), cols[j].address) == Stored(row[j], Load(mem, cols[j].address))
  {
    var n := |cols| - 1;
    if j < n {
      FetchStores(cols[..n], row, mem, j);
    } else {
      FetchSpares(cols[..n], row, mem, cols[n].address);
    }
  }

  lemma {:induction false} IndicesRise(ps: seq<Param>, n: nat)
    requires n <= |ps|
    ensures forall c, d | 0 <= c < d < |OutIndices(ps, n)| :: OutIndices(ps, n)[c] < OutIndices(ps, n)[d]
  {
    if n > 0 {
      IndicesRise(ps, n - 1);
    }
  }

  lemma {:induction false} ColumnsDistinct(ps: seq<Param>)
    requires Proper(ps)
    ensures Distinct(Columns(ps, OutIndices(ps, |ps|)))
  {
    hide Columns, Outs;
    var indices := OutIndices(ps, |ps|);
    IndicesRise(ps, |ps|);
    ColumnAt(ps, indices, 0);
    forall c, d | 0 <= c < d < |indices|
      ensures Columns(ps, indices)[c].address != Columns(ps, indices)[d].address
    {
      ColumnAt(ps, indices, c);
      ColumnAt(ps, indices, d);
    }
  }

  // ---- The whole run --------------------------------------------------------------------

  // The server reads the statements it is sent.
  function ParseCall(name: string, text: string): Parsed {
    var start := "call " + name + "(";
    if |start| < |text| && start <= text && text[|text| - 1] == ')'
    then ParseItems(text[|start|..|text| - 1]) else Bad
  }

  function ParseSelect(text: string): Parsed {
    if "select " <= text then ParseItems(text[7..]) else Bad
  }

  lemma {:induction false} TextsParse(name: string, ps: seq<Param>)
    requires ps != []
    ensures ParseCall(name, CallText(name, ps)) == Items(CallItems(ps))
    ensures ParseSelect(SelectText(ps))
         == if ps[|ps| - 1].dir == Input then Bad else Items(SelectItems(Outs(ps, |ps|)))
  {
    hide ParseItems, CallBody, SelectBody, CallItems, SelectItems, Outs;
    CallParses(ps);
    SelectParses(ps);
    var start := "call " + name + "(";
    var text := CallText(name, ps);
    assert text[|start|..|text| - 1] == CallBody(ps, |ps|);
    assert SelectText(ps)[7..] == SelectBody(ps, |ps|);
  }

  // The variables after the assignments and the call.
  function AfterCall(name: string, ps: seq<Param>, sets: seq<Assign>, text: string, binds: seq<Param>,
                     proc: seq<Value> -> seq<Value>, mem: Memory, vars: Vars): Vars
    requires forall j | 0 <= j < |sets| :: sets[j].index < |ps|
  {
    var vars' := ExecSets(ps, sets, mem, vars);
    var parsed := ParseCall(name, text);
    if parsed.Bad? || |parsed.items| != |ps| then vars'
    else
      var results := proc(Arguments(parsed.items, Modes(ps), binds, mem, vars', |ps|));
      if |results| != |ps| then vars' else Returned(parsed.items, results, vars')
  }

  // The memory after the select and the fetch.
  function AfterFetch(text: string, cols: seq<Param>, mem: Memory, vars: Vars): Memory {
    var parsed := ParseSelect(text);
    if parsed.Bad? || |parsed.items| < |cols| then mem else Fetch(cols, Row(parsed.items, vars), mem)
  }

  // One statement of those the connector sends.
  function RunStatement(name: string, ps: seq<Param>, st: Statement, proc: seq<Value> -> seq<Value>, mem: Memory, vars: Vars): Vars
    requires st.SetVars? ==> forall j | 0 <= j < |st.sets| :: st.sets[j].index < |ps|
  {
    match st
    case SetVars(sets) => ExecSets(ps, sets, mem, vars)
    case Call(text, binds) => AfterCall(name, ps, [], text, binds, proc, mem, vars)
    case Select(_) => vars
  }

  ghost predicate InRange(ps: seq<Param>, sent: seq<Statement>) {
    forall st <- sent :: st.SetVars? ==> forall j | 0 <= j < |st.sets| :: st.sets[j].index < |ps|
  }

  ghost function RunAll(name: string, ps: seq<Param>, sent: seq<Statement>, proc: seq<Value> -> seq<Value>, mem: Memory, vars: Vars): Vars
    requires InRange(ps, sent)
  {
    if sent == [] then vars
    else RunAll(name, ps, sent[1..], proc, mem, RunStatement(name, ps, sent[0], proc, mem, vars))
  }

  const CLEAN: Parts := Parts("", "", [], [], false, false, [])

  // What ExcuteSql sends when it starts with nothing collected.
  function Sent(name: string, ps: seq<Param>): seq<Statement> {
    var c := Collected(CLEAN, name, ps, |ps|);
    (if c.hasInOut then [SetVars(c.sets)] else []) + [Call(CallText(name, ps), c.binds)]
  }

  // A clean connector collects what CLEAN does.
  lemma {:induction false} CleanCollects(c: XMySqlConnector, name: string, ps: seq<Param>)
    requires c.Clean()
    ensures Collected(c.Snapshot(), name, ps, |ps|) == Collected(CLEAN, name, ps, |ps|)
  {
  }

  lemma {:induction false} CollectedClean(name: string, ps: seq<Param>)
    ensures var c := Collected(CLEAN, name, ps, |ps|);
      && c.select == SelectText(ps) && c.binds == InputsBound(ps, |ps|) && c.sets == SetsOf(ps, |ps|)
      && c.hasInOut == Has(ps, |ps|, InOut) && c.outIndices == OutIndices(ps, |ps|)
  {
  }

  // From a clean connector the outputs are fetched, given the library, exactly
  // when there are some: the two flags together say so.
  lemma {:induction false} FetchedWhenReturned(name: string, ps: seq<Param>)
    ensures var c := Collected(CLEAN, name, ps, |ps|);
      && ((c.hasOut || c.hasInOut) && c.select != "" <==> Outs(ps, |ps|) > 0)
      && (c.hasOut <==> exists i | 0 <= i < |ps| :: ps[i].dir == Output)
      && (c.hasInOut <==> exists i | 0 <= i < |ps| :: ps[i].dir == InOut)
  {
    hide SelectBody, SetsOf, InputsBound, OutIndices, CallBody;
    SomeReturned(ps, |ps|);
  }

  lemma {:induction false} SomeReturned(ps: seq<Param>, n: nat)
    requires n <= |ps|
    ensures Outs(ps, n) > 0 <==> exists i | 0 <= i < n :: ps[i].dir != Input
  {
    if n > 0 {
      SomeReturned(ps, n - 1);
    }
  }

  lemma {:induction false} NoInOutNoSets(ps: seq<Param>, n: nat)
    requires n <= |ps| && !Has(ps, n, InOut)
    ensures SetsOf(ps, n) == []
  {
    if n > 0 {
      assert ps[n - 1].dir != InOut;
      assert !Has(ps, n - 1, InOut);
      NoInOutNoSets(ps, n - 1);
    }
  }

  lemma {:induction false} SentInRange(name: string, ps: seq<Param>)
    ensures InRange(ps, Sent(name, ps))
  {
    CollectedClean(name, ps);
    SetsInRange(ps, |ps|);
    hide Collected, SetsOf, CallText;
    var c := Collected(CLEAN, name, ps, |ps|);
    forall st <- Sent(name, ps) | st.SetVars?
      ensures forall j | 0 <= j < |st.sets| :: st.sets[j].index < |ps|
    {
      assert st == SetVars(c.sets);
    }
  }

  // Everything together, from a clean connector: the statements of ExcuteSql, and
  // then the select and the fetch of GetOutputResult.
  ghost function Execute(name: string, ps: seq<Param>, proc: seq<Value> -> seq<Value>, mem: Memory, vars: Vars): Memory
  {
    SentInRange(name, ps);
    var c := Collected(CLEAN, name, ps, |ps|);
    AfterFetch(c.select, Columns(ps, c.outIndices), mem, RunAll(name, ps, Sent(name, ps), proc, mem, vars))
  }

  lemma {:induction false} RunOneOrTwo(name: string, ps: seq<Param>, sets: seq<Assign>, st: Statement,
                                       proc: seq<Value> -> seq<Value>, mem: Memory, vars: Vars)
    requires forall j | 0 <= j < |sets| :: sets[j].index < |ps|
    requires !st.SetVars?
    ensures InRange(ps, [SetVars(sets), st]) && InRange(ps, [st])
    ensures RunAll(name, ps, [st], proc, mem, vars) == RunStatement(name, ps, st, proc, mem, vars)
    ensures RunAll(name, ps, [SetVars(sets), st], proc, mem, vars)
         == RunStatement(name, ps, st, proc, mem, ExecSets(ps, sets, mem, vars))
  {
    hide ExecSets, AfterCall;
    var vars' := ExecSets(ps, sets, mem, vars);
    assert [st][1..] == [] && [SetVars(sets), st][1..] == [st];
    assert RunAll(name, ps, [st], proc, mem, vars') == RunStatement(name, ps, st, proc, mem, vars');
  }

  lemma {:induction false} SentIs(name: string, ps: seq<Param>)
    ensures var call := Call(CallText(name, ps), InputsBound(ps, |ps|));
      Sent(name, ps) == if Has(ps, |ps|, InOut) then [SetVars(SetsOf(ps, |ps|)), call] else [call]
  {
    CollectedClean(name, ps);
    hide Collected, CallText, InputsBound, SetsOf;
  }

  // Sending the assignments and then the call is calling after the assignments.
  lemma {:induction false} SentRuns(name: string, ps: seq<Param>, proc: seq<Value> -> seq<Value>, mem: Memory, vars: Vars)
    requires forall j | 0 <= j < |SetsOf(ps, |ps|)| :: SetsOf(ps, |ps|)[j].index < |ps|
    ensures InRange(ps, Sent(name, ps))
    ensures RunAll(name, ps, Sent(name, ps), proc, mem, vars)
         == AfterCall(name, ps, SetsOf(ps, |ps|), CallText(name, ps), InputsBound(ps, |ps|), proc, mem, vars)
  {
    var sets, call := SetsOf(ps, |ps|), Call(CallText(name, ps), InputsBound(ps, |ps|));
    SentIs(name, ps);
    hide Sent, Has, RunAll, Collected, CallText, InputsBound, SetsOf, ParseCall, Arguments, Returned;
    RunOneOrTwo(name, ps, sets, call, proc, mem, vars);
    if !Has(ps, |ps|, InOut) {
      NoInOutNoSets(ps, |ps|);
    }
  }

  lemma {:induction false} ExecuteIs(name: string, ps: seq<Param>, proc: seq<Value> -> seq<Value>, mem: Memory, vars: Vars)
    requires forall j | 0 <= j < |SetsOf(ps, |ps|)| :: SetsOf(ps, |ps|)[j].index < |ps|
    ensures Execute(name, ps, proc, mem, vars)
         == AfterFetch(SelectText(ps), Columns(ps, OutIndices(ps, |ps|)), mem,
              AfterCall(name, ps, SetsOf(ps, |ps|), CallText(name, ps), InputsBound(ps, |ps|), proc, mem, vars))
  {
    hide AfterFetch, AfterCall, Sent, RunAll, Collected, CallText, SelectText, InputsBound, SetsOf, Columns, OutIndices;
    SentRuns(name, ps, proc, mem, vars);
    CollectedClean(name, ps);
  }

  lemma {:induction false} CallLeaves(name: string, ps: seq<Param>, proc: seq<Value> -> seq<Value>, mem: Memory, vars: Vars, i: nat)
    requires Proper(ps) && i < |ps| && ps[i].dir != Input
    requires |proc(Intended(ps, mem))| == |ps|
    requires forall j | 0 <= j < |SetsOf(ps, |ps|)| :: SetsOf(ps, |ps|)[j].index < |ps|
    ensures Load(AfterCall(name, ps, SetsOf(ps, |ps|), CallText(name, ps), InputsBound(ps, |ps|), proc, mem, vars),
                 Outs(ps, i + 1)) == proc(Intended(ps, mem))[i]
  {
    hide ParseCall, Arguments, Intended, SetsOf, InputsBound, ExecSets, Returned, Outs, CallText;
    TextsParse(name, ps);
    ArgumentsIntended(ps, mem, vars);
    var vars' := ExecSets(ps, SetsOf(ps, |ps|), mem, vars);
    var results := proc(Intended(ps, mem));
    ReturnedAt(ps, results, vars', |ps|, i);
    assert CallItems(ps)[..|ps|] == CallItems(ps) && results[..|ps|] == results;
  }

  lemma {:induction false} FetchedRow(ps: seq<Param>, cols: seq<Param>, mem: Memory, vars: Vars)
    requires ps != [] && ps[|ps| - 1].dir != Input && |cols| <= Outs(ps, |ps|)
    ensures AfterFetch(SelectText(ps), cols, mem, vars) == Fetch(cols, Row(SelectItems(Outs(ps, |ps|)), vars), mem)
  {
    hide ParseSelect, SelectText, Fetch;
    TextsParse("", ps);
  }

  lemma {:induction false} FetchRoutes(ps: seq<Param>, cols: seq<Param>, mem: Memory, vars: Vars, i: nat)
    requires Proper(ps) && i < |ps| && ps[i].dir != Input
    requires cols == Columns(ps, OutIndices(ps, |ps|))
    ensures Load(AfterFetch(SelectText(ps), cols, mem, vars), ps[i].address)
         == Stored(Load(vars, Outs(ps, i + 1)), Load(mem, ps[i].address))
  {
    hide AfterFetch, Fetch;
    ColumnsDistinct(ps);
    ColumnCount(ps);
    ColumnOf(ps, i);
    FetchedRow(ps, cols, mem, vars);
    FetchStores(cols, Row(SelectItems(Outs(ps, |ps|)), vars), mem, Outs(ps, i + 1) - 1);
  }

  lemma {:induction false} FetchElsewhere(ps: seq<Param>, cols: seq<Param>, mem: Memory, vars: Vars, a: nat)
    requires Proper(ps) && cols == Columns(ps, OutIndices(ps, |ps|))
    requires forall i | 0 <= i < |ps| :: ps[i].dir != Input ==> ps[i].address != a
    ensures Load(AfterFetch(SelectText(ps), cols, mem, vars), a) == Load(mem, a)
  {
    hide AfterFetch, Fetch;
    ColumnCount(ps);
    FetchedRow(ps, cols, mem, vars);
    FetchSpares(cols, Row(SelectItems(Outs(ps, |ps|)), vars), mem, a);
  }

  // For any procedure: it is called with what the caller means to pass, each
  // output ends up at the address of the parameter at its position, where NULL
  // leaves what was there, and no other memory changes, whatever the session
  // variables held before.
  lemma {:induction false} OutputRouting(name: string, ps: seq<Param>, proc: seq<Value> -> seq<Value>, mem: Memory, vars: Vars)
    requires Proper(ps) && |proc(Intended(ps, mem))| == |ps|
    ensures var mem' := Execute(name, ps, proc, mem, vars);
      && (forall i | 0 <= i < |ps| ::
            ps[i].dir != Input ==>
              Load(mem', ps[i].address) == Stored(proc(Intended(ps, mem))[i], Load(mem, ps[i].address)))
      && (forall a: nat ::
            (forall i | 0 <= i < |ps| :: ps[i].dir != Input ==> ps[i].address != a) ==> Load(mem', a) == Load(mem, a))
  {
    hide AfterCall, AfterFetch, Intended, Load, SetsOf, InputsBound, Columns, OutIndices, Outs, Execute, Stored;
    SetsInRange(ps, |ps|);
    ExecuteIs(name, ps, proc, mem, vars);
    var vars' := AfterCall(name, ps, SetsOf(ps, |ps|), CallText(name, ps), InputsBound(ps, |ps|), proc, mem, vars);
    forall i | 0 <= i < |ps| && ps[i].dir != Input
      ensures Load(Execute(name, ps, proc, mem, vars), ps[i].address)
           == Stored(proc(Intended(ps, mem))[i], Load(mem, ps[i].address))
    {
      CallLeaves(name, ps, proc, mem, vars, i);
      FetchRoutes(ps, Columns(ps, OutIndices(ps, |ps|)), mem, vars', i);
    }
    forall a: nat | forall i | 0 <= i < |ps| :: ps[i].dir != Input ==> ps[i].address != a
      ensures Load(Execute(name, ps, proc, mem, vars), a) == Load(mem, a)
    {
      FetchElsewhere(ps, Columns(ps, OutIndices(ps, |ps|)), mem, vars', a);
    }
  }

  // ---- When the connector runs the statements at all --------------------------------------

  ghost predicate InputsSupported(ps: seq<Param>, n: nat)
    requires n <= |ps|
  {
    forall i | 0 <= i < n :: ps[i].dir == Input ==> Supported(ps[i].ty)
  }

  lemma {:induction false} BoundOrSkipped(ps: seq<Param>, n: nat)
    requires n <= |ps|
    ensures |InputsBound(ps, n)| <= Ins(ps, n)
    ensures |InputsBound(ps, n)| == Ins(ps, n) <==> InputsSupported(ps, n)
  {
    if n > 0 {
      BoundOrSkipped(ps, n - 1);
    }
  }

  // An input that cannot be bound is passed over silently, but then the count
  // of placeholders gives it away: the call goes out exactly when every input
  // can be bound, there are at most 149 of them, the procedure name holds no
  // question mark, and some INOUT value could be written when there is one.
  lemma {:induction false} CallGoesOut(name: string, ps: seq<Param>)
    ensures Runs(Collected(CLEAN, name, ps, |ps|), name, ps) <==>
      && Ins(ps, |ps|) < MAX_BIND_PARAM_NUM && InputsSupported(ps, |ps|) && Placeholders(name) == 0
      && (Has(ps, |ps|, InOut) ==> SetsOf(ps, |ps|) != [])
  {
    hide Placeholders, InputsBound, SetsOf, Has, Outs, CallText, InputsSupported, CallBody, SelectBody, OutIndices;
    BoundOrSkipped(ps, |ps|);
    CallPlaceholders(name, ps);
    CollectedBinds(CLEAN, name, ps);
    assert [] + SetsOf(ps, |ps|) == SetsOf(ps, |ps|);
  }

  // Executing again without InitBindParam goes through exactly when there is no
  // input, since the bindings are appended to the old ones.
  lemma {:induction false} SecondExecutionRefused(name: string, ps: seq<Param>)
    requires Runs(Collected(CLEAN, name, ps, |ps|), name, ps)
    ensures var once := Collected(CLEAN, name, ps, |ps|);
      Runs(Collected(once, name, ps, |ps|), name, ps) <==> Ins(ps, |ps|) == 0
  {
    hide Placeholders, InputsBound, SetsOf, Has, Outs, CallText, InputsSupported, CallBody, SelectBody, OutIndices;
    var once := Collected(CLEAN, name, ps, |ps|);
    CallGoesOut(name, ps);
    BoundOrSkipped(ps, |ps|);
    CollectedBinds(CLEAN, name, ps);
    CollectedBinds(once, name, ps);
    CollectedAgain(name, ps);
  }

  lemma {:induction false} CollectedAgain(name: string, ps: seq<Param>)
    ensures var once := Collected(CLEAN, name, ps, |ps|); var twice := Collected(once, name, ps, |ps|);
      twice.sets == once.sets + SetsOf(ps, |ps|) && twice.hasInOut == once.hasInOut && once.sets == SetsOf(ps, |ps|)
  {
    hide SetsOf, Has, InputsBound, CallBody, SelectBody, OutIndices;
  }

  // The select is accepted exactly when the last parameter returns a value;
  // with an input last its list ends in a comma.
  lemma {:induction false} SelectAccepted(ps: seq<Param>)
    requires ps != []
    ensures ParseSelect(SelectText(ps)).Items? <==> ps[|ps| - 1].dir != Input
  {
    hide ParseSelect, ParseCall, SelectText;
    TextsParse("", ps);
  }

  lemma {:induction false} ColumnsFrom(ps: seq<Param>, indices: seq<nat>)
    requires forall j | 0 <= j < |indices| :: indices[j] < |ps|
    ensures |Columns(ps, indices)| <= |indices|
    ensures forall p <- Columns(ps, indices) :: Supported(p.ty) && exists k <- indices :: ps[k] == p
    decreases |indices|
  {
    if indices != [] {
      var n := |indices| - 1;
      ColumnsFrom(ps, indices[..n]);
      forall p <- Columns(ps, indices)
        ensures Supported(p.ty) && exists k <- indices :: ps[k] == p
      {
        if p in Columns(ps, indices[..n]) {
          var k :| k in indices[..n] && ps[k] == p;
          assert k in indices;
        } else {
          assert indices[n] in indices && ps[indices[n]] == p;
        }
      }
    }
  }

  // The types matter: whatever the procedure returns, an output of the unhandled
  // type is never stored, so OutputRouting holds for every procedure only when
  // every output can be bound.
  lemma {:induction false} UnboundOutputIsLost(ps: seq<Param>, mem: Memory, vars: Vars, i: nat)
    requires ps != [] && ps[|ps| - 1].dir != Input && Apart(ps)
    requires i < |ps| && ps[i].dir != Input && !Supported(ps[i].ty)
    ensures var mem' := AfterFetch(SelectText(ps), Columns(ps, OutIndices(ps, |ps|)), mem, vars);
      Load(mem', ps[i].address) == Load(mem, ps[i].address)
  {
    hide AfterFetch, Columns, Fetch, SelectText, Outs, Supported;
    var indices := OutIndices(ps, |ps|);
    var cols := Columns(ps, indices);
    ColumnsFrom(ps, indices);
    FetchedRow(ps, cols, mem, vars);
    forall c <- cols
      ensures c.address != ps[i].address
    {
      var k :| k in indices && ps[k] == c;
      assert k != i;
    }
    FetchSpares(cols, Row(SelectItems(Outs(ps, |ps|)), vars), mem, ps[i].address);
  }

  // An output that cannot be bound is passed over too. Where the client library
  // accepts fewer columns than the select returns, nothing gives it away: the
  // next output receives its value.
  lemma {:induction false} UnboundOutputShiftsTheNext(mem: Memory, vars: Vars)
    ensures var ps := [Param(NullType, 1, 0, Output), Param(Int, 2, 4, Output)];
      && Columns(ps, OutIndices(ps, 2)) == [ps[1]]
      && Load(AfterFetch(SelectText(ps), Columns(ps, OutIndices(ps, 2)), mem, vars), 2) == Stored(Load(vars, 1), Load(mem, 2))
  {
    var ps := [Param(NullType, 1, 0, Output), Param(Int, 2, 4, Output)];
    TwoOutputs(ps);
    FetchedRow(ps, [ps[1]], mem, vars);
  }

  lemma {:induction false} TwoOutputs(ps: seq<Param>)
    requires |ps| == 2 && ps[0].dir == Output && ps[1].dir == Output
    requires !Supported(ps[0].ty) && Supported(ps[1].ty)
    ensures Outs(ps, 2) == 2 && OutIndices(ps, 2) == [0, 1] && Columns(ps, [0, 1]) == [ps[1]]
  {
    TwoIndices(ps);
    TwoColumns(ps);
  }

  lemma {:induction false} TwoIndices(ps: seq<Param>)
    requires |ps| == 2 && ps[0].dir == Output && ps[1].dir == Output
    ensures Outs(ps, 2) == 2 && OutIndices(ps, 2) == [0, 1]
  {
    assert Outs(ps, 1) == 1 && OutIndices(ps, 1) == [0];
  }

  lemma {:induction false} TwoColumns(ps: seq<Param>)
    requires |ps| == 2 && !Supported(ps[0].ty) && Supported(ps[1].ty)
    ensures Columns(ps, [0, 1]) == [ps[1]]
  {
    var one: seq<nat> := [0];
    assert one[..0] == [];
    assert Columns(ps, one) == [];
    var two: seq<nat> := [0, 1];
    assert two[..1] == one;
  }
}
