// The statement builder and its bindings (DBLib/XMySqlConnector.cpp).
module SqlConnector {
  import opened SqlStatements

  // `set @ret_k = <the value at the address of parameter number `index`>`.
  datatype Assign = Assign(k: nat, index: nat)

  datatype Statement = SetVars(sets: seq<Assign>) | Call(text: string, binds: seq<Param>) | Select(text: string)

  predicate Supported(t: DataType) {
    t != NullType
  }

  // ---- What the loop collects from the first `i` parameters -----------------------------

  // Parameters of the unhandled type are passed over without an error.
  function InputsBound(ps: seq<Param>, i: nat): seq<Param>
    requires i <= |ps|
  {
    if i == 0 then []
    else if ps[i - 1].dir == Input && Supported(ps[i - 1].ty) then InputsBound(ps, i - 1) + [ps[i - 1]]
    else InputsBound(ps, i - 1)
  }

  function OutIndices(ps: seq<Param>, i: nat): (r: seq<nat>)
    requires i <= |ps|
    ensures |r| == Outs(ps, i) && forall j | 0 <= j < |r| :: r[j] < i && ps[r[j]].dir != Input
  {
    if i == 0 then []
    else if ps[i - 1].dir != Input then OutIndices(ps, i - 1) + [i - 1]
    else OutIndices(ps, i - 1)
  }

  function SetsOf(ps: seq<Param>, i: nat): seq<Assign>
    requires i <= |ps|
  {
    if i == 0 then []
    else if ps[i - 1].dir == InOut && Supported(ps[i - 1].ty)
    then SetsOf(ps, i - 1) + [Assign(Outs(ps, i), i - 1)]
    else SetsOf(ps, i - 1)
  }

  predicate Has(ps: seq<Param>, i: nat, dir: Direction)
    requires i <= |ps|
  {
    exists j | 0 <= j < i :: ps[j].dir == dir
  }

  function Columns(ps: seq<Param>, indices: seq<nat>): seq<Param>
    requires forall j | 0 <= j < |indices| :: indices[j] < |ps|
  {
    if indices == [] then []
    else
      var n := |indices| - 1;
      var p := ps[indices[n]];
      Columns(ps, indices[..n]) + if Supported(p.ty) then [p] else []
  }

  // What the loop changes.
  datatype Parts = Parts(
    call: string, select: string, binds: seq<Param>, sets: seq<Assign>,
    hasInOut: bool, hasOut: bool, outIndices: seq<nat>)

  // After `i` turns from a state in which `p0` had been collected: everything is
  // appended, except that the two texts start afresh.
  function Collected(p0: Parts, name: string, ps: seq<Param>, i: nat): Parts
    requires i <= |ps|
  {
    Parts(
      "call " + name + "(" + CallBody(ps, i),
      "select " + SelectBody(ps, i),
      p0.binds + InputsBound(ps, i),
      p0.sets + SetsOf(ps, i),
      p0.hasInOut || Has(ps, i, InOut),
      p0.hasOut || Has(ps, i, Output),
      p0.outIndices + OutIndices(ps, i))
  }

  function Turn(q: Parts, p: Param, i: nat, k: nat, comma: string): Parts {
    if p.dir == Input
    then q.(call := q.call + ("?" + comma), binds := if Supported(p.ty) then q.binds + [p] else q.binds)
    else q.(call := q.call + (Ret(k) + comma), select := q.select + (Ret(k) + comma),
            outIndices := q.outIndices + [i],
            hasOut := q.hasOut || p.dir == Output,
            hasInOut := q.hasInOut || p.dir == InOut,
            sets := if p.dir == InOut && Supported(p.ty) then q.sets + [Assign(k, i)] else q.sets)
  }

  lemma {:induction false} TextsTurn(ps: seq<Param>, i: nat, call: string, select: string)
    requires i < |ps|
    ensures var p, k := ps[i], Outs(ps, i + 1); var comma := Comma(ps, i);
      && k == Outs(ps, i) + (if p.dir == Input then 0 else 1)
      && call + CallBody(ps, i + 1) == call + CallBody(ps, i) + ((if p.dir == Input then "?" else Ret(k)) + comma)
      && (p.dir == Input ==> SelectBody(ps, i + 1) == SelectBody(ps, i))
      && (p.dir != Input ==> select + SelectBody(ps, i + 1) == select + SelectBody(ps, i) + (Ret(k) + comma))
  {
    hide Ret, Comma;
    var piece := Piece(ps, i) + Comma(ps, i);
    assert CallBody(ps, i + 1) == CallBody(ps, i) + piece;
    assert call + (CallBody(ps, i) + piece) == call + CallBody(ps, i) + piece;
    assert select + (SelectBody(ps, i) + piece) == select + SelectBody(ps, i) + piece;
  }

  lemma {:induction false} ListsTurn(ps: seq<Param>, i: nat, binds: seq<Param>, sets: seq<Assign>, outs: seq<nat>)
    requires i < |ps|
    ensures var p, k := ps[i], Outs(ps, i + 1);
      && binds + InputsBound(ps, i + 1)
         == (if p.dir == Input && Supported(p.ty) then binds + InputsBound(ps, i) + [p] else binds + InputsBound(ps, i))
      && sets + SetsOf(ps, i + 1)
         == (if p.dir == InOut && Supported(p.ty) then sets + SetsOf(ps, i) + [Assign(k, i)] else sets + SetsOf(ps, i))
      && outs + OutIndices(ps, i + 1)
         == (if p.dir != Input then outs + OutIndices(ps, i) + [i] else outs + OutIndices(ps, i))
      && (Has(ps, i + 1, InOut) <==> Has(ps, i, InOut) || p.dir == InOut)
      && (Has(ps, i + 1, Output) <==> Has(ps, i, Output) || p.dir == Output)
  {
    hide Outs;
  }

  lemma {:induction false} CollectedTurn(p0: Parts, name: string, ps: seq<Param>, i: nat)
    requires i < |ps|
    ensures Outs(ps, i + 1) == Outs(ps, i) + (if ps[i].dir == Input then 0 else 1)
    ensures Collected(p0, name, ps, i + 1)
         == Turn(Collected(p0, name, ps, i), ps[i], i, Outs(ps, i + 1), Comma(ps, i))
  {
    hide Ret, Comma, Outs, CallBody, SelectBody, InputsBound, OutIndices, SetsOf, Has, Supported;
    TextsTurn(ps, i, "call " + name + "(", "select ");
    ListsTurn(ps, i, p0.binds, p0.sets, p0.outIndices);
  }

  lemma {:induction false} CollectedNothing(p0: Parts, name: string, ps: seq<Param>)
    ensures Outs(ps, 0) == 0
    ensures Collected(p0, name, ps, 0) == p0.(call := "call " + name + "(", select := "select ")
  {
    assert "call " + name + "(" + "" == "call " + name + "(";
    assert p0.binds + [] == p0.binds && p0.sets + [] == p0.sets && p0.outIndices + [] == p0.outIndices;
  }

  lemma {:induction false} InputsGrow(ps: seq<Param>, i: nat, j: nat)
    requires i <= j <= |ps|
    ensures |InputsBound(ps, i)| <= |InputsBound(ps, j)|
    decreases j
  {
    if i < j {
      InputsGrow(ps, i, j - 1);
    }
  }

  lemma {:induction false} CollectedBinds(p0: Parts, name: string, ps: seq<Param>)
    ensures |Collected(p0, name, ps, |ps|).binds| == |p0.binds| + |InputsBound(ps, |ps|)|
  {
  }

  lemma {:induction false} CollectedCall(p0: Parts, name: string, ps: seq<Param>)
    ensures Collected(p0, name, ps, |ps|).call + ")" == CallText(name, ps)
  {
  }

  lemma {:induction false} ColumnsNone(ps: seq<Param>)
    ensures Columns(ps, []) == []
  {
  }

  lemma {:induction false} ColumnsTurn(ps: seq<Param>, indices: seq<nat>, i: nat)
    requires i < |indices| && forall j | 0 <= j < |indices| :: indices[j] < |ps|
    ensures Columns(ps, indices[..i + 1])
         == Columns(ps, indices[..i]) + if Supported(ps[indices[i]].ty) then [ps[indices[i]]] else []
    ensures |Columns(ps, indices[..i + 1])| <= |Columns(ps, indices)|
    decreases |indices| - i
  {
    assert indices[..i + 1][..i] == indices[..i];
    if i + 1 < |indices| {
      ColumnsTurn(ps, indices, i + 1);
    } else {
      assert indices[..i + 1] == indices;
    }
  }

  lemma {:induction false} TooMany(p0: Parts, name: string, ps: seq<Param>, i: nat)
    requires i < |ps| && ps[i].dir == Input && Supported(ps[i].ty)
    requires |Collected(p0, name, ps, i).binds| >= MAX_BIND_PARAM_NUM - 1
    ensures |p0.binds| + |InputsBound(ps, |ps|)| >= MAX_BIND_PARAM_NUM
  {
    InputsGrow(ps, i + 1, |ps|);
  }

  // The checks made before the call is sent.
  predicate Runs(c: Parts, name: string, ps: seq<Param>) {
    && |c.binds| < MAX_BIND_PARAM_NUM
    && (c.hasInOut ==> c.sets != [])
    && |c.binds| == Placeholders(CallText(name, ps))
  }

  // ---- The connector --------------------------------------------------------------------

  class XMySqlConnector {
    var name: string
    var params: seq<Param>
    var binds: seq<Param>
    var callText: string
    var selectText: string
    var sets: seq<Assign>
    var hasInOut: bool
    var hasOut: bool
    var outIndices: seq<nat>
    var cols: seq<Param>

    ghost predicate Valid()
      reads this
    {
      |name| <= PROCEDURE_NAME_MAX_LEN && |params| <= MAX_BIND_PARAM_NUM
    }

    // Nothing collected since the last InitBindParam.
    ghost predicate Clean()
      reads this
    {
      binds == [] && outIndices == [] && sets == [] && !hasInOut && !hasOut
    }

    constructor ()
      ensures Valid() && Clean() && params == [] && name == "" && cols == []
    {
      name, params, binds, callText, selectText := "", [], [], "", "";
      sets, hasInOut, hasOut, outIndices, cols := [], false, false, [], [];
    }

    method InitBindParam()
      modifies this
      ensures Valid() && Clean() && params == [] && name == "" && cols == old(cols)
    {
      name, params, binds, callText, selectText := "", [], [], "", "";
      sets, hasInOut, hasOut, outIndices := [], false, false, [];
    }

    method SetProcedureName(s: string) returns (ok: bool)
      requires Valid()
      modifies this`name
      ensures Valid()
      ensures ok <==> |s| <= PROCEDURE_NAME_MAX_LEN
      ensures name == if ok then s else old(name)
    {
      if |s| > PROCEDURE_NAME_MAX_LEN {
        return false;
      }
      name := s;
      return true;
    }

    method BindParam(p: Param) returns (ok: bool)
      requires Valid()
      modifies this`params
      ensures Valid()
      ensures ok <==> |old(params)| < MAX_BIND_PARAM_NUM
      ensures params == if ok then old(params) + [p] else old(params)
    {
      if |params| >= MAX_BIND_PARAM_NUM {
        return false;
      }
      params := params + [p];
      return true;
    }

    method BindParamExcute(p: Param) returns (ok: bool)
      modifies this`binds
      ensures ok <==> !Supported(p.ty) || |old(binds)| < MAX_BIND_PARAM_NUM - 1
      ensures binds == if ok && Supported(p.ty) then old(binds) + [p] else old(binds)
    {
      if Supported(p.ty) {
        if |binds| >= MAX_BIND_PARAM_NUM - 1 {
          return false;
        }
        binds := binds + [p];
      }
      return true;
    }

    ghost function Snapshot(): Parts
      reads this
    {
      Parts(callText, selectText, binds, sets, hasInOut, hasOut, outIndices)
    }

    method ExcuteBindParamAndPrepareSetValueSqlStatement() returns (ok: bool)
      requires Valid()
      modifies this`callText, this`selectText, this`binds, this`sets, this`hasInOut, this`hasOut, this`outIndices
      ensures ok ==>
        var c := Collected(old(Snapshot()), name, params, |params|); Snapshot() == c.(call := c.call + ")")
      ensures |old(binds)| < MAX_BIND_PARAM_NUM ==>
        (ok <==> |old(binds)| + |InputsBound(params, |params|)| < MAX_BIND_PARAM_NUM)
    {
      hide Outs, Collected, InputsBound, Ret;
      ghost var p0 := Snapshot();
      callText := "call " + name + "(";
      selectText := "select ";
      var outputs := 0;
      var i := 0;
      CollectedNothing(p0, name, params);
      while i < |params|
        invariant 0 <= i <= |params| && outputs == Outs(params, i)
        invariant Snapshot() == Collected(p0, name, params, i)
        invariant |p0.binds| < MAX_BIND_PARAM_NUM ==> |binds| < MAX_BIND_PARAM_NUM
      {
        CollectedTurn(p0, name, params, i);
        var p := params[i];
        var comma := Comma(params, i);
        if p.dir == Input {
          var bound := BindParamExcute(p);
          if !bound {
            TooMany(p0, name, params, i);
            return false;
          }
          callText := callText + ("?" + comma);
        } else {
          outIndices := outIndices + [i];
          outputs := outputs + 1;
          if p.dir == Output {
            hasOut := true;
          } else {
            hasInOut := true;
            if Supported(p.ty) {
              sets := sets + [Assign(outputs, i)];
            }
          }
          callText := callText + (Ret(outputs) + comma);
          selectText := selectText + (Ret(outputs) + comma);
        }
        i := i + 1;
      }
      CollectedBinds(p0, name, params);
      callText := callText + ")";
      return true;
    }

    // Sends the assignments and the call. `setRan` and `callRan` say whether the
    // library prepares and runs the one and the other when it gets it. Whatever
    // the outcome, the call is sent only on success, and the assignments exactly
    // when there are some, every input could be bound, and the library ran them.
    method ExcuteSql(setRan: bool, callRan: bool) returns (ok: bool, sent: seq<Statement>)
      requires Valid() && |binds| < MAX_BIND_PARAM_NUM
      modifies this`callText, this`selectText, this`binds, this`sets, this`hasInOut, this`hasOut, this`outIndices
      ensures var c := Collected(old(Snapshot()), name, params, |params|);
        && (ok <==> (c.hasInOut ==> setRan) && callRan && Runs(c, name, params))
        && (|c.binds| < MAX_BIND_PARAM_NUM ==> Snapshot() == c.(call := CallText(name, params)))
        && sent == (if |c.binds| < MAX_BIND_PARAM_NUM && c.hasInOut && c.sets != [] && setRan then [SetVars(c.sets)] else [])
          + if ok then [Call(callText, binds)] else []
    {
      hide Collected, Placeholders, CallBody;
      ghost var p0 := Snapshot();
      CollectedBinds(p0, name, params);
      CollectedCall(p0, name, params);
      sent := [];
      ok := ExcuteBindParamAndPrepareSetValueSqlStatement();
      if !ok {
        return;
      }
      if hasInOut {
        if sets == [] || !setRan {
          return false, sent;
        }
        sent := [SetVars(sets)];
      }
      if !callRan || |binds| != Placeholders(callText) {
        return false, sent;
      }
      sent := sent + [Call(callText, binds)];
    }

    method BindCol(p: Param) returns (ok: bool)
      modifies this`cols
      ensures ok <==> !Supported(p.ty) || |old(cols)| < MAX_BIND_PARAM_NUM - 1
      ensures cols == if ok && Supported(p.ty) then old(cols) + [p] else old(cols)
    {
      if Supported(p.ty) {
        if |cols| >= MAX_BIND_PARAM_NUM - 1 {
          return false;
        }
        cols := cols + [p];
      }
      return true;
    }

    method BindOutputCol() returns (ok: bool)
      requires forall j | 0 <= j < |outIndices| :: outIndices[j] < |params|
      modifies this`cols
      ensures ok <==> |Columns(params, outIndices)| < MAX_BIND_PARAM_NUM
      ensures ok ==> cols == Columns(params, outIndices)
    {
      hide Columns;
      cols := [];
      var i := 0;
      ColumnsNone(params);
      while i < |outIndices|
        invariant 0 <= i <= |outIndices|
        invariant cols == Columns(params, outIndices[..i]) && |cols| < MAX_BIND_PARAM_NUM
      {
        ColumnsTurn(params, outIndices, i);
        var bound := BindCol(params[outIndices[i]]);
        if !bound {
          return false;
        }
        i := i + 1;
      }
      assert outIndices[..i] == outIndices;
      return true;
    }

    // Fetches the outputs. `ran` says whether the library accepts and runs the
    // select; it gets one exactly when there is an output.
    method GetOutputResult(ran: bool) returns (ok: bool, sent: seq<Statement>)
      requires forall j | 0 <= j < |outIndices| :: outIndices[j] < |params|
      modifies this`cols
      ensures var few := |Columns(params, outIndices)| < MAX_BIND_PARAM_NUM;
        ok <==> (hasOut || hasInOut) && selectText != "" && ran && few
      ensures sent == if (hasOut || hasInOut) && selectText != "" && ran then [Select(selectText)] else []
      ensures ok ==> cols == Columns(params, outIndices)
    {
      if !hasOut && !hasInOut {
        return false, [];
      }
      if selectText == "" {
        return false, [];
      }
      if !ran {
        return false, [];
      }
      sent := [Select(selectText)];
      ok := BindOutputCol();
    }
  }
}
