// The statements that call a stored procedure: their text, and reading the
// text back (DBLib/XMySqlConnector.cpp).
module SqlStatements {
  import opened Decimals

  const MAX_BIND_PARAM_NUM: nat := 150
  const PROCEDURE_NAME_MAX_LEN: nat := 256
  const SQL_STATEMENT_MAX_LEN: nat := 4096

  datatype Direction = Input | Output | InOut

  // NullType is the one value of the enumeration that no binding function
  // handles.
  datatype DataType =
    | NullType | Char | UnsignedChar | Short | UnsignedShort | Int | UnsignedInt | Int64 | UnsignedInt64
    | Bool | Float | StringFixLen | String | Date | Time | DateTime

  // Address 0 is the null pointer.
  datatype Param = Param(ty: DataType, address: nat, len: nat, dir: Direction)

  // ---- The texts --------------------------------------------------------------------

  // How many of the first `i` parameters return a value, and how many do not.
  function Outs(ps: seq<Param>, i: nat): (k: nat)
    requires i <= |ps|
    ensures k <= i
  {
    if i == 0 then 0 else Outs(ps, i - 1) + if ps[i - 1].dir == Input then 0 else 1
  }

  function Ins(ps: seq<Param>, i: nat): nat
    requires i <= |ps|
  {
    i - Outs(ps, i)
  }

  function Ret(k: nat): string {
    "@ret_" + Decimal(k)
  }

  function Piece(ps: seq<Param>, i: nat): string
    requires i < |ps|
  {
    if ps[i].dir == Input then "?" else Ret(Outs(ps, i + 1))
  }

  function Comma(ps: seq<Param>, i: nat): string {
    if i + 1 == |ps| then "" else ","
  }

  // What the first `i` turns of the loop append to the call and to the select.
  function CallBody(ps: seq<Param>, i: nat): string
    requires i <= |ps|
  {
    if i == 0 then "" else CallBody(ps, i - 1) + (Piece(ps, i - 1) + Comma(ps, i - 1))
  }

  function SelectBody(ps: seq<Param>, i: nat): string
    requires i <= |ps|
  {
    if i == 0 then ""
    else if ps[i - 1].dir == Input then SelectBody(ps, i - 1)
    else SelectBody(ps, i - 1) + (Piece(ps, i - 1) + Comma(ps, i - 1))
  }

  function CallText(name: string, ps: seq<Param>): string {
    "call " + name + "(" + CallBody(ps, |ps|) + ")"
  }

  function SelectText(ps: seq<Param>): string {
    "select " + SelectBody(ps, |ps|)
  }

  // ---- Reading a list of items --------------------------------------------------------

  datatype Item = Hole | Var(k: nat)

  datatype Parsed = Bad | Items(items: seq<Item>)

  function ParseItem(s: string): Parsed {
    if s == "?" then Items([Hole])
    else if |s| > 5 && s[..5] == "@ret_" && Digits(s[5..]) && Value(s[5..]) >= 0 then Items([Var(Value(s[5..]))])
    else Bad
  }

  function FirstComma(s: string): (i: nat)
    ensures i <= |s| && (i < |s| ==> s[i] == ',') && forall j | 0 <= j < i :: s[j] != ','
  {
    if s == "" || s[0] == ',' then 0 else 1 + FirstComma(s[1..])
  }

  function Join(a: Parsed, b: Parsed): Parsed {
    if a.Bad? || b.Bad? then Bad else Items(a.items + b.items)
  }

  // One or more items separated by commas.
  function ParseItems(s: string): Parsed
    decreases |s|
  {
    var i := FirstComma(s);
    if i == |s| then ParseItem(s) else Join(ParseItem(s[..i]), ParseItems(s[i + 1..]))
  }

  lemma {:induction false} FirstCommaOf(a: string, b: string)
    requires forall j | 0 <= j < |a| :: a[j] != ','
    ensures FirstComma(a) == |a|
    ensures FirstComma(a + "," + b) == |a|
  {
    var s := a + "," + b;
    assert s[|a|] == ',';
    assert forall j | 0 <= j < |a| :: s[j] == a[j];
  }

  predicate NoComma(s: string) {
    forall j | 0 <= j < |s| :: s[j] != ','
  }

  lemma {:induction false} ParseStep(a: string, b: string)
    requires NoComma(a)
    ensures ParseItems(a) == ParseItem(a)
    ensures ParseItems(a + "," + b) == Join(ParseItem(a), ParseItems(b))
  {
    hide ParseItem, FirstComma, Join;
    var s := a + "," + b;
    FirstCommaOf(a, b);
    assert s[..|a|] == a && s[|a| + 1..] == b;
  }

  lemma {:induction false} JoinAssociative(x: Parsed, y: Parsed, z: Parsed)
    ensures Join(x, Join(y, z)) == Join(Join(x, y), z)
  {
  }

  lemma {:induction false} SplitAtComma(a: string)
    ensures var i := FirstComma(a); NoComma(a[..i]) && (i < |a| ==> a == a[..i] + "," + a[i + 1..])
  {
    hide FirstComma;
    var i := FirstComma(a);
    if i < |a| {
      assert "," == [a[i]];
      assert a == a[..i] + [a[i]] + a[i + 1..];
    }
  }

  lemma {:induction false} ParseJoin(a: string, b: string)
    ensures ParseItems(a + "," + b) == Join(ParseItems(a), ParseItems(b))
    decreases |a|
  {
    hide ParseItem, ParseItems, FirstComma, NoComma, Join;
    var i := FirstComma(a);
    SplitAtComma(a);
    if i == |a| {
      assert a[..i] == a;
      ParseStep(a, b);
    } else {
      var a0, a1 := a[..i], a[i + 1..];
      ParseStep(a0, a1);
      ParseStep(a0, a1 + "," + b);
      ParseJoin(a1, b);
      JoinAssociative(ParseItem(a0), ParseItems(a1), ParseItems(b));
      assert a + "," + b == a0 + "," + (a1 + "," + b);
    }
  }

  lemma {:induction false} ParseHole()
    ensures ParseItems("?") == Items([Hole])
  {
    FirstCommaOf("?", "");
  }

  lemma {:induction false} ParseVar(k: nat)
    ensures ParseItems(Ret(k)) == Items([Var(k)])
  {
    hide Decimal, Value;
    var s := Ret(k);
    DecimalDigits(k);
    ValueOfDecimal(k);
    assert s[..5] == "@ret_" && s[5..] == Decimal(k);
    assert forall j | 0 <= j < |s| :: s[j] != ',' by {
      assert forall j | 5 <= j < |s| :: s[j] == Decimal(k)[j - 5];
    }
    FirstCommaOf(s, "");
    assert s != "?";
  }

  lemma {:induction false} ParseEmpty()
    ensures ParseItems("") == Bad
  {
  }

  lemma {:induction false} TrailingComma(s: string)
    requires s != "" && s[|s| - 1] == ','
    ensures ParseItems(s) == Bad
  {
    hide ParseItems;
    var a := s[..|s| - 1];
    ParseJoin(a, "");
    ParseEmpty();
    assert s == a + "," + "";
  }

  // ---- What the texts say -------------------------------------------------------------

  function ItemOf(ps: seq<Param>, i: nat): Item
    requires i < |ps|
  {
    if ps[i].dir == Input then Hole else Var(Outs(ps, i + 1))
  }

  function ItemsUpTo(ps: seq<Param>, n: nat): (r: seq<Item>)
    requires n <= |ps|
    ensures |r| == n && forall i | 0 <= i < n :: r[i] == ItemOf(ps, i)
  {
    if n == 0 then [] else ItemsUpTo(ps, n - 1) + [ItemOf(ps, n - 1)]
  }

  function CallItems(ps: seq<Param>): seq<Item> {
    ItemsUpTo(ps, |ps|)
  }

  // The variables 1 to m in order.
  function SelectItems(m: nat): (r: seq<Item>)
    ensures |r| == m && forall i | 0 <= i < m :: r[i] == Var(i + 1)
  {
    if m == 0 then [] else SelectItems(m - 1) + [Var(m)]
  }

  lemma {:induction false} PieceParses(ps: seq<Param>, i: nat)
    requires i < |ps|
    ensures ParseItems(Piece(ps, i)) == Items([ItemOf(ps, i)])
  {
    hide ParseItems;
    ParseHole();
    ParseVar(Outs(ps, i + 1));
  }

  lemma {:induction false} CallPrefixParses(ps: seq<Param>, i: nat, rest: string, items: seq<Item>)
    requires i < |ps| && ParseItems(rest) == Items(items)
    ensures ParseItems(CallBody(ps, i) + rest) == Items(CallItems(ps)[..i] + items)
    decreases i
  {
    hide ParseItems, Piece, ItemOf, Outs;
    if i == 0 {
      assert CallBody(ps, 0) + rest == rest;
    } else {
      var p := Piece(ps, i - 1);
      assert CallBody(ps, i) + rest == CallBody(ps, i - 1) + (p + "," + rest);
      PieceParses(ps, i - 1);
      ParseJoin(p, rest);
      CallPrefixParses(ps, i - 1, p + "," + rest, [ItemOf(ps, i - 1)] + items);
      assert CallItems(ps)[..i] + items == CallItems(ps)[..i - 1] + ([ItemOf(ps, i - 1)] + items);
    }
  }

  // Reading the call text back gives one item for each parameter: a placeholder
  // for an input, the k-th variable for the k-th output.
  lemma {:induction false} CallParses(ps: seq<Param>)
    requires ps != []
    ensures ParseItems(CallBody(ps, |ps|)) == Items(CallItems(ps))
  {
    hide ParseItems, Piece, ItemOf, Outs, CallBody, CallItems, Comma;
    var n := |ps| - 1;
    PieceParses(ps, n);
    CallPrefixParses(ps, n, Piece(ps, n), [ItemOf(ps, n)]);
    CallLast(ps);
  }

  lemma {:induction false} CallLast(ps: seq<Param>)
    requires ps != []
    ensures var n := |ps| - 1;
      && CallBody(ps, |ps|) == CallBody(ps, n) + Piece(ps, n)
      && CallItems(ps) == CallItems(ps)[..n] + [ItemOf(ps, n)]
  {
    hide Piece, ItemOf, ItemsUpTo;
    assert Piece(ps, |ps| - 1) + "" == Piece(ps, |ps| - 1);
  }

  lemma {:induction false} SelectPrefixParses(ps: seq<Param>, i: nat, rest: string, items: seq<Item>)
    requires i < |ps| && ParseItems(rest) == Items(items)
    ensures ParseItems(SelectBody(ps, i) + rest) == Items(SelectItems(Outs(ps, i)) + items)
    decreases i
  {
    hide ParseItems, Ret, SelectBody, SelectItems, Outs;
    if i == 0 {
      SelectBodyNone(ps, rest, items);
    } else if ps[i - 1].dir == Input {
      SelectBodySkip(ps, i);
      SelectPrefixParses(ps, i - 1, rest, items);
    } else {
      var k := Outs(ps, i);
      SelectBodyStep(ps, i, rest);
      ParseVar(k);
      ParseJoin(Ret(k), rest);
      SelectPrefixParses(ps, i - 1, Ret(k) + "," + rest, [Var(k)] + items);
      SelectItemsStep(k, items);
    }
  }

  lemma {:induction false} SelectBodyNone(ps: seq<Param>, rest: string, items: seq<Item>)
    ensures SelectBody(ps, 0) + rest == rest
    ensures SelectItems(Outs(ps, 0)) + items == items
  {
  }

  lemma {:induction false} SelectBodySkip(ps: seq<Param>, i: nat)
    requires 0 < i <= |ps| && ps[i - 1].dir == Input
    ensures SelectBody(ps, i) == SelectBody(ps, i - 1) && Outs(ps, i) == Outs(ps, i - 1)
  {
  }

  lemma {:induction false} SelectBodyStep(ps: seq<Param>, i: nat, rest: string)
    requires 0 < i < |ps| && ps[i - 1].dir != Input
    ensures Outs(ps, i) == Outs(ps, i - 1) + 1
    ensures SelectBody(ps, i) + rest == SelectBody(ps, i - 1) + (Ret(Outs(ps, i)) + "," + rest)
  {
    hide Ret;
    assert Piece(ps, i - 1) == Ret(Outs(ps, i));
  }

  lemma {:induction false} SelectItemsStep(k: nat, items: seq<Item>)
    requires k > 0
    ensures SelectItems(k) + items == SelectItems(k - 1) + ([Var(k)] + items)
  {
    assert SelectItems(k) == SelectItems(k - 1) + [Var(k)];
  }

  // A select with outputs ends in a comma when the last parameter is an input.
  lemma {:induction false} SelectBodyEnds(ps: seq<Param>, i: nat)
    requires i < |ps| && Outs(ps, i) > 0
    ensures var s := SelectBody(ps, i); s != "" && s[|s| - 1] == ','
    decreases i
  {
    if ps[i - 1].dir == Input {
      SelectBodyEnds(ps, i - 1);
    }
  }

  lemma {:induction false} SelectLast(ps: seq<Param>)
    requires ps != [] && ps[|ps| - 1].dir != Input
    ensures var n, k := |ps| - 1, Outs(ps, |ps|);
      k == Outs(ps, n) + 1 && SelectBody(ps, |ps|) == SelectBody(ps, n) + Ret(k)
  {
    hide Ret;
    assert Piece(ps, |ps| - 1) + "" == Piece(ps, |ps| - 1);
  }

  lemma {:induction false} SelectWithTrailingInput(ps: seq<Param>)
    requires ps != [] && ps[|ps| - 1].dir == Input
    ensures ParseItems(SelectBody(ps, |ps|)) == Bad
  {
    hide ParseItems, Outs, SelectBody;
    var n := |ps| - 1;
    SelectBodySkip(ps, |ps|);
    if Outs(ps, n) > 0 {
      SelectBodyEnds(ps, n);
      TrailingComma(SelectBody(ps, n));
    } else {
      NoOutsNoBody(ps, n);
      ParseEmpty();
    }
  }

  // The select reads back as the variables 1 to m in order, exactly when the
  // last parameter returns a value; otherwise it is not a list at all.
  lemma {:induction false} SelectParses(ps: seq<Param>)
    requires ps != []
    ensures var parsed := ParseItems(SelectBody(ps, |ps|));
      if ps[|ps| - 1].dir == Input then parsed == Bad else parsed == Items(SelectItems(Outs(ps, |ps|)))
  {
    hide ParseItems, Outs, SelectBody, SelectItems, Ret;
    if ps[|ps| - 1].dir == Input {
      SelectWithTrailingInput(ps);
    } else {
      var n, k := |ps| - 1, Outs(ps, |ps|);
      SelectLast(ps);
      ParseVar(k);
      SelectPrefixParses(ps, n, Ret(k), [Var(k)]);
      SelectItemsStep(k, []);
    }
  }

  lemma {:induction false} NoOutsNoBody(ps: seq<Param>, i: nat)
    requires i <= |ps| && Outs(ps, i) == 0
    ensures SelectBody(ps, i) == ""
  {
    if i > 0 {
      NoOutsNoBody(ps, i - 1);
    }
  }

  // ---- Size ---------------------------------------------------------------------------

  lemma {:induction false} BodyLength(ps: seq<Param>, i: nat)
    requires i <= |ps| <= MAX_BIND_PARAM_NUM
    ensures |CallBody(ps, i)| <= 9 * i && |SelectBody(ps, i)| <= 9 * i
  {
    hide Decimal;
    if i > 0 {
      BodyLength(ps, i - 1);
      DecimalDigits(Outs(ps, i));
    }
  }

  // No list of parameters that BindParam accepts overflows the buffers.
  lemma {:induction false} TextsFit(name: string, ps: seq<Param>)
    requires |name| <= PROCEDURE_NAME_MAX_LEN && |ps| <= MAX_BIND_PARAM_NUM
    ensures |CallText(name, ps)| <= SQL_STATEMENT_MAX_LEN
    ensures |SelectText(ps)| <= SQL_STATEMENT_MAX_LEN
  {
    hide CallBody, SelectBody;
    BodyLength(ps, |ps|);
  }

  // ---- Placeholders ---------------------------------------------------------------------

  // The number of placeholders the server finds in a statement.
  function Placeholders(s: string): nat {
    if s == "" then 0 else Placeholders(s[1..]) + if s[0] == '?' then 1 else 0
  }

  lemma {:induction false} PlaceholdersConcat(a: string, b: string)
    ensures Placeholders(a + b) == Placeholders(a) + Placeholders(b)
  {
    if a == "" {
      assert a + b == b;
    } else {
      PlaceholdersConcat(a[1..], b);
      assert (a + b)[1..] == a[1..] + b;
    }
  }

  lemma {:induction false} NoPlaceholders(s: string)
    requires forall i | 0 <= i < |s| :: s[i] != '?'
    ensures Placeholders(s) == 0
  {
    if s != "" {
      NoPlaceholders(s[1..]);
    }
  }

  lemma {:induction false} PiecePlaceholders(ps: seq<Param>, i: nat)
    requires i < |ps|
    ensures Placeholders(Piece(ps, i) + Comma(ps, i)) == if ps[i].dir == Input then 1 else 0
  {
    hide Decimal;
    PlaceholdersConcat(Piece(ps, i), Comma(ps, i));
    NoPlaceholders(Comma(ps, i));
    if ps[i].dir != Input {
      var k := Outs(ps, i + 1);
      DecimalDigits(k);
      assert forall j | 5 <= j < |Ret(k)| :: Ret(k)[j] == Decimal(k)[j - 5];
      NoPlaceholders(Ret(k));
    }
  }

  lemma {:induction false} BodyPlaceholders(ps: seq<Param>, i: nat)
    requires i <= |ps|
    ensures Placeholders(CallBody(ps, i)) == Ins(ps, i)
  {
    hide Placeholders, Piece, Comma;
    if i > 0 {
      BodyPlaceholders(ps, i - 1);
      PiecePlaceholders(ps, i - 1);
      PlaceholdersConcat(CallBody(ps, i - 1), Piece(ps, i - 1) + Comma(ps, i - 1));
    } else {
      NoPlaceholders("");
    }
  }

  // The call has one placeholder for each input, besides any in the name.
  lemma {:induction false} CallPlaceholders(name: string, ps: seq<Param>)
    ensures Placeholders(CallText(name, ps)) == Placeholders(name) + Ins(ps, |ps|)
  {
    hide Placeholders, CallBody;
    BodyPlaceholders(ps, |ps|);
    NoPlaceholders("call ");
    NoPlaceholders("(");
    NoPlaceholders(")");
    PlaceholdersConcat("call ", name);
    PlaceholdersConcat("call " + name, "(");
    PlaceholdersConcat("call " + name + "(", CallBody(ps, |ps|));
    PlaceholdersConcat("call " + name + "(" + CallBody(ps, |ps|), ")");
  }
}
