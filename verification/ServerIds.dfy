// Server identities: include/Server_Define.h packs a type byte and three
// 16-bit numbers into one 64-bit value.
module ServerIds {

  const INVALID: nat := 0
  const MASTER: nat := 1
  const LOGIN: nat := 2
  const GATE: nat := 3
  const LOBBY: nat := 4
  const GAME: nat := 5
  const DB: nat := 6
  const ACCOUNT_DB: nat := 7
  const MAX_KIND: nat := 8

  const P16: nat := 0x1_0000
  const P32: nat := 0x1_0000_0000
  const P48: nat := 0x1_0000_0000_0000
  const P56: nat := 0x100_0000_0000_0000
  const P64: nat := 0x1_0000_0000_0000_0000

  type Id = n: nat | n < P64

  datatype Option<+T> = None | Some(value: T)

  datatype ServerID = ServerID(kind: nat, area: nat, group: nat, server: nat) {
    predicate InRange() {
      kind < 0x100 && area < P16 && group < P16 && server < P16
    }
  }

  // GetServerUniqueID, and the same packing repeated in LServerManager. The
  // fields do not overlap, so the ors are sums.
  function Pack(s: ServerID): (n: nat)
    requires s.InRange()
    ensures n < P56
  {
    s.kind * P48 + s.area * P32 + s.group * P16 + s.server
  }

  // The masks and shifts of SetServerID; the top byte is ignored.
  function Unpack(n: Id): (s: ServerID)
    ensures s.InRange()
  {
    ServerID(n / P48 % 0x100, n / P32 % P16, n / P16 % P16, n % P16)
  }

  function Kind(n: Id): nat {
    Unpack(n).kind
  }

  // SetServerID refuses the type values that name no server.
  function SetServerID(n: Id): (r: Option<ServerID>)
    ensures r.Some? ==> r.value.InRange() && n != 0
  {
    var s := Unpack(n);
    if s.kind == INVALID || s.kind >= MAX_KIND then None else Some(s)
  }

  // The type lies above the area, the area above the group, the group above the
  // number, each in bits of its own.
  lemma {:induction false} Layout(s: ServerID)
    requires s.InRange()
    ensures var n := Pack(s);
      && n / 0x1_0000_0000_0000 == s.kind
      && n / 0x1_0000_0000 % 0x1_0000 == s.area
      && n / 0x1_0000 % 0x1_0000 == s.group
      && n % 0x1_0000 == s.server
  {
    UnpackPack(s);
  }

  lemma {:induction false} UnpackPack(s: ServerID)
    requires s.InRange()
    ensures Unpack(Pack(s)) == s
  {
    var n := Pack(s);
    assert n / P16 == s.kind * P32 + s.area * P16 + s.group;
    assert n / P32 == s.kind * P16 + s.area;
    assert n / P48 == s.kind;
  }

  // Unpacking and packing again returns the value exactly when its top byte is
  // clear.
  lemma {:induction false} PackUnpack(n: Id)
    ensures Pack(Unpack(n)) == n % P56
    ensures Pack(Unpack(n)) == n <==> n < P56
  {
    var a, b, c := n / P16, n / P32, n / P48;
    assert b == a / P16 && c == b / P16;
    assert n == a * P16 + n % P16;
    assert a == b * P16 + a % P16;
    assert b == c * P16 + b % P16;
    var d := n / P56;
    assert d == c / 0x100;
    assert c == d * 0x100 + c % 0x100;
    assert n == d * P56 + (c % 0x100 * P48 + b % P16 * P32 + a % P16 * P16 + n % P16);
  }

  // Looking a server up by its four fields and by its packed identity agree.
  lemma {:induction false} PackInjective(s: ServerID, t: ServerID)
    requires s.InRange() && t.InRange()
    ensures Pack(s) == Pack(t) <==> s == t
  {
    UnpackPack(s);
    UnpackPack(t);
  }
}
