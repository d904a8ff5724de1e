/** flags.go: the kind of a request in the top bits of its 64-bit user data, the descriptor or
    key below. */
module Flags {

  const ACCEPT_DATA_FLAG: bv64 := 0x8000_0000_0000_0000
  const READ_DATA_FLAG: bv64 := 0x4000_0000_0000_0000
  const WRITE_DATA_FLAG: bv64 := 0x2000_0000_0000_0000
  const ADD_CONN_FLAG: bv64 := 0x1000_0000_0000_0000
  const CLOSE_CONN_FLAG: bv64 := 0x0800_0000_0000_0000
  const ALL_FLAGS_MASK: bv64 := ACCEPT_DATA_FLAG | READ_DATA_FLAG | WRITE_DATA_FLAG | ADD_CONN_FLAG | CLOSE_CONN_FLAG

  datatype Kind = Accept | Read | Write | AddConn | CloseConn

  function Flag(kind: Kind): bv64 {
    match kind
    case Accept => ACCEPT_DATA_FLAG
    case Read => READ_DATA_FLAG
    case Write => WRITE_DATA_FLAG
    case AddConn => ADD_CONN_FLAG
    case CloseConn => CLOSE_CONN_FLAG
  }

  function Pack(kind: Kind, key: bv64): bv64 {
    Flag(kind) | key
  }

  function Unpack(data: bv64): bv64 {
    data & !ALL_FLAGS_MASK
  }

  predicate Tests(data: bv64, kind: Kind) {
    data & Flag(kind) > 0
  }

  /** Packing is undone, and the packed kind is the only one seen, exactly if the key leaves
      the five flag bits free. */
  lemma RoundTrip(kind: Kind, key: bv64)
    ensures Unpack(Pack(kind, key)) == key <==> key & ALL_FLAGS_MASK == 0
    ensures (forall other :: Tests(Pack(kind, key), other) <==> other == kind) <==> key & ALL_FLAGS_MASK & !Flag(kind) == 0
  {
    var data := Pack(kind, key);
    if key & ALL_FLAGS_MASK & !Flag(kind) == 0 {
      forall other ensures Tests(data, other) <==> other == kind { OnlyOne(kind, key, other); }
    } else {
      var other := Stray(kind, key);
      assert Tests(data, other) && other != kind;
    }
  }

  lemma OnlyOne(kind: Kind, key: bv64, other: Kind)
    requires key & ALL_FLAGS_MASK & !Flag(kind) == 0
    ensures Tests(Pack(kind, key), other) <==> other == kind
  {
  }

  /** A flag of `key` other than the one of `kind`. */
  lemma Stray(kind: Kind, key: bv64) returns (other: Kind)
    requires key & ALL_FLAGS_MASK & !Flag(kind) != 0
    ensures other != kind && Tests(Pack(kind, key), other)
  {
    if kind != Accept && Tests(key, Accept) {
      other := Accept;
    } else if kind != Read && Tests(key, Read) {
      other := Read;
    } else if kind != Write && Tests(key, Write) {
      other := Write;
    } else if kind != AddConn && Tests(key, AddConn) {
      other := AddConn;
    } else {
      LastFlag(kind, key);
      other := CloseConn;
    }
    PackKeeps(kind, key, other);
  }

  lemma PackKeeps(kind: Kind, key: bv64, other: Kind)
    requires Tests(key, other)
    ensures Tests(Pack(kind, key), other)
  {
    OrKeeps(Flag(kind), key, Flag(other));
  }

  lemma OrKeeps(a: bv64, b: bv64, mask: bv64)
    requires b & mask > 0
    ensures (a | b) & mask > 0
  {
  }

  lemma LastFlag(kind: Kind, key: bv64)
    requires key & ALL_FLAGS_MASK & !Flag(kind) != 0
    requires kind == Accept || !Tests(key, Accept)
    requires kind == Read || !Tests(key, Read)
    requires kind == Write || !Tests(key, Write)
    requires kind == AddConn || !Tests(key, AddConn)
    ensures kind != CloseConn && Tests(key, CloseConn)
  {
  }
}
