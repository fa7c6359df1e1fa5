/** The permission codec of the process syscalls: a user program asks for a
    mapping with a 3-bit `port` mask (bit 0 readable, bit 1 writable, bit 2
    executable) and the kernel turns it into the `MapPermission` flag set of
    its address space, always adding the user-accessible flag. */
module Permission {
  import opened Wrappers
  import opened Machine

  /** The flags of `MapPermission`. */
  datatype Flag = R | W | X | U

  /** `MapPermission` is a bit-set of flags; here it is a set. */
  type MapPermission = set<Flag>

  /** 2 to the power k. */
  function Pow2(k: nat): (r: nat)
    ensures r >= 1
  {
    if k == 0 then 1 else 2 * Pow2(k - 1)
  }

  /** Bit k of `port` is set, i.e. `port & (1 << k) != 0`. */
  predicate Bit(port: nat, k: nat) {
    (port / Pow2(k)) % 2 == 1
  }

  /** The bit of the port mask that requests `f`; the user flag has none. */
  function BitOf(f: Flag): (k: nat)
    requires f != U
    ensures k < 3
  {
    match f
    case R => 0
    case W => 1
    case X => 2
  }

  /** Reference reading of a port mask, bit by bit: the flags whose bit is
      set, plus the user flag. */
  function Requested(port: nat): MapPermission {
    (if Bit(port, 0) then {R} else {})
    + (if Bit(port, 1) then {W} else {})
    + (if Bit(port, 2) then {X} else {})
    + {U}
  }

  /** A permission set a user program can obtain through the syscall ABI:
      user-accessible, and at least one of R, W, X. */
  predicate IsUserPermission(p: MapPermission) {
    U in p && (R in p || W in p || X in p)
  }

  /** `change_port_to_permission`, written as its case table. Only the
      seven masks 1..=7 decode; 0 and every value from 8 up are refused. */
  function Decode(port: Usize): (r: Option<MapPermission>)
    ensures r.Some? <==> 1 <= port <= 7
    ensures r.Some? ==> U in r.value
    ensures r.Some? ==> (R in r.value <==> Bit(port, 0))
    ensures r.Some? ==> (W in r.value <==> Bit(port, 1))
    ensures r.Some? ==> (X in r.value <==> Bit(port, 2))
  {
    match port
    case 1 => Some({R, U})
    case 2 => Some({W, U})
    case 4 => Some({X, U})
    case 3 => Some({R, W, U})
    case 5 => Some({R, X, U})
    case 6 => Some({W, X, U})
    case 7 => Some({W, X, R, U})
    case _ => None
  }

  /** The mask of a permission set: the inverse of `Decode` on user permissions. */
  function Encode(p: MapPermission): (port: Usize)
    ensures port <= 7
    ensures Bit(port, 0) <==> R in p
    ensures Bit(port, 1) <==> W in p
    ensures Bit(port, 2) <==> X in p
  {
    (if R in p then 1 else 0) + (if W in p then 2 else 0) + (if X in p then 4 else 0)
  }

  /** A mask below 8 is determined by its three low bits. */
  lemma MaskFromBits(a: nat, b: nat)
    requires a < 8 && b < 8
    requires forall k :: 0 <= k < 3 ==> (Bit(a, k) <==> Bit(b, k))
    ensures a == b
  {
    assert Bit(a, 0) <==> Bit(b, 0);
    assert Bit(a, 1) <==> Bit(b, 1);
    assert Bit(a, 2) <==> Bit(b, 2);
    assert Pow2(1) == 2 && Pow2(2) == 4;
  }

  /** The case table agrees with the bit-by-bit reading of the mask, in both
      directions: a mask decodes exactly when it is one of 1..=7, and then to
      the flags its bits request plus U. */
  lemma DecodeMatchesBits(port: Usize)
    ensures Decode(port) == if 1 <= port <= 7 then Some(Requested(port)) else None
  {
    if 1 <= port <= 7 {
      var p := Decode(port).value;
      forall f: Flag ensures f in p <==> f in Requested(port) {
        if f != U { assert Bit(port, BitOf(f)) <==> f in p; }
      }
      assert p == Requested(port);
    }
  }

  /** Every decoded mask encodes back to itself. */
  lemma EncodeDecode(port: Usize)
    requires Decode(port).Some?
    ensures Encode(Decode(port).value) == port
  {
    var q := Encode(Decode(port).value);
    MaskFromBits(q, port);
  }

  /** Every user permission is obtained by decoding its own encoding. */
  lemma DecodeEncode(p: MapPermission)
    requires IsUserPermission(p)
    ensures Decode(Encode(p)) == Some(p)
  {
    var d := Decode(Encode(p)).value;
    forall f: Flag ensures f in d <==> f in p {
      if f != U { assert Bit(Encode(p), BitOf(f)) <==> f in p; }
    }
    assert d == p;
  }

  /** The sets the decoder can produce are exactly the user permissions. */
  lemma DecodeImage(p: MapPermission)
    ensures (exists port: Usize :: Decode(port) == Some(p)) <==> IsUserPermission(p)
  {
    if IsUserPermission(p) {
      DecodeEncode(p);
    }
  }

  /** Distinct valid masks decode to distinct permission sets. */
  lemma DecodeInjective(a: Usize, b: Usize)
    requires Decode(a).Some?
    requires Decode(a) == Decode(b)
    ensures a == b
  {
    EncodeDecode(a);
    EncodeDecode(b);
  }

  /** Worked cases of the port table. */
  lemma DecodeExamples()
    ensures Decode(3) == Some({R, W, U})
    ensures Decode(7) == Some({R, W, X, U})
    ensures Decode(0) == None && Decode(8) == None
  {
    assert {W, X, R, U} == {R, W, X, U};
  }
}
