/** The integer push instruction of the TON virtual machine (section A.4.1 of its specification) as the
    node writes and reads it, and the virtual-channel conditional built from six of them. */
module Codec {
  import opened Prelude

  type Bits = seq<bool>

  function Abs(v: int): nat { if v < 0 then -v else v }

  function Pow2(n: nat): (r: nat)
    ensures r > 0
  {
    if n == 0 then 1 else 2 * Pow2(n - 1)
  }

  /** `BitLen` of a magnitude. */
  function BitLen(n: nat): nat { if n == 0 then 0 else 1 + BitLen(n / 2) }

  lemma {:induction false} BitLenBound(n: nat, k: nat)
    ensures BitLen(n) <= k <==> n < Pow2(k)
    decreases k
  {
    if k > 0 && n > 0 {
      BitLenBound(n / 2, k - 1);
    }
  }

  /** The low `w` bits in two's complement, most significant first. */
  function Encode(v: int, w: nat): (r: Bits)
    ensures |r| == w
    decreases w
  {
    if w == 0 then [] else Encode(v / 2, w - 1) + [v % 2 == 1]
  }

  function Unsigned(b: Bits): nat
    decreases |b|
  {
    if b == [] then 0 else 2 * Unsigned(b[..|b| - 1]) + (if b[|b| - 1] then 1 else 0)
  }

  function Signed(b: Bits): int
    decreases |b|
  {
    if b == [] then 0
    else if |b| == 1 then (if b[0] then -1 else 0)
    else 2 * Signed(b[..|b| - 1]) + (if b[|b| - 1] then 1 else 0)
  }

  lemma {:induction false} UnsignedRoundTrip(n: nat, w: nat)
    requires n < Pow2(w)
    ensures Unsigned(Encode(n, w)) == n
    decreases w
  {
    if w > 0 {
      UnsignedRoundTrip(n / 2, w - 1);
      assert Encode(n, w)[..w - 1] == Encode(n / 2, w - 1);
    }
  }

  lemma {:induction false} SignedRoundTrip(v: int, w: nat)
    requires w > 0 && 0 - Pow2(w - 1) <= v < Pow2(w - 1)
    ensures Signed(Encode(v, w)) == v
    decreases w
  {
    if w == 1 {
      assert Encode(v, 1) == [v % 2 == 1];
    } else {
      SignedRoundTrip(v / 2, w - 1);
      assert Encode(v, w)[..w - 1] == Encode(v / 2, w - 1);
    }
  }

  lemma Fits(v: int, w: nat)
    requires BitLen(Abs(v)) < w
    ensures Signed(Encode(v, w)) == v
  {
    BitLenBound(Abs(v), w - 1);
    SignedRoundTrip(v, w);
  }

  // ---------- PUSHINT ----------

  const PUSHINT_8: nat := 0x80
  const PUSHINT_16: nat := 0x81
  const PUSHINT_LONG: nat := 0x82
  const OP_BITS: nat := 8
  const SIZE_BITS: nat := 5
  const BYTE_BITS: nat := 8
  const WORD_BITS: nat := 16
  /** The widest integer the machine has, sign included. */
  const MAX_BITS: nat := 257

  /** Size field of the long form: a signed integer of `bits` bits needs 19 + 8 * l. */
  function LongSize(bits: nat): (l: nat)
    ensures 19 + 8 * l >= bits && (l > 0 ==> 19 + 8 * (l - 1) < bits)
  {
    if bits <= 19 then 0 else (bits - 19 + 7) / 8
  }

  function ShortForm(op: nat, v: int, w: nat): Bits {
    Encode(op, OP_BITS) + Encode(v, w)
  }

  function SizedForm(v: int, l: nat, w: nat): Bits {
    Encode(PUSHINT_LONG, OP_BITS) + Encode(l, SIZE_BITS) + Encode(v, w)
  }

  function PaddedForm(v: int, l: nat, pad: Bits): Bits {
    Encode(PUSHINT_LONG, OP_BITS) + Encode(l, SIZE_BITS) + pad + Encode(v, MAX_BITS)
  }

  /** The long form; a payload wider than the machine's integers is padded with the sign. */
  function LongForm(v: int, l: nat): Bits {
    var x := 19 + 8 * l;
    if x > MAX_BITS then PaddedForm(v, l, Encode(if v < 0 then -1 else 0, x - MAX_BITS)) else SizedForm(v, l, x)
  }

  /** The form chosen for a magnitude of `len` bits. */
  function PushWide(v: int, len: nat): Bits {
    if len < BYTE_BITS then ShortForm(PUSHINT_8, v, BYTE_BITS)
    else if len < WORD_BITS then ShortForm(PUSHINT_16, v, WORD_BITS)
    else LongForm(v, LongSize(len + 1))
  }

  /** `PushIntOP`. */
  function PushInt(v: int): Bits
    requires BitLen(Abs(v)) <= 256
  {
    PushWide(v, BitLen(Abs(v)))
  }

  function Take(code: Bits, n: nat): Result<(Bits, Bits)> {
    if n <= |code| then Ok((code[..n], code[n..])) else Err
  }

  function ReadSigned(code: Bits, n: nat): Result<(int, Bits)> {
    match Take(code, n)
    case Err => Err
    case Ok((b, rest)) => Ok((Signed(b), rest))
  }

  /** The long form after its opcode; bits beyond the machine's width are dropped. */
  function ReadLong(code: Bits): Result<(int, Bits)> {
    match Take(code, SIZE_BITS)
    case Err => Err
    case Ok((size, body)) =>
      var x := Unsigned(size) * 8 + 19;
      if x <= MAX_BITS then ReadSigned(body, x)
      else match Take(body, x - MAX_BITS)
        case Err => Err
        case Ok((_, tail)) => ReadSigned(tail, MAX_BITS)
  }

  /** `ReadIntOP`: the value and what is left of the slice. */
  function ReadInt(code: Bits): Result<(int, Bits)> {
    match Take(code, OP_BITS)
    case Err => Err
    case Ok((op, rest)) =>
      var prefix := Unsigned(op);
      if prefix == PUSHINT_8 then ReadSigned(rest, BYTE_BITS)
      else if prefix == PUSHINT_16 then ReadSigned(rest, WORD_BITS)
      else if prefix == PUSHINT_LONG then ReadLong(rest)
      else Err
  }

  lemma TakeFirst(a: Bits, b: Bits)
    ensures Take(a + b, |a|) == Ok((a, b))
  {
  }

  lemma OpcodeRoundTrip(op: nat)
    requires op < 256
    ensures Unsigned(Encode(op, OP_BITS)) == op
  {
    assert Pow2(8) == 256;
    UnsignedRoundTrip(op, OP_BITS);
  }

  lemma SizeRoundTrip(l: nat)
    requires l < 32
    ensures Unsigned(Encode(l, SIZE_BITS)) == l
  {
    assert Pow2(5) == 32;
    UnsignedRoundTrip(l, SIZE_BITS);
  }

  lemma ReadOpcode(op: nat, tail: Bits)
    requires op < 256
    ensures ReadInt(Encode(op, OP_BITS) + tail) ==
            if op == PUSHINT_8 then ReadSigned(tail, BYTE_BITS)
            else if op == PUSHINT_16 then ReadSigned(tail, WORD_BITS)
            else if op == PUSHINT_LONG then ReadLong(tail)
            else Err
  {
    OpcodeRoundTrip(op);
    TakeFirst(Encode(op, OP_BITS), tail);
  }

  lemma ReadValue(v: int, w: nat, rest: Bits)
    requires BitLen(Abs(v)) < w
    ensures ReadSigned(Encode(v, w) + rest, w) == Ok((v, rest))
  {
    Fits(v, w);
    TakeFirst(Encode(v, w), rest);
  }

  lemma ReadSized(size: Bits, tail: Bits)
    requires |size| == SIZE_BITS && Unsigned(size) * 8 + 19 <= MAX_BITS
    ensures ReadLong(size + tail) == ReadSigned(tail, Unsigned(size) * 8 + 19)
  {
  }

  lemma ReadPadded(size: Bits, pad: Bits, tail: Bits)
    requires |size| == SIZE_BITS && |pad| > 0 && Unsigned(size) * 8 + 19 == MAX_BITS + |pad|
    ensures ReadLong(size + (pad + tail)) == ReadSigned(tail, MAX_BITS)
  {
  }

  lemma Reassociate(a: Bits, b: Bits, c: Bits, d: Bits, e: Bits)
    ensures a + b + c == a + (b + c)
    ensures a + b + c + d == a + (b + (c + d))
    ensures a + b + c + d + e == a + (b + (c + (d + e)))
  {
  }

  lemma ReadPaddedValue(v: int, l: nat, pad: Bits, rest: Bits)
    requires BitLen(Abs(v)) < MAX_BITS && l < 32 && |pad| > 0 && 19 + 8 * l == MAX_BITS + |pad|
    ensures ReadInt(PaddedForm(v, l, pad) + rest) == Ok((v, rest))
  {
    var op, size, e := Encode(PUSHINT_LONG, OP_BITS), Encode(l, SIZE_BITS), Encode(v, MAX_BITS);
    SizeRoundTrip(l);
    Reassociate(op, size, pad, e, rest);
    ReadOpcode(PUSHINT_LONG, size + (pad + (e + rest)));
    ReadPadded(size, pad, e + rest);
    ReadValue(v, MAX_BITS, rest);
  }

  lemma ReadSizedValue(v: int, l: nat, x: nat, rest: Bits)
    requires BitLen(Abs(v)) < x && x == 19 + 8 * l && x <= MAX_BITS
    ensures ReadInt(SizedForm(v, l, x) + rest) == Ok((v, rest))
  {
    var op, size, e := Encode(PUSHINT_LONG, OP_BITS), Encode(l, SIZE_BITS), Encode(v, x);
    SizeRoundTrip(l);
    Reassociate(op, size, e, rest, []);
    ReadOpcode(PUSHINT_LONG, size + (e + rest));
    ReadSized(size, e + rest);
    ReadValue(v, x, rest);
  }

  lemma LongFormIs(v: int, l: nat)
    ensures 19 + 8 * l > MAX_BITS ==>
              LongForm(v, l) == PaddedForm(v, l, Encode(if v < 0 then -1 else 0, 19 + 8 * l - MAX_BITS))
    ensures 19 + 8 * l <= MAX_BITS ==> LongForm(v, l) == SizedForm(v, l, 19 + 8 * l)
  {
  }

  lemma ReadLongForm(v: int, l: nat, rest: Bits)
    requires BitLen(Abs(v)) < MAX_BITS && BitLen(Abs(v)) < 19 + 8 * l && l < 32
    ensures ReadInt(LongForm(v, l) + rest) == Ok((v, rest))
  {
    LongFormIs(v, l);
    if 19 + 8 * l > MAX_BITS {
      ReadPaddedValue(v, l, Encode(if v < 0 then -1 else 0, 19 + 8 * l - MAX_BITS), rest);
    } else {
      ReadSizedValue(v, l, 19 + 8 * l, rest);
    }
  }

  lemma ReadShortForm(op: nat, v: int, w: nat, rest: Bits)
    requires (op == PUSHINT_8 && w == BYTE_BITS) || (op == PUSHINT_16 && w == WORD_BITS)
    requires BitLen(Abs(v)) < w
    ensures ReadInt(ShortForm(op, v, w) + rest) == Ok((v, rest))
  {
    Reassociate(Encode(op, OP_BITS), Encode(v, w), rest, [], []);
    ReadOpcode(op, Encode(v, w) + rest);
    ReadValue(v, w, rest);
  }

  lemma PushWideThenRead(v: int, len: nat, rest: Bits)
    requires BitLen(Abs(v)) <= len <= 256
    ensures ReadInt(PushWide(v, len) + rest) == Ok((v, rest))
  {
    if len < BYTE_BITS {
      ReadShortForm(PUSHINT_8, v, BYTE_BITS, rest);
    } else if len < WORD_BITS {
      ReadShortForm(PUSHINT_16, v, WORD_BITS, rest);
    } else {
      ReadLongForm(v, LongSize(len + 1), rest);
    }
  }

  /** Reading back an encoded integer, whatever follows it, gives the integer and what follows. */
  lemma PushThenRead(v: int, rest: Bits)
    requires BitLen(Abs(v)) <= 256
    ensures ReadInt(PushInt(v) + rest) == Ok((v, rest))
  {
    PushWideThenRead(v, BitLen(Abs(v)), rest);
  }

  /** The bits of an encoded integer, by the machine's numbers: opcode 128 and 8 bits of value, 129 and 16 bits, or
      130, a size `l` of 5 bits and 8 * l + 19 bits of value, the least that holds it with its sign. */
  predicate Laid(code: Bits, v: int, len: nat) {
    if len < 8 then LaidShort(code, v, 128, 8)
    else if len < 16 then LaidShort(code, v, 129, 16)
    else LaidLong(code, v, len)
  }

  predicate LaidShort(code: Bits, v: int, op: nat, w: nat) {
    |code| == 8 + w && Unsigned(code[..8]) == op && Signed(code[8..]) == v
  }

  /** Bits beyond the 257 of the machine's integers repeat the sign. */
  predicate LaidLong(code: Bits, v: int, len: nat) {
    && |code| >= 13 && Unsigned(code[..8]) == 130
    && var l := Unsigned(code[8..13]);
       && |code| == 13 + 8 * l + 19 && len < 8 * l + 19 && (l > 0 ==> len >= 8 * (l - 1) + 19)
       && var extra := if 8 * l + 19 > 257 then 8 * l + 19 - 257 else 0;
          Signed(code[13 + extra..]) == v && forall i :: 13 <= i < 13 + extra ==> code[i] == (v < 0)
  }

  lemma {:induction false} AllSign(v: int, w: nat)
    requires v == 0 || v == -1
    ensures forall i :: 0 <= i < w ==> Encode(v, w)[i] == (v == -1)
    decreases w
  {
    if w > 0 {
      AllSign(v / 2, w - 1);
    }
  }

  lemma ShortIsLaid(op: nat, v: int, w: nat)
    requires op < 256 && BitLen(Abs(v)) < w
    ensures
      var code := ShortForm(op, v, w);
      |code| == 8 + w && Unsigned(code[..8]) == op && Signed(code[8..]) == v
  {
    OpcodeRoundTrip(op);
    Fits(v, w);
    var code := ShortForm(op, v, w);
    assert code[..8] == Encode(op, OP_BITS) && code[8..] == Encode(v, w);
  }

  lemma SizedIsLaid(v: int, l: nat, w: nat, code: Bits)
    requires l < 32 && BitLen(Abs(v)) < w && code == SizedForm(v, l, w)
    ensures
      |code| == 13 + w && Unsigned(code[..8]) == 130 && Unsigned(code[8..13]) == l && Signed(code[13..]) == v
  {
    OpcodeRoundTrip(130);
    SizeRoundTrip(l);
    Fits(v, w);
    assert code[..8] == Encode(PUSHINT_LONG, OP_BITS) && code[8..13] == Encode(l, SIZE_BITS)
           && code[13..] == Encode(v, w);
  }

  lemma PaddedParts(v: int, l: nat, pad: Bits, code: Bits)
    requires l < 32 && BitLen(Abs(v)) < 257 && code == PaddedForm(v, l, pad)
    ensures |code| == 13 + |pad| + 257 && code[13..13 + |pad|] == pad
    ensures code[..8] == Encode(PUSHINT_LONG, OP_BITS) && code[8..13] == Encode(l, SIZE_BITS)
    ensures code[13 + |pad|..] == Encode(v, MAX_BITS)
  {
  }

  lemma PaddedIsLaid(v: int, l: nat, pad: Bits, code: Bits)
    requires l < 32 && BitLen(Abs(v)) < 257 && code == PaddedForm(v, l, pad)
    ensures
      && |code| == 13 + |pad| + 257 && Unsigned(code[..8]) == 130 && Unsigned(code[8..13]) == l
      && (forall i :: 13 <= i < 13 + |pad| ==> code[i] == pad[i - 13]) && Signed(code[13 + |pad|..]) == v
  {
    OpcodeRoundTrip(130);
    SizeRoundTrip(l);
    Fits(v, MAX_BITS);
    PaddedParts(v, l, pad, code);
    assert forall i :: 13 <= i < 13 + |pad| ==> code[i] == code[13..13 + |pad|][i - 13];
  }

  /** The parts read off a code are its layout. */
  lemma PartsAreLaid(code: Bits, v: int, len: nat, l: nat, extra: nat)
    requires l == LongSize(len + 1) && |code| == 13 + 8 * l + 19 && extra == (if 8 * l > 238 then 8 * l - 238 else 0)
    requires Unsigned(code[..8]) == 130 && Unsigned(code[8..13]) == l && Signed(code[13 + extra..]) == v
    requires forall i :: 13 <= i < 13 + extra ==> code[i] == (v < 0)
    ensures LaidLong(code, v, len)
  {
  }

  lemma PaddedCodeIsLaid(v: int, len: nat, l: nat, pad: Bits, code: Bits)
    requires BitLen(Abs(v)) < MAX_BITS && l == LongSize(len + 1) && l < 32 && 8 * l == 238 + |pad| && |pad| > 0
    requires code == PaddedForm(v, l, pad) && forall i :: 0 <= i < |pad| ==> pad[i] == (v < 0)
    ensures LaidLong(code, v, len)
  {
    PaddedIsLaid(v, l, pad, code);
    PartsAreLaid(code, v, len, l, |pad|);
  }

  lemma SizedCodeIsLaid(v: int, len: nat, l: nat, w: nat, code: Bits)
    requires |code| == 13 + w && Unsigned(code[..8]) == 130 && Unsigned(code[8..13]) == l && Signed(code[13..]) == v
    requires l == LongSize(len + 1) && w == 19 + 8 * l <= 257
    ensures LaidLong(code, v, len)
  {
    PartsAreLaid(code, v, len, l, 0);
  }

  lemma LongSizeFits(len: nat, l: nat)
    requires len <= 256 && l == LongSize(len + 1)
    ensures l < 31 && len < 19 + 8 * l
  {
  }

  lemma NarrowerIsLaid(v: int, len: nat, l: nat, code: Bits)
    requires BitLen(Abs(v)) < 19 + 8 * l <= MAX_BITS && l == LongSize(len + 1) && code == SizedForm(v, l, 19 + 8 * l)
    ensures LaidLong(code, v, len)
  {
    SizedIsLaid(v, l, 19 + 8 * l, code);
    SizedCodeIsLaid(v, len, l, 19 + 8 * l, code);
  }

  lemma WidestIsLaid(v: int, len: nat, l: nat, code: Bits)
    requires BitLen(Abs(v)) < MAX_BITS && 29 < l < 32 && l == LongSize(len + 1)
    requires
      var extra := 8 * l - 238;
      code == PaddedForm(v, l, Encode(if v < 0 then -1 else 0, extra))
    ensures LaidLong(code, v, len)
  {
    var sign, extra := if v < 0 then -1 else 0, 8 * l - 238;
    AllSign(sign, extra);
    PaddedCodeIsLaid(v, len, l, Encode(sign, extra), code);
  }

  lemma LongIsLaid(v: int)
    requires BitLen(Abs(v)) <= 256
    ensures
      var len := BitLen(Abs(v));
      LaidLong(LongForm(v, LongSize(len + 1)), v, len)
  {
    var len := BitLen(Abs(v));
    var l := LongSize(len + 1);
    LongFormIs(v, l);
    LongSizeFits(len, l);
    if l > 29 {
      WidestIsLaid(v, len, l, LongForm(v, l));
    } else {
      NarrowerIsLaid(v, len, l, LongForm(v, l));
    }
  }

  /** Every encoded integer is laid out so. */
  lemma PushIsLaid(v: int)
    requires BitLen(Abs(v)) <= 256
    ensures Laid(PushInt(v), v, BitLen(Abs(v)))
  {
    var len := BitLen(Abs(v));
    if len < 8 {
      ShortIsLaid(128, v, 8);
    } else if len < 16 {
      ShortIsLaid(129, v, 16);
    } else {
      LongIsLaid(v);
    }
  }

  // ---------- the virtual-channel conditional ----------

  /** The integers of the code cell; key and action hash are 32 bytes read as a number. */
  datatype Fields = Fields(actHash: nat, fee: int, capacity: int, prepay: int, deadline: int, key: nat)

  const COINS_BITS: nat := 127
  const DEADLINE_BITS: nat := 32
  const HASH_BITS: nat := 256
  const CELL_BITS: nat := 1023
  const FIELD_COUNT: nat := 6

  /** Every field is an integer the machine can push. */
  predicate Pushable(f: Fields) {
    && BitLen(f.actHash) <= 256 && BitLen(f.key) <= 256 && BitLen(Abs(f.fee)) <= 256
    && BitLen(Abs(f.capacity)) <= 256 && BitLen(Abs(f.prepay)) <= 256 && BitLen(Abs(f.deadline)) <= 256
  }

  predicate CoinsOk(v: int) { v >= 0 && BitLen(Abs(v)) <= COINS_BITS }

  predicate DeadlineOk(v: int) { v > 0 && BitLen(Abs(v)) <= DEADLINE_BITS }

  function ReadMany(code: Bits, n: nat): (r: Result<(seq<int>, Bits)>)
    ensures r.Ok? ==> |r.value.0| == n
    decreases n
  {
    if n == 0 then Ok(([], code))
    else match ReadInt(code)
      case Err => Err
      case Ok((v, rest)) => match ReadMany(rest, n - 1)
        case Err => Err
        case Ok((vs, tail)) => Ok(([v] + vs, tail))
  }

  /** `Parse`, given the actions that can be resolved by hash. Key and hash are taken by magnitude. */
  function Parse(code: Bits, actions: set<nat>): Result<Fields> {
    match ReadMany(code, FIELD_COUNT)
    case Err => Err
    case Ok((v, rest)) =>
      if !CoinsOk(v[1]) || !CoinsOk(v[2]) || !CoinsOk(v[3]) || !DeadlineOk(v[4]) then Err
      else if BitLen(Abs(v[5])) > HASH_BITS || BitLen(Abs(v[0])) > HASH_BITS then Err
      else if rest != [] || Abs(v[0]) !in actions then Err
      else Ok(Fields(Abs(v[0]), v[1], v[2], v[3], v[4], Abs(v[5])))
  }

  function PushMany(vs: seq<int>): Bits
    requires forall i :: 0 <= i < |vs| ==> BitLen(Abs(vs[i])) <= 256
    decreases |vs|
  {
    if vs == [] then [] else PushInt(vs[0]) + PushMany(vs[1..])
  }

  lemma {:induction false} PushManyThenRead(vs: seq<int>, n: nat)
    requires n == |vs| && forall i :: 0 <= i < |vs| ==> BitLen(Abs(vs[i])) <= 256
    ensures ReadMany(PushMany(vs), n) == Ok((vs, []))
    decreases n
  {
    if n > 0 {
      PushThenRead(vs[0], PushMany(vs[1..]));
      PushManyThenRead(vs[1..], n - 1);
      assert [vs[0]] + vs[1..] == vs;
    }
  }

  function Ints(f: Fields): (r: seq<int>)
    ensures |r| == FIELD_COUNT
  {
    [f.actHash, f.fee, f.capacity, f.prepay, f.deadline, f.key]
  }

  /** The bits `Serialize` stores. */
  function Code(f: Fields): Bits
    requires Pushable(f)
  {
    PushMany(Ints(f))
  }

  predicate ValidFields(f: Fields) {
    CoinsOk(f.fee) && CoinsOk(f.capacity) && CoinsOk(f.prepay) && DeadlineOk(f.deadline)
  }

  lemma Powers()
    ensures Pow2(COINS_BITS) == 0x8000_0000_0000_0000_0000_0000_0000_0000 && Pow2(DEADLINE_BITS) == 0x1_0000_0000
  {
    assert Pow2(7) == 0x80 && Pow2(8) == 0x100;
    Pow2Sum(8, 8, 16);
    Pow2Sum(16, 16, 32);
    Pow2Sum(32, 32, 64);
    Pow2Sum(64, 32, 96);
    Pow2Sum(96, 16, 112);
    Pow2Sum(112, 8, 120);
    Pow2Sum(120, 7, 127);
  }

  lemma {:induction false} Pow2Sum(a: nat, b: nat, c: nat)
    requires c == a + b
    ensures Pow2(c) == Pow2(a) * Pow2(b)
    decreases a
  {
    if a > 0 {
      Pow2Sum(a - 1, b, c - 1);
      assert Pow2(c) == 2 * Pow2(c - 1) && Pow2(a) == 2 * Pow2(a - 1);
    }
  }

  /** Parsing what was serialized gives the same fields back exactly when fee, capacity and prepay are of 0 to 127 bits
      and not negative, the deadline is a positive number of 32 bits, and the action is known; otherwise it fails. */
  lemma ParseOfCode(f: Fields, actions: set<nat>)
    requires Pushable(f)
    ensures
      var fits := 0 <= f.fee < 0x8000_0000_0000_0000_0000_0000_0000_0000
                  && 0 <= f.capacity < 0x8000_0000_0000_0000_0000_0000_0000_0000
                  && 0 <= f.prepay < 0x8000_0000_0000_0000_0000_0000_0000_0000
                  && 0 < f.deadline < 0x1_0000_0000 && f.actHash in actions;
      Parse(Code(f), actions) == if fits then Ok(f) else Err
  {
    PushManyThenRead(Ints(f), FIELD_COUNT);
    Powers();
    BitLenBound(Abs(f.fee), COINS_BITS);
    BitLenBound(Abs(f.capacity), COINS_BITS);
    BitLenBound(Abs(f.prepay), COINS_BITS);
    BitLenBound(Abs(f.deadline), DEADLINE_BITS);
  }

  // ---------- does it fit a cell ----------

  /** Size of an encoded integer by the length of its magnitude. */
  function PushSize(len: nat): nat {
    if len < 8 then 16 else if len < 16 then 24 else 32 + 8 * LongSize(len + 1)
  }

  lemma SizeOfPush(v: int, len: nat)
    ensures |PushWide(v, len)| == PushSize(len)
  {
  }

  function Sum(ns: seq<nat>): nat
    decreases |ns|
  {
    if ns == [] then 0 else ns[0] + Sum(ns[1..])
  }

  /** The sizes of the encoded integers. */
  function Sizes(vs: seq<int>): (r: seq<nat>)
    ensures |r| == |vs| && forall i :: 0 <= i < |vs| ==> r[i] == PushSize(BitLen(Abs(vs[i])))
    decreases |vs|
  {
    if vs == [] then [] else [PushSize(BitLen(Abs(vs[0])))] + Sizes(vs[1..])
  }

  lemma {:induction false} SizeOfMany(vs: seq<int>)
    requires forall i :: 0 <= i < |vs| ==> BitLen(Abs(vs[i])) <= 256
    ensures |PushMany(vs)| == Sum(Sizes(vs))
    decreases |vs|
  {
    if vs != [] {
      SizeOfMany(vs[1..]);
      SizeOfPush(vs[0], BitLen(Abs(vs[0])));
      SumOfRest(PushSize(BitLen(Abs(vs[0]))), Sizes(vs[1..]));
    }
  }

  lemma SumOfRest(n: nat, ns: seq<nat>)
    ensures Sum([n] + ns) == n + Sum(ns)
  {
  }

  lemma SumFrom(ns: seq<nat>, i: nat)
    requires i < |ns|
    ensures Sum(ns[i..]) == ns[i] + Sum(ns[i + 1..])
  {
  }

  lemma SumOfSix(ns: seq<nat>)
    requires |ns| == 6
    ensures Sum(ns) == ns[0] + ns[1] + ns[2] + ns[3] + ns[4] + ns[5]
  {
    SumFrom(ns, 0);
    SumFrom(ns, 1);
    SumFrom(ns, 2);
    SumFrom(ns, 3);
    SumFrom(ns, 4);
    SumFrom(ns, 5);
    assert ns[0..] == ns && ns[6..] == [];
  }

  const HASH_EDGE: nat := 250
  const COINS_EDGE: nat := 122
  const DEADLINE_EDGE: nat := 26

  lemma SizeByLength(len: nat)
    ensures PushSize(len) % 8 == 0
    ensures len <= 256 ==> PushSize(len) <= 272 && (PushSize(len) == 272 <==> len > HASH_EDGE)
    ensures len <= COINS_BITS ==> PushSize(len) <= 144 && (PushSize(len) == 144 <==> len > COINS_EDGE)
    ensures len <= DEADLINE_BITS ==> PushSize(len) <= 48 && (PushSize(len) == 48 <==> len > DEADLINE_EDGE)
  {
  }

  lemma SizeOfInts(vs: seq<int>, ns: seq<nat>)
    requires |vs| == |ns| == 6
    requires forall i :: 0 <= i < 6 ==> BitLen(Abs(vs[i])) <= 256 && ns[i] == PushSize(BitLen(Abs(vs[i])))
    ensures |PushMany(vs)| == ns[0] + ns[1] + ns[2] + ns[3] + ns[4] + ns[5]
  {
    SizeOfMany(vs);
    assert Sizes(vs) == ns;
    SumOfSix(ns);
  }

  lemma SizeOfCode(f: Fields)
    requires Pushable(f)
    ensures |Code(f)| == PushSize(BitLen(f.actHash)) + PushSize(BitLen(Abs(f.fee))) + PushSize(BitLen(Abs(f.capacity)))
                         + PushSize(BitLen(Abs(f.prepay))) + PushSize(BitLen(Abs(f.deadline))) + PushSize(BitLen(f.key))
  {
    SizeOfInts(Ints(f), Sizes(Ints(f)));
  }

  /** Valid fields always fit a cell but for one corner: both 32-byte numbers at least 2^250, a deadline of at
      least 2^26, and all three coin amounts at least 2^122. Then the code is one bit too long. */
  lemma CodeFitsCellExactly(f: Fields)
    requires Pushable(f) && ValidFields(f)
    ensures |Code(f)| <= CELL_BITS + 1
    ensures |Code(f)| <= CELL_BITS <==>
            !(f.actHash >= Pow2(HASH_EDGE) && f.key >= Pow2(HASH_EDGE) && f.deadline >= Pow2(DEADLINE_EDGE)
              && f.fee >= Pow2(COINS_EDGE) && f.capacity >= Pow2(COINS_EDGE) && f.prepay >= Pow2(COINS_EDGE))
  {
    SizeOfCode(f);
    SizeByLength(BitLen(f.actHash));
    SizeByLength(BitLen(f.key));
    SizeByLength(BitLen(f.deadline));
    SizeByLength(BitLen(f.fee));
    SizeByLength(BitLen(f.capacity));
    SizeByLength(BitLen(f.prepay));
    BitLenBound(f.actHash, HASH_EDGE);
    BitLenBound(f.key, HASH_EDGE);
    BitLenBound(f.deadline, DEADLINE_EDGE);
    BitLenBound(f.fee, COINS_EDGE);
    BitLenBound(f.capacity, COINS_EDGE);
    BitLenBound(f.prepay, COINS_EDGE);
  }

  lemma {:induction false} BitLenOfPow2(k: nat)
    ensures BitLen(Pow2(k)) == k + 1
    decreases k
  {
    if k > 0 {
      BitLenOfPow2(k - 1);
    }
  }

  /** The smallest fields that do not fit. */
  function Corner(): Fields {
    Fields(Pow2(HASH_EDGE), Pow2(COINS_EDGE), Pow2(COINS_EDGE), Pow2(COINS_EDGE), Pow2(DEADLINE_EDGE), Pow2(HASH_EDGE))
  }

  lemma CornerIsOneBitTooLong()
    ensures Pushable(Corner()) && ValidFields(Corner()) && |Code(Corner())| == CELL_BITS + 1
  {
    BitLenOfPow2(HASH_EDGE);
    BitLenOfPow2(COINS_EDGE);
    BitLenOfPow2(DEADLINE_EDGE);
    CodeFitsCellExactly(Corner());
  }
}
