/** The table-driven CRC-32 against the shift register it speeds up. */
module Crc32 {

  const POLYNOMIAL: bv32 := 0xedb88320

  const INITIAL: bv32 := 0xffff_ffff

  // ---- The shift register: one bit at a time, lowest bit first

  /** One shift towards the right, with feedback for the bit that falls out. */
  function Shift(c: bv32): bv32 {
    if c & 1 == 1 then (c >> 1) ^ POLYNOMIAL else c >> 1
  }

  function Xor(x: bv32, y: bv32): bv32 { x ^ y }

  function Bit(b: bool): bv32 { if b then 1 else 0 }

  function Feed(c: bv32, bits: seq<bool>): bv32
    decreases bits
  {
    if bits == [] then c else Feed(Shift(Xor(c, Bit(bits[0]))), bits[1..])
  }

  /** The bits of a byte in the order they are sent. */
  function ByteBits(o: bv8): (r: seq<bool>)
    ensures |r| == 8
  {
    [o & 1 == 1, o & 2 == 2, o & 4 == 4, o & 8 == 8, o & 16 == 16, o & 32 == 32, o & 64 == 64, o & 128 == 128]
  }

  function Bits(buf: seq<bv8>): (r: seq<bool>)
    ensures |r| == 8 * |buf|
  {
    if buf == [] then [] else ByteBits(buf[0]) + Bits(buf[1..])
  }

  function Complement(c: bv32): bv32 { !c }

  /** The CRC of a buffer, by definition. */
  function Crc(buf: seq<bv8>): bv32 {
    Complement(Feed(INITIAL, Bits(buf)))
  }

  // ---- The code

  /** `crc_32_tab`, in rows of sixteen. */
  function Table(i: bv8): bv32 {
    match i >> 4
    case 0 => Row0(i & 15)
    case 1 => Row1(i & 15)
    case 2 => Row2(i & 15)
    case 3 => Row3(i & 15)
    case 4 => Row4(i & 15)
    case 5 => Row5(i & 15)
    case 6 => Row6(i & 15)
    case 7 => Row7(i & 15)
    case 8 => Row8(i & 15)
    case 9 => Row9(i & 15)
    case 10 => RowA(i & 15)
    case 11 => RowB(i & 15)
    case 12 => RowC(i & 15)
    case 13 => RowD(i & 15)
    case 14 => RowE(i & 15)
    case _ => RowF(i & 15)
  }

  function Row0(i: bv8): bv32 {
    match i
    case 0 => 0x00000000 case 1 => 0x77073096 case 2 => 0xee0e612c case 3 => 0x990951ba
    case 4 => 0x076dc419 case 5 => 0x706af48f case 6 => 0xe963a535 case 7 => 0x9e6495a3
    case 8 => 0x0edb8832 case 9 => 0x79dcb8a4 case 10 => 0xe0d5e91e case 11 => 0x97d2d988
    case 12 => 0x09b64c2b case 13 => 0x7eb17cbd case 14 => 0xe7b82d07 case _ => 0x90bf1d91
  }

  function Row1(i: bv8): bv32 {
    match i
    case 0 => 0x1db71064 case 1 => 0x6ab020f2 case 2 => 0xf3b97148 case 3 => 0x84be41de
    case 4 => 0x1adad47d case 5 => 0x6ddde4eb case 6 => 0xf4d4b551 case 7 => 0x83d385c7
    case 8 => 0x136c9856 case 9 => 0x646ba8c0 case 10 => 0xfd62f97a case 11 => 0x8a65c9ec
    case 12 => 0x14015c4f case 13 => 0x63066cd9 case 14 => 0xfa0f3d63 case _ => 0x8d080df5
  }

  function Row2(i: bv8): bv32 {
    match i
    case 0 => 0x3b6e20c8 case 1 => 0x4c69105e case 2 => 0xd56041e4 case 3 => 0xa2677172
    case 4 => 0x3c03e4d1 case 5 => 0x4b04d447 case 6 => 0xd20d85fd case 7 => 0xa50ab56b
    case 8 => 0x35b5a8fa case 9 => 0x42b2986c case 10 => 0xdbbbc9d6 case 11 => 0xacbcf940
    case 12 => 0x32d86ce3 case 13 => 0x45df5c75 case 14 => 0xdcd60dcf case _ => 0xabd13d59
  }

  function Row3(i: bv8): bv32 {
    match i
    case 0 => 0x26d930ac case 1 => 0x51de003a case 2 => 0xc8d75180 case 3 => 0xbfd06116
    case 4 => 0x21b4f4b5 case 5 => 0x56b3c423 case 6 => 0xcfba9599 case 7 => 0xb8bda50f
    case 8 => 0x2802b89e case 9 => 0x5f058808 case 10 => 0xc60cd9b2 case 11 => 0xb10be924
    case 12 => 0x2f6f7c87 case 13 => 0x58684c11 case 14 => 0xc1611dab case _ => 0xb6662d3d
  }

  function Row4(i: bv8): bv32 {
    match i
    case 0 => 0x76dc4190 case 1 => 0x01db7106 case 2 => 0x98d220bc case 3 => 0xefd5102a
    case 4 => 0x71b18589 case 5 => 0x06b6b51f case 6 => 0x9fbfe4a5 case 7 => 0xe8b8d433
    case 8 => 0x7807c9a2 case 9 => 0x0f00f934 case 10 => 0x9609a88e case 11 => 0xe10e9818
    case 12 => 0x7f6a0dbb case 13 => 0x086d3d2d case 14 => 0x91646c97 case _ => 0xe6635c01
  }

  function Row5(i: bv8): bv32 {
    match i
    case 0 => 0x6b6b51f4 case 1 => 0x1c6c6162 case 2 => 0x856530d8 case 3 => 0xf262004e
    case 4 => 0x6c0695ed case 5 => 0x1b01a57b case 6 => 0x8208f4c1 case 7 => 0xf50fc457
    case 8 => 0x65b0d9c6 case 9 => 0x12b7e950 case 10 => 0x8bbeb8ea case 11 => 0xfcb9887c
    case 12 => 0x62dd1ddf case 13 => 0x15da2d49 case 14 => 0x8cd37cf3 case _ => 0xfbd44c65
  }

  function Row6(i: bv8): bv32 {
    match i
    case 0 => 0x4db26158 case 1 => 0x3ab551ce case 2 => 0xa3bc0074 case 3 => 0xd4bb30e2
    case 4 => 0x4adfa541 case 5 => 0x3dd895d7 case 6 => 0xa4d1c46d case 7 => 0xd3d6f4fb
    case 8 => 0x4369e96a case 9 => 0x346ed9fc case 10 => 0xad678846 case 11 => 0xda60b8d0
    case 12 => 0x44042d73 case 13 => 0x33031de5 case 14 => 0xaa0a4c5f case _ => 0xdd0d7cc9
  }

  function Row7(i: bv8): bv32 {
    match i
    case 0 => 0x5005713c case 1 => 0x270241aa case 2 => 0xbe0b1010 case 3 => 0xc90c2086
    case 4 => 0x5768b525 case 5 => 0x206f85b3 case 6 => 0xb966d409 case 7 => 0xce61e49f
    case 8 => 0x5edef90e case 9 => 0x29d9c998 case 10 => 0xb0d09822 case 11 => 0xc7d7a8b4
    case 12 => 0x59b33d17 case 13 => 0x2eb40d81 case 14 => 0xb7bd5c3b case _ => 0xc0ba6cad
  }

  function Row8(i: bv8): bv32 {
    match i
    case 0 => 0xedb88320 case 1 => 0x9abfb3b6 case 2 => 0x03b6e20c case 3 => 0x74b1d29a
    case 4 => 0xead54739 case 5 => 0x9dd277af case 6 => 0x04db2615 case 7 => 0x73dc1683
    case 8 => 0xe3630b12 case 9 => 0x94643b84 case 10 => 0x0d6d6a3e case 11 => 0x7a6a5aa8
    case 12 => 0xe40ecf0b case 13 => 0x9309ff9d case 14 => 0x0a00ae27 case _ => 0x7d079eb1
  }

  function Row9(i: bv8): bv32 {
    match i
    case 0 => 0xf00f9344 case 1 => 0x8708a3d2 case 2 => 0x1e01f268 case 3 => 0x6906c2fe
    case 4 => 0xf762575d case 5 => 0x806567cb case 6 => 0x196c3671 case 7 => 0x6e6b06e7
    case 8 => 0xfed41b76 case 9 => 0x89d32be0 case 10 => 0x10da7a5a case 11 => 0x67dd4acc
    case 12 => 0xf9b9df6f case 13 => 0x8ebeeff9 case 14 => 0x17b7be43 case _ => 0x60b08ed5
  }

  function RowA(i: bv8): bv32 {
    match i
    case 0 => 0xd6d6a3e8 case 1 => 0xa1d1937e case 2 => 0x38d8c2c4 case 3 => 0x4fdff252
    case 4 => 0xd1bb67f1 case 5 => 0xa6bc5767 case 6 => 0x3fb506dd case 7 => 0x48b2364b
    case 8 => 0xd80d2bda case 9 => 0xaf0a1b4c case 10 => 0x36034af6 case 11 => 0x41047a60
    case 12 => 0xdf60efc3 case 13 => 0xa867df55 case 14 => 0x316e8eef case _ => 0x4669be79
  }

  function RowB(i: bv8): bv32 {
    match i
    case 0 => 0xcb61b38c case 1 => 0xbc66831a case 2 => 0x256fd2a0 case 3 => 0x5268e236
    case 4 => 0xcc0c7795 case 5 => 0xbb0b4703 case 6 => 0x220216b9 case 7 => 0x5505262f
    case 8 => 0xc5ba3bbe case 9 => 0xb2bd0b28 case 10 => 0x2bb45a92 case 11 => 0x5cb36a04
    case 12 => 0xc2d7ffa7 case 13 => 0xb5d0cf31 case 14 => 0x2cd99e8b case _ => 0x5bdeae1d
  }

  function RowC(i: bv8): bv32 {
    match i
    case 0 => 0x9b64c2b0 case 1 => 0xec63f226 case 2 => 0x756aa39c case 3 => 0x026d930a
    case 4 => 0x9c0906a9 case 5 => 0xeb0e363f case 6 => 0x72076785 case 7 => 0x05005713
    case 8 => 0x95bf4a82 case 9 => 0xe2b87a14 case 10 => 0x7bb12bae case 11 => 0x0cb61b38
    case 12 => 0x92d28e9b case 13 => 0xe5d5be0d case 14 => 0x7cdcefb7 case _ => 0x0bdbdf21
  }

  function RowD(i: bv8): bv32 {
    match i
    case 0 => 0x86d3d2d4 case 1 => 0xf1d4e242 case 2 => 0x68ddb3f8 case 3 => 0x1fda836e
    case 4 => 0x81be16cd case 5 => 0xf6b9265b case 6 => 0x6fb077e1 case 7 => 0x18b74777
    case 8 => 0x88085ae6 case 9 => 0xff0f6a70 case 10 => 0x66063bca case 11 => 0x11010b5c
    case 12 => 0x8f659eff case 13 => 0xf862ae69 case 14 => 0x616bffd3 case _ => 0x166ccf45
  }

  function RowE(i: bv8): bv32 {
    match i
    case 0 => 0xa00ae278 case 1 => 0xd70dd2ee case 2 => 0x4e048354 case 3 => 0x3903b3c2
    case 4 => 0xa7672661 case 5 => 0xd06016f7 case 6 => 0x4969474d case 7 => 0x3e6e77db
    case 8 => 0xaed16a4a case 9 => 0xd9d65adc case 10 => 0x40df0b66 case 11 => 0x37d83bf0
    case 12 => 0xa9bcae53 case 13 => 0xdebb9ec5 case 14 => 0x47b2cf7f case _ => 0x30b5ffe9
  }

  function RowF(i: bv8): bv32 {
    match i
    case 0 => 0xbdbdf21c case 1 => 0xcabac28a case 2 => 0x53b39330 case 3 => 0x24b4a3a6
    case 4 => 0xbad03605 case 5 => 0xcdd70693 case 6 => 0x54de5729 case 7 => 0x23d967bf
    case 8 => 0xb3667a2e case 9 => 0xc4614ab8 case 10 => 0x5d681b02 case 11 => 0x2a6f2b94
    case 12 => 0xb40bbe37 case 13 => 0xc30c8ea1 case 14 => 0x5a05df1b case _ => 0x2d02ef8d
  }

  /** `UPDC32`. */
  function Update(octet: bv8, crc: bv32): bv32 {
    Table(((crc ^ (octet as bv32)) & 0xff) as bv8) ^ (crc >> 8)
  }

  /** Eight shifts at once. */
  function Shift8(c: bv32): bv32 {
    Shift(Shift(Shift(Shift(Shift(Shift(Shift(Shift(c))))))))
  }

  lemma {:induction false} Row0IsShifts(i: bv8)
    requires i >> 4 == 0
    ensures Row0(i & 15) == Shift8(i as bv32)
  {
  }

  lemma {:induction false} Row1IsShifts(i: bv8)
    requires i >> 4 == 1
    ensures Row1(i & 15) == Shift8(i as bv32)
  {
  }

  lemma {:induction false} Row2IsShifts(i: bv8)
    requires i >> 4 == 2
    ensures Row2(i & 15) == Shift8(i as bv32)
  {
  }

  lemma {:induction false} Row3IsShifts(i: bv8)
    requires i >> 4 == 3
    ensures Row3(i & 15) == Shift8(i as bv32)
  {
  }

  lemma {:induction false} Row4IsShifts(i: bv8)
    requires i >> 4 == 4
    ensures Row4(i & 15) == Shift8(i as bv32)
  {
  }

  lemma {:induction false} Row5IsShifts(i: bv8)
    requires i >> 4 == 5
    ensures Row5(i & 15) == Shift8(i as bv32)
  {
  }

  lemma {:induction false} Row6IsShifts(i: bv8)
    requires i >> 4 == 6
    ensures Row6(i & 15) == Shift8(i as bv32)
  {
  }

  lemma {:induction false} Row7IsShifts(i: bv8)
    requires i >> 4 == 7
    ensures Row7(i & 15) == Shift8(i as bv32)
  {
  }

  lemma {:induction false} Row8IsShifts(i: bv8)
    requires i >> 4 == 8
    ensures Row8(i & 15) == Shift8(i as bv32)
  {
  }

  lemma {:induction false} Row9IsShifts(i: bv8)
    requires i >> 4 == 9
    ensures Row9(i & 15) == Shift8(i as bv32)
  {
  }

  lemma {:induction false} RowAIsShifts(i: bv8)
    requires i >> 4 == 10
    ensures RowA(i & 15) == Shift8(i as bv32)
  {
  }

  lemma {:induction false} RowBIsShifts(i: bv8)
    requires i >> 4 == 11
    ensures RowB(i & 15) == Shift8(i as bv32)
  {
  }

  lemma {:induction false} RowCIsShifts(i: bv8)
    requires i >> 4 == 12
    ensures RowC(i & 15) == Shift8(i as bv32)
  {
  }

  lemma {:induction false} RowDIsShifts(i: bv8)
    requires i >> 4 == 13
    ensures RowD(i & 15) == Shift8(i as bv32)
  {
  }

  lemma {:induction false} RowEIsShifts(i: bv8)
    requires i >> 4 == 14
    ensures RowE(i & 15) == Shift8(i as bv32)
  {
  }

  lemma {:induction false} RowFIsShifts(i: bv8)
    requires i >> 4 == 15
    ensures RowF(i & 15) == Shift8(i as bv32)
  {
  }

  /** The table holds the results of eight shifts. */
  lemma {:induction false} TableIsShifts(i: bv8)
    ensures Table(i) == Shift8(i as bv32)
  {
    hide Shift8, Row0, Row1, Row2, Row3, Row4, Row5, Row6, Row7, Row8, Row9, RowA, RowB, RowC, RowD, RowE, RowF;
    match i >> 4
    case 0 => Row0IsShifts(i);
    case 1 => Row1IsShifts(i);
    case 2 => Row2IsShifts(i);
    case 3 => Row3IsShifts(i);
    case 4 => Row4IsShifts(i);
    case 5 => Row5IsShifts(i);
    case 6 => Row6IsShifts(i);
    case 7 => Row7IsShifts(i);
    case 8 => Row8IsShifts(i);
    case 9 => Row9IsShifts(i);
    case 10 => RowAIsShifts(i);
    case 11 => RowBIsShifts(i);
    case 12 => RowCIsShifts(i);
    case 13 => RowDIsShifts(i);
    case 14 => RowEIsShifts(i);
    case _ => RowFIsShifts(i);
  }

  // ---- The shift is linear and loses nothing

  function Half(x: bv32): bv32 { x >> 1 }

  function Double(x: bv32): bv32 { x << 1 }

  predicate Odd(x: bv32) { x & 1 == 1 }

  lemma {:induction false} XorAssoc(x: bv32, y: bv32, z: bv32)
    ensures Xor(Xor(x, y), z) == Xor(x, Xor(y, z))
  {
  }

  lemma {:induction false} XorComm(x: bv32, y: bv32)
    ensures Xor(x, y) == Xor(y, x)
  {
  }

  lemma {:induction false} XorCancels(x: bv32, p: bv32)
    ensures Xor(Xor(x, p), p) == x
  {
  }

  lemma {:induction false} XorSwaps(x: bv32, y: bv32, p: bv32)
    ensures Xor(Xor(x, p), y) == Xor(Xor(x, y), p) && Xor(x, Xor(y, p)) == Xor(Xor(x, y), p)
    ensures Xor(Xor(x, p), Xor(y, p)) == Xor(x, y)
  {
    hide Xor;
    XorAssoc(x, p, y);
    XorComm(p, y);
    XorAssoc(x, y, p);
    XorAssoc(Xor(x, p), y, p);
    XorCancels(Xor(x, y), p);
  }

  lemma {:induction false} HalfXor(x: bv32, y: bv32)
    ensures Half(Xor(x, y)) == Xor(Half(x), Half(y))
  {
  }

  lemma {:induction false} OddXor(x: bv32, y: bv32)
    ensures Odd(Xor(x, y)) <==> Odd(x) != Odd(y)
  {
  }

  lemma {:induction false} ShiftParts(x: bv32)
    ensures Shift(x) == if Odd(x) then Xor(Half(x), POLYNOMIAL) else Half(x)
  {
  }

  lemma {:induction false} ShiftXor(x: bv32, y: bv32)
    ensures Shift(Xor(x, y)) == Xor(Shift(x), Shift(y))
  {
    hide Shift, Xor, Half, Odd;
    ShiftParts(x);
    ShiftParts(y);
    ShiftParts(Xor(x, y));
    HalfXor(x, y);
    OddXor(x, y);
    XorSwaps(Half(x), Half(y), POLYNOMIAL);
  }

  lemma {:induction false} Shift8Xor(x: bv32, y: bv32)
    ensures Shift8(Xor(x, y)) == Xor(Shift8(x), Shift8(y))
  {
    hide Shift, Xor;
    ShiftXor(x, y);
    var x1, y1 := Shift(x), Shift(y);
    ShiftXor(x1, y1);
    var x2, y2 := Shift(x1), Shift(y1);
    ShiftXor(x2, y2);
    var x3, y3 := Shift(x2), Shift(y2);
    ShiftXor(x3, y3);
    var x4, y4 := Shift(x3), Shift(y3);
    ShiftXor(x4, y4);
    var x5, y5 := Shift(x4), Shift(y4);
    ShiftXor(x5, y5);
    var x6, y6 := Shift(x5), Shift(y5);
    ShiftXor(x6, y6);
    ShiftXor(Shift(x6), Shift(y6));
  }

  /** Without feedback, eight shifts are a shift by eight. */
  lemma {:induction false} HighShift8(z: bv32)
    requires z & 0xff == 0
    ensures Shift8(z) == z >> 8
  {
  }

  /** The low byte of the sum, as the table's index, and the rest of it. */
  function Low(o: bv8, c: bv32): bv8 { ((c ^ (o as bv32)) & 0xff) as bv8 }

  function High(o: bv8, c: bv32): bv32 { (c ^ (o as bv32)) & 0xffff_ff00 }

  lemma {:induction false} SumParts(o: bv8, c: bv32)
    ensures Xor(c, o as bv32) == Xor(Low(o, c) as bv32, High(o, c))
    ensures High(o, c) >> 8 == c >> 8 && High(o, c) & 0xff == 0
  {
  }

  lemma {:induction false} UpdateParts(o: bv8, c: bv32)
    ensures Update(o, c) == Xor(Table(Low(o, c)), High(o, c) >> 8)
  {
    hide Table;
    SumParts(o, c);
  }

  /** The table step is eight shifts of the register with the byte added. */
  lemma {:induction false} UpdateIsShifts(o: bv8, c: bv32)
    ensures Update(o, c) == Shift8(Xor(c, o as bv32))
  {
    hide Shift8, Table, Update, Xor, Low, High;
    UpdateParts(o, c);
    SumParts(o, c);
    Shift8Xor(Low(o, c) as bv32, High(o, c));
    TableIsShifts(Low(o, c));
    HighShift8(High(o, c));
  }

  /** Adding a word after a shift is adding it, one place up, before it. */
  lemma {:induction false} FeedLater(c: bv32, w: bv32)
    requires w < 0x8000_0000
    ensures Xor(Shift(c), w) == Shift(Xor(c, Double(w)))
  {
    hide Shift, Xor, Double;
    ShiftXor(c, Double(w));
    DoubleShift(w);
  }

  lemma {:induction false} DoubleShift(w: bv32)
    requires w < 0x8000_0000
    ensures Shift(Double(w)) == w
  {
  }

  /** Nothing is lost: different registers stay different. */
  lemma {:induction false} ShiftInjective(x: bv32, y: bv32)
    requires Shift(x) == Shift(y)
    ensures x == y
  {
  }

  // ---- The code computes the CRC

  lemma {:induction false} FeedConcat(c: bv32, a: seq<bool>, b: seq<bool>)
    ensures Feed(c, a + b) == Feed(Feed(c, a), b)
    decreases a
  {
    hide Shift;
    if a == [] {
      assert a + b == b;
    } else {
      assert (a + b)[1..] == a[1..] + b;
      FeedConcat(Shift(Xor(c, Bit(a[0]))), a[1..], b);
    }
  }

  /** The bits fed first, as a word: the first bit lowest. */
  function Word(bits: seq<bool>): bv32 {
    if bits == [] then 0 else Xor(Bit(bits[0]), Double(Word(bits[1..])))
  }

  /** `k` shifts. */
  function Shifts(c: bv32, k: nat): bv32
    decreases k
  {
    if k == 0 then c else Shifts(Shift(c), k - 1)
  }

  /** Two to the `k`. */
  function Limit(k: nat): bv32 {
    if k == 0 then 1 else Double(Limit(k - 1))
  }

  lemma {:induction false} LimitFits(k: nat)
    requires k <= 31
    ensures Limit(k) <= 0x8000_0000 && (k <= 30 ==> Limit(k) <= 0x4000_0000)
  {
    assert Limit(0) == 0x1;
    assert Limit(1) == 0x2;
    assert Limit(2) == 0x4;
    assert Limit(3) == 0x8;
    assert Limit(4) == 0x10;
    assert Limit(5) == 0x20;
    assert Limit(6) == 0x40;
    assert Limit(7) == 0x80;
    assert Limit(8) == 0x100;
    assert Limit(9) == 0x200;
    assert Limit(10) == 0x400;
    assert Limit(11) == 0x800;
    assert Limit(12) == 0x1000;
    assert Limit(13) == 0x2000;
    assert Limit(14) == 0x4000;
    assert Limit(15) == 0x8000;
    assert Limit(16) == 0x10000;
    assert Limit(17) == 0x20000;
    assert Limit(18) == 0x40000;
    assert Limit(19) == 0x80000;
    assert Limit(20) == 0x100000;
    assert Limit(21) == 0x200000;
    assert Limit(22) == 0x400000;
    assert Limit(23) == 0x800000;
    assert Limit(24) == 0x1000000;
    assert Limit(25) == 0x2000000;
    assert Limit(26) == 0x4000000;
    assert Limit(27) == 0x8000000;
    assert Limit(28) == 0x10000000;
    assert Limit(29) == 0x20000000;
    assert Limit(30) == 0x40000000;
    assert Limit(31) == 0x80000000;
  }

  predicate Below(x: bv32, y: bv32) { x < y }

  lemma {:induction false} BelowDouble(b: bool, w: bv32, m: bv32)
    requires Below(w, m) && m <= 0x4000_0000
    ensures Below(Xor(Bit(b), Double(w)), Double(m))
  {
  }

  lemma {:induction false} WordBelow(bits: seq<bool>)
    requires |bits| <= 31
    ensures Below(Word(bits), Limit(|bits|))
  {
    hide Xor, Bit, Double, Below;
    if bits == [] {
      ZeroBelowOne();
    } else {
      WordBelow(bits[1..]);
      LimitFits(|bits| - 1);
      BelowDouble(bits[0], Word(bits[1..]), Limit(|bits| - 1));
    }
  }

  lemma {:induction false} ZeroBelowOne()
    ensures Below(0, 1)
  {
  }

  lemma {:induction false} WordBound(bits: seq<bool>)
    requires |bits| <= 31
    ensures Word(bits) < 0x8000_0000
  {
    hide Word, Limit;
    WordBelow(bits);
    LimitFits(|bits|);
  }

  /** Up to 32 bits can be added to the register all at once. */
  lemma {:induction false} FeedIsShifts(c: bv32, bits: seq<bool>)
    requires |bits| <= 32
    ensures Feed(c, bits) == Shifts(Xor(c, Word(bits)), |bits|)
    decreases bits
  {
    hide Shift, Bit, Xor, Double;
    if bits == [] {
      XorNothing(c);
    } else {
      var b, w := Bit(bits[0]), Word(bits[1..]);
      WordBound(bits[1..]);
      FeedIsShifts(Shift(Xor(c, b)), bits[1..]);
      FeedLater(Xor(c, b), w);
      XorAssoc(c, b, Double(w));
    }
  }

  lemma {:induction false} XorNothing(c: bv32)
    ensures Xor(c, 0) == c
  {
  }

  lemma {:induction false} WordStep(bits: seq<bool>, i: nat)
    requires i < |bits|
    ensures Word(bits[i..]) == Xor(Bit(bits[i]), Double(Word(bits[i + 1..])))
  {
    hide Xor, Bit, Double;
    assert bits[i..][1..] == bits[i + 1..];
  }

  lemma {:induction false} ByteSum(o: bv8, r: seq<bool>)
    requires r == ByteBits(o)
    ensures Xor(Bit(r[0]), Double(Xor(Bit(r[1]), Double(Xor(Bit(r[2]), Double(Xor(Bit(r[3]), Double(Xor(Bit(r[4]), Double(
              Xor(Bit(r[5]), Double(Xor(Bit(r[6]), Double(Xor(Bit(r[7]), Double(0)))))))))))))))) == o as bv32
  {
  }

  lemma {:induction false} ByteWord(o: bv8)
    ensures Word(ByteBits(o)) == o as bv32
  {
    hide Xor, Bit, Double, ByteBits;
    var r := ByteBits(o);
    assert r[0..] == r && r[8..] == [];
    WordStep(r, 0);
    WordStep(r, 1);
    WordStep(r, 2);
    WordStep(r, 3);
    WordStep(r, 4);
    WordStep(r, 5);
    WordStep(r, 6);
    WordStep(r, 7);
    ByteSum(o, r);
  }

  /** The table step feeds the eight bits of a byte. */
  lemma {:induction false} UpdateIsFeed(o: bv8, c: bv32)
    ensures Update(o, c) == Feed(c, ByteBits(o))
  {
    hide Update, Feed, ByteBits, Xor, Word, Shift;
    UpdateIsShifts(o, c);
    FeedIsShifts(c, ByteBits(o));
    ByteWord(o);
    EightShifts(Xor(c, o as bv32));
  }

  lemma {:induction false} EightShifts(c: bv32)
    ensures Shifts(c, 8) == Shift8(c)
  {
    hide Shift;
    assert Shifts(c, 8) == Shifts(Shift(Shift(Shift(Shift(c)))), 4);
  }

  /** `crc32buf`. */
  method Crc32Buf(buf: seq<bv8>) returns (crc: bv32)
    ensures crc == Crc(buf)
  {
    hide Update, Feed, ByteBits;
    var oldcrc32 := INITIAL;
    var i := 0;
    assert buf[0..] == buf;
    while i < |buf|
      invariant i <= |buf| && Feed(oldcrc32, Bits(buf[i..])) == Feed(INITIAL, Bits(buf))
    {
      UpdateIsFeed(buf[i], oldcrc32);
      assert buf[i..][1..] == buf[i + 1..];
      FeedConcat(oldcrc32, ByteBits(buf[i]), Bits(buf[i + 1..]));
      oldcrc32 := Update(buf[i], oldcrc32);
      i := i + 1;
    }
    FeedNothing(oldcrc32);
    return Complement(oldcrc32);
  }

  lemma {:induction false} FeedNothing(c: bv32)
    ensures Feed(c, []) == c
  {
  }

  // ---- What the CRC detects

  lemma {:induction false} ShiftsInjective(x: bv32, y: bv32, k: nat)
    requires Shifts(x, k) == Shifts(y, k)
    ensures x == y
    decreases k
  {
    hide Shift;
    if k > 0 {
      ShiftsInjective(Shift(x), Shift(y), k - 1);
      ShiftInjective(x, y);
    }
  }

  lemma {:induction false} XorInjective(c: bv32, x: bv32, y: bv32)
    requires Xor(c, x) == Xor(c, y)
    ensures x == y
  {
  }

  /** Different registers stay different under the same bits. */
  lemma {:induction false} FeedInjective(c: bv32, d: bv32, bits: seq<bool>)
    requires Feed(c, bits) == Feed(d, bits)
    ensures c == d
    decreases bits
  {
    hide Shift, Bit, Xor;
    if bits != [] {
      var b := Bit(bits[0]);
      FeedInjective(Shift(Xor(c, b)), Shift(Xor(d, b)), bits[1..]);
      ShiftInjective(Xor(c, b), Xor(d, b));
      XorComm(c, b);
      XorComm(d, b);
      XorInjective(b, c, d);
    }
  }

  /** The lowest bit of a word is the first bit, and the rest are the others. */
  lemma {:induction false} WordSplits(a: bool, b: bool, x: bv32, y: bv32)
    requires Xor(Bit(a), Double(x)) == Xor(Bit(b), Double(y)) && x < 0x8000_0000 && y < 0x8000_0000
    ensures a == b && x == y
  {
  }

  lemma {:induction false} WordInjective(x: seq<bool>, y: seq<bool>)
    requires |x| == |y| <= 32 && Word(x) == Word(y)
    ensures x == y
  {
    hide Xor, Bit, Double;
    if x != [] {
      WordBound(x[1..]);
      WordBound(y[1..]);
      WordSplits(x[0], y[0], Word(x[1..]), Word(y[1..]));
      WordInjective(x[1..], y[1..]);
      assert x == [x[0]] + x[1..] && y == [y[0]] + y[1..];
    }
  }

  /** Different words of up to 32 bits take the register to different places. */
  lemma {:induction false} ShortDetected(c: bv32, x: seq<bool>, y: seq<bool>)
    requires |x| == |y| <= 32 && Feed(c, x) == Feed(c, y)
    ensures x == y
  {
    hide Feed, Xor, Word, Shifts;
    FeedIsShifts(c, x);
    FeedIsShifts(c, y);
    ShiftsInjective(Xor(c, Word(x)), Xor(c, Word(y)), |x|);
    XorInjective(c, Word(x), Word(y));
    WordInjective(x, y);
  }

  lemma {:induction false} ComplementInjective(a: bv32, b: bv32)
    requires Complement(a) == Complement(b)
    ensures a == b
  {
  }

  /** Two buffers whose bits differ only within 32 consecutive places, wherever these lie, have different CRCs. */
  lemma {:induction false} BurstDetected(a: seq<bv8>, b: seq<bv8>, before: seq<bool>, x: seq<bool>, y: seq<bool>, after: seq<bool>)
    requires Bits(a) == before + x + after && Bits(b) == before + y + after
    requires |x| == |y| <= 32 && x != y
    ensures Crc(a) != Crc(b)
  {
    hide Feed, Bits, Complement;
    var c := Feed(INITIAL, before);
    FeedConcat(INITIAL, before + x, after);
    FeedConcat(INITIAL, before + y, after);
    FeedConcat(INITIAL, before, x);
    FeedConcat(INITIAL, before, y);
    if Crc(a) == Crc(b) {
      ComplementInjective(Feed(INITIAL, Bits(a)), Feed(INITIAL, Bits(b)));
      FeedInjective(Feed(c, x), Feed(c, y), after);
      ShortDetected(c, x, y);
    }
  }

  lemma {:induction false} BitsOfConcat(a: seq<bv8>, b: seq<bv8>)
    ensures Bits(a + b) == Bits(a) + Bits(b)
  {
    hide ByteBits;
    if a == [] {
      assert a + b == b;
    } else {
      assert (a + b)[1..] == a[1..] + b;
      BitsOfConcat(a[1..], b);
    }
  }

  lemma {:induction false} BitsInjective(a: seq<bv8>, b: seq<bv8>)
    requires |a| == |b| && Bits(a) == Bits(b)
    ensures a == b
  {
    hide ByteBits;
    if a != [] {
      assert ByteBits(a[0]) == Bits(a)[..8] && Bits(a[1..]) == Bits(a)[8..];
      assert ByteBits(b[0]) == Bits(b)[..8] && Bits(b[1..]) == Bits(b)[8..];
      ByteWord(a[0]);
      ByteWord(b[0]);
      Widened(a[0], b[0]);
      BitsInjective(a[1..], b[1..]);
      assert a == [a[0]] + a[1..] && b == [b[0]] + b[1..];
    }
  }

  lemma {:induction false} Widened(a: bv8, b: bv8)
    ensures a as bv32 == b as bv32 ==> a == b
  {
  }

  /** Two buffers of the same length that differ only within four consecutive bytes have different CRCs. */
  lemma {:induction false} BytesDetected(before: seq<bv8>, x: seq<bv8>, y: seq<bv8>, after: seq<bv8>)
    requires |x| == |y| <= 4 && x != y
    ensures Crc(before + x + after) != Crc(before + y + after)
  {
    hide Bits, Crc;
    BitsOfConcat(before + x, after);
    BitsOfConcat(before, x);
    BitsOfConcat(before + y, after);
    BitsOfConcat(before, y);
    if Bits(x) == Bits(y) {
      BitsInjective(x, y);
    }
    BurstDetected(before + x + after, before + y + after, Bits(before), Bits(x), Bits(y), Bits(after));
  }

  // ---- The check value

  lemma {:induction false} NextByte(o: bv8, c: bv32, d: bv32, rest: seq<bv8>)
    requires rest != [] && rest[0] == o && Update(o, c) == d
    ensures Feed(c, Bits(rest)) == Feed(d, Bits(rest[1..]))
  {
    hide Update, Feed, ByteBits;
    UpdateIsFeed(o, c);
    FeedConcat(c, ByteBits(o), Bits(rest[1..]));
  }

  /** The digits 1 to 9 in ASCII. */
  const DIGITS: seq<bv8> := [0x31, 0x32, 0x33, 0x34, 0x35, 0x36, 0x37, 0x38, 0x39]

  lemma {:induction false} DigitSteps1()
    ensures Update(0x31, 0xffffffff) == 0x7c231048
    ensures Update(0x32, 0x7c231048) == 0xb0acbb32
    ensures Update(0x33, 0xb0acbb32) == 0x77b79c2d
  {
  }

  lemma {:induction false} DigitSteps2()
    ensures Update(0x34, 0x77b79c2d) == 0x641c1f5c
    ensures Update(0x35, 0x641c1f5c) == 0x340ac5e3
    ensures Update(0x36, 0x340ac5e3) == 0xf68d2c9e
  {
  }

  lemma {:induction false} DigitSteps3()
    ensures Update(0x37, 0xf68d2c9e) == 0xaffc9660
    ensures Update(0x38, 0xaffc9660) == 0x651f2550
    ensures Update(0x39, 0x651f2550) == 0x340bc6d9
  {
  }

  /** The check value by which CRC-32 implementations are told apart: initial value, order of bits and final complement
      included. */
  lemma {:induction false} CheckValue()
    ensures Crc(DIGITS) == 0xcbf43926
  {
    hide Update, Feed, Bits, ByteBits;
    DigitSteps1();
    DigitSteps2();
    DigitSteps3();
    var digits := DIGITS;
    assert digits[0..] == digits;
    assert digits[0..][1..] == digits[1..];
    NextByte(0x31, 0xffffffff, 0x7c231048, digits[0..]);
    assert digits[1..][1..] == digits[2..];
    NextByte(0x32, 0x7c231048, 0xb0acbb32, digits[1..]);
    assert digits[2..][1..] == digits[3..];
    NextByte(0x33, 0xb0acbb32, 0x77b79c2d, digits[2..]);
    assert digits[3..][1..] == digits[4..];
    NextByte(0x34, 0x77b79c2d, 0x641c1f5c, digits[3..]);
    assert digits[4..][1..] == digits[5..];
    NextByte(0x35, 0x641c1f5c, 0x340ac5e3, digits[4..]);
    assert digits[5..][1..] == digits[6..];
    NextByte(0x36, 0x340ac5e3, 0xf68d2c9e, digits[5..]);
    assert digits[6..][1..] == digits[7..];
    NextByte(0x37, 0xf68d2c9e, 0xaffc9660, digits[6..]);
    assert digits[7..][1..] == digits[8..];
    NextByte(0x38, 0xaffc9660, 0x651f2550, digits[7..]);
    assert digits[8..][1..] == digits[9..];
    NextByte(0x39, 0x651f2550, 0x340bc6d9, digits[8..]);
    FeedEmpty(0x340bc6d9, digits[9..]);
    assert Complement(0x340bc6d9) == 0xcbf43926;
  }

  lemma {:induction false} FeedEmpty(c: bv32, rest: seq<bv8>)
    requires rest == []
    ensures Feed(c, Bits(rest)) == c
  {
  }
}
