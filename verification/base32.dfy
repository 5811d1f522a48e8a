/** RFC 4648 base32 over a 32-bit accumulator that is never masked. */
module Base32 {
  import opened Wrappers

  type Byte = x: nat | x < 256
  type Digit = x: nat | x < 32

  const WRAP := 0x1_0000_0000

  // ---- the alphabet ----

  function Symbol(d: Digit): char {
    if d < 26 then 'A' + d as char else '2' + (d - 26) as char
  }

  function IndexOf(c: char): Option<Digit> {
    if 'A' <= c <= 'Z' then Some((c - 'A') as nat)
    else if '2' <= c <= '7' then Some((c - '2') as nat + 26)
    else None
  }

  lemma SymbolReadsBack(d: Digit)
    ensures IndexOf(Symbol(d)) == Some(d)
  {
  }

  /** Table 3 of RFC 4648. */
  const ALPHABET := "ABCDEFGHIJKLMNOPQRSTUVWXYZ234567"

  lemma SymbolIs(d: Digit)
    ensures Symbol(d) == ALPHABET[d]
  {
    if d < 16 {
      assert ALPHABET[..16] == "ABCDEFGHIJKLMNOP";
      assert ALPHABET[d] == ALPHABET[..16][d];
    } else {
      assert ALPHABET[16..] == "QRSTUVWXYZ234567";
      assert ALPHABET[d] == ALPHABET[16..][d - 16];
    }
  }

  function Spell(digits: seq<Digit>): string {
    seq(|digits|, i requires 0 <= i < |digits| => Symbol(digits[i]))
  }

  // ---- bit strings: the reference the loops are held to ----

  /** The `k` low bits of a number, most significant first. */
  function Bits(v: nat, k: nat): (r: seq<bool>)
    ensures |r| == k
  {
    if k == 0 then [] else Bits(v / 2, k - 1) + [v % 2 == 1]
  }

  /** The bits of a run of units of `k` bits each. */
  function Stream(units: seq<nat>, k: nat): (r: seq<bool>)
    ensures |r| == k * |units|
  {
    if units == [] then []
    else
      assert k * |units| == k * (|units| - 1) + k;
      Stream(units[..|units| - 1], k) + Bits(units[|units| - 1], k)
  }

  function Zeros(k: nat): seq<bool> {
    seq(k, i => false)
  }

  function Pow2(k: nat): (p: nat)
    ensures p > 0
  {
    if k == 0 then 1 else 2 * Pow2(k - 1)
  }

  lemma StreamSnoc(units: seq<nat>, u: nat, k: nat)
    ensures Stream(units + [u], k) == Stream(units, k) + Bits(u, k)
  {
    assert (units + [u])[..|units|] == units;
  }

  lemma {:induction false} ZeroBits(k: nat)
    ensures Bits(0, k) == Zeros(k)
  {
    if k > 0 {
      ZeroBits(k - 1);
    }
  }

  lemma {:induction false} BitsAreUnique(a: nat, b: nat, k: nat)
    requires a < Pow2(k) && b < Pow2(k) && Bits(a, k) == Bits(b, k)
    ensures a == b
    decreases k
  {
    if k > 0 {
      assert Bits(a, k)[k - 1] == Bits(b, k)[k - 1];
      assert Bits(a, k)[..k - 1] == Bits(a / 2, k - 1) && Bits(b, k)[..k - 1] == Bits(b / 2, k - 1);
      BitsAreUnique(a / 2, b / 2, k - 1);
    }
  }

  /** Units of one size that make the same bits are the same units. */
  lemma {:induction false} StreamIsUnique(a: seq<nat>, b: seq<nat>, k: nat)
    requires |a| == |b| && Stream(a, k) == Stream(b, k)
    requires forall i :: 0 <= i < |a| ==> a[i] < Pow2(k) && b[i] < Pow2(k)
    ensures a == b
  {
    if a != [] {
      var n := |a| - 1;
      var x, y := Stream(a[..n], k), Stream(b[..n], k);
      assert Stream(a, k)[..|x|] == x && Stream(b, k)[..|y|] == y;
      assert Stream(a, k)[|x|..] == Bits(a[n], k) && Stream(b, k)[|y|..] == Bits(b[n], k);
      BitsAreUnique(a[n], b[n], k);
      StreamIsUnique(a[..n], b[..n], k);
      assert a == a[..n] + [a[n]] && b == b[..n] + [b[n]];
    }
  }

  // ---- shifts and masks ----

  /** `v << k`, before any wrap. */
  function Shl(v: nat, k: nat): nat {
    if k == 0 then v else 2 * Shl(v, k - 1)
  }

  /** `v >>> k`. */
  function Shr(v: nat, k: nat): nat {
    if k == 0 then v else Shr(v / 2, k - 1)
  }

  lemma {:induction false} BitsOfShl(v: nat, k: nat, d: nat, m: nat)
    requires d < Pow2(k)
    ensures Bits(Shl(v, k) + d, m + k) == Bits(v, m) + Bits(d, k)
    decreases k
  {
    if k == 0 {
      assert Bits(v, m) + [] == Bits(v, m);
    } else {
      BitsOfShl(v, k - 1, d / 2, m);
      assert (Shl(v, k) + d) / 2 == Shl(v, k - 1) + d / 2 && (Shl(v, k) + d) % 2 == d % 2;
      assert Bits(v, m) + (Bits(d / 2, k - 1) + [d % 2 == 1]) == (Bits(v, m) + Bits(d / 2, k - 1)) + [d % 2 == 1];
    }
  }

  lemma {:induction false} BitsOfShr(v: nat, k: nat, m: nat)
    ensures Bits(v, m + k) == Bits(Shr(v, k), m) + Bits(v, k)
    decreases k
  {
    if k == 0 {
      assert Bits(v, m) + [] == Bits(v, m);
    } else {
      BitsOfShr(v / 2, k - 1, m);
      assert Bits(Shr(v, k), m) + (Bits(v / 2, k - 1) + [v % 2 == 1])
          == (Bits(Shr(v, k), m) + Bits(v / 2, k - 1)) + [v % 2 == 1];
    }
  }

  lemma HalfOfMod(x: nat, p: nat)
    requires p > 0
    ensures x % (2 * p) % 2 == x % 2 && x % (2 * p) / 2 == x / 2 % p
  {
    var q, r := x / (2 * p), x % (2 * p);
    assert x == 2 * (q * p) + r;
    assert x / 2 == q * p + r / 2 && x % 2 == r % 2 && r / 2 < p;
    Divides(x / 2, p, q, r / 2);
  }

  lemma {:induction false} Scaled(a: nat, b: nat, c: nat)
    requires a < b
    ensures a * c + c <= b * c
    decreases b
  {
    assert (b - 1) * c + c == b * c;
    if a < b - 1 {
      Scaled(a, b - 1, c);
    }
  }

  /** A quotient and a remainder that fit are the quotient and the remainder. */
  lemma Divides(x: nat, d: nat, q: nat, r: nat)
    requires x == q * d + r && r < d
    ensures x / d == q && x % d == r
  {
    assert x == x / d * d + x % d;
    if x / d < q {
      Scaled(x / d, q, d);
    } else if q < x / d {
      Scaled(q, x / d, d);
    }
  }

  /** A mask, or a wrap, of at least `m` bits leaves the `m` low bits as they were. */
  lemma {:induction false} MaskKeepsLowBits(x: nat, j: nat, m: nat)
    requires m <= j
    ensures Bits(x % Pow2(j), m) == Bits(x, m)
    decreases m
  {
    if m > 0 {
      HalfOfMod(x, Pow2(j - 1));
      MaskKeepsLowBits(x / 2, j - 1, m - 1);
    }
  }

  lemma Sizes()
    ensures Pow2(0) == 1 && Pow2(5) == 32 && Pow2(8) == 256 && Pow2(32) == WRAP
  {
    assert Pow2(4) == 16;
    assert Pow2(8) == 256;
    assert Pow2(12) == 4096;
    assert Pow2(16) == 0x1_0000;
    assert Pow2(20) == 0x10_0000;
    assert Pow2(24) == 0x100_0000;
    assert Pow2(28) == 0x1000_0000;
  }

  // ---- the accumulator ----

  /** `(value << width) | unit`, in 32 bits. */
  function Push(value: nat, width: nat, unit: nat): nat {
    (Shl(value, width) + unit) % WRAP
  }

  /** The accumulator is never masked; its wrap is harmless, since only bits still pending are read. */
  lemma PushAppends(value: nat, bits: nat, width: nat, unit: nat)
    requires bits + width <= 32 && unit < Pow2(width)
    ensures Bits(Push(value, width, unit), bits + width) == Bits(value, bits) + Bits(unit, width)
  {
    Sizes();
    MaskKeepsLowBits(Shl(value, width) + unit, 32, bits + width);
    BitsOfShl(value, width, unit, bits);
  }

  lemma PeelsOff(value: nat, bits: nat, width: nat)
    ensures Bits(value, bits + width) == Bits(Shr(value, bits) % Pow2(width), width) + Bits(value, bits)
  {
    MaskKeepsLowBits(Shr(value, bits), width, width);
    BitsOfShr(value, bits, width);
    assert width + bits == bits + width;
  }

  lemma LastIsPadded(value: nat, bits: nat)
    requires bits <= 5
    ensures Bits(Shl(value, 5 - bits) % WRAP % 32, 5) == Bits(value, bits) + Zeros(5 - bits)
  {
    Sizes();
    var shifted := Shl(value, 5 - bits);
    MaskKeepsLowBits(shifted % WRAP, 5, 5);
    MaskKeepsLowBits(shifted, 32, 5);
    BitsOfShl(value, 5 - bits, 0, bits);
    ZeroBits(5 - bits);
  }

  /** `value` with one more byte shifted in; `bits` of it were still pending. */
  method ShiftByteIn(value: nat, byte: Byte, ghost bits: nat) returns (next: nat)
    requires bits <= 24
    ensures next < WRAP && Bits(next, bits + 8) == Bits(value, bits) + Bits(byte, 8)
  {
    next := Push(value, 8, byte);
    Sizes();
    PushAppends(value, bits, 8, byte);
  }

  method ShiftDigitIn(value: nat, digit: Digit, ghost bits: nat) returns (next: nat)
    requires bits <= 27
    ensures next < WRAP && Bits(next, bits + 5) == Bits(value, bits) + Bits(digit, 5)
  {
    next := Push(value, 5, digit);
    Sizes();
    PushAppends(value, bits, 5, digit);
  }

  /** `(value >>> bits) & 31`: the digit above the `bits` that stay pending. */
  method ReadDigit(value: nat, bits: nat) returns (digit: Digit)
    ensures Bits(value, bits + 5) == Bits(digit, 5) + Bits(value, bits)
  {
    digit := Shr(value, bits) % 32;
    Sizes();
    PeelsOff(value, bits, 5);
  }

  /** `(value >>> bits) & 0xff`. */
  method ReadByte(value: nat, bits: nat) returns (byte: Byte)
    ensures Bits(value, bits + 8) == Bits(byte, 8) + Bits(value, bits)
  {
    byte := Shr(value, bits) % 256;
    Sizes();
    PeelsOff(value, bits, 8);
  }

  /** `(value << (5 - bits)) & 31`: the pending bits, filled up with zeros. */
  method ReadLast(value: nat, bits: nat) returns (digit: Digit)
    requires bits <= 5
    ensures Bits(digit, 5) == Bits(value, bits) + Zeros(5 - bits)
  {
    digit := Shl(value, 5 - bits) % WRAP % 32;
    LastIsPadded(value, bits);
  }

  lemma Append(s: seq<bool>, t: seq<bool>, p: seq<bool>, u: seq<bool>)
    requires s == t + p
    ensures s + u == t + (p + u)
  {
  }

  lemma Move(s: seq<bool>, t: seq<bool>, u: seq<bool>, p: seq<bool>)
    requires s == t + (u + p)
    ensures s == (t + u) + p
  {
  }

  // ---- encoding ----

  predicate IsDigits(s: string) {
    forall i :: 0 <= i < |s| ==> IndexOf(s[i]).Some?
  }

  function DigitsOf(s: string): seq<Digit>
    requires IsDigits(s)
  {
    seq(|s|, i requires 0 <= i < |s| => IndexOf(s[i]).value)
  }

  /** Section 6 of RFC 4648: the bytes' bits in groups of five, zeros filling the last group. */
  ghost predicate IsEncoding(bytes: seq<Byte>, digits: seq<Digit>) {
    && |digits| == (8 * |bytes| + 4) / 5
    && 5 * |digits| >= 8 * |bytes|
    && Stream(digits, 5) == Stream(bytes, 8) + Zeros(5 * |digits| - 8 * |bytes|)
  }

  /** At most one digit string encodes given bytes. */
  lemma EncodingIsUnique(bytes: seq<Byte>, a: seq<Digit>, b: seq<Digit>)
    requires IsEncoding(bytes, a) && IsEncoding(bytes, b)
    ensures a == b
  {
    Sizes();
    StreamIsUnique(a, b, 5);
  }

  /** What was read is what was written and, in the accumulator, the bits still pending. */
  ghost predicate Written(read: seq<Byte>, digits: seq<Digit>, bits: nat, value: nat) {
    Stream(read, 8) == Stream(digits, 5) + Bits(value, bits)
  }

  lemma SpelledReadsBack(digits: seq<Digit>)
    ensures IsDigits(Spell(digits)) && DigitsOf(Spell(digits)) == digits
  {
    forall i | 0 <= i < |digits| ensures IndexOf(Spell(digits)[i]) == Some(digits[i]) {
      SymbolReadsBack(digits[i]);
    }
  }

  lemma SpellSnoc(digits: seq<Digit>, d: Digit)
    ensures Spell(digits + [d]) == Spell(digits) + [Symbol(d)]
  {
  }

  lemma TakeByte(read: seq<Byte>, byte: Byte, digits: seq<Digit>, bits: nat, value: nat, next: nat)
    requires Written(read, digits, bits, value)
    requires Bits(next, bits + 8) == Bits(value, bits) + Bits(byte, 8)
    ensures Written(read + [byte], digits, bits + 8, next)
  {
    StreamSnoc(read, byte, 8);
    Append(Stream(read, 8), Stream(digits, 5), Bits(value, bits), Bits(byte, 8));
  }

  lemma EmitDigit(read: seq<Byte>, digits: seq<Digit>, digit: Digit, bits: nat, value: nat)
    requires Written(read, digits, bits + 5, value)
    requires Bits(value, bits + 5) == Bits(digit, 5) + Bits(value, bits)
    ensures Written(read, digits + [digit], bits, value)
  {
    StreamSnoc(digits, digit, 5);
    Move(Stream(read, 8), Stream(digits, 5), Bits(digit, 5), Bits(value, bits));
  }

  lemma DigitGoesOut(read: seq<Byte>, digits: seq<Digit>, out: string, digit: Digit, bits: nat, value: nat)
    requires Written(read, digits, bits + 5, value) && out == Spell(digits)
    requires Bits(value, bits + 5) == Bits(digit, 5) + Bits(value, bits)
    ensures Written(read, digits + [digit], bits, value) && out + [Symbol(digit)] == Spell(digits + [digit])
  {
    EmitDigit(read, digits, digit, bits, value);
    SpellSnoc(digits, digit);
  }

  lemma FinishedEven(input: seq<Byte>, digits: seq<Digit>, value: nat)
    requires 8 * |input| == 5 * |digits| && Written(input, digits, 0, value)
    ensures IsEncoding(input, digits)
  {
    assert Stream(digits, 5) + [] == Stream(digits, 5) && Stream(input, 8) + Zeros(0) == Stream(input, 8);
  }

  lemma FinishedFilled(input: seq<Byte>, digits: seq<Digit>, last: Digit, bits: nat, value: nat)
    requires 0 < bits < 5 && 8 * |input| == 5 * |digits| + bits && Written(input, digits, bits, value)
    requires Bits(last, 5) == Bits(value, bits) + Zeros(5 - bits)
    ensures IsEncoding(input, digits + [last])
  {
    StreamSnoc(digits, last, 5);
    Append(Stream(input, 8), Stream(digits, 5), Bits(value, bits), Zeros(5 - bits));
  }

  method EncodeBase32(input: seq<Byte>) returns (out: string)
    ensures IsDigits(out) && IsEncoding(input, DigitsOf(out))
  {
    ghost var digits: seq<Digit>;
    var bits: nat, value: nat;
    out, digits, bits, value := EncodeBytes(input);
    out, digits := Close(input, out, digits, bits, value);
    SpelledReadsBack(digits);
  }

  lemma OneMore(input: seq<Byte>, i: nat)
    requires i < |input|
    ensures input[..i + 1] == input[..i] + [input[i]]
  {
  }

  lemma AllOf(input: seq<Byte>)
    ensures input[..|input|] == input
  {
  }

  method TakeIn(ghost read: seq<Byte>, byte: Byte, ghost digits: seq<Digit>, ghost bits: nat, value: nat) returns (next: nat)
    requires bits < 5 && Written(read, digits, bits, value)
    ensures Written(read + [byte], digits, bits + 8, next)
  {
    next := ShiftByteIn(value, byte, bits);
    TakeByte(read, byte, digits, bits, value, next);
  }

  /** The loop over the bytes; fewer than five bits are left pending. */
  method EncodeBytes(input: seq<Byte>) returns (out: string, ghost digits: seq<Digit>, bits: nat, value: nat)
    ensures bits < 5 && 8 * |input| == 5 * |digits| + bits
    ensures out == Spell(digits) && Written(input, digits, bits, value)
  {
    bits, value := 0, 0;
    out := "";
    digits := [];
    for i := 0 to |input|
      invariant bits < 5 && 8 * i == 5 * |digits| + bits && out == Spell(digits)
      invariant Written(input[..i], digits, bits, value)
    {
      OneMore(input, i);
      value := TakeIn(input[..i], input[i], digits, bits, value);
      out, digits, bits := Drain(input[..i + 1], out, digits, bits + 8, value);
    }
    AllOf(input);
  }

  /** What is still pending makes the last digit. */
  method Close(ghost read: seq<Byte>, text: string, ghost written: seq<Digit>, bits: nat, value: nat)
    returns (out: string, ghost digits: seq<Digit>)
    requires bits < 5 && 8 * |read| == 5 * |written| + bits
    requires text == Spell(written) && Written(read, written, bits, value)
    ensures out == Spell(digits) && IsEncoding(read, digits)
  {
    out, digits := text, written;
    if bits > 0 {
      var last := ReadLast(value, bits);
      FinishedFilled(read, digits, last, bits, value);
      SpellSnoc(digits, last);
      out := out + [Symbol(last)];
      digits := digits + [last];
    } else {
      FinishedEven(read, digits, value);
    }
  }

  /** The inner loop: a digit goes out for every five bits pending. */
  method Drain(ghost read: seq<Byte>, text: string, ghost written: seq<Digit>, pending: nat, value: nat)
    returns (out: string, ghost digits: seq<Digit>, bits: nat)
    requires text == Spell(written) && Written(read, written, pending, value)
    ensures out == Spell(digits) && Written(read, digits, bits, value)
    ensures bits < 5 && 5 * |digits| + bits == 5 * |written| + pending
  {
    out, digits, bits := text, written, pending;
    while bits >= 5
      invariant out == Spell(digits) && Written(read, digits, bits, value)
      invariant 5 * |digits| + bits == 5 * |written| + pending
    {
      var left: nat := bits - 5;
      assert left + 5 == bits;
      out, digits := PutDigit(read, out, digits, left, value);
      bits := left;
    }
  }

  /** The digit above the bits that stay pending goes out. */
  method PutDigit(ghost read: seq<Byte>, text: string, ghost written: seq<Digit>, bits: nat, value: nat)
    returns (out: string, ghost digits: seq<Digit>)
    requires text == Spell(written) && Written(read, written, bits + 5, value)
    ensures out == Spell(digits) && Written(read, digits, bits, value) && |digits| == |written| + 1
  {
    var digit := ReadDigit(value, bits);
    DigitGoesOut(read, written, text, digit, bits, value);
    out := text + [Symbol(digit)];
    digits := written + [digit];
  }

  // ---- decoding ----

  /** Letters outside ASCII that are spelled in ASCII capitals. */
  function Spelled(c: char): Option<string> {
    match c
    case '\U{00DF}' => Some("SS")
    case '\U{0131}' => Some("I")
    case '\U{017F}' => Some("S")
    case '\U{FB00}' => Some("FF")
    case '\U{FB01}' => Some("FI")
    case '\U{FB02}' => Some("FL")
    case '\U{FB03}' => Some("FFI")
    case '\U{FB04}' => Some("FFL")
    case '\U{FB05}' => Some("ST")
    case '\U{FB06}' => Some("ST")
    case _ => None
  }

  /** `toUpperCase` of one character; what it makes of any other character is outside the alphabet too. */
  function Upper(c: char): string {
    if c < '\U{0080}' then [if 'a' <= c <= 'z' then c - 'a' + 'A' else c]
    else Spelled(c).GetOr([c])
  }

  predicate IsSpace(c: char) {
    '\t' <= c <= '\r' || '\U{2000}' <= c <= '\U{200A}'
    || c in {' ', '\U{A0}', '\U{1680}', '\U{2028}', '\U{2029}', '\U{202F}', '\U{205F}', '\U{3000}', '\U{FEFF}'}
  }

  function Uppered(s: string): string {
    if s == "" then "" else Uppered(s[..|s| - 1]) + Upper(s[|s| - 1])
  }

  function WithoutPadding(s: string): string {
    if s != "" && s[|s| - 1] == '=' then WithoutPadding(s[..|s| - 1]) else s
  }

  function WithoutSpaces(s: string): string {
    if s == "" then "" else WithoutSpaces(s[..|s| - 1]) + if IsSpace(s[|s| - 1]) then "" else [s[|s| - 1]]
  }

  function Clean(input: string): string {
    WithoutSpaces(WithoutPadding(Uppered(input)))
  }

  /** Whole bytes from the front of the digits' bits; what is left over is dropped. */
  ghost predicate IsDecoding(digits: seq<Digit>, bytes: seq<Byte>) {
    && |bytes| == 5 * |digits| / 8
    && Stream(bytes, 8) == Stream(digits, 5)[..8 * |bytes|]
  }

  ghost predicate Read(digits: seq<Digit>, bytes: seq<Byte>, bits: nat, value: nat) {
    Stream(digits, 5) == Stream(bytes, 8) + Bits(value, bits)
  }

  lemma TakeDigit(digits: seq<Digit>, digit: Digit, bytes: seq<Byte>, bits: nat, value: nat, next: nat)
    requires Read(digits, bytes, bits, value)
    requires Bits(next, bits + 5) == Bits(value, bits) + Bits(digit, 5)
    ensures Read(digits + [digit], bytes, bits + 5, next)
  {
    StreamSnoc(digits, digit, 5);
    Append(Stream(digits, 5), Stream(bytes, 8), Bits(value, bits), Bits(digit, 5));
  }

  lemma EmitByte(digits: seq<Digit>, bytes: seq<Byte>, byte: Byte, bits: nat, value: nat)
    requires Read(digits, bytes, bits + 8, value)
    requires Bits(value, bits + 8) == Bits(byte, 8) + Bits(value, bits)
    ensures Read(digits, bytes + [byte], bits, value)
  {
    StreamSnoc(bytes, byte, 8);
    Move(Stream(digits, 5), Stream(bytes, 8), Bits(byte, 8), Bits(value, bits));
  }

  lemma WholeBytes(digits: seq<Digit>, bytes: seq<Byte>, bits: nat, value: nat)
    requires bits < 8 && 5 * |digits| == 8 * |bytes| + bits && Read(digits, bytes, bits, value)
    ensures IsDecoding(digits, bytes)
  {
  }

  /** A byte goes out as soon as eight bits are pending. */
  method EmitReady(ghost digits: seq<Digit>, whole: seq<Byte>, pending: nat, value: nat)
    returns (bytes: seq<Byte>, bits: nat)
    requires pending < 16 && Read(digits, whole, pending, value)
    ensures Read(digits, bytes, bits, value) && bits < 8 && 8 * |bytes| + bits == 8 * |whole| + pending
  {
    bytes, bits := whole, pending;
    if bits >= 8 {
      bits := bits - 8;
      var byte := ReadByte(value, bits);
      EmitByte(digits, bytes, byte, bits, value);
      bytes := bytes + [byte];
    }
  }

  /** The loop over the cleaned characters. */
  method DecodeClean(clean: string) returns (r: Option<seq<Byte>>, ghost digits: seq<Digit>)
    ensures r.Some? <==> IsDigits(clean)
    ensures r.Some? ==> digits == DigitsOf(clean) && IsDecoding(digits, r.value)
  {
    var bytes: seq<Byte> := [];
    var bits: nat, value: nat := 0, 0;
    digits := [];
    for i := 0 to |clean|
      invariant bits < 8 && 5 * i == 8 * |bytes| + bits && |digits| == i
      invariant forall j :: 0 <= j < i ==> IndexOf(clean[j]) == Some(digits[j])
      invariant Read(digits, bytes, bits, value)
    {
      var index := IndexOf(clean[i]);
      if index.None? {
        return None, digits;
      }
      var next := ShiftDigitIn(value, index.value, bits);
      TakeDigit(digits, index.value, bytes, bits, value, next);
      digits := digits + [index.value];
      value := next;
      bytes, bits := EmitReady(digits, bytes, bits + 5, value);
    }
    WholeBytes(digits, bytes, bits, value);
    return Some(bytes), digits;
  }

  /** Case, padding and white space do not matter; any other character outside the alphabet is refused. */
  method DecodeBase32(input: string) returns (r: Option<seq<Byte>>)
    ensures r.Some? <==> IsDigits(Clean(input))
    ensures r.Some? ==> IsDecoding(DigitsOf(Clean(input)), r.value)
  {
    ghost var digits;
    r, digits := DecodeClean(Clean(input));
  }

  // ---- the round trip ----

  lemma DigitIsUpper(c: char)
    requires IndexOf(c).Some?
    ensures Upper(c) == [c] && !IsSpace(c) && c != '='
  {
  }

  lemma {:induction false} DigitsAreUpper(s: string)
    requires IsDigits(s)
    ensures Uppered(s) == s
  {
    if s != "" {
      var init, last := s[..|s| - 1], s[|s| - 1];
      DigitsAreUpper(init);
      DigitIsUpper(last);
      assert Uppered(s) == init + [last];
    }
  }

  lemma {:induction false} DigitsHoldNoSpace(s: string)
    requires IsDigits(s)
    ensures WithoutSpaces(s) == s
  {
    if s != "" {
      DigitsHoldNoSpace(s[..|s| - 1]);
      DigitIsUpper(s[|s| - 1]);
    }
  }

  lemma NothingToClean(s: string)
    requires IsDigits(s)
    ensures Uppered(s) == s && WithoutPadding(s) == s && WithoutSpaces(s) == s
  {
    DigitsAreUpper(s);
    DigitsHoldNoSpace(s);
    if s != "" {
      DigitIsUpper(s[|s| - 1]);
    }
  }

  lemma {:induction false} PaddingIsIgnored(s: string, k: nat)
    requires IsDigits(s)
    ensures WithoutPadding(s + seq(k, i => '=')) == s
    decreases k
  {
    var padded := s + seq(k, i => '=');
    if k == 0 {
      assert padded == s;
      NothingToClean(s);
    } else {
      assert padded[..|padded| - 1] == s + seq(k - 1, i => '=');
      PaddingIsIgnored(s, k - 1);
    }
  }

  function Lower(s: string): string {
    seq(|s|, i requires 0 <= i < |s| => if 'A' <= s[i] <= 'Z' then s[i] - 'A' + 'a' else s[i])
  }

  lemma {:induction false} UpperOfLower(s: string)
    requires IsDigits(s)
    ensures Uppered(Lower(s)) == s
  {
    if s != "" {
      UpperOfLower(s[..|s| - 1]);
      assert IndexOf(s[|s| - 1]).Some?;
      assert Lower(s)[..|s| - 1] == Lower(s[..|s| - 1]) && Upper(Lower(s)[|s| - 1]) == [s[|s| - 1]];
    }
  }

  lemma {:induction false} UpperOfPadded(s: string, k: nat)
    ensures Uppered(s + seq(k, i => '=')) == Uppered(s) + seq(k, i => '=')
  {
    var padded := s + seq(k, i => '=');
    if k == 0 {
      assert padded == s;
    } else {
      UpperOfPadded(s, k - 1);
      assert padded[..|padded| - 1] == s + seq(k - 1, i => '=');
      assert seq(k - 1, i => '=') + "=" == seq(k, i => '=');
    }
  }

  /** A secret printed in lower case and padded is the same secret. */
  lemma CaseAndPaddingDoNotMatter(s: string, k: nat)
    requires IsDigits(s)
    ensures Clean(s) == s && Clean(Lower(s) + seq(k, i => '=')) == s
  {
    NothingToClean(s);
    UpperOfLower(s);
    UpperOfPadded(Lower(s), k);
    PaddingIsIgnored(s, k);
  }

  /** Whatever decodes an encoding is what was encoded. */
  lemma DecodingInvertsEncoding(bytes: seq<Byte>, digits: seq<Digit>, back: seq<Byte>)
    requires IsEncoding(bytes, digits) && IsDecoding(digits, back)
    ensures back == bytes
  {
    Sizes();
    assert |back| == |bytes|;
    assert Stream(digits, 5)[..8 * |bytes|] == Stream(bytes, 8);
    StreamIsUnique(back, bytes, 8);
  }

  /** Every byte string survives the trip through text, also in lower case and with padding. */
  method RoundTrip(input: seq<Byte>, padding: nat) returns (back: Option<seq<Byte>>, loose: Option<seq<Byte>>)
    ensures back == Some(input) && loose == Some(input)
  {
    var text := EncodeBase32(input);
    CaseAndPaddingDoNotMatter(text, padding);
    back := DecodeBase32(text);
    DecodingInvertsEncoding(input, DigitsOf(text), back.value);
    loose := DecodeBase32(Lower(text) + seq(padding, i => '='));
    DecodingInvertsEncoding(input, DigitsOf(text), loose.value);
  }
}
