/** The sign-in that works when iam does not: one-time codes, each spent once. */
module BreakGlassGate {
  import opened Wrappers
  import opened Base32

  const STEP_SECONDS := 30
  const TOLERANCE := 1
  const DIGITS: nat := 6

  // ---- the code of one time step ----

  function TotpCounter(unixSeconds: int): int {
    unixSeconds / STEP_SECONDS
  }

  function ByteAt(digest: seq<Byte>, i: nat): Byte {
    if i < |digest| then digest[i] else 0
  }

  /** Dynamic truncation, section 5.3 of RFC 4226: 31 bits from where the last nibble points. */
  function Truncated(digest: seq<Byte>): nat {
    var offset := if digest == [] then 0 else digest[|digest| - 1] % 16;
    ByteAt(digest, offset) % 0x80 * 0x100_0000 + ByteAt(digest, offset + 1) * 0x1_0000
    + ByteAt(digest, offset + 2) * 0x100 + ByteAt(digest, offset + 3)
  }

  lemma {:induction false} TopBitDropped(v: nat, k: nat)
    ensures Bits(v, k + 1)[1..] == Bits(v, k)
  {
    if k > 0 {
      TopBitDropped(v / 2, k - 1);
      assert Bits(v, k + 1)[1..] == Bits(v / 2, k)[1..] + [v % 2 == 1];
    } else {
      assert Bits(v, 1) == Bits(v / 2, 0) + [v % 2 == 1];
    }
  }

  function Joined(b: seq<Byte>): nat
    requires |b| == 4
  {
    var b0: nat, b1: nat, b2: nat, b3: nat := b[0], b[1], b[2], b[3];
    ((b0 * 256 + b1) * 256 + b2) * 256 + b3
  }

  lemma OneByte(b: Byte)
    ensures Stream([b], 8) == Bits(b, 8)
  {
    assert [b][..0] == [];
    assert [] + Bits(b, 8) == Bits(b, 8);
  }

  lemma TwoBytes(a: Byte, b: Byte)
    ensures Stream([a, b], 8) == Bits(a as nat * 256 + b, 16)
  {
    OneByte(a);
    NextByte([a], a, 8, b);
    assert [a] + [b] == [a, b];
  }

  lemma ThreeBytes(a: Byte, b: Byte, c: Byte)
    ensures Stream([a, b, c], 8) == Bits((a as nat * 256 + b) * 256 + c, 24)
  {
    TwoBytes(a, b);
    NextByte([a, b], a as nat * 256 + b, 16, c);
    assert [a, b] + [c] == [a, b, c];
  }

  lemma FourBytes(b: seq<Byte>)
    requires |b| == 4
    ensures Stream(b, 8) == Bits(Joined(b), 32)
  {
    var first, high: nat := [b[0], b[1], b[2]], (b[0] as nat * 256 + b[1]) * 256 + b[2];
    ThreeBytes(b[0], b[1], b[2]);
    NextByte(first, high, 24, b[3]);
    assert b == first + [b[3]];
    assert Joined(b) == high * 256 + b[3];
  }

  lemma NextByte(bytes: seq<Byte>, v: nat, m: nat, byte: Byte)
    requires Stream(bytes, 8) == Bits(v, m)
    ensures Stream(bytes + [byte], 8) == Bits(v * 256 + byte, m + 8)
  {
    StreamSnoc(bytes, byte, 8);
    BelowByte(v, m, byte);
  }

  lemma BelowByte(v: nat, m: nat, byte: Byte)
    ensures Bits(v, m) + Bits(byte, 8) == Bits(v * 256 + byte, m + 8)
  {
    Sizes();
    ShlByte(v);
    BitsOfShl(v, 8, byte, m);
  }

  lemma ShlByte(v: nat)
    ensures Shl(v, 8) == v * 256
  {
    assert Shl(v, 1) == 2 * v;
    assert Shl(v, 2) == 4 * v;
    assert Shl(v, 3) == 8 * v;
    assert Shl(v, 4) == 16 * v;
    assert Shl(v, 5) == 32 * v;
    assert Shl(v, 6) == 64 * v;
    assert Shl(v, 7) == 128 * v;
  }

  lemma WithoutTopBit(b: seq<Byte>)
    requires |b| == 4
    ensures b[0] as nat % 0x80 * 0x100_0000 + b[1] as nat * 0x1_0000 + b[2] as nat * 0x100 + b[3] as nat
            == Joined(b) % 0x8000_0000
  {
    var high: nat, low: nat := b[0] as nat % 0x80, b[1] as nat * 0x1_0000 + b[2] as nat * 0x100 + b[3] as nat;
    Divides(Joined(b), 0x8000_0000, b[0] as nat / 0x80, high * 0x100_0000 + low);
  }

  /**
   * Section 5.3 of RFC 4226: of a digest of twenty bytes, the number whose bits are those of four of its
   * bytes without the first. The low half of the last byte says where they start.
   */
  lemma TruncatedIs(digest: seq<Byte>, offset: nat)
    requires |digest| == 20 && Bits(digest[19], 8)[4..] == Bits(offset, 4) && offset < 16
    ensures Bits(Truncated(digest), 31) == Stream(digest[offset..offset + 4], 8)[1..]
  {
    LowNibble(digest[19], offset);
    var b := digest[offset..offset + 4];
    WithoutTopBit(b);
    assert Truncated(digest) == Joined(b) % 0x8000_0000;
    FourBytes(b);
    DropsTopBit(Joined(b));
  }

  lemma DropsTopBit(v: nat)
    ensures Bits(v % 0x8000_0000, 31) == Bits(v, 32)[1..]
  {
    TopBitDropped(v, 31);
    Sizes();
    assert Pow2(31) == 0x8000_0000;
    MaskKeepsLowBits(v, 31, 31);
  }

  lemma LowNibble(byte: Byte, offset: nat)
    requires Bits(byte, 8)[4..] == Bits(offset, 4) && offset < 16
    ensures byte % 16 == offset
  {
    TopBitDropped(byte, 7);
    TopBitDropped(byte, 6);
    TopBitDropped(byte, 5);
    TopBitDropped(byte, 4);
    assert Bits(byte, 8)[4..] == Bits(byte, 8)[1..][1..][1..][1..];
    Sizes();
    assert Pow2(4) == 16;
    MaskKeepsLowBits(byte, 4, 4);
    BitsAreUnique(byte % 16, offset, 4);
  }

  function Pow10(k: nat): (p: nat)
    ensures p > 0
  {
    if k == 0 then 1 else 10 * Pow10(k - 1)
  }

  function DecimalDigit(d: nat): char
    requires d < 10
  {
    '0' + d as char
  }

  /** `String(n)`. */
  function Decimal(n: nat): string {
    if n < 10 then [DecimalDigit(n)] else Decimal(n / 10) + [DecimalDigit(n % 10)]
  }

  function PadStart(s: string, width: nat): string
    decreases width - |s|
  {
    if |s| >= width then s else PadStart(['0'] + s, width)
  }

  function CodeOf(digest: seq<Byte>, digits: nat): string {
    PadStart(Decimal(Truncated(digest) % Pow10(digits)), digits)
  }

  /** The number a string of decimal digits writes. */
  function ValueOf(s: string): nat {
    if s == "" then 0 else ValueOf(s[..|s| - 1]) * 10 + if '0' <= s[|s| - 1] <= '9' then (s[|s| - 1] - '0') as nat else 0
  }

  lemma {:induction false} DecimalFits(n: nat, digits: nat)
    requires n < Pow10(digits) && digits > 0
    ensures 0 < |Decimal(n)| <= digits && ValueOf(Decimal(n)) == n
  {
    if n >= 10 {
      assert digits > 1;
      DecimalFits(n / 10, digits - 1);
      assert Decimal(n)[..|Decimal(n)| - 1] == Decimal(n / 10);
    } else {
      assert Decimal(n)[..0] == "";
    }
  }

  lemma {:induction false} LeadingZero(s: string)
    ensures ValueOf(['0'] + s) == ValueOf(s)
  {
    var z := ['0'] + s;
    if s == "" {
      assert z[..0] == "";
    } else {
      LeadingZero(s[..|s| - 1]);
      assert z[..|z| - 1] == ['0'] + s[..|s| - 1];
    }
  }

  lemma {:induction false} PaddingKeepsValue(s: string, width: nat)
    requires |s| <= width
    ensures |PadStart(s, width)| == width && ValueOf(PadStart(s, width)) == ValueOf(s)
    decreases width - |s|
  {
    if |s| < width {
      LeadingZero(s);
      PaddingKeepsValue(['0'] + s, width);
    }
  }

  predicate AllDecimal(s: string) {
    forall i :: 0 <= i < |s| ==> '0' <= s[i] <= '9'
  }

  lemma {:induction false} DecimalDigits(n: nat)
    ensures AllDecimal(Decimal(n))
  {
    if n >= 10 {
      DecimalDigits(n / 10);
    }
  }

  lemma {:induction false} PaddedDigits(s: string, width: nat)
    requires AllDecimal(s)
    ensures AllDecimal(PadStart(s, width))
    decreases width - |s|
  {
    if |s| < width {
      PaddedDigits(['0'] + s, width);
    }
  }

  /** A code is a fixed-width string of digits, leading zeros kept, writing the truncated digest's low digits. */
  lemma CodeIsFixedWidth(digest: seq<Byte>, digits: nat)
    requires digits > 0
    ensures |CodeOf(digest, digits)| == digits && AllDecimal(CodeOf(digest, digits))
    ensures ValueOf(CodeOf(digest, digits)) == Truncated(digest) % Pow10(digits)
    ensures Truncated(digest) < 0x8000_0000
  {
    var n := Truncated(digest) % Pow10(digits);
    DecimalFits(n, digits);
    PaddingKeepsValue(Decimal(n), digits);
    DecimalDigits(n);
    PaddedDigits(Decimal(n), digits);
  }

  // ---- verification ----

  /** HMAC-SHA-1 of the secret and a counter. */
  type Mac = nat -> seq<Byte>

  datatype Totp = Valid(counter: nat) | NotValid | Throws

  /** The code of this step is the one given; a step before the epoch has none, and asking for it throws. */
  predicate Matches(mac: Mac, code: string, counter: int) {
    counter >= 0 && code == CodeOf(mac(counter), DIGITS)
  }

  predicate Unspent(last: Option<int>, counter: int) {
    last.None? || counter > last.value
  }

  /** The code given is an unspent one, `back` steps ago. */
  predicate Opens(mac: Mac, code: string, last: Option<int>, current: int, back: nat) {
    Unspent(last, current - back) && Matches(mac, code, current - back)
  }

  /** The newest step within tolerance whose code was given and which is not spent. */
  function Verified(mac: Mac, code: string, now: int, last: Option<int>): Totp {
    var current := TotpCounter(now);
    if |code| != DIGITS then NotValid
    else if Unspent(last, current) && current < 0 then Throws
    else if Unspent(last, current) && Matches(mac, code, current) then Valid(current)
    else if Unspent(last, current - 1) && current - 1 < 0 then Throws
    else if Unspent(last, current - 1) && Matches(mac, code, current - 1) then Valid(current - 1)
    else NotValid
  }

  method VerifyTotp(mac: Mac, code: string, now: int, last: Option<int>) returns (r: Totp)
    ensures r == Verified(mac, code, now, last)
  {
    if |code| != DIGITS {
      return NotValid;
    }
    var current := TotpCounter(now);
    for back := 0 to TOLERANCE + 1
      invariant back > 0 ==> !Opens(mac, code, last, current, 0) && (Unspent(last, current) ==> current >= 0)
      invariant back > 1 ==> !Opens(mac, code, last, current, 1) && (Unspent(last, current - 1) ==> current >= 1)
    {
      var counter := current - back;
      if last.Some? && counter <= last.value {
        continue;
      }
      if counter < 0 {
        return Throws;
      }
      if Matches(mac, code, counter) {
        return Valid(counter);
      }
    }
    return NotValid;
  }

  // ---- the gate ----

  datatype Outcome = Succeeded(counter: nat) | Denied | RefusedUp | Broke
  /** One attempt as the gate judges it. `now` is the clock when it was made, which may be a while ago. */
  datatype Attempt = Attempt(now: int, iamUp: bool, record: Record, passwordOk: bool, code: string)
  /** What the repository holds for break-glass; a secret that is not base32 makes its decoding throw. */
  datatype Record = NoRecord | BadSecret | Usable
  datatype Alert = Alert(outcome: Outcome, at: int)

  function Judge(mac: Mac, last: Option<int>, a: Attempt): Outcome {
    if a.iamUp then RefusedUp
    else if a.record.NoRecord? then Denied
    else if a.record.BadSecret? then Broke
    else
      match Verified(mac, a.code, a.now, last)
      case Throws => Broke
      case NotValid => Denied
      case Valid(counter) => if a.passwordOk then Succeeded(counter) else Denied
  }

  function Spent(last: Option<int>, o: Outcome): Option<int> {
    if o.Succeeded? then Some(o.counter) else last
  }

  class BreakGlass {
    const mac: Mac
    /** The highest counter already spent; in memory only. */
    var lastUsedCounter: Option<int>
    var alerts: seq<Alert>

    constructor (mac: Mac)
      ensures this.mac == mac && lastUsedCounter == None && alerts == []
    {
      this.mac := mac;
      lastUsedCounter := None;
      alerts := [];
    }

    /** Only a success spends a code, and every attempt that is answered alerts once. */
    method TryIn(a: Attempt) returns (o: Outcome)
      modifies this
      ensures o == Judge(mac, old(lastUsedCounter), a)
      ensures lastUsedCounter == Spent(old(lastUsedCounter), o)
      ensures alerts == old(alerts) + if o.Broke? then [] else [Alert(o, a.now)]
    {
      if a.iamUp {
        alerts := alerts + [Alert(RefusedUp, a.now)];
        return RefusedUp;
      }
      if a.record.NoRecord? {
        alerts := alerts + [Alert(Denied, a.now)];
        return Denied;
      }
      if a.record.BadSecret? {
        return Broke;
      }
      var totp := VerifyTotp(mac, a.code, a.now, lastUsedCounter);
      if totp.Throws? {
        return Broke;
      }
      if !a.passwordOk || !totp.Valid? {
        alerts := alerts + [Alert(Denied, a.now)];
        return Denied;
      }
      lastUsedCounter := Some(totp.counter);
      alerts := alerts + [Alert(Succeeded(totp.counter), a.now)];
      return Succeeded(totp.counter);
    }
  }

  /** The given code is that of an unspent step within tolerance. */
  ghost predicate Fits(mac: Mac, last: Option<int>, code: string, step: int) {
    Opens(mac, code, last, step, 0) || Opens(mac, code, last, step, 1)
  }

  /** A step before the epoch has no code, and asking for it fails; the newer step is asked first. */
  predicate BeforeEpoch(last: Option<int>, code: string, step: int) {
    |code| == DIGITS && ((step < 0 && Unspent(last, step)) || (step < 1 && Unspent(last, step - 1)))
  }

  /**
   * What becomes of an attempt made in a step of thirty seconds. It succeeds exactly with the right
   * password and a code that fits, while iam is down, and then spends the newest step whose code was given.
   */
  lemma SucceedsIff(mac: Mac, last: Option<int>, a: Attempt, step: int)
    requires 30 * step <= a.now < 30 * step + 30
    ensures Judge(mac, last, a).RefusedUp? <==> a.iamUp
    ensures Judge(mac, last, a).Succeeded? <==> !a.iamUp && a.record.Usable? && a.passwordOk && Fits(mac, last, a.code, step)
    ensures Judge(mac, last, a).Succeeded? ==>
              Judge(mac, last, a).counter as int == if Opens(mac, a.code, last, step, 0) then step else step - 1
    ensures Judge(mac, last, a).Broke? <==>
            !a.iamUp && (a.record.BadSecret?
                         || (a.record.Usable? && !Fits(mac, last, a.code, step) && BeforeEpoch(last, a.code, step)))
  {
    assert TotpCounter(a.now) == step;
    if Matches(mac, a.code, step) {
      MatchesAreFixedWidth(mac, a.code, step);
    }
    if Matches(mac, a.code, step - 1) {
      MatchesAreFixedWidth(mac, a.code, step - 1);
    }
  }

  lemma MatchesAreFixedWidth(mac: Mac, code: string, counter: int)
    requires Matches(mac, code, counter)
    ensures |code| == DIGITS
  {
    CodeIsFixedWidth(mac(counter), DIGITS);
  }

  /** The counters spent by the attempts made within a span of time, judged in this order. */
  function Successes(mac: Mac, last: Option<int>, attempts: seq<Attempt>, t1: int, t2: int): seq<int>
    decreases |attempts|
  {
    if attempts == [] then []
    else
      var o := Judge(mac, last, attempts[0]);
      (if o.Succeeded? && t1 <= attempts[0].now <= t2 then [o.counter as int] else [])
      + Successes(mac, Spent(last, o), attempts[1..], t1, t2)
  }

  ghost predicate Rising(s: seq<int>) {
    forall i, j :: 0 <= i < j < |s| ==> s[i] < s[j]
  }

  lemma SucceededWithin(mac: Mac, last: Option<int>, a: Attempt, t1: int, t2: int)
    requires Judge(mac, last, a).Succeeded? && t1 <= a.now <= t2
    ensures
      var c := Judge(mac, last, a).counter;
      Unspent(last, c) && TotpCounter(t1) - TOLERANCE <= c <= TotpCounter(t2)
  {
  }

  /** What a later attempt may spend was unspent before, and later than what was just spent. */
  lemma SpendingNarrows(mac: Mac, last: Option<int>, a: Attempt, c: int)
    requires Unspent(Spent(last, Judge(mac, last, a)), c)
    ensures Unspent(last, c)
    ensures Judge(mac, last, a).Succeeded? ==> Judge(mac, last, a).counter < c
  {
  }

  lemma RisingFront(c: int, rest: seq<int>)
    requires Rising(rest) && forall i :: 0 <= i < |rest| ==> c < rest[i]
    ensures Rising([c] + rest)
  {
  }

  /** Unspent counters of a span of steps. */
  ghost predicate Within(s: seq<int>, last: Option<int>, low: int, high: int) {
    forall i :: 0 <= i < |s| ==> Unspent(last, s[i]) && low <= s[i] <= high
  }

  lemma LaterWithin(mac: Mac, last: Option<int>, a: Attempt, rest: seq<int>, low: int, high: int)
    requires Within(rest, Spent(last, Judge(mac, last, a)), low, high)
    ensures Within(rest, last, low, high)
    ensures Judge(mac, last, a).Succeeded? ==> forall i :: 0 <= i < |rest| ==> Judge(mac, last, a).counter < rest[i]
  {
    forall i | 0 <= i < |rest|
      ensures Unspent(last, rest[i]) && (Judge(mac, last, a).Succeeded? ==> Judge(mac, last, a).counter < rest[i])
    {
      SpendingNarrows(mac, last, a, rest[i]);
    }
  }

  lemma {:induction false} SuccessesRise(mac: Mac, last: Option<int>, attempts: seq<Attempt>, t1: int, t2: int)
    ensures Rising(Successes(mac, last, attempts, t1, t2))
    ensures Within(Successes(mac, last, attempts, t1, t2), last, TotpCounter(t1) - TOLERANCE, TotpCounter(t2))
    decreases |attempts|
  {
    if attempts != [] {
      var o := Judge(mac, last, attempts[0]);
      var rest := Successes(mac, Spent(last, o), attempts[1..], t1, t2);
      SuccessesRise(mac, Spent(last, o), attempts[1..], t1, t2);
      LaterWithin(mac, last, attempts[0], rest, TotpCounter(t1) - TOLERANCE, TotpCounter(t2));
      if o.Succeeded? && t1 <= attempts[0].now <= t2 {
        SucceededWithin(mac, last, attempts[0], t1, t2);
        RisingFront(o.counter, rest);
      } else {
        assert Successes(mac, last, attempts, t1, t2) == [] + rest;
      }
    }
  }

  lemma {:induction false} RisingNeedsRoom(s: seq<int>, low: int, high: int)
    requires Rising(s) && forall i :: 0 <= i < |s| ==> low <= s[i] <= high
    ensures |s| <= if low <= high then high - low + 1 else 0
  {
    if s != [] {
      var n := |s| - 1;
      forall i | 0 <= i < n ensures s[..n][i] <= s[n] - 1 {
        assert s[i] < s[n];
      }
      RisingNeedsRoom(s[..n], low, s[n] - 1);
    }
  }

  /**
   * One-time codes are one-time: however attempts interleave, the counters accepted strictly increase,
   * and the sign-ins made in any span of time are at most the steps it touches and one more.
   */
  lemma CodesAreSpentOnce(mac: Mac, last: Option<int>, attempts: seq<Attempt>, t1: int, t2: int)
    requires t1 <= t2
    ensures Rising(Successes(mac, last, attempts, t1, t2))
    ensures |Successes(mac, last, attempts, t1, t2)| <= TotpCounter(t2) - TotpCounter(t1) + 2
  {
    var s := Successes(mac, last, attempts, t1, t2);
    SuccessesRise(mac, last, attempts, t1, t2);
    RisingNeedsRoom(s, TotpCounter(t1) - TOLERANCE, TotpCounter(t2));
  }

  /** The attempts made while iam was down. */
  function WhileDown(attempts: seq<Attempt>): seq<Attempt> {
    if attempts == [] then []
    else (if attempts[0].iamUp then [] else [attempts[0]]) + WhileDown(attempts[1..])
  }

  /** The highest counter spent once all these attempts have been judged. */
  function SpentAfter(mac: Mac, last: Option<int>, attempts: seq<Attempt>): Option<int>
    decreases |attempts|
  {
    if attempts == [] then last else SpentAfter(mac, Spent(last, Judge(mac, last, attempts[0])), attempts[1..])
  }

  /** Attempts refused because iam is up change nothing, wherever they fall among the others. */
  lemma {:induction false} RefusalsSpendNothing(mac: Mac, last: Option<int>, attempts: seq<Attempt>, t1: int, t2: int)
    ensures SpentAfter(mac, last, attempts) == SpentAfter(mac, last, WhileDown(attempts))
    ensures Successes(mac, last, attempts, t1, t2) == Successes(mac, last, WhileDown(attempts), t1, t2)
    decreases |attempts|
  {
    if attempts != [] {
      var a, rest := attempts[0], attempts[1..];
      RefusalsSpendNothing(mac, Spent(last, Judge(mac, last, a)), rest, t1, t2);
      if !a.iamUp {
        assert WhileDown(attempts)[0] == a && WhileDown(attempts)[1..] == WhileDown(rest);
      } else {
        assert WhileDown(attempts) == WhileDown(rest);
        assert Successes(mac, last, attempts, t1, t2) == Successes(mac, last, rest, t1, t2);
      }
    }
  }
}
