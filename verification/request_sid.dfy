/** UUIDv7 request identifiers: minted in order, as long as the clock is. */
module RequestSid {
  import opened Text
  import opened Base32

  /** What orders an identifier: its millisecond and the counter within it. */
  datatype Stamp = Stamp(ms: nat, counter: nat)

  const MAX_COUNTER := 0xfff
  const MILLISECONDS := 0x1_0000_0000_0000

  // ---- fixed-width hexadecimal ----

  function HexDigit(d: nat): char
    requires d < 16
  {
    if d < 10 then '0' + d as char else 'a' + (d - 10) as char
  }

  /** The `width` low hexadecimal digits of a number. */
  function Hex(n: nat, width: nat): (r: string)
    ensures |r| == width
  {
    if width == 0 then "" else Hex(n / 16, width - 1) + [HexDigit(n % 16)]
  }

  function Pow16(k: nat): (p: nat)
    ensures p > 0
  {
    if k == 0 then 1 else 16 * Pow16(k - 1)
  }

  const HEXADECIMAL := "0123456789abcdef"

  lemma LessDigit(a: nat, b: nat)
    requires a < b < 16
    ensures HexDigit(a) == HEXADECIMAL[a] && HexDigit(b) == HEXADECIMAL[b]
    ensures Less([HexDigit(a)], [HexDigit(b)])
  {
  }

  /** At one width, hexadecimal sorts as the numbers do. */
  lemma {:induction false} HexKeepsOrder(a: nat, b: nat, width: nat)
    requires a < b < Pow16(width)
    ensures Less(Hex(a, width), Hex(b, width))
    decreases width
  {
    var p, q := Hex(a / 16, width - 1), Hex(b / 16, width - 1);
    if a / 16 < b / 16 {
      HexKeepsOrder(a / 16, b / 16, width - 1);
      LessExtends(p, q, [HexDigit(a % 16)], [HexDigit(b % 16)]);
    } else {
      LessDigit(a % 16, b % 16);
      LessPrefixed(p, [HexDigit(a % 16)], [HexDigit(b % 16)]);
    }
  }

  lemma TwoMore(high: nat, low: Byte, width: nat)
    ensures Hex(high, width) + Hex(low, 2) == Hex(high * 256 + low, width + 2)
  {
    var n := high * 256 + low;
    assert n % 16 == low % 16 && n / 16 == high * 16 + low / 16;
    assert n / 16 % 16 == low / 16 && n / 16 / 16 == high;
    assert Hex(low, 2) == Hex(low / 16, 1) + [HexDigit(low % 16)];
    assert Hex(low / 16, 1) == Hex(low / 16 / 16, 0) + [HexDigit(low / 16 % 16)];
    assert Hex(n, width + 2) == Hex(n / 16, width + 1) + [HexDigit(n % 16)];
  }

  // ---- the byte layout ----

  function HexOf(bytes: seq<Byte>): (r: string)
    ensures |r| == 2 * |bytes|
  {
    if bytes == [] then "" else HexOf(bytes[..|bytes| - 1]) + Hex(bytes[|bytes| - 1], 2)
  }

  /** Groups of 8, 4, 4, 4 and 12 digits. */
  function Grouped(hex: string): string
    requires |hex| == 32
  {
    hex[..8] + "-" + hex[8..12] + "-" + hex[12..16] + "-" + hex[16..20] + "-" + hex[20..]
  }

  /** The stamp's sixteen digits, then the rest. */
  function Written(s: Stamp, rest: string): string
    requires |rest| == 16
  {
    Hex(s.ms / 0x1_0000, 8) + "-" + Hex(s.ms % 0x1_0000, 4) + "-" + Hex(0x7000 + s.counter, 4)
    + "-" + rest[..4] + "-" + rest[4..]
  }

  /** Sections 5.7 and 6.2 of RFC 9562: 48 bits of time, the version, and 12 bits of counter. */
  ghost predicate LaidOut(bytes: seq<Byte>, s: Stamp) {
    && |bytes| == 16
    && bytes[0] == s.ms / 0x100_0000_0000 % 256 && bytes[1] == s.ms / 0x1_0000_0000 % 256
    && bytes[2] == s.ms / 0x100_0000 % 256 && bytes[3] == s.ms / 0x1_0000 % 256
    && bytes[4] == s.ms / 0x100 % 256 && bytes[5] == s.ms % 256
    && bytes[6] == 0x70 + s.counter / 256 % 16 && bytes[7] == s.counter % 256
    && 0x80 <= bytes[8] < 0xc0
  }

  lemma HexOfSnoc(bytes: seq<Byte>, b: Byte)
    ensures HexOf(bytes + [b]) == HexOf(bytes) + Hex(b, 2)
  {
    assert (bytes + [b])[..|bytes|] == bytes;
  }

  lemma {:induction false} HexOfConcat(a: seq<Byte>, b: seq<Byte>)
    ensures HexOf(a + b) == HexOf(a) + HexOf(b)
    decreases |b|
  {
    if b == [] {
      assert a + b == a;
    } else {
      var n := |b| - 1;
      HexOfConcat(a, b[..n]);
      assert a + b == (a + b[..n]) + [b[n]];
      HexOfSnoc(a + b[..n], b[n]);
      assert HexOf(b) == HexOf(b[..n]) + Hex(b[n], 2);
    }
  }

  lemma HexOfTwo(a: Byte, b: Byte)
    ensures HexOf([a, b]) == Hex(a * 256 + b, 4)
  {
    assert [a, b][..1] == [a] && [a][..0] == [];
    assert HexOf([a]) == Hex(a, 2);
    TwoMore(a, b, 2);
  }

  lemma HexOfMore(bytes: seq<Byte>, b: Byte, high: nat, width: nat)
    requires HexOf(bytes) == Hex(high, width)
    ensures HexOf(bytes + [b]) == Hex(high * 256 + b, width + 2)
  {
    HexOfSnoc(bytes, b);
    TwoMore(high, b, width);
  }

  lemma HexOfFour(a: Byte, b: Byte, c: Byte, d: Byte)
    ensures HexOf([a, b, c, d]) == Hex(((a * 256 + b) * 256 + c) * 256 + d, 8)
  {
    HexOfTwo(a, b);
    HexOfMore([a, b], c, a * 256 + b, 4);
    HexOfMore([a, b] + [c], d, (a * 256 + b) * 256 + c, 6);
    assert [a, b, c, d] == [a, b] + [c] + [d];
  }

  lemma Shifted(ms: nat)
    ensures ms / 0x100_0000 == ms / 0x1_0000 / 256
    ensures ms / 0x1_0000_0000 == ms / 0x100_0000 / 256
    ensures ms / 0x100_0000_0000 == ms / 0x1_0000_0000 / 256
  {
  }

  lemma Milliseconds(ms: nat)
    requires ms < MILLISECONDS
    ensures
      ms / 0x1_0000
      == ((ms / 0x100_0000_0000 % 256 * 256 + ms / 0x1_0000_0000 % 256) * 256 + ms / 0x100_0000 % 256) * 256
         + ms / 0x1_0000 % 256
  {
    Shifted(ms);
    var a, b, c := ms / 0x1_0000, ms / 0x100_0000, ms / 0x1_0000_0000;
    assert a == a / 256 * 256 + a % 256 && b == b / 256 * 256 + b % 256 && c == c / 256 * 256 + c % 256;
    assert ms / 0x100_0000_0000 < 256;
  }

  lemma LowMilliseconds(ms: nat)
    ensures ms % 0x1_0000 == ms / 0x100 % 256 * 256 + ms % 256
  {
  }

  lemma CounterDigits(counter: nat)
    requires counter <= MAX_COUNTER
    ensures (0x70 + counter / 256 % 16) * 256 + counter % 256 == 0x7000 + counter
  {
  }

  /** The text of a laid-out identifier shows its stamp first. */
  lemma TextShowsStamp(bytes: seq<Byte>, s: Stamp)
    requires LaidOut(bytes, s) && s.ms < MILLISECONDS && s.counter <= MAX_COUNTER
    ensures Grouped(HexOf(bytes)) == Written(s, HexOf(bytes[8..]))
  {
    HighDigits(bytes, s);
    LowDigits(bytes, s);
    VersionDigits(bytes, s);
    Quarters(bytes);
    var hex, rest := HexOf(bytes), HexOf(bytes[8..]);
    assert hex[16..20] == rest[..4] && hex[20..] == rest[4..];
  }

  lemma HighDigits(bytes: seq<Byte>, s: Stamp)
    requires LaidOut(bytes, s) && s.ms < MILLISECONDS
    ensures HexOf([bytes[0], bytes[1], bytes[2], bytes[3]]) == Hex(s.ms / 0x1_0000, 8)
  {
    Milliseconds(s.ms);
    HexOfFour(bytes[0], bytes[1], bytes[2], bytes[3]);
  }

  lemma LowDigits(bytes: seq<Byte>, s: Stamp)
    requires LaidOut(bytes, s)
    ensures HexOf([bytes[4], bytes[5]]) == Hex(s.ms % 0x1_0000, 4)
  {
    LowMilliseconds(s.ms);
    HexOfTwo(bytes[4], bytes[5]);
  }

  lemma VersionDigits(bytes: seq<Byte>, s: Stamp)
    requires LaidOut(bytes, s) && s.counter <= MAX_COUNTER
    ensures HexOf([bytes[6], bytes[7]]) == Hex(0x7000 + s.counter, 4)
  {
    CounterDigits(s.counter);
    HexOfTwo(bytes[6], bytes[7]);
  }

  lemma Quarters(bytes: seq<Byte>)
    requires |bytes| == 16
    ensures HexOf(bytes)[..8] == HexOf([bytes[0], bytes[1], bytes[2], bytes[3]])
    ensures HexOf(bytes)[8..12] == HexOf([bytes[4], bytes[5]]) && HexOf(bytes)[12..16] == HexOf([bytes[6], bytes[7]])
    ensures HexOf(bytes)[16..] == HexOf(bytes[8..])
  {
    var a, b, c, d := [bytes[0], bytes[1], bytes[2], bytes[3]], [bytes[4], bytes[5]], [bytes[6], bytes[7]], bytes[8..];
    assert bytes == a + (b + (c + d));
    HexOfConcat(a, b + (c + d));
    HexOfConcat(b, c + d);
    HexOfConcat(c, d);
  }

  // ---- order ----

  predicate Before(a: Stamp, b: Stamp) {
    a.ms < b.ms || (a.ms == b.ms && a.counter < b.counter)
  }

  lemma LowHalf(a: nat, b: nat)
    requires a < b < MILLISECONDS
    ensures a / 0x1_0000 < b / 0x1_0000 || (a / 0x1_0000 == b / 0x1_0000 && a % 0x1_0000 < b % 0x1_0000)
    ensures b / 0x1_0000 < Pow16(8) && b % 0x1_0000 < Pow16(4)
  {
    Widths();
  }

  lemma Widths()
    ensures Pow16(4) == 0x1_0000 && Pow16(8) == 0x1_0000_0000
  {
    assert Pow16(2) == 0x100;
    assert Pow16(6) == 0x100_0000;
  }

  /** Identifiers sort as strings the way their stamps do, whatever follows. */
  lemma WrittenKeepsOrder(a: Stamp, b: Stamp, r: string, t: string)
    requires Before(a, b) && b.ms < MILLISECONDS && b.counter <= MAX_COUNTER && a.counter <= MAX_COUNTER
    requires |r| == 16 && |t| == 16
    ensures Less(Written(a, r), Written(b, t))
  {
    Widths();
    var a0, a1, a2 := Hex(a.ms / 0x1_0000, 8), Hex(a.ms % 0x1_0000, 4), Hex(0x7000 + a.counter, 4);
    var b0, b1, b2 := Hex(b.ms / 0x1_0000, 8), Hex(b.ms % 0x1_0000, 4), Hex(0x7000 + b.counter, 4);
    var x, y := "-" + r[..4] + "-" + r[4..], "-" + t[..4] + "-" + t[4..];
    assert Written(a, r) == a0 + ("-" + (a1 + ("-" + (a2 + x))));
    assert Written(b, t) == b0 + ("-" + (b1 + ("-" + (b2 + y))));
    if a.ms == b.ms {
      HexKeepsOrder(0x7000 + a.counter, 0x7000 + b.counter, 4);
      LessExtends(a2, b2, x, y);
      LessPrefixed("-", a2 + x, b2 + y);
      LessPrefixed(a1, "-" + (a2 + x), "-" + (b2 + y));
      LessPrefixed("-", a1 + ("-" + (a2 + x)), a1 + ("-" + (b2 + y)));
      LessPrefixed(a0, "-" + (a1 + ("-" + (a2 + x))), "-" + (a1 + ("-" + (b2 + y))));
    } else {
      LowHalf(a.ms, b.ms);
      if a.ms / 0x1_0000 < b.ms / 0x1_0000 {
        HexKeepsOrder(a.ms / 0x1_0000, b.ms / 0x1_0000, 8);
        LessExtends(a0, b0, "-" + (a1 + ("-" + (a2 + x))), "-" + (b1 + ("-" + (b2 + y))));
      } else {
        HexKeepsOrder(a.ms % 0x1_0000, b.ms % 0x1_0000, 4);
        LessExtends(a1, b1, "-" + (a2 + x), "-" + (b2 + y));
        LessPrefixed("-", a1 + ("-" + (a2 + x)), b1 + ("-" + (b2 + y)));
        LessPrefixed(a0, "-" + (a1 + ("-" + (a2 + x))), "-" + (b1 + ("-" + (b2 + y))));
      }
    }
  }

  // ---- minting ----

  /** The next stamp, for a clock reading and two random bytes. */
  function NextStamp(s: Stamp, clock: nat, random: nat): Stamp {
    if clock == s.ms then
      if s.counter + 1 > MAX_COUNTER then Stamp(s.ms + 1, random % 0x800) else Stamp(s.ms, s.counter + 1)
    else Stamp(if clock < s.ms then s.ms else clock, random % 0x800)
  }

  class Minter {
    var lastMs: nat
    var counter: nat

    constructor ()
      ensures State() == Stamp(0, 0)
    {
      lastMs := 0;
      counter := 0;
    }

    function State(): Stamp
      reads this
    {
      Stamp(lastMs, counter)
    }

    /** Mints into the random bytes in place; all but the stamp, the version and the variant stay random. */
    method Uuidv7(bytes: array<Byte>, clock: nat, random: nat) returns (id: string)
      requires bytes.Length == 16 && counter <= MAX_COUNTER
      modifies this, bytes
      ensures State() == NextStamp(old(State()), clock, random) && counter <= MAX_COUNTER
      ensures LaidOut(bytes[..], State()) && bytes[9..] == old(bytes[9..]) && bytes[8] % 0x40 == old(bytes[8]) % 0x40
      ensures |HexOf(bytes[..])| == 32 && id == Grouped(HexOf(bytes[..]))
    {
      var ms := clock;
      if ms == lastMs {
        counter := counter + 1;
        if counter > MAX_COUNTER {
          ms := lastMs + 1;
          lastMs := ms;
          counter := random % 0x800;
        }
      } else {
        if ms < lastMs {
          ms := lastMs;
        }
        lastMs := ms;
        counter := random % 0x800;
      }
      bytes[0] := ms / 0x100_0000_0000 % 256;
      bytes[1] := ms / 0x1_0000_0000 % 256;
      bytes[2] := ms / 0x100_0000 % 256;
      bytes[3] := ms / 0x1_0000 % 256;
      bytes[4] := ms / 0x100 % 256;
      bytes[5] := ms % 256;
      bytes[6] := 0x70 + counter / 256 % 16;
      bytes[7] := counter % 256;
      bytes[8] := bytes[8] % 0x40 + 0x80;
      id := Grouped(HexOf(bytes[..]));
    }
  }

  /** The stamps minted for a run of clock readings, each with its two random bytes. */
  function Minted(s: Stamp, readings: seq<(nat, nat)>): seq<Stamp>
    decreases |readings|
  {
    if readings == [] then []
    else
      var next := NextStamp(s, readings[0].0, readings[0].1);
      [next] + Minted(next, readings[1..])
  }

  /** The timestamp never goes back, whatever the clock does. */
  lemma {:induction false} TimeNeverGoesBack(s: Stamp, readings: seq<(nat, nat)>, i: nat)
    requires i < |readings|
    ensures |Minted(s, readings)| == |readings|
    ensures s.ms <= Minted(s, readings)[i].ms
    ensures i > 0 ==> Minted(s, readings)[i - 1].ms <= Minted(s, readings)[i].ms
    decreases |readings|
  {
    var next := NextStamp(s, readings[0].0, readings[0].1);
    if i > 0 {
      TimeNeverGoesBack(next, readings[1..], i - 1);
    } else if |readings| > 1 {
      TimeNeverGoesBack(next, readings[1..], 0);
    }
  }

  /**
   * The next stamp is later if and only if the clock has not run behind the last one used, or the counter,
   * drawn afresh when it has, happens to come out higher.
   */
  lemma NextIsLaterIff(s: Stamp, clock: nat, random: nat)
    ensures Before(s, NextStamp(s, clock, random)) <==> clock >= s.ms || random % 0x800 > s.counter
  {
  }

  /** The clock is never behind the last millisecond used. */
  ghost predicate NeverBehind(s: Stamp, readings: seq<(nat, nat)>)
    decreases |readings|
  {
    readings == []
    || (readings[0].0 >= s.ms && NeverBehind(NextStamp(s, readings[0].0, readings[0].1), readings[1..]))
  }

  lemma {:induction false} MintedInOrder(s: Stamp, readings: seq<(nat, nat)>, j: nat)
    requires NeverBehind(s, readings) && j < |readings| && s.counter <= MAX_COUNTER
    ensures |Minted(s, readings)| == |readings|
    ensures Before(s, Minted(s, readings)[j]) && Minted(s, readings)[j].counter <= MAX_COUNTER
    ensures forall i :: 0 <= i < j ==> Before(Minted(s, readings)[i], Minted(s, readings)[j])
    decreases |readings|
  {
    var next := NextStamp(s, readings[0].0, readings[0].1);
    var rest := Minted(next, readings[1..]);
    if j > 0 {
      MintedInOrder(next, readings[1..], j - 1);
      forall i | 0 <= i < j ensures Before(Minted(s, readings)[i], Minted(s, readings)[j]) {
        if i > 0 {
          assert Before(rest[i - 1], rest[j - 1]);
        }
      }
    } else if |readings| > 1 {
      MintedInOrder(next, readings[1..], 0);
    }
  }

  /**
   * While the clock is not behind, identifiers sort as strings in the order they were minted, whatever
   * their random parts.
   */
  lemma IdsSortAsMinted(s: Stamp, readings: seq<(nat, nat)>, i: nat, j: nat, a: seq<Byte>, b: seq<Byte>)
    requires NeverBehind(s, readings) && i < j < |readings| && s.counter <= MAX_COUNTER
    requires |Minted(s, readings)| == |readings| && Minted(s, readings)[j].ms < MILLISECONDS
    requires LaidOut(a, Minted(s, readings)[i]) && LaidOut(b, Minted(s, readings)[j])
    ensures Less(Grouped(HexOf(a)), Grouped(HexOf(b)))
  {
    MintedInOrder(s, readings, i);
    MintedInOrder(s, readings, j);
    var x, y := Minted(s, readings)[i], Minted(s, readings)[j];
    TextShowsStamp(a, x);
    TextShowsStamp(b, y);
    WrittenKeepsOrder(x, y, HexOf(a[8..]), HexOf(b[8..]));
  }

  /** A millisecond has room for at least 2048 identifiers after its first. */
  lemma {:induction false} RoomInAMillisecond(s: Stamp, readings: seq<(nat, nat)>, i: nat)
    requires i < |readings| && s.counter + |readings| <= MAX_COUNTER
    requires forall k :: 0 <= k < |readings| ==> readings[k].0 == s.ms
    ensures |Minted(s, readings)| == |readings| && Minted(s, readings)[i] == Stamp(s.ms, s.counter + i + 1)
    decreases |readings|
  {
    var next := NextStamp(s, readings[0].0, readings[0].1);
    forall k | 0 <= k < |readings[1..]| ensures readings[1..][k].0 == next.ms {
      assert readings[1..][k] == readings[k + 1];
    }
    if i > 0 {
      RoomInAMillisecond(next, readings[1..], i - 1);
    } else if |readings| > 1 {
      RoomInAMillisecond(next, readings[1..], 0);
    }
  }

  /** The first identifier of a millisecond leaves that room. */
  lemma FirstLeavesRoom(s: Stamp, clock: nat, random: nat, readings: seq<(nat, nat)>)
    requires clock > s.ms && |readings| == 2048
    ensures NextStamp(s, clock, random).counter + |readings| <= MAX_COUNTER
    ensures NextStamp(s, clock, random).ms == clock
  {
  }

  lemma {:induction false} MintedStep(s: Stamp, readings: seq<(nat, nat)>, i: nat)
    requires i < |readings| && s.counter <= MAX_COUNTER
    ensures |Minted(s, readings)| == |readings| && Minted(s, readings)[i].counter <= MAX_COUNTER
    ensures i > 0 ==> Minted(s, readings)[i] == NextStamp(Minted(s, readings)[i - 1], readings[i].0, readings[i].1)
    decreases |readings|
  {
    var next := NextStamp(s, readings[0].0, readings[0].1);
    if i > 0 {
      MintedStep(next, readings[1..], i - 1);
    } else if |readings| > 1 {
      MintedStep(next, readings[1..], 0);
    }
  }

  /**
   * Of two identifiers minted one after the other the second sorts after the first, whatever their
   * random parts, if the clock had not fallen behind or the new counter came out higher; it sorts
   * before it if the clock had fallen behind and the counter came out lower.
   */
  lemma NextIdSorts(s: Stamp, readings: seq<(nat, nat)>, i: nat, a: seq<Byte>, b: seq<Byte>)
    requires 0 < i < |readings| && s.counter <= MAX_COUNTER && |Minted(s, readings)| == |readings|
    requires Minted(s, readings)[i].ms < MILLISECONDS
    requires LaidOut(a, Minted(s, readings)[i - 1]) && LaidOut(b, Minted(s, readings)[i])
    ensures
      var last := Minted(s, readings)[i - 1];
      && (readings[i].0 >= last.ms || readings[i].1 % 0x800 > last.counter ==>
            Less(Grouped(HexOf(a)), Grouped(HexOf(b))))
      && (readings[i].0 < last.ms && readings[i].1 % 0x800 < last.counter ==>
            Less(Grouped(HexOf(b)), Grouped(HexOf(a))))
  {
    var x, y := Minted(s, readings)[i - 1], Minted(s, readings)[i];
    MintedStep(s, readings, i - 1);
    MintedStep(s, readings, i);
    TimeNeverGoesBack(s, readings, i);
    TextShowsStamp(a, x);
    TextShowsStamp(b, y);
    NextIsLaterIff(x, readings[i].0, readings[i].1);
    if Before(x, y) {
      WrittenKeepsOrder(x, y, HexOf(a[8..]), HexOf(b[8..]));
    } else if Before(y, x) {
      WrittenKeepsOrder(y, x, HexOf(b[8..]), HexOf(a[8..]));
    }
  }

  /** From the start, on a clock that reads 10 and then 9: of the two identifiers the second sorts first. */
  lemma StepBackReorders(a: seq<Byte>, b: seq<Byte>)
    requires
      var minted := Minted(Stamp(0, 0), [(10, 5), (9, 0)]);
      |minted| == 2 && LaidOut(a, minted[0]) && LaidOut(b, minted[1])
    ensures Less(Grouped(HexOf(b)), Grouped(HexOf(a)))
  {
    var readings: seq<(nat, nat)> := [(10, 5), (9, 0)];
    assert readings[1..] == [(9, 0)];
    assert Minted(Stamp(0, 0), readings) == [Stamp(10, 5)] + Minted(Stamp(10, 5), [(9, 0)]);
    assert Minted(Stamp(10, 5), [(9, 0)])[0] == Stamp(10, 0);
    NextIdSorts(Stamp(0, 0), readings, 1, a, b);
  }
}
