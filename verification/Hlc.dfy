// Hybrid logical clocks (internal/sync/hlc.go): the text format, its parser,
// the validity test a push applies, and the generator.
module Hlc {
  import opened TextOrder
  import opened Values

  const MILLIS_LIMIT := 10_000_000_000_000
  const SIGNED_LIMIT := 1_000_000_000_000
  const COUNTER_LIMIT := 0xffff
  const CLOCK_LENGTH := 27
  const DEVICE_LENGTH := 8

  type Base = b: int | b == 10 || b == 16 witness 10

  /** The parts of one clock. */
  datatype Stamp = Stamp(millis: int, counter: nat, device: string)

  // ---------------------------------------------------------------- digits

  predicate IsDigit(base: Base, c: char) {
    '0' <= c <= '9' || (base == 16 && ('a' <= c <= 'f' || 'A' <= c <= 'F'))
  }

  /** A digit in the one spelling the generator writes. */
  predicate IsWritten(base: Base, c: char) {
    '0' <= c <= '9' || (base == 16 && 'a' <= c <= 'f')
  }

  function DigitValue(c: char): nat {
    if '0' <= c <= '9' then (c - '0') as int
    else if 'a' <= c <= 'f' then 10 + (c - 'a') as int
    else if 'A' <= c <= 'F' then 10 + (c - 'A') as int
    else 0
  }

  function DigitChar(n: nat): char
    requires n < 16
  {
    if n < 10 then '0' + n as char else 'a' + (n - 10) as char
  }

  function Times(base: Base, n: int): int {
    if base == 10 then 10 * n else 16 * n
  }

  /** `n` without its last digit. */
  function Front(base: Base, n: nat): nat {
    if base == 10 then n / 10 else n / 16
  }

  function Last(base: Base, n: nat): (d: nat)
    ensures d < base
  {
    if base == 10 then n % 10 else n % 16
  }

  function Power(base: Base, width: nat): nat {
    if width == 0 then 1 else Times(base, Power(base, width - 1))
  }

  /** The value of a digit string, most significant first. */
  function Num(base: Base, s: string): nat {
    if s == "" then 0 else Times(base, Num(base, s[..|s| - 1])) + DigitValue(s[|s| - 1])
  }

  /** `n` in exactly `width` digits, the high ones dropped. */
  function Digits(base: Base, width: nat, n: nat): (s: string)
    ensures |s| == width
  {
    if width == 0 then "" else Digits(base, width - 1, Front(base, n)) + [DigitChar(Last(base, n))]
  }

  predicate AllDigits(base: Base, s: string) {
    forall i | 0 <= i < |s| :: IsDigit(base, s[i])
  }

  predicate AllWritten(base: Base, s: string) {
    forall i | 0 <= i < |s| :: IsWritten(base, s[i])
  }

  lemma CharOfDigit(base: Base, n: nat)
    requires n < base
    ensures IsWritten(base, DigitChar(n)) && DigitValue(DigitChar(n)) == n
  {
  }

  lemma DigitOfChar(base: Base, c: char)
    requires IsDigit(base, c)
    ensures DigitValue(c) < base
    ensures IsWritten(base, c) ==> DigitChar(DigitValue(c)) == c
    ensures c == DigitChar(DigitValue(c)) || c < DigitChar(DigitValue(c))
  {
  }

  lemma CharOrder(base: Base, c: char, d: char)
    requires IsWritten(base, c) && IsWritten(base, d)
    ensures c < d <==> DigitValue(c) < DigitValue(d)
    ensures c == d <==> DigitValue(c) == DigitValue(d)
  {
  }

  lemma {:induction false} NumOfDigits(base: Base, width: nat, n: nat)
    requires n < Power(base, width)
    ensures Num(base, Digits(base, width, n)) == n
    ensures AllWritten(base, Digits(base, width, n))
  {
    if width > 0 {
      NumOfDigits(base, width - 1, Front(base, n));
      CharOfDigit(base, Last(base, n));
      var init, c := Digits(base, width - 1, Front(base, n)), DigitChar(Last(base, n));
      assert (init + [c])[..width - 1] == init;
    }
  }

  lemma {:induction false} DigitsOfNum(base: Base, s: string)
    requires AllDigits(base, s)
    ensures Num(base, s) < Power(base, |s|)
    ensures AllWritten(base, s) ==> Digits(base, |s|, Num(base, s)) == s
  {
    if s != "" {
      var init, c := s[..|s| - 1], s[|s| - 1];
      DigitsOfNum(base, init);
      DigitOfChar(base, c);
      assert s == init + [c];
      assert Front(base, Num(base, s)) == Num(base, init) && Last(base, Num(base, s)) == DigitValue(c);
    }
  }

  /** Digit strings of one length compare as the numbers they spell. */
  lemma {:induction false} NumOrder(base: Base, s: string, t: string)
    requires |s| == |t| && AllWritten(base, s) && AllWritten(base, t)
    ensures Before(s, t) <==> Num(base, s) < Num(base, t)
    ensures s == t <==> Num(base, s) == Num(base, t)
  {
    if s != "" {
      var n := |s| - 1;
      var c, d := s[n], t[n];
      NumOrder(base, s[..n], t[..n]);
      CharOrder(base, c, d);
      DigitOfChar(base, c);
      DigitOfChar(base, d);
      Parts(s[..n], t[..n], [c], [d]);
      assert s == s[..n] + [c] && t == t[..n] + [d];
      assert Before([c], [d]) <==> c < d;
    }
  }

  /** Any spelling sorts no later than the written one of the same number. */
  lemma {:induction false} SpellingAtMost(base: Base, s: string)
    requires AllDigits(base, s)
    ensures AtMost(s, Digits(base, |s|, Num(base, s)))
  {
    if s != "" {
      var init, c := s[..|s| - 1], s[|s| - 1];
      SpellingAtMost(base, init);
      DigitOfChar(base, c);
      assert Front(base, Num(base, s)) == Num(base, init) && Last(base, Num(base, s)) == DigitValue(c);
      var d := DigitChar(DigitValue(c));
      assert s == init + [c];
      Parts(init, Digits(base, |init|, Num(base, init)), [c], [d]);
      assert c == d || Before([c], [d]);
    }
  }

  lemma {:induction false} PowerExceeds(base: Base, width: nat)
    ensures Power(base, width) > width
  {
    if width > 0 { PowerExceeds(base, width - 1); }
  }

  // ------------------------------------------------------- format and parse

  /** `n` zero-padded to `width`, wider when it does not fit. */
  function Padded(base: Base, width: nat, n: nat): string
    decreases if n > width then n - width else 0
  {
    PowerExceeds(base, width);
    if n < Power(base, width) then Digits(base, width, n) else Padded(base, width + 1, n)
  }

  /** The sign counts towards the thirteen columns. */
  function MillisText(millis: int): string {
    if millis < 0 then "-" + Padded(10, 12, -millis) else Padded(10, 13, millis)
  }

  function Format(h: Stamp): string {
    MillisText(h.millis) + "-" + Padded(16, 4, h.counter) + "-" + h.device
  }

  function ParseUint(base: Base, s: string): (r: Option<int>)
    ensures r.Some? ==> r.value >= 0
  {
    if s == "" || !AllDigits(base, s) then None else Some(Num(base, s))
  }

  /** An optional sign, then decimal digits. */
  function ParseInt(s: string): Option<int> {
    if s != "" && (s[0] == '+' || s[0] == '-') then
      var u := ParseUint(10, s[1..]);
      if u.Some? && s[0] == '-' then Some(-u.value) else u
    else ParseUint(10, s)
  }

  predicate IsLowerHex(s: string) {
    s != "" && AllWritten(16, s)
  }

  function Parse(s: string): Option<Stamp> {
    if |s| != CLOCK_LENGTH || s[13] != '-' || s[18] != '-' then None
    else
      var millis := ParseInt(s[..13]);
      var counter := ParseUint(16, s[14..18]);
      if millis.None? || counter.None? || !IsLowerHex(s[19..]) then None
      else Some(Stamp(millis.value, counter.value, s[19..]))
  }

  /** A clock is valid when it is what the generator would write for its own parts. */
  predicate Valid(s: string) {
    var h := Parse(s);
    h.Some? && Format(h.value) == s
  }

  /** The stamps a 27-character clock can carry. */
  predicate InRange(h: Stamp) {
    && -SIGNED_LIMIT < h.millis < MILLIS_LIMIT
    && h.counter <= COUNTER_LIMIT
    && |h.device| == DEVICE_LENGTH && AllWritten(16, h.device)
  }

  lemma Powers()
    ensures Power(10, 13) == MILLIS_LIMIT
    ensures Power(10, 12) == SIGNED_LIMIT
    ensures Power(16, 4) == COUNTER_LIMIT + 1
    ensures Power(16, 8) == 0x1_0000_0000
  {
  }

  /** The three texts of an in-range stamp, each in its own fixed columns. */
  lemma Columns(h: Stamp)
    requires InRange(h)
    ensures |MillisText(h.millis)| == 13
    ensures h.millis >= 0 ==> MillisText(h.millis) == Digits(10, 13, h.millis)
    ensures h.millis < 0 ==> MillisText(h.millis) == "-" + Digits(10, 12, -h.millis)
    ensures Padded(16, 4, h.counter) == Digits(16, 4, h.counter)
    ensures |Format(h)| == CLOCK_LENGTH
  {
    Powers();
  }

  lemma MillisRoundTrip(millis: int)
    requires -SIGNED_LIMIT < millis < MILLIS_LIMIT
    ensures ParseInt(MillisText(millis)) == Some(millis)
  {
    Powers();
    if millis < 0 {
      NumOfDigits(10, 12, -millis);
      assert MillisText(millis)[1..] == Digits(10, 12, -millis);
    } else {
      NumOfDigits(10, 13, millis);
      assert IsWritten(10, MillisText(millis)[0]);
    }
  }

  /** Parsing undoes formatting, for every stamp the format has room for. */
  lemma ParseFormat(h: Stamp)
    requires InRange(h)
    ensures Parse(Format(h)) == Some(h)
  {
    Columns(h);
    Powers();
    MillisRoundTrip(h.millis);
    NumOfDigits(16, 4, h.counter);
    var s, m, c := Format(h), MillisText(h.millis), Digits(16, 4, h.counter);
    assert s == m + "-" + c + "-" + h.device;
    assert s[..13] == m && s[13] == '-' && s[14..18] == c && s[18] == '-' && s[19..] == h.device;
  }

  lemma ParsedMillisInRange(s: string)
    requires |s| == 13 && ParseInt(s).Some?
    ensures -SIGNED_LIMIT < ParseInt(s).value < MILLIS_LIMIT
    ensures AtMost(s, MillisText(ParseInt(s).value))
  {
    Powers();
    if s[0] == '+' || s[0] == '-' {
      DigitsOfNum(10, s[1..]);
      var v := ParseInt(s).value;
      if v < 0 {
        SpellingAtMost(10, s[1..]);
        Parts("-", "-", s[1..], Digits(10, 12, -v));
        assert s == "-" + s[1..];
      } else {
        NumOfDigits(10, 13, v);
        assert IsWritten(10, MillisText(v)[0]);
      }
    } else {
      DigitsOfNum(10, s);
      SpellingAtMost(10, s);
    }
  }

  lemma Fields(s: string)
    requires |s| == CLOCK_LENGTH && s[13] == '-' && s[18] == '-'
    ensures s == s[..13] + "-" + s[14..18] + "-" + s[19..]
  {
    assert s[13..14] == "-" && s[18..19] == "-";
    assert s == s[..13] + s[13..14] + s[14..18] + s[18..19] + s[19..];
  }

  /** Clocks compare field by field, left to right. */
  lemma FieldOrder(m: string, c: string, d: string, m': string, c': string, d': string)
    requires |m| == |m'| && |c| == |c'|
    ensures Before(m + "-" + c + "-" + d, m' + "-" + c' + "-" + d') <==>
      Before(m, m') || (m == m' && (Before(c, c') || (c == c' && Before(d, d'))))
  {
    var t, t' := "-" + d, "-" + d';
    var r, r' := "-" + (c + t), "-" + (c' + t');
    assert m + "-" + c + "-" + d == m + r && m' + "-" + c' + "-" + d' == m' + r';
    Parts("-", "-", d, d');
    Parts(c, c', t, t');
    Parts("-", "-", c + t, c' + t');
    Parts(m, m', r, r');
    Irreflexive("-");
  }

  /** Whatever the parser accepts fits the format, and sorts no later than its written form. */
  lemma ParsedInRange(s: string)
    requires Parse(s).Some?
    ensures InRange(Parse(s).value)
    ensures AtMost(s, Format(Parse(s).value))
  {
    var h := Parse(s).value;
    Powers();
    ParsedMillisInRange(s[..13]);
    DigitsOfNum(16, s[14..18]);
    SpellingAtMost(16, s[14..18]);
    Columns(h);
    Fields(s);
    FieldOrder(s[..13], s[14..18], s[19..], MillisText(h.millis), Digits(16, 4, h.counter), h.device);
  }

  /** The validity test accepts exactly what the generator can write. */
  lemma ValidExactly(s: string)
    ensures Valid(s) <==> exists h :: InRange(h) && Format(h) == s
  {
    if Valid(s) {
      ParsedInRange(s);
    }
    if h :| InRange(h) && Format(h) == s {
      ParseFormat(h);
    }
  }

  // ------------------------------------------------------------------- rank

  /** Negative millis sort below all others, and backwards among themselves. */
  function MillisRank(millis: int): int {
    if millis < 0 then -millis else millis + SIGNED_LIMIT
  }

  /** A clock's place in the order of its text: the number the store compares. */
  function Rank(h: Stamp): nat {
    (MillisRank(h.millis) * 0x1_0000 + h.counter) * 0x1_0000_0000 + Num(16, h.device)
  }

  lemma NegativeOrder(a: nat, b: nat)
    requires 0 < a < SIGNED_LIMIT && 0 < b < SIGNED_LIMIT
    ensures Before("-" + Digits(10, 12, a), "-" + Digits(10, 12, b)) <==> a < b
    ensures "-" + Digits(10, 12, a) == "-" + Digits(10, 12, b) <==> a == b
  {
    Powers();
    NumOfDigits(10, 12, a);
    NumOfDigits(10, 12, b);
    NumOrder(10, Digits(10, 12, a), Digits(10, 12, b));
    Parts("-", "-", Digits(10, 12, a), Digits(10, 12, b));
    Irreflexive("-");
    assert ("-" + Digits(10, 12, a))[1..] == Digits(10, 12, a) && ("-" + Digits(10, 12, b))[1..] == Digits(10, 12, b);
  }

  lemma PositiveOrder(a: nat, b: nat)
    requires a < MILLIS_LIMIT && b < MILLIS_LIMIT
    ensures Before(Digits(10, 13, a), Digits(10, 13, b)) <==> a < b
    ensures Digits(10, 13, a) == Digits(10, 13, b) <==> a == b
  {
    Powers();
    NumOfDigits(10, 13, a);
    NumOfDigits(10, 13, b);
    NumOrder(10, Digits(10, 13, a), Digits(10, 13, b));
  }

  /** The minus sign sorts below every digit. */
  lemma MixedOrder(a: nat, b: nat)
    requires 0 < a < SIGNED_LIMIT && b < MILLIS_LIMIT
    ensures Before("-" + Digits(10, 12, a), Digits(10, 13, b)) && !Before(Digits(10, 13, b), "-" + Digits(10, 12, a))
    ensures "-" + Digits(10, 12, a) != Digits(10, 13, b)
  {
    Powers();
    NumOfDigits(10, 13, b);
    assert IsWritten(10, Digits(10, 13, b)[0]);
  }

  lemma MillisColumns(millis: int)
    requires -SIGNED_LIMIT < millis < MILLIS_LIMIT
    ensures MillisText(millis) == if millis < 0 then "-" + Digits(10, 12, -millis) else Digits(10, 13, millis)
  {
    Powers();
  }

  lemma MillisOrder(a: int, b: int)
    requires -SIGNED_LIMIT < a < MILLIS_LIMIT && -SIGNED_LIMIT < b < MILLIS_LIMIT
    ensures |MillisText(a)| == |MillisText(b)| == 13
    ensures Before(MillisText(a), MillisText(b)) <==> MillisRank(a) < MillisRank(b)
    ensures MillisText(a) == MillisText(b) <==> a == b
  {
    hide MillisText, Digits, Before;
    MillisColumns(a);
    MillisColumns(b);
    if a < 0 && b < 0 { NegativeOrder(-a, -b); }
    else if a >= 0 && b >= 0 { PositiveOrder(a, b); }
    else if a < 0 { MixedOrder(-a, b); }
    else { MixedOrder(-b, a); }
  }

  lemma RankByParts(a: Stamp, b: Stamp)
    requires InRange(a) && InRange(b)
    ensures Rank(a) < Rank(b) <==>
      MillisRank(a.millis) < MillisRank(b.millis) ||
      (MillisRank(a.millis) == MillisRank(b.millis) && (a.counter < b.counter ||
        (a.counter == b.counter && Num(16, a.device) < Num(16, b.device))))
  {
    Powers();
    DigitsOfNum(16, a.device);
    DigitsOfNum(16, b.device);
  }

  /** Text order is (millis, counter, device) order, read off one number. */
  lemma RankOrdersText(a: Stamp, b: Stamp)
    requires InRange(a) && InRange(b)
    ensures Before(Format(a), Format(b)) <==> Rank(a) < Rank(b)
  {
    Columns(a);
    Columns(b);
    Powers();
    RankByParts(a, b);
    MillisOrder(a.millis, b.millis);
    NumOfDigits(16, 4, a.counter);
    NumOfDigits(16, 4, b.counter);
    NumOrder(16, Digits(16, 4, a.counter), Digits(16, 4, b.counter));
    NumOrder(16, a.device, b.device);
    FieldOrder(MillisText(a.millis), Digits(16, 4, a.counter), a.device,
      MillisText(b.millis), Digits(16, 4, b.counter), b.device);
  }

  /** For millis in [0, 10^13) the order of the text is the order of the parts. */
  lemma TextOrderIsPartOrder(a: Stamp, b: Stamp)
    requires InRange(a) && InRange(b) && a.millis >= 0 && b.millis >= 0
    ensures Before(Format(a), Format(b)) <==>
      a.millis < b.millis ||
      (a.millis == b.millis && (a.counter < b.counter ||
        (a.counter == b.counter && Before(a.device, b.device))))
  {
    RankOrdersText(a, b);
    RankByParts(a, b);
    NumOrder(16, a.device, b.device);
  }

  // -------------------------------------------------------------- generator

  /** What a generator remembers. */
  datatype Gen = Gen(lastMillis: int, counter: nat, device: string) {

    predicate WellFormed() {
      lastMillis >= 0 && counter <= COUNTER_LIMIT && |device| == DEVICE_LENGTH && AllWritten(16, device)
    }

    /** The clock this state was left at. */
    function Reading(): Stamp {
      Stamp(lastMillis, counter, device)
    }

    /** The state a minted clock is read from, at wall time `now`. */
    function Ticked(now: int): Gen {
      if now > lastMillis then Gen(now, 0, device)
      else if counter + 1 > COUNTER_LIMIT then Gen(lastMillis + 1, 0, device)
      else Gen(lastMillis, counter + 1, device)
    }

    /** The state after a remote clock was folded in. */
    function Seen(h: Stamp): Gen {
      if h.millis > lastMillis then Gen(h.millis, h.counter, device)
      else if h.millis == lastMillis && h.counter > counter then Gen(lastMillis, h.counter, device)
      else this
    }

    /** `h` is no later than this state, device aside. */
    predicate Covers(h: Stamp) {
      h.millis < lastMillis || (h.millis == lastMillis && h.counter <= counter)
    }
  }

  /** One installation's generator, its lock held for the length of a call. */
  class Generator {
    const device: string
    var lastMillis: int
    var counter: nat

    function State(): Gen
      reads this
    {
      Gen(lastMillis, counter, device)
    }

    constructor (device: string)
      requires |device| == DEVICE_LENGTH && IsLowerHex(device)
      ensures State() == Gen(0, 0, device) && State().WellFormed()
    {
      this.device := device;
      lastMillis, counter := 0, 0;
    }

    /** Mints a clock above everything minted or observed so far. */
    method Next(now: int) returns (h: string)
      modifies this
      ensures State() == old(State()).Ticked(now)
      ensures h == Format(State().Reading())
    {
      if now <= lastMillis {
        counter := counter + 1;
        if counter > COUNTER_LIMIT {
          lastMillis := lastMillis + 1;
          counter := 0;
        }
      } else {
        lastMillis := now;
        counter := 0;
      }
      h := Format(Stamp(lastMillis, counter, device));
    }

    /** Folds in a clock met in a pull or a push; a malformed one changes nothing. */
    method Observe(remote: string) returns (ok: bool)
      modifies this
      ensures ok == Parse(remote).Some?
      ensures State() == if ok then old(State()).Seen(Parse(remote).value) else old(State())
    {
      var h := Parse(remote);
      if h.None? { return false; }
      if h.value.millis > lastMillis {
        lastMillis, counter := h.value.millis, h.value.counter;
      } else if h.value.millis == lastMillis && h.value.counter > counter {
        counter := h.value.counter;
      }
      return true;
    }
  }

  // ------------------------------------------------------- runs of one generator

  datatype Call = Tick(now: int) | See(remote: string)

  function Play(g: Gen, c: Call): Gen {
    match c
    case Tick(now) => g.Ticked(now)
    case See(remote) => if Parse(remote).Some? then g.Seen(Parse(remote).value) else g
  }

  function After(g: Gen, calls: seq<Call>): Gen {
    if calls == [] then g else Play(After(g, calls[..|calls| - 1]), calls[|calls| - 1])
  }

  /** The clock call `i` dealt with: the one it minted, or the one it was shown. */
  function ClockAt(g: Gen, calls: seq<Call>, i: nat): string
    requires i < |calls|
  {
    if calls[i].Tick? then Format(After(g, calls[..i + 1]).Reading()) else calls[i].remote
  }

  lemma PlayKeeps(g: Gen, c: Call)
    requires g.WellFormed()
    ensures Play(g, c).WellFormed()
    ensures Play(g, c).lastMillis >= g.lastMillis
    ensures forall h: Stamp :: g.Covers(h) ==> Play(g, c).Covers(h)
    ensures c.Tick? ==> forall h: Stamp :: g.Covers(h) ==>
      h.millis < Play(g, c).lastMillis || (h.millis == Play(g, c).lastMillis && h.counter < Play(g, c).counter)
  {
    if c.See? && Parse(c.remote).Some? { ParsedInRange(c.remote); }
  }

  lemma {:induction false} AfterWellFormed(g: Gen, calls: seq<Call>)
    requires g.WellFormed()
    ensures After(g, calls).WellFormed()
  {
    if calls != [] {
      AfterWellFormed(g, calls[..|calls| - 1]);
      PlayKeeps(After(g, calls[..|calls| - 1]), calls[|calls| - 1]);
    }
  }

  /** The stamp call `j` dealt with stays covered by every later state. */
  lemma {:induction false} StaysCovered(g: Gen, calls: seq<Call>, j: nat, h: Stamp)
    requires g.WellFormed() && j < |calls|
    requires if calls[j].Tick? then h == After(g, calls[..j + 1]).Reading() else Parse(calls[j].remote) == Some(h)
    ensures After(g, calls).Covers(h)
    ensures calls[j].Tick? ==> h.millis <= After(g, calls).lastMillis
  {
    var n := |calls| - 1;
    AfterWellFormed(g, calls[..n]);
    PlayKeeps(After(g, calls[..n]), calls[n]);
    if j < n {
      assert calls[..n][..j + 1] == calls[..j + 1];
      StaysCovered(g, calls[..n], j, h);
    } else {
      assert calls[..j + 1] == calls;
    }
  }

  /** Whatever the wall clock does, a minted clock is above all minted or observed before it. */
  lemma NextIsAboveAll(g: Gen, calls: seq<Call>, i: nat, j: nat)
    requires g.WellFormed() && j < i < |calls| && calls[i].Tick?
    requires calls[j].See? ==> Parse(calls[j].remote).Some?
    requires After(g, calls[..i + 1]).lastMillis < MILLIS_LIMIT
    ensures Before(ClockAt(g, calls, j), ClockAt(g, calls, i))
  {
    var before := calls[..i];
    assert calls[..i + 1][..i] == before && before[..j + 1] == calls[..j + 1];
    AfterWellFormed(g, before);
    AfterWellFormed(g, calls[..j + 1]);
    PlayKeeps(After(g, before), calls[i]);
    var minted := After(g, calls[..i + 1]).Reading();
    var earlier := if calls[j].Tick? then After(g, calls[..j + 1]).Reading() else Parse(calls[j].remote).value;
    StaysCovered(g, before, j, earlier);
    if calls[j].See? { ParsedInRange(calls[j].remote); }
    RankByParts(earlier, minted);
    RankOrdersText(earlier, minted);
    if calls[j].See? && calls[j].remote != Format(earlier) {
      Transitive(calls[j].remote, Format(earlier), Format(minted));
    }
  }

  /** A clock this generator may mint: no earlier than the wall clock, and above everything it has seen. */
  predicate Mintable(g: Gen, now: int, h: Stamp) {
    h.millis >= now && h.counter <= COUNTER_LIMIT && !g.Covers(h)
  }

  predicate NoLater(a: Stamp, b: Stamp) {
    a.millis < b.millis || (a.millis == b.millis && a.counter <= b.counter)
  }

  /** A minted clock is the least of those: it reads the wall clock whenever that is ahead of everything seen. */
  lemma MintedIsLeast(g: Gen, now: int)
    requires g.WellFormed()
    ensures Mintable(g, now, g.Ticked(now).Reading()) && g.Ticked(now).device == g.device
    ensures forall h: Stamp | Mintable(g, now, h) :: NoLater(g.Ticked(now).Reading(), h)
    ensures now > g.lastMillis ==> g.Ticked(now).lastMillis == now
  {
  }

  /** Observing a clock takes the generator to the least state that covers it and all covered before. */
  lemma ObservedIsLeast(g: Gen, h: Stamp)
    ensures g.Seen(h).Covers(h) && g.Seen(h).Covers(g.Reading()) && g.Seen(h).device == g.device
    ensures forall s: Gen | s.Covers(h) && s.Covers(g.Reading()) :: s.Covers(g.Seen(h).Reading())
  {
  }

  // --------------------------------------------------------- clocks as numbers

  /** The ranks valid clocks have. Zero is not one: it stands for the empty clock. */
  predicate IsRank(rank: nat) {
    1 <= rank / 0x1_0000_0000 / 0x1_0000 < SIGNED_LIMIT + MILLIS_LIMIT
  }

  /** The stamp a rank stands for. */
  function Unranked(rank: nat): Stamp {
    var rest := rank / 0x1_0000_0000;
    var millis := rest / 0x1_0000;
    Stamp(if millis < SIGNED_LIMIT then -millis else millis - SIGNED_LIMIT,
          rest % 0x1_0000, Digits(16, 8, rank % 0x1_0000_0000))
  }

  lemma UnrankRank(rank: nat)
    requires IsRank(rank)
    ensures InRange(Unranked(rank)) && Rank(Unranked(rank)) == rank
  {
    Powers();
    NumOfDigits(16, 8, rank % 0x1_0000_0000);
  }

  /** Ranks name valid clocks one to one. */
  lemma RankUnrank(h: Stamp)
    requires InRange(h)
    ensures Rank(h) > 0 && IsRank(Rank(h)) && Unranked(Rank(h)) == h
  {
    Powers();
    DigitsOfNum(16, h.device);
    var rest := MillisRank(h.millis) * 0x1_0000 + h.counter;
    Halves(rest, Num(16, h.device));
    assert rest / 0x1_0000 == MillisRank(h.millis) && rest % 0x1_0000 == h.counter;
  }

  lemma Halves(high: nat, low: nat)
    requires low < 0x1_0000_0000
    ensures (high * 0x1_0000_0000 + low) / 0x1_0000_0000 == high
    ensures (high * 0x1_0000_0000 + low) % 0x1_0000_0000 == low
  {
  }

  /** A clock minted after observing a valid one sorts above it. */
  lemma MintedAbove(g: Gen, h: Stamp, now: int)
    requires g.WellFormed() && InRange(h)
    requires g.Seen(h).Ticked(now).lastMillis < MILLIS_LIMIT
    ensures g.Seen(h).WellFormed() && g.Seen(h).Ticked(now).WellFormed()
    ensures Rank(h) < Rank(g.Seen(h).Ticked(now).Reading())
  {
    RankByParts(h, g.Seen(h).Ticked(now).Reading());
  }
}
