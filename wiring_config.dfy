// The wiring configuration of the V1-V4 kits: the switch and encoder pin
// lists read from comma-separated environment values, and which switches
// and encoders the board then sets up.
//
// The environment itself is outside the model: a variable's value is an
// `Option<string>`, `None` when it is unset.
module WiringConfig {
  import opened CTypes
  import opened GpiodCallback

  const NUM_ZYNSWITCHES: nat := 16
  const NUM_ZYNPOTS: nat := 4

  /** Pins from here on are expander pins and are stored as given. */
  const EXPANDER_PIN_BASE: int := 100

  /** The size of the copy the value is tokenised in, terminator included. */
  const ENVAR_COPY_SIZE: nat := 128

  // ---------------------------------------------------------------------
  // Tokens: strtok_r with "," as the only delimiter
  // ---------------------------------------------------------------------

  /** The position of the first comma, or the length when there is none. */
  function FirstComma(s: string): (k: nat)
    ensures k <= |s|
    ensures forall j :: 0 <= j < k ==> s[j] != ','
    ensures k < |s| ==> s[k] == ','
  {
    if s == [] || s[0] == ',' then 0 else 1 + FirstComma(s[1..])
  }

  /** The tokens strtok_r returns one by one: the maximal comma-free runs, empty ones skipped. */
  function Tokens(s: string): (ts: seq<string>)
    decreases |s|
  {
    if s == [] then []
    else if s[0] == ',' then Tokens(s[1..])
    else
      var k := FirstComma(s);
      [s[..k]] + (if k == |s| then [] else Tokens(s[k + 1..]))
  }

  /** No token is empty and none holds a comma. */
  lemma {:induction false} TokensAreCommaFree(s: string)
    ensures forall t :: t in Tokens(s) ==> |t| > 0 && ',' !in t
    decreases |s|
  {
    if s != [] {
      if s[0] == ',' {
        TokensAreCommaFree(s[1..]);
      } else {
        var k := FirstComma(s);
        assert forall c :: c in s[..k] ==> c != ',';
        if k < |s| {
          TokensAreCommaFree(s[k + 1..]);
        }
      }
    }
  }

  /** The tokens put back together with a comma between each two. */
  function Join(ts: seq<string>): string {
    if |ts| == 0 then "" else if |ts| == 1 then ts[0] else ts[0] + "," + Join(ts[1..])
  }

  /** Tokenising a list joined with commas gives back the list, when no token is empty or holds a comma. */
  lemma {:induction false} TokensOfJoin(ts: seq<string>)
    requires forall t :: t in ts ==> |t| > 0 && ',' !in t
    ensures Tokens(Join(ts)) == ts
  {
    if |ts| == 1 {
      assert ts[0] in ts;
      TokensOfToken(ts[0]);
    } else if |ts| > 1 {
      var rest := Join(ts[1..]);
      assert ts[0] in ts;
      ConcatAssoc(ts[0], ",", rest);
      TokensCons(ts[0], rest);
      assert forall t :: t in ts[1..] ==> t in ts;
      TokensOfJoin(ts[1..]);
      assert [ts[0]] + ts[1..] == ts;
    }
  }

  /** A single comma-free token is its own tokenisation. */
  lemma TokensOfToken(t: string)
    requires |t| > 0 && ',' !in t
    ensures Tokens(t) == [t]
  {
    FirstCommaOfCommaFree(t, "");
    assert t + "" == t;
  }

  /** A comma-free token and a comma in front of a string add that token in front of its tokens. */
  lemma TokensCons(t: string, rest: string)
    requires |t| > 0 && ',' !in t
    ensures Tokens(t + ("," + rest)) == [t] + Tokens(rest)
  {
    var s := t + ("," + rest);
    var k := |t|;
    FirstCommaOfCommaFree(t, "," + rest);
    assert s[0] == t[0] != ',';
    assert s[..k] == t;
    assert s[k + 1..] == rest;
  }

  /** The first comma after a comma-free prefix is the one the rest starts with. */
  lemma {:induction false} FirstCommaOfCommaFree(t: string, rest: string)
    requires ',' !in t
    requires rest == [] || rest[0] == ','
    ensures FirstComma(t + rest) == |t|
  {
    if t != [] {
      assert (t + rest)[1..] == t[1..] + rest;
      FirstCommaOfCommaFree(t[1..], rest);
    } else {
      assert t + rest == rest;
    }
  }

  // ---------------------------------------------------------------------
  // atoi
  // ---------------------------------------------------------------------

  predicate IsDigit(c: char) {
    '0' as int <= c as int <= '9' as int
  }

  /** The characters isspace accepts in the C locale. */
  predicate IsSpace(c: char) {
    c == ' ' || c == '\t' || c == '\n' || c == '\r' || c == '\U{B}' || c == '\U{C}'
  }

  /** The leading white space atoi skips. */
  function SpaceRun(s: string): (k: nat)
    ensures k <= |s|
  {
    if s != [] && IsSpace(s[0]) then 1 + SpaceRun(s[1..]) else 0
  }

  /** The leading digits. */
  function DigitRun(s: string): (d: string)
    ensures forall c :: c in d ==> IsDigit(c)
  {
    if s != [] && IsDigit(s[0]) then [s[0]] + DigitRun(s[1..]) else []
  }

  /** The value of a string of decimal digits, most significant first. */
  function DigitsValue(d: string): (v: nat)
    requires forall c :: c in d ==> IsDigit(c)
  {
    if d == [] then 0
    else
      assert d[|d| - 1] in d && forall c :: c in d[..|d| - 1] ==> c in d;
      assert IsDigit(d[|d| - 1]);
      DigitsValue(d[..|d| - 1]) * 10 + (d[|d| - 1] as int - '0' as int)
  }

  /**
   * atoi: white space, an optional sign, then as many digits as follow.
   * The value is the mathematical one; the source stores it in an
   * `int16_t`, which the caller models.
   */
  function Atoi(s: string): int {
    var t := s[SpaceRun(s)..];
    if t != [] && t[0] == '-' then -(DigitsValue(DigitRun(t[1..])) as int)
    else if t != [] && t[0] == '+' then DigitsValue(DigitRun(t[1..]))
    else DigitsValue(DigitRun(t))
  }

  function DigitChar(n: nat): char
    requires n < 10
  {
    ('0' as int + n) as char
  }

  /** The decimal numeral of n, without leading zeros. */
  function Numeral(n: nat): (s: string)
    ensures |s| > 0 && forall c :: c in s ==> IsDigit(c)
  {
    if n < 10 then [DigitChar(n)] else Numeral(n / 10) + [DigitChar(n % 10)]
  }

  /** The decimal numeral of an integer, with a minus sign when negative. */
  function SignedNumeral(n: int): (s: string)
    ensures |s| > 0 && ',' !in s
  {
    if n < 0 then "-" + Numeral(-n) else Numeral(n)
  }

  lemma {:induction false} DigitsValueOfNumeral(n: nat)
    ensures DigitsValue(Numeral(n)) == n
  {
    if n >= 10 {
      var s := Numeral(n);
      assert s[..|s| - 1] == Numeral(n / 10);
      DigitsValueOfNumeral(n / 10);
    }
  }

  /** A run of digits is its own digit run. */
  lemma {:induction false} DigitRunOfDigits(d: string)
    requires forall c :: c in d ==> IsDigit(c)
    ensures DigitRun(d) == d
  {
    if d != [] {
      assert forall c :: c in d[1..] ==> c in d;
      DigitRunOfDigits(d[1..]);
      assert [d[0]] + d[1..] == d;
    }
  }

  /** atoi reads back every numeral. */
  lemma AtoiOfNumeral(n: int)
    ensures Atoi(SignedNumeral(n)) == n
  {
    var s := SignedNumeral(n);
    var m := if n < 0 then -n else n;
    DigitsValueOfNumeral(m);
    DigitRunOfDigits(Numeral(m));
    assert !IsSpace(s[0]);
    if n < 0 {
      assert s[1..] == Numeral(m);
    }
  }

  // ---------------------------------------------------------------------
  // parse_envar2intarr
  // ---------------------------------------------------------------------

  /**
   * The remapping as written, `wpi2gpio[res]` for every `res < 100`,
   * reads outside the 32-entry table for a negative value and for 32..99.
   */
  predicate RemapIndexInTableAsWritten(res: int16) {
    res < EXPANDER_PIN_BASE ==> 0 <= res < |Wpi2Gpio|
  }

  /** Values a configuration can hold make the written remapping read outside the table. */
  lemma RemapAsWrittenLeavesTable()
    ensures !RemapIndexInTableAsWritten(-1) && !RemapIndexInTableAsWritten(32) && !RemapIndexInTableAsWritten(99)
  {
  }

  /**
   * The pin stored for a parsed value: an expander pin as given, a
   * wiringPi pin as its GPIO number, and -1, no pin, for any other value
   * (the remapping as written indexes outside its table there).
   */
  function StoredPin(res: int16): (p: int16)
    ensures res >= EXPANDER_PIN_BASE ==> p == res
    ensures 0 <= res < |Wpi2Gpio| ==> p == Wpi2Gpio[res]
    ensures p >= 0 ==> p >= EXPANDER_PIN_BASE || p < |Gpio2Wpi|
  {
    if res >= EXPANDER_PIN_BASE then res
    else if 0 <= res < |Wpi2Gpio| then Wpi2Gpio[res]
    else -1
  }

  /** The entry stored for one token. */
  function TokenPin(t: string): int16 {
    StoredPin(ToInt16(Atoi(t)))
  }

  /** A configured list of numbers, written out and parsed, gives each number's pin in order. */
  lemma {:induction false} ParsesWrittenList(vals: seq<int16>)
    ensures var ts := Tokens(Join(seq(|vals|, k requires 0 <= k < |vals| => SignedNumeral(vals[k]))));
      |ts| == |vals| && forall k :: 0 <= k < |vals| ==> TokenPin(ts[k]) == StoredPin(vals[k])
  {
    var ns := seq(|vals|, k requires 0 <= k < |vals| => SignedNumeral(vals[k]));
    assert forall t :: t in ns ==> |t| > 0 && ',' !in t;
    TokensOfJoin(ns);
    forall k | 0 <= k < |vals| ensures TokenPin(ns[k]) == StoredPin(vals[k]) {
      AtoiOfNumeral(vals[k]);
      NarrowingKeepsInt16(vals[k]);
    }
  }

  lemma NarrowingKeepsInt16(x: int16)
    ensures ToInt16(x) == x
  {
  }

  /** The pin lists of the board (`zynswitch_pins`, `zyncoder_pins_a`, `zyncoder_pins_b`). */
  class Wiring {
    var switchPins: array<int16>
    var encoderPinsA: array<int16>
    var encoderPinsB: array<int16>

    ghost predicate Valid()
      reads this
    {
      && switchPins.Length == NUM_ZYNSWITCHES && encoderPinsA.Length == NUM_ZYNPOTS && encoderPinsB.Length == NUM_ZYNPOTS
      && switchPins != encoderPinsA && switchPins != encoderPinsB && encoderPinsA != encoderPinsB
    }

    constructor ()
      ensures Valid() && fresh(switchPins) && fresh(encoderPinsA) && fresh(encoderPinsB)
    {
      switchPins := new int16[NUM_ZYNSWITCHES](_ => 0);
      encoderPinsA := new int16[NUM_ZYNPOTS](_ => 0);
      encoderPinsB := new int16[NUM_ZYNPOTS](_ => 0);
    }

    /** reset_wiring_config: no switch and no encoder has a pin. */
    method Reset()
      requires Valid()
      modifies switchPins, encoderPinsA, encoderPinsB
      ensures Valid()
      ensures forall i :: 0 <= i < NUM_ZYNSWITCHES ==> switchPins[i] == -1
      ensures forall i :: 0 <= i < NUM_ZYNPOTS ==> encoderPinsA[i] == -1 && encoderPinsB[i] == -1
    {
      for i := 0 to NUM_ZYNSWITCHES
        invariant forall k :: 0 <= k < i ==> switchPins[k] == -1
      {
        switchPins[i] := -1;
      }
      for i := 0 to NUM_ZYNPOTS
        invariant forall k :: 0 <= k < NUM_ZYNSWITCHES ==> switchPins[k] == -1
        invariant forall k :: 0 <= k < i ==> encoderPinsA[k] == -1 && encoderPinsB[k] == -1
      {
        encoderPinsA[i] := -1;
        encoderPinsB[i] := -1;
      }
    }

    /**
     * The switches init_zynswitches sets up, in order, each with its pin
     * (and off state 1): those whose pin is not negative.
     */
    method InitSwitchCalls() returns (calls: seq<(nat, int16)>)
      requires Valid()
      ensures calls == SwitchCalls(switchPins[..], NUM_ZYNSWITCHES)
    {
      calls := [];
      for i := 0 to NUM_ZYNSWITCHES
        invariant calls == SwitchCalls(switchPins[..], i)
      {
        if switchPins[i] >= 0 {
          calls := calls + [(i, switchPins[i])];
        }
      }
    }

    /**
     * The encoders init_zynpots sets up, in order, each with its two pins
     * (each then also becoming the pot of the same index): those whose
     * pins are both not negative.
     */
    method InitPotCalls() returns (calls: seq<(nat, int16, int16)>)
      requires Valid()
      ensures calls == EncoderCalls(encoderPinsA[..], encoderPinsB[..], NUM_ZYNPOTS)
    {
      calls := [];
      for i := 0 to NUM_ZYNPOTS
        invariant calls == EncoderCalls(encoderPinsA[..], encoderPinsB[..], i)
      {
        if encoderPinsA[i] >= 0 && encoderPinsB[i] >= 0 {
          calls := calls + [(i, encoderPinsA[i], encoderPinsB[i])];
        }
      }
    }
  }

  /**
   * What parse_envar2intarr leaves in `result`: the first `limit` tokens,
   * in order, each stored as its pin, and every other entry as it was.
   */
  function Parsed(result: seq<int16>, value: Option<string>, limit: int): (r: seq<int16>)
    ensures |r| == |result|
  {
    if value.None? then result
    else
      var ts := Tokens(value.value);
      seq(|result|, j requires 0 <= j < |result| => if j < limit && j < |ts| then TokenPin(ts[j]) else result[j])
  }

  /**
   * An unset variable changes nothing; otherwise entry j holds the pin of
   * token j when j is below both the limit and the number of tokens, and
   * is kept when it is not.
   */
  lemma ParsedEntries(result: seq<int16>, value: Option<string>, limit: int, j: nat)
    requires j < |result|
    ensures value.None? ==> Parsed(result, value, limit) == result
    ensures value.Some? && j < limit && j < |Tokens(value.value)| ==>
      Parsed(result, value, limit)[j] == TokenPin(Tokens(value.value)[j])
    ensures value.Some? && !(j < limit && j < |Tokens(value.value)|) ==> Parsed(result, value, limit)[j] == result[j]
  {
  }

  /** Parsing a written-out list of pins, into a list at least as long, stores the first `limit` of them. */
  lemma ParsedWrittenList(result: seq<int16>, vals: seq<int16>, limit: int, j: nat)
    requires j < |result|
    ensures var value := Some(Join(seq(|vals|, k requires 0 <= k < |vals| => SignedNumeral(vals[k]))));
      Parsed(result, value, limit)[j] == if j < limit && j < |vals| then StoredPin(vals[j]) else result[j]
  {
    ParsesWrittenList(vals);
  }

  /** One token's entry: `atoi`, then the wiringPi remapping below 100. */
  method TokenValue(t: string) returns (res: int16)
    ensures res == TokenPin(t)
  {
    res := ToInt16(Atoi(t));
    if res < EXPANDER_PIN_BASE {
      res := StoredPin(res);
    }
  }

  /**
   * parse_envar2intarr, on the value of the variable (`None` when it is
   * unset).  The value must fit the 128-byte copy it is tokenised in.
   */
  method ParseEnvar2IntArr(value: Option<string>, result: array<int16>, limit: int16)
    requires value.Some? ==> |value.value| < ENVAR_COPY_SIZE
    requires limit <= result.Length
    modifies result
    ensures result[..] == Parsed(old(result[..]), value, limit)
  {
    if value.None? {
      return;
    }
    var tokens := Tokens(value.value);
    ghost var target := Parsed(old(result[..]), value, limit);
    var i: int := 0;
    while i < |tokens| && i < limit
      invariant 0 <= i <= |tokens| && i <= result.Length
      invariant i <= limit || i == 0
      invariant result[..i] == target[..i]
      invariant result[i..] == old(result[i..])
    {
      var res := TokenValue(tokens[i]);
      assert res == target[i];
      ghost var before := result[..];
      result[i] := res;
      assert result[..] == before[i := res];
      StoreExtendsPrefix(before, old(result[..]), target, i, res);
      i := i + 1;
    }
    ParsedTail(old(result[..]), value, limit, i);
    PrefixAndRest(result[..], target, old(result[..])[i..], i);
  }

  /** Past the limit or the last token, the parsed list is the list as it was. */
  lemma ParsedTail(result: seq<int16>, value: Option<string>, limit: int, i: nat)
    requires value.Some? && i <= |result| && (i >= limit || i >= |Tokens(value.value)|)
    ensures Parsed(result, value, limit)[i..] == result[i..]
  {
    var p := Parsed(result, value, limit);
    forall j | i <= j < |result| ensures p[j] == result[j] {
    }
    assert p[i..] == result[i..];
  }

  /** The switch setup calls for the first n pins. */
  function SwitchCalls(pins: seq<int16>, n: nat): seq<(nat, int16)>
    requires n <= |pins|
  {
    if n == 0 then [] else SwitchCalls(pins, n - 1) + (if pins[n - 1] >= 0 then [(n - 1, pins[n - 1])] else [])
  }

  /** The encoder setup calls for the first n pin pairs. */
  function EncoderCalls(a: seq<int16>, b: seq<int16>, n: nat): seq<(nat, int16, int16)>
    requires n <= |a| && n <= |b|
  {
    if n == 0 then []
    else EncoderCalls(a, b, n - 1) + (if a[n - 1] >= 0 && b[n - 1] >= 0 then [(n - 1, a[n - 1], b[n - 1])] else [])
  }

  /** A switch is set up exactly when its pin is not negative, once, with that pin, in index order. */
  lemma {:induction false} SwitchCallsSelect(pins: seq<int16>, n: nat)
    requires n <= |pins|
    ensures var cs := SwitchCalls(pins, n);
      && (forall k, p :: (k, p) in cs <==> 0 <= k < n && pins[k] >= 0 && p == pins[k])
      && (forall x, y :: 0 <= x < y < |cs| ==> cs[x].0 < cs[y].0)
  {
    if n > 0 {
      SwitchCallsSelect(pins, n - 1);
      SwitchCallsBelow(pins, n - 1);
    }
  }

  lemma {:induction false} SwitchCallsBelow(pins: seq<int16>, n: nat)
    requires n <= |pins|
    ensures forall c :: c in SwitchCalls(pins, n) ==> c.0 < n
  {
    if n > 0 {
      SwitchCallsBelow(pins, n - 1);
    }
  }

  /** An encoder is set up exactly when both its pins are not negative, once, with those pins, in index order. */
  lemma {:induction false} EncoderCallsSelect(a: seq<int16>, b: seq<int16>, n: nat)
    requires n <= |a| && n <= |b|
    ensures EncoderCallsFor(EncoderCalls(a, b, n), a, b, n) && IndicesAscend(EncoderCalls(a, b, n))
  {
    if n > 0 {
      EncoderCallsSelect(a, b, n - 1);
      EncoderCallsBelow(a, b, n - 1);
      EncoderCallsStepMembers(a, b, n);
      EncoderCallsStepOrder(a, b, n);
    }
  }

  /** The calls are exactly one per pair below n whose two pins are not negative, with those pins. */
  ghost predicate EncoderCallsFor(cs: seq<(nat, int16, int16)>, a: seq<int16>, b: seq<int16>, n: nat)
    requires n <= |a| && n <= |b|
  {
    forall k, p, q :: (k, p, q) in cs <==> 0 <= k < n && a[k] >= 0 && b[k] >= 0 && p == a[k] && q == b[k]
  }

  /** The calls for n pin pairs are those for n - 1 and the call for pair n - 1 if it has both pins. */
  lemma EncoderCallsStepMembers(a: seq<int16>, b: seq<int16>, n: nat)
    requires 0 < n <= |a| && n <= |b|
    requires EncoderCallsFor(EncoderCalls(a, b, n - 1), a, b, n - 1)
    ensures EncoderCallsFor(EncoderCalls(a, b, n), a, b, n)
  {
    var prev := EncoderCalls(a, b, n - 1);
    var add: seq<(nat, int16, int16)> := if a[n - 1] >= 0 && b[n - 1] >= 0 then [(n - 1, a[n - 1], b[n - 1])] else [];
    assert EncoderCalls(a, b, n) == prev + add;
    forall k, p, q
      ensures (k, p, q) in prev + add <==> 0 <= k < n && a[k] >= 0 && b[k] >= 0 && p == a[k] && q == b[k]
    {
      assert (k, p, q) in prev + add <==> (k, p, q) in prev || (k, p, q) in add;
    }
  }

  /** The calls are made in increasing index order. */
  predicate IndicesAscend(cs: seq<(nat, int16, int16)>) {
    forall x, y :: 0 <= x < y < |cs| ==> cs[x].0 < cs[y].0
  }

  /** Appending the call for pair n - 1 after calls for lower pairs keeps them in index order. */
  lemma EncoderCallsStepOrder(a: seq<int16>, b: seq<int16>, n: nat)
    requires 0 < n <= |a| && n <= |b|
    requires forall c :: c in EncoderCalls(a, b, n - 1) ==> c.0 < n - 1
    requires IndicesAscend(EncoderCalls(a, b, n - 1))
    ensures IndicesAscend(EncoderCalls(a, b, n))
  {
    var prev := EncoderCalls(a, b, n - 1);
    var add: seq<(nat, int16, int16)> := if a[n - 1] >= 0 && b[n - 1] >= 0 then [(n - 1, a[n - 1], b[n - 1])] else [];
    var cs := EncoderCalls(a, b, n);
    assert cs == prev + add;
    forall x, y | 0 <= x < y < |cs|
      ensures cs[x].0 < cs[y].0
    {
      assert cs[x] == prev[x] && prev[x] in prev;
      if y < |prev| {
        assert cs[y] == prev[y] && prev[x].0 < prev[y].0;
      } else {
        assert cs[y] == (n - 1, a[n - 1], b[n - 1]) && prev[x].0 < n - 1;
      }
    }
  }

  lemma {:induction false} EncoderCallsBelow(a: seq<int16>, b: seq<int16>, n: nat)
    requires n <= |a| && n <= |b|
    ensures forall c :: c in EncoderCalls(a, b, n) ==> c.0 < n
  {
    if n > 0 {
      EncoderCallsBelow(a, b, n - 1);
    }
  }
}
