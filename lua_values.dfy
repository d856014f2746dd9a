/**
 * Values crossing the boundary between the engine and its embedded Lua
 * interpreter, the errors a host function raises, and the coercions the
 * Lua C API applies when a host function asks for a number or a string.
 *
 * Lua numbers are modelled as integers: every number the modelled host
 * functions exchange is either an integer field or a float treated as an
 * opaque value.
 */
module LuaValues {
  import opened Outcomes

  /** Key of a Lua table entry: a named field or a 1-based array slot. */
  datatype TableKey = KStr(field: string) | KInt(index: int)

  /** Metatable attached to a sprite handle (EPIAR_SHIP, EPIAR_PLANET, or none). */
  datatype HandleTag = ShipTag | PlanetTag | Untagged

  datatype LuaValue =
    | LNil
    | LBool(b: bool)
    | LNumber(n: int)
    | LString(s: string)
    | LTable(entries: map<TableKey, LuaValue>)
      /** Full userdata holding a sprite ID, with the metatable chosen for it. */
    | LSprite(id: int, tag: HandleTag)

  /** A script-level error raised by a host function with luaL_error or a luaL_check* call. */
  datatype ScriptError =
    | WrongArity(got: int, expected: int)
    | BadArgument(position: int)
    | NotATable
    | NoSuchName(name: string)
    | NoSuchId(id: int)
    | NotAPlanet(id: int)

  /**
   * Outcome of a host function called from a script: the values it pushes,
   * a script-level error, or undefined behaviour in the host (a null
   * pointer dereferenced), which only the as-written getters produce.
   */
  datatype HostResult = Returned(values: seq<LuaValue>) | Raised(error: ScriptError) | Crashed

  predicate IsDigit(c: char) {
    '0' <= c <= '9'
  }

  predicate AllDigits(s: string) {
    forall i | 0 <= i < |s| :: IsDigit(s[i])
  }

  function DigitChar(d: nat): (c: char)
    requires d < 10
    ensures IsDigit(c) && c as int - '0' as int == d
  {
    (d + '0' as int) as char
  }

  /** The value of a string of decimal digits, most significant first. */
  function DigitsValue(s: string): nat
    requires AllDigits(s)
  {
    if s == [] then 0 else DigitsValue(s[..|s| - 1]) * 10 + (s[|s| - 1] as int - '0' as int)
  }

  /** The decimal digits of a natural number, without leading zeros. */
  function NatToDigits(n: nat): (s: string)
    ensures |s| > 0 && AllDigits(s)
    ensures n > 0 ==> s[0] != '0'
  {
    if n < 10 then [DigitChar(n)] else NatToDigits(n / 10) + [DigitChar(n % 10)]
  }

  lemma {:induction false} DigitsRoundTrip(n: nat)
    ensures DigitsValue(NatToDigits(n)) == n
  {
    if n >= 10 {
      var s := NatToDigits(n);
      assert s[..|s| - 1] == NatToDigits(n / 10);
      DigitsRoundTrip(n / 10);
    }
  }

  /** Text of an integral Lua number, as lua_tostring writes it. */
  function IntToDecimal(n: int): (s: string)
    ensures |s| > 0
  {
    if n < 0 then "-" + NatToDigits(-n) else NatToDigits(n)
  }

  /** The number a numeric string converts to: an optional minus sign and decimal digits. */
  function ParseDecimal(s: string): (r: Option<int>)
    ensures r.Some? ==> |s| > 0 && (s[0] == '-' || IsDigit(s[0]))
  {
    if |s| > 1 && s[0] == '-' && AllDigits(s[1..]) then Some(-(DigitsValue(s[1..]) as int))
    else if |s| > 0 && AllDigits(s) then Some(DigitsValue(s))
    else None
  }

  lemma DecimalRoundTrip(n: int)
    ensures ParseDecimal(IntToDecimal(n)) == Some(n)
  {
    var s := IntToDecimal(n);
    if n < 0 {
      assert s[1..] == NatToDigits(-n);
      DigitsRoundTrip(-n);
    } else {
      DigitsRoundTrip(n);
    }
  }

  /** The number lua_isnumber accepts and lua_tonumber returns: a number, or a string that converts to one. */
  function ToNumber(v: LuaValue): (r: Option<int>)
    ensures v.LNumber? ==> r == Some(v.n)
    ensures v.LString? ==> r == ParseDecimal(v.s)
    ensures r.Some? ==> v.LNumber? || v.LString?
  {
    match v
    case LNumber(n) => Some(n)
    case LString(s) => ParseDecimal(s)
    case _ => None
  }

  function Pow10(k: nat): (p: nat)
    ensures p >= 1
  {
    if k == 0 then 1 else 10 * Pow10(k - 1)
  }

  /** Numbers of this magnitude or more are written in exponent form ("%.14g" keeps 14 significant digits). */
  const EXPONENT_THRESHOLD: int := 100000000000000

  /** How many decimal digits a natural number is written with. */
  function DigitCount(n: nat): (d: nat)
    ensures d >= 1
  {
    if n < 10 then 1 else 1 + DigitCount(n / 10)
  }

  function DivNat(n: nat, p: nat): (q: nat)
    requires p >= 1
  {
    n / p
  }

  /** n / 10^shift rounded to the nearest integer, ties to even (printf's rounding of an exact value). */
  function RoundHalfEven(n: nat, shift: nat): nat {
    var p := Pow10(shift);
    var q: nat := DivNat(n, p);
    var rem := n % p;
    if 2 * rem > p || (2 * rem == p && q % 2 == 1) then q + 1 else q
  }

  /** Drops trailing zeros, keeping at least one digit. */
  function StripTrailingZeros(s: string): (t: string)
    ensures |t| <= |s|
  {
    if |s| > 1 && s[|s| - 1] == '0' then StripTrailingZeros(s[..|s| - 1]) else s
  }

  /** The decimal exponent of a natural number's leading digit. */
  function Exponent(n: nat): nat {
    DigitCount(n) - 1
  }

  /** The 14 significant digits "%.14g" keeps of a number of at least 14 digits, rounded. */
  function Significand(n: nat): nat {
    var x := Exponent(n);
    RoundHalfEven(n, if x >= 13 then x - 13 else 0)
  }

  /** The mantissa text: a point after the first digit when more digits follow. */
  function Mantissa(d: string): string {
    if |d| <= 1 then d else d[..1] + "." + d[1..]
  }

  /** The exponent text: "e+" and at least two digits. */
  function ExponentText(e: nat): (s: string)
    ensures |s| > 0 && s[0] == 'e'
  {
    "e+" + (if e < 10 then "0" else "") + NatToDigits(e)
  }

  /**
   * The exponent form "%.14g" writes for a large natural number: 14
   * significant digits rounded, trailing zeros dropped, a point after the
   * first digit when more follow, then "e+" and an exponent of at least two
   * digits. Rounding up to 10^14 moves the point one place.
   */
  function ExponentForm(n: nat): (s: string)
    ensures 'e' in s
  {
    var m0 := Significand(n);
    var carry := m0 >= EXPONENT_THRESHOLD;
    var mantissa := Mantissa(StripTrailingZeros(NatToDigits(if carry then m0 / 10 else m0)));
    var tail := ExponentText(if carry then Exponent(n) + 1 else Exponent(n));
    assert (mantissa + tail)[|mantissa|] == 'e';
    mantissa + tail
  }

  /** The text lua_tostring writes for an integral number (LUA_NUMBER_FMT, "%.14g"). */
  function NumberText(n: int): (s: string)
    ensures -EXPONENT_THRESHOLD < n < EXPONENT_THRESHOLD ==> s == IntToDecimal(n)
    ensures n <= -EXPONENT_THRESHOLD || EXPONENT_THRESHOLD <= n ==> 'e' in s
  {
    var a := if n < 0 then -n else n;
    var body := if a < EXPONENT_THRESHOLD then NatToDigits(a) else ExponentForm(a);
    if n < 0 then "-" + body else body
  }

  /** The string lua_isstring accepts and lua_tostring returns: a string, or a number written with "%.14g". */
  function ToText(v: LuaValue): (r: Option<string>)
    ensures v.LString? ==> r == Some(v.s)
    ensures r.Some? <==> v.LString? || v.LNumber?
    ensures v.LNumber? && -EXPONENT_THRESHOLD < v.n < EXPONENT_THRESHOLD ==> r == Some(IntToDecimal(v.n))
    ensures v.LNumber? && (v.n <= -EXPONENT_THRESHOLD || EXPONENT_THRESHOLD <= v.n) ==> 'e' in r.value
  {
    match v
    case LString(s) => Some(s)
    case LNumber(n) => Some(NumberText(n))
    case _ => None
  }

  /** A number below 10^14 in magnitude converted to text converts back to the same number. */
  lemma NumberTextRoundTrip(n: int)
    requires -EXPONENT_THRESHOLD < n < EXPONENT_THRESHOLD
    ensures ToText(LNumber(n)).Some?
    ensures ToNumber(LString(ToText(LNumber(n)).value)) == Some(n)
  {
    DecimalRoundTrip(n);
  }

  /** A number from 10^k up to (not including) 10^(k+1) is written with k + 1 digits. */
  lemma {:induction false} DigitCountBetween(n: nat, k: nat)
    requires Pow10(k) <= n < Pow10(k + 1)
    ensures DigitCount(n) == k + 1
  {
    if k > 0 {
      assert Pow10(k) == 10 * Pow10(k - 1);
      assert Pow10(k + 1) == 10 * Pow10(k);
      assert Pow10(k - 1) <= n / 10 < Pow10(k);
      DigitCountBetween(n / 10, k - 1);
    }
  }

  /** Every fifteen-digit number, 10^14 first among them, has exponent 14, so it is written in exponent form. */
  lemma FifteenDigitNumbers(n: nat)
    requires EXPONENT_THRESHOLD <= n < 10 * EXPONENT_THRESHOLD
    ensures Exponent(n) == 14
  {
    assert Pow10(14) == EXPONENT_THRESHOLD;
    assert Pow10(15) == 10 * EXPONENT_THRESHOLD;
    DigitCountBetween(n, 14);
  }

  /**
   * Only 14 significant digits are kept: 10^14 is written from the digits of
   * 10^13 (the text "1e+14"), and the fifteenth digit of 123456789012345 is
   * rounded away, a tie going to the even neighbour (the text
   * "1.2345678901234e+14"), so that text does not give the number back.
   */
  lemma FifteenthDigitRounded()
    ensures Significand(EXPONENT_THRESHOLD) == 10000000000000
    ensures Significand(123456789012345) == 12345678901234
    ensures Significand(123456789012355) == 12345678901236
  {
    FifteenDigitNumbers(EXPONENT_THRESHOLD);
    FifteenDigitNumbers(123456789012345);
    FifteenDigitNumbers(123456789012355);
    assert Pow10(1) == 10;
  }

  /** The value a table holds under a field name; nil when the field is absent. */
  function Field(t: map<TableKey, LuaValue>, name: string): (v: LuaValue)
    ensures KStr(name) !in t ==> v == LNil
    ensures KStr(name) in t ==> v == t[KStr(name)]
  {
    if KStr(name) in t then t[KStr(name)] else LNil
  }
}
