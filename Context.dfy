/** The per-invocation execution context (core/CommandContext.kt): two
    mutable maps that the dispatcher fills, and accessors with defaults and
    boolean/integer coercion. */
module Context {
  import opened Strings
  import opened Schema

  const MinInt: int := -0x8000_0000
  const MaxInt: int := 0x7FFF_FFFF

  predicate IsDigit(c: char)
  {
    '0' <= c <= '9'
  }

  predicate AllDigits(s: string)
  {
    forall k :: 0 <= k < |s| ==> IsDigit(s[k])
  }

  /** The value of a string of decimal digits, most significant first. */
  function DigitsValue(s: string): (v: nat)
    requires AllDigits(s)
  {
    if s == [] then 0
    else DigitsValue(s[..|s| - 1]) * 10 + (s[|s| - 1] as int - '0' as int)
  }

  /** Kotlin's `String.toIntOrNull()` (radix 10): an optional leading `-` or
      `+` followed by at least one digit, whose value fits in a 32-bit `Int`. */
  function ParseInt(s: string): (r: Maybe<int>)
    ensures r.Some? ==> MinInt <= r.value <= MaxInt
    ensures r.Some? <==>
      || (AllDigits(s) && s != [] && DigitsValue(s) <= MaxInt)
      || (|s| > 1 && s[0] == '+' && AllDigits(s[1..]) && DigitsValue(s[1..]) <= MaxInt)
      || (|s| > 1 && s[0] == '-' && AllDigits(s[1..]) && DigitsValue(s[1..]) <= -MinInt)
    ensures r.Some? ==> r.value == if s[0] == '-' then -(DigitsValue(s[1..]) as int)
                                   else if s[0] == '+' then DigitsValue(s[1..])
                                   else DigitsValue(s)
  {
    if |s| == 0 then None
    else if s[0] < '0' then
      if |s| == 1 then None
      else if s[0] == '-' then
        if AllDigits(s[1..]) && DigitsValue(s[1..]) <= -MinInt then Some(-(DigitsValue(s[1..]) as int)) else None
      else if s[0] == '+' then
        if AllDigits(s[1..]) && DigitsValue(s[1..]) <= MaxInt then Some(DigitsValue(s[1..])) else None
      else None
    else if AllDigits(s) && DigitsValue(s) <= MaxInt then Some(DigitsValue(s))
    else None
  }

  /** Non-canonical spellings are accepted: a `+` sign, leading zeros and
      a negative zero. */
  lemma NonCanonicalSpellings()
    ensures ParseInt("+7") == Some(7)
    ensures ParseInt("007") == Some(7)
    ensures ParseInt("-0") == Some(0)
    ensures ParseInt("+") == None && ParseInt("-") == None && ParseInt("") == None
  {
    assert "+7"[1..] == "7";
    assert "007"[..2] == "00" && "00"[..1] == "0";
    assert "-0"[1..] == "0";
  }

  /** The decimal digits of `n`, without leading zeros (`n.toString()`). */
  function NatDigits(n: nat): (s: string)
    ensures AllDigits(s) && s != []
  {
    if n < 10 then [('0' as int + n) as char]
    else NatDigits(n / 10) + [('0' as int + n % 10) as char]
  }

  /** `Int.toString()`. */
  function IntToString(v: int): string
  {
    if v < 0 then "-" + NatDigits(-v) else NatDigits(v)
  }

  lemma {:induction false} DigitsValueOfNatDigits(n: nat)
    ensures DigitsValue(NatDigits(n)) == n
  {
    if n >= 10 {
      var s := NatDigits(n);
      assert s[..|s| - 1] == NatDigits(n / 10);
      DigitsValueOfNatDigits(n / 10);
    }
  }

  /** `optionInt` reads back every 32-bit integer written in decimal:
      parsing `v.toString()` gives `v`. */
  lemma ParseIntRoundTrip(v: int)
    requires MinInt <= v <= MaxInt
    ensures ParseInt(IntToString(v)) == Some(v)
  {
    if v < 0 {
      NegativeRoundTrip(v);
    } else {
      var d := NatDigits(v);
      DigitsValueOfNatDigits(v);
      assert IsDigit(d[0]);
      assert ParseInt(d) == Some(DigitsValue(d));
    }
  }

  lemma NegativeRoundTrip(v: int)
    requires MinInt <= v < 0
    ensures ParseInt(IntToString(v)) == Some(v)
  {
    var d := NatDigits(-v);
    var s := "-" + d;
    assert s == IntToString(v);
    assert s[1..] == d;
    DigitsValueOfNatDigits(-v);
    assert DigitsValue(s[1..]) == -v;
    assert s[0] == '-' && |s| > 1;
  }

  /** The context handed to an action: the command it runs, the positional
      arguments bound by name and the options bound by long name. */
  class CommandContext {
    const command: Command
    var arguments: map<string, string>
    var options: map<string, string>

    /** A fresh context has nothing bound. */
    constructor (command: Command)
      ensures this.command == command
      ensures arguments == map[] && options == map[]
    {
      this.command := command;
      arguments := map[];
      options := map[];
    }

    /** `argument(name)`: the bound value, or `""` when nothing is bound. */
    function Argument(name: string): (r: string)
      reads this
      ensures name in arguments ==> r == arguments[name]
      ensures name !in arguments ==> r == ""
    {
      if name in arguments then arguments[name] else ""
    }

    /** `option(name)`: the bound value, or `""` when nothing is bound. */
    function Option(name: string): (r: string)
      reads this
      ensures name in options ==> r == options[name]
      ensures name !in options ==> r == ""
    {
      if name in options then options[name] else ""
    }

    /** `optionBool(name)`: true exactly when the bound value is `true` in
        any letter case; false when nothing is bound. */
    function OptionBool(name: string): (r: bool)
      reads this
      ensures r <==> name in options && |options[name]| == 4 && Lower(options[name]) == "true"
    {
      name in options && EqualsIgnoreCase(options[name], "true")
    }

    /** `optionInt(name)`: the bound value read as a 32-bit decimal integer;
        0 when nothing is bound or the value is not such an integer. */
    function OptionInt(name: string): (r: int)
      reads this
      ensures MinInt <= r <= MaxInt
      ensures name in options && ParseInt(options[name]).Some? ==> r == ParseInt(options[name]).value
      ensures name !in options || ParseInt(options[name]).None? ==> r == 0
    {
      if name in options then
        match ParseInt(options[name])
        case Some(v) => v
        case None => 0
      else 0
    }
  }
}
