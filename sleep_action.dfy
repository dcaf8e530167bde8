/** The sleep action (`action/src/action/sleep.rs`): the rendered
    `duration` argument is read as a whole number of seconds, either a JSON
    integer or a decimal string, and must be at least one. The sleep itself
    is an effect and is not modelled; the run answers `Null`. */
module SleepAction {
  import opened Common
  import opened JsonValue

  /** The error of a missing or non-positive duration. */
  const DurationError: Error := Error("sleep", "duration must > 0")

  predicate IsDigit(c: char)
  {
    '0' <= c <= '9'
  }

  predicate AllDigits(s: string)
  {
    forall k | 0 <= k < |s| :: IsDigit(s[k])
  }

  /** The number a string of decimal digits denotes, most significant
      digit first. */
  function DigitsValue(s: string): nat
    requires AllDigits(s)
    decreases |s|
  {
    if s == [] then 0 else DigitsValue(s[..|s| - 1]) * 10 + (s[|s| - 1] as int - '0' as int)
  }

  /** `str::parse::<u64>`: an optional '+', then at least one decimal digit
      (leading zeros allowed), denoting a number below 2^64. */
  function ParseU64(s: string): (r: Option<nat>)
    ensures r.Some? ==> r.value < U64_LIMIT
    ensures s == [] ==> r.None?
    ensures r.Some? && s[0] != '+' ==> AllDigits(s) && r.value == DigitsValue(s)
    ensures r.Some? && s[0] == '+' ==> AllDigits(s[1..]) && r.value == DigitsValue(s[1..])
  {
    var digits := if |s| > 0 && s[0] == '+' then s[1..] else s;
    if digits != [] && AllDigits(digits) && DigitsValue(digits) < U64_LIMIT then Some(DigitsValue(digits)) else None
  }

  /** Parsing gives back the number its decimal text shows, with or
      without a '+' in front. */
  lemma ParseDisplayed(n: nat)
    requires n < U64_LIMIT
    ensures ParseU64(NatText(n)) == Some(n)
    ensures ParseU64("+" + NatText(n)) == Some(n)
  {
    DigitsOfNatText(n);
    assert ("+" + NatText(n))[1..] == NatText(n);
  }

  lemma {:induction false} DigitsOfNatText(n: nat)
    ensures AllDigits(NatText(n)) && DigitsValue(NatText(n)) == n
    decreases n
  {
    var s := NatText(n);
    if n >= 10 {
      DigitsOfNatText(n / 10);
      assert s[..|s| - 1] == NatText(n / 10);
    }
  }

  /** A sign other than '+', and a text without digits, do not parse. */
  lemma ParseRejects(t: string)
    ensures ParseU64("") == None
    ensures ParseU64("+") == None
    ensures ParseU64("-" + t) == None
  {
    assert ("-" + t)[0] == '-' && !IsDigit('-');
    assert "+"[1..] == [];
  }

  /** The duration in seconds: an integer in the range of `u64` as it is,
      a string parsed (a string that does not parse is an error), anything
      else zero; null is refused outright. */
  function Seconds(sec: Json, parseError: string -> Error): (r: Result<nat, Error>)
    ensures sec.Null? ==> r == Result.Err(DurationError)
    ensures AsU64(sec).Some? ==> r == Result.Ok(sec.i)
    ensures sec.Str? && ParseU64(sec.s).Some? ==> r == Result.Ok(ParseU64(sec.s).value)
    ensures sec.Str? && ParseU64(sec.s).None? ==> r == Result.Err(parseError(sec.s))
    ensures !sec.Null? && AsU64(sec).None? && !sec.Str? ==> r == Result.Ok(0)
  {
    if sec.Null? then Result.Err(DurationError)
    else if IsNumber(sec) && AsU64(sec).Some? then Result.Ok(AsU64(sec).value)
    else if sec.Str? then
      (match ParseU64(sec.s)
       case None => Result.Err(parseError(sec.s))
       case Some(n) => Result.Ok(n))
    else Result.Ok(0)
  }

  /** `Sleep::run`: the rendered duration, then the check that it is at
      least one second; a run that sleeps answers `Null`. */
  function Run(args: Json, renderValue: Json -> Result<Json, Error>, parseError: string -> Error): (r: Result<Json, Error>)
    ensures renderValue(Get(args, "duration")).Err? ==> r == Result.Err(renderValue(Get(args, "duration")).error)
    ensures r.Ok? ==> r.value == Null
  {
    match renderValue(Get(args, "duration"))
    case Err(e) => Result.Err(e)
    case Ok(sec) =>
      match Seconds(sec, parseError)
      case Err(e) => Result.Err(e)
      case Ok(n) => if n < 1 then Result.Err(DurationError) else Result.Ok(Null)
  }

  /** The run succeeds exactly for a positive integer of `u64` or a string
      that parses to one; a null, a zero, a negative or fractional number,
      a boolean, an array or an object are refused as non-positive. */
  lemma RunAccepts(args: Json, renderValue: Json -> Result<Json, Error>, parseError: string -> Error)
    requires renderValue(Get(args, "duration")).Ok?
    ensures var sec := renderValue(Get(args, "duration")).value;
      && (Run(args, renderValue, parseError).Ok? <==>
            (AsU64(sec).Some? && sec.i >= 1) || (sec.Str? && ParseU64(sec.s).Some? && ParseU64(sec.s).value >= 1))
      && (!sec.Str? && !(AsU64(sec).Some? && sec.i >= 1) ==> Run(args, renderValue, parseError) == Result.Err(DurationError))
  {
  }

  /** Any positive number of seconds is accepted, as an integer and as its
      decimal text. */
  lemma AcceptsPositive(n: nat, renderValue: Json -> Result<Json, Error>, parseError: string -> Error)
    requires 1 <= n < U64_LIMIT
    requires renderValue(Str(NatText(n))) == Result.Ok(Str(NatText(n)))
    requires renderValue(Json.Int(n)) == Result.Ok(Json.Int(n))
    ensures Run(Obj(map["duration" := Str(NatText(n))]), renderValue, parseError) == Result.Ok(Null)
    ensures Run(Obj(map["duration" := Json.Int(n)]), renderValue, parseError) == Result.Ok(Null)
  {
    ParseDisplayed(n);
    var text := Obj(map["duration" := Str(NatText(n))]);
    assert Get(text, "duration") == Str(NatText(n));
    assert Seconds(Str(NatText(n)), parseError) == Result.Ok(n);
    var number := Obj(map["duration" := Json.Int(n)]);
    assert Get(number, "duration") == Json.Int(n);
    assert AsU64(Json.Int(n)).Some?;
  }
}
