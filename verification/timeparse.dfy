/**
 * Reading of the time arguments of the B-roll tool: a number passes
 * through, `H:M:S` and `M:S` clock strings are summed, any other string is
 * read as plain seconds.
 */
module TimeParse {
  import opened Common
  import opened Text

  /** A time argument as the caller supplies it: a number, or a string. */
  datatype TimeValue = Seconds(x: real) | Clock(s: string)

  /** The two ways the reading fails; both surface as a `ValueError`. */
  datatype TimeError =
    | InvalidTimeFormat(text: string)   // a clock string with more than three fields
    | NotANumber(piece: string)         // a field `int` or `float` cannot read

  /** The seconds a time argument denotes. */
  function ParseTime(t: TimeValue): (r: Result<real, TimeError>)
    ensures t.Seconds? ==> r == Ok(t.x)
    ensures t.Clock? ==> (r == Err(InvalidTimeFormat(t.s)) <==> Count(t.s, ':') >= 3)
    ensures t.Clock? && ':' !in t.s ==> (r.Ok? <==> ParseDecimal(t.s).Some?)
  {
    match t
    case Seconds(x) => Ok(x)
    case Clock(s) =>
      CountPositive(s, ':');
      if ':' in s then
        SplitCount(s, ':');
        var parts := Split(s, ':');
        if |parts| == 3 then
          match (ParseInt(parts[0]), ParseInt(parts[1]), ParseDecimal(parts[2]))
          case (None, _, _) => Err(NotANumber(parts[0]))
          case (Some(_), None, _) => Err(NotANumber(parts[1]))
          case (Some(_), Some(_), None) => Err(NotANumber(parts[2]))
          case (Some(h), Some(m), Some(sec)) => Ok((h * 3600 + m * 60) as real + sec)
        else if |parts| == 2 then
          match (ParseInt(parts[0]), ParseDecimal(parts[1]))
          case (None, _) => Err(NotANumber(parts[0]))
          case (Some(_), None) => Err(NotANumber(parts[1]))
          case (Some(m), Some(sec)) => Ok((m * 60) as real + sec)
        else
          Err(InvalidTimeFormat(s))
      else
        match ParseDecimal(s)
        case Some(sec) => Ok(sec)
        case None => Err(NotANumber(s))
  }

  /**
   * `H:M:S` with colon-free fields reads as `3600*H + 60*M + S` when the
   * hours and minutes are integers and the seconds a decimal; otherwise the
   * first field, left to right, that does not read is named.
   */
  lemma {:induction false} ClockHoursMinutesSeconds(a: string, b: string, c: string)
    requires ':' !in a && ':' !in b && ':' !in c
    ensures var r := ParseTime(Clock(a + ":" + b + ":" + c));
            && (ParseInt(a).Some? && ParseInt(b).Some? && ParseDecimal(c).Some? ==>
                  r == Ok(3600.0 * ParseInt(a).value as real + 60.0 * ParseInt(b).value as real + ParseDecimal(c).value))
            && (ParseInt(a).None? ==> r == Err(NotANumber(a)))
            && (ParseInt(a).Some? && ParseInt(b).None? ==> r == Err(NotANumber(b)))
            && (ParseInt(a).Some? && ParseInt(b).Some? && ParseDecimal(c).None? ==> r == Err(NotANumber(c)))
  {
    var s := a + ":" + b + ":" + c;
    var parts := [a, b, c];
    assert Join([b, c], ':') == b + ":" + c;
    assert s == Join(parts, ':');
    SplitJoin(parts, ':');
    assert ':' in s by { assert s[|a|] == ':'; }
    assert Split(s, ':') == parts;
  }

  /**
   * `M:S` with colon-free fields reads as `60*M + S` when the minutes are an
   * integer and the seconds a decimal; otherwise the first field that does
   * not read is named.
   */
  lemma {:induction false} ClockMinutesSeconds(a: string, b: string)
    requires ':' !in a && ':' !in b
    ensures var r := ParseTime(Clock(a + ":" + b));
            && (ParseInt(a).Some? && ParseDecimal(b).Some? ==>
                  r == Ok(60.0 * ParseInt(a).value as real + ParseDecimal(b).value))
            && (ParseInt(a).None? ==> r == Err(NotANumber(a)))
            && (ParseInt(a).Some? && ParseDecimal(b).None? ==> r == Err(NotANumber(b)))
  {
    var s := a + ":" + b;
    assert s == Join([a, b], ':');
    SplitJoin([a, b], ':');
    assert s[|a|] == ':';
  }

  /** A string without a colon is read as plain seconds, and named when it is not a decimal. */
  lemma PlainSeconds(s: string)
    requires ':' !in s
    ensures ParseDecimal(s).Some? ==> ParseTime(Clock(s)) == Ok(ParseDecimal(s).value)
    ensures ParseDecimal(s).None? ==> ParseTime(Clock(s)) == Err(NotANumber(s))
  {
  }

  /** Integer fields written in decimal: `IntStr(h):IntStr(m):S` reads as `3600*h + 60*m + S`. */
  lemma {:induction false} ClockOfIntegers(h: int, m: int, sec: string, x: real)
    requires ':' !in sec && ParseDecimal(sec) == Some(x)
    ensures ParseTime(Clock(IntStr(h) + ":" + IntStr(m) + ":" + sec))
         == Ok(3600.0 * h as real + 60.0 * m as real + x)
  {
    IntStrChars(h);
    IntStrChars(m);
    ParseIntStr(h);
    ParseIntStr(m);
    ClockHoursMinutesSeconds(IntStr(h), IntStr(m), sec);
  }
}
