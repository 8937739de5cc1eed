/** The sync runtime as the client shows it: `sync_runtime_seconds` is an
    optional float, tested for truthiness, truncated with `int(...)` and split
    with `divmod(..., 60)` into minutes and seconds. Floats are modelled as
    exact reals. */
module Runtime {
  import opened Wrappers
  import opened Text

  /** Python truthiness of the optional runtime: present and not zero. */
  predicate Truthy(runtime: Option<real>) {
    runtime.Some? && runtime.value != 0.0
  }

  /** `int(x)` on a float truncates toward zero. */
  function Truncate(x: real): (t: int)
    ensures x >= 0.0 ==> 0 <= t && t as real <= x < t as real + 1.0
    ensures x < 0.0 ==> t <= 0 && t as real - 1.0 < x <= t as real
  {
    if x >= 0.0 then x.Floor else -((-x).Floor)
  }

  /** `divmod(t, 60)`. Python floors the quotient; for the positive divisor 60 this
      coincides with Dafny's Euclidean `/` and `%`, so the seconds always lie in
      [0, 60), also for a negative `t`. */
  function MinutesSeconds(t: int): (ms: (int, int))
    ensures 0 <= ms.1 < 60 && 60 * ms.0 + ms.1 == t
  {
    (t / 60, t % 60)
  }

  /** The elapsed-time text: `Mm Ss` when there is at least one whole minute, else `Ss`. */
  function Elapsed(t: int): string {
    var (minutes, seconds) := MinutesSeconds(t);
    if minutes > 0 then IntToString(minutes) + "m " + IntToString(seconds) + "s"
    else IntToString(seconds) + "s"
  }

  /** Reads an elapsed-time text back into a number of seconds. */
  function ReadElapsed(text: string): Option<int> {
    match ReadInt(text)
    case None => None
    case Some((first, rest)) =>
      if rest == "s" then Some(first)
      else
        match ReadSecondsAfterMinutes(rest)
        case None => None
        case Some(seconds) => Some(60 * first + seconds)
  }

  /** Reads the `m Ss` that follows the minutes. */
  function ReadSecondsAfterMinutes(rest: string): Option<int> {
    match Expect("m ", rest)
    case None => None
    case Some(after) =>
      match ReadInt(after)
      case None => None
      case Some((seconds, tail)) => if tail == "s" then Some(seconds) else None
  }

  lemma ReadElapsedOfSeconds(seconds: int)
    ensures ReadElapsed(IntToString(seconds) + "s") == Some(seconds)
  {
    ReadIntOfIntToString(seconds, "s");
  }

  /** Reading `<minutes>m <seconds>s` from the readings of its two numbers. */
  lemma ReadElapsedOfParts(minutesText: string, minutes: int, secondsText: string, seconds: int)
    requires ReadInt(minutesText + ("m " + (secondsText + "s"))) == Some((minutes, "m " + (secondsText + "s")))
    requires ReadInt(secondsText + "s") == Some((seconds, "s"))
    ensures ReadElapsed(minutesText + ("m " + (secondsText + "s"))) == Some(60 * minutes + seconds)
  {
    var tail := "m " + (secondsText + "s");
    assert tail != "s" by { assert |tail| > 1; }
    ExpectOfLiteral("m ", secondsText + "s");
    assert ReadSecondsAfterMinutes(tail) == Some(seconds);
  }

  lemma ReadElapsedOfMinutes(minutes: int, seconds: int)
    ensures ReadElapsed(IntToString(minutes) + "m " + IntToString(seconds) + "s") == Some(60 * minutes + seconds)
  {
    var minutesText, secondsText := IntToString(minutes), IntToString(seconds);
    var tail := "m " + (secondsText + "s");
    Assoc(minutesText + "m ", secondsText, "s");
    Assoc(minutesText, "m ", secondsText + "s");
    ReadIntOfIntToString(minutes, tail);
    ReadIntOfIntToString(seconds, "s");
    ReadElapsedOfParts(minutesText, minutes, secondsText, seconds);
  }

  lemma ElapsedShowsMinutes(t: int)
    requires t >= 60
    ensures ReadElapsed(Elapsed(t)) == Some(t)
  {
    var minutes, seconds := t / 60, t % 60;
    assert Elapsed(t) == IntToString(minutes) + "m " + IntToString(seconds) + "s";
    ReadElapsedOfMinutes(minutes, seconds);
  }

  lemma ElapsedShowsUnderAMinute(t: int)
    requires 0 <= t < 60
    ensures ReadElapsed(Elapsed(t)) == Some(t)
  {
    assert Elapsed(t) == IntToString(t) + "s";
    ReadElapsedOfSeconds(t);
  }

  /** A non-negative runtime is shown exactly: reading the text gives it back. */
  lemma ElapsedShowsSeconds(t: int)
    requires t >= 0
    ensures ReadElapsed(Elapsed(t)) == Some(t)
  {
    if t >= 60 {
      ElapsedShowsMinutes(t);
    } else {
      ElapsedShowsUnderAMinute(t);
    }
  }

  /** A negative runtime has a negative floor quotient, so only its remainder
      modulo 60 is shown, as a plain seconds count. */
  lemma ElapsedOfNegative(t: int)
    requires t < 0
    ensures ReadElapsed(Elapsed(t)) == Some(t % 60)
  {
    ReadElapsedOfSeconds(t % 60);
  }

  /** Reads a `<prefix>(<elapsed>)` line back into seconds. */
  function ReadParenthesised(prefix: string, line: string): Option<int> {
    match Expect(prefix + "(", line)
    case None => None
    case Some(inner) =>
      if inner != [] && inner[|inner| - 1] == ')' then ReadElapsed(inner[..|inner| - 1]) else None
  }

  /** A line that shows a non-negative runtime in parentheses gives that runtime back. */
  lemma ParenthesisedShowsSeconds(prefix: string, t: int)
    requires t >= 0
    ensures ReadParenthesised(prefix, prefix + "(" + Elapsed(t) + ")") == Some(t)
  {
    var inner := Elapsed(t) + ")";
    assert prefix + "(" + Elapsed(t) + ")" == (prefix + "(") + inner;
    ExpectOfLiteral(prefix + "(", inner);
    assert inner[..|inner| - 1] == Elapsed(t);
    ElapsedShowsSeconds(t);
  }
}
