/** Go's `time.ParseDuration` and `time.Duration.String`, at a resolution of
    whole seconds: a duration is a number of seconds that an int64 count of
    nanoseconds can hold. */
module Durations {
  import opened Wrappers
  import opened Strings

  /** A time.Duration is an int64 count of nanoseconds: in whole seconds it
      lies between -MaxSeconds and MaxSeconds. */
  const MaxSeconds: int := 9223372036

  /** 1<<63: the largest numeral Go reads before giving up on a component. */
  const MaxNumeral: nat := 9223372036854775808

  type Duration = d: int | -MaxSeconds <= d <= MaxSeconds

  /** The characters of `s` from position i up to j are decimal digits. */
  predicate DigitsBetween(s: string, i: nat, j: nat)
    requires i <= j <= |s|
  {
    forall k :: i <= k < j ==> IsDigit(s[k])
  }

  /** Length of the run of decimal digits at position i of `s`. */
  function DigitsFrom(s: string, i: nat): (n: nat)
    requires i <= |s|
    ensures i + n <= |s| && DigitsBetween(s, i, i + n)
    ensures i + n < |s| ==> !IsDigit(s[i + n])
    decreases |s| - i
  {
    if i == |s| || !IsDigit(s[i]) then 0 else 1 + DigitsFrom(s, i + 1)
  }

  /** Length of the unit at position i of `s`: everything up to the next digit or '.'. */
  function UnitFrom(s: string, i: nat): (n: nat)
    requires i <= |s|
    ensures i + n <= |s|
    ensures i + n < |s| ==> IsDigit(s[i + n]) || s[i + n] == '.'
    decreases |s| - i
  {
    if i == |s| || IsDigit(s[i]) || s[i] == '.' then 0 else 1 + UnitFrom(s, i + 1)
  }

  /** The value of the decimal numeral written from position i up to j of `s`. */
  function ValueOf(s: string, i: nat, j: nat): nat
    requires i <= j <= |s| && DigitsBetween(s, i, j)
    decreases j - i
  {
    if j == i then 0 else 10 * ValueOf(s, i, j - 1) + DigitValue(s[j - 1])
  }

  /** The units a duration is written in. Go also knows "ns", "us", "µs" and
      "ms": durations below a second are outside this model, so those units are
      refused here. */
  datatype Unit = Hour | Minute | Second

  function UnitOfChar(c: char): (r: Option<Unit>)
    ensures r.Some? <==> c == 'h' || c == 'm' || c == 's'
  {
    if c == 'h' then Some(Hour)
    else if c == 'm' then Some(Minute)
    else if c == 's' then Some(Second)
    else None
  }

  /** The unit written from position i up to j of `s`, if that is one of "h", "m", "s". */
  function UnitAt(s: string, i: nat, j: nat): (r: Option<Unit>)
    requires i <= j <= |s|
    ensures r.Some? <==> j == i + 1 && (s[i] == 'h' || s[i] == 'm' || s[i] == 's')
  {
    if j != i + 1 then None else UnitOfChar(s[i])
  }

  /** n units, in seconds. */
  function Times(n: nat, u: Unit): nat
  {
    match u
    case Hour => n * 3600
    case Minute => n * 60
    case Second => n
  }

  /** One `<digits><unit>` component: its value and its length. */
  datatype Component = Component(seconds: nat, len: nat)

  /** The component at position i of `s`. A numeral above 1<<63 is refused
      before its unit is looked at. */
  function NextComponentAt(s: string, i: nat): (r: Result<Component>)
    requires i <= |s|
    ensures r.Ok? ==> 0 < r.value.len <= |s| - i
  {
    var n := DigitsFrom(s, i);
    if n == 0 then Err("time: invalid duration")
    else if ValueOf(s, i, i + n) > MaxNumeral then Err("time: invalid duration")
    else
      var u := UnitFrom(s, i + n);
      if u == 0 then Err("time: missing unit in duration")
      else
        match UnitAt(s, i + n, i + n + u)
        case None => Err("time: unknown unit in duration")
        case Some(unit) => Ok(Component(Times(ValueOf(s, i, i + n), unit), n + u))
  }

  /** `acc` plus the components from position i of `s` to its end. The running
      total is checked after every component: once it leaves the range of a
      Duration the string is refused, before the components after it are read. */
  function ComponentsFrom(s: string, i: nat, acc: nat): (r: Result<nat>)
    requires i < |s|
    ensures r.Ok? ==> acc <= r.value <= MaxSeconds
    decreases |s| - i
  {
    match NextComponentAt(s, i)
    case Err(e) => Err(e)
    case Ok(c) =>
      if acc + c.seconds > MaxSeconds then Err("time: invalid duration")
      else if i + c.len == |s| then Ok(acc + c.seconds)
      else ComponentsFrom(s, i + c.len, acc + c.seconds)
  }

  /** The number of seconds a duration without its sign stands for: "0" or
      one or more components. */
  function Unsigned(body: string): (r: Result<nat>)
    ensures r.Ok? ==> r.value <= MaxSeconds
  {
    if body == "0" then Ok(0)
    else if body == "" then Err("time: invalid duration")
    else ComponentsFrom(body, 0, 0)
  }

  /** time.ParseDuration: an optional sign, then "0" or one or more components. */
  function Parse(s: string): (r: Result<int>)
    ensures s == "" ==> r.Err?
    ensures s == "0" ==> r == Ok(0)
    ensures r.Ok? ==> -MaxSeconds <= r.value <= MaxSeconds
  {
    var neg := |s| > 0 && s[0] == '-';
    var body := if |s| > 0 && (s[0] == '-' || s[0] == '+') then s[1..] else s;
    match Unsigned(body)
    case Err(e) => Err(e)
    case Ok(v) => Ok(if neg then -(v as int) else v as int)
  }

  /** `<n><unit>` followed by `rest`. */
  function Piece(n: nat, unit: char, rest: string): string
  {
    NatToString(n) + [unit] + rest
  }

  function Letter(u: Unit): (c: char)
    ensures UnitOfChar(c) == Some(u) && !IsDigit(c) && c != '.'
  {
    match u
    case Hour => 'h'
    case Minute => 'm'
    case Second => 's'
  }

  /** Components written out one after the other. */
  function Render(cs: seq<(nat, Unit)>): string
    requires |cs| > 0
  {
    if |cs| == 1 then Piece(cs[0].0, Letter(cs[0].1), []) else Piece(cs[0].0, Letter(cs[0].1), Render(cs[1..]))
  }

  /** The number of seconds a sequence of components stands for. */
  function Total(cs: seq<(nat, Unit)>): nat
  {
    if |cs| == 0 then 0 else Times(cs[0].0, cs[0].1) + Total(cs[1..])
  }

  /** Hours, minutes and seconds of a positive duration, leaving out leading zero fields. */
  function Clock(n: nat): (cs: seq<(nat, Unit)>)
    ensures 0 < |cs| <= 3 && cs[|cs| - 1].1 == Second
  {
    var h, m, sec := n / 3600, (n % 3600) / 60, n % 60;
    if h > 0 then [(h, Hour), (m, Minute), (sec, Second)]
    else if m > 0 then [(m, Minute), (sec, Second)]
    else [(sec, Second)]
  }

  /** time.Duration.String for a whole number of seconds: "0s", "45s", "1m0s", "1h0m0s", "-2m5s". */
  function Format(d: Duration): string
  {
    if d == 0 then "0s" else if d < 0 then Negated(Render(Clock(Abs(d)))) else Render(Clock(Abs(d)))
  }

  function Abs(d: int): nat
  {
    if d < 0 then -d else d
  }

  /** A duration string with a minus sign in front. */
  function Negated(body: string): string
  {
    "-" + body
  }

  /** `s` holds the string `d` from position i on. */
  predicate Holds(s: string, i: nat, d: string)
    decreases |d|
  {
    i + |d| <= |s| && (|d| == 0 || (s[i] == d[0] && Holds(s, i + 1, d[1..])))
  }

  lemma {:induction false} HoldsIndex(s: string, i: nat, d: string, k: nat)
    requires Holds(s, i, d) && k < |d|
    ensures s[i + k] == d[k]
    decreases k
  {
    if k > 0 {
      HoldsIndex(s, i + 1, d[1..], k - 1);
    }
  }

  lemma {:induction false} HoldsSelf(s: string, i: nat)
    requires i <= |s|
    ensures Holds(s, i, s[i..])
    decreases |s| - i
  {
    if i < |s| {
      HoldsSelf(s, i + 1);
      assert s[i..][1..] == s[i + 1..];
    }
  }

  lemma {:induction false} HoldsSplit(s: string, i: nat, a: string, b: string)
    requires Holds(s, i, a + b)
    ensures Holds(s, i, a) && Holds(s, i + |a|, b)
    decreases |a|
  {
    if |a| == 0 {
      assert a + b == b;
    } else {
      assert (a + b)[0] == a[0];
      assert (a + b)[1..] == a[1..] + b;
      HoldsSplit(s, i + 1, a[1..], b);
    }
  }

  /** A run of m digits ended by a non-digit or by the end of `s` is what DigitsFrom measures. */
  lemma {:induction false} DigitsFromRun(s: string, i: nat, m: nat)
    requires i + m <= |s| && DigitsBetween(s, i, i + m)
    requires i + m == |s| || !IsDigit(s[i + m])
    ensures DigitsFrom(s, i) == m
    decreases m
  {
    if m > 0 {
      assert IsDigit(s[i]);
      DigitsFromRun(s, i + 1, m - 1);
    }
  }

  /** A numeral held by `s` is read back by ValueOf. */
  lemma {:induction false} ValueOfNumeral(s: string, i: nat, d: string)
    requires AllDigits(d) && Holds(s, i, d)
    ensures DigitsBetween(s, i, i + |d|) && ValueOf(s, i, i + |d|) == StringToNat(d)
    decreases |d|
  {
    forall k | i <= k < i + |d|
      ensures IsDigit(s[k])
    {
      HoldsIndex(s, i, d, k - i);
    }
    if |d| > 0 {
      var init := d[..|d| - 1];
      assert d == init + [d[|d| - 1]];
      HoldsSplit(s, i, init, [d[|d| - 1]]);
      ValueOfNumeral(s, i, init);
      HoldsIndex(s, i, d, |d| - 1);
    }
  }

  /** The numeral of a formatted component held by `s` at position i: its digit
      run and its value. */
  lemma {:induction false} PieceDigits(s: string, i: nat, n: nat, l: char, rest: string)
    requires !IsDigit(l)
    requires Holds(s, i, Piece(n, l, rest))
    ensures var m := |NatToString(n)|;
      && i + m + 1 <= |s| && DigitsFrom(s, i) == m
      && DigitsBetween(s, i, i + m) && ValueOf(s, i, i + m) == n
      && Holds(s, i + m, [l] + rest)
  {
    var d := NatToString(n);
    assert Piece(n, l, rest) == d + ([l] + rest);
    HoldsSplit(s, i, d, [l] + rest);
    ValueOfNumeral(s, i, d);
    NumeralRoundTrip(n);
    HoldsIndex(s, i + |d|, [l] + rest, 0);
    DigitsFromRun(s, i, |d|);
  }

  /** The unit of a formatted component held by `s` at position j. */
  lemma {:induction false} PieceUnit(s: string, j: nat, u: Unit, rest: string)
    requires rest == [] || IsDigit(rest[0])
    requires Holds(s, j, [Letter(u)] + rest) && j + 1 + |rest| == |s|
    ensures UnitFrom(s, j) == 1 && UnitAt(s, j, j + 1) == Some(u)
  {
    HoldsSplit(s, j, [Letter(u)], rest);
    HoldsIndex(s, j, [Letter(u)], 0);
    if j + 1 < |s| {
      HoldsIndex(s, j + 1, rest, 0);
    }
  }

  /** A formatted component `<n><unit>` held by `s` at position i is read back as n units. */
  lemma {:induction false} NextOfPiece(s: string, i: nat, n: nat, u: Unit, rest: string)
    requires n <= MaxNumeral
    requires rest == [] || IsDigit(rest[0])
    requires Holds(s, i, Piece(n, Letter(u), rest)) && i + |Piece(n, Letter(u), rest)| == |s|
    ensures NextComponentAt(s, i) == Ok(Component(Times(n, u), |NatToString(n)| + 1))
  {
    var m := |NatToString(n)|;
    PieceDigits(s, i, n, Letter(u), rest);
    PieceUnit(s, i + m, u, rest);
    NextComponentOf(s, i, m, u, n);
  }

  /** NextComponentAt, once the digit run, the unit run, the unit and the value are known. */
  lemma {:induction false} NextComponentOf(s: string, i: nat, m: nat, u: Unit, v: nat)
    requires i + m + 1 <= |s| && 0 < m && DigitsFrom(s, i) == m
    requires UnitFrom(s, i + m) == 1 && UnitAt(s, i + m, i + m + 1) == Some(u)
    requires DigitsBetween(s, i, i + m) && ValueOf(s, i, i + m) == v && v <= MaxNumeral
    ensures NextComponentAt(s, i) == Ok(Component(Times(v, u), m + 1))
  {
  }

  /** ComponentsFrom on a last component that keeps the total in range. */
  lemma {:induction false} ComponentsLast(s: string, i: nat, acc: nat, c: Component, total: nat)
    requires i < |s| && NextComponentAt(s, i) == Ok(c) && i + c.len == |s|
    requires total == acc + c.seconds <= MaxSeconds
    ensures ComponentsFrom(s, i, acc) == Ok(total)
  {
  }

  /** ComponentsFrom on a component that keeps the running total in range,
      followed by components that bring it to `total`. */
  lemma {:induction false} ComponentsNext(s: string, i: nat, acc: nat, c: Component, next: nat, total: nat)
    requires i < |s| && NextComponentAt(s, i) == Ok(c) && i + c.len < |s|
    requires next == acc + c.seconds <= MaxSeconds && ComponentsFrom(s, i + c.len, next) == Ok(total)
    ensures ComponentsFrom(s, i, acc) == Ok(total)
  {
  }

  lemma {:induction false} PieceStart(n: nat, unit: char, rest: string)
    ensures |Piece(n, unit, rest)| >= 2 && IsDigit(Piece(n, unit, rest)[0])
  {
  }

  lemma {:induction false} RenderStart(cs: seq<(nat, Unit)>)
    requires |cs| > 0
    ensures |Render(cs)| >= 2 && IsDigit(Render(cs)[0])
  {
    if |cs| == 1 {
      PieceStart(cs[0].0, Letter(cs[0].1), []);
    } else {
      PieceStart(cs[0].0, Letter(cs[0].1), Render(cs[1..]));
    }
  }

  /** The first of the rendered components held by `s` from position i to its
      end, and where the others start. */
  lemma {:induction false} RenderFront(s: string, i: nat, cs: seq<(nat, Unit)>) returns (c: Component)
    requires |cs| > 0 && cs[0].0 <= MaxNumeral
    requires Holds(s, i, Render(cs)) && i + |Render(cs)| == |s|
    ensures i < |s| && NextComponentAt(s, i) == Ok(c) && c.seconds == Times(cs[0].0, cs[0].1)
    ensures |cs| == 1 ==> i + c.len == |s|
    ensures |cs| > 1 ==> i + c.len < |s| && Holds(s, i + c.len, Render(cs[1..])) && i + c.len + |Render(cs[1..])| == |s|
  {
    var n, u := cs[0].0, cs[0].1;
    var l := Letter(u);
    c := Component(Times(n, u), |NatToString(n)| + 1);
    if |cs| == 1 {
      assert Render(cs) == Piece(n, l, []);
      NextOfPiece(s, i, n, u, []);
    } else {
      var rest := Render(cs[1..]);
      assert Render(cs) == Piece(n, l, rest);
      RenderStart(cs[1..]);
      NextOfPiece(s, i, n, u, rest);
      assert Piece(n, l, rest) == (NatToString(n) + [l]) + rest;
      HoldsSplit(s, i, NatToString(n) + [l], rest);
    }
  }

  /** The total of components is the first one's worth plus the rest's, and
      at least the first one's numeral. */
  lemma {:induction false} TotalFront(cs: seq<(nat, Unit)>)
    requires |cs| > 0
    ensures Total(cs) == Times(cs[0].0, cs[0].1) + Total(cs[1..])
    ensures cs[0].0 <= Times(cs[0].0, cs[0].1)
    ensures |cs| == 1 ==> Total(cs[1..]) == 0
  {
  }

  /** Rendered components held by `s` from position i to its end, read after
      components worth `acc`, parse back to `acc` plus their total when that
      stays in range. */
  lemma {:induction false} RenderParsesAt(s: string, i: nat, cs: seq<(nat, Unit)>, acc: nat, total: nat)
    requires |cs| > 0 && total == acc + Total(cs) <= MaxSeconds
    requires Holds(s, i, Render(cs)) && i + |Render(cs)| == |s|
    ensures i < |s| && ComponentsFrom(s, i, acc) == Ok(total)
    decreases |cs|
  {
    TotalFront(cs);
    var c := RenderFront(s, i, cs);
    if |cs| == 1 {
      ComponentsLast(s, i, acc, c, total);
    } else {
      var next: nat := acc + c.seconds;
      assert total == next + Total(cs[1..]);
      RenderParsesAt(s, i + c.len, cs[1..], next, total);
      ComponentsNext(s, i, acc, c, next, total);
    }
  }

  /** Rendered components worth a Duration parse back to their total. */
  lemma {:induction false} RenderParses(cs: seq<(nat, Unit)>)
    requires |cs| > 0 && Total(cs) <= MaxSeconds
    ensures ComponentsFrom(Render(cs), 0, 0) == Ok(Total(cs))
  {
    var s := Render(cs);
    HoldsSelf(s, 0);
    assert s[0..] == s;
    RenderParsesAt(s, 0, cs, 0, Total(cs));
  }

  lemma {:induction false} ClockSplit(n: nat)
    ensures n == (n / 3600) * 3600 + ((n % 3600) / 60) * 60 + n % 60
  {
    var r := n % 3600;
    assert n == (n / 3600) * 3600 + r;
    assert r == (r / 60) * 60 + r % 60;
    assert r % 60 == n % 60 by {
      assert n == (n / 3600) * 60 * 60 + r;
    }
  }

  lemma {:induction false} ClockTotal(n: nat)
    ensures Total(Clock(n)) == n
  {
    var h, m, sec := n / 3600, (n % 3600) / 60, n % 60;
    assert n == h * 3600 + m * 60 + sec by { ClockSplit(n); }
    var s1 := [(sec, Second)];
    var s2 := [(m, Minute), (sec, Second)];
    assert Total(s1) == sec by { assert Total(s1[1..]) == 0; }
    assert Total(s2) == m * 60 + sec by { assert s2[1..] == s1; }
    if h > 0 {
      var s3 := [(h, Hour), (m, Minute), (sec, Second)];
      assert Total(s3) == h * 3600 + m * 60 + sec by { assert s3[1..] == s2; }
    }
  }

  lemma {:induction false} ParsePositive(p: string, n: nat)
    requires |p| >= 2 && IsDigit(p[0])
    requires Unsigned(p) == Ok(n)
    ensures Parse(p) == Ok(n as int)
  {
  }

  lemma {:induction false} ParseNegative(p: string, n: nat)
    requires |p| >= 2
    requires Unsigned(p) == Ok(n)
    ensures Parse(Negated(p)) == Ok(-(n as int))
  {
    var s := Negated(p);
    assert s[0] == '-' && s[1..] == p;
  }

  /** The clock fields of a number of seconds, rendered, read back as that number. */
  lemma {:induction false} ClockParses(n: nat)
    requires n <= MaxSeconds
    ensures |Render(Clock(n))| >= 2 && IsDigit(Render(Clock(n))[0])
    ensures Unsigned(Render(Clock(n))) == Ok(n)
  {
    var p := Render(Clock(n));
    ClockTotal(n);
    RenderParses(Clock(n));
    RenderStart(Clock(n));
    assert ComponentsFrom(p, 0, 0) == Ok(n);
  }

  /** The same, with no sign. */
  lemma {:induction false} ClockParsesPositive(n: nat)
    requires n <= MaxSeconds
    ensures Parse(Render(Clock(n))) == Ok(n as int)
  {
    ClockParses(n);
    ParsePositive(Render(Clock(n)), n);
  }

  /** The same, with a minus sign in front. */
  lemma {:induction false} ClockParsesNegative(n: nat)
    requires n <= MaxSeconds
    ensures Parse(Negated(Render(Clock(n)))) == Ok(-(n as int))
  {
    ClockParses(n);
    ParseNegative(Render(Clock(n)), n);
  }

  lemma {:induction false} FormatParsesZero()
    ensures Parse(Format(0)) == Ok(0)
  {
    assert Format(0) == "0s";
    ClockParses(0);
    assert Clock(0) == [(0, Second)];
    assert Render(Clock(0)) == "0s";
    ParsePositive("0s", 0);
  }

  lemma {:induction false} FormatParsesPositive(d: Duration)
    requires d > 0
    ensures Parse(Format(d)) == Ok(d)
  {
    ClockParsesPositive(Abs(d));
  }

  lemma {:induction false} FormatParsesNegative(d: Duration)
    requires d < 0
    ensures Parse(Format(d)) == Ok(d)
  {
    ClockParsesNegative(Abs(d));
  }

  /** Every formatted duration parses back to itself. */
  lemma {:induction false} FormatParseRoundTrip(d: Duration)
    ensures Parse(Format(d)) == Ok(d)
  {
    if d > 0 {
      FormatParsesPositive(d);
    } else if d < 0 {
      FormatParsesNegative(d);
    } else {
      FormatParsesZero();
    }
  }

  /** The durations of the sample check: one minute and one hour. */
  lemma {:induction false} SampleMinute()
    ensures Format(60) == "1m0s" && Parse("1m0s") == Ok(60)
  {
    assert NatToString(0) == "0" && NatToString(1) == "1";
    assert Clock(60) == [(1, Minute), (0, Second)];
    assert Render([(0, Second)]) == "0s";
    assert Render(Clock(60)) == "1m0s" by {
      assert Clock(60)[1..] == [(0, Second)];
    }
    FormatParseRoundTrip(60);
  }

  lemma {:induction false} SampleHour()
    ensures Format(3600) == "1h0m0s" && Parse("1h0m0s") == Ok(3600)
  {
    assert NatToString(0) == "0" && NatToString(1) == "1";
    assert Render([(0, Second)]) == "0s";
    assert Clock(3600) == [(1, Hour), (0, Minute), (0, Second)];
    assert Render(Clock(3600)) == "1h0m0s" by {
      assert Clock(3600)[1..] == [(0, Minute), (0, Second)];
      assert Clock(3600)[1..][1..] == [(0, Second)];
    }
    FormatParseRoundTrip(3600);
  }

  /** The interval of the package tests: "1s" is one second. */
  lemma {:induction false} SampleSecond()
    ensures Format(1) == "1s" && Parse("1s") == Ok(1)
  {
    assert NatToString(1) == "1";
    assert Clock(1) == [(1, Second)];
    assert Render(Clock(1)) == "1s";
    FormatParseRoundTrip(1);
  }

  /** A number of hours written out, read by NextComponentAt. */
  lemma {:induction false} HoursComponent(n: nat)
    requires n <= MaxNumeral
    ensures NextComponentAt(Piece(n, 'h', []), 0) == Ok(Component(n * 3600, |Piece(n, 'h', [])|))
  {
    var s := Piece(n, 'h', []);
    HoldsSelf(s, 0);
    assert s[0..] == s;
    NextOfPiece(s, 0, n, Hour, []);
  }

  /** n hours, written out, parse to n * 3600 seconds when that is a Duration. */
  lemma {:induction false} HoursParse(n: nat)
    requires n * 3600 <= MaxSeconds
    ensures Parse(Piece(n, 'h', [])) == Ok(n * 3600)
  {
    var s := Piece(n, 'h', []);
    HoursComponent(n);
    ComponentsLast(s, 0, 0, Component(n * 3600, |s|), n * 3600);
    PieceStart(n, 'h', []);
    ParsePositive(s, n * 3600);
  }

  /** n hours, written out, are refused when n * 3600 seconds is not a Duration. */
  lemma {:induction false} HoursOverflow(n: nat)
    requires n <= MaxNumeral && n * 3600 > MaxSeconds
    ensures Parse(Piece(n, 'h', [])) == Err("time: invalid duration")
  {
    var s := Piece(n, 'h', []);
    HoursComponent(n);
    PieceStart(n, 'h', []);
    assert ComponentsFrom(s, 0, 0) == Err("time: invalid duration");
    assert Unsigned(s) == Err("time: invalid duration");
  }

  /** The numerals of 2562047 and 2562048. */
  lemma {:induction false} SampleNumerals()
    ensures Piece(2562047, 'h', []) == "2562047h" && Piece(2562048, 'h', []) == "2562048h"
  {
    assert NatToString(2) == "2";
    assert NatToString(25) == "25";
    assert NatToString(256) == "256";
    assert NatToString(2562) == "2562";
    assert NatToString(25620) == "25620";
    assert NatToString(256204) == "256204";
    assert NatToString(2562047) == "2562047";
    assert NatToString(2562048) == "2562048";
  }

  /** An int64 count of nanoseconds holds 2562047 hours but not 2562048:
      the first parses, the second is refused. */
  lemma {:induction false} SampleOverflow()
    ensures Parse("2562047h") == Ok(9223369200)
    ensures Parse("2562048h") == Err("time: invalid duration")
  {
    SampleNumerals();
    HoursParse(2562047);
    HoursOverflow(2562048);
  }
}
