/**
 The workout record model of script.js (classes Workout, Running and Cycling).

 A record is an immutable value: the two subclasses become the two constructors
 of one datatype, and the `type` field becomes the discriminant `Type()`.
 The clock reads of script.js (`new Date()`, `Date.now()`) are parameters:
 the calendar date of creation and the id string.
 */
module Workouts {
  import opened Wrappers

  /** The two workout kinds offered by the type selector. */
  datatype Kind = Running | Cycling

  /** A latitude/longitude pair, as taken from a map click. */
  datatype Coords = Coords(lat: real, lng: real)

  /** `Date.prototype.getMonth()` is 0-based, `getDate()` is 1-based. */
  type Month = m: nat | m < 12
  type Day = d: nat | 1 <= d <= 31 witness 1

  /** The calendar date a record was created on, as far as the record uses it. */
  datatype Date = Date(month: Month, day: Day)

  datatype Workout =
    | RunningWorkout(id: string, date: Date, coords: Coords, distance: real, duration: real,
                     cadence: real, pace: Option<real>, description: string, clicks: nat)
    | CyclingWorkout(id: string, date: Date, coords: Coords, distance: real, duration: real,
                     elevationGain: real, speed: Option<real>, description: string, clicks: nat)
  {
    /** The `type` field: "running" for Running records, "cycling" for Cycling ones. */
    function Type(): Kind {
      if RunningWorkout? then Running else Cycling
    }
  }

  const MonthNames: seq<string> :=
    ["January", "February", "March", "April", "May", "June",
     "July", "August", "September", "October", "November", "December"]

  function MonthName(m: Month): string {
    MonthNames[m]
  }

  /** The `type` string of a record of kind `k`. */
  function TypeName(k: Kind): string {
    match k
    case Running => "running"
    case Cycling => "cycling"
  }

  predicate IsDigit(c: char) {
    '0' <= c <= '9'
  }

  predicate IsLower(c: char) {
    'a' <= c <= 'z'
  }

  /** `toUpperCase` on one character; the type names only hold ASCII letters. */
  function UpperChar(c: char): char {
    if IsLower(c) then (c as int - 32) as char else c
  }

  /** First letter upper-cased, the rest as is. */
  function Capitalize(s: string): string
    requires |s| > 0
  {
    [UpperChar(s[0])] + s[1..]
  }

  function DigitChar(d: nat): (c: char)
    requires d < 10
    ensures IsDigit(c) && c as int - '0' as int == d
  {
    ('0' as int + d) as char
  }

  /** The decimal numeral of `n`, as a template literal renders a whole number. */
  function Decimal(n: nat): (s: string)
    ensures |s| >= 1
    ensures forall i :: 0 <= i < |s| ==> IsDigit(s[i])
    ensures s[0] == '0' ==> n == 0
  {
    if n < 10 then [DigitChar(n)] else Decimal(n / 10) + [DigitChar(n % 10)]
  }

  /** The number a string of decimal digits denotes. */
  function DecimalValue(s: string): nat
    requires forall i :: 0 <= i < |s| ==> IsDigit(s[i])
  {
    if s == [] then 0
    else
      assert IsDigit(s[|s| - 1]);
      10 * DecimalValue(s[..|s| - 1]) + (s[|s| - 1] as int - '0' as int)
  }

  /** Reading a numeral back gives the number it was made from. */
  lemma {:induction false} DecimalRoundTrip(n: nat)
    ensures DecimalValue(Decimal(n)) == n
  {
    var s := Decimal(n);
    if n >= 10 {
      DecimalRoundTrip(n / 10);
      assert s[..|s| - 1] == Decimal(n / 10);
    }
  }

  /** Different days give different numerals. */
  lemma DecimalInjective(a: nat, b: nat)
    requires Decimal(a) == Decimal(b)
    ensures a == b
  {
    DecimalRoundTrip(a);
    DecimalRoundTrip(b);
  }

  /** The `description` set by `_setDescription`: capitalised type, " on ",
      the month's name, a space and the day of the month. */
  function Describe(k: Kind, date: Date): (s: string)
    ensures |s| > 11
    ensures s[..11] == (if k == Running then "Running on " else "Cycling on ")
    ensures s[11..] == MonthName(date.month) + " " + Decimal(date.day)
  {
    HeadingFacts(k);
    Heading(k) + DateText(date)
  }

  /** "Running on " or "Cycling on ". */
  function Heading(k: Kind): string {
    Capitalize(TypeName(k)) + " on "
  }

  /** The month's name, a space and the day of the month. */
  function DateText(date: Date): string {
    MonthName(date.month) + " " + Decimal(date.day)
  }

  /** A running record created on the 5th day of month index 2 reads "Running on March 5". */
  lemma DescribeExample()
    ensures Describe(Running, Date(2, 5)) == "Running on March 5"
  {
  }

  /** A month name holds no space. */
  lemma MonthNameHasNoSpace(m: Month)
    ensures forall i :: 0 <= i < |MonthName(m)| ==> MonthName(m)[i] != ' '
  {
  }

  lemma MonthNameInjective(m1: Month, m2: Month)
    requires MonthName(m1) == MonthName(m2)
    ensures m1 == m2
  {
  }

  /** `a + " " + b` can be split back at its first space when `a` holds none. */
  lemma {:induction false} SplitAtFirstSpace(a1: string, b1: string, a2: string, b2: string)
    requires forall i :: 0 <= i < |a1| ==> a1[i] != ' '
    requires forall i :: 0 <= i < |a2| ==> a2[i] != ' '
    requires a1 + " " + b1 == a2 + " " + b2
    ensures a1 == a2 && b1 == b2
  {
    var s := a1 + " " + b1;
    assert s[|a1|] == ' ' && s[|a2|] == ' ';
    assert a1 == s[..|a1|] == a2;
    assert b1 == s[|a1| + 1..] == b2;
  }

  lemma HeadingFacts(k: Kind)
    ensures Heading(k) == (if k == Running then "Running on " else "Cycling on ")
  {
  }

  /** The description identifies the record's kind and creation date. */
  lemma DescriptionInjective(k1: Kind, d1: Date, k2: Kind, d2: Date)
    requires Describe(k1, d1) == Describe(k2, d2)
    ensures k1 == k2 && d1 == d2
  {
    var s := Describe(k1, d1);
    HeadingFacts(k1);
    HeadingFacts(k2);
    assert s[0] == Heading(k1)[0] == Heading(k2)[0];
    assert DateText(d1) == s[11..] == DateText(d2);
    MonthNameHasNoSpace(d1.month);
    MonthNameHasNoSpace(d2.month);
    SplitAtFirstSpace(MonthName(d1.month), Decimal(d1.day), MonthName(d2.month), Decimal(d2.day));
    MonthNameInjective(d1.month, d2.month);
    DecimalInjective(d1.day, d2.day);
  }

  /** `pace()` of a running record, in min/km: duration over distance.
      There is no value when the distance is 0 (the program divides anyway). */
  function Pace(distance: real, duration: real): (p: Option<real>)
    ensures p.Some? <==> distance != 0.0
    ensures p.Some? ==> p.value * distance == duration
  {
    if distance == 0.0 then None else Some(duration / distance)
  }

  /** `speed()` of a cycling record, in km/h from a duration in minutes.
      There is no value when the duration is 0. */
  function Speed(distance: real, duration: real): (v: Option<real>)
    ensures v.Some? <==> duration != 0.0
    ensures v.Some? ==> v.value * (duration / 60.0) == distance
  {
    if duration == 0.0 then None else Some(distance / (duration / 60.0))
  }

  /** For the same distance and duration, pace in min/km and speed in km/h
      multiply to the sixty minutes of an hour. */
  lemma PaceSpeedReciprocal(distance: real, duration: real)
    requires distance != 0.0 && duration != 0.0
    ensures Pace(distance, duration).value * Speed(distance, duration).value == 60.0
  {
  }

  /** `new Running(coords, distance, duration, cadence)`. */
  function NewRunning(id: string, date: Date, coords: Coords, distance: real, duration: real, cadence: real): (w: Workout)
    ensures w.Type() == Running && w.id == id && w.date == date && w.clicks == 0
    ensures w.coords == coords && w.distance == distance && w.duration == duration && w.cadence == cadence
    ensures w.pace.Some? <==> distance != 0.0
    ensures w.pace.Some? ==> w.pace.value * distance == duration
    ensures w.description == Describe(Running, date)
  {
    RunningWorkout(id, date, coords, distance, duration, cadence, Pace(distance, duration), Describe(Running, date), 0)
  }

  /** `new Cycling(coords, distance, duration, elevationGain)`. */
  function NewCycling(id: string, date: Date, coords: Coords, distance: real, duration: real, elevationGain: real): (w: Workout)
    ensures w.Type() == Cycling && w.id == id && w.date == date && w.clicks == 0
    ensures w.coords == coords && w.distance == distance && w.duration == duration && w.elevationGain == elevationGain
    ensures w.speed.Some? <==> duration != 0.0
    ensures w.speed.Some? ==> w.speed.value * (duration / 60.0) == distance
    ensures w.description == Describe(Cycling, date)
  {
    CyclingWorkout(id, date, coords, distance, duration, elevationGain, Speed(distance, duration), Describe(Cycling, date), 0)
  }

  /** The kind's metric (pace or speed) is a number. `JSON.stringify` writes
      `NaN` and `Infinity` as `null`, so a record without one comes back from
      storage with a `null` metric. */
  predicate HasMetric(w: Workout) {
    match w
    case RunningWorkout(_, _, _, _, _, _, pace, _, _) => pace.Some?
    case CyclingWorkout(_, _, _, _, _, _, speed, _, _) => speed.Some?
  }

  /** `_click()`: one more click, every other field as it was. */
  function Click(w: Workout): (r: Workout)
    ensures r.clicks == w.clicks + 1
    ensures r.(clicks := w.clicks) == w
  {
    w.(clicks := w.clicks + 1)
  }
}
