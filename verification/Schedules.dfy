/**
 One stored schedule, told twice: as a sentence a person reads and as the trigger the
 operating system would be given. The two must never disagree.
 */
module Schedules {
  import opened Wrappers
  import opened Decimals

  /** A stored field, or an offered one: only whole numbers count. */
  datatype Value = Whole(n: int) | Flag(b: bool) | Text(s: string) | Null

  /** What the schedule column holds: not text, text that is no object, or an object. */
  datatype Stored = NotAnObject | Object(fields: map<string, Value>)

  const NO_SCHEDULE := "No schedule saved yet."
  const MAX_INTERVAL := 7 * 24 * 60

  function FieldsOf(kind: Option<string>): set<string> {
    if kind == Some("interval") then {"minutes"}
    else if kind == Some("calendar") then {"hour", "minute", "weekday"}
    else {}
  }

  /** The closed fields of the kind, and only as whole numbers. */
  function Projected(kind: Option<string>, stored: Stored): map<string, int> {
    if stored.NotAnObject? then map[]
    else map f | f in FieldsOf(kind) && f in stored.fields && stored.fields[f].Whole? :: stored.fields[f].n
  }

  predicate Within(fields: map<string, int>, f: string, low: int, high: int) {
    f in fields && low <= fields[f] <= high
  }

  predicate Readable(kind: Option<string>, fields: map<string, int>) {
    if kind == Some("interval") then "minutes" in fields && fields["minutes"] >= 1
    else if kind == Some("calendar") then
      && Within(fields, "hour", 0, 23) && Within(fields, "minute", 0, 59)
      && ("weekday" in fields ==> 0 <= fields["weekday"] <= 6)
    else false
  }

  // ----- the sentence -----------------------------------------------------------------------------

  function DayName(weekday: int): string {
    match weekday
    case 0 => "Sunday" case 1 => "Monday" case 2 => "Tuesday" case 3 => "Wednesday"
    case 4 => "Thursday" case 5 => "Friday" case _ => "Saturday"
  }

  function TimeText(hour: nat, minute: nat): string
    requires minute < 100
  {
    Decimal(hour) + ":" + [Digit(minute / 10), Digit(minute % 10)]
  }

  function Sentence(kind: Option<string>, fields: map<string, int>): string {
    if !Readable(kind, fields) then NO_SCHEDULE
    else if kind == Some("interval") then
      var minutes := fields["minutes"];
      if minutes == 1 then "Every " + "minute"
      else if minutes == 60 then "Every " + "hour"
      else if minutes % 1440 == 0 then
        if minutes / 1440 == 1 then "Every " + "day" else "Every " + (Decimal(minutes / 1440) + " days")
      else if minutes % 60 == 0 then "Every " + (Decimal(minutes / 60) + " hours")
      else "Every " + (Decimal(minutes) + " minutes")
    else
      var time := TimeText(fields["hour"], fields["minute"]);
      if "weekday" !in fields then "Every " + ("day" + (" at " + time))
      else "Every " + (DayName(fields["weekday"]) + (" at " + time))
  }

  // ----- the trigger ------------------------------------------------------------------------------

  const INTERVAL_KEY := "    <key>StartInterval</key>\n    <integer>"
  const CALENDAR_KEY := "    <key>StartCalendarInterval</key>\n    <dict>\n"

  function EntryText(name: string, value: nat): string {
    "        <key>" + name + "</key>\n        <integer>" + (Decimal(value) + "</integer>\n")
  }

  function Trigger(kind: Option<string>, fields: map<string, int>): string {
    if !Readable(kind, fields) then ""
    else if kind == Some("interval") then INTERVAL_KEY + (Decimal(fields["minutes"] * 60) + "</integer>\n")
    else
      CALENDAR_KEY + (EntryText("Hour", fields["hour"]) + (EntryText("Minute", fields["minute"]) +
      ((if "weekday" in fields then EntryText("Weekday", fields["weekday"]) else "") + "    </dict>\n")))
  }

  // ----- what a schedule is -------------------------------------------------------------------------

  datatype Meaning = Never | Interval(minutes: nat) | Calendar(hour: nat, minute: nat, weekday: Option<nat>)

  /** When the job would run. */
  function MeaningOf(kind: Option<string>, fields: map<string, int>): (m: Meaning)
    ensures Sound(m)
  {
    if !Readable(kind, fields) then Never
    else if kind == Some("interval") then Interval(fields["minutes"])
    else Calendar(fields["hour"], fields["minute"], if "weekday" in fields then Some(fields["weekday"]) else None)
  }

  predicate Sound(m: Meaning) {
    match m
    case Never => true
    case Interval(minutes) => minutes >= 1
    case Calendar(hour, minute, weekday) => hour < 24 && minute < 60 && (weekday.Some? ==> weekday.value < 7)
  }

  function CountText(minutes: nat): string {
    if minutes == 1 then "minute"
    else if minutes == 60 then "hour"
    else if minutes % 1440 == 0 then if minutes / 1440 == 1 then "day" else Decimal(minutes / 1440) + " days"
    else if minutes % 60 == 0 then Decimal(minutes / 60) + " hours"
    else Decimal(minutes) + " minutes"
  }

  function DayText(weekday: Option<nat>): string {
    if weekday.None? then "day" else DayName(weekday.value)
  }

  lemma SentenceSays(kind: Option<string>, fields: map<string, int>)
    ensures var m := MeaningOf(kind, fields);
            Sentence(kind, fields) ==
              match m
              case Never => NO_SCHEDULE
              case Interval(minutes) => "Every " + CountText(minutes)
              case Calendar(hour, minute, weekday) => "Every " + (DayText(weekday) + (" at " + TimeText(hour, minute)))
  {
  }

  const DAYS := ["Sunday", "Monday", "Tuesday", "Wednesday", "Thursday", "Friday", "Saturday"]

  /** A number below a hundred, in two digits. */
  function TwoDigits(n: nat): string {
    if n < 10 then "0" + Decimal(n) else Decimal(n)
  }

  /**
   A row with an hour, a minute and perhaps a day reads as that day at that time, days counted from
   Sunday, and the trigger is given the same numbers.
   */
  lemma CalendarReads(fields: map<string, int>, hour: nat, minute: nat)
    requires "hour" in fields && fields["hour"] == hour < 24 && "minute" in fields && fields["minute"] == minute < 60
    requires "weekday" in fields ==> 0 <= fields["weekday"] < |DAYS|
    ensures var day := if "weekday" in fields then DAYS[fields["weekday"]] else "day";
            Sentence(Some("calendar"), fields) ==
            "Every " + (day + (" at " + (Decimal(hour) + (":" + TwoDigits(minute)))))
    ensures Trigger(Some("calendar"), fields) ==
            CALENDAR_KEY + (EntryText("Hour", hour) + (EntryText("Minute", minute) +
            ((if "weekday" in fields then EntryText("Weekday", fields["weekday"]) else "") + "    </dict>\n")))
  {
    TwoDigitsAre(minute);
    if "weekday" in fields {
      DayIs(fields["weekday"]);
    }
    hide DayName, DAYS, Decimal, TwoDigits, EntryText, CALENDAR_KEY;
    assert Decimal(hour) + ":" + TwoDigits(minute) == Decimal(hour) + (":" + TwoDigits(minute));
  }

  lemma DayIs(weekday: int)
    requires 0 <= weekday < |DAYS|
    ensures DayName(weekday) == DAYS[weekday]
  {
  }

  lemma TwoDigitsAre(n: nat)
    requires n < 100
    ensures TwoDigits(n) == [Digit(n / 10), Digit(n % 10)]
  {
    if n < 10 {
      assert Decimal(n) == [Digit(n)] && "0"[0] == Digit(0);
    } else {
      assert n / 10 < 10 && Decimal(n / 10) == [Digit(n / 10)];
      assert Decimal(n) == Decimal(n / 10) + [Digit(n % 10)];
    }
  }

  /** The units a gap is told in, and how many minutes each is. */
  const UNITS := [("minute", 1), ("hour", 60), ("day", 1440)]

  /** A gap is so many of the largest unit that goes into it evenly; one of a unit is told without the number. */
  lemma GapReads(minutes: nat) returns (k: nat)
    requires minutes >= 1
    ensures k < |UNITS| && minutes % UNITS[k].1 == 0
    ensures forall j :: k < j < |UNITS| ==> minutes % UNITS[j].1 != 0
    ensures CountText(minutes) == CountedIn(minutes, UNITS[k].0, UNITS[k].1)
  {
    k := if minutes % 1440 == 0 then 2 else if minutes % 60 == 0 then 1 else 0;
    assert UNITS[0].1 == 1 && UNITS[1].1 == 60 && UNITS[2].1 == 1440;
    ToldInUnit(minutes, UNITS[k].0, UNITS[k].1);
    hide CountText, CountedIn;
  }

  lemma ToldInUnit(minutes: nat, unit: string, size: nat)
    requires minutes >= 1
    requires (unit, size) == if minutes % 1440 == 0 then ("day", 1440) else if minutes % 60 == 0 then ("hour", 60)
                             else ("minute", 1)
    ensures CountText(minutes) == CountedIn(minutes, unit, size)
  {
    hide Decimal;
    assert " minutes" == " " + "minute" + "s" && " hours" == " " + "hour" + "s" && " days" == " " + "day" + "s";
  }

  function CountedIn(minutes: nat, unit: string, size: nat): string
    requires size > 0
  {
    if minutes == size then unit else Decimal(minutes / size) + (" " + unit + "s")
  }

  /** And the trigger fires after as many seconds. */
  lemma IntervalReads(fields: map<string, int>, minutes: nat)
    requires "minutes" in fields && fields["minutes"] == minutes >= 1
    ensures Sentence(Some("interval"), fields) == "Every " + CountText(minutes)
    ensures Trigger(Some("interval"), fields) == INTERVAL_KEY + (Decimal(minutes * 60) + "</integer>\n")
  {
  }

  /** Different gaps read differently, whichever unit they are told in. */
  lemma CountsDiffer(m: nat, n: nat)
    requires m >= 1 && n >= 1
    ensures CountText(m) == CountText(n) <==> m == n
  {
    CountStarts(m);
    CountStarts(n);
    if IsDigit(CountText(m)[0]) && IsDigit(CountText(n)[0]) {
      var (a, unit) := Told(m);
      var (b, unit') := Told(n);
      NumberThenRest(a, unit, b, unit');
    }
  }

  function Told(m: nat): (nat, string) {
    if m % 1440 == 0 then (m / 1440, " days") else if m % 60 == 0 then (m / 60, " hours") else (m, " minutes")
  }

  lemma CountStarts(m: nat)
    requires m >= 1
    ensures CountText(m) != ""
    ensures m == 1 || m == 60 || m == 1440 ==>
              CountText(m)[0] == 'm' || CountText(m)[0] == 'h' || CountText(m)[0] == 'd'
    ensures m == 1 <==> CountText(m)[0] == 'm'
    ensures m == 60 <==> CountText(m)[0] == 'h'
    ensures m == 1440 <==> CountText(m)[0] == 'd'
    ensures m != 1 && m != 60 && m != 1440 ==>
              IsDigit(CountText(m)[0]) && CountText(m) == Decimal(Told(m).0) + Told(m).1
  {
  }

  lemma TimesDiffer(h: nat, m: nat, h': nat, m': nat)
    requires m < 60 && m' < 60
    ensures TimeText(h, m) == TimeText(h', m') <==> h == h' && m == m'
  {
    var rest, rest' := ":" + [Digit(m / 10), Digit(m % 10)], ":" + [Digit(m' / 10), Digit(m' % 10)];
    assert TimeText(h, m) == Decimal(h) + rest && TimeText(h', m') == Decimal(h') + rest';
    NumberThenRest(h, rest, h', rest');
    if rest == rest' {
      assert rest[1] == rest'[1] && rest[2] == rest'[2];
    }
  }

  /** The day is read off the front, and the time after it. */
  lemma DaysDiffer(d: Option<nat>, d': Option<nat>, time: string, time': string)
    requires (d.Some? ==> d.value < 7) && (d'.Some? ==> d'.value < 7)
    ensures DayText(d) + (" at " + time) == DayText(d') + (" at " + time') <==> d == d' && time == time'
  {
    var x, y := DayText(d), DayText(d');
    var a, b := x + (" at " + time), y + (" at " + time');
    if a == b {
      assert a[0] == x[0] && b[0] == y[0];
      assert a[1] == x[1] && b[1] == y[1];
      SameDay(d, d');
      assert a[|x| + 4..] == time && b[|y| + 4..] == time';
    }
  }

  lemma SameDay(d: Option<nat>, d': Option<nat>)
    requires (d.Some? ==> d.value < 7) && (d'.Some? ==> d'.value < 7)
    ensures |DayText(d)| >= 3 && |DayText(d')| >= 3
    ensures DayText(d)[0] == DayText(d')[0] && DayText(d)[1] == DayText(d')[1] ==> d == d'
    ensures DayText(d)[0] !in "mh" && !IsDigit(DayText(d)[0])
  {
  }

  /** A gap never reads like a time of day. */
  lemma GapIsNoTime(minutes: nat, d: Option<nat>, time: string)
    requires minutes >= 1 && (d.Some? ==> d.value < 7)
    ensures CountText(minutes) != DayText(d) + (" at " + time)
  {
    CountStarts(minutes);
    SameDay(d, d);
    var text := DayText(d) + (" at " + time);
    assert text[0] == DayText(d)[0];
    if minutes == 1440 {
      assert |CountText(minutes)| == 3 && |text| > 3;
    }
  }

  lemma Prefixed(prefix: string, a: string, b: string)
    ensures prefix + a == prefix + b <==> a == b
  {
    if prefix + a == prefix + b {
      assert (prefix + a)[|prefix|..] == a && (prefix + b)[|prefix|..] == b;
    }
  }

  /** The sentence says exactly what the schedule is. */
  lemma SentenceIsMeaning(k: Option<string>, f: map<string, int>, k': Option<string>, f': map<string, int>)
    ensures Sentence(k, f) == Sentence(k', f') <==> MeaningOf(k, f) == MeaningOf(k', f')
  {
    hide Sentence, MeaningOf, CountText, TimeText, DayText;
    var m, m' := MeaningOf(k, f), MeaningOf(k', f');
    SentenceSays(k, f);
    SentenceSays(k', f');
    match (m, m')
    case (Never, Never) =>
    case (Never, _) => assert Sentence(k, f)[0] == 'N' && Sentence(k', f')[0] == 'E';
    case (_, Never) => assert Sentence(k, f)[0] == 'E' && Sentence(k', f')[0] == 'N';
    case (Interval(x), Interval(y)) =>
      Prefixed("Every ", CountText(x), CountText(y));
      CountsDiffer(x, y);
    case (Interval(x), Calendar(h, mi, d)) =>
      Prefixed("Every ", CountText(x), DayText(d) + (" at " + TimeText(h, mi)));
      GapIsNoTime(x, d, TimeText(h, mi));
    case (Calendar(h, mi, d), Interval(x)) =>
      Prefixed("Every ", CountText(x), DayText(d) + (" at " + TimeText(h, mi)));
      GapIsNoTime(x, d, TimeText(h, mi));
    case (Calendar(h, mi, d), Calendar(h', mi', d')) =>
      Prefixed("Every ", DayText(d) + (" at " + TimeText(h, mi)), DayText(d') + (" at " + TimeText(h', mi')));
      DaysDiffer(d, d', TimeText(h, mi), TimeText(h', mi'));
      TimesDiffer(h, mi, h', mi');
  }

  // ----- the trigger says it too ---------------------------------------------------------------------

  function WeekdayEntry(weekday: Option<nat>): string {
    (if weekday.Some? then EntryText("Weekday", weekday.value) else "") + "    </dict>\n"
  }

  lemma TriggerSays(kind: Option<string>, fields: map<string, int>)
    ensures var m := MeaningOf(kind, fields);
            Trigger(kind, fields) ==
              match m
              case Never => ""
              case Interval(minutes) => INTERVAL_KEY + (Decimal(minutes * 60) + "</integer>\n")
              case Calendar(hour, minute, weekday) =>
                CALENDAR_KEY + (EntryText("Hour", hour) + (EntryText("Minute", minute) + WeekdayEntry(weekday)))
  {
  }

  lemma EntriesDiffer(name: string, a: nat, rest: string, b: nat, rest': string)
    ensures EntryText(name, a) + rest == EntryText(name, b) + rest' <==> a == b && rest == rest'
  {
    hide Decimal;
    var head := "        <key>" + name + "</key>\n        <integer>";
    var close := "</integer>\n";
    assert EntryText(name, a) + rest == head + (Decimal(a) + (close + rest));
    assert EntryText(name, b) + rest' == head + (Decimal(b) + (close + rest'));
    Prefixed(head, Decimal(a) + (close + rest), Decimal(b) + (close + rest'));
    assert (close + rest)[0] == '<' && (close + rest')[0] == '<';
    NumberThenRest(a, close + rest, b, close + rest');
    Prefixed(close, rest, rest');
  }

  lemma WeekdaysDiffer(d: Option<nat>, d': Option<nat>)
    ensures WeekdayEntry(d) == WeekdayEntry(d') <==> d == d'
  {
    hide Decimal;
    var end := "    </dict>\n";
    if d.Some? && d'.Some? {
      EntriesDiffer("Weekday", d.value, end, d'.value, end);
    } else {
      EntryStarts("Weekday", if d.Some? then d.value else 0, end);
      EntryStarts("Weekday", if d'.Some? then d'.value else 0, end);
      assert "" + end == end && end[4] == '<';
    }
  }

  lemma EntryStarts(name: string, a: nat, rest: string)
    ensures |EntryText(name, a) + rest| > 4 && (EntryText(name, a) + rest)[4] == ' '
  {
    hide Decimal;
    var head := "        <key>" + name + "</key>\n        <integer>";
    assert head[4] == ' ';
    assert EntryText(name, a) + rest == head + (Decimal(a) + ("</integer>\n" + rest));
  }

  lemma KeysDiffer(x: string, y: string)
    ensures INTERVAL_KEY + x != CALENDAR_KEY + y
  {
    var n := |"    <key>Start"|;
    assert (INTERVAL_KEY + x)[n] == INTERVAL_KEY[n] == 'I';
    assert (CALENDAR_KEY + y)[n] == CALENDAR_KEY[n] == 'C';
  }

  lemma TriggerIsMeaning(k: Option<string>, f: map<string, int>, k': Option<string>, f': map<string, int>)
    ensures Trigger(k, f) == Trigger(k', f') <==> MeaningOf(k, f) == MeaningOf(k', f')
  {
    hide Trigger, MeaningOf, EntryText, WeekdayEntry, Decimal;
    var m, m' := MeaningOf(k, f), MeaningOf(k', f');
    TriggerSays(k, f);
    TriggerSays(k', f');
    match (m, m')
    case (Never, Never) =>
    case (Never, _) => assert |Trigger(k, f)| == 0 < |Trigger(k', f')|;
    case (_, Never) => assert |Trigger(k', f')| == 0 < |Trigger(k, f)|;
    case (Interval(x), Interval(y)) =>
      Prefixed(INTERVAL_KEY, Decimal(x * 60) + "</integer>\n", Decimal(y * 60) + "</integer>\n");
      NumberThenRest(x * 60, "</integer>\n", y * 60, "</integer>\n");
    case (Interval(x), Calendar(h, mi, d)) =>
      KeysDiffer(Decimal(x * 60) + "</integer>\n", EntryText("Hour", h) + (EntryText("Minute", mi) + WeekdayEntry(d)));
    case (Calendar(h, mi, d), Interval(x)) =>
      KeysDiffer(Decimal(x * 60) + "</integer>\n", EntryText("Hour", h) + (EntryText("Minute", mi) + WeekdayEntry(d)));
    case (Calendar(h, mi, d), Calendar(h', mi', d')) =>
      var rest, rest' := EntryText("Minute", mi) + WeekdayEntry(d), EntryText("Minute", mi') + WeekdayEntry(d');
      Prefixed(CALENDAR_KEY, EntryText("Hour", h) + rest, EntryText("Hour", h') + rest');
      EntriesDiffer("Hour", h, rest, h', rest');
      EntriesDiffer("Minute", mi, WeekdayEntry(d), mi', WeekdayEntry(d'));
      WeekdaysDiffer(d, d');
  }

  /**
   Over all stored rows, well-formed or not: the sentence says there is no schedule exactly
   when the trigger is empty, and two rows read the same exactly when they would run the same.
   */
  lemma TheTwoAgree(k: Option<string>, s: Stored, k': Option<string>, s': Stored)
    ensures var f, f' := Projected(k, s), Projected(k', s');
            && (Sentence(k, f) == NO_SCHEDULE <==> Trigger(k, f) == "")
            && (Sentence(k, f) == Sentence(k', f') <==> Trigger(k, f) == Trigger(k', f'))
  {
    hide Sentence, Trigger, Projected;
    var f, f' := Projected(k, s), Projected(k', s');
    SentenceIsMeaning(k, f, k', f');
    TriggerIsMeaning(k, f, k', f');
    SentenceIsMeaning(k, f, None, map[]);
    TriggerIsMeaning(k, f, None, map[]);
    SentenceSays(None, map[]);
    TriggerSays(None, map[]);
  }

  // ----- the door --------------------------------------------------------------------------------------

  datatype Refusal = NeedsAKind | NeedsMinutes | IntervalTooLong | NeedsHour | NeedsMinute | NeedsWeekday

  function Given(fields: map<string, Value>, f: string): Value {
    if f in fields then fields[f] else Null
  }

  predicate WholeWithin(v: Value, low: int, high: int) {
    v.Whole? && low <= v.n <= high
  }

  function ScheduleProblem(kind: Option<string>, fields: map<string, Value>): Option<Refusal> {
    if kind == Some("interval") then
      var minutes := Given(fields, "minutes");
      if !minutes.Whole? || minutes.n < 1 then Some(NeedsMinutes)
      else if minutes.n > MAX_INTERVAL then Some(IntervalTooLong)
      else None
    else if kind == Some("calendar") then
      if !WholeWithin(Given(fields, "hour"), 0, 23) then Some(NeedsHour)
      else if !WholeWithin(Given(fields, "minute"), 0, 59) then Some(NeedsMinute)
      else if !Given(fields, "weekday").Null? && !WholeWithin(Given(fields, "weekday"), 0, 6) then Some(NeedsWeekday)
      else None
    else Some(NeedsAKind)
  }

  /** What the door stores of what it was offered: the kind's own fields, a null counting as absent. */
  function Declared(kind: Option<string>, offered: map<string, Value>): map<string, Value> {
    map f | f in FieldsOf(kind) && f in offered && !offered[f].Null? :: offered[f]
  }

  /**
   The door lets through exactly the schedules both renderings can say, less a gap over a week
   and a day that is given but is no day.
   */
  lemma DoorLetsThroughTheReadable(kind: Option<string>, offered: map<string, Value>)
    ensures var row := Object(Declared(kind, offered));
            var fields := Projected(kind, row);
            ScheduleProblem(kind, Declared(kind, offered)).None? <==>
              && Sentence(kind, fields) != NO_SCHEDULE && Trigger(kind, fields) != ""
              && (kind == Some("interval") ==> fields["minutes"] <= MAX_INTERVAL)
              && (kind == Some("calendar") ==> Given(offered, "weekday").Null? || Given(offered, "weekday").Whole?)
  {
    hide Sentence, Trigger;
    var fields := Projected(kind, Object(Declared(kind, offered)));
    SentenceIsMeaning(kind, fields, None, map[]);
    TriggerIsMeaning(kind, fields, None, map[]);
    SentenceSays(None, map[]);
    TriggerSays(None, map[]);
    DoorIsReadable(kind, offered);
  }

  lemma DoorIsReadable(kind: Option<string>, offered: map<string, Value>)
    ensures var fields := Projected(kind, Object(Declared(kind, offered)));
            ScheduleProblem(kind, Declared(kind, offered)).None? <==>
              && Readable(kind, fields)
              && (kind == Some("interval") ==> fields["minutes"] <= MAX_INTERVAL)
              && (kind == Some("calendar") ==> Given(offered, "weekday").Null? || Given(offered, "weekday").Whole?)
  {
  }

  /** What the door stores, and what is read back from it, describe one schedule. */
  lemma StoredIsWhatWasChecked(kind: Option<string>, offered: map<string, Value>)
    requires ScheduleProblem(kind, Declared(kind, offered)).None?
    ensures Projected(kind, Object(Declared(kind, offered))).Keys == Declared(kind, offered).Keys
    ensures forall f :: f in Declared(kind, offered) ==>
              Whole(Projected(kind, Object(Declared(kind, offered)))[f]) == offered[f]
  {
  }

  // ----- the whole preview --------------------------------------------------------------------------

  function Replaced(s: string, ch: char, code: string): string {
    if s == "" then "" else (if s[0] == ch then code else [s[0]]) + Replaced(s[1..], ch, code)
  }

  /** Three replacements, the ampersand first. */
  function Escaped(s: string): string {
    Replaced(Replaced(Replaced(s, '&', "&amp;"), '>', "&gt;"), '<', "&lt;")
  }

  function Code(ch: char): string {
    if ch == '&' then "&amp;" else if ch == '>' then "&gt;" else if ch == '<' then "&lt;" else [ch]
  }

  predicate NoTag(s: string) {
    forall k :: 0 <= k < |s| ==> s[k] != '<'
  }

  lemma {:induction false} ReplacedJoins(a: string, b: string, ch: char, code: string)
    ensures Replaced(a + b, ch, code) == Replaced(a, ch, code) + Replaced(b, ch, code)
  {
    if a == "" {
      assert a + b == b;
    } else {
      ReplacedJoins(a[1..], b, ch, code);
      assert (a + b)[1..] == a[1..] + b;
    }
  }

  lemma ReplacedOne(c: char, ch: char, code: string)
    ensures Replaced([c], ch, code) == if c == ch then code else [c]
  {
    var one := [c];
    assert one[1..] == "" && Replaced("", ch, code) == "";
  }

  lemma ReplacedNothing(s: string, ch: char, code: string)
    requires forall k :: 0 <= k < |s| ==> s[k] != ch
    ensures Replaced(s, ch, code) == s
  {
  }

  /** Done in that order, the three replacements never meet: each character gets its own code. */
  lemma EscapedOne(s: string)
    requires s != ""
    ensures Escaped(s) == Code(s[0]) + Escaped(s[1..])
  {
    hide Replaced;
    var a := Replaced(s[1..], '&', "&amp;");
    var b := Replaced(a, '>', "&gt;");
    var x := if s[0] == '&' then "&amp;" else [s[0]];
    assert [s[0]] + s[1..] == s;
    ReplacedJoins([s[0]], s[1..], '&', "&amp;");
    ReplacedOne(s[0], '&', "&amp;");
    ReplacedJoins(x, a, '>', "&gt;");
    ReplacedNothing("&amp;", '>', "&gt;");
    ReplacedOne(s[0], '>', "&gt;");
    var y := if s[0] == '&' then "&amp;" else if s[0] == '>' then "&gt;" else [s[0]];
    ReplacedJoins(y, b, '<', "&lt;");
    ReplacedNothing("&amp;", '<', "&lt;");
    ReplacedNothing("&gt;", '<', "&lt;");
    ReplacedOne(s[0], '<', "&lt;");
  }

  lemma {:induction false} EscapedHasNoTag(s: string)
    ensures NoTag(Escaped(s))
  {
    if s != "" {
      EscapedOne(s);
      EscapedHasNoTag(s[1..]);
    }
  }

  /** Escaping loses nothing: different texts stay different. */
  lemma {:induction false} EscapedTellsApart(s: string, t: string)
    ensures Escaped(s) == Escaped(t) <==> s == t
  {
    if s != "" {
      EscapedOne(s);
    }
    if t != "" {
      EscapedOne(t);
    }
    if s != "" && t != "" && Escaped(s) == Escaped(t) {
      CodesDiffer(s[0], Escaped(s[1..]), t[0], Escaped(t[1..]));
      EscapedTellsApart(s[1..], t[1..]);
      assert s == [s[0]] + s[1..] && t == [t[0]] + t[1..];
    }
  }

  lemma CodesDiffer(c: char, rest: string, d: char, rest': string)
    requires Code(c) + rest == Code(d) + rest'
    ensures c == d && rest == rest'
  {
    var a, b := Code(c) + rest, Code(d) + rest';
    assert a[0] == Code(c)[0] && b[0] == Code(d)[0];
    if c in "&><" && d in "&><" {
      assert a[1] == Code(c)[1] && b[1] == Code(d)[1];
    }
    assert c == d;
    Prefixed(Code(c), rest, rest');
  }

  const HEAD :=
    "<?xml version=\"1.0\" encoding=\"UTF-8\"?>\n<!DOCTYPE plist PUBLIC \"-//Apple//DTD PLIST 1.0//EN\" " +
    "\"http://www.apple.com/DTDs/PropertyList-1.0.dtd\">\n<plist version=\"1.0\">\n<dict>\n" +
    "    <key>Label</key>\n    <string>"

  const END_STRING := "</string>\n"

  const MIDDLE :=
    "    <key>ProgramArguments</key>\n    <array>\n        <string>/bin/sh</string>\n" +
    "        <string>-c</string>\n        <string>"

  const CLOSE := "    </array>\n"
  const TAIL := "</dict>\n</plist>\n"

  function PlistText(named: string, command: string, kind: Option<string>, stored: Stored): string {
    HEAD + (Escaped(named) +
        (END_STRING + (MIDDLE +
            (Escaped(command) + (END_STRING + (CLOSE + (Trigger(kind, Projected(kind, stored)) + TAIL)))))))
  }

  lemma UpToTag(x: string, rest: string, y: string, rest': string)
    requires NoTag(x) && NoTag(y) && rest != "" && rest' != "" && rest[0] == rest'[0] == '<'
    ensures x + rest == y + rest' <==> x == y && rest == rest'
  {
    var a, b := x + rest, y + rest';
    if a == b {
      assert a[|x|] == '<' && b[|y|] == '<';
      assert x == a[..|x|] && y == b[..|y|] && rest == a[|x|..] && rest' == b[|y|..];
    }
  }

  lemma Suffixed(a: string, b: string, tail: string)
    ensures a + tail == b + tail <==> a == b
  {
    if a + tail == b + tail {
      assert (a + tail)[..|a|] == a && (b + tail)[..|b|] == b;
    }
  }

  /** What somebody read before arming is the whole of it: one preview, one label, one command, one schedule. */
  lemma PreviewSaysAll(named: string, command: string, k: Option<string>, s: Stored, named': string, command': string,
                       k': Option<string>, s': Stored)
    ensures PlistText(named, command, k, s) == PlistText(named', command', k', s') <==>
              && named == named' && command == command'
              && Sentence(k, Projected(k, s)) == Sentence(k', Projected(k', s'))
  {
    hide Escaped, Trigger, Sentence, Projected;
    var t, t' := Trigger(k, Projected(k, s)), Trigger(k', Projected(k', s'));
    var end, end' := END_STRING + (CLOSE + (t + TAIL)), END_STRING + (CLOSE + (t' + TAIL));
    var arguments, arguments' := MIDDLE + (Escaped(command) + end), MIDDLE + (Escaped(command') + end');
    var mid, mid' := END_STRING + arguments, END_STRING + arguments';
    TheTwoAgree(k, s, k', s');
    EscapedHasNoTag(named);
    EscapedHasNoTag(named');
    EscapedHasNoTag(command);
    EscapedHasNoTag(command');
    Prefixed(HEAD, Escaped(named) + mid, Escaped(named') + mid');
    UpToTag(Escaped(named), mid, Escaped(named'), mid');
    Prefixed(END_STRING, arguments, arguments');
    Prefixed(MIDDLE, Escaped(command) + end, Escaped(command') + end');
    UpToTag(Escaped(command), end, Escaped(command'), end');
    Prefixed(END_STRING, CLOSE + (t + TAIL), CLOSE + (t' + TAIL));
    Prefixed(CLOSE, t + TAIL, t' + TAIL);
    Suffixed(t, t', TAIL);
    EscapedTellsApart(named, named');
    EscapedTellsApart(command, command');
  }
}
