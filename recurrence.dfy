/** The recurrence rule: the termination-mode normaliser (setRecurringMode), the parsing
    of the byday value that generate_recurring_dates does before calling the rule
    evaluator, and the evaluator itself as an abstract date generator of which the
    core takes at most MaxOccurrences dates. */
module Recurrence {
  import opened Types

  /** The cap of itertools.islice(..., 0, 200) on every expansion. */
  const MaxOccurrences: nat := 200

  // ---------------------------------------------------------------------------
  // Termination-mode normaliser

  /** count and until agree with endRepeatMode. */
  predicate ModeConsistent(rule: Rule) {
    && (rule.endRepeatMode == Some("unlimited") ==> rule.count.None? && rule.until.None?)
    && (rule.endRepeatMode == Some("count") ==> rule.until.None?)
    && (rule.endRepeatMode == Some("until") ==> rule.count.None?)
  }

  /** The modes under which the normaliser clears count, respectively until. */
  predicate ClearsCount(mode: Option<string>) {
    mode == Some("unlimited") || mode == Some("until")
  }

  predicate ClearsUntil(mode: Option<string>) {
    mode == Some("unlimited") || mode == Some("count")
  }

  /** The rule-level effect of setRecurringMode: the result is mode-consistent, and it
      differs from the input only by count or until set to None, each only when the mode
      requires it. */
  function NormaliseRule(rule: Rule): (r: Rule)
    ensures ModeConsistent(r)
    ensures r.(count := rule.count, until := rule.until) == rule
    ensures r.count != rule.count ==> r.count.None? && ClearsCount(rule.endRepeatMode)
    ensures r.until != rule.until ==> r.until.None? && ClearsUntil(rule.endRepeatMode)
  {
    if rule.endRepeatMode == Some("unlimited") then rule.(count := None, until := None)
    else if rule.endRepeatMode == Some("count") then rule.(until := None)
    else if rule.endRepeatMode == Some("until") then rule.(count := None)
    else rule
  }

  /** The four termination modes, one by one. */
  lemma NormaliseModes(rule: Rule)
    ensures rule.endRepeatMode == Some("unlimited") ==>
      NormaliseRule(rule) == rule.(count := None, until := None)
    ensures rule.endRepeatMode == Some("count") ==> NormaliseRule(rule) == rule.(until := None)
    ensures rule.endRepeatMode == Some("until") ==> NormaliseRule(rule) == rule.(count := None)
    ensures !ClearsCount(rule.endRepeatMode) && !ClearsUntil(rule.endRepeatMode) ==>
      NormaliseRule(rule) == rule
  {
  }

  /** The rules the normaliser leaves alone are exactly the mode-consistent ones. */
  lemma NormaliseFixpoints(rule: Rule)
    ensures NormaliseRule(rule) == rule <==> ModeConsistent(rule)
  {
  }

  /** setRecurringMode(event): normalises dates.recurring_rule when there is one. */
  function SetRecurringMode(e: Event): (r: Event)
    ensures r.(dates := e.dates) == e
    ensures r.dates.(rule := e.dates.rule) == e.dates
    ensures r.dates.rule.Some? == e.dates.rule.Some?
    ensures e.dates.rule.Some? ==> r.dates.rule == Some(NormaliseRule(e.dates.rule.value))
  {
    match e.dates.rule
    case None => e
    case Some(rule) => e.(dates := e.dates.(rule := Some(NormaliseRule(rule))))
  }

  /** setRecurringMode(updates): the same on an update patch, whose dates may be missing. */
  function SetRecurringModeOnUpdates(u: Updates): (r: Updates)
    ensures r.(dates := u.dates) == u
    ensures r.dates.Some? == u.dates.Some?
    ensures u.dates.Some? ==> r.dates.value.(rule := u.dates.value.rule) == u.dates.value
    ensures u.dates.Some? ==> r.dates.value.rule.Some? == u.dates.value.rule.Some?
    ensures u.dates.Some? && u.dates.value.rule.Some? ==>
      r.dates.value.rule == Some(NormaliseRule(u.dates.value.rule.value))
  {
    match u.dates
    case None => u
    case Some(p) =>
      match p.rule
      case None => u
      case Some(rule) => u.(dates := Some(p.(rule := Some(NormaliseRule(rule)))))
  }

  /** Normalising twice is normalising once. */
  lemma SetRecurringModeIdempotent(e: Event, u: Updates)
    ensures SetRecurringMode(SetRecurringMode(e)) == SetRecurringMode(e)
    ensures SetRecurringModeOnUpdates(SetRecurringModeOnUpdates(u)) == SetRecurringModeOnUpdates(u)
  {
    if e.dates.rule.Some? {
      NormaliseFixpoints(NormaliseRule(e.dates.rule.value));
    }
    if u.dates.Some? && u.dates.value.rule.Some? {
      NormaliseFixpoints(NormaliseRule(u.dates.value.rule.value));
    }
  }

  // ---------------------------------------------------------------------------
  // byday parsing

  datatype Weekday = MO | TU | WE | TH | FR | SA | SU

  /** The two-letter code of a weekday (the keys of DAYS). */
  function Code(d: Weekday): string {
    match d
    case MO => "MO"
    case TU => "TU"
    case WE => "WE"
    case TH => "TH"
    case FR => "FR"
    case SA => "SA"
    case SU => "SU"
  }

  /** DAYS.get(code): the weekday whose code is `code`, if any. */
  function DayOf(code: string): (r: Option<Weekday>)
    ensures r.Some? ==> Code(r.value) == code
  {
    if |code| != 2 then None
    else match (code[0], code[1])
      case ('M', 'O') => Some(MO)
      case ('T', 'U') => Some(TU)
      case ('W', 'E') => Some(WE)
      case ('T', 'H') => Some(TH)
      case ('F', 'R') => Some(FR)
      case ('S', 'A') => Some(SA)
      case ('S', 'U') => Some(SU)
      case _ => None
  }

  /** The byweekday argument handed to the rule evaluator: one weekday with its ordinal in
      the period (`1FR`, `-2MO`), or a list of plain weekdays. */
  datatype ByWeekday = Nth(day: Weekday, n: int) | Days(days: seq<Weekday>)

  predicate IsOrdinalDigit(c: char) {
    '1' <= c <= '5'
  }

  /** re.match(r'^-?[1-5]+.*', s): an optional minus sign followed by a digit 1 to 5. */
  predicate OrdinalForm(s: string) {
    (|s| >= 1 && IsOrdinalDigit(s[0])) || (|s| >= 2 && s[0] == '-' && IsOrdinalDigit(s[1]))
  }

  function DigitValue(c: char): int {
    c as int - '0' as int
  }

  function Abs(n: int): nat {
    if n < 0 then -n else n
  }

  /** The characters str.split() separates words at (the ASCII ones). */
  predicate IsSpace(c: char) {
    c == ' ' || c == '\t' || c == '\n' || c == '\r' || c == '\U{000B}' || c == '\U{000C}'
    || ('\U{001C}' <= c <= '\U{001F}')
  }

  /** No character of w is whitespace. */
  predicate NoSpaces(w: string) {
    w == [] || (!IsSpace(w[0]) && NoSpaces(w[1..]))
  }

  /** A non-empty string without whitespace: what str.split() returns as one item. */
  predicate IsWord(w: string) {
    w != [] && NoSpaces(w)
  }

  /** s without its leading whitespace. */
  function SkipSpaces(s: string): (r: string)
    ensures |r| <= |s|
    ensures r == [] || !IsSpace(r[0])
  {
    if s != [] && IsSpace(s[0]) then SkipSpaces(s[1..]) else s
  }

  /** The longest prefix of s without whitespace. */
  function Word(s: string): (w: string)
    ensures |w| <= |s|
    ensures s != [] && !IsSpace(s[0]) ==> w != []
  {
    if s == [] || IsSpace(s[0]) then [] else [s[0]] + Word(s[1..])
  }

  /** str.split() with no separator: the words of s, in order. */
  function Tokens(s: string): (ts: seq<string>)
    decreases |s|
  {
    var t := SkipSpaces(s);
    if t == [] then [] else
      var w := Word(t);
      [w] + Tokens(t[|w|..])
  }

  /** Every word is a DAYS code. */
  predicate AllCodes(tokens: seq<string>) {
    forall i :: 0 <= i < |tokens| ==> DayOf(tokens[i]).Some?
  }

  /** [DAYS.get(d) for d in tokens] as the rule evaluator takes it: rrule reads the weekday
      of every item, so a word that is not a DAYS code (a None item) raises, at the first
      such word. */
  function WeekdaysOf(tokens: seq<string>): (r: Result<seq<Weekday>>)
    ensures r.Ok? <==> AllCodes(tokens)
    ensures r.Ok? ==> |r.value| == |tokens|
    ensures r.Ok? ==> forall i :: 0 <= i < |tokens| ==> DayOf(tokens[i]) == Some(r.value[i])
    ensures r.Err? ==>
      exists i :: (0 <= i < |tokens| && DayOf(tokens[i]).None? &&
                   r.error == UnknownWeekday(tokens[i]) && AllCodes(tokens[..i]))
    decreases |tokens|
  {
    if tokens == [] then Ok([])
    else match DayOf(tokens[0])
      case None =>
        assert AllCodes(tokens[..0]);
        Err(UnknownWeekday(tokens[0]))
      case Some(d) =>
        match WeekdaysOf(tokens[1..])
        case Err(e) =>
          assert exists i :: (0 <= i < |tokens| && DayOf(tokens[i]).None? &&
                              e == UnknownWeekday(tokens[i]) && AllCodes(tokens[..i])) by {
            var j :| 0 <= j < |tokens[1..]| && DayOf(tokens[1..][j]).None? &&
              e == UnknownWeekday(tokens[1..][j]) && AllCodes(tokens[1..][..j]);
            assert tokens[..j + 1] == [tokens[0]] + tokens[1..][..j];
            var pre := tokens[..j + 1];
            assert AllCodes(pre) by {
              forall i | 0 <= i < |pre| ensures DayOf(pre[i]).Some? {
                if i > 0 {
                  assert pre[i] == tokens[1..][..j][i - 1];
                }
              }
            }
            assert DayOf(tokens[j + 1]).None? && e == UnknownWeekday(tokens[j + 1]);
          }
          Err(e)
        case Ok(ds) => Ok([d] + ds)
  }

  /** The ordinal of an ordinal-form value: the digit after an optional '-', negative with
      the '-' (int(byday[:2]) or int(byday[:1])). */
  function OrdinalOf(s: string): (n: int)
    requires OrdinalForm(s)
    ensures 1 <= Abs(n) <= 5
    ensures n < 0 <==> s[0] == '-'
    ensures Abs(n) == DigitValue(if s[0] == '-' then s[1] else s[0])
  {
    if s[0] == '-' then -DigitValue(s[1]) else DigitValue(s[0])
  }

  /** The weekday part of an ordinal-form value: everything after its ordinal. */
  function OrdinalCode(s: string): (code: string)
    requires OrdinalForm(s)
    ensures s == (if s[0] == '-' then s[..2] else s[..1]) + code
  {
    if s[0] == '-' then s[2..] else s[1..]
  }

  /** The byday interpretation of generate_recurring_dates.  An ordinal form gives one
      (weekday, ordinal) pair; any other non-empty value is a list of weekday codes, one
      per word; an empty or absent value, or one with no words, gives None.  A weekday
      part or a word that is not a DAYS code raises: after an ordinal when the DAYS entry
      is called, in a list when the rule evaluator reads it. */
  function ParseByDay(byday: Option<string>): (r: Result<Option<ByWeekday>>)
    ensures byday.None? || byday == Some("") ==> r == Ok(None)
    ensures byday.Some? && OrdinalForm(byday.value) ==>
      var code := OrdinalCode(byday.value);
      && (r.Err? <==> DayOf(code).None?)
      && (r.Err? ==> r.error == UnknownWeekday(code))
      && (r.Ok? ==> r.value == Some(Nth(DayOf(code).value, OrdinalOf(byday.value))))
    ensures byday.Some? && !OrdinalForm(byday.value) ==>
      var ts := Tokens(byday.value);
      && (r.Err? <==> !AllCodes(ts))
      && (r.Err? ==> exists i :: 0 <= i < |ts| && DayOf(ts[i]).None? && r.error == UnknownWeekday(ts[i]))
      && (r.Ok? && ts == [] ==> r.value.None?)
      && (r.Ok? && ts != [] ==>
            && r.value.Some? && r.value.value.Days? && |r.value.value.days| == |ts|
            && forall i :: 0 <= i < |ts| ==> Code(r.value.value.days[i]) == ts[i])
  {
    match byday
    case None => Ok(None)
    case Some(s) =>
      if OrdinalForm(s) then
        var code := OrdinalCode(s);
        match DayOf(code)
        case None => Err(UnknownWeekday(code))
        case Some(d) => Ok(Some(Nth(d, OrdinalOf(s))))
      else
        var ts := Tokens(s);
        if ts == [] then Ok(None)
        else
          match WeekdaysOf(ts)
          case Err(e) => Err(e)
          case Ok(days) => Ok(Some(Days(days)))
  }

  /** The text of an ordinal byday value, such as "1FR" or "-2MO". */
  function OrdinalText(d: Weekday, n: int): string
    requires 1 <= Abs(n) <= 5
  {
    (if n < 0 then "-" else "") + ['0' + (Abs(n) as char)] + Code(d)
  }

  /** Every ordinal value the UI can write parses back to its weekday and ordinal. */
  lemma ParseOrdinalRoundTrip(d: Weekday, n: int)
    requires 1 <= Abs(n) <= 5
    ensures ParseByDay(Some(OrdinalText(d, n))) == Ok(Some(Nth(d, n)))
  {
    var s := OrdinalText(d, n);
    if n < 0 {
      assert s[2..] == Code(d);
    } else {
      assert s[1..] == Code(d);
    }
  }

  /** Words joined by single spaces. */
  function Join(ws: seq<string>): string
    decreases |ws|
  {
    if |ws| == 0 then "" else if |ws| == 1 then ws[0] else ws[0] + " " + Join(ws[1..])
  }

  function Codes(ds: seq<Weekday>): (r: seq<string>)
    ensures |r| == |ds| && forall i :: 0 <= i < |ds| ==> r[i] == Code(ds[i])
  {
    seq(|ds|, i requires 0 <= i < |ds| => Code(ds[i]))
  }

  lemma {:induction false} WordOfPrefix(w: string, t: string)
    requires NoSpaces(w)
    requires t == [] || IsSpace(t[0])
    ensures Word(w + t) == w
    decreases |w|
  {
    if w == [] {
      assert w + t == t;
    } else {
      assert (w + t)[1..] == w[1..] + t;
      WordOfPrefix(w[1..], t);
      assert [w[0]] + w[1..] == w;
    }
  }

  lemma TokensOfWord(w: string, t: string)
    requires IsWord(w)
    requires t == [] || IsSpace(t[0])
    ensures Tokens(w + t) == [w] + Tokens(t)
  {
    var s := w + t;
    assert s[0] == w[0];
    assert SkipSpaces(s) == s;
    WordOfPrefix(w, t);
    assert s[|w|..] == t;
  }

  lemma SkipOneSpace(rest: string)
    ensures Tokens(" " + rest) == Tokens(rest)
  {
    assert (" " + rest)[1..] == rest;
    assert SkipSpaces(" " + rest) == SkipSpaces(rest);
  }

  /** str.split() undoes joining words with single spaces. */
  lemma {:induction false} TokensOfJoin(ws: seq<string>)
    requires forall i :: 0 <= i < |ws| ==> IsWord(ws[i])
    ensures Tokens(Join(ws)) == ws
    decreases |ws|
  {
    if |ws| == 0 {
    } else if |ws| == 1 {
      TokensOfSingle(ws);
    } else {
      TokensOfJoin(ws[1..]);
      TokensOfCons(ws);
    }
  }

  lemma TokensOfSingle(ws: seq<string>)
    requires |ws| == 1 && IsWord(ws[0])
    ensures Tokens(Join(ws)) == ws
  {
    var w := ws[0];
    assert Join(ws) == w;
    assert Tokens([]) == [];
    assert w + [] == w;
    TokensOfWord(w, []);
    assert [w] == ws;
  }

  lemma TokensOfCons(ws: seq<string>)
    requires |ws| >= 2 && IsWord(ws[0])
    requires Tokens(Join(ws[1..])) == ws[1..]
    ensures Tokens(Join(ws)) == ws
  {
    var rest := Join(ws[1..]);
    JoinCons(ws);
    TokensOfWord(ws[0], " " + rest);
    SkipOneSpace(rest);
    assert [ws[0]] + ws[1..] == ws;
  }

  lemma JoinCons(ws: seq<string>)
    requires |ws| >= 2
    ensures Join(ws) == ws[0] + (" " + Join(ws[1..]))
  {
  }

  /** What the parser needs to know of a weekday code. */
  lemma CodeFacts(d: Weekday)
    ensures DayOf(Code(d)) == Some(d)
    ensures IsWord(Code(d))
    ensures Code(d)[0] != '-' && !IsOrdinalDigit(Code(d)[0])
  {
  }

  lemma JoinStart(ws: seq<string>)
    requires ws != [] && ws[0] != []
    ensures Join(ws) != [] && Join(ws)[0] == ws[0][0]
  {
    if |ws| > 1 {
      assert Join(ws) == ws[0] + (" " + Join(ws[1..]));
    }
  }

  /** A space-separated list of weekday codes parses to that list of weekdays, in order. */
  lemma ParseDaysRoundTrip(ds: seq<Weekday>)
    requires ds != []
    ensures ParseByDay(Some(Join(Codes(ds)))) == Ok(Some(Days(ds)))
  {
    var cs := Codes(ds);
    forall i | 0 <= i < |cs| ensures IsWord(cs[i]) && DayOf(cs[i]) == Some(ds[i]) {
      CodeFacts(ds[i]);
    }
    TokensOfJoin(cs);
    var s := Join(cs);
    CodeFacts(ds[0]);
    JoinStart(cs);
    assert !OrdinalForm(s);
    var days := WeekdaysOf(cs).value;
    assert days == ds;
  }

  lemma {:induction false} TokensOfBlank(s: string)
    requires forall i :: 0 <= i < |s| ==> IsSpace(s[i])
    ensures SkipSpaces(s) == [] && Tokens(s) == []
    decreases |s|
  {
    if s != [] {
      TokensOfBlank(s[1..]);
    }
  }

  /** A value made only of whitespace has no words and gives None. */
  lemma ParseBlankByDay(s: string)
    requires forall i :: 0 <= i < |s| ==> IsSpace(s[i])
    ensures ParseByDay(Some(s)) == Ok(None)
  {
    TokensOfBlank(s);
  }

  /** A list with a word that is not a DAYS code raises at that word, as rrule reads the
      None that DAYS.get gives for it. */
  lemma ParseUnknownWordRaises()
    ensures ParseByDay(Some("MO XX")) == Err(UnknownWeekday("XX"))
  {
    var ws := ["MO", "XX"];
    assert IsWord(ws[0]) && IsWord(ws[1]);
    assert Join(ws) == "MO XX";
    TokensOfJoin(ws);
  }

  /** Lower case and comma-separated codes are not DAYS codes: both raise. */
  lemma ParseNonCodeWordRaises()
    ensures ParseByDay(Some("mo")) == Err(UnknownWeekday("mo"))
    ensures ParseByDay(Some("MO,TU")) == Err(UnknownWeekday("MO,TU"))
  {
    assert IsWord("mo") && IsWord("MO,TU");
    TokensOfSingle(["mo"]);
    TokensOfSingle(["MO,TU"]);
  }

  /** A 0 ordinal is outside the ordinal form, so "0FR" is read as one word, which is not
      a DAYS code: it raises. */
  lemma ParseZeroOrdinalRaises()
    ensures ParseByDay(Some("0FR")) == Err(UnknownWeekday("0FR"))
  {
    assert !OrdinalForm("0FR") && IsWord("0FR");
    TokensOfSingle(["0FR"]);
  }

  /** The ordinal value "-2MON" of the source's own comment raises: its weekday part "MON"
      is not a DAYS code. */
  lemma ParseThreeLetterOrdinalRaises()
    ensures ParseByDay(Some("-2MON")) == Err(UnknownWeekday("MON"))
    ensures ParseByDay(Some("2FRI")) == Err(UnknownWeekday("FRI"))
  {
    assert OrdinalCode("-2MON") == "MON";
    assert OrdinalCode("2FRI") == "FRI";
  }

  // ---------------------------------------------------------------------------
  // The date generator

  /** The arguments of the rule evaluator (dateutil's rrule after the timezone shift). */
  datatype DateQuery = DateQuery(
    start: Instant,
    frequency: string,
    interval: int,
    until: Option<Instant>,
    byweekday: Option<ByWeekday>,
    count: Option<int>,
    tz: Option<string>)

  /** The rule evaluator with its timezone conversions: for a query, the ascending
      occurrence starts it yields, cut anywhere at or after MaxOccurrences elements
      when the rule itself is unbounded. */
  type Generator = DateQuery -> seq<Instant>

  /** `tz=dates.get('tz') and pytz.timezone(...)`: an empty zone name means none. */
  function TimezoneArg(tz: Option<string>): (r: Option<string>)
    ensures r.Some? <==> tz.Some? && tz.value != ""
    ensures r.Some? ==> r == tz
  {
    if tz.Some? && tz.value != "" then tz else None
  }

  /** generate_recurring_dates(start=..., tz=..., **rule) up to the call of rrule: it fails
      exactly when byday does not parse, and otherwise passes the rule's bounds through. */
  function QueryFor(start: Instant, tz: Option<string>, rule: Rule): (r: Result<DateQuery>)
    ensures r.Err? <==> ParseByDay(rule.byday).Err?
    ensures r.Ok? ==>
      && r.value.start == start && r.value.frequency == rule.frequency
      && r.value.interval == rule.interval.GetOr(1)
      && r.value.count == rule.count && r.value.until == rule.until
      && r.value.tz == TimezoneArg(tz)
      && r.value.byweekday == ParseByDay(rule.byday).value
  {
    match ParseByDay(rule.byday)
    case Err(e) => Err(e)
    case Ok(byweekday) =>
      Ok(DateQuery(start, rule.frequency, rule.interval.GetOr(1), rule.until, byweekday, rule.count, TimezoneArg(tz)))
  }

  /** itertools.islice(dates, 0, 200): the first MaxOccurrences dates, or all of them. */
  function Materialize(gen: Generator, q: DateQuery): (r: seq<Instant>)
    ensures r <= gen(q)
    ensures |r| == if |gen(q)| <= MaxOccurrences then |gen(q)| else MaxOccurrences
  {
    if |gen(q)| <= MaxOccurrences then gen(q) else gen(q)[..MaxOccurrences]
  }

  // ---------------------------------------------------------------------------
  // A concrete generator for simple rules

  /** The length in seconds of one DAILY or WEEKLY period. */
  function Period(frequency: string): Option<int> {
    if frequency == "DAILY" then Some(86400)
    else if frequency == "WEEKLY" then Some(7 * 86400)
    else None
  }

  /** The queries SimpleGenerator covers: DAILY or WEEKLY, a positive interval, no byday
      and no timezone. */
  predicate SimpleQuery(q: DateQuery) {
    Period(q.frequency).Some? && q.interval >= 1 && q.byweekday.None? && q.tz.None?
  }

  function Min(a: int, b: int): int {
    if a <= b then a else b
  }

  /** How many dates a simple rule yields: count when it is set, the steps that fit up to
      and including until when that is set, and MaxOccurrences when the rule is unlimited. */
  function SimpleLength(q: DateQuery, step: int): nat
    requires step > 0
  {
    var byUntil: nat := if q.until.None? then 0
                        else if q.until.value < q.start then 0
                        else (q.until.value - q.start) / step + 1;
    var byCount: nat := if q.count.None? || q.count.value < 0 then 0 else q.count.value;
    if q.count.None? && q.until.None? then MaxOccurrences
    else if q.count.None? then byUntil
    else if q.until.None? then byCount
    else Min(byCount, byUntil)
  }

  /** Every interval-th day or week from start.  Queries outside SimpleQuery yield nothing. */
  function SimpleGenerator(q: DateQuery): (r: seq<Instant>)
  {
    if !SimpleQuery(q) then []
    else
      var step := Period(q.frequency).value * q.interval;
      var n := SimpleLength(q, step);
      seq(n, k requires 0 <= k < n => q.start + k * step)
  }

  lemma StepPositive(q: DateQuery)
    requires SimpleQuery(q)
    ensures Period(q.frequency).value * q.interval >= Period(q.frequency).value > 0
  {
    var p := Period(q.frequency).value;
    assert p > 0;
    assert p * q.interval == p + p * (q.interval - 1);
  }

  /** The dates of a simple rule start at start, ascend by one step each, and with a count
      of N (at most MaxOccurrences) and no until there are exactly N of them. */
  lemma SimpleGeneratorShape(q: DateQuery)
    requires SimpleQuery(q)
    ensures var r := Materialize(SimpleGenerator, q);
            && (r != [] ==> r[0] == q.start)
            && (forall k :: 0 <= k < |r| - 1 ==> r[k] < r[k + 1])
            && (q.count.Some? && q.until.None? && 0 <= q.count.value <= MaxOccurrences ==> |r| == q.count.value)
            && (q.count.None? && q.until.None? ==> |r| == MaxOccurrences)
  {
    StepPositive(q);
    var step := Period(q.frequency).value * q.interval;
    var r := Materialize(SimpleGenerator, q);
    forall k | 0 <= k < |r| - 1 ensures r[k] < r[k + 1] {
      assert r[k] == q.start + k * step && r[k + 1] == q.start + (k + 1) * step;
      assert (k + 1) * step == k * step + step;
    }
  }

  lemma MulBelow(k: int, m: int, step: int)
    requires 0 <= k <= m && step > 0
    ensures k * step <= m * step
  {
    assert m * step == k * step + (m - k) * step;
    assert (m - k) * step >= 0;
  }

  /** No date of a simple rule lies after its until bound. */
  lemma SimpleGeneratorUntil(q: DateQuery)
    requires SimpleQuery(q) && q.until.Some?
    ensures forall k :: 0 <= k < |Materialize(SimpleGenerator, q)| ==>
      Materialize(SimpleGenerator, q)[k] <= q.until.value
  {
    StepPositive(q);
    var step := Period(q.frequency).value * q.interval;
    var r := Materialize(SimpleGenerator, q);
    forall k | 0 <= k < |r| ensures r[k] <= q.until.value {
      var m := (q.until.value - q.start) / step;
      assert k <= m;
      MulBelow(k, m, step);
      assert m * step <= q.until.value - q.start;
    }
  }
}
