/** The listed-symbols request and its on-disk artifacts, one per end date. */
module ListedSymbols {
  import opened Wrappers
  import opened CalendarDates

  // ── Resolving an end date against the catalog ──

  /** First and last day of data in a catalog. */
  type Bounds = b: (Date, Date) | !Before(b.1, b.0) witness (Day(1, 1, 1), Day(1, 1, 1))

  datatype Resolution = Within(date: string) | TooEarly(date: string)

  /** Late requests move to the last day; dates are compared as text. */
  function Resolve(b: Bounds, date: string): Resolution {
    var d := if Less(Format(b.1), date) then Format(b.1) else date;
    if Less(d, Format(b.0)) then TooEarly(d) else Within(d)
  }

  function Earlier(a: Date, b: Date): Date {
    if Before(b, a) then b else a
  }

  /** The resolution is the one the calendar asks for. */
  predicate ResolvesRightly(b: Bounds, date: string, day: Date) {
    var r := Resolve(b, date);
    Parse(r.date) == Some(Earlier(day, b.1)) && (r.TooEarly? <==> Before(day, b.0))
  }

  lemma PaddedResolvesRightly(b: Bounds, day: Date)
    ensures ResolvesRightly(b, Format(day), day)
  {
    hide Less, Format, Parse;
    FormatOrder(b.1, day);
    FormatOrder(b.1, b.0);
    FormatOrder(day, b.0);
    ParseFormat(b.1);
    ParseFormat(day);
  }

  lemma OneDigit(s: string)
    requires |s| == 1 && AllDigits(s)
    ensures s == [s[0]] && Value(s) == DigitValue(s[0])
  {
    assert s[..0] == "" && Value("") == 0;
  }

  /** A date that looks later than it is gets moved to a later last day. */
  lemma LooksLate(date: string, day: Date, last: Date)
    requires Less(Format(last), date) && Before(day, last)
    ensures !ResolvesRightly((last, last), date, day)
  {
    hide Less, Format, Parse;
    ParseFormat(last);
    LessTrichotomy(Format(last), Format(last));
  }

  /** A one-digit month sorts after every two-digit month up to October. */
  lemma ShortMonthIsClamped(date: string, day: Date)
    requires Parse(date) == Some(day) && |Split(date).value.month| == 1
    ensures exists b :: !ResolvesRightly(b, date, day)
  {
    hide Less, Format, Parse, Digits, Value, ResolvesRightly;
    ParsedShape(date, day);
    var f := Split(date).value;
    OneDigit(f.month);
    var last := Day(day.year, day.month + 1, 1);
    LaterMonthLooksEarlier(last, f.month[0], "-" + f.day);
    assert f.year + "-" + [f.month[0]] + ("-" + f.day) == date;
    LooksLate(date, day, last);
  }

  lemma LaterMonthLooksEarlier(last: Date, month: char, rest: string)
    requires 2 <= last.month <= 10 && IsDigit(month) && DigitValue(month) == last.month - 1
    ensures Pow10(4) == 10000 && Less(Format(last), Digits(last.year, 4) + "-" + [month] + rest)
  {
    assert Pow10(4) == 10000 && Pow10(2) == 100;
    var (y, m, d) := (Digits(last.year, 4), Digits(last.month, 2), Digits(last.day, 2));
    assert Digits(last.month / 10, 1)[..0] == "" && m[0] == Digit(last.month / 10);
    hide Digits;
    assert Format(last) == (y + "-") + (m + "-" + d) && y + "-" + [month] + rest == (y + "-") + ([month] + rest);
    LessAfterPrefix(y + "-", m + "-" + d, [month] + rest);
  }

  /** A one-digit day sorts after the following day. */
  lemma ShortDayIsClamped(date: string, day: Date)
    requires Parse(date) == Some(day) && |Split(date).value.month| == 2 && |Split(date).value.day| == 1
    ensures exists b :: !ResolvesRightly(b, date, day)
  {
    hide Less, Format, Parse, Digits, Value, ResolvesRightly;
    ParsedShape(date, day);
    var f := Split(date).value;
    OneDigit(f.day);
    var last := Day(day.year, day.month, day.day + 1);
    NextDayLooksEarlier(last, f.day[0]);
    assert f.year + "-" + f.month + "-" + [f.day[0]] == date;
    LooksLate(date, day, last);
  }

  lemma NextDayLooksEarlier(last: Date, day: char)
    requires 2 <= last.day <= 10 && IsDigit(day) && DigitValue(day) == last.day - 1
    ensures Pow10(4) == 10000 && Pow10(2) == 100
    ensures Less(Format(last), Digits(last.year, 4) + "-" + Digits(last.month, 2) + "-" + [day])
  {
    assert Pow10(4) == 10000 && Pow10(2) == 100;
    var (y, m, d) := (Digits(last.year, 4), Digits(last.month, 2), Digits(last.day, 2));
    assert Digits(last.day / 10, 1)[..0] == "" && d[0] == Digit(last.day / 10);
    hide Digits;
    LessAfterPrefix(y + "-" + m + "-", d, [day]);
  }

  /**
   * The text comparisons resolve a date rightly against every catalog exactly
   * when the date is written zero-padded.
   */
  lemma ResolvesRightlyIff(date: string, day: Date)
    requires Parse(date) == Some(day)
    ensures (forall b :: ResolvesRightly(b, date, day)) <==> date == Format(day)
  {
    if date == Format(day) {
      forall b ensures ResolvesRightly(b, date, day) {
        PaddedResolvesRightly(b, day);
      }
    } else {
      ParsedShape(date, day);
      var f := Split(date).value;
      if |f.month| == 1 {
        ShortMonthIsClamped(date, day);
      } else if |f.day| == 1 {
        ShortDayIsClamped(date, day);
      } else {
        LessTrichotomy(date, Format(day));
        LessTrichotomy(Format(day), Format(day));
        BlankDaySortsFirst(f, day);
        assert !ResolvesRightly((day, day), date, day);
      }
    }
  }

  lemma BlankDaySortsFirst(f: Fields, day: Date)
    requires Pow10(4) == 10000 && Pow10(2) == 100
    requires f.year == Digits(day.year, 4) && f.month == Digits(day.month, 2) && |f.day| == 2 && f.day[0] == ' '
    ensures Less(f.year + "-" + f.month + "-" + f.day, Format(day))
  {
    var d := Digits(day.day, 2);
    assert IsDigit(d[0]);
    hide Digits;
    LessAfterPrefix(f.year + "-" + f.month + "-", f.day, d);
  }

  // ── The scanned ids, sorted and without repeats ──

  predicate Ascending(xs: seq<string>) {
    forall i, j :: 0 <= i < j < |xs| ==> Less(xs[i], xs[j])
  }

  function Insert(xs: seq<string>, x: string): seq<string> {
    if xs == [] then [x]
    else if x == xs[0] then xs
    else if Less(x, xs[0]) then [x] + xs
    else [xs[0]] + Insert(xs[1..], x)
  }

  function SortedSet(ids: seq<string>): seq<string> {
    if ids == [] then [] else Insert(SortedSet(ids[1..]), ids[0])
  }

  lemma {:induction false} InsertMembers(xs: seq<string>, x: string, y: string)
    ensures y in Insert(xs, x) <==> y == x || y in xs
  {
    if xs != [] {
      assert xs == [xs[0]] + xs[1..];
      InsertMembers(xs[1..], x, y);
    }
  }

  lemma {:induction false} InsertAscending(xs: seq<string>, x: string)
    requires Ascending(xs)
    ensures Ascending(Insert(xs, x))
  {
    if xs != [] && x != xs[0] {
      LessTrichotomy(x, xs[0]);
      if Less(x, xs[0]) {
        forall j | 0 < j < |xs| ensures Less(x, xs[j]) {
          LessTransitive(x, xs[0], xs[j]);
        }
      } else {
        InsertAscending(xs[1..], x);
        var rest := Insert(xs[1..], x);
        forall j | 0 <= j < |rest| ensures Less(xs[0], rest[j]) {
          InsertMembers(xs[1..], x, rest[j]);
          assert rest[j] in rest;
        }
      }
    }
  }

  lemma {:induction false} SortedSetSorts(ids: seq<string>, y: string)
    ensures Ascending(SortedSet(ids)) && (y in SortedSet(ids) <==> y in ids)
  {
    if ids != [] {
      SortedSetSorts(ids[1..], y);
      InsertAscending(SortedSet(ids[1..]), ids[0]);
      InsertMembers(SortedSet(ids[1..]), ids[0], y);
    }
  }

  // ── The answer without artifacts ──

  /** A catalog's bounds, if it has bars, and the outcome of scanning it for instruments. */
  datatype Catalog = Catalog(bounds: Option<Bounds>, scan: Result<seq<string>, string>)

  datatype Response =
    | Symbols(ids: seq<string>, date: string)
    | InvalidDate
    | NoCatalog(date: string)
    | ScanFailed(message: string, date: string)

  function Scanned(c: Catalog, date: string): Response {
    match c.scan
    case Ok(ids) => Symbols(SortedSet(ids), date)
    case Err(message) => ScanFailed(message, date)
  }

  /** An empty end date asks for the catalog's last day, or for today. */
  function Requested(catalog: Option<Catalog>, endDate: string, today: string): string {
    if endDate != "" then endDate
    else if catalog.Some? && catalog.value.bounds.Some? then Format(catalog.value.bounds.value.1)
    else today
  }

  function AnswerFor(catalog: Option<Catalog>, date: string): Response {
    if catalog.None? then NoCatalog(date)
    else
      var c := catalog.value;
      if c.bounds.None? then Scanned(c, date)
      else
        match Resolve(c.bounds.value, date)
        case TooEarly(d) => Symbols([], d)
        case Within(d) => Scanned(c, d)
  }

  /** What a request answers when there are no artifacts. */
  function Answer(catalog: Option<Catalog>, endDate: string, today: string): Response {
    if endDate != "" && Parse(endDate).None? then InvalidDate
    else AnswerFor(catalog, Requested(catalog, endDate, today))
  }

  lemma ResolveIdempotent(b: Bounds, date: string)
    ensures Resolve(b, Resolve(b, date).date) == Resolve(b, date)
    ensures Resolve(b, Format(b.1)) == Within(Format(b.1))
  {
    hide Less, Format;
    LessTrichotomy(Format(b.1), Format(b.1));
    FormatOrder(b.1, b.0);
  }

  /** Asking again for the date that was answered gives the same answer. */
  lemma AnswerForResolved(catalog: Option<Catalog>, date: string)
    ensures var r := AnswerFor(catalog, date); r.Symbols? ==> AnswerFor(catalog, r.date) == r
  {
    hide Less, Format, Resolve;
    if catalog.Some? && catalog.value.bounds.Some? {
      ResolveIdempotent(catalog.value.bounds.value, date);
    }
  }

  /** For a zero-padded date the answer is the one the calendar asks for. */
  lemma AnswerByCalendar(c: Catalog, day: Date, today: string)
    requires c.bounds.Some?
    ensures var (first, last) := c.bounds.value;
            Answer(Some(c), Format(day), today) ==
            if Before(day, first) then Symbols([], Format(day)) else Scanned(c, Format(Earlier(day, last)))
  {
    var (first, last) := c.bounds.value;
    hide Less, Format, Parse;
    ParseFormat(day);
    FormatNonEmpty(day);
    FormatOrder(last, day);
    FormatOrder(last, first);
    FormatOrder(day, first);
  }

  /** The ids are those scanned, each once, in text order, under the date. */
  ghost predicate Answers(r: Response, scanned: seq<string>, date: string) {
    && r.Symbols? && r.date == date
    && (forall i, j :: 0 <= i < j < |r.ids| ==> Less(r.ids[i], r.ids[j]))
    && forall id :: id in r.ids <==> id in scanned
  }

  lemma SortedSetAnswers(scanned: seq<string>, date: string)
    ensures Answers(Symbols(SortedSet(scanned), date), scanned, date)
  {
    hide SortedSet, Less;
    SortedSetSorts(scanned, "");
    forall id ensures id in SortedSet(scanned) <==> id in scanned {
      SortedSetSorts(scanned, id);
    }
  }

  /** What the catalog answers under a date: its ids, or why it could not be scanned. */
  ghost predicate AnswersFor(r: Response, c: Catalog, date: string) {
    match c.scan
    case Ok(scanned) => Answers(r, scanned, date)
    case Err(message) => r == ScanFailed(message, date)
  }

  lemma ScannedAnswers(c: Catalog, date: string)
    ensures AnswersFor(Scanned(c, date), c, date)
  {
    hide SortedSet;
    if c.scan.Ok? {
      SortedSetAnswers(c.scan.value, date);
    }
  }

  /**
   * For a zero-padded date: nothing before the catalog's first day, and otherwise exactly the scanned
   * ids, under the date or the last day, whichever is earlier.
   */
  lemma AnsweredIds(c: Catalog, day: Date, today: string)
    requires c.bounds.Some?
    ensures var ((first, last), r) := (c.bounds.value, Answer(Some(c), Format(day), today));
            if Before(day, first) then r == Symbols([], Format(day))
            else AnswersFor(r, c, if Before(last, day) then Format(last) else Format(day))
  {
    var (first, last) := c.bounds.value;
    hide Less, Format, Parse, Scanned, AnswersFor, Answer;
    AnswerByCalendar(c, day, today);
    ScannedAnswers(c, Format(Earlier(day, last)));
  }

  /** An empty date asks for the last day. */
  lemma AnsweredLastDay(c: Catalog, today: string)
    requires c.bounds.Some?
    ensures AnswersFor(Answer(Some(c), "", today), c, Format(c.bounds.value.1))
  {
    var last := c.bounds.value.1;
    hide Less, Format, Parse, Scanned, AnswersFor, Resolve;
    ResolveIdempotent(c.bounds.value, Format(last));
    ScannedAnswers(c, Format(last));
  }

  /** Without dates in the catalog, or without a catalog, the date asked for or today is taken as it is. */
  lemma AnsweredElse(catalog: Option<Catalog>, endDate: string, today: string)
    ensures endDate != "" && Parse(endDate) == None ==> Answer(catalog, endDate, today) == InvalidDate
    ensures endDate == "" || Parse(endDate) != None ==>
              var date := if endDate == "" then today else endDate;
              && (catalog == None ==> Answer(catalog, endDate, today) == NoCatalog(date))
              && (catalog.Some? && catalog.value.bounds == None ==>
                    AnswersFor(Answer(catalog, endDate, today), catalog.value, date))
  {
    hide Less, Format, Parse, Scanned, AnswersFor;
    if catalog.Some? {
      ScannedAnswers(catalog.value, if endDate == "" then today else endDate);
    }
  }

  lemma FormatNonEmpty(day: Date)
    ensures Format(day) != ""
  {
    assert Pow10(4) == 10000 && Pow10(2) == 100;
  }

  // ── The handler and its artifact store ──

  /** Reads may miss, because the file cannot be read or used; writes may fail and then change nothing. */
  datatype Disk = Disk(fastRead: bool, read: bool, write: bool)

  class Handler {
    const catalog: Option<Catalog>
    var artifacts: map<string, seq<string>>

    /** Every artifact holds the ids its own date would be answered with. */
    ghost predicate Valid() reads this {
      forall d :: d in artifacts ==> AnswerFor(catalog, d) == Symbols(artifacts[d], d)
    }

    constructor (catalog: Option<Catalog>)
      ensures Valid() && this.catalog == catalog && artifacts == map[]
    {
      this.catalog, artifacts := catalog, map[];
    }

    method ReadArtifact(date: string, works: bool) returns (r: Option<seq<string>>)
      ensures r == if works && date in artifacts then Some(artifacts[date]) else None
    {
      r := if works && date in artifacts then Some(artifacts[date]) else None;
    }

    method WriteArtifactAtomic(date: string, ids: seq<string>, works: bool)
      modifies this
      ensures artifacts == if works then old(artifacts)[date := ids] else old(artifacts)
    {
      if works {
        artifacts := artifacts[date := ids];
      }
    }

    /** Whatever was asked before and whatever the disk did, the answer is the one without artifacts. */
    method ListAllListedSymbols(endDate: string, today: string, disk: Disk) returns (r: Response)
      requires Valid()
      modifies this
      ensures Valid()
      ensures r == Answer(catalog, endDate, today)
      ensures artifacts ==
              if r.Symbols? && disk.write then old(artifacts)[r.date := r.ids] else old(artifacts)
    {
      hide Less, Format, Parse, SortedSet;
      AnswerForResolved(catalog, Requested(catalog, endDate, today));
      if catalog.Some? && catalog.value.bounds.Some? {
        ResolveIdempotent(catalog.value.bounds.value, endDate);
        FormatNonEmpty(catalog.value.bounds.value.1);
      }
      var resolved := endDate;
      if resolved == "" {
        if catalog.Some? && catalog.value.bounds.Some? {
          resolved := Format(catalog.value.bounds.value.1);
        }
        if resolved == "" {
          resolved := today;
        }
      } else if Parse(resolved).None? {
        return InvalidDate;
      }
      if endDate != "" {
        var fast := ReadArtifact(resolved, disk.fastRead);
        if fast.Some? {
          return Symbols(fast.value, resolved);
        }
      }
      var beforeOldest := false;
      if endDate != "" && catalog.Some? {
        if catalog.value.bounds.Some? {
          var (oldest, latest) := catalog.value.bounds.value;
          if Less(Format(latest), resolved) {
            resolved := Format(latest);
          }
          if Less(resolved, Format(oldest)) {
            beforeOldest := true;
          }
        }
      }
      if beforeOldest {
        WriteArtifactAtomic(resolved, [], disk.write);
        return Symbols([], resolved);
      }
      var cached := ReadArtifact(resolved, disk.read);
      if cached.Some? {
        return Symbols(cached.value, resolved);
      }
      if catalog.None? {
        return NoCatalog(resolved);
      }
      match catalog.value.scan {
        case Err(message) =>
          r := ScanFailed(message, resolved);
        case Ok(scanned) =>
          var ids := SortedSet(scanned);
          WriteArtifactAtomic(resolved, ids, disk.write);
          r := Symbols(ids, resolved);
      }
    }
  }
}
