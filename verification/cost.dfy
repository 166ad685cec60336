/**
 The cost report: the assistant messages of a log are summed by day and provider, and the sums are then added up in
 two orders. Amounts are exact reals, so that the order of addition is the only difference.
 */
module Cost {
  import opened Messages

  datatype DayCost = DayCost(
    total: real, input: real, output: real, cacheRead: real, cacheWrite: real, requests: int)

  const ZERO := DayCost(0.0, 0.0, 0.0, 0.0, 0.0, 0)

  function Plus(a: DayCost, b: DayCost): DayCost {
    DayCost(a.total + b.total, a.input + b.input, a.output + b.output, a.cacheRead + b.cacheRead,
            a.cacheWrite + b.cacheWrite, a.requests + b.requests)
  }

  /** The amounts of one message; any of them may be missing. */
  datatype Amounts = Amounts(
    total: Option<real>, input: Option<real>, output: Option<real>, cacheRead: Option<real>,
    cacheWrite: Option<real>)

  function OrZero(amount: Option<real>): real {
    if amount.Some? then amount.value else 0.0
  }

  /** A parsed line. The day is missing when the time stamp is not a date, which is an exception of the source. */
  datatype Entry = Entry(
    isMessage: bool, fromAssistant: bool, amounts: Option<Amounts>, provider: string, day: Option<string>)

  datatype Line = Blank | Malformed | Parsed(entry: Entry)

  /** A session file; the date is missing when its name does not start with one. */
  datatype LogFile = LogFile(date: Option<int>, lines: seq<Line>)

  datatype Charge = Charge(day: string, provider: string, cost: DayCost)

  // ----- What is counted -----

  predicate Counts(line: Line) {
    && line.Parsed? && line.entry.isMessage && line.entry.fromAssistant
    && line.entry.amounts.Some? && line.entry.day.Some?
  }

  function ChargeOf(line: Line): Charge
    requires Counts(line)
  {
    var a := line.entry.amounts.value;
    Charge(line.entry.day.value, line.entry.provider,
           DayCost(OrZero(a.total), OrZero(a.input), OrZero(a.output), OrZero(a.cacheRead), OrZero(a.cacheWrite), 1))
  }

  function ChargesOf(lines: seq<Line>): seq<Charge> {
    if lines == [] then []
    else
      var last := lines[|lines| - 1];
      ChargesOf(lines[..|lines| - 1]) + if Counts(last) then [ChargeOf(last)] else []
  }

  /** A file is left out only if its date is known to be too old. */
  predicate Included(file: LogFile, cutoff: int) {
    file.date.None? || file.date.value >= cutoff
  }

  function AllCharges(files: seq<LogFile>, cutoff: int): seq<Charge> {
    if files == [] then []
    else
      var last := files[|files| - 1];
      AllCharges(files[..|files| - 1], cutoff) + if Included(last, cutoff) then ChargesOf(last.lines) else []
  }

  // ----- Sums -----

  /** The sum of the charges on some days for some providers. */
  function SumOf(charges: seq<Charge>, days: set<string>, providers: set<string>): DayCost {
    if charges == [] then ZERO
    else
      var last := charges[|charges| - 1];
      var front := SumOf(charges[..|charges| - 1], days, providers);
      if last.day in days && last.provider in providers then Plus(front, last.cost) else front
  }

  function SumOfAll(charges: seq<Charge>): DayCost {
    if charges == [] then ZERO else Plus(SumOfAll(charges[..|charges| - 1]), charges[|charges| - 1].cost)
  }

  function DaysOf(charges: seq<Charge>): set<string> {
    set c | c in charges :: c.day
  }

  function ProvidersOf(charges: seq<Charge>): set<string> {
    set c | c in charges :: c.provider
  }

  lemma SumNext(charges: seq<Charge>, c: Charge, days: set<string>, providers: set<string>)
    ensures SumOf(charges + [c], days, providers)
            == if c.day in days && c.provider in providers then Plus(SumOf(charges, days, providers), c.cost)
               else SumOf(charges, days, providers)
  {
    assert (charges + [c])[..|charges|] == charges;
  }

  lemma {:induction false} OneMoreDay(charges: seq<Charge>, days: set<string>, day: string, providers: set<string>)
    requires day !in days
    ensures SumOf(charges, days + {day}, providers)
            == Plus(SumOf(charges, days, providers), SumOf(charges, {day}, providers))
  {
    if charges == [] {
    } else {
      OneMoreDay(charges[..|charges| - 1], days, day, providers);
    }
  }

  lemma {:induction false} OneMoreProvider(
      charges: seq<Charge>, days: set<string>, providers: set<string>, provider: string)
    requires provider !in providers
    ensures SumOf(charges, days, providers + {provider})
            == Plus(SumOf(charges, days, providers), SumOf(charges, days, {provider}))
  {
    if charges == [] {
    } else {
      OneMoreProvider(charges[..|charges| - 1], days, providers, provider);
    }
  }

  lemma {:induction false} NothingFromNothing(charges: seq<Charge>, days: set<string>, providers: set<string>)
    requires days == {} || providers == {}
    ensures SumOf(charges, days, providers) == ZERO
  {
    if charges == [] {
    } else {
      NothingFromNothing(charges[..|charges| - 1], days, providers);
    }
  }

  /** Only the providers that occur on the days matter. */
  lemma {:induction false} OnlyOccurringProvidersMatter(
      charges: seq<Charge>, days: set<string>, some: set<string>, all: set<string>)
    requires forall c :: c in charges && c.day in days ==> (c.provider in some <==> c.provider in all)
    ensures SumOf(charges, days, some) == SumOf(charges, days, all)
  {
    if charges == [] {
    } else {
      OnlyOccurringProvidersMatter(charges[..|charges| - 1], days, some, all);
    }
  }

  lemma {:induction false} EveryDayAndProvider(charges: seq<Charge>, days: set<string>, providers: set<string>)
    requires forall c :: c in charges ==> c.day in days && c.provider in providers
    ensures SumOf(charges, days, providers) == SumOfAll(charges)
  {
    if charges == [] {
    } else {
      EveryDayAndProvider(charges[..|charges| - 1], days, providers);
    }
  }

  lemma {:induction false} OneRequestPerLine(lines: seq<Line>)
    ensures forall c :: c in ChargesOf(lines) ==> c.cost.requests == 1
  {
    if lines == [] {
    } else {
      OneRequestPerLine(lines[..|lines| - 1]);
    }
  }

  lemma {:induction false} OneRequestPerCharge(files: seq<LogFile>, cutoff: int)
    ensures forall c :: c in AllCharges(files, cutoff) ==> c.cost.requests == 1
  {
    if files == [] {
    } else {
      OneRequestPerCharge(files[..|files| - 1], cutoff);
      OneRequestPerLine(files[|files| - 1].lines);
    }
  }

  lemma RequestsAreCounted(files: seq<LogFile>, cutoff: int)
    ensures SumOfAll(AllCharges(files, cutoff)).requests == |AllCharges(files, cutoff)|
  {
    OneRequestPerCharge(files, cutoff);
    RequestsAddUp(AllCharges(files, cutoff));
  }

  lemma {:induction false} RequestsAddUp(charges: seq<Charge>)
    requires forall c :: c in charges ==> c.cost.requests == 1
    ensures SumOfAll(charges).requests == |charges|
  {
    if charges == [] {
    } else {
      RequestsAddUp(charges[..|charges| - 1]);
    }
  }

  // ----- The same sums, said of the log -----

  /** What a log entry adds to a row: its five amounts, and itself as one request. */
  datatype Component = Total | Input | Output | CacheRead | CacheWrite | Requests

  function Part(cost: DayCost, component: Component): real {
    match component
    case Total => cost.total
    case Input => cost.input
    case Output => cost.output
    case CacheRead => cost.cacheRead
    case CacheWrite => cost.cacheWrite
    case Requests => cost.requests as real
  }

  /** The amount a log entry states for a component; missing amounts are none. */
  function Stated(amounts: Amounts, component: Component): real {
    match (component, amounts)
    case (Total, Amounts(Some(amount), _, _, _, _)) => amount
    case (Input, Amounts(_, Some(amount), _, _, _)) => amount
    case (Output, Amounts(_, _, Some(amount), _, _)) => amount
    case (CacheRead, Amounts(_, _, _, Some(amount), _)) => amount
    case (CacheWrite, Amounts(_, _, _, _, Some(amount))) => amount
    case (Requests, _) => 1.0
    case _ => 0.0
  }

  /** The days or providers that are asked for. */
  datatype Choice = Any | Only(names: set<string>) {
    predicate Has(name: string) {
      Any? || name in names
    }
  }

  /** A line that states costs of an assistant message of a known day, and that is asked for. */
  predicate IsAskedFor(line: Line, days: Choice, providers: Choice) {
    match line
    case Parsed(Entry(true, true, Some(_), provider, Some(day))) => days.Has(day) && providers.Has(provider)
    case _ => false
  }

  function StatedIn(lines: seq<Line>, component: Component, days: Choice, providers: Choice): real {
    if lines == [] then 0.0
    else
      var last := lines[|lines| - 1];
      StatedIn(lines[..|lines| - 1], component, days, providers)
      + if IsAskedFor(last, days, providers) then Stated(last.entry.amounts.value, component) else 0.0
  }

  /** What a file states, unless it is known to be older than the cutoff. */
  function StatedInFile(
      file: LogFile, cutoff: int, component: Component, days: Choice, providers: Choice): real
  {
    match file.date
    case Some(date) => if date < cutoff then 0.0 else StatedIn(file.lines, component, days, providers)
    case None => StatedIn(file.lines, component, days, providers)
  }

  function StatedInLog(
      files: seq<LogFile>, cutoff: int, component: Component, days: Choice, providers: Choice): real
  {
    if files == [] then 0.0
    else
      StatedInLog(files[..|files| - 1], cutoff, component, days, providers)
      + StatedInFile(files[|files| - 1], cutoff, component, days, providers)
  }

  /** Among some charges, the two choices come to the same as these sets. */
  ghost predicate Choose(
      charges: seq<Charge>, days: Choice, providers: Choice, daySet: set<string>, providerSet: set<string>)
  {
    forall c :: c in charges ==>
      (days.Has(c.day) && providers.Has(c.provider) <==> c.day in daySet && c.provider in providerSet)
  }

  lemma ChargeStates(line: Line, days: Choice, providers: Choice)
    requires Counts(line)
    ensures days.Has(ChargeOf(line).day) && providers.Has(ChargeOf(line).provider)
            <==> IsAskedFor(line, days, providers)
    ensures forall component :: Part(ChargeOf(line).cost, component) == Stated(line.entry.amounts.value, component)
  {
  }

  lemma PlusAssociates(a: DayCost, b: DayCost, c: DayCost)
    ensures Plus(Plus(a, b), c) == Plus(a, Plus(b, c))
    ensures Plus(a, ZERO) == a
  {
  }

  lemma SumOfNothing(days: set<string>, providers: set<string>)
    ensures SumOf([], days, providers) == ZERO
  {
  }

  lemma {:induction false} SumAppends(
      a: seq<Charge>, b: seq<Charge>, days: set<string>, providers: set<string>)
    ensures SumOf(a + b, days, providers) == Plus(SumOf(a, days, providers), SumOf(b, days, providers))
  {
    hide SumOf, Plus;
    PlusAssociates(SumOf(a, days, providers), ZERO, ZERO);
    SumOfNothing(days, providers);
    if b == [] {
      assert a + b == a;
    } else {
      var n := |b| - 1;
      SumAppends(a, b[..n], days, providers);
      assert a + b == (a + b[..n]) + [b[n]] && b == b[..n] + [b[n]];
      SumNext(a + b[..n], b[n], days, providers);
      SumNext(b[..n], b[n], days, providers);
      PlusAssociates(SumOf(a, days, providers), SumOf(b[..n], days, providers), b[n].cost);
    }
  }

  lemma PlusByParts(a: DayCost, b: DayCost, component: Component)
    ensures Part(Plus(a, b), component) == Part(a, component) + Part(b, component)
  {
  }

  lemma OthersAreNotAskedFor(line: Line, days: Choice, providers: Choice)
    requires !Counts(line)
    ensures !IsAskedFor(line, days, providers)
  {
  }

  lemma OneMoreLine(
      front: seq<Charge>, line: Line, component: Component, days: Choice, providers: Choice,
      daySet: set<string>, providerSet: set<string>)
    requires Counts(line) && Choose(front + [ChargeOf(line)], days, providers, daySet, providerSet)
    ensures Choose(front, days, providers, daySet, providerSet)
    ensures Part(SumOf(front + [ChargeOf(line)], daySet, providerSet), component)
            == Part(SumOf(front, daySet, providerSet), component)
               + if IsAskedFor(line, days, providers) then Stated(line.entry.amounts.value, component) else 0.0
  {
    hide Part, Plus, Stated, SumOf, ChargeOf, IsAskedFor;
    var c := ChargeOf(line);
    assert c in front + [c];
    ChargeStates(line, days, providers);
    SumNext(front, c, daySet, providerSet);
    PlusByParts(SumOf(front, daySet, providerSet), c.cost, component);
  }

  lemma {:induction false} LinesStateTheirSum(
      lines: seq<Line>, component: Component, days: Choice, providers: Choice,
      daySet: set<string>, providerSet: set<string>)
    requires Choose(ChargesOf(lines), days, providers, daySet, providerSet)
    ensures Part(SumOf(ChargesOf(lines), daySet, providerSet), component)
            == StatedIn(lines, component, days, providers)
  {
    if lines == [] {
    } else {
      hide Part, Stated, SumOf, ChargeOf, IsAskedFor, Counts, Choose;
      var n := |lines| - 1;
      var front := ChargesOf(lines[..n]);
      if Counts(lines[n]) {
        OneMoreLine(front, lines[n], component, days, providers, daySet, providerSet);
      } else {
        assert front + [] == front;
        OthersAreNotAskedFor(lines[n], days, providers);
      }
      LinesStateTheirSum(lines[..n], component, days, providers, daySet, providerSet);
    }
  }

  function FileCharges(file: LogFile, cutoff: int): seq<Charge> {
    if Included(file, cutoff) then ChargesOf(file.lines) else []
  }

  lemma FileStatesItsSum(
      file: LogFile, cutoff: int, component: Component, days: Choice, providers: Choice,
      daySet: set<string>, providerSet: set<string>)
    requires Choose(FileCharges(file, cutoff), days, providers, daySet, providerSet)
    ensures Part(SumOf(FileCharges(file, cutoff), daySet, providerSet), component)
            == StatedInFile(file, cutoff, component, days, providers)
  {
    hide SumOf, StatedIn, ChargesOf;
    SumOfNothing(daySet, providerSet);
    if Included(file, cutoff) {
      LinesStateTheirSum(file.lines, component, days, providers, daySet, providerSet);
    }
  }

  /** Every sum of charges is, in each component, the sum of what the log states. */
  lemma {:induction false} ChargesAreWhatTheLogStates(
      files: seq<LogFile>, cutoff: int, component: Component, days: Choice, providers: Choice,
      daySet: set<string>, providerSet: set<string>)
    requires Choose(AllCharges(files, cutoff), days, providers, daySet, providerSet)
    ensures Part(SumOf(AllCharges(files, cutoff), daySet, providerSet), component)
            == StatedInLog(files, cutoff, component, days, providers)
  {
    if files == [] {
    } else {
      var n := |files| - 1;
      var front, more := AllCharges(files[..n], cutoff), FileCharges(files[n], cutoff);
      assert AllCharges(files, cutoff) == front + more;
      hide AllCharges, Part, Plus, SumOf, StatedInFile, FileCharges;
      ChargesAreWhatTheLogStates(files[..n], cutoff, component, days, providers, daySet, providerSet);
      FileStatesItsSum(files[n], cutoff, component, days, providers, daySet, providerSet);
      SumAppends(front, more, daySet, providerSet);
      PlusByParts(SumOf(front, daySet, providerSet), SumOf(more, daySet, providerSet), component);
    }
  }

  // ----- The table -----

  type Table = map<string, map<string, DayCost>>

  predicate Has(stats: Table, day: string, provider: string) {
    day in stats && provider in stats[day]
  }

  ghost predicate Occurs(charges: seq<Charge>, day: string, provider: string) {
    exists c :: c in charges && c.day == day && c.provider == provider
  }

  /** The table has a cell for every day and provider that occurs, and no other, with the sum of its charges. */
  ghost predicate Records(stats: Table, charges: seq<Charge>) {
    && (forall day, provider :: Has(stats, day, provider) <==> Occurs(charges, day, provider))
    && (forall day, provider :: Has(stats, day, provider) ==>
          stats[day][provider] == SumOf(charges, {day}, {provider}))
    && (forall day :: day in stats ==> stats[day] != map[])
  }

  lemma {:induction false} AbsentIsZero(charges: seq<Charge>, day: string, provider: string)
    requires !Occurs(charges, day, provider)
    ensures SumOf(charges, {day}, {provider}) == ZERO
  {
    if charges == [] {
    } else {
      assert charges[|charges| - 1] in charges;
      AbsentIsZero(charges[..|charges| - 1], day, provider);
    }
  }

  function RowOf(stats: Table, day: string): map<string, DayCost> {
    if day in stats then stats[day] else map[]
  }

  function ValueOf(row: map<string, DayCost>, provider: string): DayCost {
    if provider in row then row[provider] else ZERO
  }

  function Recorded(stats: Table, c: Charge): Table {
    var row := RowOf(stats, c.day);
    stats[c.day := row[c.provider := Plus(ValueOf(row, c.provider), c.cost)]]
  }

  lemma OccursNext(charges: seq<Charge>, c: Charge, day: string, provider: string)
    ensures Occurs(charges + [c], day, provider)
            <==> Occurs(charges, day, provider) || (c.day == day && c.provider == provider)
  {
    if Occurs(charges, day, provider) {
      var d :| d in charges && d.day == day && d.provider == provider;
      assert d in charges + [c];
    }
    assert c in charges + [c];
  }

  lemma RecordNext(stats: Table, charges: seq<Charge>, c: Charge)
    requires Records(stats, charges)
    ensures Records(Recorded(stats, c), charges + [c])
  {
    hide SumOf, Plus;
    var next := Recorded(stats, c);
    forall day, provider
      ensures Has(next, day, provider) <==> Occurs(charges + [c], day, provider)
      ensures Has(next, day, provider) ==> next[day][provider] == SumOf(charges + [c], {day}, {provider})
    {
      SumNext(charges, c, {day}, {provider});
      if !Occurs(charges, day, provider) {
        AbsentIsZero(charges, day, provider);
      }
      OccursNext(charges, c, day, provider);
      assert Has(next, day, provider)
             <==> Has(stats, day, provider) || (c.day == day && c.provider == provider);
    }
    assert c.provider in next[c.day];
  }

  // ----- Totals -----

  ghost predicate OccursOn(charges: seq<Charge>, days: set<string>, provider: string) {
    exists c :: c in charges && c.day in days && c.provider == provider
  }

  /**
   The totals by provider when `days` have been added, and of `day` the providers in `done`: a total for every
   provider met so far, over the days it has been met on.
   */
  ghost predicate TotalsSoFar(
      totals: map<string, DayCost>, charges: seq<Charge>, days: set<string>, day: string, done: set<string>)
  {
    forall provider ::
      var seen := if provider in done then days + {day} else days;
      && (provider in totals <==> OccursOn(charges, seen, provider))
      && ValueOf(totals, provider) == SumOf(charges, seen, {provider})
  }

  ghost predicate AreTotals(totals: map<string, DayCost>, charges: seq<Charge>, days: set<string>) {
    forall provider ::
      && (provider in totals <==> OccursOn(charges, days, provider))
      && ValueOf(totals, provider) == SumOf(charges, days, {provider})
  }

  lemma OccursOnOneMore(charges: seq<Charge>, days: set<string>, day: string, provider: string)
    ensures OccursOn(charges, days + {day}, provider)
            <==> OccursOn(charges, days, provider) || Occurs(charges, day, provider)
  {
    if Occurs(charges, day, provider) {
      var c :| c in charges && c.day == day && c.provider == provider;
      assert c.day in days + {day};
    }
    if OccursOn(charges, days, provider) {
      var c :| c in charges && c.day in days && c.provider == provider;
      assert c.day in days + {day};
    }
  }

  lemma AddProvider(
      totals: map<string, DayCost>, charges: seq<Charge>, stats: Table, days: set<string>, day: string,
      done: set<string>, provider: string)
    requires Records(stats, charges) && Has(stats, day, provider)
    requires day !in days && provider !in done
    requires TotalsSoFar(totals, charges, days, day, done)
    ensures TotalsSoFar(totals[provider := Plus(ValueOf(totals, provider), stats[day][provider])],
                        charges, days, day, done + {provider})
  {
    hide SumOf, Plus;
    OneMoreDay(charges, days, day, {provider});
    OccursOnOneMore(charges, days, day, provider);
  }

  lemma StartDay(totals: map<string, DayCost>, charges: seq<Charge>, days: set<string>, day: string)
    requires AreTotals(totals, charges, days)
    ensures TotalsSoFar(totals, charges, days, day, {})
  {
  }

  lemma FinishDay(
      totals: map<string, DayCost>, charges: seq<Charge>, stats: Table, days: set<string>, day: string)
    requires Records(stats, charges) && day in stats && day !in days
    requires TotalsSoFar(totals, charges, days, day, stats[day].Keys)
    ensures AreTotals(totals, charges, days + {day})
  {
    hide SumOf;
    forall provider
      ensures provider in totals <==> OccursOn(charges, days + {day}, provider)
      ensures ValueOf(totals, provider) == SumOf(charges, days + {day}, {provider})
    {
      if provider !in stats[day] {
        assert !Has(stats, day, provider);
        OneMoreDay(charges, days, day, {provider});
        OccursOnOneMore(charges, days, day, provider);
        AbsentIsZero(charges, day, provider);
      }
    }
  }

  /** The sum along one row of the table is the sum of all charges of the day. */
  lemma RowIsWhole(charges: seq<Charge>, stats: Table, day: string)
    requires Records(stats, charges) && day in stats
    ensures SumOf(charges, {day}, stats[day].Keys) == SumOf(charges, {day}, ProvidersOf(charges))
  {
    forall c | c in charges && c.day in {day}
      ensures c.provider in stats[day].Keys <==> c.provider in ProvidersOf(charges)
    {
      assert Occurs(charges, day, c.provider);
      assert Has(stats, day, c.provider);
    }
    OnlyOccurringProvidersMatter(charges, {day}, stats[day].Keys, ProvidersOf(charges));
  }

  /** The days of the table are the days of the charges. */
  lemma TableHasTheDays(charges: seq<Charge>, stats: Table)
    requires Records(stats, charges)
    ensures stats.Keys == DaysOf(charges)
    ensures stats == map[] <==> charges == []
  {
    forall c | c in charges ensures c.day in stats {
      assert Occurs(charges, c.day, c.provider);
      assert Has(stats, c.day, c.provider);
    }
    forall day | day in stats ensures day in DaysOf(charges) {
      assert stats[day].Keys != {};
      var provider :| provider in stats[day];
      assert Has(stats, day, provider);
    }
    assert stats == map[] <==> stats.Keys == {};
    assert charges != [] ==> charges[0].day in DaysOf(charges);
  }

  ghost predicate AreDayTotals(dayTotals: map<string, real>, charges: seq<Charge>, days: set<string>) {
    && dayTotals.Keys == days
    && forall day :: day in days ==> dayTotals[day] == SumOf(charges, {day}, ProvidersOf(charges)).total
  }

  lemma AddDay(dayTotals: map<string, real>, charges: seq<Charge>, days: set<string>, day: string)
    requires AreDayTotals(dayTotals, charges, days)
    ensures AreDayTotals(dayTotals[day := SumOf(charges, {day}, ProvidersOf(charges)).total], charges, days + {day})
  {
    hide SumOf, ProvidersOf;
  }

  lemma GrandTotalGrows(charges: seq<Charge>, days: set<string>, day: string)
    requires day !in days
    ensures var all := ProvidersOf(charges);
            SumOf(charges, days + {day}, all).total
            == SumOf(charges, days, all).total + SumOf(charges, {day}, all).total
  {
    hide SumOf;
    OneMoreDay(charges, days, day, ProvidersOf(charges));
  }

  lemma DayTotalGrows(charges: seq<Charge>, stats: Table, day: string, done: set<string>, provider: string)
    requires Records(stats, charges) && Has(stats, day, provider) && provider !in done
    ensures SumOf(charges, {day}, done + {provider}).total
            == SumOf(charges, {day}, done).total + stats[day][provider].total
  {
    hide SumOf;
    OneMoreProvider(charges, {day}, done, provider);
  }

  lemma WholeTable(charges: seq<Charge>)
    ensures SumOf(charges, DaysOf(charges), ProvidersOf(charges)) == SumOfAll(charges)
  {
    EveryDayAndProvider(charges, DaysOf(charges), ProvidersOf(charges));
  }

  function SumOver(totals: map<string, DayCost>, listing: seq<string>): DayCost {
    if listing == [] then ZERO
    else Plus(SumOver(totals, listing[..|listing| - 1]), ValueOf(totals, listing[|listing| - 1]))
  }

  ghost predicate NoRepeats(listing: seq<string>) {
    forall i, j :: 0 <= i < j < |listing| ==> listing[i] != listing[j]
  }

  function Listed(listing: seq<string>): set<string> {
    set provider | provider in listing
  }

  lemma ListedNext(listing: seq<string>)
    requires listing != [] && NoRepeats(listing)
    ensures var n := |listing| - 1;
            && NoRepeats(listing[..n])
            && listing[n] !in Listed(listing[..n])
            && Listed(listing) == Listed(listing[..n]) + {listing[n]}
  {
  }

  lemma TotalIsSum(totals: map<string, DayCost>, charges: seq<Charge>, days: set<string>, provider: string)
    requires AreTotals(totals, charges, days)
    ensures ValueOf(totals, provider) == SumOf(charges, days, {provider})
  {
  }

  lemma {:induction false} TotalsAddUpOver(
      totals: map<string, DayCost>, charges: seq<Charge>, days: set<string>, listing: seq<string>)
    requires AreTotals(totals, charges, days) && NoRepeats(listing)
    ensures SumOver(totals, listing) == SumOf(charges, days, Listed(listing))
  {
    hide AreTotals, SumOf, Plus, ValueOf;
    if listing == [] {
      NothingFromNothing(charges, days, Listed(listing));
    } else {
      var n := |listing| - 1;
      ListedNext(listing);
      hide NoRepeats, Listed;
      TotalsAddUpOver(totals, charges, days, listing[..n]);
      TotalIsSum(totals, charges, days, listing[n]);
      OneMoreProvider(charges, days, Listed(listing[..n]), listing[n]);
    }
  }

  /**
   The totals by provider, added up in any order, are the sum of all charges. The grand total is that sum too, so
   the two orders of addition agree.
   */
  lemma TwoOrdersAgree(totals: map<string, DayCost>, charges: seq<Charge>, listing: seq<string>)
    requires AreTotals(totals, charges, DaysOf(charges))
    requires NoRepeats(listing) && Listed(listing) == totals.Keys
    ensures SumOver(totals, listing) == SumOfAll(charges)
  {
    hide SumOf;
    TotalsAddUpOver(totals, charges, DaysOf(charges), listing);
    forall c | c in charges ensures c.provider in Listed(listing) {
      assert OccursOn(charges, DaysOf(charges), c.provider);
      assert c.provider in totals;
    }
    EveryDayAndProvider(charges, DaysOf(charges), Listed(listing));
  }

  /** What is left of a set of keys, and what has been visited. */
  ghost predicate Visiting(all: set<string>, left: set<string>, visited: set<string>) {
    left + visited == all && left !! visited
  }

  lemma Visit(all: set<string>, left: set<string>, visited: set<string>, key: string)
    requires Visiting(all, left, visited) && key in left
    ensures Visiting(all, left - {key}, visited + {key})
    ensures key in all && key !in visited && |left - {key}| < |left|
  {
    assert |left - {key}| == |left| - 1;
  }

  lemma VisitedAll(all: set<string>, visited: set<string>)
    requires Visiting(all, {}, visited)
    ensures visited == all
  {
  }

  // ----- The report -----

  /** The variables of the program. The day totals are what it prints below each day. */
  class Report {
    var stats: Table
    var dayTotals: map<string, real>
    var grandTotal: real
    var providerTotals: map<string, DayCost>

    constructor ()
      ensures stats == map[] && dayTotals == map[] && grandTotal == 0.0 && providerTotals == map[]
    {
      stats, dayTotals, grandTotal, providerTotals := map[], map[], 0.0, map[];
    }

    method AddLine(line: Line)
      modifies `stats
      ensures stats == if Counts(line) then Recorded(old(stats), ChargeOf(line)) else old(stats)
    {
      if !line.Parsed? || !line.entry.isMessage || !line.entry.fromAssistant || line.entry.amounts.None? {
        return;
      }
      if line.entry.day.None? {
        return;
      }
      var day, provider, amounts := line.entry.day.value, line.entry.provider, line.entry.amounts.value;
      ghost var row := RowOf(stats, day);
      if day !in stats {
        stats := stats[day := map[]];
      }
      if provider !in stats[day] {
        stats := stats[day := stats[day][provider := ZERO]];
      }
      var s := stats[day][provider];
      s := s.(total := s.total + OrZero(amounts.total));
      s := s.(input := s.input + OrZero(amounts.input));
      s := s.(output := s.output + OrZero(amounts.output));
      s := s.(cacheRead := s.cacheRead + OrZero(amounts.cacheRead));
      s := s.(cacheWrite := s.cacheWrite + OrZero(amounts.cacheWrite));
      s := s.(requests := s.requests + 1);
      stats := stats[day := stats[day][provider := s]];
      assert s == Plus(ValueOf(row, provider), ChargeOf(line).cost);
      assert stats[day] == row[provider := s];
    }

    method AddLines(lines: seq<Line>, ghost before: seq<Charge>)
      requires Records(stats, before)
      modifies `stats
      ensures Records(stats, before + ChargesOf(lines))
    {
      hide Records, Recorded, Counts, ChargeOf;
      assert before + [] == before;
      for k := 0 to |lines|
        invariant Records(stats, before + ChargesOf(lines[..k]))
      {
        ghost var charges := before + ChargesOf(lines[..k]);
        assert lines[..k + 1][..k] == lines[..k];
        if Counts(lines[k]) {
          RecordNext(stats, charges, ChargeOf(lines[k]));
          assert before + ChargesOf(lines[..k + 1]) == charges + [ChargeOf(lines[k])];
        } else {
          assert before + ChargesOf(lines[..k + 1]) == charges;
        }
        AddLine(lines[k]);
      }
      assert lines[..|lines|] == lines;
    }

    /** The accumulation loop. */
    method Accumulate(files: seq<LogFile>, cutoff: int)
      requires stats == map[]
      modifies `stats
      ensures Records(stats, AllCharges(files, cutoff))
    {
      for k := 0 to |files|
        invariant Records(stats, AllCharges(files[..k], cutoff))
      {
        hide Records, ChargesOf;
        assert files[..k + 1][..k] == files[..k];
        ghost var charges := AllCharges(files[..k], cutoff);
        if files[k].date.Some? && files[k].date.value < cutoff {
          assert charges + [] == charges;
          continue;
        }
        AddLines(files[k].lines, charges);
      }
      assert files[..|files|] == files;
    }

    /** All totals stand for the charges of these days. */
    ghost predicate AddedUp(charges: seq<Charge>, days: set<string>)
      reads this
    {
      && AreTotals(providerTotals, charges, days)
      && AreDayTotals(dayTotals, charges, days)
      && grandTotal == SumOf(charges, days, ProvidersOf(charges)).total
    }

    method AddToProvider(provider: string, s: DayCost)
      modifies `providerTotals
      ensures providerTotals == old(providerTotals)[provider := Plus(ValueOf(old(providerTotals), provider), s)]
    {
      if provider !in providerTotals {
        providerTotals := providerTotals[provider := ZERO];
      }
      var t := providerTotals[provider];
      t := t.(total := t.total + s.total);
      t := t.(input := t.input + s.input);
      t := t.(output := t.output + s.output);
      t := t.(cacheRead := t.cacheRead + s.cacheRead);
      t := t.(cacheWrite := t.cacheWrite + s.cacheWrite);
      t := t.(requests := t.requests + s.requests);
      providerTotals := providerTotals[provider := t];
    }

    /** The inner loop of the totals: the providers of a day, in any order. */
    method TotalProviders(day: string, ghost charges: seq<Charge>, ghost days: set<string>) returns (dayTotal: real)
      requires Records(stats, charges) && day in stats && day !in days
      requires AreTotals(providerTotals, charges, days)
      modifies `providerTotals
      ensures TotalsSoFar(providerTotals, charges, days, day, stats[day].Keys)
      ensures dayTotal == SumOf(charges, {day}, stats[day].Keys).total
    {
      hide Records, AreTotals, TotalsSoFar, SumOf, Plus, ValueOf;
      dayTotal := 0.0;
      var remaining := stats[day].Keys;
      ghost var all, done: set<string> := remaining, {};
      assert Visiting(all, remaining, done);
      hide Visiting;
      StartDay(providerTotals, charges, days, day);
      NothingFromNothing(charges, {day}, {});
      while remaining != {}
        invariant Visiting(all, remaining, done)
        invariant dayTotal == SumOf(charges, {day}, done).total
        invariant TotalsSoFar(providerTotals, charges, days, day, done)
        decreases |remaining|
      {
        var provider :| provider in remaining;
        Visit(all, remaining, done, provider);
        remaining := remaining - {provider};
        AddProvider(providerTotals, charges, stats, days, day, done, provider);
        DayTotalGrows(charges, stats, day, done, provider);
        var s := stats[day][provider];
        dayTotal := dayTotal + s.total;
        AddToProvider(provider, s);
        done := done + {provider};
      }
      VisitedAll(all, done);
    }

    /** One day of the totals loop. */
    method TotalDay(day: string, ghost charges: seq<Charge>, ghost days: set<string>)
      requires Records(stats, charges) && day in stats && day !in days
      requires AddedUp(charges, days)
      modifies `providerTotals, `dayTotals, `grandTotal
      ensures AddedUp(charges, days + {day})
    {
      hide Records, AreTotals, AreDayTotals, TotalsSoFar, SumOf, ProvidersOf;
      var dayTotal := TotalProviders(day, charges, days);
      FinishDay(providerTotals, charges, stats, days, day);
      RowIsWhole(charges, stats, day);
      AddDay(dayTotals, charges, days, day);
      GrandTotalGrows(charges, days, day);
      dayTotals := dayTotals[day := dayTotal];
      grandTotal := grandTotal + dayTotal;
    }

    /** The totals loop over the days, in any order. */
    method Total(ghost charges: seq<Charge>)
      requires Records(stats, charges)
      requires dayTotals == map[] && grandTotal == 0.0 && providerTotals == map[]
      modifies `providerTotals, `dayTotals, `grandTotal
      ensures AddedUp(charges, DaysOf(charges))
    {
      hide Records, SumOf, ProvidersOf, DaysOf, AreTotals, AreDayTotals, SumOfAll;
      var remaining := stats.Keys;
      ghost var all, days: set<string> := remaining, {};
      NoTotalsYet(charges);
      assert Visiting(all, remaining, days) && AddedUp(charges, days);
      hide Visiting, AddedUp;
      while remaining != {}
        invariant Visiting(all, remaining, days) && AddedUp(charges, days)
        decreases |remaining|
      {
        var day :| day in remaining;
        Visit(all, remaining, days, day);
        remaining := remaining - {day};
        TotalDay(day, charges, days);
        days := days + {day};
      }
      VisitedAll(all, days);
      TableHasTheDays(charges, stats);
    }
  }

  // ----- The report, said of the log -----

  /** A row holds, in every component, what the log states for these days and providers. */
  predicate StatesFor(row: DayCost, files: seq<LogFile>, cutoff: int, days: Choice, providers: Choice) {
    forall component :: Part(row, component) == StatedInLog(files, cutoff, component, days, providers)
  }

  /** Whether the log has an entry for these days and providers. */
  predicate HasEntry(files: seq<LogFile>, cutoff: int, days: Choice, providers: Choice) {
    StatedInLog(files, cutoff, Requests, days, providers) > 0.0
  }

  /** The table has the days and providers the log has entries for, and states for them what the log does. */
  ghost predicate CellsStateTheLog(stats: Table, files: seq<LogFile>, cutoff: int) {
    forall day, provider ::
      && (Has(stats, day, provider) <==> HasEntry(files, cutoff, Only({day}), Only({provider})))
      && (Has(stats, day, provider) ==>
            StatesFor(stats[day][provider], files, cutoff, Only({day}), Only({provider})))
  }

  ghost predicate ProvidersStateTheLog(totals: map<string, DayCost>, files: seq<LogFile>, cutoff: int) {
    forall provider ::
      && (provider in totals <==> HasEntry(files, cutoff, Any, Only({provider})))
      && (provider in totals ==> StatesFor(totals[provider], files, cutoff, Any, Only({provider})))
  }

  ghost predicate DaysStateTheLog(dayTotals: map<string, real>, files: seq<LogFile>, cutoff: int) {
    forall day ::
      && (day in dayTotals <==> HasEntry(files, cutoff, Only({day}), Any))
      && (day in dayTotals ==> dayTotals[day] == StatedInLog(files, cutoff, Total, Only({day}), Any))
  }

  lemma {:induction false} RequestsTell(charges: seq<Charge>, days: set<string>, providers: set<string>)
    requires forall c :: c in charges ==> c.cost.requests == 1
    ensures SumOf(charges, days, providers).requests >= 0
    ensures SumOf(charges, days, providers).requests > 0
            <==> exists c :: c in charges && c.day in days && c.provider in providers
  {
    if charges == [] {
    } else {
      var front, last := charges[..|charges| - 1], charges[|charges| - 1];
      assert charges == front + [last];
      RequestsTell(front, days, providers);
    }
  }

  /** What a choice comes to: a row that states what the log does, with an entry exactly if a charge is chosen. */
  lemma ChoiceStates(
      files: seq<LogFile>, cutoff: int, days: Choice, providers: Choice,
      daySet: set<string>, providerSet: set<string>)
    requires Choose(AllCharges(files, cutoff), days, providers, daySet, providerSet)
    ensures StatesFor(SumOf(AllCharges(files, cutoff), daySet, providerSet), files, cutoff, days, providers)
    ensures HasEntry(files, cutoff, days, providers)
            <==> exists c :: c in AllCharges(files, cutoff) && c.day in daySet && c.provider in providerSet
  {
    hide AllCharges, SumOf, StatedInLog, Choose;
    forall component
      ensures Part(SumOf(AllCharges(files, cutoff), daySet, providerSet), component)
              == StatedInLog(files, cutoff, component, days, providers)
    {
      ChargesAreWhatTheLogStates(files, cutoff, component, days, providers, daySet, providerSet);
    }
    OneRequestPerCharge(files, cutoff);
    RequestsTell(AllCharges(files, cutoff), daySet, providerSet);
    assert Part(SumOf(AllCharges(files, cutoff), daySet, providerSet), Requests) > 0.0
           <==> SumOf(AllCharges(files, cutoff), daySet, providerSet).requests > 0;
  }

  lemma CellsAreStated(stats: Table, files: seq<LogFile>, cutoff: int)
    requires Records(stats, AllCharges(files, cutoff))
    ensures CellsStateTheLog(stats, files, cutoff)
  {
    hide AllCharges, SumOf, StatesFor, HasEntry;
    var charges := AllCharges(files, cutoff);
    forall day, provider
      ensures Has(stats, day, provider) <==> HasEntry(files, cutoff, Only({day}), Only({provider}))
      ensures Has(stats, day, provider) ==>
                StatesFor(stats[day][provider], files, cutoff, Only({day}), Only({provider}))
    {
      ChoiceStates(files, cutoff, Only({day}), Only({provider}), {day}, {provider});
      assert Has(stats, day, provider) <==> Occurs(charges, day, provider);
    }
  }

  lemma ProvidersAreStated(totals: map<string, DayCost>, files: seq<LogFile>, cutoff: int)
    requires AreTotals(totals, AllCharges(files, cutoff), DaysOf(AllCharges(files, cutoff)))
    ensures ProvidersStateTheLog(totals, files, cutoff)
  {
    hide AllCharges, SumOf, StatesFor, HasEntry;
    var charges := AllCharges(files, cutoff);
    forall provider
      ensures provider in totals <==> HasEntry(files, cutoff, Any, Only({provider}))
      ensures provider in totals ==> StatesFor(totals[provider], files, cutoff, Any, Only({provider}))
    {
      ChoiceStates(files, cutoff, Any, Only({provider}), DaysOf(charges), {provider});
      assert provider in totals <==> OccursOn(charges, DaysOf(charges), provider);
      assert ValueOf(totals, provider) == SumOf(charges, DaysOf(charges), {provider});
    }
  }

  lemma DaysAreStated(dayTotals: map<string, real>, files: seq<LogFile>, cutoff: int)
    requires AreDayTotals(dayTotals, AllCharges(files, cutoff), DaysOf(AllCharges(files, cutoff)))
    ensures DaysStateTheLog(dayTotals, files, cutoff)
  {
    hide AllCharges, SumOf, HasEntry, StatedInLog;
    var charges := AllCharges(files, cutoff);
    forall day
      ensures day in dayTotals <==> HasEntry(files, cutoff, Only({day}), Any)
      ensures day in dayTotals ==> dayTotals[day] == StatedInLog(files, cutoff, Total, Only({day}), Any)
    {
      ChoiceStates(files, cutoff, Only({day}), Any, {day}, ProvidersOf(charges));
      assert Part(SumOf(charges, {day}, ProvidersOf(charges)), Total)
             == StatedInLog(files, cutoff, Total, Only({day}), Any);
      assert day in DaysOf(charges) <==>
             exists c :: c in charges && c.day in {day} && c.provider in ProvidersOf(charges);
    }
  }

  /** The sum of all charges is what the whole log states; there is none exactly if the log has no entry. */
  lemma AllIsStated(files: seq<LogFile>, cutoff: int)
    ensures StatesFor(SumOfAll(AllCharges(files, cutoff)), files, cutoff, Any, Any)
    ensures HasEntry(files, cutoff, Any, Any) <==> AllCharges(files, cutoff) != []
  {
    hide AllCharges, SumOf, SumOfAll, StatesFor, HasEntry;
    var charges := AllCharges(files, cutoff);
    WholeTable(charges);
    ChoiceStates(files, cutoff, Any, Any, DaysOf(charges), ProvidersOf(charges));
    if charges != [] {
      assert charges[0] in charges && charges[0].day in DaysOf(charges);
    }
  }

  lemma NoTotalsYet(charges: seq<Charge>)
    ensures AreTotals(map[], charges, {}) && AreDayTotals(map[], charges, {})
    ensures SumOf(charges, {}, ProvidersOf(charges)) == ZERO
  {
    NothingFromNothing(charges, {}, ProvidersOf(charges));
    forall provider: string ensures SumOf(charges, {}, {provider}) == ZERO {
      NothingFromNothing(charges, {}, {provider});
    }
  }

  /**
   The whole program: no report when the log has no entry that counts; otherwise the cells by day and provider, the
   totals by provider, by day and altogether are the sums of what the log states for them, in every component. The
   totals by provider add up to the grand total, in any order.
   */
  method Run(files: seq<LogFile>, cutoff: int) returns (report: Option<Report>)
    ensures report.Some? <==> HasEntry(files, cutoff, Any, Any)
    ensures match report
            case None => true
            case Some(r) =>
              && CellsStateTheLog(r.stats, files, cutoff)
              && ProvidersStateTheLog(r.providerTotals, files, cutoff)
              && DaysStateTheLog(r.dayTotals, files, cutoff)
              && r.grandTotal == StatedInLog(files, cutoff, Total, Any, Any)
              && (forall listing :: NoRepeats(listing) && Listed(listing) == r.providerTotals.Keys ==>
                    && SumOver(r.providerTotals, listing).total == r.grandTotal
                    && StatesFor(SumOver(r.providerTotals, listing), files, cutoff, Any, Any))
    ensures var charges := AllCharges(files, cutoff);
            match report
            case None => charges == []
            case Some(r) =>
              && charges != []
              && Records(r.stats, charges)
              && AreTotals(r.providerTotals, charges, DaysOf(charges))
              && r.grandTotal == SumOfAll(charges).total
              && AreDayTotals(r.dayTotals, charges, DaysOf(charges))
              && forall listing :: NoRepeats(listing) && Listed(listing) == r.providerTotals.Keys ==>
                   SumOver(r.providerTotals, listing).requests == |charges|
  {
    hide SumOf, SumOfAll, SumOver, Listed, NoRepeats, AreTotals, AreDayTotals, AllCharges, StatedInLog, DaysOf;
    hide HasEntry, CellsStateTheLog, ProvidersStateTheLog, DaysStateTheLog, Records;
    ghost var charges := AllCharges(files, cutoff);
    AllIsStated(files, cutoff);
    var r := new Report();
    r.Accumulate(files, cutoff);
    TableHasTheDays(charges, r.stats);
    if r.stats == map[] {
      return None;
    }
    r.Total(charges);
    CellsAreStated(r.stats, files, cutoff);
    ProvidersAreStated(r.providerTotals, files, cutoff);
    DaysAreStated(r.dayTotals, files, cutoff);
    WholeTable(charges);
    assert Part(SumOfAll(charges), Total) == StatedInLog(files, cutoff, Total, Any, Any);
    hide StatesFor;
    RequestsAreCounted(files, cutoff);
    forall listing | NoRepeats(listing) && Listed(listing) == r.providerTotals.Keys
      ensures SumOver(r.providerTotals, listing) == SumOfAll(charges)
    {
      TwoOrdersAgree(r.providerTotals, charges, listing);
    }
    report := Some(r);
  }
}
