/** The log tail of the logs page (interface/src/pages/logs.py): `update_logs` polls the
    container's logs from a start bound up to the current time, keeps the stripped non-blank
    lines, advances a watermark when new lines arrive, shows all lines newest first, and
    sleeps briefly or long depending on whether anything arrived. The clock, the fetched
    text and the stop flag are inputs, one per iteration. */
module LogsPage {
  import opened Wrappers
  import opened PyText
  import opened Lists
  import YamlDoc

  // ---------------------------------------------------------------- the timing option

  /** An entry of the "Select Timing" box: `<seconds>/<span>`, or `all`. */
  datatype TimingOption = Window(count: string, span: string) | AllTime

  /** The text of the option, as `update_logs` receives it. */
  function OptionText(o: TimingOption): string {
    match o
    case Window(count, span) => count + "/" + span
    case AllTime => "all"
  }

  /** The shapes the box offers: a digit count, then a span without another `/`. */
  predicate WellFormed(o: TimingOption) {
    o.Window? ==> IsDigit(o.count) && '/' !in o.span
  }

  /** The five entries of the box, in order. */
  const TimingOptions: seq<TimingOption> :=
    [Window("60", "1min"), Window("300", "5min"), Window("1800", "30min"), Window("3600", "1hour"), AllTime]

  lemma TimingOptionsWellFormed()
    ensures forall i :: 0 <= i < |TimingOptions| ==> WellFormed(TimingOptions[i])
  {
    assert WellFormed(Window("60", "1min"));
    assert WellFormed(Window("300", "5min"));
    assert WellFormed(Window("1800", "30min"));
    assert WellFormed(Window("3600", "1hour"));
  }

  /** How a window's text splits on `/`: its count, then its span. */
  lemma WindowSplits(o: TimingOption)
    requires o.Window? && WellFormed(o)
    ensures Split(OptionText(o), '/') == [o.count, o.span]
  {
    assert OptionText(o) == o.count + ['/'] + o.span;
    SplitAtFirst(o.count, '/', o.span);
    SplitWithoutSep(o.span, '/');
  }

  /** `minutes_back`: `int` of the text before the first `/`, unless that text is `all`
      (the value is a number of seconds, whatever the name says). */
  function SecondsBack(o: TimingOption): (r: Option<nat>)
    requires WellFormed(o)
    ensures o.AllTime? ==> r.None?
    ensures o.Window? ==> r == Some(DecimalValue(o.count))
  {
    var head := Split(OptionText(o), '/')[0];
    if o.Window? then
      WindowSplits(o);
      assert head == o.count && head[0] != 'a';
      if head != "all" then Some(DecimalValue(head)) else None
    else
      None
  }

  /** The start of the fetch: the watermark when there is one, otherwise `end - seconds`
      when the option gives a non-zero number of seconds, otherwise no bound at all. */
  function StartBound(watermark: Option<int>, seconds: Option<nat>, end: int): (r: Option<int>)
    ensures watermark.Some? ==> r == watermark
    ensures watermark.None? && seconds.Some? && seconds.value != 0 ==> r == Some(end - seconds.value)
    ensures r.None? <==> watermark.None? && (seconds.None? || seconds.value == 0)
  {
    if watermark.Some? then watermark
    else if seconds.Some? && seconds.value != 0 then Some(end - seconds.value)
    else None
  }

  // ---------------------------------------------------------------- the lines

  /** A line as kept: not blank, not starting or ending with whitespace, no newline. */
  predicate LineOk(l: string) {
    l != [] && !IsSpace(l[0]) && !IsSpace(l[|l| - 1]) && '\n' !in l
  }

  predicate NonBlank(l: string) {
    l != []
  }

  /** `[log.strip() for log in text.split('\n')]`. */
  function StrippedPieces(text: string): seq<string>
  {
    var pieces := Split(text, '\n');
    seq(|pieces|, i requires 0 <= i < |pieces| => Strip(pieces[i]))
  }

  /** A stripped piece of a line without a newline is blank or a kept line. */
  lemma StripKeepsLine(s: string)
    requires '\n' !in s
    ensures Strip(s) != [] ==> LineOk(Strip(s))
  {
    var r := Strip(s);
    var k := StripOffset(s);
    StripShape(s);
    forall j | 0 <= j < |r| ensures r[j] != '\n' {
      assert r[j] == s[k + j];
    }
  }

  /** `new_logs`: the stripped pieces of the fetched text that are not blank, in order. */
  function NewLines(text: string): seq<string> {
    Filter(StrippedPieces(text), NonBlank)
  }

  /** Every new line is a kept line: not blank, stripped, without a newline. */
  lemma NewLinesOk(text: string)
    ensures forall i :: 0 <= i < |NewLines(text)| ==> LineOk(NewLines(text)[i])
  {
    var ps := StrippedPieces(text);
    SplitPiecesFree(text, '\n');
    forall j | 0 <= j < |ps| ensures ps[j] != [] ==> LineOk(ps[j]) {
      StripKeepsLine(Split(text, '\n')[j]);
    }
    var r := NewLines(text);
    FilterProperties(ps, NonBlank);
    forall i | 0 <= i < |r| ensures LineOk(r[i]) {
      assert r[i] in ps && r[i] != [];
    }
  }

  /** The new lines are exactly the non-blank stripped pieces, in their order: a
      subsequence of the pieces, all non-blank, one line per non-blank piece (so repeated
      lines are all kept). */
  lemma NewLinesAreKeptPieces(text: string)
    ensures IsSubsequence(NewLines(text), StrippedPieces(text))
    ensures forall i :: 0 <= i < |NewLines(text)| ==> NewLines(text)[i] != []
    ensures forall i :: 0 <= i < |StrippedPieces(text)| && StrippedPieces(text)[i] != [] ==>
              StrippedPieces(text)[i] in NewLines(text)
    ensures forall i :: 0 <= i < |NewLines(text)| ==> NewLines(text)[i] in StrippedPieces(text)
    ensures |NewLines(text)| == |set i | 0 <= i < |StrippedPieces(text)| && StrippedPieces(text)[i] != []|
  {
    var ps := StrippedPieces(text);
    assert NewLines(text) == Filter(ps, NonBlank);
    FilterProperties(ps, NonBlank);
    FilterLength(ps, NonBlank);
    assert KeptIndices(ps, NonBlank) == set i | 0 <= i < |ps| && ps[i] != [];
  }

  /** `"\n".join(reversed(all_logs))`: the text shown, newest line first. */
  function Render(allLogs: seq<string>): string {
    Join(Reversed(allLogs), '\n')
  }

  /** The shown text splits back into the lines, newest first. */
  lemma RenderSplits(allLogs: seq<string>)
    requires allLogs != []
    requires forall i :: 0 <= i < |allLogs| ==> LineOk(allLogs[i])
    ensures Split(Render(allLogs), '\n') == Reversed(allLogs)
  {
    var rev := Reversed(allLogs);
    forall k | 0 <= k < |rev| ensures '\n' !in rev[k] {
      assert LineOk(allLogs[|allLogs| - 1 - k]);
    }
    SplitJoin(rev, '\n');
  }

  const NoLogsPrefix := "No logs found in the last "

  /** The "no logs" message AS WRITTEN: `'No logs found in the last ' + text.split('/')[1]`,
      which raises IndexError for `all`, whose text has no `/`. */
  function NoLogsMessageAsWritten(o: TimingOption): (r: Result<string, YamlDoc.PyError>)
    requires WellFormed(o)
    ensures o.Window? ==> r == Ok(NoLogsPrefix + o.span)
  {
    var pieces := Split(OptionText(o), '/');
    if o.Window? then WindowSplits(o); (if |pieces| < 2 then Err(YamlDoc.IndexError) else Ok(NoLogsPrefix + pieces[1]))
    else if |pieces| < 2 then Err(YamlDoc.IndexError) else Ok(NoLogsPrefix + pieces[1])
  }

  /** With `all` selected and nothing logged, the message itself raises. */
  lemma AllTimeMessageRaises()
    ensures NoLogsMessageAsWritten(AllTime) == Err(YamlDoc.IndexError)
  {
    assert Split("all", '/') == ["all"] by {
      SplitWithoutSep("all", '/');
    }
  }

  /** The message as intended: the window's span, or no window at all for `all`. */
  function NoLogsMessage(o: TimingOption): (r: string)
    requires WellFormed(o)
    ensures o.Window? ==> NoLogsMessageAsWritten(o) == Ok(r)
    ensures o.AllTime? ==> r == "No logs found"
  {
    if o.Window? then NoLogsPrefix + o.span else "No logs found"
  }

  // ---------------------------------------------------------------- one iteration

  /** The loop's variables: `all_logs`, `last_log_time` and `logs_found`. */
  datatype TailState = TailState(allLogs: seq<string>, lastLogTime: Option<int>, logsFound: bool)

  const Start := TailState([], None, false)

  /** The state after an iteration that ended at `end` and fetched `text`. */
  function Next(s: TailState, end: int, text: string): TailState {
    var lines := NewLines(text);
    if lines != [] then TailState(s.allLogs + lines, Some(end), true) else s
  }

  /** What the loop keeps true: lines were found exactly when some are kept, and exactly
      when the watermark is set; every kept line is a stripped non-blank line. */
  predicate Inv(s: TailState) {
    (s.logsFound <==> s.allLogs != [])
    && (s.logsFound <==> s.lastLogTime.Some?)
    && forall i :: 0 <= i < |s.allLogs| ==> LineOk(s.allLogs[i])
  }

  lemma StartInv()
    ensures Inv(Start)
  {
  }

  /** An iteration keeps the invariant, only appends to `all_logs`, never clears
      `logs_found`, and moves the watermark to its end time exactly when it found lines. */
  lemma NextProperties(s: TailState, end: int, text: string)
    ensures Inv(s) ==> Inv(Next(s, end, text))
    ensures var t := Next(s, end, text);
            t.allLogs == s.allLogs + NewLines(text)
            && (s.logsFound ==> t.logsFound)
            && (NewLines(text) != [] ==> t.lastLogTime == Some(end) && t.logsFound)
            && (NewLines(text) == [] ==> t == s)
  {
    var lines := NewLines(text);
    if lines == [] {
      assert s.allLogs + lines == s.allLogs;
    } else if Inv(s) {
      NewLinesOk(text);
      LinesOkAppend(s.allLogs, lines);
    }
  }

  /** Two sequences of kept lines make one. */
  lemma LinesOkAppend(a: seq<string>, b: seq<string>)
    requires forall i :: 0 <= i < |a| ==> LineOk(a[i])
    requires forall i :: 0 <= i < |b| ==> LineOk(b[i])
    ensures forall i :: 0 <= i < |a + b| ==> LineOk((a + b)[i])
  {
    forall i | 0 <= i < |a + b| ensures LineOk((a + b)[i]) {
      if i >= |a| {
        assert (a + b)[i] == b[i - |a|];
      }
    }
  }

  /** The pause after an iteration, in milliseconds: the short one (0.1 s) after an
      iteration with new lines, the long one (1 s) otherwise. */
  function SleepAfter(text: string): (ms: nat)
    ensures ms == 100 <==> NewLines(text) != []
    ensures ms == 100 || ms == 1000
  {
    if NewLines(text) != [] then 100 else 1000
  }

  /** What the logs container shows. */
  datatype Display = Blank | Code(text: string) | Info(message: string)

  /** The container after an iteration AS WRITTEN: the refreshed lines when new ones
      arrived; while nothing was ever found, the container is emptied and the "no logs"
      message is built, which for `all` raises IndexError out of the loop; what it showed
      before otherwise. */
  function Shown(s: TailState, o: TimingOption, text: string, before: Display): (r: Result<Display, YamlDoc.PyError>)
    requires WellFormed(o)
    ensures r.Err? <==> NewLines(text) == [] && !s.logsFound && o.AllTime?
    ensures r.Err? ==> r.error == YamlDoc.IndexError
    ensures NewLines(text) != [] ==> r == Ok(Code(Render(s.allLogs + NewLines(text))))
    ensures NewLines(text) == [] && !s.logsFound && o.Window? ==> r == Ok(Info(NoLogsMessage(o)))
    ensures NewLines(text) == [] && s.logsFound ==> r == Ok(before)
  {
    var lines := NewLines(text);
    if lines != [] then Ok(Code(Render(s.allLogs + lines)))
    else if !s.logsFound then
      if o.AllTime? then AllTimeMessageRaises(); Err(YamlDoc.IndexError)
      else Ok(Info(NoLogsMessageAsWritten(o).value))
    else Ok(before)
  }

  /** The container after an iteration as intended: the same, except that for `all` with
      nothing found it shows the message without a window instead of raising. */
  function ShownIntended(s: TailState, o: TimingOption, text: string, before: Display): (d: Display)
    requires WellFormed(o)
    ensures Shown(s, o, text, before).Ok? ==> Shown(s, o, text, before) == Ok(d)
    ensures Shown(s, o, text, before).Err? ==> d == Info(NoLogsMessage(o)) && d.message == "No logs found"
  {
    var lines := NewLines(text);
    if lines != [] then Code(Render(s.allLogs + lines))
    else if !s.logsFound then Info(NoLogsMessage(o))
    else before
  }

  // ---------------------------------------------------------------- many iterations

  /** The state after iterations ending at `clock[i]` that fetched `texts[i]`, in order. */
  function Replay(s: TailState, clock: seq<int>, texts: seq<string>): TailState
    requires |clock| == |texts|
  {
    if texts == [] then s
    else Next(Replay(s, clock[..|clock| - 1], texts[..|texts| - 1]), clock[|clock| - 1], texts[|texts| - 1])
  }

  /** All lines the iterations produced, in order. */
  function Produced(texts: seq<string>): seq<string> {
    if texts == [] then [] else Produced(texts[..|texts| - 1]) + NewLines(texts[|texts| - 1])
  }

  /** The end time of the last iteration that produced a line. */
  function LastProductive(clock: seq<int>, texts: seq<string>): (r: Option<int>)
    requires |clock| == |texts|
    ensures r.Some? ==> r.value in clock
  {
    if texts == [] then None
    else if NewLines(texts[|texts| - 1]) != [] then Some(clock[|clock| - 1])
    else LastProductive(clock[..|clock| - 1], texts[..|texts| - 1])
  }

  /** Over any run: `all_logs` is the old lines followed by every produced line in order,
      the watermark is the end time of the last productive iteration (or stays), lines
      once found stay found, and the invariant holds throughout. */
  lemma {:induction false} ReplayProperties(s: TailState, clock: seq<int>, texts: seq<string>)
    requires |clock| == |texts|
    ensures var t := Replay(s, clock, texts);
            t.allLogs == s.allLogs + Produced(texts)
            && t.lastLogTime == (if LastProductive(clock, texts).Some? then LastProductive(clock, texts) else s.lastLogTime)
            && (s.logsFound ==> t.logsFound)
            && (Inv(s) ==> Inv(t))
  {
    if texts != [] {
      var n := |texts|;
      var before := Replay(s, clock[..n - 1], texts[..n - 1]);
      ReplayProperties(s, clock[..n - 1], texts[..n - 1]);
      NextProperties(before, clock[n - 1], texts[n - 1]);
      assert s.allLogs + Produced(texts) == (s.allLogs + Produced(texts[..n - 1])) + NewLines(texts[n - 1]);
    }
  }

  /** How many iterations run: up to the first index whose stop flag is set. */
  function FirstStop(stops: seq<bool>): (n: nat)
    ensures n <= |stops|
    ensures forall j :: 0 <= j < n ==> !stops[j]
    ensures n == |stops| || stops[n]
  {
    if stops == [] || stops[0] then 0 else 1 + FirstStop(stops[1..])
  }

  /** The fetches of a run, in order: each iteration's start bound, computed from the
      watermark the iteration starts with, and its end time. */
  function Fetches(s: TailState, seconds: Option<nat>, clock: seq<int>, texts: seq<string>): (f: seq<(Option<int>, int)>)
    requires |clock| == |texts|
    ensures |f| == |texts|
  {
    if texts == [] then []
    else
      var n := |texts|;
      var before := Replay(s, clock[..n - 1], texts[..n - 1]);
      Fetches(s, seconds, clock[..n - 1], texts[..n - 1]) + [(StartBound(before.lastLogTime, seconds, clock[n - 1]), clock[n - 1])]
  }

  /** The sleeps of a run, in order, one per iteration. */
  function Sleeps(texts: seq<string>): (z: seq<nat>)
    ensures |z| == |texts|
  {
    if texts == [] then [] else Sleeps(texts[..|texts| - 1]) + [SleepAfter(texts[|texts| - 1])]
  }

  /** Fetch `j` of a run starts at the watermark of the state the first `j` iterations
      leave: the end time of the last productive one among them, or, while there was none,
      the starting watermark or the option's window before `clock[j]`. */
  lemma {:induction false} FetchAt(s: TailState, seconds: Option<nat>, clock: seq<int>, texts: seq<string>, j: int)
    requires |clock| == |texts| && 0 <= j < |texts|
    ensures Fetches(s, seconds, clock, texts)[j]
            == (StartBound(Replay(s, clock[..j], texts[..j]).lastLogTime, seconds, clock[j]), clock[j])
    ensures var w := LastProductive(clock[..j], texts[..j]);
            w.Some? ==> Fetches(s, seconds, clock, texts)[j].0 == w
  {
    var n := |texts|;
    if j < n - 1 {
      FetchAt(s, seconds, clock[..n - 1], texts[..n - 1], j);
      assert clock[..n - 1][..j] == clock[..j];
      assert texts[..n - 1][..j] == texts[..j];
    } else {
      assert clock[..n - 1] == clock[..j];
      assert texts[..n - 1] == texts[..j];
    }
    ReplayProperties(s, clock[..j], texts[..j]);
  }

  /** One more iteration extends a run's state, fetches, sleeps and produced lines by its own. */
  lemma RunStep(s: TailState, seconds: Option<nat>, clock: seq<int>, texts: seq<string>, i: int)
    requires |clock| == |texts| && 0 <= i < |texts|
    ensures var before := Replay(s, clock[..i], texts[..i]);
            Replay(s, clock[..i + 1], texts[..i + 1]) == Next(before, clock[i], texts[i])
            && Fetches(s, seconds, clock[..i + 1], texts[..i + 1])
               == Fetches(s, seconds, clock[..i], texts[..i]) + [(StartBound(before.lastLogTime, seconds, clock[i]), clock[i])]
            && Sleeps(texts[..i + 1]) == Sleeps(texts[..i]) + [SleepAfter(texts[i])]
            && Produced(texts[..i + 1]) == Produced(texts[..i]) + NewLines(texts[i])
  {
    assert clock[..i + 1][..i] == clock[..i];
    assert texts[..i + 1][..i] == texts[..i];
  }

  /** What a run that did not raise leaves, given the state `s0` and display `d0` it began
      with and the texts its iterations fetched: the state is unchanged until lines arrive;
      once some have, the container shows all lines; until then it shows the "no logs"
      message when nothing was found before and what it showed before otherwise. */
  predicate ShownAfter(s0: TailState, d0: Display, o: TimingOption, texts: seq<string>, st: TailState, d: Display)
    requires WellFormed(o)
  {
    (Produced(texts) != [] ==> st.logsFound && d == Code(Render(st.allLogs)))
    && (Produced(texts) == [] ==> st == s0)
    && (Produced(texts) == [] && (texts == [] || s0.logsFound) ==> d == d0)
    && (Produced(texts) == [] && texts != [] && !s0.logsFound ==> d == Info(NoLogsMessage(o)))
  }

  /** An iteration that does not raise keeps `ShownAfter`. */
  lemma ShownAfterStep(s0: TailState, d0: Display, o: TimingOption, texts: seq<string>, i: int, end: int,
                       st: TailState, d: Display)
    requires WellFormed(o) && 0 <= i < |texts|
    requires ShownAfter(s0, d0, o, texts[..i], st, d) && Shown(st, o, texts[i], d).Ok?
    ensures ShownAfter(s0, d0, o, texts[..i + 1], Next(st, end, texts[i]), Shown(st, o, texts[i], d).value)
  {
    assert texts[..i + 1][..i] == texts[..i];
  }

  /** What a run that began in state `s0`, showing `d0`, after fetches `f0` and sleeps `z0`,
      has done after its first `i` iterations, none of which raised: it is in state `st`,
      shows `d`, and has made the fetches `f` and the sleeps `z`. Only the first iteration
      could have raised. */
  predicate RunSoFar(s0: TailState, d0: Display, f0: seq<(Option<int>, int)>, z0: seq<nat>,
                     o: TimingOption, clock: seq<int>, texts: seq<string>, i: int,
                     st: TailState, d: Display, f: seq<(Option<int>, int)>, z: seq<nat>)
    requires WellFormed(o) && |clock| == |texts| && 0 <= i <= |texts|
  {
    st == Replay(s0, clock[..i], texts[..i])
    && f == f0 + Fetches(s0, SecondsBack(o), clock[..i], texts[..i])
    && z == z0 + Sleeps(texts[..i])
    && ShownAfter(s0, d0, o, texts[..i], st, d)
    && (i == 0 ==> st == s0 && d == d0 && f == f0 && z == z0)
    && (i > 0 && o.AllTime? ==> st.logsFound)
    && (i > 0 ==> !(o.AllTime? && !s0.logsFound && NewLines(texts[0]) == []))
  }

  /** An iteration that does not raise carries `RunSoFar` one iteration further. */
  lemma RunSoFarStep(s0: TailState, d0: Display, f0: seq<(Option<int>, int)>, z0: seq<nat>,
                     o: TimingOption, clock: seq<int>, texts: seq<string>, i: int,
                     st: TailState, d: Display, f: seq<(Option<int>, int)>, z: seq<nat>)
    requires WellFormed(o) && |clock| == |texts| && 0 <= i < |texts|
    requires RunSoFar(s0, d0, f0, z0, o, clock, texts, i, st, d, f, z)
    requires Shown(st, o, texts[i], d).Ok?
    ensures RunSoFar(s0, d0, f0, z0, o, clock, texts, i + 1, Next(st, clock[i], texts[i]),
                     Shown(st, o, texts[i], d).value,
                     f + [(StartBound(st.lastLogTime, SecondsBack(o), clock[i]), clock[i])],
                     z + [SleepAfter(texts[i])])
  {
    RunStep(s0, SecondsBack(o), clock, texts, i);
    ShownAfterStep(s0, d0, o, texts, i, clock[i], st, d);
  }

  /** Only the first iteration of a run can raise: with `all`, when nothing was found before
      and it finds nothing either. */
  lemma RunSoFarRaises(s0: TailState, d0: Display, f0: seq<(Option<int>, int)>, z0: seq<nat>,
                       o: TimingOption, clock: seq<int>, texts: seq<string>, i: int,
                       st: TailState, d: Display, f: seq<(Option<int>, int)>, z: seq<nat>)
    requires WellFormed(o) && |clock| == |texts| && 0 <= i < |texts|
    requires RunSoFar(s0, d0, f0, z0, o, clock, texts, i, st, d, f, z)
    requires Shown(st, o, texts[i], d).Err?
    ensures i == 0 && st == s0 && f == f0 && z == z0
            && o.AllTime? && !s0.logsFound && NewLines(texts[0]) == []
  {
  }

  /** Iteration `i` either carries `RunSoFar` one iteration further or raises as the first. */
  lemma RunSoFarNext(s0: TailState, d0: Display, f0: seq<(Option<int>, int)>, z0: seq<nat>,
                     o: TimingOption, clock: seq<int>, texts: seq<string>, i: int,
                     st: TailState, d: Display, f: seq<(Option<int>, int)>, z: seq<nat>)
    requires WellFormed(o) && |clock| == |texts| && 0 <= i < |texts|
    requires RunSoFar(s0, d0, f0, z0, o, clock, texts, i, st, d, f, z)
    ensures var shown := Shown(st, o, texts[i], d);
            (shown.Ok? ==>
               RunSoFar(s0, d0, f0, z0, o, clock, texts, i + 1, Next(st, clock[i], texts[i]), shown.value,
                        f + [(StartBound(st.lastLogTime, SecondsBack(o), clock[i]), clock[i])],
                        z + [SleepAfter(texts[i])]))
            && (shown.Err? ==>
                  i == 0 && st == s0 && f == f0 && z == z0
                  && o.AllTime? && !s0.logsFound && NewLines(texts[0]) == [])
  {
    if Shown(st, o, texts[i], d).Ok? {
      RunSoFarStep(s0, d0, f0, z0, o, clock, texts, i, st, d, f, z);
    } else {
      RunSoFarRaises(s0, d0, f0, z0, o, clock, texts, i, st, d, f, z);
    }
  }

  /** Sleep `j` of a run is the pause after iteration `j`. */
  lemma {:induction false} SleepAt(texts: seq<string>, j: int)
    requires 0 <= j < |texts|
    ensures Sleeps(texts)[j] == SleepAfter(texts[j])
  {
    var n := |texts|;
    if j < n - 1 {
      SleepAt(texts[..n - 1], j);
    }
  }

  /** `update_logs`' loop, with its local variables and the effects it has: the fetches it
      asks the Docker client for (start bound and end time), what the logs container
      shows, and the sleeps it takes (in milliseconds). */
  class LogTail {
    var allLogs: seq<string>
    var lastLogTime: Option<int>
    var logsFound: bool
    var display: Display
    var fetches: seq<(Option<int>, int)>
    var sleeps: seq<nat>

    constructor()
      ensures State() == Start && display == Blank && fetches == [] && sleeps == []
    {
      allLogs := [];
      lastLogTime := None;
      logsFound := false;
      display := Blank;
      fetches := [];
      sleeps := [];
    }

    function State(): TailState
      reads this
    {
      TailState(allLogs, lastLogTime, logsFound)
    }

    /** One pass of the loop body, ending at time `end` with `text` fetched. An iteration
        that raises has fetched and emptied the container, and does not sleep. */
    method Iterate(o: TimingOption, end: int, text: string) returns (r: Result<(), YamlDoc.PyError>)
      requires WellFormed(o)
      modifies this
      ensures State() == Next(old(State()), end, text)
      ensures fetches == old(fetches) + [(StartBound(old(lastLogTime), SecondsBack(o), end), end)]
      ensures var shown := Shown(old(State()), o, text, old(display));
              (shown.Ok? ==> r == Ok(()) && display == shown.value && sleeps == old(sleeps) + [SleepAfter(text)])
              && (shown.Err? ==> r == Err(shown.error) && display == Blank && sleeps == old(sleeps))
    {
      var secondsBack := SecondsBack(o);
      var startTime: Option<int>;
      if lastLogTime.Some? {
        startTime := lastLogTime;
      } else if secondsBack.Some? && secondsBack.value != 0 {
        startTime := Some(end - secondsBack.value);
      } else {
        startTime := None;
      }
      assert startTime == StartBound(lastLogTime, secondsBack, end);
      fetches := fetches + [(startTime, end)];
      var newLogs := NewLines(text);
      var logs, found, watermark, shown := allLogs, logsFound, lastLogTime, display;
      if newLogs != [] {
        found := true;
        logs := logs + newLogs;
        watermark := Some(end);
        shown := Code(Render(logs));
      }
      if !found {
        shown := Blank;
        var message := NoLogsMessageAsWritten(o);
        if message.Err? {
          if o.Window? {
            assert false;
          }
          AllTimeMessageRaises();
          display := shown;
          return Err(message.error);
        }
        shown := Info(message.value);
      }
      allLogs, logsFound, lastLogTime, display := logs, found, watermark, shown;
      sleeps := sleeps + [if newLogs != [] then 100 else 1000];
      r := Ok(());
    }

    /** The loop: iteration `i` runs when `stops[i]` is unset, ends at `clock[i]` and
        fetches `texts[i]`; the first set flag ends the loop, and so does the first
        iteration that raises. Only the first iteration can raise, and only for `all`
        when nothing was found before and it finds nothing either; afterwards the error
        is out of the loop with the state untouched. Otherwise the run has made the
        fetches and sleeps of its iterations, in order, and the container shows all lines
        once any arrived, the "no logs" message while none was ever found, and what it
        showed before when nothing changed. */
    method Run(o: TimingOption, stops: seq<bool>, clock: seq<int>, texts: seq<string>) returns (r: Result<(), YamlDoc.PyError>)
      requires WellFormed(o)
      requires |clock| == |stops| && |texts| == |stops|
      modifies this
      ensures var n := FirstStop(stops);
              var raises := n > 0 && o.AllTime? && !old(logsFound) && NewLines(texts[0]) == [];
              (raises ==> r == Err(YamlDoc.IndexError) && State() == old(State()) && display == Blank
                          && fetches == old(fetches) + [(StartBound(old(lastLogTime), SecondsBack(o), clock[0]), clock[0])]
                          && sleeps == old(sleeps))
              && (!raises ==> r == Ok(()) && State() == Replay(old(State()), clock[..n], texts[..n])
                              && fetches == old(fetches) + Fetches(old(State()), SecondsBack(o), clock[..n], texts[..n])
                              && sleeps == old(sleeps) + Sleeps(texts[..n])
                              && (Produced(texts[..n]) != [] ==> display == Code(Render(allLogs)))
                              && (Produced(texts[..n]) == [] && (n == 0 || old(logsFound)) ==> display == old(display))
                              && (Produced(texts[..n]) == [] && n > 0 && !old(logsFound) ==>
                                    display == Info(NoLogsMessage(o))))
    {
      ghost var s0, d0, f0, z0 := State(), display, fetches, sleeps;
      var i := 0;
      while i < |stops| && !stops[i]
        invariant 0 <= i <= FirstStop(stops)
        invariant RunSoFar(s0, d0, f0, z0, o, clock, texts, i, State(), display, fetches, sleeps)
      {
        assert i < FirstStop(stops);
        RunSoFarNext(s0, d0, f0, z0, o, clock, texts, i, State(), display, fetches, sleeps);
        var step := Iterate(o, clock[i], texts[i]);
        if step.Err? {
          return step;
        }
        i := i + 1;
      }
      r := Ok(());
    }
  }
}
