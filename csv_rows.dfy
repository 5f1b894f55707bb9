/**
 * What CSVLocationHandler.createData computes, stated line by line: the token stream is cut into
 * lines, the configured columns of each line are picked out, and every data line becomes one put
 * into the quad tree. The method that walks the tokens one at a time (CsvHandler.ReadTokens) is
 * proved equal to Pass below; the lemmas here state what a pass and a whole build produce.
 */
module CsvRows {
  import opened Wrappers

  /** What CSVTokenizer hands out: a text field, a number, the end of a line, the end of input. */
  datatype Token = Str(s: string) | Num(v: real) | Newline | EOF

  predicate IsField(t: Token) { t.Str? || t.Num? }

  /** The handler's configuration fields; an index of -1 means "not set". */
  datatype Config = Config(
    nameIndex: int,
    latIndex: int,
    lonIndex: int,
    iconIndex: int,
    eastIsNeg: bool,
    defaultIconURL: Option<string>)

  /** The four values createData keeps across lines: name, lat, lon and iconURL. */
  datatype Fields = Fields(name: Option<string>, lat: real, lon: real, iconURL: Option<string>)

  /** Their values before the first line: null, 0, 0, null. */
  const Initial := Fields(None, 0.0, 0.0, None)

  /** The arguments createLocation receives; it stands for the Location object built from them. */
  datatype Location = Location(lat: real, lon: real, name: Option<string>, iconURL: Option<string>)

  /** One qt.put(lat, lon, loc) call. */
  datatype Entry = Entry(lat: real, lon: real, loc: Location)

  /** Causes of the HandleError that createData throws. */
  datatype BuildError =
    | SourceUnavailable   // the location file cannot be resolved or opened
    | WrongTokenType      // ClassCastException: a number where text is read, or text where a number is read

  // ---- the pulled token stream ----

  /** The token at cursor `cur`; past the end, and from an EOF token on, reading yields EOF. */
  function Peek(ts: seq<Token>, cur: nat): Token {
    if cur < |ts| then ts[cur] else EOF
  }

  /** The cursor after one more read; EOF is sticky. */
  function Advance(ts: seq<Token>, cur: nat): (next: nat)
    ensures next <= |ts|
    ensures !Peek(ts, cur).EOF? ==> next == cur + 1
  {
    if Peek(ts, cur).EOF? then |ts| else cur + 1
  }

  /** Length of the run of field tokens at the start of `ts`. */
  function FieldRun(ts: seq<Token>): (n: nat)
    ensures n <= |ts|
    ensures forall k :: 0 <= k < n ==> IsField(ts[k])
    ensures n < |ts| ==> !IsField(ts[n])
    decreases |ts|
  {
    if ts == [] || !IsField(ts[0]) then 0 else 1 + FieldRun(ts[1..])
  }

  /**
   * The lines the outer loop of createData visits: the runs of fields between Newline tokens, up to
   * the first EOF. A Newline right before the end opens no further line; an empty line is a line.
   */
  function Lines(ts: seq<Token>): seq<seq<Token>>
    decreases |ts|
  {
    if ts == [] || ts[0].EOF? then []
    else
      var n := FieldRun(ts);
      if n < |ts| && ts[n].Newline? then [ts[..n]] + Lines(ts[n + 1..])
      else [ts[..n]]
  }

  /** The line that starts at cursor `s`, and where the outer loop reads next. */
  lemma LinesAt(ts: seq<Token>, s: nat)
    requires s < |ts| && !ts[s].EOF?
    ensures s + FieldRun(ts[s..]) <= |ts|
    ensures Lines(ts[s..]) == [ts[s..s + FieldRun(ts[s..])]] + Lines(ts[Advance(ts, s + FieldRun(ts[s..]))..])
  {
    var u := ts[s..];
    var n := FieldRun(u);
    assert u[..n] == ts[s..s + n];
    if n < |u| && u[n].Newline? {
      assert Lines(u) == [u[..n]] + Lines(u[n + 1..]);
      assert ts[s + n] == u[n];
      assert Advance(ts, s + n) == s + n + 1;
      assert u[n + 1..] == ts[s + n + 1..];
    } else {
      assert Lines(u) == [u[..n]];
      assert n < |u| ==> ts[s + n] == u[n];
      assert Advance(ts, s + n) == |ts|;
      assert Lines(ts[|ts|..]) == [];
    }
  }

  // ---- the columns of one line ----

  datatype Column = NameColumn | LatColumn | LonColumn | IconColumn | OtherColumn

  /** The if/else-if chain of createData: name, then lat, then lon, then icon. */
  function ColumnRole(c: Config, i: int): Column {
    if i == c.nameIndex then NameColumn
    else if i == c.latIndex then LatColumn
    else if i == c.lonIndex then LonColumn
    else if i == c.iconIndex then IconColumn
    else OtherColumn
  }

  /** One token at column `i` of a data line; a cast that fails is WrongTokenType. */
  function Dispatch(c: Config, f: Fields, i: int, t: Token): Result<Fields, BuildError> {
    match ColumnRole(c, i)
    case NameColumn => if t.Str? then Ok(f.(name := Some(t.s))) else Err(WrongTokenType)
    case LatColumn => if t.Num? then Ok(f.(lat := t.v)) else Err(WrongTokenType)
    case LonColumn =>
      if t.Num? then Ok(f.(lon := if c.eastIsNeg then -t.v else t.v)) else Err(WrongTokenType)
    case IconColumn => if t.Str? then Ok(f.(iconURL := Some(t.s))) else Err(WrongTokenType)
    case OtherColumn => Ok(f)
  }

  /** The tokens of `line`, the first at column `col`, dispatched left to right. */
  function Extract(c: Config, f: Fields, line: seq<Token>, col: int): Result<Fields, BuildError>
    decreases |line|
  {
    if line == [] then Ok(f)
    else match Dispatch(c, f, col, line[0])
      case Err(e) => Err(e)
      case Ok(f') => Extract(c, f', line[1..], col + 1)
  }

  /** Column `j` has a token of the kind its role casts to. */
  predicate WellTyped(c: Config, j: int, t: Token) {
    match ColumnRole(c, j)
    case NameColumn => t.Str?
    case LatColumn => t.Num?
    case LonColumn => t.Num?
    case IconColumn => t.Str?
    case OtherColumn => true
  }

  /** Every token of `line`, the first at column `col`, is well typed. */
  predicate AllWellTyped(c: Config, line: seq<Token>, col: int) {
    forall k :: 0 <= k < |line| ==> WellTyped(c, col + k, line[k])
  }

  /** `line`, read from column `col` on, has a token at column `j`. */
  predicate Covers(line: seq<Token>, col: int, j: int) { col <= j < col + |line| }

  /**
   * Reference definition of the values after a line: each value comes from the column configured
   * for it when the line reaches that column and no earlier role claims the same index, and is
   * otherwise the value carried over from before. The longitude is negated when east is negative.
   */
  function PickedFrom(c: Config, f: Fields, line: seq<Token>, col: int): Fields
    requires AllWellTyped(c, line, col)
  {
    Fields(
      if Covers(line, col, c.nameIndex) then Some(line[c.nameIndex - col].s) else f.name,
      if Covers(line, col, c.latIndex) && ColumnRole(c, c.latIndex) == LatColumn
      then line[c.latIndex - col].v else f.lat,
      if Covers(line, col, c.lonIndex) && ColumnRole(c, c.lonIndex) == LonColumn
      then (if c.eastIsNeg then -line[c.lonIndex - col].v else line[c.lonIndex - col].v) else f.lon,
      if Covers(line, col, c.iconIndex) && ColumnRole(c, c.iconIndex) == IconColumn
      then Some(line[c.iconIndex - col].s) else f.iconURL)
  }

  /**
   * Extracting a line fails exactly when some token has the wrong kind for its column, and
   * otherwise yields the reference values.
   */
  lemma {:induction false} ExtractSpec(c: Config, f: Fields, line: seq<Token>, col: int)
    ensures Extract(c, f, line, col)
         == if AllWellTyped(c, line, col) then Ok(PickedFrom(c, f, line, col)) else Err(WrongTokenType)
    decreases |line|
  {
    if line != [] {
      var t := line[0];
      var tail := line[1..];
      assert AllWellTyped(c, line, col) <==> WellTyped(c, col, t) && AllWellTyped(c, tail, col + 1) by {
        if WellTyped(c, col, t) && AllWellTyped(c, tail, col + 1) {
          forall k | 0 <= k < |line| ensures WellTyped(c, col + k, line[k]) {
            if k > 0 { assert line[k] == tail[k - 1]; }
          }
        }
        if AllWellTyped(c, line, col) {
          forall k | 0 <= k < |tail| ensures WellTyped(c, col + 1 + k, tail[k]) {
            assert tail[k] == line[k + 1];
          }
        }
      }
      match Dispatch(c, f, col, t)
      case Err(e) =>
      case Ok(f1) =>
        ExtractSpec(c, f1, tail, col + 1);
        if AllWellTyped(c, line, col) {
          PickedStep(c, f, f1, line, col);
        }
    }
  }

  /** One dispatch followed by the reference values of the rest is the reference of the whole line. */
  lemma PickedStep(c: Config, f: Fields, f1: Fields, line: seq<Token>, col: int)
    requires line != [] && AllWellTyped(c, line, col) && AllWellTyped(c, line[1..], col + 1)
    requires Dispatch(c, f, col, line[0]) == Ok(f1)
    ensures PickedFrom(c, f1, line[1..], col + 1) == PickedFrom(c, f, line, col)
  {
    var tail := line[1..];
    forall k | 0 <= k < |tail| ensures tail[k] == line[k + 1] { }
  }

  /** Changing a token in a column no role claims changes nothing about the line's values. */
  lemma OtherColumnIgnored(c: Config, f: Fields, line: seq<Token>, j: nat, t: Token)
    requires j < |line| && ColumnRole(c, j) == OtherColumn
    ensures Extract(c, f, line[j := t], 0) == Extract(c, f, line, 0)
  {
    var line' := line[j := t];
    ExtractSpec(c, f, line, 0);
    ExtractSpec(c, f, line', 0);
    assert AllWellTyped(c, line', 0) <==> AllWellTyped(c, line, 0) by {
      assert forall k :: 0 <= k < |line| && k != j ==> line'[k] == line[k];
      assert WellTyped(c, j, t) && WellTyped(c, j, line[j]);
    }
  }

  // ---- lines and passes ----

  /** The state the outer loop of createData carries from line to line. */
  datatype State = State(readHeader: bool, fields: Fields, lineCount: nat, puts: seq<Entry>)

  /** `iconURL = defaultIconURL` when no icon is known yet. */
  function WithDefaultIcon(c: Config, f: Fields): Fields {
    if f.iconURL.None? && c.defaultIconURL.Some? then f.(iconURL := c.defaultIconURL) else f
  }

  /** The put for the current values: createLocation(lat, lon, name, iconURL) stored at (lat, lon). */
  function EntryOf(f: Fields): Entry {
    Entry(f.lat, f.lon, Location(f.lat, f.lon, f.name, f.iconURL))
  }

  /** The values a put was made from. */
  function FieldsOf(e: Entry): Fields {
    Fields(e.loc.name, e.lat, e.lon, e.loc.iconURL)
  }

  /** One line: skipped when it is the header, otherwise its values are extracted and put. */
  function Step(c: Config, st: State, line: seq<Token>): Result<State, BuildError> {
    if !st.readHeader then Ok(st.(readHeader := true))
    else match Extract(c, st.fields, line, 0)
      case Err(e) => Err(e)
      case Ok(f) =>
        var g := WithDefaultIcon(c, f);
        Ok(State(true, g, st.lineCount + 1, st.puts + [EntryOf(g)]))
  }

  function RunLines(c: Config, lines: seq<seq<Token>>, st: State): Result<State, BuildError>
    decreases |lines|
  {
    if lines == [] then Ok(st)
    else match Step(c, st, lines[0])
      case Err(e) => Err(e)
      case Ok(st') => RunLines(c, lines[1..], st')
  }

  /** One read of the whole source, as the body of createData performs it. */
  function Pass(c: Config, hasHeader: bool, ts: seq<Token>): Result<State, BuildError> {
    RunLines(c, Lines(ts), State(!hasHeader, Initial, 0, []))
  }

  /** The condition under which createData flips csvHasHeader and starts over. */
  predicate NeedsRetry(r: Result<State, BuildError>) {
    r.Ok? && r.value.lineCount == 0 && r.value.readHeader
  }

  /** Every token of every row has the kind its column casts to. */
  predicate RowsWellTyped(c: Config, rows: seq<seq<Token>>) {
    forall k :: 0 <= k < |rows| ==> AllWellTyped(c, rows[k], 0)
  }

  /** The lines that are data: all but the first when a header is expected. */
  function DataLines(hasHeader: bool, lines: seq<seq<Token>>): seq<seq<Token>> {
    if hasHeader && lines != [] then lines[1..] else lines
  }

  /** The values carried into the next line: those of the last put, or the initial ones. */
  function Prev(puts: seq<Entry>): Fields {
    if puts == [] then Initial else FieldsOf(puts[|puts| - 1])
  }

  /** Reference definition of the values put for a data line, given the values carried into it. */
  function RowFields(c: Config, prev: Fields, line: seq<Token>): Fields
    requires AllWellTyped(c, line, 0)
  {
    WithDefaultIcon(c, PickedFrom(c, prev, line, 0))
  }

  /** `puts[from..]` holds one entry per row, each made from its row and the entry before it. */
  ghost predicate RowsFollow(c: Config, puts: seq<Entry>, from: nat, rows: seq<seq<Token>>) {
    && |puts| == from + |rows|
    && forall k :: 0 <= k < |rows| ==>
         && AllWellTyped(c, rows[k], 0)
         && puts[from + k] == EntryOf(RowFields(c, Prev(puts[..from + k]), rows[k]))
  }

  /** Running data lines: one put per line, each from its line, or an error when any line is mistyped. */
  lemma {:induction false} RunDataLines(c: Config, lines: seq<seq<Token>>, st: State)
    requires st.readHeader && st.fields == Prev(st.puts) && st.lineCount == |st.puts|
    ensures RunLines(c, lines, st).Ok? <==> RowsWellTyped(c, lines)
    ensures RunLines(c, lines, st).Ok? ==>
      var t := RunLines(c, lines, st).value;
      && t.readHeader && t.fields == Prev(t.puts) && t.lineCount == |t.puts|
      && RowsFollow(c, t.puts, |st.puts|, lines)
      && t.puts[..|st.puts|] == st.puts
    decreases |lines|
  {
    if lines != [] {
      var line := lines[0];
      var rest := lines[1..];
      AllRowsCons(c, lines);
      if AllWellTyped(c, line, 0) {
        var st1 := DataStep(c, st, line);
        var r := RunLines(c, lines, st);
        assert r == RunLines(c, rest, st1);
        RunDataLines(c, rest, st1);
        if r.Ok? {
          FollowStep(c, st, st1, line, rest, r.value);
          assert lines == [line] + rest;
        }
      } else {
        MistypedLine(c, lines, st);
      }
    }
  }

  /** A data line with a token of the wrong kind fails the run. */
  lemma MistypedLine(c: Config, lines: seq<seq<Token>>, st: State)
    requires st.readHeader && lines != [] && !AllWellTyped(c, lines[0], 0)
    ensures RunLines(c, lines, st).Err?
  {
    ExtractSpec(c, st.fields, lines[0], 0);
    assert Step(c, st, lines[0]).Err?;
  }

  /** A well-typed data line gives the state with one more put, and keeps the carried values in step. */
  lemma DataStep(c: Config, st: State, line: seq<Token>) returns (st1: State)
    requires st.readHeader && st.fields == Prev(st.puts) && st.lineCount == |st.puts|
    requires AllWellTyped(c, line, 0)
    ensures st1 == State(true, RowFields(c, st.fields, line), st.lineCount + 1,
                         st.puts + [EntryOf(RowFields(c, st.fields, line))])
    ensures Step(c, st, line) == Ok(st1)
    ensures st1.readHeader && st1.fields == Prev(st1.puts) && st1.lineCount == |st1.puts|
  {
    ExtractSpec(c, st.fields, line, 0);
    var g := RowFields(c, st.fields, line);
    st1 := State(true, g, st.lineCount + 1, st.puts + [EntryOf(g)]);
    assert FieldsOf(EntryOf(g)) == g;
  }

  /** The puts after a well-typed line and the rest follow the line and the rest. */
  lemma FollowStep(c: Config, st: State, st1: State, line: seq<Token>, rest: seq<seq<Token>>, t: State)
    requires st.fields == Prev(st.puts) && AllWellTyped(c, line, 0)
    requires st1.puts == st.puts + [EntryOf(RowFields(c, st.fields, line))]
    requires RowsFollow(c, t.puts, |st1.puts|, rest) && t.puts[..|st1.puts|] == st1.puts
    ensures RowsFollow(c, t.puts, |st.puts|, [line] + rest) && t.puts[..|st.puts|] == st.puts
  {
    RowsFollowCons(c, t.puts, st.puts, line, rest);
  }

  lemma AllRowsCons(c: Config, lines: seq<seq<Token>>)
    requires lines != []
    ensures RowsWellTyped(c, lines) <==> AllWellTyped(c, lines[0], 0) && RowsWellTyped(c, lines[1..])
  {
    var rest := lines[1..];
    assert forall k :: 0 <= k < |rest| ==> rest[k] == lines[k + 1];
    if AllWellTyped(c, lines[0], 0) && forall k :: 0 <= k < |rest| ==> AllWellTyped(c, rest[k], 0) {
      forall k | 0 <= k < |lines| ensures AllWellTyped(c, lines[k], 0) {
        if k > 0 { assert lines[k] == rest[k - 1]; }
      }
    }
  }

  lemma RowsFollowCons(c: Config, puts: seq<Entry>, before: seq<Entry>, line: seq<Token>, rest: seq<seq<Token>>)
    requires AllWellTyped(c, line, 0)
    requires RowsFollow(c, puts, |before| + 1, rest)
    requires puts[..|before| + 1] == before + [EntryOf(RowFields(c, Prev(before), line))]
    ensures RowsFollow(c, puts, |before|, [line] + rest)
    ensures puts[..|before|] == before
  {
    var n := |before|;
    var rows := [line] + rest;
    assert puts[..n] == puts[..n + 1][..n];
    forall k | 0 <= k < |rows|
      ensures AllWellTyped(c, rows[k], 0)
      ensures puts[n + k] == EntryOf(RowFields(c, Prev(puts[..n + k]), rows[k]))
    {
      if k == 0 {
        assert puts[n] == puts[..n + 1][n];
      } else {
        assert rows[k] == rest[k - 1];
        assert n + k == (n + 1) + (k - 1);
      }
    }
  }

  /**
   * What one pass yields: it fails exactly when some data line has a mistyped token; otherwise
   * the header line (if one is expected) is skipped, every other line gives exactly one put made
   * from that line and the values carried over from the line before, lineCount is the number of
   * puts, and readHeader ends true unless a header was expected and there was no line at all.
   */
  lemma PassRows(c: Config, hasHeader: bool, ts: seq<Token>)
    ensures Pass(c, hasHeader, ts).Ok? <==> RowsWellTyped(c, DataLines(hasHeader, Lines(ts)))
    ensures Pass(c, hasHeader, ts).Ok? ==>
      var t := Pass(c, hasHeader, ts).value;
      && RowsFollow(c, t.puts, 0, DataLines(hasHeader, Lines(ts)))
      && t.lineCount == |t.puts|
      && t.readHeader == (!hasHeader || Lines(ts) != [])
  {
    var lines := Lines(ts);
    var st0 := State(!hasHeader, Initial, 0, []);
    if !hasHeader {
      assert Pass(c, hasHeader, ts) == RunLines(c, lines, st0);
      assert DataLines(hasHeader, lines) == lines;
      RunDataLines(c, lines, st0);

    } else if lines != [] {
      var st1 := st0.(readHeader := true);
      assert RunLines(c, lines, st0) == RunLines(c, lines[1..], st1);
      assert DataLines(hasHeader, lines) == lines[1..];
      RunDataLines(c, lines[1..], st1);
    } else {
      assert Pass(c, hasHeader, ts) == Ok(st0);
    }
  }

  /** A first pass that asks for a retry is followed by one that does not: createData recurses at most once. */
  lemma RetryAtMostOnce(c: Config, hasHeader: bool, ts: seq<Token>)
    requires NeedsRetry(Pass(c, hasHeader, ts))
    ensures !NeedsRetry(Pass(c, !hasHeader, ts))
  {
    PassRows(c, hasHeader, ts);
    PassRows(c, !hasHeader, ts);
  }

  /** 1 while a retry is still to come, else 0; it bounds the recursion of createData. */
  function RetryMeasure(c: Config, hasHeader: bool, source: Option<seq<Token>>): nat {
    if c.latIndex == -1 || c.lonIndex == -1 || source.None? then 0
    else if NeedsRetry(Pass(c, hasHeader, source.value)) then 1 else 0
  }

  /** What createData returns (null, the tree's puts, or the HandleError) and where it leaves csvHasHeader. */
  datatype Built = Built(index: Result<Option<seq<Entry>>, BuildError>, hasHeader: bool)

  /**
   * createData: no lat or lon column configured gives null before the source is touched; a source
   * that cannot be opened throws; otherwise one pass, and when it found no data line but did read
   * its first line (or expected none), csvHasHeader is flipped and the whole build runs again.
   */
  function Build(c: Config, hasHeader: bool, source: Option<seq<Token>>): Built
    decreases RetryMeasure(c, hasHeader, source)
  {
    if c.latIndex == -1 || c.lonIndex == -1 then Built(Ok(None), hasHeader)
    else if source.None? then Built(Err(SourceUnavailable), hasHeader)
    else
      var pass := Pass(c, hasHeader, source.value);
      if pass.Err? then Built(Err(pass.error), hasHeader)
      else if pass.value.lineCount == 0 && pass.value.readHeader then
        RetryAtMostOnce(c, hasHeader, source.value);
        Build(c, !hasHeader, source)
      else Built(Ok(Some(pass.value.puts)), hasHeader)
  }

  /** With the lat or lon index unset, the result is null whatever the source holds, even none. */
  lemma UnsetColumnsGiveNull(c: Config, hasHeader: bool, source: Option<seq<Token>>)
    requires c.latIndex == -1 || c.lonIndex == -1
    ensures Build(c, hasHeader, source) == Built(Ok(None), hasHeader)
  {
  }

  /**
   * What a whole build yields from a source whose tokens are `ts`: csvHasHeader is flipped exactly
   * when the file has no line and no header was expected, or has a single line and a header was
   * expected; the result is an error exactly when a data line (under the final flag) is mistyped;
   * otherwise the index holds one put per data line under the final flag, and it is empty only
   * for a file without any line.
   */
  lemma BuildIndex(c: Config, hasHeader: bool, ts: seq<Token>)
    requires c.latIndex != -1 && c.lonIndex != -1
    ensures var b := Build(c, hasHeader, Some(ts));
      && (b.hasHeader != hasHeader <==> (if hasHeader then |Lines(ts)| == 1 else Lines(ts) == []))
      && (b.index.Ok? <==> RowsWellTyped(c, DataLines(b.hasHeader, Lines(ts))))
      && (b.index.Ok? ==>
            && b.index.value.Some?
            && RowsFollow(c, b.index.value.value, 0, DataLines(b.hasHeader, Lines(ts)))
            && (b.index.value.value == [] <==> Lines(ts) == []))
  {
    PassRows(c, hasHeader, ts);
    PassRows(c, !hasHeader, ts);
    if NeedsRetry(Pass(c, hasHeader, ts)) {
      RetryAtMostOnce(c, hasHeader, ts);
    }
  }

  // ---- the shape of the input ----

  /** A last line needs no trailing newline: adding one after a final field changes no line. */
  lemma {:induction false} TrailingNewlineOptional(ts: seq<Token>)
    requires ts != [] && IsField(ts[|ts| - 1])
    requires forall k :: 0 <= k < |ts| ==> !ts[k].EOF?
    ensures Lines(ts + [Newline]) == Lines(ts)
    decreases |ts|
  {
    var u := ts + [Newline];
    var n := FieldRun(ts);
    FieldRunSnoc(ts);
    if n == |ts| {
      assert FieldRun(u) == |ts| && u[|ts|].Newline?;
      assert u[..|ts|] == ts && u[|ts| + 1..] == [];
      assert Lines(u) == [ts] + Lines([]);
      assert ts[..n] == ts;
    } else {
      assert ts[n].Newline?;
      assert FieldRun(u) == n && u[n] == ts[n];
      assert u[..n] == ts[..n];
      assert u[n + 1..] == ts[n + 1..] + [Newline];
      assert n + 1 < |ts|;
      TrailingNewlineOptional(ts[n + 1..]);
    }
  }

  lemma {:induction false} FieldRunSnoc(ts: seq<Token>)
    requires forall k :: 0 <= k < |ts| ==> !ts[k].EOF?
    ensures FieldRun(ts) < |ts| ==> FieldRun(ts + [Newline]) == FieldRun(ts)
    ensures FieldRun(ts) == |ts| ==> FieldRun(ts + [Newline]) == |ts|
    decreases |ts|
  {
    if ts != [] && IsField(ts[0]) {
      assert (ts + [Newline])[1..] == ts[1..] + [Newline];
      FieldRunSnoc(ts[1..]);
    }
  }

  /** Nothing after the first EOF token is read. */
  lemma {:induction false} InputEndsAtEOF(ts: seq<Token>, rest: seq<Token>)
    ensures Lines(ts + [EOF] + rest) == Lines(ts + [EOF])
    decreases |ts|
  {
    var u := ts + [EOF] + rest;
    var v := ts + [EOF];
    if ts != [] && !ts[0].EOF? {
      FieldRunEOF(ts, rest);
      var n := FieldRun(v);
      assert FieldRun(u) == n && n <= |ts|;
      assert u[..n] == v[..n];
      if n < |ts| && ts[n].Newline? {
        assert u[n] == v[n] == ts[n];
        assert u[n + 1..] == ts[n + 1..] + [EOF] + rest;
        assert v[n + 1..] == ts[n + 1..] + [EOF];
        InputEndsAtEOF(ts[n + 1..], rest);
        assert Lines(u) == [u[..n]] + Lines(u[n + 1..]);
        assert Lines(v) == [v[..n]] + Lines(v[n + 1..]);
      } else {
        assert u[n] == v[n] && !u[n].Newline?;
        assert Lines(u) == [u[..n]];
        assert Lines(v) == [v[..n]];
      }
    }
  }

  lemma {:induction false} FieldRunEOF(ts: seq<Token>, rest: seq<Token>)
    ensures FieldRun(ts + [EOF] + rest) == FieldRun(ts + [EOF]) <= |ts|
    decreases |ts|
  {
    var u := ts + [EOF] + rest;
    var v := ts + [EOF];
    if ts == [] {
      assert u[0] == EOF && v[0] == EOF;
    } else if IsField(ts[0]) {
      assert u[1..] == ts[1..] + [EOF] + rest;
      assert v[1..] == ts[1..] + [EOF];
      FieldRunEOF(ts[1..], rest);
    } else {
      assert u[0] == v[0] == ts[0];
    }
  }
}
