/**
 * CSVLocationHandler: the handler's configuration and its lazily built index of locations.
 * The source file, the tokenizer and the quad tree are foreign: the tokens of the file are a
 * parameter, the quad tree is the log of its puts, and its range query is a function parameter.
 */
module CsvHandler {
  import opened Wrappers
  import opened Text
  import opened CsvRows

  /**
   * The body of createData between opening and closing the source: the outer loop over lines,
   * skipping the header, carrying the values of the previous line and putting one entry per line.
   */
  method ReadTokens(c: Config, hasHeader: bool, ts: seq<Token>) returns (r: Result<State, BuildError>)
    ensures r == Pass(c, hasHeader, ts)
  {
    var lineCount: nat := 0;
    var readHeader := !hasHeader;
    var fields := Initial;
    var qt: seq<Entry> := [];

    ghost var pass := Pass(c, hasHeader, ts);
    var cur: nat := 0;
    var token := Peek(ts, cur);
    while !token.EOF?
      invariant cur <= |ts| && token == Peek(ts, cur)
      invariant RunLines(c, Lines(ts[cur..]), State(readHeader, fields, lineCount, qt)) == pass
      decreases |ts| - cur
    {
      ghost var st0 := State(readHeader, fields, lineCount, qt);
      ghost var s0 := cur;
      ghost var line := ts[cur..cur + FieldRun(ts[cur..])];
      var scanned;
      scanned, cur := ScanLine(c, ts, cur, readHeader, fields);
      if scanned.Err? {
        LineFails(c, ts, s0, st0, pass);
        return Err(scanned.error);
      }
      fields := scanned.value;

      if !readHeader {
        readHeader := true;
      } else {
        lineCount := lineCount + 1;
        if fields.iconURL.None? && c.defaultIconURL.Some? {
          fields := fields.(iconURL := c.defaultIconURL);
        }
        var loc := Location(fields.lat, fields.lon, fields.name, fields.iconURL);
        qt := qt + [Entry(fields.lat, fields.lon, loc)];
        assert fields == WithDefaultIcon(c, scanned.value);
        DataLine(c, st0, line, scanned.value);
      }
      assert Step(c, st0, line) == Ok(State(readHeader, fields, lineCount, qt));
      ghost var st1 := State(readHeader, fields, lineCount, qt);
      LineDone(c, ts, s0, st0, st1, pass);
      cur := Advance(ts, cur);
      assert RunLines(c, Lines(ts[cur..]), st1) == pass;
      token := Peek(ts, cur);
    }
    if cur < |ts| {
      assert ts[cur..][0].EOF?;
    }
    assert Lines(ts[cur..]) == [];
    r := Ok(State(readHeader, fields, lineCount, qt));
  }

  /**
   * The inner loop of createData: the tokens of one line from cursor `s` up to its Newline or EOF,
   * each read into the value its column names when the header has already been read.
   */
  method ScanLine(c: Config, ts: seq<Token>, s: nat, readHeader: bool, f0: Fields)
    returns (r: Result<Fields, BuildError>, cur: nat)
    requires s < |ts| && !ts[s].EOF?
    ensures s + FieldRun(ts[s..]) <= |ts|
    ensures r.Ok? ==> cur == s + FieldRun(ts[s..])
    ensures readHeader ==> r == Extract(c, f0, ts[s..s + FieldRun(ts[s..])], 0)
    ensures !readHeader ==> r == Ok(f0)
  {
    var f := f0;
    ghost var e := s + FieldRun(ts[s..]);
    cur := s;
    var token := Peek(ts, cur);
    var i := 0;
    while !token.Newline? && !token.EOF?
      invariant s <= cur <= e <= |ts| && token == Peek(ts, cur) && i == cur - s
      invariant readHeader ==> Extract(c, f, ts[cur..e], i) == Extract(c, f0, ts[s..e], 0)
      invariant !readHeader ==> f == f0
      decreases e - cur
    {
      FieldAt(ts, s, cur);
      if readHeader {
        ExtractAt(c, f, ts, cur, e, i);
        var read := ReadColumn(c, f, i, token);
        if read.Err? {
          return Err(read.error), cur;
        }
        f := read.value;
      }
      cur := Advance(ts, cur);
      token := Peek(ts, cur);
      if token.EOF? {
        break;
      }
      i := i + 1;
    }
    EndOfRun(ts, s, cur);
    assert ts[cur..e] == [];
    r := Ok(f);
  }

  /**
   * The if/else-if chain of the inner loop for one token at column `i` of a data line: the name,
   * latitude, longitude (negated when east is negative) or icon it casts the token to.
   */
  method ReadColumn(c: Config, f: Fields, i: int, token: Token) returns (r: Result<Fields, BuildError>)
    ensures r == Dispatch(c, f, i, token)
  {
    var name, lat, lon, iconURL := f.name, f.lat, f.lon, f.iconURL;
    if i == c.nameIndex {
      if !token.Str? {
        return Err(WrongTokenType);
      }
      name := Some(token.s);
    } else if i == c.latIndex {
      if !token.Num? {
        return Err(WrongTokenType);
      }
      lat := token.v;
    } else if i == c.lonIndex {
      if !token.Num? {
        return Err(WrongTokenType);
      }
      lon := token.v;
      if c.eastIsNeg {
        lon := -lon;
      }
    } else if i == c.iconIndex {
      if !token.Str? {
        return Err(WrongTokenType);
      }
      iconURL := Some(token.s);
    }
    r := Ok(Fields(name, lat, lon, iconURL));
  }

  /** A data line whose values extract puts one entry, from the values with the default icon filled in. */
  lemma DataLine(c: Config, st: State, line: seq<Token>, f: Fields)
    requires st.readHeader && Extract(c, st.fields, line, 0) == Ok(f)
    ensures Step(c, st, line)
         == Ok(State(true, WithDefaultIcon(c, f), st.lineCount + 1, st.puts + [EntryOf(WithDefaultIcon(c, f))]))
  {
  }

  /** A line that fails ends the pass with its error. */
  lemma LineFails(c: Config, ts: seq<Token>, s: nat, st: State, pass: Result<State, BuildError>)
    requires s < |ts| && !ts[s].EOF?
    requires RunLines(c, Lines(ts[s..]), st) == pass
    requires Step(c, st, ts[s..s + FieldRun(ts[s..])]).Err?
    ensures pass == Err(Step(c, st, ts[s..s + FieldRun(ts[s..])]).error)
  {
    LinesAt(ts, s);
    RunLinesCons(c, ts[s..s + FieldRun(ts[s..])], Lines(ts[Advance(ts, s + FieldRun(ts[s..]))..]), st);
  }

  /** A line that succeeds leaves the rest of the pass to the lines after it. */
  lemma LineDone(c: Config, ts: seq<Token>, s: nat, st: State, st1: State, pass: Result<State, BuildError>)
    requires s < |ts| && !ts[s].EOF?
    requires RunLines(c, Lines(ts[s..]), st) == pass
    requires Step(c, st, ts[s..s + FieldRun(ts[s..])]) == Ok(st1)
    ensures s + FieldRun(ts[s..]) <= |ts|
    ensures RunLines(c, Lines(ts[Advance(ts, s + FieldRun(ts[s..]))..]), st1) == pass
  {
    LinesAt(ts, s);
    RunLinesCons(c, ts[s..s + FieldRun(ts[s..])], Lines(ts[Advance(ts, s + FieldRun(ts[s..]))..]), st);
  }

  /** Running a line and then the rest. */
  lemma RunLinesCons(c: Config, line: seq<Token>, rest: seq<seq<Token>>, st: State)
    ensures RunLines(c, [line] + rest, st)
         == if Step(c, st, line).Err? then Err(Step(c, st, line).error)
            else RunLines(c, rest, Step(c, st, line).value)
  {
    assert ([line] + rest)[0] == line && ([line] + rest)[1..] == rest;
  }

  /** A token that is neither Newline nor EOF, at most at the end of the run, lies inside the run. */
  lemma FieldAt(ts: seq<Token>, s: nat, cur: nat)
    requires s <= |ts| && s <= cur <= s + FieldRun(ts[s..]) <= |ts|
    requires !Peek(ts, cur).Newline? && !Peek(ts, cur).EOF?
    ensures cur < s + FieldRun(ts[s..])
  {
  }

  /** Extracting from the cursor on: the token under it, then the rest of the line. */
  lemma ExtractAt(c: Config, f: Fields, ts: seq<Token>, cur: nat, end: nat, i: int)
    requires cur < end <= |ts|
    ensures Extract(c, f, ts[cur..end], i)
         == if Dispatch(c, f, i, ts[cur]).Err? then Err(Dispatch(c, f, i, ts[cur]).error)
            else Extract(c, Dispatch(c, f, i, ts[cur]).value, ts[cur + 1..end], i + 1)
  {
    assert ts[cur..end][0] == ts[cur] && ts[cur..end][1..] == ts[cur + 1..end];
  }

  /** The inner loop stops exactly at the end of the run of fields. */
  lemma EndOfRun(ts: seq<Token>, s: nat, cur: nat)
    requires s <= |ts| && s <= cur <= s + FieldRun(ts[s..]) <= |ts|
    requires Peek(ts, cur).Newline? || Peek(ts, cur).EOF?
    ensures cur == s + FieldRun(ts[s..])
  {
  }
  // ---- the handler ----

  /** The palette commands actionPerformed tells apart; their string values are not part of this model. */
  datatype Command = ShowLocationsCommand | ShowNamesCommand | ReadDataCommand | OtherCommand(name: string)

  /** A range query of the display: north-west and south-east corners. */
  datatype Rect = Rect(nwLat: real, nwLon: real, seLat: real, seLon: real)

  /** What the BufferedReader handed to readCSVLineFromFile does: absent, failing, exhausted or a line. */
  datatype LineSource = NoReader | ReadFails | AtEnd | Line(text: string)

  /** The property names of the handler. */
  const LocationFileProperty := "locationFile"
  const CsvHeaderProperty := "csvFileHasHeader"
  const EastIsNegProperty := "eastIsNeg"
  const NameIndexProperty := "nameIndex"
  const LatIndexProperty := "latIndex"
  const LonIndexProperty := "lonIndex"
  const IconIndexProperty := "iconIndex"
  const DefaultIconURLProperty := "defaultIconURL"
  const ClassProperty := "class"
  const HandlerClassName := "com.bbn.openmap.layer.location.csv.CSVLocationHandler"

  /** Boolean.toString. */
  function BoolText(b: bool): string {
    if b then "true" else "false"
  }

  /** PropUtils.unnull: null becomes the empty string. */
  function Unnull(s: Option<string>): string {
    s.GetOr("")
  }

  /** How getProperties writes a column index: the unset index -1 as the empty string, others in decimal. */
  function IndexText(k: int): (t: string)
    ensures t == "" <==> k == -1
    ensures t != "" ==> IsDecimal(t)
  {
    if k != -1 then IntText(k) else ""
  }

  /** Reading an index property back with -1 as the default: text that is not a decimal number gives -1. */
  function ParsedIndex(t: string): int {
    if IsDecimal(t) then IntValue(t) else -1
  }

  /** A written index reads back as the same index, the unset one included. */
  lemma IndexRoundTrip(k: int)
    ensures ParsedIndex(IndexText(k)) == k
  {
    if k != -1 {
      IntTextRoundTrip(k);
    }
  }

  /** The slots of `slots` with the first of them replaced by the tokens, as far as there are tokens. */
  function Overlay(slots: seq<string>, toks: seq<string>): (r: seq<string>)
    ensures |r| == |slots|
    ensures forall k :: 0 <= k < |r| ==> r[k] == (if k < |toks| then toks[k] else slots[k])
  {
    if |toks| < |slots| then toks + slots[|toks|..] else toks[..|slots|]
  }

  /** Filling as many slots as there are tokens gives exactly the tokens. */
  lemma OverlayExact(slots: seq<string>, toks: seq<string>)
    requires |slots| == |toks|
    ensures Overlay(slots, toks) == toks
  {
    assert toks[..|slots|] == toks;
  }

  /** Distinct property names stay distinct under a common prefix. */
  lemma PrefixedDistinct(prefix: string, a: string, b: string)
    requires a != b
    ensures prefix + a != prefix + b
  {
    assert (prefix + a)[|prefix|..] == a;
    assert (prefix + b)[|prefix|..] == b;
  }

  class CSVLocationHandler {
    /** The path or URL of the CSV file. */
    var locationFile: Option<string>
    /** The index built by createData; None until built, after a reload command, or when no index could be built. */
    var quadtree: Option<seq<Entry>>
    var eastIsNeg: bool
    var csvHasHeader: bool
    var nameIndex: int
    var latIndex: int
    var lonIndex: int
    var iconIndex: int
    var defaultIconURL: Option<string>

    /** Every attribute at its default: no file, no index, no header, every column unset. */
    constructor ()
      ensures locationFile.None? && quadtree.None? && !eastIsNeg && !csvHasHeader
      ensures nameIndex == -1 && latIndex == -1 && lonIndex == -1 && iconIndex == -1
      ensures defaultIconURL.None?
    {
      locationFile := None;
      quadtree := None;
      eastIsNeg := false;
      csvHasHeader := false;
      nameIndex := -1;
      latIndex := -1;
      lonIndex := -1;
      iconIndex := -1;
      defaultIconURL := None;
    }

    /** The attributes createData reads. */
    function Settings(): Config
      reads this
    {
      Config(nameIndex, latIndex, lonIndex, iconIndex, eastIsNeg, defaultIconURL)
    }

    /**
     * createData over the tokens of the file (None: the file cannot be opened). It returns null when
     * lat or lon is unset, throws HandleError on a source that cannot be opened or a mistyped token,
     * and flips csvHasHeader and starts over when no data line was found.
     */
    method CreateData(source: Option<seq<Token>>) returns (r: Result<Option<seq<Entry>>, BuildError>)
      modifies this`csvHasHeader
      ensures r == Build(old(Settings()), old(csvHasHeader), source).index
      ensures csvHasHeader == Build(old(Settings()), old(csvHasHeader), source).hasHeader
      decreases RetryMeasure(Settings(), csvHasHeader, source)
    {
      if latIndex == -1 || lonIndex == -1 {
        return Ok(None);
      }
      if source.None? {
        return Err(SourceUnavailable);
      }
      var pass := ReadTokens(Settings(), csvHasHeader, source.value);
      if pass.Err? {
        return Err(pass.error);
      }
      if pass.value.lineCount == 0 && pass.value.readHeader {
        RetryAtMostOnce(Settings(), csvHasHeader, source.value);
        csvHasHeader := !csvHasHeader;
        r := CreateData(source);
        return;
      }
      return Ok(Some(pass.value.puts));
    }

    /**
     * reloadData: the index is replaced by a fresh build; when the build throws, the exception
     * is `thrown` and the old index stays.
     */
    method ReloadData(source: Option<seq<Token>>) returns (thrown: Option<BuildError>)
      modifies this`quadtree, this`csvHasHeader
      ensures var b := Build(old(Settings()), old(csvHasHeader), source);
        && csvHasHeader == b.hasHeader
        && (if b.index.Ok? then thrown.None? && quadtree == b.index.value
            else thrown == Some(b.index.error) && quadtree == old(quadtree))
    {
      var built := CreateData(source);
      if built.Err? {
        return Some(built.error);
      }
      quadtree := built.value;
      return None;
    }

    /**
     * get: the index is built on the first call only (and again after a null build or a reload
     * command); the locations the query `search` finds in `area` are added to `graphicList`.
     * A build that throws leaves the index unset and is returned as the error.
     */
    method Get(source: Option<seq<Token>>, search: (seq<Entry>, Rect, seq<Location>) -> seq<Location>,
               area: Rect, graphicList: seq<Location>)
      returns (r: Result<seq<Location>, BuildError>)
      modifies this`quadtree, this`csvHasHeader
      ensures old(quadtree).Some? ==>
        && quadtree == old(quadtree) && csvHasHeader == old(csvHasHeader)
        && r == Ok(search(quadtree.value, area, graphicList))
      ensures old(quadtree).None? ==>
        var b := Build(old(Settings()), old(csvHasHeader), source);
        && csvHasHeader == b.hasHeader
        && (if b.index.Ok? then
              && quadtree == b.index.value
              && r == Ok(if quadtree.Some? then search(quadtree.value, area, graphicList) else graphicList)
            else quadtree.None? && r == Err(b.index.error))
    {
      if quadtree.None? {
        var built := CreateData(source);
        if built.Err? {
          return Err(built.error);
        }
        quadtree := built.value;
      }
      if quadtree.Some? {
        r := Ok(search(quadtree.value, area, graphicList));
      } else {
        r := Ok(graphicList);
      }
    }

    /** The reload command of the palette drops the index, so that the next get rebuilds it. */
    method ActionPerformed(cmd: Command)
      modifies this`quadtree
      ensures quadtree == (if cmd.ReadDataCommand? then None else old(quadtree))
    {
      if cmd.ReadDataCommand? {
        quadtree := None;
      }
    }

    /**
     * readCSVLineFromFile: the next line of the reader split at commas (empty fields dropped).
     * Without an array the result is a new one holding exactly the fields; with one, its first
     * slots are overwritten by the fields, as many as both have, the rest keep their values.
     * A read that fails or finds the end gives null; without a reader the array comes back untouched.
     */
    method ReadCSVLineFromFile(ranFile: LineSource, retPaths: array?<string>) returns (r: array?<string>)
      modifies retPaths
      ensures ranFile.NoReader? ==> r == retPaths && (retPaths != null ==> retPaths[..] == old(retPaths[..]))
      ensures ranFile.ReadFails? || ranFile.AtEnd? ==>
        r == null && (retPaths != null ==> retPaths[..] == old(retPaths[..]))
      ensures ranFile.Line? && retPaths == null ==> r != null && fresh(r) && r[..] == Tokens(ranFile.text, ',')
      ensures ranFile.Line? && retPaths != null ==>
        r == retPaths && r[..] == Overlay(old(retPaths[..]), Tokens(ranFile.text, ','))
    {
      if ranFile.NoReader? {
        return retPaths;
      }
      if !ranFile.Line? {
        return null;
      }
      var tokens := Tokens(ranFile.text, ',');
      var numPaths := |tokens|;
      var paths: array<string>;
      if retPaths == null {
        paths := new string[numPaths](_ => "");
      } else {
        paths := retPaths;
        numPaths := retPaths.Length;
      }
      ghost var before := paths[..];
      var i := 0;
      while i < numPaths
        invariant 0 <= i <= numPaths == paths.Length && i <= |tokens|
        invariant forall k :: 0 <= k < paths.Length ==> paths[k] == (if k < i then tokens[k] else before[k])
      {
        if i >= |tokens| {
          // nextToken throws NoSuchElementException; the slots filled so far stay filled
          break;
        }
        paths[i] := tokens[i];
        i := i + 1;
      }
      assert paths[..] == Overlay(before, tokens);
      if retPaths == null {
        OverlayExact(before, tokens);
      }
      return paths;
    }

    /**
     * getProperties: `props` (what the superclass wrote) with this handler's class and attributes
     * under `prefix`, the scoped property prefix.
     */
    function GetProperties(prefix: string, props: map<string, string>): (m: map<string, string>)
      reads this
      ensures forall k :: k in props ==> k in m
    {
      props[prefix + ClassProperty := HandlerClassName]
           [prefix + LocationFileProperty := Unnull(locationFile)]
           [prefix + EastIsNegProperty := BoolText(eastIsNeg)]
           [prefix + NameIndexProperty := IndexText(nameIndex)]
           [prefix + LatIndexProperty := IndexText(latIndex)]
           [prefix + LonIndexProperty := IndexText(lonIndex)]
           [prefix + IconIndexProperty := IndexText(iconIndex)]
           [prefix + DefaultIconURLProperty := Unnull(defaultIconURL)]
    }
  }

  /**
   * What getProperties writes reads back as the handler's own attributes: every column index (an
   * unset one too) and eastIsNeg exactly, the file and default icon with null as the empty string.
   */
  lemma GetPropertiesRoundTrip(h: CSVLocationHandler, prefix: string, props: map<string, string>)
    ensures var m := h.GetProperties(prefix, props);
      && m[prefix + ClassProperty] == HandlerClassName
      && m[prefix + LocationFileProperty] == Unnull(h.locationFile)
      && (m[prefix + EastIsNegProperty] == "true" <==> h.eastIsNeg)
      && ParsedIndex(m[prefix + NameIndexProperty]) == h.nameIndex
      && ParsedIndex(m[prefix + LatIndexProperty]) == h.latIndex
      && ParsedIndex(m[prefix + LonIndexProperty]) == h.lonIndex
      && ParsedIndex(m[prefix + IconIndexProperty]) == h.iconIndex
      && m[prefix + DefaultIconURLProperty] == Unnull(h.defaultIconURL)
  {
    var m := h.GetProperties(prefix, props);
    var m1 := props[prefix + ClassProperty := HandlerClassName];
    var m2 := m1[prefix + LocationFileProperty := Unnull(h.locationFile)];
    var m3 := m2[prefix + EastIsNegProperty := BoolText(h.eastIsNeg)];
    var m4 := m3[prefix + NameIndexProperty := IndexText(h.nameIndex)];
    var m5 := m4[prefix + LatIndexProperty := IndexText(h.latIndex)];
    var m6 := m5[prefix + LonIndexProperty := IndexText(h.lonIndex)];
    var m7 := m6[prefix + IconIndexProperty := IndexText(h.iconIndex)];
    assert m == m7[prefix + DefaultIconURLProperty := Unnull(h.defaultIconURL)];
    // names of different lengths differ under the prefix by their lengths alone
    assert m[prefix + IconIndexProperty] == IndexText(h.iconIndex);
    assert m[prefix + LonIndexProperty] == IndexText(h.lonIndex) by {
      assert |prefix + LonIndexProperty| == |prefix| + 8;
    }
    assert m[prefix + LatIndexProperty] == IndexText(h.latIndex) by {
      PrefixedDistinct(prefix, LatIndexProperty, LonIndexProperty);
    }
    assert m[prefix + NameIndexProperty] == IndexText(h.nameIndex) by {
      PrefixedDistinct(prefix, NameIndexProperty, IconIndexProperty);
    }
    assert m[prefix + EastIsNegProperty] == BoolText(h.eastIsNeg) by {
      PrefixedDistinct(prefix, EastIsNegProperty, NameIndexProperty);
      PrefixedDistinct(prefix, EastIsNegProperty, IconIndexProperty);
    }
    assert m[prefix + LocationFileProperty] == Unnull(h.locationFile) by {
      assert |prefix + LocationFileProperty| == |prefix| + 12;
    }
    assert m[prefix + ClassProperty] == HandlerClassName by {
      assert |prefix + ClassProperty| == |prefix| + 5;
    }
    IndexRoundTrip(h.nameIndex);
    IndexRoundTrip(h.latIndex);
    IndexRoundTrip(h.lonIndex);
    IndexRoundTrip(h.iconIndex);
  }

  /** The properties the superclass wrote under other names survive getProperties. */
  lemma GetPropertiesKeepsOthers(h: CSVLocationHandler, prefix: string, props: map<string, string>, k: string)
    requires k in props
    requires forall name :: name in [ClassProperty, LocationFileProperty, EastIsNegProperty, NameIndexProperty,
                                     LatIndexProperty, LonIndexProperty, IconIndexProperty, DefaultIconURLProperty]
                            ==> k != prefix + name
    ensures h.GetProperties(prefix, props)[k] == props[k]
  {
  }
}
