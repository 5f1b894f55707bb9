# CSV location handler and SHIS request builder, modelled in Dafny

This project models two parts of OpenMap:

- **`CSVLocationHandler`** reads a comma-separated file of locations into a quad tree that the location layer queries.
  - `createData` is modelled as an imperative method, `CsvHandler.ReadTokens` with `CsvHandler.ScanLine`. It walks a stream of typed tokens (text, number, end of line, end of input) with its two nested loops.
  - It is proved equal to a line-by-line specification, `CsvRows.Pass` and `CsvRows.Build`. That specification covers:
    - the header skip;
    - the column priority (name, then latitude, then longitude, then icon);
    - the `eastIsNeg` negation;
    - values carried over from the previous line;
    - the default icon;
    - one put per data line;
    - the fatal errors;
    - the single retry with the header flag flipped.
  - The lemmas in `CsvRows` state what a pass and a whole build yield.
  - The handler class keeps the lazily built index in its `quadtree` field. `get` builds it on first use, and the reload command clears it. The class also has the comma-split line reader and the property serialisation whose indices read back exactly.
- **`SHISLayer`** builds the HTTP request sent to a SimpleHttpImageServer.
  - `setProperties` derives the query header from host, port and path.
  - `createQueryString` appends the fixed parameters, the projection (or placeholders), and the optional format, transparency and background color, in that order.
  - The lemmas prove three things:
    - the request is the header followed by the parameters joined by `&`;
    - a server splitting the request at `&` and `=` gets the parameters back;
    - each optional parameter is present exactly when its attribute is set.

The quad tree is modelled as the log of its `put` calls, each holding the four arguments `createLocation` received. Its range query is a function parameter of `Get`. The CSV file enters as its token sequence.

Behaviour of `createData` worth noting:

- **Mistyped token.** A token of the wrong kind in a configured column throws `ClassCastException`, so the whole build aborts with `HandleError`.
- **Retry condition.** The build is retried only when `lineCount == 0 && readHeader`.
- **Empty file.** With `csvHasHeader` false, an empty file is also retried, and afterwards `csvHasHeader` stays true.

## Model

| member | source | states |
|---|---|---|
| `CsvHandler.ReadTokens` | src/openmap/com/bbn/openmap/layer/location/csv/CSVLocationHandler.java:297-371 | The outer loop of createData returns exactly the line-by-line pass `Pass`: the header flag, the carried values, lineCount and the sequence of puts, or the first error. |
| `CsvHandler.ScanLine` | src/openmap/com/bbn/openmap/layer/location/csv/CSVLocationHandler.java:325-354 | The inner loop stops at the end of the line's run of fields. After the header it yields exactly `Extract` of those tokens, the first mistyped token giving WrongTokenType. Before the header it still reads the line's tokens but extracts nothing. |
| `CsvHandler.ReadColumn` | src/openmap/com/bbn/openmap/layer/location/csv/CSVLocationHandler.java:332-345 | The if/else-if chain for one token equals `Dispatch`: name, then lat, then lon (negated when eastIsNeg), then icon; any other column leaves the values alone; a failed cast is WrongTokenType. |
| `CsvHandler.DataLine` | src/openmap/com/bbn/openmap/layer/location/csv/CSVLocationHandler.java:356-369 | A data line whose tokens extract increments lineCount and puts one entry. The entry is built from the extracted values, with the default icon substituted when no icon is known. |
| `CsvHandler.LineFails` | src/openmap/com/bbn/openmap/layer/location/csv/CSVLocationHandler.java:372-384 | A line that fails ends the whole pass with that line's error. |
| `CsvHandler.LineDone` | src/openmap/com/bbn/openmap/layer/location/csv/CSVLocationHandler.java:370-371 | After a successful line, the rest of the pass is the pass of the lines after its Newline. |
| `CsvRows.Advance` | src/openmap/com/bbn/openmap/layer/location/csv/CSVLocationHandler.java:347 | Reading the next token moves the cursor exactly one past any token other than EOF, and never beyond the end of the stream. |
| `CsvRows.FieldRun` | src/openmap/com/bbn/openmap/layer/location/csv/CSVLocationHandler.java:330 | The tokens the inner loop visits are fields, and the run stops at the first Newline or EOF. |
| `CsvRows.LinesAt` | src/openmap/com/bbn/openmap/layer/location/csv/CSVLocationHandler.java:325-371 | The lines from a cursor are the line's field run followed by the lines after its Newline. |
| `CsvRows.ExtractSpec` | src/openmap/com/bbn/openmap/layer/location/csv/CSVLocationHandler.java:330-354 | Extracting a line fails exactly when some token has the wrong kind for its column. Otherwise it yields the reference values `PickedFrom`: each value comes from its column when the line reaches it and no earlier role claims the index, and is carried over from the previous line otherwise. |
| `CsvRows.PickedStep` | src/openmap/com/bbn/openmap/layer/location/csv/CSVLocationHandler.java:332-345 | Dispatching the first token and then taking the reference values of the rest gives the reference values of the whole line. |
| `CsvRows.OtherColumnIgnored` | src/openmap/com/bbn/openmap/layer/location/csv/CSVLocationHandler.java:333-344 | Replacing the token of a column that no role claims changes nothing about the line's result. |
| `CsvRows.RunDataLines` | src/openmap/com/bbn/openmap/layer/location/csv/CSVLocationHandler.java:325-371 | Data lines run without error exactly when all are well typed. Then there is one put per line, made from that line and the values of the put before it. lineCount equals the number of puts, and earlier puts are kept. |
| `CsvRows.DataStep` | src/openmap/com/bbn/openmap/layer/location/csv/CSVLocationHandler.java:356-369 | A well-typed data line adds exactly one put of its reference values and keeps the carried values equal to the last put. |
| `CsvRows.MistypedLine` | src/openmap/com/bbn/openmap/layer/location/csv/CSVLocationHandler.java:378-379 | A data line with a mistyped token makes the run fail. |
| `CsvRows.FollowStep` | src/openmap/com/bbn/openmap/layer/location/csv/CSVLocationHandler.java:309-371 | The puts after a line and the rest follow the line and the rest, each from the values carried into it. |
| `CsvRows.PassRows` | src/openmap/com/bbn/openmap/layer/location/csv/CSVLocationHandler.java:297-371 | One pass fails exactly when a data line is mistyped. Otherwise the header line (when expected) gets no put, every other line exactly one from its own tokens and the previous values, and lineCount equals the number of puts. readHeader ends true unless a header was expected and the file has no line. |
| `CsvRows.RetryAtMostOnce` | src/openmap/com/bbn/openmap/layer/location/csv/CSVLocationHandler.java:398-402 | When a pass asks for the retry, the pass with the header flag flipped over the same token stream does not, so createData recurses at most once. |
| `CsvRows.UnsetColumnsGiveNull` | src/openmap/com/bbn/openmap/layer/location/csv/CSVLocationHandler.java:287-290 | With the lat or lon index unset, the build returns null whatever the source, even an unavailable one, and the header flag is unchanged. |
| `CsvRows.BuildIndex` | src/openmap/com/bbn/openmap/layer/location/csv/CSVLocationHandler.java:283-405 | The header flag flips exactly when the file has no line and no header was expected, or a single line and a header was expected. The build fails exactly when a data line under the final flag is mistyped. Otherwise the index holds one put per data line under the final flag, and is empty only for a file without lines. |
| `CsvRows.TrailingNewlineOptional` | src/openmap/com/bbn/openmap/layer/location/csv/CSVLocationHandler.java:350-352 | A last line without a trailing newline yields the same lines as with one, so it is still put. |
| `CsvRows.InputEndsAtEOF` | src/openmap/com/bbn/openmap/layer/location/csv/CSVLocationHandler.java:325 | Nothing after the first EOF token is read. |
| `CsvHandler.CSVLocationHandler.constructor` | src/openmap/com/bbn/openmap/layer/location/csv/CSVLocationHandler.java:106-167 | All attributes start at their declared defaults: no file, no index, no header, every index -1, no default icon. |
| `CsvHandler.CSVLocationHandler.CreateData` | src/openmap/com/bbn/openmap/layer/location/csv/CSVLocationHandler.java:283-405 | createData returns the index `Build` specifies: null, the puts of the pass, or HandleError. It leaves csvHasHeader where `Build` says, flipped after a retry. |
| `CsvHandler.CSVLocationHandler.ReloadData` | src/openmap/com/bbn/openmap/layer/location/csv/CSVLocationHandler.java:275-277 | reloadData stores the built index. On HandleError the exception is returned and the old index stays. |
| `CsvHandler.CSVLocationHandler.Get` | src/openmap/com/bbn/openmap/layer/location/csv/CSVLocationHandler.java:482-501 | With an index, get rebuilds nothing and returns the query's result. Without one, it builds first: a null build returns graphicList unchanged, and a throwing build leaves the index unset and returns the error. |
| `CsvHandler.CSVLocationHandler.ActionPerformed` | src/openmap/com/bbn/openmap/layer/location/csv/CSVLocationHandler.java:580-583 | The reload command clears the index, so the next get rebuilds it. Every other command leaves the index alone. |
| `CsvHandler.CSVLocationHandler.ReadCSVLineFromFile` | src/openmap/com/bbn/openmap/layer/location/csv/CSVLocationHandler.java:447-470 | Without a reader, the array comes back untouched. A failing or exhausted reader gives null. Without an array, the result is a new array of exactly the comma-separated tokens. With one, its leading slots, as many as there are tokens, are overwritten in place and the rest keep their values. |
| `CsvHandler.Overlay` | src/openmap/com/bbn/openmap/layer/location/csv/CSVLocationHandler.java:459-462 | Slot k holds token k when there is one and its old value otherwise; the length is the array's. |
| `CsvHandler.OverlayExact` | src/openmap/com/bbn/openmap/layer/location/csv/CSVLocationHandler.java:457-458 | An array sized to the tokens ends up holding exactly the tokens. |
| `Text.TokensOfJoin` | src/openmap/com/bbn/openmap/layer/location/csv/CSVLocationHandler.java:454-455 | Tokenizing a line written from non-empty, comma-free fields gives those fields back. |
| `Text.Tokens` | src/openmap/com/bbn/openmap/layer/location/csv/CSVLocationHandler.java:454 | Every token of a line is non-empty and holds no comma. |
| `CsvHandler.CSVLocationHandler.GetProperties` | src/openmap/com/bbn/openmap/layer/location/csv/CSVLocationHandler.java:220-236 | Every property already in props is still there. |
| `CsvHandler.GetPropertiesRoundTrip` | src/openmap/com/bbn/openmap/layer/location/csv/CSVLocationHandler.java:225-233 | Under the prefix, the class property is the handler's class name. Every column index, an unset one (-1, written as "") included, reads back as itself. eastIsNeg reads "true" exactly when set. The file and default icon are written with null as "". |
| `CsvHandler.GetPropertiesKeepsOthers` | src/openmap/com/bbn/openmap/layer/location/csv/CSVLocationHandler.java:220-236 | Properties under other names keep their values. |
| `CsvHandler.IndexText` | src/openmap/com/bbn/openmap/layer/location/csv/CSVLocationHandler.java:229-232 | An index is written as "" exactly when it is -1, otherwise as decimal text. |
| `CsvHandler.IndexRoundTrip` | src/openmap/com/bbn/openmap/layer/location/csv/CSVLocationHandler.java:229-232 | A written index, -1 included, reads back as the same index. |
| `Text.IntTextRoundTrip` | src/openmap/com/bbn/openmap/layer/location/csv/CSVLocationHandler.java:229-232 | Integer.toString produces decimal text that denotes the number. |
| `Shis.SHISLayer.constructor` | src/core/src/main/java/com/bbn/openmap/layer/image/SHISLayer.java:67-83 | Every attribute of a new layer is null, the query header included. |
| `Shis.SHISLayer.SetProperties` | src/core/src/main/java/com/bbn/openmap/layer/image/SHISLayer.java:142-170 | The six attributes are read under the prefix, with the path defaulting to "openmap". The header is derived from host, port and path. |
| `Shis.QueryHeader` | src/core/src/main/java/com/bbn/openmap/layer/image/SHISLayer.java:158-165 | The header is null exactly when host or port is null. |
| `Shis.HeaderRoundTrip` | src/core/src/main/java/com/bbn/openmap/layer/image/SHISLayer.java:164-165 | A header is "http://" host ":" port "/" path "?". It gives back host, port and path when the host has no ':' and the port no '/'. |
| `Shis.QueryLayout` | src/core/src/main/java/com/bbn/openmap/layer/image/SHISLayer.java:93-127 | With a header, the request is the header followed by all parameters as key=value joined by '&', and nothing after them (getLayerMarkers is null). |
| `Shis.QueryBuffer` | src/core/src/main/java/com/bbn/openmap/layer/image/SHISLayer.java:99-127 | The buffer is the header, REQUEST=MAP, then each further parameter as "&key=value" in order. |
| `Shis.ProjChainSome` | src/core/src/main/java/com/bbn/openmap/layer/image/SHISLayer.java:102-104 | With a projection, PROJTYPE, SCALE, LAT, LON, HEIGHT and WIDTH carry its name, scale, center latitude and longitude, height and width, in that order. |
| `Shis.ProjChainNone` | src/core/src/main/java/com/bbn/openmap/layer/image/SHISLayer.java:105-107 | Without a projection, the same six parameters carry name_undefined … width_undefined, in that order. |
| `Shis.OptChain` | src/core/src/main/java/com/bbn/openmap/layer/image/SHISLayer.java:109-119 | FORMAT, TRANSPARENT=true and BGCOLOR are appended in that order, each only when its attribute is set. |
| `Shis.QueryRoundTrip` | src/core/src/main/java/com/bbn/openmap/layer/image/SHISLayer.java:93-127 | With a header and no '&' in a value, the request starts with the header. After it, splitting at '&' and cutting each piece at its first '=' gives exactly the parameters, in order. |
| `Shis.ParametersClean` | src/core/src/main/java/com/bbn/openmap/layer/image/SHISLayer.java:99-119 | No parameter name holds '&' or '='. No value holds '&' when the projection texts, format and color hold none. |
| `Shis.ParameterNames` | src/core/src/main/java/com/bbn/openmap/layer/image/SHISLayer.java:99-119 | The parameter names are always REQUEST, PROJTYPE, SCALE, LAT, LON, HEIGHT, WIDTH, followed by FORMAT, TRANSPARENT and BGCOLOR in that order, each only when set. |
| `Shis.OptionalParameters` | src/core/src/main/java/com/bbn/openmap/layer/image/SHISLayer.java:109-119 | FORMAT, TRANSPARENT and BGCOLOR each occur in the request exactly when their attribute is set. |
| `Shis.TransparentIsTrue` | src/core/src/main/java/com/bbn/openmap/layer/image/SHISLayer.java:113-115 | TRANSPARENT is always sent as "true", whatever the transparent attribute holds. |
| `Shis.ServerNamePrefixesQuery` | src/core/src/main/java/com/bbn/openmap/layer/image/SHISLayer.java:93-131 | getServerName is null exactly when createQueryString is null; otherwise the request starts with it followed by REQUEST=MAP&. |
| `Shis.Render` | src/core/src/main/java/com/bbn/openmap/layer/image/SHISLayer.java:99-119 | Each pair is written as key=value, one entry per pair. |

## Left out

**Left out of the CSV handler:**

- **Quad tree.** `QuadTree` is a separate utility class; its insertion, splitting and range query are not modelled. The tree is its log of puts, and the query is a parameter of `Get`.
- **File and tokenizer I/O.** `CSVTokenizer`, URL resolution and opening or closing the stream are replaced by the token sequence. An unavailable source is `None`, which gives `SourceUnavailable`.
- **File reopened on retry.** Both passes of `Build` read the same token sequence, with the same availability. The recursive `createData` call resolves and reopens `locationFile`. A file that changes, or becomes unavailable, between the two opens is not modelled, and `CsvRows.RetryAtMostOnce` does not cover it.
- **Other exceptions.** Mid-read I/O, array-index, number-format, null-pointer and access-control exceptions are not modelled. Only the class cast and the unavailable source are.
- **`createLocation`.** Building a `URLRasterLocation` with its paints and labels is rendering; a put holds the four arguments instead.
- **Float narrowing.** `floatValue` narrowing of the coordinates is not modelled. Coordinates are reals, and negation is the only arithmetic.
- **GUI.** `getGUI`, `fillLocationPopUpMenu`, the show-locations/show-names branches of `actionPerformed`, and `doPrepare`/`repaint` are user interface. The commands are a datatype, since the values of their string constants are not part of this model.
- **Support code.**
  - Debug output, `getPropertyInfo` and the `super.getProperties`/`setProperties` calls are left out.
  - `PropUtils.getScopedPropertyPrefix` becomes the `prefix` parameter.
  - Reading an index property back is `ParsedIndex`, with -1 for text that is not a number.
- **Subclasses.** `getProperties` writes the runtime class name. The model fixes it to `HandlerClassName`, so subclasses of the handler are not modelled.
- **Handler `setProperties`.** The property parsing is PropUtils work and is left out. Only the serialisation direction is modelled.
- **Method split.** `CsvHandler.ReadTokens` takes the inner loop as the separate method `ScanLine`, and `ScanLine` takes the column chain as `ReadColumn`. They follow the code's order of reads and assignments, but the locals live across method boundaries.

**Left out of the SHIS layer:**

- **Projection text.** Projection values enter as the text `StringBuffer.append` prints for them; number formatting is not modelled.
- **Image decoding.** Image decoding (`ImageDecoder`) and tile fetching are left out.
- **Constant values.** The values of the `ImageServerConstants` names are taken as spelled in the layer's class comment.
- **Getters and corruption.** `getProperties` of the layer is left out. A value containing '&' breaking the request apart is outside `Shis.QueryRoundTrip`; its requires excludes it.
