/**
 * SHISLayer: the request URL a SimpleHttpImageServer is sent for the current projection, and the
 * query header its properties give. The projection's numbers enter as the text the buffer prints.
 */
module Shis {
  import opened Wrappers
  import opened Text

  // ImageServerConstants, spelled as in the query template of the class comment
  const REQUEST := "REQUEST"
  const MAP := "MAP"
  const PROJTYPE := "PROJTYPE"
  const SCALE := "SCALE"
  const LAT := "LAT"
  const LON := "LON"
  const HEIGHT := "HEIGHT"
  const WIDTH := "WIDTH"
  const FORMAT := "FORMAT"
  const TRANSPARENT := "TRANSPARENT"
  const BGCOLOR := "BGCOLOR"

  /** Environment.OpenMapPrefix, the path used when none is configured. */
  const OpenMapPrefix := "openmap"

  const HostNameProperty := "host"
  const PortNumberProperty := "port"
  const PathProperty := "path"
  const ImageFormatProperty := "format"
  const BackgroundColorProperty := "backgroundColor"
  const TransparentProperty := "transparent"

  /** A projection as the request prints it: name, scale, center (latitude is its y, longitude its x), size. */
  datatype Projection = Projection(name: string, scale: string, centerLat: string, centerLon: string,
                                   height: string, width: string)

  /** Properties.getProperty: null for a key that is not there. */
  function GetProperty(props: map<string, string>, key: string): Option<string> {
    if key in props then Some(props[key]) else None
  }

  /** The header setProperties derives: null without a host or a port, else http://host:port/path? */
  function QueryHeader(host: Option<string>, port: Option<string>, path: string): (h: Option<string>)
    ensures h.None? <==> host.None? || port.None?
  {
    if host.None? || port.None? then None
    else Some("http://" + (if host.None? then "localhost" else host.value)
              + (if port.None? then "" else ":" + port.value) + "/" + path + "?")
  }

  /** Host, port and path read back out of a header: after "http://", up to the first ':', then up to the first '/'. */
  function ParseHeader(h: string): Option<(string, string, string)> {
    if |h| < 8 || h[..7] != "http://" || h[|h| - 1] != '?' then None
    else
      var (host, rest) := Cut(h[7..|h| - 1], ':');
      var (port, path) := Cut(rest, '/');
      Some((host, port, path))
  }

  /** A header gives back its host, port and path when the host has no ':' and the port no '/'. */
  lemma HeaderRoundTrip(host: string, port: string, path: string)
    requires ':' !in host && '/' !in port
    ensures QueryHeader(Some(host), Some(port), path).Some?
    ensures ParseHeader(QueryHeader(Some(host), Some(port), path).value) == Some((host, port, path))
  {
    var h := QueryHeader(Some(host), Some(port), path).value;
    assert h == "http://" + (host + [':'] + (port + ['/'] + path)) + "?";
    assert h[..7] == "http://";
    assert h[7..|h| - 1] == host + [':'] + (port + ['/'] + path);
    CutJoin(host, port + ['/'] + path, ':');
    CutJoin(port, path, '/');
  }

  /** The key/value pairs of the request, in the order createQueryString appends them. */
  function Parameters(p: Option<Projection>, imageFormat: Option<string>, transparent: Option<string>,
                      backgroundColor: Option<string>): seq<(string, string)>
  {
    [(REQUEST, MAP)] + ProjParams(p) + OptParams(imageFormat, transparent, backgroundColor)
  }

  /** The six projection parameters; without a projection each carries its fixed placeholder. */
  function ProjParams(p: Option<Projection>): seq<(string, string)> {
    if p.Some? then
      [(PROJTYPE, p.value.name), (SCALE, p.value.scale), (LAT, p.value.centerLat),
       (LON, p.value.centerLon), (HEIGHT, p.value.height), (WIDTH, p.value.width)]
    else
      [(PROJTYPE, "name_undefined"), (SCALE, "scale_undefined"), (LAT, "center_lat_undefined"),
       (LON, "center_lon_undefined"), (HEIGHT, "height_undefined"), (WIDTH, "width_undefined")]
  }

  /** FORMAT, TRANSPARENT (always "true") and BGCOLOR, each only when its attribute is set. */
  function OptParams(imageFormat: Option<string>, transparent: Option<string>, backgroundColor: Option<string>)
    : seq<(string, string)>
  {
    (if imageFormat.Some? then [(FORMAT, imageFormat.value)] else [])
    + (if transparent.Some? then [(TRANSPARENT, "true")] else [])
    + (if backgroundColor.Some? then [(BGCOLOR, backgroundColor.value)] else [])
  }

  /** Each pair as key=value. */
  function Render(ps: seq<(string, string)>): (r: seq<string>)
    ensures |r| == |ps|
    ensures forall k :: 0 <= k < |ps| ==> r[k] == ps[k].0 + "=" + ps[k].1
  {
    if ps == [] then [] else [ps[0].0 + "=" + ps[0].1] + Render(ps[1..])
  }

  /** The pairs of a query body: split at '&', each piece cut at its first '='. */
  function Decode(body: string): seq<(string, string)> {
    DecodeItems(SplitOn(body, '&'))
  }

  function DecodeItems(items: seq<string>): (r: seq<(string, string)>)
    ensures |r| == |items|
    ensures forall k :: 0 <= k < |items| ==> r[k] == Cut(items[k], '=')
  {
    if items == [] then [] else [Cut(items[0], '=')] + DecodeItems(items[1..])
  }

  function Keys(ps: seq<(string, string)>): (r: seq<string>)
    ensures |r| == |ps|
    ensures forall k :: 0 <= k < |ps| ==> r[k] == ps[k].0
  {
    if ps == [] then [] else [ps[0].0] + Keys(ps[1..])
  }

  class SHISLayer {
    var queryHeader: Option<string>
    var imageFormat: Option<string>
    var backgroundColor: Option<string>
    var transparent: Option<string>
    var host: Option<string>
    var port: Option<string>
    var path: Option<string>

    /** Every attribute null, so no query can be made yet. */
    constructor ()
      ensures queryHeader.None? && imageFormat.None? && backgroundColor.None? && transparent.None?
      ensures host.None? && port.None? && path.None?
    {
      queryHeader := None;
      imageFormat := None;
      backgroundColor := None;
      transparent := None;
      host := None;
      port := None;
      path := None;
    }

    /**
     * setProperties: the six attributes from `setList` under `prefix` (the scoped property prefix),
     * the path defaulting to openmap, and the query header derived from host, port and path.
     */
    method SetProperties(prefix: string, setList: map<string, string>)
      modifies this
      ensures host == GetProperty(setList, prefix + HostNameProperty)
      ensures port == GetProperty(setList, prefix + PortNumberProperty)
      ensures path == Some(GetProperty(setList, prefix + PathProperty).GetOr(OpenMapPrefix))
      ensures imageFormat == GetProperty(setList, prefix + ImageFormatProperty)
      ensures transparent == GetProperty(setList, prefix + TransparentProperty)
      ensures backgroundColor == GetProperty(setList, prefix + BackgroundColorProperty)
      ensures queryHeader == QueryHeader(host, port, path.value)
    {
      host := GetProperty(setList, prefix + HostNameProperty);
      port := GetProperty(setList, prefix + PortNumberProperty);
      path := GetProperty(setList, prefix + PathProperty);
      imageFormat := GetProperty(setList, prefix + ImageFormatProperty);
      transparent := GetProperty(setList, prefix + TransparentProperty);
      backgroundColor := GetProperty(setList, prefix + BackgroundColorProperty);

      if path.None? {
        path := Some(OpenMapPrefix);
      }

      if host.None? || port.None? {
        queryHeader := None;
        return;
      }

      queryHeader := Some("http://" + (if host.None? then "localhost" else host.value)
                          + (if port.None? then "" else ":" + port.value) + "/" + path.value + "?");
    }

    /** createQueryString: null without a header, else the header followed by the request parameters. */
    function CreateQueryString(p: Option<Projection>): Option<string>
      reads this
    {
      if queryHeader.None? then None
      else
        var buf1 := WithProjection(queryHeader.value + REQUEST + "=" + MAP + "&", p);
        var buf4 := WithOptions(buf1, imageFormat, transparent, backgroundColor);
        var layers := GetLayerMarkers();
        Some(if layers.Some? then buf4 + "&" + layers.value else buf4)
    }

    /** getServerName: the query header. */
    function GetServerName(): Option<string>
      reads this
    {
      queryHeader
    }

    /** getLayerMarkers: not implemented, always null. */
    function GetLayerMarkers(): Option<string> {
      None
    }
  }

  /** The buffer after the projection block of createQueryString: its six parameters, or their placeholders. */
  function WithProjection(buf0: string, p: Option<Projection>): string {
    if p.Some? then
      buf0 + PROJTYPE + "=" + p.value.name + "&" + SCALE + "=" + p.value.scale + "&" + LAT + "="
      + p.value.centerLat + "&" + LON + "=" + p.value.centerLon + "&" + HEIGHT + "=" + p.value.height
      + "&" + WIDTH + "=" + p.value.width
    else
      buf0 + PROJTYPE + "=name_undefined&" + SCALE + "=scale_undefined&" + LAT + "=center_lat_undefined&"
      + LON + "=center_lon_undefined&" + HEIGHT + "=height_undefined&" + WIDTH + "=width_undefined"
  }

  /** The buffer after the optional blocks of createQueryString: format, transparency, background color. */
  function WithOptions(buf1: string, imageFormat: Option<string>, transparent: Option<string>,
                       backgroundColor: Option<string>): string
  {
    var buf2 := if imageFormat.Some? then buf1 + "&" + FORMAT + "=" + imageFormat.value else buf1;
    var buf3 := if transparent.Some? then buf2 + "&" + TRANSPARENT + "=true" else buf2;
    if backgroundColor.Some? then buf3 + "&" + BGCOLOR + "=" + backgroundColor.value else buf3
  }

  /** Each pair as "&key=value", one after another: what the buffer appends after the first pair. */
  function Tail(ps: seq<(string, string)>): string {
    if ps == [] then "" else "&" + ps[0].0 + "=" + ps[0].1 + Tail(ps[1..])
  }

  lemma {:induction false} TailAppend(a: seq<(string, string)>, b: seq<(string, string)>)
    ensures Tail(a + b) == Tail(a) + Tail(b)
    decreases |a|
  {
    if a == [] {
      assert a + b == b;
    } else {
      assert (a + b)[0] == a[0] && (a + b)[1..] == a[1..] + b;
      TailAppend(a[1..], b);
    }
  }

  lemma {:induction false} JoinAsTail(ps: seq<(string, string)>)
    requires ps != []
    ensures JoinOn(Render(ps), '&') == ps[0].0 + "=" + ps[0].1 + Tail(ps[1..])
    decreases |ps|
  {
    if |ps| > 1 {
      JoinAsTail(ps[1..]);
      assert Render(ps)[1..] == Render(ps[1..]);
      assert ps[1..][1..] == ps[2..];
    } else {
      assert ps[1..] == [];
    }
  }

  lemma TailCons(ps: seq<(string, string)>)
    requires ps != []
    ensures Tail(ps) == "&" + ps[0].0 + "=" + ps[0].1 + Tail(ps[1..])
  {
  }

  /** One pair appended as "&key=value". */
  lemma TailOfOne(buf: string, k: string, v: string)
    ensures buf + "&" + k + "=" + v == buf + Tail([(k, v)])
  {
    assert [(k, v)][1..] == [];
  }

  /** The optional part of the buffer, as createQueryString appends it after the projection. */
  lemma OptChain(buf1: string, imageFormat: Option<string>, transparent: Option<string>, backgroundColor: Option<string>)
    ensures WithOptions(buf1, imageFormat, transparent, backgroundColor)
         == buf1 + Tail(OptParams(imageFormat, transparent, backgroundColor))
  {
    var fmt := if imageFormat.Some? then [(FORMAT, imageFormat.value)] else [];
    var tr := if transparent.Some? then [(TRANSPARENT, "true")] else [];
    var bg := if backgroundColor.Some? then [(BGCOLOR, backgroundColor.value)] else [];
    TailAppend(fmt + tr, bg);
    TailAppend(fmt, tr);
    var buf2 := if imageFormat.Some? then buf1 + "&" + FORMAT + "=" + imageFormat.value else buf1;
    if imageFormat.Some? {
      TailOfOne(buf1, FORMAT, imageFormat.value);
    }
    assert buf2 == buf1 + Tail(fmt);
    var buf3 := if transparent.Some? then buf2 + "&" + TRANSPARENT + "=true" else buf2;
    if transparent.Some? {
      TailOfOne(buf2, TRANSPARENT, "true");
      FuseLast(buf2, TRANSPARENT, "=true", "true");
    }
    assert buf3 == buf2 + Tail(tr);
    var buf4 := if backgroundColor.Some? then buf3 + "&" + BGCOLOR + "=" + backgroundColor.value else buf3;
    if backgroundColor.Some? {
      TailOfOne(buf3, BGCOLOR, backgroundColor.value);
    }
    assert buf4 == buf3 + Tail(bg);
    assert OptParams(imageFormat, transparent, backgroundColor) == fmt + tr + bg;
    Regroup(buf1, Tail(fmt), Tail(tr), Tail(bg));
  }

  lemma Regroup(a: string, x: string, y: string, z: string)
    ensures a + x + y + z == a + (x + y + z)
  {
  }

  lemma FuseLast(buf: string, k: string, f: string, v: string)
    requires f == "=" + v
    ensures buf + "&" + k + f == buf + "&" + k + "=" + v
  {
  }

  /** One more pair appended as "&key=value" extends the pairs the buffer holds after `start`. */
  lemma StepPair(start: string, acc: seq<(string, string)>, x: string, k: string, v: string)
    requires x == start + Tail(acc)
    ensures x + "&" + k + "=" + v == start + Tail(acc + [(k, v)])
  {
    TailOfOne(x, k, v);
    TailAppend(acc, [(k, v)]);
  }

  /** The same, for a placeholder written together with its '=' and the '&' that follows it. */
  lemma StepFused(start: string, acc: seq<(string, string)>, y: string, k: string, f: string, v: string)
    requires y == start + Tail(acc) + "&" && f == "=" + v + "&"
    ensures y + k + f == start + Tail(acc + [(k, v)]) + "&"
  {
    var x := start + Tail(acc);
    StepPair(start, acc, x, k, v);
    assert y + k + f == x + "&" + k + "=" + v + "&";
  }

  /** The last placeholder, with its '=' and no '&' after it. */
  lemma StepLast(start: string, acc: seq<(string, string)>, y: string, k: string, f: string, v: string)
    requires y == start + Tail(acc) + "&" && f == "=" + v
    ensures y + k + f == start + Tail(acc + [(k, v)])
  {
    var x := start + Tail(acc);
    StepPair(start, acc, x, k, v);
    assert y + k + f == x + "&" + k + "=" + v;
  }

  /** The projection part of the buffer, as createQueryString appends it after REQUEST=MAP&. */
  lemma ProjChainSome(start: string, pr: Projection)
    ensures WithProjection(start + "&", Some(pr)) == start + Tail(ProjParams(Some(pr)))
  {
    var x1 := start + "&" + PROJTYPE + "=" + pr.name;
    var x2 := x1 + "&" + SCALE + "=" + pr.scale;
    var x3 := x2 + "&" + LAT + "=" + pr.centerLat;
    var x4 := x3 + "&" + LON + "=" + pr.centerLon;
    var x5 := x4 + "&" + HEIGHT + "=" + pr.height;
    var x6 := x5 + "&" + WIDTH + "=" + pr.width;
    assert WithProjection(start + "&", Some(pr)) == x6;
    var a0: seq<(string, string)> := [];
    var a1 := a0 + [(PROJTYPE, pr.name)];
    var a2 := a1 + [(SCALE, pr.scale)];
    var a3 := a2 + [(LAT, pr.centerLat)];
    var a4 := a3 + [(LON, pr.centerLon)];
    var a5 := a4 + [(HEIGHT, pr.height)];
    var a6 := a5 + [(WIDTH, pr.width)];
    assert start == start + Tail(a0);
    StepPair(start, a0, start, PROJTYPE, pr.name);
    StepPair(start, a1, x1, SCALE, pr.scale);
    StepPair(start, a2, x2, LAT, pr.centerLat);
    StepPair(start, a3, x3, LON, pr.centerLon);
    StepPair(start, a4, x4, HEIGHT, pr.height);
    StepPair(start, a5, x5, WIDTH, pr.width);
    assert a6 == ProjParams(Some(pr));
  }

  /** Each placeholder as the buffer writes it: with its '=' and, but for the last, the '&' after it. */
  lemma PlaceholdersFused()
    ensures "=name_undefined&" == "=" + "name_undefined" + "&"
    ensures "=scale_undefined&" == "=" + "scale_undefined" + "&"
    ensures "=center_lat_undefined&" == "=" + "center_lat_undefined" + "&"
  {
  }

  lemma PlaceholdersFusedRest()
    ensures "=center_lon_undefined&" == "=" + "center_lon_undefined" + "&"
    ensures "=height_undefined&" == "=" + "height_undefined" + "&"
    ensures "=width_undefined" == "=" + "width_undefined"
  {
  }

  /** The placeholder part of the buffer, appended when there is no projection. */
  lemma ProjChainNone(start: string)
    ensures WithProjection(start + "&", None) == start + Tail(ProjParams(None))
  {
    var y1 := start + "&" + PROJTYPE + "=name_undefined&";
    var y2 := y1 + SCALE + "=scale_undefined&";
    var y3 := y2 + LAT + "=center_lat_undefined&";
    var y4 := y3 + LON + "=center_lon_undefined&";
    var y5 := y4 + HEIGHT + "=height_undefined&";
    var y6 := y5 + WIDTH + "=width_undefined";
    assert WithProjection(start + "&", None) == y6;
    var a0: seq<(string, string)> := [];
    var a1 := a0 + [(PROJTYPE, "name_undefined")];
    var a2 := a1 + [(SCALE, "scale_undefined")];
    var a3 := a2 + [(LAT, "center_lat_undefined")];
    var a4 := a3 + [(LON, "center_lon_undefined")];
    var a5 := a4 + [(HEIGHT, "height_undefined")];
    var a6 := a5 + [(WIDTH, "width_undefined")];
    assert start + "&" == start + Tail(a0) + "&";
    PlaceholdersFused();
    PlaceholdersFusedRest();
    StepFused(start, a0, start + "&", PROJTYPE, "=name_undefined&", "name_undefined");
    StepFused(start, a1, y1, SCALE, "=scale_undefined&", "scale_undefined");
    StepFused(start, a2, y2, LAT, "=center_lat_undefined&", "center_lat_undefined");
    StepFused(start, a3, y3, LON, "=center_lon_undefined&", "center_lon_undefined");
    StepFused(start, a4, y4, HEIGHT, "=height_undefined&", "height_undefined");
    StepLast(start, a5, y5, WIDTH, "=width_undefined", "width_undefined");
    assert a6 == ProjParams(None);
  }

  /** The request is the header followed by the parameters as key=value, joined by '&', and nothing else. */
  lemma QueryLayout(l: SHISLayer, p: Option<Projection>)
    requires l.queryHeader.Some?
    ensures l.CreateQueryString(p)
         == Some(l.queryHeader.value + JoinOn(Render(Parameters(p, l.imageFormat, l.transparent, l.backgroundColor)), '&'))
  {
    var proj := ProjParams(p);
    var opt := OptParams(l.imageFormat, l.transparent, l.backgroundColor);
    QueryBuffer(l, p);
    JoinParts(l.queryHeader.value, REQUEST, MAP, proj, opt);
  }

  /** The buffer createQueryString fills: header, REQUEST=MAP, then each further pair as "&key=value". */
  lemma QueryBuffer(l: SHISLayer, p: Option<Projection>)
    requires l.queryHeader.Some?
    ensures l.CreateQueryString(p) == Some(l.queryHeader.value + REQUEST + "=" + MAP + Tail(ProjParams(p))
                                           + Tail(OptParams(l.imageFormat, l.transparent, l.backgroundColor)))
  {
    var start := l.queryHeader.value + REQUEST + "=" + MAP;
    if p.Some? {
      ProjChainSome(start, p.value);
    } else {
      ProjChainNone(start);
    }
    OptChain(start + Tail(ProjParams(p)), l.imageFormat, l.transparent, l.backgroundColor);
  }

  /** A first pair written as key=value and the rest as "&key=value" is the join of all of them at '&'. */
  lemma JoinParts(h: string, k: string, v: string, proj: seq<(string, string)>, opt: seq<(string, string)>)
    ensures h + k + "=" + v + Tail(proj) + Tail(opt) == h + JoinOn(Render([(k, v)] + proj + opt), '&')
  {
    var ps := [(k, v)] + proj + opt;
    JoinAsTail(ps);
    assert ps[0] == (k, v);
    assert ps[1..] == proj + opt;
    TailAppend(proj, opt);
    Regroup6(h, k, "=", v, Tail(proj), Tail(opt));
  }

  lemma Regroup6(a: string, b: string, c: string, d: string, e: string, f: string)
    ensures a + b + c + d + e + f == a + (b + c + d + (e + f))
  {
  }

  /** Text a query value can carry without breaking the request apart. */
  predicate NoAmpersand(s: string) { '&' !in s }

  predicate CleanProjection(pr: Projection) {
    && NoAmpersand(pr.name) && NoAmpersand(pr.scale) && NoAmpersand(pr.centerLat)
    && NoAmpersand(pr.centerLon) && NoAmpersand(pr.height) && NoAmpersand(pr.width)
  }

  /** Every value the request carries is free of '&': the projection's texts and the configured format and color. */
  predicate CleanValues(p: Option<Projection>, imageFormat: Option<string>, backgroundColor: Option<string>) {
    && (p.Some? ==> CleanProjection(p.value))
    && (imageFormat.Some? ==> NoAmpersand(imageFormat.value))
    && (backgroundColor.Some? ==> NoAmpersand(backgroundColor.value))
  }

  /** No name contains '&' or '=', and no value contains '&'. */
  predicate SeparatorFree(ps: seq<(string, string)>) {
    forall k :: 0 <= k < |ps| ==> '&' !in ps[k].0 && '=' !in ps[k].0 && '&' !in ps[k].1
  }

  lemma SeparatorFreeAppend(a: seq<(string, string)>, b: seq<(string, string)>)
    requires SeparatorFree(a) && SeparatorFree(b)
    ensures SeparatorFree(a + b)
  {
    forall k | 0 <= k < |a + b| ensures '&' !in (a + b)[k].0 && '=' !in (a + b)[k].0 && '&' !in (a + b)[k].1 {
      if k >= |a| {
        assert (a + b)[k] == b[k - |a|];
      }
    }
  }

  /** No parameter name contains '&' or '=', and neither MAP nor "true" contains '&'. */
  lemma NamesClean()
    ensures '&' !in REQUEST && '=' !in REQUEST && '&' !in MAP && '&' !in "true"
    ensures '&' !in PROJTYPE && '=' !in PROJTYPE && '&' !in SCALE && '=' !in SCALE
    ensures '&' !in LAT && '=' !in LAT && '&' !in LON && '=' !in LON
    ensures '&' !in HEIGHT && '=' !in HEIGHT && '&' !in WIDTH && '=' !in WIDTH
    ensures '&' !in FORMAT && '=' !in FORMAT && '&' !in TRANSPARENT && '=' !in TRANSPARENT
    ensures '&' !in BGCOLOR && '=' !in BGCOLOR
  {
  }

  /** The placeholders contain no '&'. */
  lemma PlaceholdersClean()
    ensures '&' !in "name_undefined" && '&' !in "scale_undefined" && '&' !in "center_lat_undefined"
    ensures '&' !in "center_lon_undefined" && '&' !in "height_undefined" && '&' !in "width_undefined"
  {
  }

  lemma ProjParamsClean(p: Option<Projection>)
    requires p.Some? ==> CleanProjection(p.value)
    ensures SeparatorFree(ProjParams(p))
  {
    NamesClean();
    PlaceholdersClean();
    var ps := ProjParams(p);
    forall k | 0 <= k < 6 ensures '&' !in ps[k].0 && '=' !in ps[k].0 && '&' !in ps[k].1 {
      if k == 0 { assert ps[k].0 == PROJTYPE; }
      else if k == 1 { assert ps[k].0 == SCALE; }
      else if k == 2 { assert ps[k].0 == LAT; }
      else if k == 3 { assert ps[k].0 == LON; }
      else if k == 4 { assert ps[k].0 == HEIGHT; }
      else { assert ps[k].0 == WIDTH; }
    }
  }

  /** The parameter names contain neither separator, and with clean values no value contains '&'. */
  lemma ParametersClean(p: Option<Projection>, imageFormat: Option<string>, transparent: Option<string>,
                        backgroundColor: Option<string>)
    requires CleanValues(p, imageFormat, backgroundColor)
    ensures SeparatorFree(Parameters(p, imageFormat, transparent, backgroundColor))
  {
    var fp := if imageFormat.Some? then [(FORMAT, imageFormat.value)] else [];
    var tp := if transparent.Some? then [(TRANSPARENT, "true")] else [];
    var bp := if backgroundColor.Some? then [(BGCOLOR, backgroundColor.value)] else [];
    NamesClean();
    assert SeparatorFree([(REQUEST, MAP)]);
    ProjParamsClean(p);
    assert SeparatorFree(fp) && SeparatorFree(tp) && SeparatorFree(bp);
    SeparatorFreeAppend(fp, tp);
    SeparatorFreeAppend(fp + tp, bp);
    SeparatorFreeAppend([(REQUEST, MAP)], ProjParams(p));
    SeparatorFreeAppend([(REQUEST, MAP)] + ProjParams(p), OptParams(imageFormat, transparent, backgroundColor));
  }

  /**
   * The server reads the request back: after the header, splitting at '&' and cutting each piece at
   * its first '=' gives exactly the parameters, in order, when no value contains '&'.
   */
  lemma QueryRoundTrip(l: SHISLayer, p: Option<Projection>)
    requires l.queryHeader.Some?
    requires CleanValues(p, l.imageFormat, l.backgroundColor)
    ensures var q := l.CreateQueryString(p);
      && q.Some?
      && l.queryHeader.value <= q.value
      && Decode(q.value[|l.queryHeader.value|..]) == Parameters(p, l.imageFormat, l.transparent, l.backgroundColor)
  {
    var h := l.queryHeader.value;
    var ps := Parameters(p, l.imageFormat, l.transparent, l.backgroundColor);
    QueryLayout(l, p);
    var items := Render(ps);
    var body := JoinOn(items, '&');
    assert (h + body)[|h|..] == body;
    ParametersClean(p, l.imageFormat, l.transparent, l.backgroundColor);
    forall k | 0 <= k < |items| ensures '&' !in items[k] {
      assert items[k] == ps[k].0 + "=" + ps[k].1;
    }
    SplitJoin(items, '&');
    forall k | 0 <= k < |items| ensures Cut(items[k], '=') == ps[k] {
      assert items[k] == ps[k].0 + ['='] + ps[k].1;
      CutJoin(ps[k].0, ps[k].1, '=');
    }
    assert DecodeItems(items) == ps;
  }

  /** The optional parameter names differ from each other and from the seven that are always sent. */
  lemma OptionalNamesDistinct()
    ensures FORMAT !in [REQUEST, PROJTYPE, SCALE, LAT, LON, HEIGHT, WIDTH]
    ensures TRANSPARENT !in [REQUEST, PROJTYPE, SCALE, LAT, LON, HEIGHT, WIDTH, FORMAT, BGCOLOR]
    ensures BGCOLOR !in [REQUEST, PROJTYPE, SCALE, LAT, LON, HEIGHT, WIDTH, FORMAT]
  {
    assert FORMAT[0] == 'F' && HEIGHT[0] == 'H';
    assert BGCOLOR[0] == 'B' && REQUEST[0] == 'R';
  }

  lemma {:induction false} KeysAppend(a: seq<(string, string)>, b: seq<(string, string)>)
    ensures Keys(a + b) == Keys(a) + Keys(b)
  {
  }

  /** The names of the parameters, in order: the seven always sent, then the optional ones that are set. */
  lemma ParameterNames(p: Option<Projection>, imageFormat: Option<string>, transparent: Option<string>,
                       backgroundColor: Option<string>)
    ensures Keys(Parameters(p, imageFormat, transparent, backgroundColor))
         == [REQUEST, PROJTYPE, SCALE, LAT, LON, HEIGHT, WIDTH]
            + (if imageFormat.Some? then [FORMAT] else [])
            + (if transparent.Some? then [TRANSPARENT] else [])
            + (if backgroundColor.Some? then [BGCOLOR] else [])
  {
    var ps := Parameters(p, imageFormat, transparent, backgroundColor);
    var base := [(REQUEST, MAP)] + ProjParams(p);
    var fmt := if imageFormat.Some? then [(FORMAT, imageFormat.value)] else [];
    var tr := if transparent.Some? then [(TRANSPARENT, "true")] else [];
    var bg := if backgroundColor.Some? then [(BGCOLOR, backgroundColor.value)] else [];
    assert ps == base + fmt + tr + bg;
    BaseKeys(p);
    var always := [REQUEST, PROJTYPE, SCALE, LAT, LON, HEIGHT, WIDTH];
    var kf := if imageFormat.Some? then [FORMAT] else [];
    var kt := if transparent.Some? then [TRANSPARENT] else [];
    var kg := if backgroundColor.Some? then [BGCOLOR] else [];
    assert Keys(base) == always;
    assert Keys(fmt) == kf;
    assert Keys(tr) == kt;
    assert Keys(bg) == kg;
    KeysOfParts(base, fmt, tr, bg, always, kf, kt, kg);
  }

  lemma KeysOfParts(a: seq<(string, string)>, b: seq<(string, string)>, c: seq<(string, string)>,
                    d: seq<(string, string)>, ka: seq<string>, kb: seq<string>, kc: seq<string>, kd: seq<string>)
    requires Keys(a) == ka && Keys(b) == kb && Keys(c) == kc && Keys(d) == kd
    ensures Keys(a + b + c + d) == ka + kb + kc + kd
  {
    KeysAppend(a + b + c, d);
    KeysAppend(a + b, c);
    KeysAppend(a, b);
  }

  /** Which optional parameters the request carries: each exactly when its attribute is set. */
  lemma OptionalParameters(p: Option<Projection>, imageFormat: Option<string>, transparent: Option<string>,
                           backgroundColor: Option<string>)
    ensures var keys := Keys(Parameters(p, imageFormat, transparent, backgroundColor));
      && (FORMAT in keys <==> imageFormat.Some?)
      && (TRANSPARENT in keys <==> transparent.Some?)
      && (BGCOLOR in keys <==> backgroundColor.Some?)
  {
    var keys := Keys(Parameters(p, imageFormat, transparent, backgroundColor));
    var always := [REQUEST, PROJTYPE, SCALE, LAT, LON, HEIGHT, WIDTH];
    var fmt := if imageFormat.Some? then [FORMAT] else [];
    var tr := if transparent.Some? then [TRANSPARENT] else [];
    var bg := if backgroundColor.Some? then [BGCOLOR] else [];
    ParameterNames(p, imageFormat, transparent, backgroundColor);
    OptionalNamesDistinct();
    assert keys == always + fmt + tr + bg;
    assert FORMAT in keys <==> FORMAT in always || FORMAT in fmt || FORMAT in tr || FORMAT in bg;
    assert TRANSPARENT in keys <==> TRANSPARENT in always || TRANSPARENT in fmt || TRANSPARENT in tr || TRANSPARENT in bg;
    assert BGCOLOR in keys <==> BGCOLOR in always || BGCOLOR in fmt || BGCOLOR in tr || BGCOLOR in bg;
  }

  /** Whatever the transparent attribute holds, TRANSPARENT is sent as "true". */
  lemma TransparentIsTrue(p: Option<Projection>, imageFormat: Option<string>, transparent: Option<string>,
                          backgroundColor: Option<string>)
    ensures var ps := Parameters(p, imageFormat, transparent, backgroundColor);
      forall k :: 0 <= k < |ps| && ps[k].0 == TRANSPARENT ==> ps[k].1 == "true"
  {
    var ps := Parameters(p, imageFormat, transparent, backgroundColor);
    var base := [(REQUEST, MAP)] + ProjParams(p);
    var fp := if imageFormat.Some? then [(FORMAT, imageFormat.value)] else [];
    var tp := if transparent.Some? then [(TRANSPARENT, "true")] else [];
    var bp := if backgroundColor.Some? then [(BGCOLOR, backgroundColor.value)] else [];
    assert ps == base + OptParams(imageFormat, transparent, backgroundColor);
    assert OptParams(imageFormat, transparent, backgroundColor) == fp + tp + bp;
    Assoc(base, fp, tp, bp);
    BaseKeys(p);
    OptionalNamesDistinct();
    NotAKey(base, TRANSPARENT, "true");
    NotAKey(fp, TRANSPARENT, "true");
    NotAKey(bp, TRANSPARENT, "true");
    ValueOfAppend(base + fp + tp, bp, TRANSPARENT, "true");
    ValueOfAppend(base + fp, tp, TRANSPARENT, "true");
    ValueOfAppend(base, fp, TRANSPARENT, "true");
  }

  /** The seven names always sent. */
  lemma BaseKeys(p: Option<Projection>)
    ensures Keys([(REQUEST, MAP)] + ProjParams(p)) == [REQUEST, PROJTYPE, SCALE, LAT, LON, HEIGHT, WIDTH]
  {
    var pv := ProjParams(p);
    assert [(REQUEST, MAP)] + pv == [(REQUEST, MAP), (PROJTYPE, pv[0].1), (SCALE, pv[1].1), (LAT, pv[2].1),
                                     (LON, pv[3].1), (HEIGHT, pv[4].1), (WIDTH, pv[5].1)];
    assert Keys([(REQUEST, MAP), (PROJTYPE, pv[0].1), (SCALE, pv[1].1), (LAT, pv[2].1),
                 (LON, pv[3].1), (HEIGHT, pv[4].1), (WIDTH, pv[5].1)])
        == [REQUEST, PROJTYPE, SCALE, LAT, LON, HEIGHT, WIDTH];
  }

  lemma Assoc(a: seq<(string, string)>, b: seq<(string, string)>, c: seq<(string, string)>, d: seq<(string, string)>)
    ensures a + (b + c + d) == a + b + c + d
  {
  }

  /** Every pair named `key` carries `v`. */
  predicate ValueOf(ps: seq<(string, string)>, key: string, v: string) {
    forall k :: 0 <= k < |ps| && ps[k].0 == key ==> ps[k].1 == v
  }

  lemma NotAKey(ps: seq<(string, string)>, key: string, v: string)
    requires key !in Keys(ps)
    ensures ValueOf(ps, key, v)
  {
    forall k | 0 <= k < |ps| ensures ps[k].0 != key {
      assert Keys(ps)[k] == ps[k].0;
    }
  }

  lemma ValueOfAppend(a: seq<(string, string)>, b: seq<(string, string)>, key: string, v: string)
    requires ValueOf(a, key, v) && ValueOf(b, key, v)
    ensures ValueOf(a + b, key, v)
  {
    forall k | 0 <= k < |a + b| && (a + b)[k].0 == key ensures (a + b)[k].1 == v {
      if k >= |a| {
        assert (a + b)[k] == b[k - |a|];
      }
    }
  }

  /** getServerName is null exactly when there is no request, and otherwise the request starts with it and REQUEST=MAP&. */
  lemma ServerNamePrefixesQuery(l: SHISLayer, p: Option<Projection>)
    ensures l.GetServerName().None? <==> l.CreateQueryString(p).None?
    ensures l.GetServerName().Some? ==> l.GetServerName().value + REQUEST + "=" + MAP + "&" <= l.CreateQueryString(p).value
  {
    if l.queryHeader.Some? {
      var ps := Parameters(p, l.imageFormat, l.transparent, l.backgroundColor);
      QueryLayout(l, p);
      assert ps[0] == (REQUEST, MAP) && |ps| >= 2;
      JoinPrefix(ps);
      PrefixExtend(l.queryHeader.value, REQUEST, MAP, JoinOn(Render(ps), '&'));
    }
  }

  /** A join of two or more pairs starts with the first one and its '&'. */
  lemma JoinPrefix(ps: seq<(string, string)>)
    requires |ps| >= 2
    ensures ps[0].0 + "=" + ps[0].1 + "&" <= JoinOn(Render(ps), '&')
  {
    JoinAsTail(ps);
    TailPrefix(ps[0].0 + "=" + ps[0].1, ps[1..]);
  }

  lemma TailPrefix(a: string, t: seq<(string, string)>)
    requires t != []
    ensures a + "&" <= a + Tail(t)
  {
    TailCons(t);
    IsPrefix(a, t[0].0 + "=" + t[0].1 + Tail(t[1..]));
  }

  lemma IsPrefix(a: string, more: string)
    ensures a + "&" <= a + ("&" + more)
  {
    assert a + ("&" + more) == (a + "&") + more;
  }

  lemma PrefixExtend(h: string, k: string, v: string, body: string)
    requires k + "=" + v + "&" <= body
    ensures h + k + "=" + v + "&" <= h + body
  {
    var pre := k + "=" + v + "&";
    assert body == pre + body[|pre|..];
    assert h + body == h + k + "=" + v + "&" + body[|pre|..];
  }
}
