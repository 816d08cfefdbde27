/** The webcam configuration schema (packages/config/src/schema.ts): the
    rules a configuration must meet before the rest of the system sees it,
    written as parse functions that either return the validated record or
    the list of issues zod would report, in zod's order.

    Raw records stand for the parsed YAML: each field already has the type
    the schema asks for, except `id`, which may be a number, a string or
    anything else. URL well-formedness (zod's `.url()`) is the parameter
    `isUrl`. */
module Schema {
  import opened Wrappers
  import Decimal

  // ---------------------------------------------------------------------
  // Records

  datatype SourceKind = Snapshot | Hls | Iframe | Page

  /** A planar CH1903+/LV95 coordinate. */
  datatype Coord = Coord(e: real, n: real)

  /** A validated source: the kind plus the optional fields, as zod's
      inferred type has them. */
  datatype WebcamSource = WebcamSource(kind: SourceKind, url: Option<string>, page: Option<string>, selector: Option<string>)

  /** A validated webcam record. */
  datatype Webcam = Webcam(
    id: string,
    name: string,
    elevation: nat,
    coord: Coord,
    source: WebcamSource,
    workerBypass: Option<bool>,
    attribution: Option<string>)

  datatype Settings = Settings(userCoord: Coord, workerBaseUrl: string, refreshMinutes: real)

  datatype RootConfig = RootConfig(settings: Settings, webcams: seq<Webcam>)

  /** What the YAML may hold for an id before preprocessing. */
  datatype RawId = IdNumber(n: int) | IdString(s: string) | IdOther

  datatype RawSource = RawSource(kind: string, url: Option<string>, page: Option<string>, selector: Option<string>)

  datatype RawWebcam = RawWebcam(
    id: RawId,
    name: string,
    elevation: real,
    coord: Coord,
    source: RawSource,
    workerBypass: Option<bool>,
    attribution: Option<string>)

  /** The settings as read from the YAML, where any key may be missing. */
  datatype RawSettings = RawSettings(userCoord: Option<Coord>, workerBaseUrl: Option<string>, refreshMinutes: Option<real>)

  datatype RawRoot = RawRoot(settings: RawSettings, webcams: seq<RawWebcam>)

  /** The issues the schema can raise, by zod issue code; `field` names the
      key the issue is about. */
  datatype Issue =
    | InvalidEnumValue(field: string, received: string)
    | InvalidUrl(field: string)
    | InvalidType(field: string, expected: string)
    | TooSmall(field: string, minimum: int)
    | Custom(message: string)

  const PageRequired: string := "source requires page for kind=page"
  const UrlRequired: string := "source requires url for kind!=page"

  /** JavaScript truthiness of an optional string: present and not "". */
  predicate Truthy(o: Option<string>) {
    o.Some? && o.value != ""
  }

  function IssuesOf<T>(r: Result<T, seq<Issue>>): seq<Issue> {
    if r.Failure? then r.error else []
  }

  // ---------------------------------------------------------------------
  // source

  function KindName(k: SourceKind): string {
    match k
    case Snapshot => "snapshot"
    case Hls => "hls"
    case Iframe => "iframe"
    case Page => "page"
  }

  /** `z.enum(['snapshot', 'hls', 'iframe', 'page'])`: exactly these four
      strings are kinds. */
  function ParseKind(s: string): (r: Option<SourceKind>)
    ensures r.Some? <==> s in {"snapshot", "hls", "iframe", "page"}
    ensures r.Some? ==> KindName(r.value) == s
  {
    if s == "snapshot" then Some(Snapshot)
    else if s == "hls" then Some(Hls)
    else if s == "iframe" then Some(Iframe)
    else if s == "page" then Some(Page)
    else None
  }

  lemma KindNameRoundTrip(k: SourceKind)
    ensures ParseKind(KindName(k)) == Some(k)
  {
  }

  /** `z.string().url().optional()`: absent is fine, present must be a URL. */
  function OptionalUrlIssues(field: string, o: Option<string>, isUrl: string -> bool): (issues: seq<Issue>)
    ensures issues == [] <==> (o.Some? ==> isUrl(o.value))
    ensures |issues| <= 1
  {
    if o.Some? && !isUrl(o.value) then [InvalidUrl(field)] else []
  }

  /** The cross-field rule of the `superRefine`: a page source needs a
      non-empty `page`, any other kind a non-empty `url`; it raises at most one
      issue, carrying one of the two fixed messages. */
  function SourceRefinement(kind: SourceKind, url: Option<string>, page: Option<string>): (issues: seq<Issue>)
    ensures |issues| <= 1
    ensures kind == Page ==> (issues == [] <==> Truthy(page))
    ensures kind != Page ==> (issues == [] <==> Truthy(url))
    ensures issues != [] ==> issues[0] == Custom(if kind == Page then PageRequired else UrlRequired)
  {
    if kind == Page then
      if !Truthy(page) then [Custom(PageRequired)] else []
    else
      if !Truthy(url) then [Custom(UrlRequired)] else []
  }

  /** Issues for a source object. Every field is checked; an unknown kind
      makes zod abort the object, so the refinement does not run then. */
  function SourceIssues(raw: RawSource, isUrl: string -> bool): seq<Issue> {
    var kind := ParseKind(raw.kind);
    var fieldIssues :=
      (if kind.None? then [InvalidEnumValue("kind", raw.kind)] else [])
      + OptionalUrlIssues("url", raw.url, isUrl)
      + OptionalUrlIssues("page", raw.page, isUrl);
    if kind.None? then fieldIssues else fieldIssues + SourceRefinement(kind.value, raw.url, raw.page)
  }

  /** The refinement runs only once the kind is known: an unknown kind gives
      the enum issue and the URL issues and nothing else, and one of the two
      refinement messages is reported exactly when the kind is known and the
      field that kind needs is missing or empty. */
  lemma RefinementRunsOnlyForKnownKind(raw: RawSource, isUrl: string -> bool)
    ensures ParseKind(raw.kind).None? ==>
      SourceIssues(raw, isUrl)
      == [InvalidEnumValue("kind", raw.kind)] + OptionalUrlIssues("url", raw.url, isUrl)
         + OptionalUrlIssues("page", raw.page, isUrl)
    ensures (Custom(PageRequired) in SourceIssues(raw, isUrl) || Custom(UrlRequired) in SourceIssues(raw, isUrl))
            <==> raw.kind in {"snapshot", "hls", "iframe", "page"}
                 && (if raw.kind == "page" then !Truthy(raw.page) else !Truthy(raw.url))
  {
  }

  /** The source schema stated declaratively. */
  predicate ValidSource(raw: RawSource, isUrl: string -> bool) {
    && raw.kind in {"snapshot", "hls", "iframe", "page"}
    && (raw.url.Some? ==> isUrl(raw.url.value))
    && (raw.page.Some? ==> isUrl(raw.page.value))
    && (if raw.kind == "page" then Truthy(raw.page) else Truthy(raw.url))
  }

  /** The invariant a validated source keeps: the field its kind needs is
      present and non-empty. */
  predicate WellFormedSource(s: WebcamSource) {
    if s.kind == Page then Truthy(s.page) else Truthy(s.url)
  }

  function ParseSource(raw: RawSource, isUrl: string -> bool): (r: Result<WebcamSource, seq<Issue>>)
    ensures r.Success? <==> ValidSource(raw, isUrl)
    ensures r.Success? ==> KindName(r.value.kind) == raw.kind && WellFormedSource(r.value)
    ensures r.Success? ==> r.value.url == raw.url && r.value.page == raw.page && r.value.selector == raw.selector
    ensures r.Failure? ==> r.error == SourceIssues(raw, isUrl) && r.error != []
  {
    var issues := SourceIssues(raw, isUrl);
    if issues == [] then Success(WebcamSource(ParseKind(raw.kind).value, raw.url, raw.page, raw.selector))
    else Failure(issues)
  }

  // ---------------------------------------------------------------------
  // webcam

  /** The `z.preprocess` step: a number becomes its string form, anything
      else is passed on unchanged. */
  function PreprocessId(raw: RawId): (r: RawId)
    ensures !r.IdNumber?
    ensures raw.IdNumber? ==> r.IdString? && r.s == Decimal.IntToString(raw.n)
    ensures !raw.IdNumber? ==> r == raw
  {
    match raw
    case IdNumber(n) => IdString(Decimal.IntToString(n))
    case _ => raw
  }

  /** `z.string().min(1)` after preprocessing: a numeric id is always
      accepted, a string id only when non-empty, anything else never. */
  function IdIssues(raw: RawId): (issues: seq<Issue>)
    ensures issues == [] <==> raw.IdNumber? || (raw.IdString? && raw.s != "")
  {
    match PreprocessId(raw)
    case IdString(s) => if |s| < 1 then [TooSmall("id", 1)] else []
    case _ => [InvalidType("id", "string")]
  }

  /** `z.number().int().nonnegative()`: both checks run, so a negative
      fraction raises two issues. */
  function ElevationIssues(x: real): (issues: seq<Issue>)
    ensures issues == [] <==> x.Floor as real == x && x >= 0.0
    ensures |issues| <= 2
  {
    (if x.Floor as real != x then [InvalidType("elevation_m_asl", "integer")] else [])
    + (if x < 0.0 then [TooSmall("elevation_m_asl", 0)] else [])
  }

  function WebcamIssues(raw: RawWebcam, isUrl: string -> bool): seq<Issue> {
    IdIssues(raw.id)
    + (if |raw.name| < 1 then [TooSmall("name", 1)] else [])
    + ElevationIssues(raw.elevation)
    + SourceIssues(raw.source, isUrl)
  }

  /** The webcam schema stated declaratively. */
  predicate ValidWebcam(raw: RawWebcam, isUrl: string -> bool) {
    && (raw.id.IdNumber? || (raw.id.IdString? && raw.id.s != ""))
    && raw.name != ""
    && raw.elevation.Floor as real == raw.elevation && raw.elevation >= 0.0
    && ValidSource(raw.source, isUrl)
  }

  /** The invariant of every validated webcam. */
  predicate WellFormedWebcam(w: Webcam) {
    w.id != "" && w.name != "" && WellFormedSource(w.source)
  }

  function ParseWebcam(raw: RawWebcam, isUrl: string -> bool): (r: Result<Webcam, seq<Issue>>)
    ensures r.Success? <==> ValidWebcam(raw, isUrl)
    ensures r.Success? ==> WellFormedWebcam(r.value)
    ensures r.Success? ==> PreprocessId(raw.id) == IdString(r.value.id)
    ensures r.Success? ==> r.value.elevation as real == raw.elevation
    ensures r.Success? ==> r.value.name == raw.name && r.value.coord == raw.coord
    ensures r.Success? ==> r.value.workerBypass == raw.workerBypass && r.value.attribution == raw.attribution
    ensures r.Success? ==> ParseSource(raw.source, isUrl) == Success(r.value.source)
    ensures r.Failure? ==> r.error == WebcamIssues(raw, isUrl) && r.error != []
  {
    var issues := WebcamIssues(raw, isUrl);
    if issues == [] then
      var source := ParseSource(raw.source, isUrl);
      Success(Webcam(PreprocessId(raw.id).s, raw.name, raw.elevation.Floor as nat, raw.coord,
                     source.value, raw.workerBypass, raw.attribution))
    else Failure(issues)
  }

  // ---------------------------------------------------------------------
  // settings and root

  /** The `settings` object schema stated declaratively: all three keys are
      required, the worker base URL passes the URL check and the refresh
      interval is not negative. */
  predicate ValidSettings(s: RawSettings, isUrl: string -> bool) {
    && s.userCoord.Some?
    && s.workerBaseUrl.Some? && isUrl(s.workerBaseUrl.value)
    && s.refreshMinutes.Some? && s.refreshMinutes.value >= 0.0
  }

  /** The issues of the `settings` object, key by key in declaration order;
      a missing key is an `invalid_type` issue. */
  function SettingsIssues(s: RawSettings, isUrl: string -> bool): (issues: seq<Issue>)
    ensures issues == [] <==> ValidSettings(s, isUrl)
    ensures s.refreshMinutes.None? ==> InvalidType("refresh_minutes", "number") in issues
  {
    (if s.userCoord.None? then [InvalidType("user_coord_ch2056", "object")] else [])
    + (match s.workerBaseUrl
       case None => [InvalidType("worker_base_url", "string")]
       case Some(u) => if !isUrl(u) then [InvalidUrl("worker_base_url")] else [])
    + (match s.refreshMinutes
       case None => [InvalidType("refresh_minutes", "number")]
       case Some(m) => if m < 0.0 then [TooSmall("refresh_minutes", 0)] else [])
  }

  /** `settings.safeParse`: the validated settings carry the three values
      as given. */
  function ParseSettings(s: RawSettings, isUrl: string -> bool): (r: Result<Settings, seq<Issue>>)
    ensures r.Success? <==> ValidSettings(s, isUrl)
    ensures r.Success? ==> && s.userCoord == Some(r.value.userCoord)
                           && s.workerBaseUrl == Some(r.value.workerBaseUrl)
                           && s.refreshMinutes == Some(r.value.refreshMinutes)
    ensures r.Failure? ==> r.error != []
  {
    var issues := SettingsIssues(s, isUrl);
    if issues == [] then Success(Settings(s.userCoord.value, s.workerBaseUrl.value, s.refreshMinutes.value))
    else Failure(issues)
  }

  /** Element `i` is the first element of `xs` that `parse` rejects. */
  predicate FirstFailure<R, T>(xs: seq<R>, parse: R -> Result<T, seq<Issue>>, i: int)
    requires 0 <= i < |xs|
  {
    parse(xs[i]).Failure? && forall j :: 0 <= j < i ==> parse(xs[j]).Success?
  }

  /** `z.array(schema)` without its length check: every element is parsed
      with `parse`; the array is accepted when every element is, and then
      holds the parsed elements in order; otherwise the reported issues
      begin with those of the first element that fails. */
  function ParseAll<R, T>(xs: seq<R>, parse: R -> Result<T, seq<Issue>>): (r: Result<seq<T>, seq<Issue>>)
    ensures r.Success? <==> forall i :: 0 <= i < |xs| ==> parse(xs[i]).Success?
    ensures r.Success? ==> |r.value| == |xs|
    ensures r.Success? ==> forall i :: 0 <= i < |xs| ==> parse(xs[i]) == Success(r.value[i])
    ensures r.Failure? ==> exists i :: 0 <= i < |xs| && FirstFailure(xs, parse, i) && parse(xs[i]).error <= r.error
    decreases |xs|
  {
    if xs == [] then Success([])
    else
      var head := parse(xs[0]);
      var tail := ParseAll(xs[1..], parse);
      assert forall i :: 1 <= i < |xs| ==> xs[i] == xs[1..][i - 1];
      if head.Success? && tail.Success? then
        Success([head.value] + tail.value)
      else
        var issues := IssuesOf(head) + IssuesOf(tail);
        assert exists i :: 0 <= i < |xs| && FirstFailure(xs, parse, i) && parse(xs[i]).error <= issues by {
          if head.Failure? {
            assert FirstFailure(xs, parse, 0);
          } else {
            var i :| 0 <= i < |xs| - 1 && FirstFailure(xs[1..], parse, i) && parse(xs[1..][i]).error <= tail.error;
            assert FirstFailure(xs, parse, i + 1);
          }
        }
        Failure(issues)
  }

  function ParseWebcams(ws: seq<RawWebcam>, isUrl: string -> bool): (r: Result<seq<Webcam>, seq<Issue>>)
    ensures r.Success? <==> forall i :: 0 <= i < |ws| ==> ValidWebcam(ws[i], isUrl)
    ensures r.Success? ==> |r.value| == |ws|
    ensures r.Success? ==> forall i :: 0 <= i < |ws| ==> ParseWebcam(ws[i], isUrl) == Success(r.value[i])
    ensures r.Failure? ==> r.error != []
  {
    var r := ParseAll(ws, raw => ParseWebcam(raw, isUrl));
    assert r.Failure? ==> r.error != [] by {
      if r.Failure? {
        var i :| 0 <= i < |ws| && FirstFailure(ws, raw => ParseWebcam(raw, isUrl), i)
          && ParseWebcam(ws[i], isUrl).error <= r.error;
        assert ParseWebcam(ws[i], isUrl).error != [];
      }
    }
    r
  }

  /** The root schema stated declaratively. */
  predicate ValidRoot(raw: RawRoot, isUrl: string -> bool) {
    && ValidSettings(raw.settings, isUrl)
    && |raw.webcams| >= 1
    && forall i :: 0 <= i < |raw.webcams| ==> ValidWebcam(raw.webcams[i], isUrl)
  }

  /** `root.safeParse`: accepted exactly when the settings, the length check
      (at least one webcam) and every webcam pass; an accepted configuration
      keeps its webcams in order and each one is well formed. */
  function ParseRoot(raw: RawRoot, isUrl: string -> bool): (r: Result<RootConfig, seq<Issue>>)
    ensures r.Success? <==> ValidRoot(raw, isUrl)
    ensures r.Success? ==> ParseSettings(raw.settings, isUrl) == Success(r.value.settings)
    ensures r.Success? ==> |r.value.webcams| == |raw.webcams|
    ensures r.Success? ==> forall i :: 0 <= i < |raw.webcams| ==>
      ParseWebcam(raw.webcams[i], isUrl) == Success(r.value.webcams[i]) && WellFormedWebcam(r.value.webcams[i])
    ensures raw.webcams == [] ==> r.Failure? && TooSmall("webcams", 1) in r.error
    ensures r.Failure? ==> r.error != []
  {
    var settings := ParseSettings(raw.settings, isUrl);
    var lengthIssues := if |raw.webcams| < 1 then [TooSmall("webcams", 1)] else [];
    var webcams := ParseWebcams(raw.webcams, isUrl);
    if settings.Success? && lengthIssues == [] && webcams.Success? then
      Success(RootConfig(settings.value, webcams.value))
    else
      Failure(IssuesOf(settings) + lengthIssues + IssuesOf(webcams))
  }

  /** The configuration of the loader's "parses valid yaml" test. Its
      settings have no `refresh_minutes`, which the settings schema requires,
      so the schema rejects it, and for that reason alone. */
  lemma LoaderValidYamlExample(isUrl: string -> bool)
    requires isUrl("http://127.0.0.1:8787") && isUrl("https://example.com/image.jpg")
    ensures
      var settings := RawSettings(Some(Coord(2600000.0, 1200000.0)), Some("http://127.0.0.1:8787"), None);
      var source := RawSource("snapshot", Some("https://example.com/image.jpg"), None, None);
      var cam := RawWebcam(IdString("test"), "Test Cam", 1000.0, Coord(2600100.0, 1200200.0), source, None, None);
      ParseRoot(RawRoot(settings, [cam]), isUrl) == Failure([InvalidType("refresh_minutes", "number")])
  {
    var settings := RawSettings(Some(Coord(2600000.0, 1200000.0)), Some("http://127.0.0.1:8787"), None);
    var source := RawSource("snapshot", Some("https://example.com/image.jpg"), None, None);
    var cam := RawWebcam(IdString("test"), "Test Cam", 1000.0, Coord(2600100.0, 1200200.0), source, None, None);
    assert SettingsIssues(settings, isUrl) == [InvalidType("refresh_minutes", "number")];
    assert ValidWebcam(cam, isUrl);
    assert ParseSettings(settings, isUrl) == Failure([InvalidType("refresh_minutes", "number")]);
    assert ParseWebcams([cam], isUrl).Success?;
    assert [InvalidType("refresh_minutes", "number")] + [] + [] == [InvalidType("refresh_minutes", "number")];
  }

  /** The loader's "rejects invalid yaml shape" test: empty settings and no
      webcams give one issue per missing settings key, then the length
      issue. */
  lemma LoaderInvalidShapeExample(isUrl: string -> bool)
    ensures ParseRoot(RawRoot(RawSettings(None, None, None), []), isUrl)
            == Failure([InvalidType("user_coord_ch2056", "object"), InvalidType("worker_base_url", "string"),
                        InvalidType("refresh_minutes", "number"), TooSmall("webcams", 1)])
  {
    var missing := [InvalidType("user_coord_ch2056", "object"), InvalidType("worker_base_url", "string"),
                    InvalidType("refresh_minutes", "number")];
    assert SettingsIssues(RawSettings(None, None, None), isUrl) == missing;
    assert ParseSettings(RawSettings(None, None, None), isUrl) == Failure(missing);
    assert IssuesOf(ParseWebcams([], isUrl)) == [];
    assert ParseRoot(RawRoot(RawSettings(None, None, None), []), isUrl)
           == Failure(missing + [TooSmall("webcams", 1)] + []);
    assert missing + [TooSmall("webcams", 1)] + []
           == [InvalidType("user_coord_ch2056", "object"), InvalidType("worker_base_url", "string"),
               InvalidType("refresh_minutes", "number"), TooSmall("webcams", 1)];
  }
}
