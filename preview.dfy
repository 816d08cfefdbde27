/** The client-side preview strategy resolver
    (apps/spa/src/services/previewResolver.ts): whether a webcam may be
    fetched directly, which URL to load its preview from, and the bounded
    backoff policy for failed loads.

    Percent-encoding (`encodeURIComponent`, applied by the worker client) is
    the parameter `encode`; `base` is the worker base URL. */
module PreviewResolver {
  import opened Wrappers
  import opened Schema
  import Math

  // ---------------------------------------------------------------------
  // Strategy

  /** True when the browser may fetch the snapshot itself, skipping the
      worker proxy. Only a snapshot with a non-empty URL that is explicitly
      flagged qualifies: a page, HLS or iframe source never does. */
  function IsWorkerBypass(w: Webcam): (r: bool)
    ensures r ==> w.source.kind == Snapshot
    ensures r ==> w.workerBypass == Some(true)
    ensures r ==> Truthy(w.source.url)
  {
    w.workerBypass == Some(true) && w.source.kind == Snapshot && Truthy(w.source.url)
  }

  /** The worker's image proxy route for an upstream image: the fixed route
      prefix on the worker base, then the encoded upstream URL as the whole
      rest of the string. */
  function ImageUrl(base: string, encode: string -> string, url: string): (r: string)
    ensures base + "/api/image?url=" <= r
    ensures r[|base + "/api/image?url="|..] == encode(url)
  {
    base + "/api/image?url=" + encode(url)
  }

  /** The worker's HTML image extraction route for a page: the fixed route
      prefix on the worker base, then the encoded page; the selector
      parameter follows it exactly when a selector is given. */
  function HtmlImageUrl(base: string, encode: string -> string, page: string, selector: Option<string>): (r: string)
    ensures base + "/api/html-image?page=" + encode(page) <= r
    ensures selector.None? <==> |r| == |base + "/api/html-image?page=" + encode(page)|
    ensures selector.Some? ==>
      r[|base + "/api/html-image?page=" + encode(page)|..] == "&selector=" + encode(selector.value)
  {
    base + "/api/html-image?page=" + encode(page)
    + (if selector.Some? then "&selector=" + encode(selector.value) else "")
  }

  /** The URL to load a webcam's preview from, or `None` when there is no
      preview strategy. A preview exists exactly for a snapshot with a
      non-empty URL and for a page source with a non-empty page. The upstream
      URL is returned as it is only when the webcam bypasses the worker; every
      other result is a route of the worker. */
  function ResolvePreviewBaseUrl(w: Webcam, base: string, encode: string -> string): (r: Option<string>)
    ensures r.Some? <==> (w.source.kind == Snapshot && Truthy(w.source.url))
                         || (w.source.kind == Page && Truthy(w.source.page))
    ensures IsWorkerBypass(w) ==> r == Some(w.source.url.value)
    ensures r.Some? && !IsWorkerBypass(w) ==> base + "/api/" <= r.value
  {
    if w.source.kind == Snapshot && Truthy(w.source.url) then
      if IsWorkerBypass(w) then Some(w.source.url.value)
      else Some(ImageUrl(base, encode, w.source.url.value))
    else if w.source.kind == Page && Truthy(w.source.page) then
      Some(HtmlImageUrl(base, encode, w.source.page.value, w.source.selector))
    else None
  }

  /** A flagged snapshot with a URL is fetched directly, with no proxy hop. */
  lemma FlaggedSnapshotBypassesWorker(w: Webcam, base: string, encode: string -> string)
    requires w.source.kind == Snapshot && Truthy(w.source.url) && w.workerBypass == Some(true)
    ensures IsWorkerBypass(w)
    ensures ResolvePreviewBaseUrl(w, base, encode) == Some(w.source.url.value)
  {
  }

  /** An unflagged snapshot (flag false or absent) goes through the image
      proxy route, with the encoded upstream URL as its only parameter. */
  lemma UnflaggedSnapshotUsesImageRoute(w: Webcam, base: string, encode: string -> string)
    requires w.source.kind == Snapshot && Truthy(w.source.url) && w.workerBypass != Some(true)
    ensures !IsWorkerBypass(w)
    ensures ResolvePreviewBaseUrl(w, base, encode) == Some(base + "/api/image?url=" + encode(w.source.url.value))
  {
  }

  /** A page source goes through the extraction route whatever its bypass
      flag says; the selector segment is there exactly when a selector is. */
  lemma PageUsesHtmlImageRoute(w: Webcam, base: string, encode: string -> string)
    requires w.source.kind == Page && Truthy(w.source.page)
    ensures !IsWorkerBypass(w)
    ensures w.source.selector.None? ==>
      ResolvePreviewBaseUrl(w, base, encode) == Some(base + "/api/html-image?page=" + encode(w.source.page.value))
    ensures w.source.selector.Some? ==>
      ResolvePreviewBaseUrl(w, base, encode)
      == Some(base + "/api/html-image?page=" + encode(w.source.page.value) + "&selector=" + encode(w.source.selector.value))
  {
    var route := base + "/api/html-image?page=" + encode(w.source.page.value);
    if w.source.selector.None? {
      assert route + "" == route;
    } else {
      var param := "&selector=" + encode(w.source.selector.value);
      assert route + param == route + "&selector=" + encode(w.source.selector.value);
    }
  }

  /** The image route carries the encoded upstream URL as the whole rest of
      the string after its fixed prefix, so the proxy URL determines it. */
  lemma ImageUrlDeterminesParameter(base: string, encode: string -> string, u1: string, u2: string)
    requires ImageUrl(base, encode, u1) == ImageUrl(base, encode, u2)
    ensures encode(u1) == encode(u2)
  {
  }

  /** With an encoder that never emits '&' (as percent-encoding does not),
      the extraction URL keeps the page and the selector apart: two sources
      with the same URL have the same encoded page and the same selector
      presence, and the same encoded selector when there is one. */
  lemma HtmlImageUrlDeterminesParameters(base: string, encode: string -> string,
                                         p1: string, s1: Option<string>, p2: string, s2: Option<string>)
    requires forall s :: '&' !in encode(s)
    requires HtmlImageUrl(base, encode, p1, s1) == HtmlImageUrl(base, encode, p2, s2)
    ensures encode(p1) == encode(p2)
    ensures s1.Some? <==> s2.Some?
    ensures s1.Some? ==> encode(s1.value) == encode(s2.value)
  {
    HtmlImageUrlReadsPage(base, encode, p1, s1);
    HtmlImageUrlReadsPage(base, encode, p2, s2);
    if s1.Some? && s2.Some? {
      var tail1, tail2 := "&selector=" + encode(s1.value), "&selector=" + encode(s2.value);
      assert tail1 == tail2;
      assert tail1[|"&selector="|..] == encode(s1.value);
      assert tail2[|"&selector="|..] == encode(s2.value);
    }
  }

  /** The value of a query parameter: everything up to the next '&'. */
  function UpToAmpersand(s: string): (v: string)
    ensures v <= s && '&' !in v
    decreases |s|
  {
    if s == [] || s[0] == '&' then [] else [s[0]] + UpToAmpersand(s[1..])
  }

  /** A value without '&' followed by nothing or by the next parameter is
      read back unchanged. */
  lemma {:induction false} UpToAmpersandReadsValue(a: string, x: string)
    requires '&' !in a
    requires x == [] || x[0] == '&'
    ensures UpToAmpersand(a + x) == a
    decreases |a|
  {
    if a == [] {
      assert a + x == x;
    } else {
      assert (a + x)[1..] == a[1..] + x;
      UpToAmpersandReadsValue(a[1..], x);
    }
  }

  /** A reader of the extraction URL that takes the `page` value up to the
      next '&' gets back exactly the encoded page, with or without a selector
      after it, provided the encoder never emits '&'. */
  lemma HtmlImageUrlReadsPage(base: string, encode: string -> string, p: string, s: Option<string>)
    requires forall t :: '&' !in encode(t)
    ensures UpToAmpersand(HtmlImageUrl(base, encode, p, s)[|base + "/api/html-image?page="|..]) == encode(p)
  {
    var prefix := base + "/api/html-image?page=";
    var tail := if s.Some? then "&selector=" + encode(s.value) else "";
    assert HtmlImageUrl(base, encode, p, s) == prefix + (encode(p) + tail);
    assert HtmlImageUrl(base, encode, p, s)[|prefix|..] == encode(p) + tail;
    UpToAmpersandReadsValue(encode(p), tail);
  }

  /** Every webcam that passed configuration validation has a preview
      exactly when it is a snapshot or a page source; HLS and iframe sources
      never have one. */
  lemma ValidatedWebcamHasPreview(w: Webcam, base: string, encode: string -> string)
    requires WellFormedWebcam(w)
    ensures ResolvePreviewBaseUrl(w, base, encode).Some? <==> w.source.kind in {Snapshot, Page}
  {
  }

  /** The resolver's tests, with an encoder that agrees with
      `encodeURIComponent` on the strings involved: a flagged snapshot
      bypasses the worker and is fetched directly, an unflagged one does not
      bypass and goes through the image route. Expected
      URLs are written as the concatenation of their parts. */
  lemma SnapshotExamples(encode: string -> string)
    requires encode("https://example.com/image.jpg") == "https%3A%2F%2Fexample.com%2Fimage.jpg"
    ensures
      var source := WebcamSource(Snapshot, Some("https://example.com/image.jpg"), None, None);
      && IsWorkerBypass(Webcam("cam-1", "Cam One", 100, Coord(1.0, 2.0), source, Some(true), None))
      && !IsWorkerBypass(Webcam("cam-1", "Cam One", 100, Coord(1.0, 2.0), source, Some(false), None))
      && ResolvePreviewBaseUrl(Webcam("cam-1", "Cam One", 100, Coord(1.0, 2.0), source, Some(true), None),
                               "http://127.0.0.1:8787", encode)
         == Some("https://example.com/image.jpg")
      && ResolvePreviewBaseUrl(Webcam("cam-1", "Cam One", 100, Coord(1.0, 2.0), source, Some(false), None),
                               "http://127.0.0.1:8787", encode)
         == Some("http://127.0.0.1:8787" + "/api/image?url=" + "https%3A%2F%2Fexample.com%2Fimage.jpg")
  {
  }

  /** The resolver's test of a flagged page source: no bypass, and the
      extraction route with both parameters. */
  lemma PageExample(encode: string -> string)
    requires encode("https://example.com/embed.html") == "https%3A%2F%2Fexample.com%2Fembed.html"
    requires encode("img.hero") == "img.hero"
    ensures
      var source := WebcamSource(Page, None, Some("https://example.com/embed.html"), Some("img.hero"));
      var w := Webcam("cam-1", "Cam One", 100, Coord(1.0, 2.0), source, Some(true), None);
      && !IsWorkerBypass(w)
      && ResolvePreviewBaseUrl(w, "http://127.0.0.1:8787", encode)
         == Some("http://127.0.0.1:8787" + "/api/html-image?page=" + "https%3A%2F%2Fexample.com%2Fembed.html"
                 + "&selector=" + "img.hero")
  {
    var source := WebcamSource(Page, None, Some("https://example.com/embed.html"), Some("img.hero"));
    PageUsesHtmlImageRoute(Webcam("cam-1", "Cam One", 100, Coord(1.0, 2.0), source, Some(true), None),
                           "http://127.0.0.1:8787", encode);
  }

  // ---------------------------------------------------------------------
  // Retry policy

  /** The backoff schedule in milliseconds, ascending. */
  const RetryDelaysMs: seq<nat> := [2000, 5000, 10000]

  /** Another try is allowed while fewer than three tries have failed. */
  function ShouldRetry(attempt: int): (r: bool)
    ensures r <==> attempt < 3
  {
    attempt < |RetryDelaysMs|
  }

  /** The wait before the next try: the schedule entry for `attempt`, clamped
      to the last entry, so it is defined for every attempt and never exceeds
      10 seconds. */
  function NextRetryDelayMs(attempt: nat): (d: nat)
    ensures d in RetryDelaysMs
    ensures 2000 <= d <= 10000
    ensures attempt < |RetryDelaysMs| ==> d == RetryDelaysMs[attempt]
    ensures attempt >= |RetryDelaysMs| - 1 ==> d == 10000
  {
    RetryDelaysMs[Math.Min(attempt, |RetryDelaysMs| - 1)]
  }

  /** The delays never shrink as the attempt count grows. */
  lemma NextRetryDelayMonotone(a: nat, b: nat)
    requires a <= b
    ensures NextRetryDelayMs(a) <= NextRetryDelayMs(b)
  {
  }

  /** The values the resolver's tests pin. */
  lemma RetryPolicyExamples()
    ensures ShouldRetry(0) && ShouldRetry(1) && ShouldRetry(2) && !ShouldRetry(3)
    ensures NextRetryDelayMs(0) == 2000 && NextRetryDelayMs(1) == 5000
    ensures NextRetryDelayMs(2) == 10000 && NextRetryDelayMs(3) == 10000
  {
  }
}

/** `Math.min` on integers. */
module Math {
  function Min(a: int, b: int): (m: int)
    ensures m <= a && m <= b
    ensures m == a || m == b
  {
    if a <= b then a else b
  }
}
