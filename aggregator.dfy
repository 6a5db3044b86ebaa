/** `detect`: the five registry scans and the fourteen probes on one fetched
    page, in the order the detector runs them, followed by the duplicate
    removal `list(set(detected))`. A failed page fetch yields no labels; an
    IndexError of the server-technology probe escapes. */
module Aggregator {
  import opened Wrappers
  import opened Lists
  import opened Text
  import opened Registry
  import opened Page
  import opened Channels
  import opened Probes

  /** The answers of the network calls other than the page fetch: the status
      of each admin address that answered, the TLS handshake and the MX
      lookup. */
  datatype Environment = Environment(adminStatus: map<string, int>, tls: TlsOutcome, mx: Option<string>)

  /** The page fetch: it raised a `RequestException`, or it produced a response. */
  datatype FetchOutcome = RequestFailed | Fetched(response: Response)

  /** What `detect` gives back: a label list, or an exception that escapes. */
  datatype Detection = Detected(labels: seq<string>) | Raised(error: PyError)

  /** The probes after the server-technology probe, in call order. */
  function LaterLabels(reg: seq<Signature>, url: string, resp: Response, env: Environment): seq<string> {
    AdminScan(reg, url, env.adminStatus)
      + Ecommerce(resp.body)
      + SecurityFeatures(resp.headers)
      + TlsLabels(env.tls)
      + CdnLabels(resp.headers)
      + MailLabels(env.mx)
      + SocialScan(resp.elements)
      + ImageLabels(resp.elements)
      + Accessibility(resp.elements)
      + MobileOptimization(resp.elements)
      + PrivacyScan(PrivacyPatterns, Lower(resp.text))
      + AnalyticsScan(AnalyticsPatterns, resp.body)
      + Fonts(resp.elements)
  }

  /** The list `detected` holds before duplicates are removed, or the
      exception that stops `detect` on the way. */
  function Collected(reg: seq<Signature>, url: string, resp: Response, env: Environment): Result<seq<string>, PyError> {
    match ServerSideTech(resp.headers)
    case Failure(e) => Failure(e)
    case Success(server) => Success(ChannelLabels(reg, resp) + server + LaterLabels(reg, url, resp, env))
  }

  /** `r` is what removing the duplicates of `c` can give: the exception
      itself, or the same labels without duplicates (in an order `set`
      leaves unspecified). */
  ghost predicate Deduplicated(r: Detection, c: Result<seq<string>, PyError>) {
    match c
    case Failure(e) => r == Raised(e)
    case Success(labels) =>
      && r.Detected?
      && NoDuplicates(r.labels)
      && forall x :: x in r.labels <==> x in labels
  }

  /** `r` is a possible result of `detect(url)`: no labels when the fetch
      failed, and otherwise the collected labels with duplicates removed. */
  ghost predicate IsDetectionOf(r: Detection, reg: seq<Signature>, url: string, fetch: FetchOutcome, env: Environment) {
    match fetch
    case RequestFailed => r == Detected([])
    case Fetched(resp) => Deduplicated(r, Collected(reg, url, resp, env))
  }

  /** `list(set(s))`: every element of `s` once. The order kept is that of
      first occurrence; the source's order is unspecified. */
  method Dedup<T(==)>(s: seq<T>) returns (r: seq<T>)
    ensures NoDuplicates(r)
    ensures forall x :: x in r <==> x in s
    ensures |r| == |set x | x in s|
  {
    r := [];
    for i := 0 to |s|
      invariant NoDuplicates(r)
      invariant forall x :: x in r <==> x in s[..i]
    {
      assert s[..i + 1] == s[..i] + [s[i]];
      if s[i] !in r {
        r := r + [s[i]];
      }
    }
    assert s[..|s|] == s;
    NoDuplicatesCard(r);
    assert (set x | x in r) == (set x | x in s);
  }

  /** `detect(url)` of a detector whose registry is `reg` (`Technologies`
      for one the constructor built), with the page fetch and the other
      network answers given. */
  method Detect(reg: seq<Signature>, url: string, fetch: FetchOutcome, env: Environment) returns (r: Detection)
    ensures IsDetectionOf(r, reg, url, fetch, env)
  {
    if fetch.RequestFailed? {
      return Detected([]);
    }
    var resp := fetch.response;
    var body := MatchBody(reg, resp.body);
    var generator := MatchElements(Generator, resp.elements, reg);
    var scripts := MatchElements(Js, resp.elements, reg);
    var styles := MatchElements(Css, resp.elements, reg);
    var headers := MatchHeaders(reg, resp.headers);
    var detected := body + generator + scripts + styles + headers;
    assert detected == ChannelLabels(reg, resp);
    match ServerSideTech(resp.headers)
    case Failure(e) =>
      return Raised(e);
    case Success(server) =>
      detected := detected + server;
      var admin := DetectCmsSpecific(reg, url, env.adminStatus);
      var cdn := DetectCdn(resp.headers);
      var social := DetectSocialMedia(resp.elements);
      var images := DetectImageTech(resp.elements);
      var privacy := DetectPrivacyTools(resp.text);
      var analytics := DetectAnalytics(resp.body);
      var later := admin + Ecommerce(resp.body) + SecurityFeatures(resp.headers) + TlsLabels(env.tls)
        + cdn + MailLabels(env.mx) + social + images + Accessibility(resp.elements)
        + MobileOptimization(resp.elements) + privacy + analytics + Fonts(resp.elements);
      assert later == LaterLabels(reg, url, resp, env);
      detected := detected + later;
      var unique := Dedup(detected);
      return Detected(unique);
  }

  // ---------------------------------------------------------------------------
  // Properties of the aggregate
  // ---------------------------------------------------------------------------

  /** Two deduplications of one list hold the same labels, and as many of
      them: only their order may differ. */
  lemma DeduplicationsAgree(r1: Detection, r2: Detection, c: Result<seq<string>, PyError>)
    requires Deduplicated(r1, c) && Deduplicated(r2, c)
    ensures r1.Detected? <==> r2.Detected?
    ensures r1.Raised? ==> r1 == r2
    ensures r1.Detected? ==> |r1.labels| == |r2.labels| && forall x :: x in r1.labels <==> x in r2.labels
  {
    if c.Success? {
      SameElementsSameLength(r1.labels, r2.labels);
    }
  }

  /** Two results for the same page and answers agree up to order. */
  lemma DetectionsAgree(r1: Detection, r2: Detection, reg: seq<Signature>, url: string, fetch: FetchOutcome, env: Environment)
    requires IsDetectionOf(r1, reg, url, fetch, env) && IsDetectionOf(r2, reg, url, fetch, env)
    ensures r1.Detected? <==> r2.Detected?
    ensures r1.Raised? ==> r1 == r2
    ensures r1.Detected? ==> |r1.labels| == |r2.labels| && forall x :: x in r1.labels <==> x in r2.labels
  {
    if fetch.Fetched? {
      DeduplicationsAgree(r1, r2, Collected(reg, url, fetch.response, env));
    }
  }

  /** However many times a label was appended, the result holds it once. */
  lemma DeduplicatedOnce(r: Detection, c: Result<seq<string>, PyError>, x: string)
    requires Deduplicated(r, c) && c.Success? && x in c.value
    ensures r.Detected? && multiset(r.labels)[x] == 1
  {
    NoDuplicatesOccursOnce(r.labels, x);
  }

  /** A page that fails to load yields no labels. */
  lemma RequestFailureYieldsNothing(r: Detection, reg: seq<Signature>, url: string, env: Environment)
    requires IsDetectionOf(r, reg, url, RequestFailed, env)
    ensures r.Detected? && r.labels == []
  {
  }

  /** An `X-Powered-By` value naming PHP without a `/` makes `detect` raise
      IndexError instead of returning labels. */
  lemma PhpWithoutVersionRaises(r: Detection, reg: seq<Signature>, url: string, resp: Response, env: Environment)
    requires IsDetectionOf(r, reg, url, Fetched(resp), env)
    requires var powered := Header(resp.headers, "X-Powered-By");
             powered.Some? && Contains(powered.value, "PHP") && '/' !in powered.value
    ensures r == Raised(IndexError)
  {
  }

  /** The version segment of `PHP/<version>`. */
  lemma PhpSegment(version: string)
    requires '/' !in version
    ensures Contains("PHP/" + version, "PHP") && '/' in "PHP/" + version
    ensures SecondSegment("PHP/" + version) == version
  {
    var v := "PHP/" + version;
    assert v[..3] == "PHP" && "PHP" <= v[0..];
    IndexOfAt(v, '/', 3);
    assert v[4..] == version;
  }

  /** An `X-Powered-By` value `PHP/<version>` is reported as `PHP <version>`. */
  lemma PhpVersionReported(r: Detection, reg: seq<Signature>, url: string, resp: Response, env: Environment, version: string)
    requires IsDetectionOf(r, reg, url, Fetched(resp), env)
    requires Header(resp.headers, "X-Powered-By") == Some("PHP/" + version) && '/' !in version
    ensures r.Detected? && "PHP " + version in r.labels
  {
    PhpSegment(version);
    var server := ServerSideTech(resp.headers);
    assert server.Success? && "PHP " + version in server.value;
  }

  /** The labels the TLS probe can produce. */
  predicate IsTlsLabel(x: string) {
    (|x| >= 9 && x[..9] == "SSL/TLS: ") || (|x| >= 20 && x[..20] == "Certificate Issuer: ")
  }

  lemma TlsLabelsAreTls(tls: TlsOutcome, x: string)
    ensures x in TlsLabels(tls) ==> IsTlsLabel(x)
  {
    if x in TlsLabels(tls) {
      var r := TlsLabels(tls);
      if x == "SSL/TLS: Unable to analyze" {
        assert x[..9] == "SSL/TLS: ";
      } else if x == r[0] {
        assert x[..9] == "SSL/TLS: ";
      } else {
        assert x == "Certificate Issuer: " + tls.issuer.value;
        assert x[..20] == "Certificate Issuer: ";
      }
    }
  }

  /** Changing only the TLS answer changes no label outside the TLS ones. */
  lemma LaterLabelsTls(reg: seq<Signature>, url: string, resp: Response, env1: Environment, env2: Environment, x: string)
    requires env1.adminStatus == env2.adminStatus && env1.mx == env2.mx && !IsTlsLabel(x)
    ensures x in LaterLabels(reg, url, resp, env1) <==> x in LaterLabels(reg, url, resp, env2)
  {
    TlsLabelsAreTls(env1.tls, x);
    TlsLabelsAreTls(env2.tls, x);
  }

  /** Before duplicates are removed, changing only the TLS answer changes
      no label outside the TLS ones. */
  lemma CollectedTls(reg: seq<Signature>, url: string, resp: Response, env1: Environment, env2: Environment, x: string)
    requires env1.adminStatus == env2.adminStatus && env1.mx == env2.mx && !IsTlsLabel(x)
    ensures Collected(reg, url, resp, env1).Success? <==> Collected(reg, url, resp, env2).Success?
    ensures Collected(reg, url, resp, env1).Success? ==>
              (x in Collected(reg, url, resp, env1).value <==> x in Collected(reg, url, resp, env2).value)
  {
    LaterLabelsTls(reg, url, resp, env1, env2, x);
  }

  /** The TLS outcome decides the TLS labels and nothing else: two results
      whose other answers agree hold the same non-TLS labels. */
  lemma TlsIsolated(r1: Detection, r2: Detection, reg: seq<Signature>, url: string, resp: Response, env1: Environment, env2: Environment)
    requires env1.adminStatus == env2.adminStatus && env1.mx == env2.mx
    requires IsDetectionOf(r1, reg, url, Fetched(resp), env1) && IsDetectionOf(r2, reg, url, Fetched(resp), env2)
    ensures r1.Detected? <==> r2.Detected?
    ensures r1.Detected? ==> forall x :: !IsTlsLabel(x) ==> (x in r1.labels <==> x in r2.labels)
  {
    var c1 := Collected(reg, url, resp, env1);
    var c2 := Collected(reg, url, resp, env2);
    CollectedTls(reg, url, resp, env1, env2, "");
    forall x | !IsTlsLabel(x) {
      CollectedTls(reg, url, resp, env1, env2, x);
    }
  }

  /** An unreachable TLS endpoint is reported. */
  lemma TlsUnreachableReported(r: Detection, reg: seq<Signature>, url: string, resp: Response, env: Environment)
    requires IsDetectionOf(r, reg, url, Fetched(resp), env) && r.Detected?
    requires env.tls.TlsUnreachable?
    ensures "SSL/TLS: Unable to analyze" in r.labels
  {
    assert "SSL/TLS: Unable to analyze" in LaterLabels(reg, url, resp, env);
  }

  /** The labels collected from a page whose server probe succeeds: those
      of the registry scans, of the server probe and of the later probes. */
  lemma CollectedMembers(reg: seq<Signature>, url: string, resp: Response, env: Environment, x: string)
    requires ServerSideTech(resp.headers).Success?
    ensures Collected(reg, url, resp, env).Success?
    ensures x in Collected(reg, url, resp, env).value <==>
              x in ChannelLabels(reg, resp) || x in ServerSideTech(resp.headers).value || x in LaterLabels(reg, url, resp, env)
  {
  }

  /** A name the registry scans append is in the result once, however many
      times they append it. */
  lemma RegistryNameReported(r: Detection, reg: seq<Signature>, url: string, resp: Response, env: Environment, name: string)
    requires IsDetectionOf(r, reg, url, Fetched(resp), env) && r.Detected?
    requires name in ChannelLabels(reg, resp)
    ensures name in r.labels && multiset(r.labels)[name] == 1
  {
    CollectedMembers(reg, url, resp, env, name);
    DeduplicatedOnce(r, Collected(reg, url, resp, env), name);
  }

  /** A body containing `wp-content` reports WordPress. */
  lemma WordPressReported(r: Detection, reg: seq<Signature>, url: string, resp: Response, env: Environment)
    requires reg == Technologies
    requires IsDetectionOf(r, reg, url, Fetched(resp), env) && r.Detected?
    requires Contains(Lower(resp.body), "wp-content")
    ensures "WordPress" in r.labels
  {
    WordPressInBody(resp.body);
    RegistryNameReported(r, reg, url, resp, env, "WordPress");
  }

  /** A page served by nginx, without `X-Powered-By`, with a frame policy and
      a viewport tag, is reported with all three, whatever the registry. */
  lemma NginxPageReported(r: Detection, reg: seq<Signature>, url: string, resp: Response, env: Environment, k: nat)
    requires IsDetectionOf(r, reg, url, Fetched(resp), env)
    requires Header(resp.headers, "Server") == Some("nginx") && !HasHeader(resp.headers, "X-Powered-By")
    requires HasHeader(resp.headers, "X-Frame-Options")
    requires k < |resp.elements| && resp.elements[k].tag == "meta" && AttrIs(resp.elements[k], "name", "viewport")
    ensures r.Detected?
    ensures "Nginx" in r.labels && "Clickjacking Protection" in r.labels && "Responsive Design" in r.labels
  {
    NginxOnly(resp.headers);
    CollectedMembers(reg, url, resp, env, "Nginx");
    CollectedMembers(reg, url, resp, env, "Clickjacking Protection");
    CollectedMembers(reg, url, resp, env, "Responsive Design");
  }

  /** A WordPress page served by nginx, without `X-Powered-By`, with a frame
      policy and a viewport tag is reported as all four. */
  lemma TypicalPage(r: Detection, reg: seq<Signature>, url: string, resp: Response, env: Environment, k: nat)
    requires reg == Technologies
    requires IsDetectionOf(r, reg, url, Fetched(resp), env)
    requires Contains(Lower(resp.body), "wp-content")
    requires Header(resp.headers, "Server") == Some("nginx") && !HasHeader(resp.headers, "X-Powered-By")
    requires HasHeader(resp.headers, "X-Frame-Options")
    requires k < |resp.elements| && resp.elements[k].tag == "meta" && AttrIs(resp.elements[k], "name", "viewport")
    ensures r.Detected?
    ensures "WordPress" in r.labels
    ensures "Nginx" in r.labels && "Clickjacking Protection" in r.labels && "Responsive Design" in r.labels
  {
    NginxPageReported(r, reg, url, resp, env, k);
    WordPressReported(r, reg, url, resp, env);
  }
}
