/** The auxiliary probes `detect` runs after the registry scans: the
    server-technology, security-header and CDN header probes, the
    admin-path probe (its HTTP status given as an oracle), the TLS and
    mail-exchange probes (their outcome given), and the content
    heuristics over body, text and elements. */
module Probes {
  import opened Wrappers
  import opened Lists
  import opened Text
  import opened Registry
  import opened Page

  /** An exception that leaves a probe and `detect` uncaught. */
  datatype PyError = IndexError

  // ---------------------------------------------------------------------------
  // detect_server_side_tech
  // ---------------------------------------------------------------------------

  /** The text between the first and the second `/` of `v` (or its end). */
  function SecondSegment(v: string): string
    requires '/' in v
  {
    var rest := v[IndexOf(v, '/') + 1..];
    rest[..IndexOf(rest, '/')]
  }

  /** The `X-Powered-By` half: `PHP <version>` when the value mentions PHP,
      taking `value.split('/')[1]`, which raises IndexError when there is no
      `/`; otherwise `ASP.NET` when it mentions ASP.NET. */
  function PoweredBy(powered: Option<string>): (r: Result<seq<string>, PyError>)
    ensures r.Failure? <==> powered.Some? && Contains(powered.value, "PHP") && '/' !in powered.value
    ensures r.Success? && powered.Some? && Contains(powered.value, "PHP") ==>
              r.value == ["PHP " + SecondSegment(powered.value)]
    ensures r.Success? && !(powered.Some? && Contains(powered.value, "PHP")) ==>
              r.value == if powered.Some? && Contains(powered.value, "ASP.NET") then ["ASP.NET"] else []
  {
    if powered.Some? && Contains(powered.value, "PHP") then
      var parts := Split(powered.value, '/');
      SplitJoin(powered.value, '/');
      if |parts| > 1 then
        SplitSecond(powered.value, '/');
        Success(["PHP " + parts[1]])
      else Failure(IndexError)
    else if powered.Some? && Contains(powered.value, "ASP.NET") then Success(["ASP.NET"])
    else Success([])
  }

  /** The `Server` half: `Nginx` wins over `Apache`, both in any letter case. */
  function ServerSoftware(server: Option<string>): (r: seq<string>)
    ensures "Nginx" in r <==> server.Some? && Contains(Lower(server.value), "nginx")
    ensures "Apache" in r <==>
            server.Some? && !Contains(Lower(server.value), "nginx") && Contains(Lower(server.value), "apache")
    ensures |r| <= 1 && forall l :: l in r ==> l == "Nginx" || l == "Apache"
  {
    if server.Some? && Contains(Lower(server.value), "nginx") then ["Nginx"]
    else if server.Some? && Contains(Lower(server.value), "apache") then ["Apache"]
    else []
  }

  /** `detect_server_side_tech`: the IndexError of the `X-Powered-By` half
      escapes; otherwise the labels of both halves. */
  function ServerSideTech(headers: map<string, string>): (r: Result<seq<string>, PyError>)
    ensures var powered := Header(headers, "X-Powered-By");
            r.Failure? <==> powered.Some? && Contains(powered.value, "PHP") && '/' !in powered.value
    ensures r.Success? ==>
              var powered := Header(headers, "X-Powered-By");
              var server := Header(headers, "Server");
              && (powered.Some? && Contains(powered.value, "PHP") ==> "PHP " + SecondSegment(powered.value) in r.value)
              && ("ASP.NET" in r.value <==>
                    powered.Some? && !Contains(powered.value, "PHP") && Contains(powered.value, "ASP.NET"))
              && ("Nginx" in r.value <==> server.Some? && Contains(Lower(server.value), "nginx"))
              && ("Apache" in r.value <==>
                    server.Some? && !Contains(Lower(server.value), "nginx") && Contains(Lower(server.value), "apache"))
              && |r.value| <= 2
              && forall l :: l in r.value ==>
                   || l == "ASP.NET" || l == "Nginx" || l == "Apache"
                   || (powered.Some? && Contains(powered.value, "PHP") && '/' in powered.value
                       && l == "PHP " + SecondSegment(powered.value))
  {
    var powered := Header(headers, "X-Powered-By");
    match PoweredBy(powered)
    case Failure(e) => Failure(e)
    case Success(first) =>
      var second := ServerSoftware(Header(headers, "Server"));
      var version := if powered.Some? && '/' in powered.value then SecondSegment(powered.value) else "";
      PhpLabelDistinct(version);
      Success(first + second)
  }

  /** `Server: nginx` without `X-Powered-By` is reported as Nginx alone. */
  lemma NginxOnly(headers: map<string, string>)
    requires Header(headers, "Server") == Some("nginx") && !HasHeader(headers, "X-Powered-By")
    ensures ServerSideTech(headers) == Success(["Nginx"])
  {
    assert Lower("nginx") == "nginx";
    assert "nginx" <= "nginx"[0..];
    assert Contains(Lower("nginx"), "nginx");
    assert PoweredBy(Header(headers, "X-Powered-By")) == Success([]);
    assert ServerSoftware(Header(headers, "Server")) == ["Nginx"];
    assert [] + ["Nginx"] == ["Nginx"];
  }

  /** A `PHP ...` label is none of the fixed labels. */
  lemma PhpLabelDistinct(version: string)
    ensures "PHP " + version != "ASP.NET" && "PHP " + version != "Nginx" && "PHP " + version != "Apache"
  {
    assert ("PHP " + version)[0] == 'P';
    assert ("PHP " + version)[1] == 'H';
  }

  // ---------------------------------------------------------------------------
  // detect_cms_specific: the admin-path probe
  // ---------------------------------------------------------------------------

  /** `url.rstrip('/') + admin_path`: the path appended to the address with
      its trailing slashes removed. */
  function AdminUrl(url: string, path: string): (r: string)
    ensures |path| <= |r| && r[|r| - |path|..] == path
    ensures var base := r[..|r| - |path|];
            && base <= url
            && (base == [] || base[|base| - 1] != '/')
            && forall i :: |base| <= i < |url| ==> url[i] == '/'
  {
    var base := RStrip(url, '/');
    assert (base + path)[..|base|] == base;
    base + path
  }

  /** The admin GET for `path` answered 200. `status` maps each address the
      probe may request to the status it gets; an address outside it stands
      for a request that raised, which the probe ignores. */
  predicate AdminReached(url: string, path: string, status: map<string, int>) {
    AdminUrl(url, path) in status && status[AdminUrl(url, path)] == 200
  }

  function AdminLabel(name: string): string {
    name + " (Admin page found)"
  }

  function AdminScan(reg: seq<Signature>, url: string, status: map<string, int>): seq<string>
    decreases |reg|
  {
    if reg == [] then []
    else
      var last := reg[|reg| - 1];
      AdminScan(reg[..|reg| - 1], url, status)
        + (if last.adminPath.Some? && AdminReached(url, last.adminPath.value, status) then [AdminLabel(last.name)] else [])
  }

  /** One probe per entry with an admin path, in registry order. */
  method DetectCmsSpecific(reg: seq<Signature>, url: string, status: map<string, int>) returns (detected: seq<string>)
    ensures detected == AdminScan(reg, url, status)
  {
    detected := [];
    for i := 0 to |reg|
      invariant detected == AdminScan(reg[..i], url, status)
    {
      var sig := reg[i];
      if sig.adminPath.Some? {
        var adminUrl := AdminUrl(url, sig.adminPath.value);
        if adminUrl in status && status[adminUrl] == 200 {
          detected := detected + [AdminLabel(sig.name)];
        }
      }
      assert reg[..i + 1][..i] == reg[..i];
    }
    assert reg[..|reg|] == reg;
  }

  /** An admin label is reported exactly for the entries whose admin page
      answered 200. */
  lemma {:induction false} AdminScanMembers(reg: seq<Signature>, url: string, status: map<string, int>, l: string)
    ensures l in AdminScan(reg, url, status) <==>
            exists i :: 0 <= i < |reg| && reg[i].adminPath.Some? && l == AdminLabel(reg[i].name)
              && AdminReached(url, reg[i].adminPath.value, status)
    decreases |reg|
  {
    if reg != [] {
      var n := |reg| - 1;
      AdminScanMembers(reg[..n], url, status, l);
      if exists i :: 0 <= i < |reg| && reg[i].adminPath.Some? && l == AdminLabel(reg[i].name)
           && AdminReached(url, reg[i].adminPath.value, status) {
        var i :| 0 <= i < |reg| && reg[i].adminPath.Some? && l == AdminLabel(reg[i].name)
           && AdminReached(url, reg[i].adminPath.value, status);
        if i < n {
          assert reg[..n][i] == reg[i];
        }
      }
    }
  }

  // ---------------------------------------------------------------------------
  // detect_ecommerce and detect_security_features
  // ---------------------------------------------------------------------------

  /** `checkout`/`cart` are looked for in the lower-cased body, `Shopify.shop`
      in the body as it is. */
  function Ecommerce(body: string): (r: seq<string>)
    ensures "E-commerce functionality" in r <==>
            Contains(Lower(body), "checkout") || Contains(Lower(body), "cart")
    ensures "Shopify" in r <==> Contains(body, "Shopify.shop")
    ensures forall l :: l in r ==> l == "E-commerce functionality" || l == "Shopify"
    ensures NoDuplicates(r)
  {
    (if Contains(Lower(body), "checkout") || Contains(Lower(body), "cart") then ["E-commerce functionality"] else [])
      + (if Contains(body, "Shopify.shop") then ["Shopify"] else [])
  }

  /** One label per security header present. */
  function SecurityFeatures(headers: map<string, string>): (r: seq<string>)
    ensures "Content Security Policy" in r <==> HasHeader(headers, "Content-Security-Policy")
    ensures "XSS Protection" in r <==> HasHeader(headers, "X-XSS-Protection")
    ensures "Clickjacking Protection" in r <==> HasHeader(headers, "X-Frame-Options")
    ensures forall l :: l in r ==>
              l == "Content Security Policy" || l == "XSS Protection" || l == "Clickjacking Protection"
    ensures NoDuplicates(r)
  {
    (if HasHeader(headers, "Content-Security-Policy") then ["Content Security Policy"] else [])
      + (if HasHeader(headers, "X-XSS-Protection") then ["XSS Protection"] else [])
      + (if HasHeader(headers, "X-Frame-Options") then ["Clickjacking Protection"] else [])
  }

  // ---------------------------------------------------------------------------
  // analyze_ssl_tls and analyze_dns, on their outcome
  // ---------------------------------------------------------------------------

  /** What the TLS handshake produced: no connection or handshake, or a
      session with its protocol version and, when it could be read, the
      value of the second name component of the certificate's issuer. */
  datatype TlsOutcome = TlsUnreachable | TlsSession(version: string, issuer: Option<string>)

  /** Any failure yields `SSL/TLS: Unable to analyze`; a failure reading the
      issuer comes after the version label was already appended. */
  function TlsLabels(tls: TlsOutcome): (r: seq<string>)
    ensures tls.TlsUnreachable? ==> r == ["SSL/TLS: Unable to analyze"]
    ensures tls.TlsSession? ==> |r| == 2 && r[0] == "SSL/TLS: " + tls.version
    ensures tls.TlsSession? && tls.issuer.None? ==> r[1] == "SSL/TLS: Unable to analyze"
    ensures tls.TlsSession? && tls.issuer.Some? ==> r[1] == "Certificate Issuer: " + tls.issuer.value
  {
    match tls
    case TlsUnreachable => ["SSL/TLS: Unable to analyze"]
    case TlsSession(version, issuer) =>
      ["SSL/TLS: " + version]
        + (match issuer
           case Some(o) => ["Certificate Issuer: " + o]
           case None => ["SSL/TLS: Unable to analyze"])
  }

  /** The first mail exchanger when the MX lookup succeeded. */
  function MailLabels(mx: Option<string>): seq<string> {
    match mx
    case Some(exchange) => ["Email Provider: " + exchange]
    case None => []
  }

  // ---------------------------------------------------------------------------
  // detect_cdn
  // ---------------------------------------------------------------------------

  const CdnHeaders: seq<string> := ["X-CDN", "X-EdgeConnect-MidMile-RTT", "X-Akamai-Transformed"]

  predicate AnyCdnHeader(headers: map<string, string>) {
    exists i :: 0 <= i < |CdnHeaders| && HasHeader(headers, CdnHeaders[i])
  }

  function CdnLabels(headers: map<string, string>): seq<string> {
    if AnyCdnHeader(headers) then ["CDN Detected"] else []
  }

  /** Stops at the first CDN header present, so the label comes at most once. */
  method DetectCdn(headers: map<string, string>) returns (detected: seq<string>)
    ensures |detected| <= 1
    ensures "CDN Detected" in detected <==> AnyCdnHeader(headers)
    ensures detected == CdnLabels(headers)
  {
    detected := [];
    var i := 0;
    while i < |CdnHeaders|
      invariant 0 <= i <= |CdnHeaders|
      invariant detected == []
      invariant forall k :: 0 <= k < i ==> !HasHeader(headers, CdnHeaders[k])
    {
      if HasHeader(headers, CdnHeaders[i]) {
        detected := detected + ["CDN Detected"];
        break;
      }
      i := i + 1;
    }
  }

  // ---------------------------------------------------------------------------
  // detect_social_media
  // ---------------------------------------------------------------------------

  /** A social platform: the pattern looked for in link addresses and the
      title reported for it. */
  datatype Platform = Platform(pattern: string, title: string)

  const SocialPlatforms: seq<Platform> := [
    Platform("facebook.com", "Facebook integration"),
    Platform("twitter.com", "Twitter integration"),
    Platform("instagram.com", "Instagram integration"),
    Platform("linkedin.com", "Linkedin integration")
  ]

  /** `f"{pattern.split('.')[0].capitalize()} integration"` */
  function SocialLabel(pattern: string): string {
    Capitalize(Split(pattern, '.')[0]) + " integration"
  }

  /** Some `<a href>` matches the pattern as a regular expression. */
  predicate LinksTo(elems: seq<Element>, pattern: string) {
    FindByRegex(elems, "a", "href", pattern)
  }

  predicate HasSocialMetadata(elems: seq<Element>) {
    FindByValue(elems, "meta", "property", "og:title") || FindByValue(elems, "meta", "property", "twitter:card")
  }

  function PlatformScan(platforms: seq<Platform>, elems: seq<Element>): seq<string>
    decreases |platforms|
  {
    if platforms == [] then []
    else
      var p := platforms[|platforms| - 1];
      PlatformScan(platforms[..|platforms| - 1], elems) + (if LinksTo(elems, p.pattern) then [p.title] else [])
  }

  function SocialScan(elems: seq<Element>): seq<string> {
    PlatformScan(SocialPlatforms, elems) + (if HasSocialMetadata(elems) then ["Social Media Metadata"] else [])
  }

  method DetectSocialMedia(elems: seq<Element>) returns (detected: seq<string>)
    ensures detected == SocialScan(elems)
  {
    detected := [];
    for i := 0 to |SocialPlatforms|
      invariant detected == PlatformScan(SocialPlatforms[..i], elems)
    {
      var platform := SocialPlatforms[i];
      if LinksTo(elems, platform.pattern) {
        detected := detected + [platform.title];
      }
      assert SocialPlatforms[..i + 1][..i] == SocialPlatforms[..i];
    }
    assert SocialPlatforms[..|SocialPlatforms|] == SocialPlatforms;
    if HasSocialMetadata(elems) {
      detected := detected + ["Social Media Metadata"];
    }
  }

  lemma {:induction false} PlatformScanMembers(platforms: seq<Platform>, elems: seq<Element>, l: string)
    ensures l in PlatformScan(platforms, elems) <==>
            exists i :: 0 <= i < |platforms| && l == platforms[i].title && LinksTo(elems, platforms[i].pattern)
    decreases |platforms|
  {
    if platforms != [] {
      var n := |platforms| - 1;
      var init := platforms[..n];
      PlatformScanMembers(init, elems, l);
      if exists i :: 0 <= i < |platforms| && l == platforms[i].title && LinksTo(elems, platforms[i].pattern) {
        var i :| 0 <= i < |platforms| && l == platforms[i].title && LinksTo(elems, platforms[i].pattern);
        if i < n {
          assert init[i] == platforms[i];
        }
      }
    }
  }

  /** The label `split` and `capitalize` make of a pattern that starts with
      `stem` and a dot. */
  lemma SocialLabelOfStem(pattern: string, stem: string, title: string)
    requires stem + "." <= pattern && '.' !in stem
    requires title == Capitalize(stem) + " integration"
    ensures SocialLabel(pattern) == title
  {
    assert pattern[..|stem|] == stem;
    SplitFirst(pattern, '.', |stem|);
  }
  /** The platform table, entry by entry. */
  lemma SocialTable()
    ensures SocialPlatforms[0] == Platform("facebook.com", "Facebook integration")
    ensures SocialPlatforms[1] == Platform("twitter.com", "Twitter integration")
    ensures SocialPlatforms[2] == Platform("instagram.com", "Instagram integration")
    ensures SocialPlatforms[3] == Platform("linkedin.com", "Linkedin integration")
  {
  }

  // The stem of each pattern and the label it makes.

  lemma FacebookStem()
    ensures "facebook" + "." <= "facebook.com" && '.' !in "facebook"
    ensures "Facebook integration" == Capitalize("facebook") + " integration"
  {
    assert Capitalize("facebook") == "Facebook";
  }

  lemma TwitterStem()
    ensures "twitter" + "." <= "twitter.com" && '.' !in "twitter"
    ensures "Twitter integration" == Capitalize("twitter") + " integration"
  {
    assert Capitalize("twitter") == "Twitter";
  }

  lemma InstagramStem()
    ensures "instagram" + "." <= "instagram.com" && '.' !in "instagram"
    ensures "Instagram integration" == Capitalize("instagram") + " integration"
  {
    assert Capitalize("instagram") == "Instagram";
  }

  lemma LinkedinStem()
    ensures "linkedin" + "." <= "linkedin.com" && '.' !in "linkedin"
    ensures "Linkedin integration" == Capitalize("linkedin") + " integration"
  {
    assert Capitalize("linkedin") == "Linkedin";
  }

  /** The titles of the platform table are those `split` and `capitalize`
      make of its patterns. */
  lemma SocialTitle(p: Platform)
    requires p in SocialPlatforms
    ensures p.title == SocialLabel(p.pattern)
  {
    SocialTable();
    if p == SocialPlatforms[0] {
      FacebookStem();
      SocialLabelOfStem(p.pattern, "facebook", p.title);
    } else if p == SocialPlatforms[1] {
      TwitterStem();
      SocialLabelOfStem(p.pattern, "twitter", p.title);
    } else if p == SocialPlatforms[2] {
      InstagramStem();
      SocialLabelOfStem(p.pattern, "instagram", p.title);
    } else {
      LinkedinStem();
      SocialLabelOfStem(p.pattern, "linkedin", p.title);
    }
  }


  /** What the social probe reports: the title of each platform some link
      address matches, and the metadata label when an Open Graph title or a
      Twitter card is declared. */
  lemma SocialScanMembers(elems: seq<Element>, l: string)
    ensures l in SocialScan(elems) <==>
              (exists i :: 0 <= i < |SocialPlatforms| && l == SocialPlatforms[i].title && LinksTo(elems, SocialPlatforms[i].pattern))
              || (l == "Social Media Metadata" && HasSocialMetadata(elems))
  {
    PlatformScanMembers(SocialPlatforms, elems, l);
  }

  /** The titles of the platform table are distinct and differ from the
      metadata label. */
  lemma SocialTitlesDistinct(i: int, j: int)
    requires 0 <= i < |SocialPlatforms| && 0 <= j < |SocialPlatforms|
    ensures SocialPlatforms[i].title == SocialPlatforms[j].title ==> i == j
    ensures SocialPlatforms[i].title != "Social Media Metadata"
  {
  }

  /** A platform is reported exactly when some link address matches its
      pattern. */
  lemma SocialPlatformReported(elems: seq<Element>, i: int)
    requires 0 <= i < |SocialPlatforms|
    ensures SocialPlatforms[i].title in SocialScan(elems) <==> LinksTo(elems, SocialPlatforms[i].pattern)
  {
    var t := SocialPlatforms[i].title;
    SocialScanMembers(elems, t);
    SocialTitlesDistinct(i, i);
    if t in SocialScan(elems) {
      var j :| 0 <= j < |SocialPlatforms| && t == SocialPlatforms[j].title && LinksTo(elems, SocialPlatforms[j].pattern);
      SocialTitlesDistinct(i, j);
    }
  }

  // ---------------------------------------------------------------------------
  // detect_image_tech
  // ---------------------------------------------------------------------------

  const ImageFormats: seq<string> := ["webp", "avif"]

  /** `f"{format.upper()} Image Format"` */
  function FormatLabel(format: string): string {
    Upper(format) + " Image Format"
  }

  predicate IsSourcedImage(e: Element) {
    e.tag == "img" && "src" in e.attrs
  }

  /** `img['src'].lower().endswith(f'.{format}')` */
  predicate HasFormat(e: Element, format: string) {
    IsSourcedImage(e) && EndsWith(Lower(e.attrs["src"]), "." + format)
  }

  function FormatHits(e: Element, formats: seq<string>): seq<string>
    decreases |formats|
  {
    if formats == [] then []
    else
      var f := formats[|formats| - 1];
      FormatHits(e, formats[..|formats| - 1]) + (if HasFormat(e, f) then [FormatLabel(f)] else [])
  }

  function ImageScan(elems: seq<Element>): seq<string>
    decreases |elems|
  {
    if elems == [] then []
    else
      var e := elems[|elems| - 1];
      ImageScan(elems[..|elems| - 1]) + (if IsSourcedImage(e) then FormatHits(e, ImageFormats) else [])
  }

  predicate HasLazyImage(elems: seq<Element>) {
    FindByValue(elems, "img", "loading", "lazy")
  }

  function ImageLabels(elems: seq<Element>): seq<string> {
    (if HasLazyImage(elems) then ["Lazy Loading Images"] else []) + ImageScan(elems)
  }

  /** The formats an image's lower-cased address ends in, in format order. */
  method MatchFormats(img: Element, formats: seq<string>) returns (found: seq<string>)
    requires IsSourcedImage(img)
    ensures found == FormatHits(img, formats)
  {
    found := [];
    for j := 0 to |formats|
      invariant found == FormatHits(img, formats[..j])
    {
      var format := formats[j];
      if EndsWith(Lower(img.attrs["src"]), "." + format) {
        found := found + [FormatLabel(format)];
      }
      assert formats[..j + 1][..j] == formats[..j];
    }
    assert formats[..|formats|] == formats;
  }

  method DetectImageTech(elems: seq<Element>) returns (detected: seq<string>)
    ensures detected == ImageLabels(elems)
  {
    detected := if HasLazyImage(elems) then ["Lazy Loading Images"] else [];
    ghost var lazy := detected;
    for k := 0 to |elems|
      invariant detected == lazy + ImageScan(elems[..k])
    {
      var img := elems[k];
      assert elems[..k + 1][..k] == elems[..k];
      if IsSourcedImage(img) {
        var found := MatchFormats(img, ImageFormats);
        detected := detected + found;
      }
    }
    assert elems[..|elems|] == elems;
  }

  /** The number of images whose address ends in `.format`. */
  function ImagesWithFormat(elems: seq<Element>, format: string): nat
    decreases |elems|
  {
    if elems == [] then 0
    else ImagesWithFormat(elems[..|elems| - 1], format) + (if HasFormat(elems[|elems| - 1], format) then 1 else 0)
  }

  lemma FormatLabels()
    ensures FormatLabel("webp") == "WEBP Image Format"
    ensures FormatLabel("avif") == "AVIF Image Format"
  {
    assert Upper("webp") == "WEBP";
    assert Upper("avif") == "AVIF";
  }

  /** No two formats of `formats` share a label. */
  predicate LabelsDistinct(formats: seq<string>) {
    forall a, b :: 0 <= a < b < |formats| ==> FormatLabel(formats[a]) != FormatLabel(formats[b])
  }

  lemma ImageFormatsDistinct()
    ensures LabelsDistinct(ImageFormats)
  {
    FormatLabels();
  }

  /** With distinct labels, one image contributes a format's label once if
      its address ends in that format and not at all otherwise. */
  lemma {:induction false} FormatHitsCount(e: Element, formats: seq<string>, i: nat)
    requires LabelsDistinct(formats) && i < |formats|
    ensures multiset(FormatHits(e, formats))[FormatLabel(formats[i])] == if HasFormat(e, formats[i]) then 1 else 0
    decreases |formats|
  {
    var n := |formats| - 1;
    var init := formats[..n];
    var l := FormatLabel(formats[i]);
    assert LabelsDistinct(init) by {
      forall a, b | 0 <= a < b < |init| ensures FormatLabel(init[a]) != FormatLabel(init[b]) {
        assert init[a] == formats[a] && init[b] == formats[b];
      }
    }
    if i == n {
      FormatHitsMembers(e, init, l);
      forall a | 0 <= a < |init| ensures l != FormatLabel(init[a]) {
        assert init[a] == formats[a];
      }
    } else {
      FormatHitsCount(e, init, i);
      assert init[i] == formats[i];
    }
  }

  lemma {:induction false} FormatHitsMembers(e: Element, formats: seq<string>, l: string)
    ensures l in FormatHits(e, formats) <==>
            exists a :: 0 <= a < |formats| && l == FormatLabel(formats[a]) && HasFormat(e, formats[a])
    decreases |formats|
  {
    if formats != [] {
      var n := |formats| - 1;
      FormatHitsMembers(e, formats[..n], l);
      if exists a :: 0 <= a < |formats| && l == FormatLabel(formats[a]) && HasFormat(e, formats[a]) {
        var a :| 0 <= a < |formats| && l == FormatLabel(formats[a]) && HasFormat(e, formats[a]);
        if a < n {
          assert formats[..n][a] == formats[a];
        }
      }
    }
  }

  /** Each format label is emitted once per image in that format. */
  lemma {:induction false} ImageFormatCount(elems: seq<Element>, i: nat)
    requires i < |ImageFormats|
    ensures multiset(ImageLabels(elems))[FormatLabel(ImageFormats[i])] == ImagesWithFormat(elems, ImageFormats[i])
  {
    FormatLabels();
    ImageScanCount(elems, i);
  }

  lemma {:induction false} ImageScanCount(elems: seq<Element>, i: nat)
    requires i < |ImageFormats|
    ensures multiset(ImageScan(elems))[FormatLabel(ImageFormats[i])] == ImagesWithFormat(elems, ImageFormats[i])
    decreases |elems|
  {
    if elems != [] {
      var n := |elems| - 1;
      var e := elems[n];
      ImageScanCount(elems[..n], i);
      if IsSourcedImage(e) {
        ImageFormatsDistinct();
        FormatHitsCount(e, ImageFormats, i);
      } else {
        assert !HasFormat(e, ImageFormats[i]);
      }
    }
  }

  /** The format labels never include the lazy-loading label. */
  lemma {:induction false} LazyNotAFormat(elems: seq<Element>)
    ensures "Lazy Loading Images" !in ImageScan(elems)
    decreases |elems|
  {
    if elems != [] {
      var n := |elems| - 1;
      LazyNotAFormat(elems[..n]);
      if IsSourcedImage(elems[n]) {
        FormatLabels();
        FormatHitsMembers(elems[n], ImageFormats, "Lazy Loading Images");
      }
    }
  }

  /** `Lazy Loading Images` is reported if and only if some image is lazily loaded. */
  lemma LazyLoadingReported(elems: seq<Element>)
    ensures "Lazy Loading Images" in ImageLabels(elems) <==> HasLazyImage(elems)
  {
    LazyNotAFormat(elems);
  }

  // ---------------------------------------------------------------------------
  // detect_accessibility, detect_mobile_optimization, detect_fonts
  // ---------------------------------------------------------------------------

  /** Only `aria-label` and `role` attributes count, on any element. */
  function Accessibility(elems: seq<Element>): (r: seq<string>)
    ensures |r| <= 1
    ensures "ARIA attributes (Accessibility)" in r <==>
            exists k :: 0 <= k < |elems| && ("aria-label" in elems[k].attrs || "role" in elems[k].attrs)
    ensures forall l :: l in r ==> l == "ARIA attributes (Accessibility)"
  {
    if exists k :: 0 <= k < |elems| && ("aria-label" in elems[k].attrs || "role" in elems[k].attrs)
    then ["ARIA attributes (Accessibility)"] else []
  }

  function MobileOptimization(elems: seq<Element>): (r: seq<string>)
    ensures |r| <= 1
    ensures "Responsive Design" in r <==> exists k :: 0 <= k < |elems| && elems[k].tag == "meta" && AttrIs(elems[k], "name", "viewport")
    ensures forall l :: l in r ==> l == "Responsive Design"
  {
    if FindByValue(elems, "meta", "name", "viewport") then ["Responsive Design"] else []
  }

  /** Link addresses are matched as regular expressions, so each `.` of the
      font host names matches any character. */
  function Fonts(elems: seq<Element>): (r: seq<string>)
    ensures "Google Fonts" in r <==> FindByRegex(elems, "link", "href", "fonts.googleapis.com")
    ensures "Adobe Typekit" in r <==> FindByRegex(elems, "link", "href", "use.typekit.net")
    ensures forall l :: l in r ==> l == "Google Fonts" || l == "Adobe Typekit"
    ensures NoDuplicates(r)
  {
    (if FindByRegex(elems, "link", "href", "fonts.googleapis.com") then ["Google Fonts"] else [])
      + (if FindByRegex(elems, "link", "href", "use.typekit.net") then ["Adobe Typekit"] else [])
  }

  // ---------------------------------------------------------------------------
  // detect_privacy_tools
  // ---------------------------------------------------------------------------

  const PrivacyPatterns: seq<string> := ["gdpr", "ccpa", "cookie consent"]

  /** `f"{pattern.upper()} Compliance Tool"` */
  function PrivacyLabel(pattern: string): string {
    Upper(pattern) + " Compliance Tool"
  }

  function PrivacyScan(patterns: seq<string>, lowered: string): seq<string>
    decreases |patterns|
  {
    if patterns == [] then []
    else
      var p := patterns[|patterns| - 1];
      PrivacyScan(patterns[..|patterns| - 1], lowered) + (if Contains(lowered, p) then [PrivacyLabel(p)] else [])
  }

  /** Each pattern is looked for in the lower-cased document text. */
  method DetectPrivacyTools(text: string) returns (detected: seq<string>)
    ensures detected == PrivacyScan(PrivacyPatterns, Lower(text))
  {
    detected := [];
    for i := 0 to |PrivacyPatterns|
      invariant detected == PrivacyScan(PrivacyPatterns[..i], Lower(text))
    {
      var pattern := PrivacyPatterns[i];
      if Contains(Lower(text), pattern) {
        detected := detected + [PrivacyLabel(pattern)];
      }
      assert PrivacyPatterns[..i + 1][..i] == PrivacyPatterns[..i];
    }
    assert PrivacyPatterns[..|PrivacyPatterns|] == PrivacyPatterns;
  }

  lemma {:induction false} PrivacyScanMembers(patterns: seq<string>, lowered: string, l: string)
    ensures l in PrivacyScan(patterns, lowered) <==>
            exists i :: 0 <= i < |patterns| && l == PrivacyLabel(patterns[i]) && Contains(lowered, patterns[i])
    decreases |patterns|
  {
    if patterns != [] {
      var n := |patterns| - 1;
      var init := patterns[..n];
      PrivacyScanMembers(init, lowered, l);
      forall i | 0 <= i < n
        ensures init[i] == patterns[i]
      {
      }
    }
  }

  /** The labels the three privacy terms produce. */
  lemma GdprLabel()
    ensures PrivacyLabel(PrivacyPatterns[0]) == "GDPR Compliance Tool"
  {
    assert Upper("gdpr") == "GDPR";
  }

  lemma CcpaLabel()
    ensures PrivacyLabel(PrivacyPatterns[1]) == "CCPA Compliance Tool"
  {
    assert Upper("ccpa") == "CCPA";
  }

  lemma CookieConsentLabel()
    ensures PrivacyLabel(PrivacyPatterns[2]) == "COOKIE CONSENT Compliance Tool"
  {
    assert Upper("cookie consent") == "COOKIE CONSENT";
  }

  lemma PrivacyLabels()
    ensures PrivacyLabel(PrivacyPatterns[0]) == "GDPR Compliance Tool"
    ensures PrivacyLabel(PrivacyPatterns[1]) == "CCPA Compliance Tool"
    ensures PrivacyLabel(PrivacyPatterns[2]) == "COOKIE CONSENT Compliance Tool"
  {
    GdprLabel();
    CcpaLabel();
    CookieConsentLabel();
  }

  /** A privacy term's label is reported exactly when the term occurs in the
      lower-cased text. */
  lemma PrivacyPatternReported(lowered: string, i: int)
    requires 0 <= i < |PrivacyPatterns|
    ensures PrivacyLabel(PrivacyPatterns[i]) in PrivacyScan(PrivacyPatterns, lowered) <==> Contains(lowered, PrivacyPatterns[i])
  {
    var l := PrivacyLabel(PrivacyPatterns[i]);
    PrivacyScanMembers(PrivacyPatterns, lowered, l);
    if l in PrivacyScan(PrivacyPatterns, lowered) {
      var j :| 0 <= j < |PrivacyPatterns| && l == PrivacyLabel(PrivacyPatterns[j]) && Contains(lowered, PrivacyPatterns[j]);
      PrivacyLabels();
      assert i == j;
    }
  }

  /** One compliance label per privacy term found, in any letter case. */
  lemma PrivacyLabelsFound(text: string)
    ensures "GDPR Compliance Tool" in PrivacyScan(PrivacyPatterns, Lower(text)) <==> Contains(Lower(text), "gdpr")
    ensures "CCPA Compliance Tool" in PrivacyScan(PrivacyPatterns, Lower(text)) <==> Contains(Lower(text), "ccpa")
    ensures "COOKIE CONSENT Compliance Tool" in PrivacyScan(PrivacyPatterns, Lower(text)) <==>
            Contains(Lower(text), "cookie consent")
  {
    PrivacyLabels();
    PrivacyPatternReported(Lower(text), 0);
    PrivacyPatternReported(Lower(text), 1);
    PrivacyPatternReported(Lower(text), 2);
  }

  // ---------------------------------------------------------------------------
  // detect_analytics
  // ---------------------------------------------------------------------------

  const AnalyticsPatterns: seq<(string, string)> := [
    ("Google Analytics", "google-analytics.com/analytics.js"),
    ("Google Tag Manager", "googletagmanager.com/gtm.js"),
    ("Hotjar", "static.hotjar.com"),
    ("Mixpanel", "cdn.mxpnl.com")
  ]

  function AnalyticsScan(patterns: seq<(string, string)>, body: string): seq<string>
    decreases |patterns|
  {
    if patterns == [] then []
    else
      var p := patterns[|patterns| - 1];
      AnalyticsScan(patterns[..|patterns| - 1], body) + (if Contains(body, p.1) then [p.0] else [])
  }

  /** Each vendor fragment is looked for in the body as it is (case-sensitive). */
  method DetectAnalytics(body: string) returns (detected: seq<string>)
    ensures detected == AnalyticsScan(AnalyticsPatterns, body)
  {
    detected := [];
    for i := 0 to |AnalyticsPatterns|
      invariant detected == AnalyticsScan(AnalyticsPatterns[..i], body)
    {
      var (tool, pattern) := AnalyticsPatterns[i];
      if Contains(body, pattern) {
        detected := detected + [tool];
      }
      assert AnalyticsPatterns[..i + 1][..i] == AnalyticsPatterns[..i];
    }
    assert AnalyticsPatterns[..|AnalyticsPatterns|] == AnalyticsPatterns;
  }

  lemma {:induction false} AnalyticsScanMembers(patterns: seq<(string, string)>, body: string, l: string)
    ensures l in AnalyticsScan(patterns, body) <==>
            exists i :: 0 <= i < |patterns| && patterns[i].0 == l && Contains(body, patterns[i].1)
    decreases |patterns|
  {
    if patterns != [] {
      var n := |patterns| - 1;
      AnalyticsScanMembers(patterns[..n], body, l);
      if exists i :: 0 <= i < |patterns| && patterns[i].0 == l && Contains(body, patterns[i].1) {
        var i :| 0 <= i < |patterns| && patterns[i].0 == l && Contains(body, patterns[i].1);
        if i < n {
          assert patterns[..n][i] == patterns[i];
        }
      }
    }
  }
}
