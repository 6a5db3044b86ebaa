/** The five registry scans at the top of `detect`: body substrings,
    `<meta name="generator">` content, `<script src>` addresses,
    stylesheet `href`s and response headers. Each scan appends a
    technology's name for every hit, so a name may occur several times. */
module Channels {
  import opened Wrappers
  import opened Text
  import opened Registry
  import opened Page

  /** The indicator channels a registry entry can be matched on by
      substring; headers are matched by (name, value) pairs instead. */
  datatype Channel = Html | Generator | Js | Css

  /** `any(ind.lower() in v for ind in inds)` */
  predicate AnyIndicatorIn(inds: seq<string>, v: string) {
    exists j :: 0 <= j < |inds| && Contains(v, Lower(inds[j]))
  }

  /** Whether `sig` fires on channel `ch` for the lower-cased value `v`. */
  predicate Hit(ch: Channel, sig: Signature, v: string) {
    match ch
    case Html => sig.html.Some? && AnyIndicatorIn(sig.html.value, v)
    case Generator => sig.generator.Some? && Contains(v, Lower(sig.generator.value))
    case Js => sig.js.Some? && AnyIndicatorIn(sig.js.value, v)
    case Css => sig.css.Some? && AnyIndicatorIn(sig.css.value, v)
  }

  /** What `for tech, indicators in registry: if hit: detected.append(tech)`
      appends, in registry order. */
  function Names(ch: Channel, reg: seq<Signature>, v: string): seq<string>
    decreases |reg|
  {
    if reg == [] then []
    else
      var last := reg[|reg| - 1];
      Names(ch, reg[..|reg| - 1], v) + (if Hit(ch, last, v) then [last.name] else [])
  }

  /** One pass over the registry against the lower-cased value `v`. */
  method MatchRegistry(ch: Channel, reg: seq<Signature>, v: string) returns (detected: seq<string>)
    ensures detected == Names(ch, reg, v)
  {
    detected := [];
    for i := 0 to |reg|
      invariant detected == Names(ch, reg[..i], v)
    {
      if Hit(ch, reg[i], v) {
        detected := detected + [reg[i].name];
      }
      assert reg[..i + 1][..i] == reg[..i];
    }
    assert reg[..|reg|] == reg;
  }

  /** Body channel: one pass over the registry against the lower-cased body. */
  method MatchBody(reg: seq<Signature>, body: string) returns (detected: seq<string>)
    ensures detected == Names(Html, reg, Lower(body))
  {
    var content := Lower(body);
    detected := MatchRegistry(Html, reg, content);
  }

  /** A registry name is reported for `v` exactly when some entry with that
      name fires on `v`. */
  lemma {:induction false} NamesMembers(ch: Channel, reg: seq<Signature>, v: string, name: string)
    ensures name in Names(ch, reg, v) <==>
            exists i :: 0 <= i < |reg| && reg[i].name == name && Hit(ch, reg[i], v)
    decreases |reg|
  {
    if reg != [] {
      var init := reg[..|reg| - 1];
      NamesMembers(ch, init, v, name);
      if name in Names(ch, reg, v) && name !in Names(ch, init, v) {
        assert reg[|reg| - 1].name == name && Hit(ch, reg[|reg| - 1], v);
      }
      if exists i :: 0 <= i < |reg| && reg[i].name == name && Hit(ch, reg[i], v) {
        var i :| 0 <= i < |reg| && reg[i].name == name && Hit(ch, reg[i], v);
        if i < |reg| - 1 {
          assert init[i] == reg[i];
        }
      }
    }
  }

  /** With distinct names, one pass reports an entry's name once if it
      fires and not at all otherwise. */
  lemma {:induction false} NamesCount(ch: Channel, reg: seq<Signature>, v: string, i: nat)
    requires DistinctNames(reg) && i < |reg|
    ensures multiset(Names(ch, reg, v))[reg[i].name] == if Hit(ch, reg[i], v) then 1 else 0
    decreases |reg|
  {
    var n := |reg| - 1;
    var init := reg[..n];
    assert DistinctNames(init) by {
      forall a, b | 0 <= a < b < |init| ensures init[a].name != init[b].name {
        assert init[a] == reg[a] && init[b] == reg[b];
      }
    }
    var tail: seq<string> := if Hit(ch, reg[n], v) then [reg[n].name] else [];
    assert Names(ch, reg, v) == Names(ch, init, v) + tail;
    if i == n {
      NamesMembers(ch, init, v, reg[i].name);
      assert reg[i].name !in Names(ch, init, v) by {
        forall a | 0 <= a < |init| ensures init[a].name != reg[i].name {
          assert init[a] == reg[a];
        }
      }
    } else {
      NamesCount(ch, init, v, i);
      assert init[i] == reg[i];
      assert reg[n].name != reg[i].name;
    }
  }

  // ---------------------------------------------------------------------------
  // Element channels: meta generator, script src, stylesheet href
  // ---------------------------------------------------------------------------

  /** The elements a channel looks at: `find_all("meta")` filtered on
      `name == "generator"`, `find_all("script", src=True)` and
      `find_all("link", rel="stylesheet")`. */
  predicate Selected(ch: Channel, e: Element)
    requires ch != Html
  {
    match ch
    case Generator => IsGeneratorMeta(e)
    case Js => IsSourcedScript(e)
    case Css => IsStylesheet(e)
  }

  /** The lower-cased attribute a channel matches: `content` and `href`
      default to the empty string; `src` is present on a selected script. */
  function Value(ch: Channel, e: Element): string
    requires ch != Html
  {
    match ch
    case Generator => Lower(Attr(e, "content", ""))
    case Js => Lower(Attr(e, "src", ""))
    case Css => Lower(Attr(e, "href", ""))
  }

  /** What the nested element/registry loops of one channel append. */
  function ElementScan(ch: Channel, elems: seq<Element>, reg: seq<Signature>): seq<string>
    requires ch != Html
    decreases |elems|
  {
    if elems == [] then []
    else
      var e := elems[|elems| - 1];
      ElementScan(ch, elems[..|elems| - 1], reg) + (if Selected(ch, e) then Names(ch, reg, Value(ch, e)) else [])
  }

  /** For every selected element, one pass over the registry against its
      lower-cased attribute. */
  method MatchElements(ch: Channel, elems: seq<Element>, reg: seq<Signature>) returns (detected: seq<string>)
    requires ch != Html
    ensures detected == ElementScan(ch, elems, reg)
  {
    detected := [];
    for k := 0 to |elems|
      invariant detected == ElementScan(ch, elems[..k], reg)
    {
      var e := elems[k];
      assert elems[..k + 1][..k] == elems[..k];
      if Selected(ch, e) {
        var found := MatchRegistry(ch, reg, Value(ch, e));
        detected := detected + found;
      }
    }
    assert elems[..|elems|] == elems;
  }

  /** Some selected element's attribute makes `sig` fire on channel `ch`. */
  predicate FiresOn(ch: Channel, elems: seq<Element>, sig: Signature)
    requires ch != Html
  {
    exists k :: 0 <= k < |elems| && Selected(ch, elems[k]) && Hit(ch, sig, Value(ch, elems[k]))
  }

  lemma FiresOnStep(ch: Channel, elems: seq<Element>, sig: Signature)
    requires ch != Html && elems != []
    ensures FiresOn(ch, elems, sig) <==>
            FiresOn(ch, elems[..|elems| - 1], sig)
            || (Selected(ch, elems[|elems| - 1]) && Hit(ch, sig, Value(ch, elems[|elems| - 1])))
  {
    var init := elems[..|elems| - 1];
    if FiresOn(ch, elems, sig) {
      var k :| 0 <= k < |elems| && Selected(ch, elems[k]) && Hit(ch, sig, Value(ch, elems[k]));
      if k < |init| {
        assert init[k] == elems[k];
      }
    }
    if FiresOn(ch, init, sig) {
      var k :| 0 <= k < |init| && Selected(ch, init[k]) && Hit(ch, sig, Value(ch, init[k]));
      assert init[k] == elems[k];
    }
  }

  /** A name is reported on an element channel exactly when some registry
      entry of that name fires on some selected element. */
  lemma {:induction false} ElementScanMembers(ch: Channel, elems: seq<Element>, reg: seq<Signature>, name: string)
    requires ch != Html
    ensures name in ElementScan(ch, elems, reg) <==>
            exists i :: 0 <= i < |reg| && reg[i].name == name && FiresOn(ch, elems, reg[i])
    decreases |elems|
  {
    if elems != [] {
      var n := |elems| - 1;
      var init := elems[..n];
      var e := elems[n];
      ElementScanMembers(ch, init, reg, name);
      NamesMembers(ch, reg, Value(ch, e), name);
      if name in ElementScan(ch, elems, reg) {
        if name in ElementScan(ch, init, reg) {
          var i :| 0 <= i < |reg| && reg[i].name == name && FiresOn(ch, init, reg[i]);
          FiresOnStep(ch, elems, reg[i]);
        } else {
          var i :| 0 <= i < |reg| && reg[i].name == name && Hit(ch, reg[i], Value(ch, e));
          FiresOnStep(ch, elems, reg[i]);
        }
      }
      if exists i :: 0 <= i < |reg| && reg[i].name == name && FiresOn(ch, elems, reg[i]) {
        var i :| 0 <= i < |reg| && reg[i].name == name && FiresOn(ch, elems, reg[i]);
        FiresOnStep(ch, elems, reg[i]);
      }
    }
  }

  /** The number of selected elements whose attribute makes `sig` fire. */
  function HitCount(ch: Channel, elems: seq<Element>, sig: Signature): nat
    requires ch != Html
    decreases |elems|
  {
    if elems == [] then 0
    else
      var e := elems[|elems| - 1];
      HitCount(ch, elems[..|elems| - 1], sig) + (if Selected(ch, e) && Hit(ch, sig, Value(ch, e)) then 1 else 0)
  }

  /** With distinct registry names, an entry's name is appended once per
      selected element that makes it fire. */
  lemma {:induction false} ElementScanCount(ch: Channel, elems: seq<Element>, reg: seq<Signature>, i: nat)
    requires ch != Html && DistinctNames(reg) && i < |reg|
    ensures multiset(ElementScan(ch, elems, reg))[reg[i].name] == HitCount(ch, elems, reg[i])
    decreases |elems|
  {
    if elems != [] {
      var n := |elems| - 1;
      var e := elems[n];
      ElementScanCount(ch, elems[..n], reg, i);
      if Selected(ch, e) {
        NamesCount(ch, reg, Value(ch, e), i);
      }
    }
  }

  /** A selected element that makes `sig` fire is counted. */
  lemma {:induction false} HitCountPositive(ch: Channel, elems: seq<Element>, sig: Signature, k: nat)
    requires ch != Html && k < |elems| && Selected(ch, elems[k]) && Hit(ch, sig, Value(ch, elems[k]))
    ensures HitCount(ch, elems, sig) >= 1
    decreases |elems|
  {
    var n := |elems| - 1;
    if k < n {
      assert elems[..n][k] == elems[k];
      HitCountPositive(ch, elems[..n], sig, k);
    }
  }

  // ---------------------------------------------------------------------------
  // Header channel
  // ---------------------------------------------------------------------------

  /** `header in response.headers and value.lower() in response.headers[header].lower()` */
  predicate PairHolds(headers: map<string, string>, pair: (string, string)) {
    HasHeader(headers, pair.0) && Contains(Lower(headers[Lower(pair.0)]), Lower(pair.1))
  }

  /** One `name` per satisfied pair, in pair order. */
  function PairHits(name: string, pairs: seq<(string, string)>, headers: map<string, string>): seq<string>
    decreases |pairs|
  {
    if pairs == [] then []
    else
      PairHits(name, pairs[..|pairs| - 1], headers)
        + (if PairHolds(headers, pairs[|pairs| - 1]) then [name] else [])
  }

  function HeaderScan(reg: seq<Signature>, headers: map<string, string>): seq<string>
    decreases |reg|
  {
    if reg == [] then []
    else
      var last := reg[|reg| - 1];
      HeaderScan(reg[..|reg| - 1], headers)
        + (if last.headers.Some? then PairHits(last.name, last.headers.value, headers) else [])
  }

  /** For every entry with header expectations, one append per satisfied pair. */
  method MatchHeaders(reg: seq<Signature>, headers: map<string, string>) returns (detected: seq<string>)
    ensures detected == HeaderScan(reg, headers)
  {
    detected := [];
    for i := 0 to |reg|
      invariant detected == HeaderScan(reg[..i], headers)
    {
      var sig := reg[i];
      assert reg[..i + 1][..i] == reg[..i];
      if sig.headers.Some? {
        var pairs := sig.headers.value;
        for j := 0 to |pairs|
          invariant detected == HeaderScan(reg[..i], headers) + PairHits(sig.name, pairs[..j], headers)
        {
          if PairHolds(headers, pairs[j]) {
            detected := detected + [sig.name];
          }
          assert pairs[..j + 1][..j] == pairs[..j];
        }
        assert pairs[..|pairs|] == pairs;
      }
    }
    assert reg[..|reg|] == reg;
  }

  lemma {:induction false} PairHitsMembers(name: string, pairs: seq<(string, string)>, headers: map<string, string>, l: string)
    ensures l in PairHits(name, pairs, headers) <==>
            l == name && exists j :: 0 <= j < |pairs| && PairHolds(headers, pairs[j])
    decreases |pairs|
  {
    if pairs != [] {
      var n := |pairs| - 1;
      PairHitsMembers(name, pairs[..n], headers, l);
      if exists j :: 0 <= j < |pairs| && PairHolds(headers, pairs[j]) {
        var j :| 0 <= j < |pairs| && PairHolds(headers, pairs[j]);
        if j < n {
          assert pairs[..n][j] == pairs[j];
        }
      }
    }
  }

  /** A name is reported on the header channel exactly when one of its
      entry's (header, value) pairs is satisfied. */
  lemma {:induction false} HeaderScanMembers(reg: seq<Signature>, headers: map<string, string>, name: string)
    ensures name in HeaderScan(reg, headers) <==>
            exists i, j :: 0 <= i < |reg| && reg[i].name == name && reg[i].headers.Some?
              && 0 <= j < |reg[i].headers.value| && PairHolds(headers, reg[i].headers.value[j])
    decreases |reg|
  {
    if reg != [] {
      var n := |reg| - 1;
      var init := reg[..n];
      var last := reg[n];
      HeaderScanMembers(init, headers, name);
      if last.headers.Some? {
        PairHitsMembers(last.name, last.headers.value, headers, name);
      }
      if exists i, j :: 0 <= i < |reg| && reg[i].name == name && reg[i].headers.Some?
           && 0 <= j < |reg[i].headers.value| && PairHolds(headers, reg[i].headers.value[j]) {
        var i, j :| 0 <= i < |reg| && reg[i].name == name && reg[i].headers.Some?
           && 0 <= j < |reg[i].headers.value| && PairHolds(headers, reg[i].headers.value[j]);
        if i < n {
          assert init[i] == reg[i];
        }
      }
    }
  }

  // ---------------------------------------------------------------------------
  // All five channels together
  // ---------------------------------------------------------------------------

  /** Everything the five scans of registry `reg` append for one response,
      in `detect`'s order. */
  function ChannelLabels(reg: seq<Signature>, resp: Response): seq<string> {
    Names(Html, reg, Lower(resp.body))
      + ElementScan(Generator, resp.elements, reg)
      + ElementScan(Js, resp.elements, reg)
      + ElementScan(Css, resp.elements, reg)
      + HeaderScan(reg, resp.headers)
  }

  /** Evidence for `sig` on at least one channel of `resp`. */
  predicate Evidence(resp: Response, sig: Signature) {
    || Hit(Html, sig, Lower(resp.body))
    || FiresOn(Generator, resp.elements, sig)
    || FiresOn(Js, resp.elements, sig)
    || FiresOn(Css, resp.elements, sig)
    || (sig.headers.Some? && exists j :: 0 <= j < |sig.headers.value| && PairHolds(resp.headers, sig.headers.value[j]))
  }

  /** Channels are alternatives: a technology is reported when any one
      channel shows evidence for it, and only then. */
  lemma ChannelLabelsMembers(reg: seq<Signature>, resp: Response, name: string)
    ensures name in ChannelLabels(reg, resp) <==>
            exists i :: 0 <= i < |reg| && reg[i].name == name && Evidence(resp, reg[i])
  {
    NamesMembers(Html, reg, Lower(resp.body), name);
    ElementScanMembers(Generator, resp.elements, reg, name);
    ElementScanMembers(Js, resp.elements, reg, name);
    ElementScanMembers(Css, resp.elements, reg, name);
    HeaderScanMembers(reg, resp.headers, name);
  }

  /** Only AWS, Azure and Cloudflare carry header expectations, one pair
      each, all on `Server`. */
  lemma HeaderEntries()
    ensures forall i :: 0 <= i < |Technologies| ==> (Technologies[i].headers.Some? <==> 11 <= i <= 13)
    ensures Technologies[11].headers == Some([("Server", "AmazonS3")])
    ensures Technologies[12].headers == Some([("Server", "Microsoft-IIS")])
    ensures Technologies[13].headers == Some([("Server", "cloudflare")])
    ensures Technologies[13].name == "Cloudflare"
  {
  }

  // The three `Server` expectations against `Cloudflare-Edge`.

  lemma AwsPairFails()
    ensures !PairHolds(map["server" := "Cloudflare-Edge"], ("Server", "AmazonS3"))
  {
    assert Lower("Server") == "server";
    assert Lower("Cloudflare-Edge") == "cloudflare-edge";
    assert Lower("AmazonS3") == "amazons3";
    MissingCharNotContained("cloudflare-edge", "amazons3", 3);
  }

  lemma AzurePairFails()
    ensures !PairHolds(map["server" := "Cloudflare-Edge"], ("Server", "Microsoft-IIS"))
  {
    assert Lower("Server") == "server";
    assert Lower("Cloudflare-Edge") == "cloudflare-edge";
    assert Lower("Microsoft-IIS") == "microsoft-iis";
    MissingCharNotContained("cloudflare-edge", "microsoft-iis", 0);
  }

  lemma CloudflarePairHolds()
    ensures PairHolds(map["server" := "Cloudflare-Edge"], ("Server", "cloudflare"))
  {
    assert Lower("Server") == "server";
    assert Lower("Cloudflare-Edge") == "cloudflare-edge";
    assert Lower("cloudflare") == "cloudflare";
    assert "cloudflare" <= "cloudflare-edge"[0..];
  }

  lemma EdgePairs()
    ensures !PairHolds(map["server" := "Cloudflare-Edge"], ("Server", "AmazonS3"))
    ensures !PairHolds(map["server" := "Cloudflare-Edge"], ("Server", "Microsoft-IIS"))
    ensures PairHolds(map["server" := "Cloudflare-Edge"], ("Server", "cloudflare"))
  {
    AwsPairFails();
    AzurePairFails();
    CloudflarePairHolds();
  }

  /** `Server: Cloudflare-Edge` is evidence for Cloudflare. */
  lemma CloudflareEdgeHeader()
    ensures "Cloudflare" in HeaderScan(Technologies, map["server" := "Cloudflare-Edge"])
  {
    var edge := map["server" := "Cloudflare-Edge"];
    HeaderEntries();
    EdgePairs();
    HeaderScanMembers(Technologies, edge, "Cloudflare");
    assert PairHolds(edge, Technologies[13].headers.value[0]);
  }

  /** `Server: Cloudflare-Edge` is evidence for no entry but Cloudflare. */
  lemma CloudflareEdgeOnly(name: string)
    requires name in HeaderScan(Technologies, map["server" := "Cloudflare-Edge"])
    ensures name == "Cloudflare"
  {
    var edge := map["server" := "Cloudflare-Edge"];
    HeaderEntries();
    EdgePairs();
    HeaderScanMembers(Technologies, edge, name);
    var i, j :| 0 <= i < |Technologies| && Technologies[i].name == name && Technologies[i].headers.Some?
      && 0 <= j < |Technologies[i].headers.value| && PairHolds(edge, Technologies[i].headers.value[j]);
    if i == 11 {
      assert false;
    } else if i == 12 {
      assert false;
    }
  }

  /** `Server: nginx` is evidence for no registry entry. */
  lemma NginxServerHeader()
    ensures HeaderScan(Technologies, map["server" := "nginx"]) == []
  {
    var plain := map["server" := "nginx"];
    HeaderEntries();
    assert !PairHolds(plain, ("Server", "AmazonS3"));
    assert !PairHolds(plain, ("Server", "Microsoft-IIS"));
    assert !PairHolds(plain, ("Server", "cloudflare"));
    var found := HeaderScan(Technologies, plain);
    if |found| > 0 {
      HeaderScanMembers(Technologies, plain, found[0]);
      assert false;
    }
  }

  /** WordPress's registry entry, on the body and the generator channels. */
  lemma WordPressEntry()
    ensures Technologies[0].name == "WordPress"
    ensures Technologies[0].html == Some(["wp-content", "wp-includes"])
    ensures Technologies[0].generator == Some("WordPress")
    ensures Lower("wp-content") == "wp-content" && Lower("WordPress") == "wordpress"
  {
  }

  /** A body mentioning `wp-content` and a generator tag naming WordPress
      make the scans append `WordPress` twice. */
  /** A body containing `wp-content` makes the body scan report WordPress. */
  lemma WordPressInBody(body: string)
    requires Contains(Lower(body), "wp-content")
    ensures "WordPress" in Names(Html, Technologies, Lower(body))
  {
    WordPressEntry();
    assert Contains(Lower(body), Lower(Technologies[0].html.value[0]));
    assert AnyIndicatorIn(Technologies[0].html.value, Lower(body));
    assert Hit(Html, Technologies[0], Lower(body));
    NamesMembers(Html, Technologies, Lower(body), "WordPress");
  }

  lemma WordPressAppendedTwice(resp: Response, k: nat)
    requires Contains(Lower(resp.body), "wp-content")
    requires k < |resp.elements| && IsGeneratorMeta(resp.elements[k])
    requires Contains(Value(Generator, resp.elements[k]), "wordpress")
    ensures multiset(ChannelLabels(Technologies, resp))["WordPress"] >= 2
  {
    WordPressEntry();
    RegistryDistinct();
    assert AnyIndicatorIn(Technologies[0].html.value, Lower(resp.body)) by {
      assert Technologies[0].html.value[0] == "wp-content";
    }
    NamesCount(Html, Technologies, Lower(resp.body), 0);
    HitCountPositive(Generator, resp.elements, Technologies[0], k);
    ElementScanCount(Generator, resp.elements, Technologies, 0);
  }
}
