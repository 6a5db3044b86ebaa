# Web technology detector: the fingerprinting engine

This project models `WebTechDetector.detect(url)` in Dafny and proves properties of the model. For an
already-fetched page, `detect` reports the names of the technologies and features the page shows, with
duplicates removed.

- The registry (`Registry.Technologies`) holds sixteen technologies. Each lists indicator substrings per
  evidence channel: the body, the `meta name="generator"` content, script sources, stylesheet addresses
  and response headers. Some also list an admin path.
- Five registry scans (`Channels`) append a technology's name each time one channel shows one of its
  indicators. A name can therefore be appended more than once.
- Fourteen probes (`Probes`) follow the scans:
  - server software from `X-Powered-By` and `Server`;
  - an admin-path probe per technology that has an admin path;
  - e-commerce keywords;
  - security headers;
  - TLS;
  - CDN headers;
  - mail exchange;
  - social links and metadata;
  - image loading and formats;
  - ARIA attributes;
  - the viewport tag;
  - privacy terms;
  - analytics scripts;
  - web fonts.
- `Aggregator.Detect` runs all of these in source order and removes duplicates (`list(set(...))`).
  - When the fetch fails, the result is the empty list.
  - An `IndexError` from the `X-Powered-By` split is not caught. It ends `detect`, and the model returns
    `Raised(IndexError)`.

Each loop of the source is a method with a `while`/`for` loop and invariants, proved equal to a
prefix-recursive specification function (`Names`, `ElementScan`, `HeaderScan`, `AdminScan`,
`PlatformScan`, `FormatHits`, `ImageScan`, `PrivacyScan`, `AnalyticsScan`). Lemmas then state what each
specification means: when a label is present, how often it occurs, and how the channels combine.
`Detect` is proved to return a result satisfying `IsDetectionOf`:

- a failed fetch gives `Detected([])`;
- an uncaught `IndexError` gives `Raised(IndexError)`;
- otherwise the result is a list without duplicates holding exactly the labels the scans and probes
  collected.

`DetectionsAgree` shows that this determines the result up to order.

Files:
- `wrappers.dfy`: `Option` and `Result`.
- `lists.dfy`: lists without duplicates.
- `text.dfy`: the string operations the program uses (`lower`, `upper`, `capitalize`, `in`, `endswith`,
  `rstrip`, `split`, and `re.search` for patterns whose only metacharacter is `.`).
- `registry.dfy`: the registry.
- `page.dfy`: the response, its elements and the BeautifulSoup lookups the program uses.
- `channels.dfy`: the five registry scans.
- `probes.dfy`: the fourteen probes.
- `aggregator.dfy`: `detect`.

Where the code and its description differ, the model follows the code:
- The header scan appends a technology for each matching header pair. It does not require every pair
  to match. No registry entry has more than one pair.
- The accessibility probe looks only at `aria-label` and `role`, not at every `aria-*` attribute.
- A PHP `X-Powered-By` value without `/` raises `IndexError`, and nothing catches it: `detect` raises.
  It does not fall back to reporting no version.
- The failure label of the TLS probe is appended even after the version label. This happens when
  reading the issuer (the value of the issuer's second name component) fails after the version was
  appended.

## Model

| member | source | states |
|---|---|---|
| Registry.RegistryPopulated | webdetechtor.py:18-78 | every registry entry carries at least one non-empty indicator |
| Registry.RegistryDistinct | webdetechtor.py:18-78 | no two registry entries share a name (they are dictionary keys) |
| Channels.MatchRegistry | webdetechtor.py:89-92 | the loop over the registry appends exactly the names `Names` lists for one scanned value |
| Channels.MatchBody | webdetechtor.py:87-92 | the body scan runs on the lower-cased body and yields `Names(Html, reg, Lower(body))` |
| Channels.NamesMembers | webdetechtor.py:89-92 | a name is appended by a registry pass if and only if some entry with that name has an indicator matching the value |
| Channels.NamesCount | webdetechtor.py:89-92 | in a registry with distinct names, one pass appends each name exactly once when its entry hits and never otherwise |
| Channels.MatchElements | webdetechtor.py:94-120 | the generator, script and stylesheet scans visit every selected element and, for each, every registry entry, yielding `ElementScan` |
| Channels.FiresOnStep | webdetechtor.py:94-120 | an entry fires on a list of elements if and only if it fires on its prefix or the last element is selected and matches |
| Channels.ElementScanMembers | webdetechtor.py:94-120 | a name is appended by an element scan if and only if some entry with that name matches some selected element |
| Channels.ElementScanCount | webdetechtor.py:94-120 | an element scan appends a name once per selected element its entry matches |
| Channels.HitCountPositive | webdetechtor.py:94-120 | one selected matching element makes the match count at least one |
| Channels.MatchHeaders | webdetechtor.py:122-127 | the header scan appends a name for each of the entry's header pairs whose header is present and contains the value, case-insensitively |
| Channels.PairHitsMembers | webdetechtor.py:124-127 | a name is appended for one entry if and only if one of its header pairs holds |
| Channels.HeaderScanMembers | webdetechtor.py:122-127 | a name is appended by the header scan if and only if some entry with that name has a header pair that holds |
| Channels.ChannelLabelsMembers | webdetechtor.py:87-127 | the channels are alternatives: a name is among the registry scans' labels if and only if its entry has evidence on at least one channel |
| Channels.HeaderEntries | webdetechtor.py:63-71 | only AWS, Azure and Cloudflare carry header pairs, each a single `Server` pair |
| Channels.AwsPairFails | webdetechtor.py:63-65 | `Server: Cloudflare-Edge` does not contain `amazons3` |
| Channels.AzurePairFails | webdetechtor.py:66-68 | `Server: Cloudflare-Edge` does not contain `microsoft-iis` |
| Channels.CloudflarePairHolds | webdetechtor.py:69-71 | `Server: Cloudflare-Edge` contains `cloudflare` in any letter case |
| Channels.EdgePairs | webdetechtor.py:63-71 | of the three `Server` pairs, only Cloudflare's holds for `Cloudflare-Edge` |
| Channels.CloudflareEdgeHeader | webdetechtor.py:122-127 | a `Server: Cloudflare-Edge` response is reported as Cloudflare by the header scan |
| Channels.CloudflareEdgeOnly | webdetechtor.py:122-127 | it is reported as nothing else by the header scan |
| Channels.NginxServerHeader | webdetechtor.py:122-127 | a `Server: nginx` response matches no registry header pair |
| Channels.WordPressEntry | webdetechtor.py:19-23 | the first registry entry is WordPress, with its body indicators and generator value |
| Channels.WordPressInBody | webdetechtor.py:87-92 | a body containing `wp-content` makes the body scan report WordPress |
| Page.TabSeparatedStylesheet | webdetechtor.py:114 | a `link` whose `rel` is `preload<tab>stylesheet` is selected as a stylesheet: any ASCII whitespace separates `rel` words |
| Page.LongerWordIsNotStylesheet | webdetechtor.py:114 | a `link` whose `rel` is `stylesheets` is not selected: the word must be exactly `stylesheet` |
| Channels.WordPressAppendedTwice | webdetechtor.py:87-102 | a body containing `wp-content` and a WordPress generator tag append WordPress at least twice before deduplication |
| Text.RStrip | webdetechtor.py:176 | `rstrip('/')` keeps the longest prefix not ending in `/`, and only `/` is removed |
| Text.IndexOf | webdetechtor.py:160 | the first position of a character, or the length when it is absent |
| Text.SplitJoin | webdetechtor.py:160 | re-joining `split` gives back the original string, no part holds the separator, and there are two or more parts exactly when the separator occurs |
| Text.SplitSecond | webdetechtor.py:160 | `split('/')[1]` exists when `/` occurs and is the text between the first and second `/` |
| Text.SplitFirst | webdetechtor.py:242 | `split('.')[0]` is the text before the first `.` |
| Text.LiteralMatchIsSearch | webdetechtor.py:241 | every literal occurrence of a pattern is a regular-expression match |
| Text.DotMatchesAnyCharacter | webdetechtor.py:239-241 | the unescaped `.` in `facebook.com` also matches `facebookXcom`, which does not contain the literal pattern |
| Text.ContainsLower | webdetechtor.py:88-91 | lower-casing both sides keeps a substring a substring |
| Text.MissingCharNotContained | webdetechtor.py:91 | a pattern with a character the text lacks is not contained in it |
| Probes.PoweredBy | webdetechtor.py:158-162 | a PHP value without `/` raises IndexError; a PHP value gives `PHP <second segment>`; otherwise an ASP.NET value gives `ASP.NET`, and any other value nothing |
| Probes.ServerSoftware | webdetechtor.py:164-168 | `Nginx` if and only if the lower-cased `Server` value contains `nginx`; `Apache` if it contains `apache` and not `nginx`; at most one label |
| Probes.ServerSideTech | webdetechtor.py:154-170 | fails exactly on a PHP value without `/`; otherwise gives the PHP, ASP.NET, Nginx and Apache labels under those conditions and no others (a PHP label only when the value contains `PHP`), at most two |
| Probes.NginxOnly | webdetechtor.py:154-170 | `Server: nginx` without `X-Powered-By` gives exactly `["Nginx"]` |
| Probes.PhpLabelDistinct | webdetechtor.py:160-168 | a PHP label differs from the three fixed server labels |
| Probes.AdminUrl | webdetechtor.py:176 | the admin address ends with the admin path; what precedes it is the address with its trailing slashes removed |
| Probes.DetectCmsSpecific | webdetechtor.py:172-183 | the admin probe visits every registry entry with an admin path and yields `AdminScan` |
| Probes.AdminScanMembers | webdetechtor.py:172-183 | `<name> (Admin page found)` is reported if and only if that entry has an admin path whose address answered 200; a request that raised counts as not found |
| Probes.Ecommerce | webdetechtor.py:185-191 | `E-commerce functionality` if and only if the lower-cased body contains `checkout` or `cart`; `Shopify` if and only if the body contains `Shopify.shop` (case-sensitive); nothing else, no repeats |
| Probes.SecurityFeatures | webdetechtor.py:193-202 | each of the three labels if and only if its header is present; nothing else, no repeats |
| Probes.TlsLabels | webdetechtor.py:204-216 | an unreachable host gives only the failure label; a session gives the version label, followed by the issuer or, when reading the issuer raised, the failure label |
| Probes.DetectCdn | webdetechtor.py:218-225 | `CDN Detected` at most once, and exactly when one of the three CDN headers is present |
| Probes.DetectSocialMedia | webdetechtor.py:237-245 | the social loop yields `SocialScan`: the platform labels in table order, then the metadata label |
| Probes.PlatformScanMembers | webdetechtor.py:240-242 | a platform label is reported if and only if some link address matches that platform's pattern |
| Probes.SocialLabelOfStem | webdetechtor.py:242 | the label of a pattern whose text before its first `.` is `stem` is the capitalised stem followed by ` integration` |
| Probes.SocialTable | webdetechtor.py:239-242 | the four platforms and their labels, in source order |
| Probes.FacebookStem | webdetechtor.py:239-242 | `facebook.com` splits to `facebook`, capitalised `Facebook` |
| Probes.TwitterStem | webdetechtor.py:239-242 | `twitter.com` splits to `twitter`, capitalised `Twitter` |
| Probes.InstagramStem | webdetechtor.py:239-242 | `instagram.com` splits to `instagram`, capitalised `Instagram` |
| Probes.LinkedinStem | webdetechtor.py:239-242 | `linkedin.com` splits to `linkedin`, capitalised `Linkedin` |
| Probes.SocialTitle | webdetechtor.py:242 | each tabled label equals `pattern.split('.')[0].capitalize() + " integration"` |
| Probes.SocialScanMembers | webdetechtor.py:237-245 | a social label is reported if and only if its platform is linked, or it is the metadata label and an `og:title` or `twitter:card` meta tag is present |
| Probes.SocialTitlesDistinct | webdetechtor.py:239-244 | the platform labels are pairwise distinct and differ from the metadata label |
| Probes.SocialPlatformReported | webdetechtor.py:240-242 | each platform's label is reported if and only if some link matches its pattern |
| Probes.MatchFormats | webdetechtor.py:253-255 | the inner loop yields, in format order, the labels of the formats the lower-cased image address ends in |
| Probes.DetectImageTech | webdetechtor.py:247-256 | the image probe yields the lazy-loading label when some image loads lazily, then the format labels of each sourced image in document order |
| Probes.LazyNotAFormat | webdetechtor.py:251-255 | the format labels never include `Lazy Loading Images` |
| Probes.LazyLoadingReported | webdetechtor.py:249-250 | `Lazy Loading Images` is reported by the image probe if and only if some `img` has `loading="lazy"` |
| Probes.FormatLabels | webdetechtor.py:251-255 | the WEBP and AVIF labels |
| Probes.ImageFormatsDistinct | webdetechtor.py:251-255 | the two format labels differ |
| Probes.FormatHitsCount | webdetechtor.py:253-255 | with distinct labels, one image contributes a format's label once if its address ends in that format, and never otherwise |
| Probes.FormatHitsMembers | webdetechtor.py:253-255 | a label comes from one image if and only if its address ends in that format |
| Probes.ImageScanCount | webdetechtor.py:252-255 | across images, a format's label occurs once per sourced image ending in it |
| Probes.ImageFormatCount | webdetechtor.py:247-256 | in the whole probe's output, a format's label occurs once per sourced image ending in it |
| Probes.Accessibility | webdetechtor.py:258-262 | the ARIA label is reported, at most once, if and only if some element has `aria-label` or `role` |
| Probes.MobileOptimization | webdetechtor.py:264-268 | `Responsive Design`, at most once, if and only if some `meta` element is named `viewport` |
| Probes.Fonts | webdetechtor.py:291-297 | each font label if and only if some `link` address matches its pattern; nothing else, no repeats |
| Probes.DetectPrivacyTools | webdetechtor.py:270-276 | the privacy loop checks each term against the lower-cased document text and yields `PrivacyScan` |
| Probes.PrivacyScanMembers | webdetechtor.py:272-275 | a label is reported if and only if it is the upper-cased label of a term the text contains |
| Probes.GdprLabel | webdetechtor.py:272-275 | the `gdpr` label is `GDPR Compliance Tool` |
| Probes.CcpaLabel | webdetechtor.py:272-275 | the `ccpa` label is `CCPA Compliance Tool` |
| Probes.CookieConsentLabel | webdetechtor.py:272-275 | the `cookie consent` label is `COOKIE CONSENT Compliance Tool` |
| Probes.PrivacyLabels | webdetechtor.py:272-275 | the three labels together |
| Probes.PrivacyPatternReported | webdetechtor.py:273-275 | each term's label is reported if and only if the text contains the term |
| Probes.PrivacyLabelsFound | webdetechtor.py:270-276 | `GDPR`, `CCPA` and `COOKIE CONSENT Compliance Tool` are each reported if and only if the lower-cased text contains `gdpr`, `ccpa` or `cookie consent` |
| Probes.DetectAnalytics | webdetechtor.py:278-289 | the analytics loop yields `AnalyticsScan` over the four tools in order |
| Probes.AnalyticsScanMembers | webdetechtor.py:286-288 | a tool is reported if and only if the body contains its pattern (case-sensitive) |
| Lists.NoDuplicatesCard | webdetechtor.py:146 | a list without repeats has as many elements as its set |
| Lists.SameElementsSameLength | webdetechtor.py:146 | two repeat-free lists with the same elements have the same length |
| Lists.NoDuplicatesOccursOnce | webdetechtor.py:146 | in a repeat-free list, each element occurs exactly once |
| Aggregator.Dedup | webdetechtor.py:146 | `list(set(detected))`: no repeats, the same elements, as many as the set of the input |
| Aggregator.Detect | webdetechtor.py:80-152 | `detect`: a result satisfying `IsDetectionOf`, that is `[]` on a failed fetch, the uncaught IndexError, or the collected labels without repeats |
| Aggregator.DeduplicationsAgree | webdetechtor.py:146 | two deduplications of the same list have the same elements and length, and agree on an exception |
| Aggregator.DetectionsAgree | webdetechtor.py:80-152 | two results of `detect` on the same inputs agree up to order |
| Aggregator.DeduplicatedOnce | webdetechtor.py:146 | each collected label occurs exactly once in the result |
| Aggregator.RequestFailureYieldsNothing | webdetechtor.py:150-152 | a failed fetch gives the empty list |
| Aggregator.PhpWithoutVersionRaises | webdetechtor.py:158-160 | a PHP `X-Powered-By` value without `/` makes `detect` raise IndexError |
| Aggregator.PhpSegment | webdetechtor.py:160 | for `PHP/<v>` with no `/` in `v`, `split('/')[1]` is `v` |
| Aggregator.PhpVersionReported | webdetechtor.py:130-160 | `X-Powered-By: PHP/<v>` puts `PHP <v>` in the result |
| Aggregator.TlsLabelsAreTls | webdetechtor.py:212-215 | every label of the TLS probe starts `SSL/TLS: ` or `Certificate Issuer: ` |
| Aggregator.LaterLabelsTls | webdetechtor.py:130-143 | only TLS labels depend on the TLS outcome among the probe labels |
| Aggregator.CollectedTls | webdetechtor.py:85-143 | only TLS labels depend on the TLS outcome among the collected labels, and whether collection raises does not |
| Aggregator.TlsIsolated | webdetechtor.py:80-148 | two detections that differ only in the TLS outcome agree on every label that is not a TLS label |
| Aggregator.TlsUnreachableReported | webdetechtor.py:134-215 | an unreachable TLS endpoint puts `SSL/TLS: Unable to analyze` in any result that does not raise |
| Aggregator.CollectedMembers | webdetechtor.py:85-143 | when the server probe does not raise, the collected labels are those of the registry scans, the server probe and the later probes |
| Aggregator.RegistryNameReported | webdetechtor.py:87-148 | any name a registry scan appends, however often, is in the result exactly once |
| Aggregator.WordPressReported | webdetechtor.py:19-20 | with the source's registry, a body containing `wp-content` puts `WordPress` in the result |
| Aggregator.NginxPageReported | webdetechtor.py:130-140 | with any registry, an nginx page with a frame policy and a viewport tag, and without `X-Powered-By`, is reported with `Nginx`, `Clickjacking Protection` and `Responsive Design` |
| Aggregator.TypicalPage | webdetechtor.py:80-148 | with the source's registry, a body containing `wp-content`, `Server: nginx` without `X-Powered-By`, `X-Frame-Options` and a viewport tag give a result holding `WordPress`, `Nginx`, `Clickjacking Protection` and `Responsive Design` |

## Left out

- The HTTP requests, with their user agent and timeouts, are not modelled. `detect`'s request is a
  `FetchOutcome` input: either it failed (the `RequestException`) or it produced a `Response`.
- Each admin-path request is a lookup in a status map, by address. An address outside the map stands
  for a request that raised; the bare `except` ignores it.
- The TLS handshake and certificate lookup are not modelled. Their outcome is an input
  (`TlsUnreachable`, or the negotiated version and either an issuer or `None` when reading it raised).
  `urlparse(url).netloc` is not modelled.
- The MX lookup is not modelled. Its outcome is an input: the first exchanger, or `None` when the lookup
  raised.
- HTML parsing by BeautifulSoup is not modelled. The page is given as its elements in document order,
  each a tag with an attribute map, and `soup.text` is given as a string.
- Page.IsStylesheet: splits `rel` into words at ASCII whitespace only. The parser also splits at
  non-ASCII Unicode whitespace.
- Header names are stored lower-cased. This models the case-insensitive header dictionary of the HTTP
  client.
- `lower`, `upper` and `capitalize` map only ASCII letters. Python's Unicode case mapping is not
  modelled.
- `re.compile(pattern)` is modelled for patterns whose only metacharacter is `.`, matching any single
  character. These are the only patterns the program uses.
- Aggregator.Dedup: keeps first occurrences in order. The order `list(set(...))` gives is unspecified,
  so `Detect`'s contract states the set of labels and the absence of repeats, not an order.
- The status code of the main response is not used by the program. It is kept in `Response` only.
- Printing the error message on a failed fetch is not modelled.
- The interactive command line (`main`) is not modelled, including the `https://` prefixing and the
  colour output.
- Unused imports (`json`, `cssutils`, `jsbeautifier`) are not modelled.
- Probes.MailLabels has no contract of its own. It is a two-case match on the lookup outcome.
