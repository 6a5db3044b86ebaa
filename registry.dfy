/** The signature registry built by `WebTechDetector.__init__`: one entry
    per technology, in the dictionary's insertion order, with an optional
    indicator list per evidence channel. */
module Registry {
  import opened Wrappers

  /** One technology and its indicators: `html` substrings of the body,
      the expected `meta name="generator"` content, `js` substrings of
      script sources, `css` substrings of stylesheet addresses, `headers`
      as (header name, expected value substring) pairs, and the
      `admin_path` to probe. */
  datatype Signature = Signature(
    name: string,
    html: Option<seq<string>>,
    generator: Option<string>,
    js: Option<seq<string>>,
    css: Option<seq<string>>,
    headers: Option<seq<(string, string)>>,
    adminPath: Option<string>)

  const Technologies: seq<Signature> := [
    Signature("WordPress", Some(["wp-content", "wp-includes"]), Some("WordPress"), None, None, None, Some("/wp-admin/")),
    Signature("Joomla", Some(["/components/com_", "/modules/mod_"]), Some("Joomla"), None, None, None, Some("/administrator/")),
    Signature("Drupal", Some(["sites/all", "drupal.js"]), Some("Drupal"), None, None, None, Some("/user/login")),
    Signature("Bootstrap", Some(["class=\"container\"", "class=\"row\""]), None, None, Some(["bootstrap.min.css", "bootstrap.css"]), None, None),
    Signature("jQuery", None, None, Some(["jquery.js", "jquery.min.js"]), None, None, None),
    Signature("React", Some(["data-reactroot", "react-app"]), None, Some(["react.js", "react.min.js"]), None, None, None),
    Signature("Angular", Some(["ng-app", "ng-controller"]), None, None, None, None, None),
    Signature("Vue.js", Some(["v-app", "v-bind"]), None, None, None, None, None),
    Signature("Magento", Some(["Mage.Cookies", "magento"]), None, None, None, None, Some("/admin/")),
    Signature("Shopify", Some(["Shopify.shop", "/cdn.shopify.com/"]), None, Some(["shopify.js"]), None, None, None),
    Signature("WooCommerce", Some(["woocommerce", "wc-"]), None, None, Some(["woocommerce.css"]), None, None),
    Signature("AWS", None, None, None, None, Some([("Server", "AmazonS3")]), None),
    Signature("Azure", None, None, None, None, Some([("Server", "Microsoft-IIS")]), None),
    Signature("Cloudflare", None, None, None, None, Some([("Server", "cloudflare")]), None),
    Signature("Tailwind CSS", Some(["class=\"", "lg:", "md:", "sm:"]), None, None, None, None, None),
    Signature("Foundation", Some(["class=\"row\"", "class=\"column\""]), None, None, None, None, None)
  ]

  /** A signature carries at least one non-empty indicator. */
  predicate Populated(sig: Signature) {
    || (sig.html.Some? && sig.html.value != [])
    || (sig.generator.Some? && sig.generator.value != "")
    || (sig.js.Some? && sig.js.value != [])
    || (sig.css.Some? && sig.css.value != [])
    || (sig.headers.Some? && sig.headers.value != [])
    || (sig.adminPath.Some? && sig.adminPath.value != "")
  }

  /** No two signatures share a name (the registry is a dictionary). */
  predicate DistinctNames(reg: seq<Signature>) {
    forall i, j :: 0 <= i < j < |reg| ==> reg[i].name != reg[j].name
  }

  /** Every registry entry carries at least one indicator. */
  lemma RegistryPopulated()
    ensures forall i :: 0 <= i < |Technologies| ==> Populated(Technologies[i])
  {
  }

  /** Registry names are keys: no two entries share one. */
  lemma RegistryDistinct()
    ensures DistinctNames(Technologies)
  {
  }
}
