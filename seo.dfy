/**
 * The SEO meta builder (app/lib/seo.ts): from a page's configuration and the
 * process environment, the ordered list of meta descriptors a route exports —
 * the document title, named meta tags, OpenGraph properties and Twitter cards.
 */
module Seo {
  import opened Wrappers
  import opened Text
  import Env

  /**
   * `SEOConfig`. The optional fields are `None` when `undefined`; an explicit
   * empty string is `Some("")`.
   */
  datatype SeoConfig = SeoConfig(
    title: string,
    description: string,
    url: Option<string>,
    image: Option<string>,
    pageType: Option<string>,
    siteName: Option<string>,
    keywords: Option<string>,
    robots: Option<string>)

  /** The three shapes of `MetaDescriptor` the builder produces. */
  datatype MetaDescriptor =
    | TitleMeta(title: string)
    | NameMeta(name: string, content: string)
    | PropertyMeta(property: string, content: string)

  /** What a descriptor is about: the title, a `name` tag or a `property` tag. */
  datatype MetaKey = TitleKey | NameKey(name: string) | PropertyKey(property: string)

  function KeyOf(d: MetaDescriptor): MetaKey
  {
    match d
    case TitleMeta(_) => TitleKey
    case NameMeta(n, _) => NameKey(n)
    case PropertyMeta(p, _) => PropertyKey(p)
  }

  function ContentOf(d: MetaDescriptor): string
  {
    match d
    case TitleMeta(t) => t
    case NameMeta(_, c) => c
    case PropertyMeta(_, c) => c
  }

  function KeysOf(meta: seq<MetaDescriptor>): (keys: seq<MetaKey>)
    ensures |keys| == |meta|
    ensures forall i :: 0 <= i < |meta| ==> keys[i] == KeyOf(meta[i])
  {
    seq(|meta|, i requires 0 <= i < |meta| => KeyOf(meta[i]))
  }

  const DefaultImage := "/og-image.png"
  const DefaultType := "website"
  const DefaultSiteName := "VibeDoctor"
  const DefaultRobots := "index, follow"
  const DefaultSiteUrl := "http://localhost:5173"

  /** A destructuring default: applies only when the field is `undefined`. */
  function WithDefault(field: Option<string>, default: string): string
  {
    match field
    case Some(v) => v
    case None => default
  }

  /** `process.env.PUBLIC_URL || "http://localhost:5173"`. */
  function SiteUrl(env: Env.Environment): string
  {
    Env.OrElse(Env.Lookup(env, "PUBLIC_URL"), DefaultSiteUrl)
  }

  /** The absolute image URL: an image that starts with "http" is used as is, any other is appended to the site URL. */
  function ImageUrl(image: string, siteUrl: string): string
  {
    if StartsWith(image, "http") then image else siteUrl + image
  }

  const OpenGraphKeys: seq<MetaKey> := [
    PropertyKey("og:type"), PropertyKey("og:title"), PropertyKey("og:description"),
    PropertyKey("og:site_name"), PropertyKey("og:image"), PropertyKey("og:image:width"),
    PropertyKey("og:image:height"), PropertyKey("og:image:alt")]

  const TwitterKeys: seq<MetaKey> := [
    NameKey("twitter:card"), NameKey("twitter:title"), NameKey("twitter:description"),
    NameKey("twitter:image")]

  /** The order of the descriptors, given whether the keywords and the URL entries are present. */
  function Layout(hasKeywords: bool, hasUrl: bool): seq<MetaKey>
  {
    [TitleKey, NameKey("description"), NameKey("robots")]
    + (if hasKeywords then [NameKey("keywords")] else [])
    + OpenGraphKeys
    + (if hasUrl then [PropertyKey("og:url")] else [])
    + TwitterKeys
  }

  /** What each descriptor carries, keyed by what it is about. */
  function ExpectedContent(config: SeoConfig, env: Env.Environment, key: MetaKey): string
  {
    var imageUrl := ImageUrl(WithDefault(config.image, DefaultImage), SiteUrl(env));
    match key
    case TitleKey => config.title
    case NameKey(n) =>
      if n == "description" || n == "twitter:description" then config.description
      else if n == "robots" then WithDefault(config.robots, DefaultRobots)
      else if n == "keywords" then WithDefault(config.keywords, "")
      else if n == "twitter:card" then "summary_large_image"
      else if n == "twitter:title" then config.title
      else if n == "twitter:image" then imageUrl
      else ""
    case PropertyKey(p) =>
      if p == "og:type" then WithDefault(config.pageType, DefaultType)
      else if p == "og:title" || p == "og:image:alt" then config.title
      else if p == "og:description" then config.description
      else if p == "og:site_name" then WithDefault(config.siteName, DefaultSiteName)
      else if p == "og:image" then imageUrl
      else if p == "og:image:width" then "1200"
      else if p == "og:image:height" then "630"
      else if p == "og:url" then WithDefault(config.url, "")
      else ""
  }

  /** A descriptor carries what its key calls for. */
  predicate Carries(config: SeoConfig, env: Env.Environment, d: MetaDescriptor)
  {
    ContentOf(d) == ExpectedContent(config, env, KeyOf(d))
  }

  predicate AllCarry(config: SeoConfig, env: Env.Environment, meta: seq<MetaDescriptor>)
  {
    forall i :: 0 <= i < |meta| ==> Carries(config, env, meta[i])
  }

  lemma AppendKeepsLayout(config: SeoConfig, env: Env.Environment, a: seq<MetaDescriptor>, b: seq<MetaDescriptor>)
    requires AllCarry(config, env, a) && AllCarry(config, env, b)
    ensures AllCarry(config, env, a + b)
    ensures KeysOf(a + b) == KeysOf(a) + KeysOf(b)
  {
    forall i | 0 <= i < |a + b|
      ensures Carries(config, env, (a + b)[i])
    {
      if i < |a| {
        assert (a + b)[i] == a[i];
      } else {
        assert (a + b)[i] == b[i - |a|];
      }
    }
  }

  /** The three leading descriptors are in place. */
  lemma HeadFits(config: SeoConfig, env: Env.Environment)
    ensures var head := [TitleMeta(config.title), NameMeta("description", config.description),
                         NameMeta("robots", WithDefault(config.robots, DefaultRobots))];
            AllCarry(config, env, head) && KeysOf(head) == [TitleKey, NameKey("description"), NameKey("robots")]
  {
    var head := [TitleMeta(config.title), NameMeta("description", config.description),
                 NameMeta("robots", WithDefault(config.robots, DefaultRobots))];
    assert Carries(config, env, head[2]);
  }

  /** The eight OpenGraph descriptors are in place. */
  lemma OpenGraphFits(config: SeoConfig, env: Env.Environment)
    ensures var imageUrl := ImageUrl(WithDefault(config.image, DefaultImage), SiteUrl(env));
            var og := [
              PropertyMeta("og:type", WithDefault(config.pageType, DefaultType)),
              PropertyMeta("og:title", config.title),
              PropertyMeta("og:description", config.description),
              PropertyMeta("og:site_name", WithDefault(config.siteName, DefaultSiteName)),
              PropertyMeta("og:image", imageUrl),
              PropertyMeta("og:image:width", "1200"),
              PropertyMeta("og:image:height", "630"),
              PropertyMeta("og:image:alt", config.title)];
            AllCarry(config, env, og) && KeysOf(og) == OpenGraphKeys
  {
    var imageUrl := ImageUrl(WithDefault(config.image, DefaultImage), SiteUrl(env));
    var og := [
      PropertyMeta("og:type", WithDefault(config.pageType, DefaultType)),
      PropertyMeta("og:title", config.title),
      PropertyMeta("og:description", config.description),
      PropertyMeta("og:site_name", WithDefault(config.siteName, DefaultSiteName)),
      PropertyMeta("og:image", imageUrl),
      PropertyMeta("og:image:width", "1200"),
      PropertyMeta("og:image:height", "630"),
      PropertyMeta("og:image:alt", config.title)];
    var front := og[..4];
    var back := og[4..];
    assert AllCarry(config, env, front) && KeysOf(front) == OpenGraphKeys[..4] by {
      OpenGraphContentFront(config, env);
      assert Carries(config, env, front[0]) && Carries(config, env, front[1]);
      assert Carries(config, env, front[2]) && Carries(config, env, front[3]);
    }
    assert AllCarry(config, env, back) && KeysOf(back) == OpenGraphKeys[4..] by {
      OpenGraphContentBack(config, env);
      assert Carries(config, env, back[0]) && Carries(config, env, back[1]);
      assert Carries(config, env, back[2]) && Carries(config, env, back[3]);
    }
    AppendKeepsLayout(config, env, front, back);
    assert front + back == og;
  }

  lemma OpenGraphContentFront(config: SeoConfig, env: Env.Environment)
    ensures ExpectedContent(config, env, PropertyKey("og:type")) == WithDefault(config.pageType, DefaultType)
    ensures ExpectedContent(config, env, PropertyKey("og:title")) == config.title
    ensures ExpectedContent(config, env, PropertyKey("og:description")) == config.description
    ensures ExpectedContent(config, env, PropertyKey("og:site_name")) == WithDefault(config.siteName, DefaultSiteName)
  {
  }

  lemma OpenGraphContentBack(config: SeoConfig, env: Env.Environment)
    ensures ExpectedContent(config, env, PropertyKey("og:image"))
         == ImageUrl(WithDefault(config.image, DefaultImage), SiteUrl(env))
    ensures ExpectedContent(config, env, PropertyKey("og:image:width")) == "1200"
    ensures ExpectedContent(config, env, PropertyKey("og:image:height")) == "630"
    ensures ExpectedContent(config, env, PropertyKey("og:image:alt")) == config.title
  {
  }

  /** The four Twitter descriptors are in place. */
  lemma TwitterFits(config: SeoConfig, env: Env.Environment)
    ensures var imageUrl := ImageUrl(WithDefault(config.image, DefaultImage), SiteUrl(env));
            var twitter := [
              NameMeta("twitter:card", "summary_large_image"),
              NameMeta("twitter:title", config.title),
              NameMeta("twitter:description", config.description),
              NameMeta("twitter:image", imageUrl)];
            AllCarry(config, env, twitter) && KeysOf(twitter) == TwitterKeys
  {
    var imageUrl := ImageUrl(WithDefault(config.image, DefaultImage), SiteUrl(env));
    var twitter := [
      NameMeta("twitter:card", "summary_large_image"),
      NameMeta("twitter:title", config.title),
      NameMeta("twitter:description", config.description),
      NameMeta("twitter:image", imageUrl)];
    assert Carries(config, env, twitter[0]);
    assert Carries(config, env, twitter[1]);
    assert Carries(config, env, twitter[2]);
    assert Carries(config, env, twitter[3]);
  }

  /**
   * `getSeoMeta(config)`: the descriptors come in the order `Layout` gives, with
   * the keywords entry exactly when `keywords` is a non-empty string and the
   * og:url entry exactly when `url` is, and each carries its `ExpectedContent`.
   */
  method GetSeoMeta(config: SeoConfig, env: Env.Environment) returns (meta: seq<MetaDescriptor>)
    ensures IsSeoMeta(config, env, meta)
  {
    var title, description := config.title, config.description;
    var image := WithDefault(config.image, DefaultImage);
    var pageType := WithDefault(config.pageType, DefaultType);
    var siteName := WithDefault(config.siteName, DefaultSiteName);
    var robots := WithDefault(config.robots, DefaultRobots);

    var siteUrl := Env.OrElse(Env.Lookup(env, "PUBLIC_URL"), DefaultSiteUrl);
    var fullImageUrl := if StartsWith(image, "http") then image else siteUrl + image;

    meta := [TitleMeta(title), NameMeta("description", description), NameMeta("robots", robots)];
    HeadFits(config, env);
    ghost var keys := KeysOf(meta);

    if Env.IsSet(config.keywords) {
      var entry := [NameMeta("keywords", config.keywords.value)];
      assert Carries(config, env, entry[0]);
      AppendKeepsLayout(config, env, meta, entry);
      meta := meta + entry;
      assert KeysOf(entry) == [NameKey("keywords")];
    }
    keys := keys + (if Env.IsSet(config.keywords) then [NameKey("keywords")] else []);
    assert KeysOf(meta) == keys;

    var openGraph := [
      PropertyMeta("og:type", pageType),
      PropertyMeta("og:title", title),
      PropertyMeta("og:description", description),
      PropertyMeta("og:site_name", siteName),
      PropertyMeta("og:image", fullImageUrl),
      PropertyMeta("og:image:width", "1200"),
      PropertyMeta("og:image:height", "630"),
      PropertyMeta("og:image:alt", title)];
    OpenGraphFits(config, env);
    AppendKeepsLayout(config, env, meta, openGraph);
    meta := meta + openGraph;
    keys := keys + OpenGraphKeys;
    assert KeysOf(meta) == keys;

    if Env.IsSet(config.url) {
      var entry := [PropertyMeta("og:url", config.url.value)];
      assert Carries(config, env, entry[0]);
      AppendKeepsLayout(config, env, meta, entry);
      meta := meta + entry;
      assert KeysOf(entry) == [PropertyKey("og:url")];
    }
    keys := keys + (if Env.IsSet(config.url) then [PropertyKey("og:url")] else []);
    assert KeysOf(meta) == keys;

    var twitter := [
      NameMeta("twitter:card", "summary_large_image"),
      NameMeta("twitter:title", title),
      NameMeta("twitter:description", description),
      NameMeta("twitter:image", fullImageUrl)];
    TwitterFits(config, env);
    AppendKeepsLayout(config, env, meta, twitter);
    meta := meta + twitter;
    keys := keys + TwitterKeys;
    assert KeysOf(meta) == keys;
  }

  /**
   * What `getSeoMeta` promises of its result: the keys follow `Layout`, and each
   * descriptor carries the content its key calls for.
   */
  predicate IsSeoMeta(config: SeoConfig, env: Env.Environment, meta: seq<MetaDescriptor>)
  {
    && KeysOf(meta) == Layout(Env.IsSet(config.keywords), Env.IsSet(config.url))
    && forall i :: 0 <= i < |meta| ==> ContentOf(meta[i]) == ExpectedContent(config, env, KeyOf(meta[i]))
  }

  /**
   * The order of the descriptors: title, description and robots first; the
   * keywords entry right after robots exactly when there are keywords; the og:url
   * entry exactly when there is a URL, after the eight OpenGraph entries and
   * before the four Twitter entries, which always close the list.
   */
  lemma LayoutPositions(hasKeywords: bool, hasUrl: bool)
    ensures var layout := Layout(hasKeywords, hasUrl);
            var k := if hasKeywords then 1 else 0;
            && |layout| == 15 + k + (if hasUrl then 1 else 0)
            && layout[..3] == [TitleKey, NameKey("description"), NameKey("robots")]
            && (hasKeywords ==> layout[3] == NameKey("keywords"))
            && layout[3 + k..11 + k] == OpenGraphKeys
            && (hasUrl ==> layout[11 + k] == PropertyKey("og:url"))
            && layout[|layout| - 4..] == TwitterKeys
  {
    var layout := Layout(hasKeywords, hasUrl);
    var k := if hasKeywords then 1 else 0;
    var head := [TitleKey, NameKey("description"), NameKey("robots")];
    var kw: seq<MetaKey> := if hasKeywords then [NameKey("keywords")] else [];
    var url: seq<MetaKey> := if hasUrl then [PropertyKey("og:url")] else [];
    assert layout == head + kw + OpenGraphKeys + url + TwitterKeys;
    assert layout[..3] == head;
    assert layout[3 + k..11 + k] == OpenGraphKeys;
    assert layout[|layout| - 4..] == TwitterKeys;
  }

  /** The keywords entry is present exactly when keywords are set, the og:url entry exactly when the URL is. */
  lemma LayoutOptional(hasKeywords: bool, hasUrl: bool)
    ensures NameKey("keywords") in Layout(hasKeywords, hasUrl) <==> hasKeywords
    ensures PropertyKey("og:url") in Layout(hasKeywords, hasUrl) <==> hasUrl
  {
    var layout := Layout(hasKeywords, hasUrl);
    var head := [TitleKey, NameKey("description"), NameKey("robots")];
    var kw: seq<MetaKey> := if hasKeywords then [NameKey("keywords")] else [];
    var url: seq<MetaKey> := if hasUrl then [PropertyKey("og:url")] else [];
    assert layout == head + kw + OpenGraphKeys + url + TwitterKeys;
    assert NameKey("keywords") !in head + OpenGraphKeys + url + TwitterKeys;
    assert PropertyKey("og:url") !in head + kw + OpenGraphKeys + TwitterKeys;
    if !hasKeywords {
      assert layout == head + OpenGraphKeys + url + TwitterKeys;
    }
    if !hasUrl {
      assert layout == head + kw + OpenGraphKeys + TwitterKeys;
    }
  }

  /** og:title, og:image:alt and twitter:title all repeat the title. */
  lemma TitleRepeated(config: SeoConfig, env: Env.Environment)
    ensures ExpectedContent(config, env, PropertyKey("og:title")) == config.title
    ensures ExpectedContent(config, env, PropertyKey("og:image:alt")) == config.title
    ensures ExpectedContent(config, env, NameKey("twitter:title")) == config.title
  {
  }

  /**
   * og:image and twitter:image carry the same URL: the image (by default
   * "/og-image.png") as is when it starts with "http", and otherwise appended to the
   * site URL.
   */
  lemma ImageUrlShared(config: SeoConfig, env: Env.Environment)
    ensures var image := WithDefault(config.image, DefaultImage);
            var url := ExpectedContent(config, env, PropertyKey("og:image"));
            && ExpectedContent(config, env, NameKey("twitter:image")) == url
            && (StartsWith(image, "http") ==> url == image)
            && (!StartsWith(image, "http") ==> url == SiteUrl(env) + image)
  {
  }

  /**
   * Destructuring defaults apply only to an undefined field: robots defaults to
   * "index, follow", og:type to "website", og:site_name to "VibeDoctor", and an
   * explicit empty string is kept.
   */
  lemma DefaultsOnlyWhenUndefined(config: SeoConfig, env: Env.Environment)
    ensures ExpectedContent(config, env, NameKey("robots"))
         == (if config.robots.None? then "index, follow" else config.robots.value)
    ensures ExpectedContent(config, env, PropertyKey("og:type"))
         == (if config.pageType.None? then "website" else config.pageType.value)
    ensures ExpectedContent(config, env, PropertyKey("og:site_name"))
         == (if config.siteName.None? then "VibeDoctor" else config.siteName.value)
  {
  }

  /**
   * The site URL is PUBLIC_URL when it is set and non-empty, and
   * "http://localhost:5173" otherwise; that fallback is not the one the server's
   * `env` object uses, so the two agree exactly when PUBLIC_URL is set.
   */
  lemma SiteUrlFallback(env: Env.Environment)
    ensures Env.IsSet(Env.Lookup(env, "PUBLIC_URL")) ==> SiteUrl(env) == env["PUBLIC_URL"]
    ensures !Env.IsSet(Env.Lookup(env, "PUBLIC_URL")) ==> SiteUrl(env) == "http://localhost:5173"
    ensures SiteUrl(env) == Env.LoadServerEnv(env).publicUrl <==> Env.IsSet(Env.Lookup(env, "PUBLIC_URL"))
  {
  }

  /** The descriptor with the given key and content. */
  function Descriptor(key: MetaKey, content: string): (d: MetaDescriptor)
    ensures KeyOf(d) == key && ContentOf(d) == content
  {
    match key
    case TitleKey => TitleMeta(content)
    case NameKey(n) => NameMeta(n, content)
    case PropertyKey(p) => PropertyMeta(p, content)
  }

  /** In a list meeting `getSeoMeta`'s postcondition, the entry at a position is fixed by the layout's key there. */
  lemma DescriptorAt(config: SeoConfig, env: Env.Environment, meta: seq<MetaDescriptor>, i: int)
    requires IsSeoMeta(config, env, meta) && 0 <= i < |meta|
    ensures var key := Layout(Env.IsSet(config.keywords), Env.IsSet(config.url))[i];
            meta[i] == Descriptor(key, ExpectedContent(config, env, key))
  {
    assert KeysOf(meta)[i] == KeyOf(meta[i]);
  }

  /**
   * Any list meeting `getSeoMeta`'s postcondition has 15 entries plus one each
   * for keywords and URL, and opens with exactly the title, description and
   * robots descriptors.
   */
  lemma SeoMetaHead(config: SeoConfig, env: Env.Environment, meta: seq<MetaDescriptor>)
    requires IsSeoMeta(config, env, meta)
    ensures |meta| == 15 + (if Env.IsSet(config.keywords) then 1 else 0) + (if Env.IsSet(config.url) then 1 else 0)
    ensures meta[..3] == [
              TitleMeta(config.title),
              NameMeta("description", config.description),
              NameMeta("robots", WithDefault(config.robots, DefaultRobots))]
  {
    var hasKeywords, hasUrl := Env.IsSet(config.keywords), Env.IsSet(config.url);
    LayoutPositions(hasKeywords, hasUrl);
    var layout := Layout(hasKeywords, hasUrl);
    assert layout[0] == TitleKey && layout[1] == NameKey("description") && layout[2] == NameKey("robots") by {
      assert layout[..3][0] == layout[0] && layout[..3][1] == layout[1] && layout[..3][2] == layout[2];
    }
    DescriptorAt(config, env, meta, 0);
    DescriptorAt(config, env, meta, 1);
    DescriptorAt(config, env, meta, 2);
  }

  /**
   * Any list meeting `getSeoMeta`'s postcondition closes with exactly the four
   * Twitter descriptors, whose image is the shared image URL.
   */
  lemma SeoMetaTail(config: SeoConfig, env: Env.Environment, meta: seq<MetaDescriptor>)
    requires IsSeoMeta(config, env, meta)
    ensures |meta| >= 4
    ensures var imageUrl := ImageUrl(WithDefault(config.image, DefaultImage), SiteUrl(env));
            meta[|meta| - 4..] == [
              NameMeta("twitter:card", "summary_large_image"),
              NameMeta("twitter:title", config.title),
              NameMeta("twitter:description", config.description),
              NameMeta("twitter:image", imageUrl)]
  {
    var layout := Layout(Env.IsSet(config.keywords), Env.IsSet(config.url));
    var n := |meta|;
    assert n == |layout| >= 4;
    assert layout[n - 4] == TwitterKeys[0] && layout[n - 3] == TwitterKeys[1]
        && layout[n - 2] == TwitterKeys[2] && layout[n - 1] == TwitterKeys[3];
    TwitterContent(config, env);
    DescriptorAt(config, env, meta, n - 4);
    DescriptorAt(config, env, meta, n - 3);
    DescriptorAt(config, env, meta, n - 2);
    DescriptorAt(config, env, meta, n - 1);
  }

  /** In any result of `getSeoMeta`, every og:title, og:image:alt and twitter:title descriptor carries the title. */
  lemma MetaRepeatsTitle(config: SeoConfig, env: Env.Environment, meta: seq<MetaDescriptor>)
    requires IsSeoMeta(config, env, meta)
    ensures forall i :: 0 <= i < |meta|
              && KeyOf(meta[i]) in {PropertyKey("og:title"), PropertyKey("og:image:alt"), NameKey("twitter:title")}
              ==> ContentOf(meta[i]) == config.title
  {
    TitleRepeated(config, env);
  }

  /** In any result of `getSeoMeta`, the og:image and twitter:image descriptors carry the same image URL. */
  lemma MetaSharesImageUrl(config: SeoConfig, env: Env.Environment, meta: seq<MetaDescriptor>)
    requires IsSeoMeta(config, env, meta)
    ensures forall i :: 0 <= i < |meta| && KeyOf(meta[i]) in {PropertyKey("og:image"), NameKey("twitter:image")} ==>
              ContentOf(meta[i]) == ImageUrl(WithDefault(config.image, DefaultImage), SiteUrl(env))
  {
    ImageUrlShared(config, env);
  }

  /**
   * In any result of `getSeoMeta`, the robots, og:type and og:site_name
   * descriptors carry the configured value, and the default only when the field
   * is absent.
   */
  lemma MetaDefaultsOnlyWhenUndefined(config: SeoConfig, env: Env.Environment, meta: seq<MetaDescriptor>)
    requires IsSeoMeta(config, env, meta)
    ensures forall i :: 0 <= i < |meta| && KeyOf(meta[i]) == NameKey("robots") ==>
              ContentOf(meta[i]) == (if config.robots.None? then "index, follow" else config.robots.value)
    ensures forall i :: 0 <= i < |meta| && KeyOf(meta[i]) == PropertyKey("og:type") ==>
              ContentOf(meta[i]) == (if config.pageType.None? then "website" else config.pageType.value)
    ensures forall i :: 0 <= i < |meta| && KeyOf(meta[i]) == PropertyKey("og:site_name") ==>
              ContentOf(meta[i]) == (if config.siteName.None? then "VibeDoctor" else config.siteName.value)
  {
    DefaultsOnlyWhenUndefined(config, env);
  }

  lemma TwitterContent(config: SeoConfig, env: Env.Environment)
    ensures ExpectedContent(config, env, NameKey("twitter:card")) == "summary_large_image"
    ensures ExpectedContent(config, env, NameKey("twitter:title")) == config.title
    ensures ExpectedContent(config, env, NameKey("twitter:description")) == config.description
    ensures ExpectedContent(config, env, NameKey("twitter:image"))
         == ImageUrl(WithDefault(config.image, DefaultImage), SiteUrl(env))
  {
  }
}
