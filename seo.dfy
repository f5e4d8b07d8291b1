/**
 * The SEO component: a pure derivation of the document head's tags from the
 * page's props, the active language and the current path.
 *
 * The title gets a ` | DS Education` suffix; description and keywords fall
 * back to localized defaults; the page URL is the site URL followed by the
 * `url` prop; the canonical link is the `canonical` prop or the page URL;
 * two `hreflang` alternates (`en`, `km`) and an `x-default` point at the
 * current path; robots, Open Graph locale and the language meta follow the
 * props and the active language; article times and the JSON-LD script are
 * emitted only when supplied.
 */
module Seo {
  import opened JsSemantics

  const SiteUrl := "https://dseducation.com"
  const TitleSuffix := " | DS Education"
  const DefaultImage := "https://dseducation.com/og-image.jpg"
  const DefaultType := "website"
  const DefaultAuthor := "DS Education"
  const RobotsNoIndex := "noindex, nofollow"
  const RobotsIndex := "index, follow, max-image-preview:large, max-snippet:-1, max-video-preview:-1"

  /** The component's props; `None` is a prop left out. */
  datatype SeoProps = SeoProps(
    title: Option<string>,
    description: Option<string>,
    keywords: Option<string>,
    image: Option<string>,
    url: Option<string>,
    ogType: Option<string>,
    author: Option<string>,
    publishedTime: Option<string>,
    modifiedTime: Option<string>,
    noindex: Option<bool>,
    canonical: Option<string>,
    /** The JSON text `JSON.stringify` gives for the `structuredData` object. */
    structuredData: Option<string>)

  /** The three localized defaults the translation function returns. */
  datatype Defaults = Defaults(title: string, description: string, keywords: string)

  /** The defaults used when the translation has no entry for them. */
  const BuiltInDefaults := Defaults(
    "DS Education - Your Gateway to Global Education",
    "Expert overseas education consulting for 9+ countries. Free consultation, visa assistance, and 98% success rate. Start your study abroad journey with DS Education today.",
    "study abroad, overseas education, education consultant, study in Singapore, study in UK, study in Australia, DS Education, Cambodia education")

  /**
   * `t(key, fallback)` for the three defaults: the translation's entry when
   * it has one (even an empty one), the built-in text otherwise.
   */
  function LocalizedDefaults(title: Option<string>, description: Option<string>, keywords: Option<string>): (d: Defaults)
    ensures title.Some? ==> d.title == title.value
    ensures description.Some? ==> d.description == description.value
    ensures keywords.Some? ==> d.keywords == keywords.value
    ensures title.None? ==> d.title == BuiltInDefaults.title && d.title != ""
    ensures description.None? ==> d.description == BuiltInDefaults.description && d.description != ""
    ensures keywords.None? ==> d.keywords == BuiltInDefaults.keywords && d.keywords != ""
  {
    Defaults(Coalesce(title, BuiltInDefaults.title), Coalesce(description, BuiltInDefaults.description),
             Coalesce(keywords, BuiltInDefaults.keywords))
  }

  function FullTitle(p: SeoProps, d: Defaults): string
  {
    if Truthy(p.title) then p.title.value + TitleSuffix else d.title
  }

  function FullUrl(p: SeoProps): string
  {
    if Truthy(p.url) then SiteUrl + p.url.value else SiteUrl
  }

  function CanonicalUrl(p: SeoProps): string
  {
    OrElse(p.canonical, FullUrl(p))
  }

  /** `window.location.pathname`, or `""` where there is no window. */
  function CurrentPath(windowPath: Option<string>): string
  {
    Coalesce(windowPath, "")
  }

  /** The `en` and `km` alternates, in that order. */
  function AlternateLinks(path: string): seq<(string, string)>
  {
    [("en", SiteUrl + path), ("km", SiteUrl + path + "?lang=kh")]
  }

  /** How a meta tag is keyed in the document: by `name`, `property` or `itemProp`. */
  datatype MetaAttr = Name | Property | ItemProp

  /** The meta tags the component writes, one constructor per key. */
  datatype MetaKey =
    | Title | Description | Keywords | Author | Robots | Language
    | OgType | OgUrl | OgTitle | OgDescription | OgImage | OgImageWidth | OgImageHeight | OgSiteName | OgLocale
    | ArticlePublishedTime | ArticleModifiedTime
    | TwitterCard | TwitterUrl | TwitterTitle | TwitterDescription | TwitterImage | TwitterCreator
    | SchemaName | SchemaDescription | SchemaImage

  /** The attribute a key is written under. */
  function Attribute(k: MetaKey): MetaAttr
  {
    match k
    case Title | Description | Keywords | Author | Robots | Language => Name
    case TwitterCard | TwitterUrl | TwitterTitle | TwitterDescription | TwitterImage | TwitterCreator => Name
    case SchemaName | SchemaDescription | SchemaImage => ItemProp
    case _ => Property
  }

  /** The key's text in the document. */
  function KeyName(k: MetaKey): string
  {
    match k
    case Title => "title"
    case Description => "description"
    case Keywords => "keywords"
    case Author => "author"
    case Robots => "robots"
    case Language => "language"
    case OgType => "og:type"
    case OgUrl => "og:url"
    case OgTitle => "og:title"
    case OgDescription => "og:description"
    case OgImage => "og:image"
    case OgImageWidth => "og:image:width"
    case OgImageHeight => "og:image:height"
    case OgSiteName => "og:site_name"
    case OgLocale => "og:locale"
    case ArticlePublishedTime => "article:published_time"
    case ArticleModifiedTime => "article:modified_time"
    case TwitterCard => "twitter:card"
    case TwitterUrl => "twitter:url"
    case TwitterTitle => "twitter:title"
    case TwitterDescription => "twitter:description"
    case TwitterImage => "twitter:image"
    case TwitterCreator => "twitter:creator"
    case SchemaName => "name"
    case SchemaDescription => "description"
    case SchemaImage => "image"
  }

  /** The key a meta tag with this attribute and text stands for, if any. */
  function KeyOf(attr: MetaAttr, name: string): Option<MetaKey>
  {
    match attr
    case Name =>
      if name == "title" then Some(Title) else if name == "description" then Some(Description)
      else if name == "keywords" then Some(Keywords) else if name == "author" then Some(Author)
      else if name == "robots" then Some(Robots) else if name == "language" then Some(Language)
      else if name == "twitter:card" then Some(TwitterCard) else if name == "twitter:url" then Some(TwitterUrl)
      else if name == "twitter:title" then Some(TwitterTitle)
      else if name == "twitter:description" then Some(TwitterDescription)
      else if name == "twitter:image" then Some(TwitterImage)
      else if name == "twitter:creator" then Some(TwitterCreator)
      else None
    case Property =>
      if name == "og:type" then Some(OgType) else if name == "og:url" then Some(OgUrl)
      else if name == "og:title" then Some(OgTitle) else if name == "og:description" then Some(OgDescription)
      else if name == "og:image" then Some(OgImage) else if name == "og:image:width" then Some(OgImageWidth)
      else if name == "og:image:height" then Some(OgImageHeight)
      else if name == "og:site_name" then Some(OgSiteName) else if name == "og:locale" then Some(OgLocale)
      else if name == "article:published_time" then Some(ArticlePublishedTime)
      else if name == "article:modified_time" then Some(ArticleModifiedTime)
      else None
    case ItemProp =>
      if name == "name" then Some(SchemaName) else if name == "description" then Some(SchemaDescription)
      else if name == "image" then Some(SchemaImage)
      else None
  }

  /** Reading a tag's attribute and text gives its key back. */
  lemma KeyOfMeta(k: MetaKey)
    ensures KeyOf(Attribute(k), KeyName(k)) == Some(k)
  {
    match k
    case Title => assert KeyOf(Attribute(k), KeyName(k)) == Some(Title);
    case Description => assert KeyOf(Attribute(k), KeyName(k)) == Some(Description);
    case Keywords => assert KeyOf(Attribute(k), KeyName(k)) == Some(Keywords);
    case Author => assert KeyOf(Attribute(k), KeyName(k)) == Some(Author);
    case Robots => assert KeyOf(Attribute(k), KeyName(k)) == Some(Robots);
    case Language => assert KeyOf(Attribute(k), KeyName(k)) == Some(Language);
    case OgType => assert KeyOf(Attribute(k), KeyName(k)) == Some(OgType);
    case OgUrl => assert KeyOf(Attribute(k), KeyName(k)) == Some(OgUrl);
    case OgTitle => assert KeyOf(Attribute(k), KeyName(k)) == Some(OgTitle);
    case OgDescription => assert KeyOf(Attribute(k), KeyName(k)) == Some(OgDescription);
    case OgImage => assert KeyOf(Attribute(k), KeyName(k)) == Some(OgImage);
    case OgImageWidth => assert KeyOf(Attribute(k), KeyName(k)) == Some(OgImageWidth);
    case OgImageHeight => assert KeyOf(Attribute(k), KeyName(k)) == Some(OgImageHeight);
    case OgSiteName => assert KeyOf(Attribute(k), KeyName(k)) == Some(OgSiteName);
    case OgLocale => assert KeyOf(Attribute(k), KeyName(k)) == Some(OgLocale);
    case ArticlePublishedTime => assert KeyOf(Attribute(k), KeyName(k)) == Some(ArticlePublishedTime);
    case ArticleModifiedTime => assert KeyOf(Attribute(k), KeyName(k)) == Some(ArticleModifiedTime);
    case TwitterCard => assert KeyOf(Attribute(k), KeyName(k)) == Some(TwitterCard);
    case TwitterUrl => assert KeyOf(Attribute(k), KeyName(k)) == Some(TwitterUrl);
    case TwitterTitle => assert KeyOf(Attribute(k), KeyName(k)) == Some(TwitterTitle);
    case TwitterDescription => assert KeyOf(Attribute(k), KeyName(k)) == Some(TwitterDescription);
    case TwitterImage => assert KeyOf(Attribute(k), KeyName(k)) == Some(TwitterImage);
    case TwitterCreator => assert KeyOf(Attribute(k), KeyName(k)) == Some(TwitterCreator);
    case SchemaName => assert KeyOf(Attribute(k), KeyName(k)) == Some(SchemaName);
    case SchemaDescription => assert KeyOf(Attribute(k), KeyName(k)) == Some(SchemaDescription);
    case SchemaImage => assert KeyOf(Attribute(k), KeyName(k)) == Some(SchemaImage);
  }

  /** Every key is written under its own attribute and text: no two keys share a tag. */
  lemma MetaKeysDistinct(k: MetaKey, k': MetaKey)
    ensures Attribute(k) == Attribute(k') && KeyName(k) == KeyName(k') ==> k == k'
  {
    KeyOfMeta(k);
    KeyOfMeta(k');
  }

  datatype Tag =
    | TitleTag(text: string)
    | Meta(key: MetaKey, content: string)
    | LinkTag(rel: string, hreflang: Option<string>, href: string)
    | HtmlLang(lang: string)
    | JsonLd(json: string)

  function PrimaryTags(title: string, description: string, keywords: string, author: string): seq<Tag>
  {
    [TitleTag(title), Meta(Title, title), Meta(Description, description)] + [Meta(Keywords, keywords), Meta(Author, author)]
  }

  function RobotsTags(noindex: bool): seq<Tag>
  {
    [Meta(Robots, if noindex then RobotsNoIndex else RobotsIndex)]
  }

  function LanguageTags(language: string): seq<Tag>
  {
    [HtmlLang(language), Meta(Language, if language == "kh" then "Khmer" else "English")]
  }

  function AlternateTags(links: seq<(string, string)>): (tags: seq<Tag>)
    ensures |tags| == |links|
    ensures forall i :: 0 <= i < |links| ==> tags[i] == LinkTag("alternate", Some(links[i].0), links[i].1)
  {
    if links == [] then [] else [LinkTag("alternate", Some(links[0].0), links[0].1)] + AlternateTags(links[1..])
  }

  function LinkTags(canonical: string, path: string): seq<Tag>
  {
    [LinkTag("canonical", None, canonical)] + AlternateTags(AlternateLinks(path)) +
    [LinkTag("alternate", Some("x-default"), SiteUrl + path)]
  }

  /** A meta tag written only when its value is present and non-empty. */
  function OptionalMeta(key: MetaKey, value: Option<string>): seq<Tag>
  {
    if Truthy(value) then [Meta(key, value.value)] else []
  }

  function OpenGraphFixed(ogType: string, url: string, title: string, description: string, image: string,
                          language: string): seq<Tag>
  {
    [Meta(OgType, ogType), Meta(OgUrl, url), Meta(OgTitle, title)] +
    [Meta(OgDescription, description), Meta(OgImage, image), Meta(OgImageWidth, "1200")] +
    [Meta(OgImageHeight, "630"), Meta(OgSiteName, "DS Education"), Meta(OgLocale, if language == "kh" then "km_KH" else "en_US")]
  }

  function OpenGraphTags(ogType: string, url: string, title: string, description: string, image: string,
                         language: string, published: Option<string>, modified: Option<string>): seq<Tag>
  {
    OpenGraphFixed(ogType, url, title, description, image, language) +
    OptionalMeta(ArticlePublishedTime, published) + OptionalMeta(ArticleModifiedTime, modified)
  }

  function TwitterTags(url: string, title: string, description: string, image: string): seq<Tag>
  {
    [Meta(TwitterCard, "summary_large_image"), Meta(TwitterUrl, url), Meta(TwitterTitle, title)] +
    [Meta(TwitterDescription, description), Meta(TwitterImage, image), Meta(TwitterCreator, "@DSEducation")]
  }

  function SchemaTags(title: string, description: string, image: string): seq<Tag>
  {
    [Meta(SchemaName, title), Meta(SchemaDescription, description), Meta(SchemaImage, image)]
  }

  function StructuredDataTags(json: Option<string>): seq<Tag>
  {
    if json.Some? then [JsonLd(json.value)] else []
  }

  /** The tags the component hands to the document head, in order. */
  function HeadTags(p: SeoProps, d: Defaults, language: string, windowPath: Option<string>): seq<Tag>
  {
    var title := FullTitle(p, d);
    var description := OrElse(p.description, d.description);
    var keywords := OrElse(p.keywords, d.keywords);
    var url := FullUrl(p);
    var image := Coalesce(p.image, DefaultImage);
    PrimaryTags(title, description, keywords, Coalesce(p.author, DefaultAuthor)) +
    RobotsTags(Coalesce(p.noindex, false)) +
    LanguageTags(language) +
    LinkTags(CanonicalUrl(p), CurrentPath(windowPath)) +
    OpenGraphTags(Coalesce(p.ogType, DefaultType), url, title, description, image, language,
                  p.publishedTime, p.modifiedTime) +
    TwitterTags(url, title, description, image) +
    SchemaTags(title, description, image) +
    StructuredDataTags(p.structuredData)
  }

  // Reading the head back.

  /** A way of reading the head: which tags to look at and what to take from each. */
  datatype Reader =
    | MetaContent(key: MetaKey)          // the content of meta tags with this key
    | CanonicalHref                      // the href of canonical links
    | AlternateHref(hreflang: string)    // the href of alternate links for this language
    | HrefLangs                          // the hreflang of every alternate link
    | TitleText                          // the text of title tags
    | DocumentLang                       // the lang set on the html element
    | ScriptJson                         // the JSON of structured-data scripts

  function Read(r: Reader, t: Tag): seq<string>
  {
    match r
    case MetaContent(key) => if t.Meta? && t.key == key then [t.content] else []
    case CanonicalHref => if t.LinkTag? && t.rel == "canonical" then [t.href] else []
    case AlternateHref(lang) => if t.LinkTag? && t.rel == "alternate" && t.hreflang == Some(lang) then [t.href] else []
    case HrefLangs => if t.LinkTag? && t.rel == "alternate" && t.hreflang.Some? then [t.hreflang.value] else []
    case TitleText => if t.TitleTag? then [t.text] else []
    case DocumentLang => if t.HtmlLang? then [t.lang] else []
    case ScriptJson => if t.JsonLd? then [t.json] else []
  }

  /** What `r` reads from each tag, concatenated in tag order. */
  function Pick(tags: seq<Tag>, r: Reader): seq<string>
  {
    if tags == [] then [] else Read(r, tags[0]) + Pick(tags[1..], r)
  }

  lemma {:induction false} PickConcat(a: seq<Tag>, b: seq<Tag>, r: Reader)
    ensures Pick(a + b, r) == Pick(a, r) + Pick(b, r)
  {
    if a == [] {
      assert a + b == b;
    } else {
      assert (a + b)[0] == a[0] && (a + b)[1..] == a[1..] + b;
      PickConcat(a[1..], b, r);
    }
  }

  lemma Pick1(a: Tag, r: Reader)
    ensures Pick([a], r) == Read(r, a)
  {
    assert [a][1..] == [];
  }

  lemma Pick2(a: Tag, b: Tag, r: Reader)
    ensures Pick([a, b], r) == Read(r, a) + Read(r, b)
  {
    assert [a, b][1..] == [b];
    Pick1(b, r);
  }

  lemma Pick3(a: Tag, b: Tag, c: Tag, r: Reader)
    ensures Pick([a, b, c], r) == Read(r, a) + Read(r, b) + Read(r, c)
  {
    assert [a, b, c][1..] == [b, c];
    Pick2(b, c, r);
  }

  /** The head read segment by segment, in the order the component lists them. */
  lemma {:induction false} HeadSegments(p: SeoProps, d: Defaults, language: string, windowPath: Option<string>, r: Reader)
    ensures var title := FullTitle(p, d);
            var description := OrElse(p.description, d.description);
            var url := FullUrl(p);
            var image := Coalesce(p.image, DefaultImage);
            Pick(HeadTags(p, d, language, windowPath), r) ==
              Pick(PrimaryTags(title, description, OrElse(p.keywords, d.keywords), Coalesce(p.author, DefaultAuthor)), r) +
              Pick(RobotsTags(Coalesce(p.noindex, false)), r) +
              Pick(LanguageTags(language), r) +
              Pick(LinkTags(CanonicalUrl(p), CurrentPath(windowPath)), r) +
              Pick(OpenGraphTags(Coalesce(p.ogType, DefaultType), url, title, description, image, language,
                                 p.publishedTime, p.modifiedTime), r) +
              Pick(TwitterTags(url, title, description, image), r) +
              Pick(SchemaTags(title, description, image), r) +
              Pick(StructuredDataTags(p.structuredData), r)
  {
    var title := FullTitle(p, d);
    var description := OrElse(p.description, d.description);
    var url := FullUrl(p);
    var image := Coalesce(p.image, DefaultImage);
    var a := PrimaryTags(title, description, OrElse(p.keywords, d.keywords), Coalesce(p.author, DefaultAuthor));
    var b := RobotsTags(Coalesce(p.noindex, false));
    var c := LanguageTags(language);
    var l := LinkTags(CanonicalUrl(p), CurrentPath(windowPath));
    var o := OpenGraphTags(Coalesce(p.ogType, DefaultType), url, title, description, image, language,
                           p.publishedTime, p.modifiedTime);
    var t, sc, j := TwitterTags(url, title, description, image), SchemaTags(title, description, image),
                    StructuredDataTags(p.structuredData);
    assert HeadTags(p, d, language, windowPath) == a + b + c + l + o + t + sc + j;
    PickConcat(a, b, r);
    PickConcat(a + b, c, r);
    PickConcat(a + b + c, l, r);
    PickConcat(a + b + c + l, o, r);
    PickConcat(a + b + c + l + o, t, r);
    PickConcat(a + b + c + l + o + t, sc, r);
    PickConcat(a + b + c + l + o + t + sc, j, r);
  }


  lemma PickPrimary(title: string, description: string, keywords: string, author: string, r: Reader)
    ensures Pick(PrimaryTags(title, description, keywords, author), r) ==
              Read(r, TitleTag(title)) + Read(r, Meta(Title, title)) + Read(r, Meta(Description, description)) +
              Read(r, Meta(Keywords, keywords)) + Read(r, Meta(Author, author))
  {
    Pick3(TitleTag(title), Meta(Title, title), Meta(Description, description), r);
    Pick2(Meta(Keywords, keywords), Meta(Author, author), r);
    PickConcat([TitleTag(title), Meta(Title, title), Meta(Description, description)],
               [Meta(Keywords, keywords), Meta(Author, author)], r);
  }

  lemma PickRobots(noindex: bool, r: Reader)
    ensures Pick(RobotsTags(noindex), r) == Read(r, Meta(Robots, if noindex then RobotsNoIndex else RobotsIndex))
  {
    Pick1(Meta(Robots, if noindex then RobotsNoIndex else RobotsIndex), r);
  }

  lemma PickLanguage(language: string, r: Reader)
    ensures Pick(LanguageTags(language), r) ==
              Read(r, HtmlLang(language)) + Read(r, Meta(Language, if language == "kh" then "Khmer" else "English"))
  {
    Pick2(HtmlLang(language), Meta(Language, if language == "kh" then "Khmer" else "English"), r);
  }

  lemma PickLinks(canonical: string, path: string, r: Reader)
    ensures Pick(LinkTags(canonical, path), r) ==
              Read(r, LinkTag("canonical", None, canonical)) + Read(r, LinkTag("alternate", Some("en"), SiteUrl + path)) +
              Read(r, LinkTag("alternate", Some("km"), SiteUrl + path + "?lang=kh")) +
              Read(r, LinkTag("alternate", Some("x-default"), SiteUrl + path))
  {
    var c := [LinkTag("canonical", None, canonical)];
    var alt := AlternateTags(AlternateLinks(path));
    var x := [LinkTag("alternate", Some("x-default"), SiteUrl + path)];
    assert alt == [LinkTag("alternate", Some("en"), SiteUrl + path), LinkTag("alternate", Some("km"), SiteUrl + path + "?lang=kh")];
    Pick1(c[0], r);
    Pick2(alt[0], alt[1], r);
    Pick1(x[0], r);
    PickConcat(c, alt, r);
    PickConcat(c + alt, x, r);
  }

  lemma PickOptional(key: MetaKey, value: Option<string>, r: Reader)
    ensures Pick(OptionalMeta(key, value), r) == if Truthy(value) then Read(r, Meta(key, value.value)) else []
  {
    if Truthy(value) {
      Pick1(Meta(key, value.value), r);
    }
  }

  lemma PickOpenGraphFixed(ogType: string, url: string, title: string, description: string, image: string,
                           language: string, r: Reader)
    ensures Pick(OpenGraphFixed(ogType, url, title, description, image, language), r) ==
              (Read(r, Meta(OgType, ogType)) + Read(r, Meta(OgUrl, url)) + Read(r, Meta(OgTitle, title))) +
              (Read(r, Meta(OgDescription, description)) + Read(r, Meta(OgImage, image)) +
               Read(r, Meta(OgImageWidth, "1200"))) +
              (Read(r, Meta(OgImageHeight, "630")) + Read(r, Meta(OgSiteName, "DS Education")) +
               Read(r, Meta(OgLocale, if language == "kh" then "km_KH" else "en_US")))
  {
    var x := [Meta(OgType, ogType), Meta(OgUrl, url), Meta(OgTitle, title)];
    var y := [Meta(OgDescription, description), Meta(OgImage, image), Meta(OgImageWidth, "1200")];
    var z := [Meta(OgImageHeight, "630"), Meta(OgSiteName, "DS Education"),
              Meta(OgLocale, if language == "kh" then "km_KH" else "en_US")];
    Pick3(x[0], x[1], x[2], r);
    Pick3(y[0], y[1], y[2], r);
    Pick3(z[0], z[1], z[2], r);
    PickConcat(x, y, r);
    PickConcat(x + y, z, r);
  }

  lemma PickOpenGraph(ogType: string, url: string, title: string, description: string, image: string,
                      language: string, published: Option<string>, modified: Option<string>, r: Reader)
    ensures Pick(OpenGraphTags(ogType, url, title, description, image, language, published, modified), r) ==
              Pick(OpenGraphFixed(ogType, url, title, description, image, language), r) +
              Pick(OptionalMeta(ArticlePublishedTime, published), r) +
              Pick(OptionalMeta(ArticleModifiedTime, modified), r)
  {
    var o1 := OpenGraphFixed(ogType, url, title, description, image, language);
    var o2, o3 := OptionalMeta(ArticlePublishedTime, published), OptionalMeta(ArticleModifiedTime, modified);
    PickConcat(o1, o2, r);
    PickConcat(o1 + o2, o3, r);
  }

  lemma PickTwitter(url: string, title: string, description: string, image: string, r: Reader)
    ensures Pick(TwitterTags(url, title, description, image), r) ==
              (Read(r, Meta(TwitterCard, "summary_large_image")) + Read(r, Meta(TwitterUrl, url)) +
               Read(r, Meta(TwitterTitle, title))) +
              (Read(r, Meta(TwitterDescription, description)) + Read(r, Meta(TwitterImage, image)) +
               Read(r, Meta(TwitterCreator, "@DSEducation")))
  {
    var x := [Meta(TwitterCard, "summary_large_image"), Meta(TwitterUrl, url), Meta(TwitterTitle, title)];
    var y := [Meta(TwitterDescription, description), Meta(TwitterImage, image), Meta(TwitterCreator, "@DSEducation")];
    Pick3(x[0], x[1], x[2], r);
    Pick3(y[0], y[1], y[2], r);
    PickConcat(x, y, r);
  }

  lemma PickSchema(title: string, description: string, image: string, r: Reader)
    ensures Pick(SchemaTags(title, description, image), r) ==
              Read(r, Meta(SchemaName, title)) + Read(r, Meta(SchemaDescription, description)) +
              Read(r, Meta(SchemaImage, image))
  {
    Pick3(Meta(SchemaName, title), Meta(SchemaDescription, description), Meta(SchemaImage, image), r);
  }

  lemma PickScript(json: Option<string>, r: Reader)
    ensures Pick(StructuredDataTags(json), r) == if json.Some? then Read(r, JsonLd(json.value)) else []
  {
    if json.Some? {
      Pick1(JsonLd(json.value), r);
    }
  }

  /** Which part of the head writes a key: 0 the primary tags, 1 robots, 2 language, 4 Open Graph, 5 Twitter, 6 schema. */
  function Section(k: MetaKey): (i: nat)
    ensures i < 8
  {
    match k
    case Title | Description | Keywords | Author => 0
    case Robots => 1
    case Language => 2
    case OgType | OgUrl | OgTitle | OgDescription | OgImage | OgImageWidth | OgImageHeight | OgSiteName | OgLocale => 4
    case ArticlePublishedTime | ArticleModifiedTime => 4
    case TwitterCard | TwitterUrl | TwitterTitle | TwitterDescription | TwitterImage | TwitterCreator => 5
    case SchemaName | SchemaDescription | SchemaImage => 6
  }

  lemma RobotsMeta(noindex: bool, k: MetaKey)
    ensures Pick(RobotsTags(noindex), MetaContent(k)) == if k == Robots then [if noindex then RobotsNoIndex else RobotsIndex] else []
    ensures Section(k) != 1 ==> Pick(RobotsTags(noindex), MetaContent(k)) == []
  {
    PickRobots(noindex, MetaContent(k));
  }

  lemma LanguageMeta(language: string, k: MetaKey)
    ensures Pick(LanguageTags(language), MetaContent(k)) ==
              if k == Language then [if language == "kh" then "Khmer" else "English"] else []
    ensures Section(k) != 2 ==> Pick(LanguageTags(language), MetaContent(k)) == []
  {
    PickLanguage(language, MetaContent(k));
  }

  lemma LinksMeta(canonical: string, path: string, k: MetaKey)
    ensures Pick(LinkTags(canonical, path), MetaContent(k)) == []
  {
    PickLinks(canonical, path, MetaContent(k));
  }

  lemma ScriptMeta(json: Option<string>, k: MetaKey)
    ensures Pick(StructuredDataTags(json), MetaContent(k)) == []
  {
    PickScript(json, MetaContent(k));
  }

  lemma PrimaryMeta(title: string, description: string, keywords: string, author: string, k: MetaKey)
    ensures Section(k) != 0 ==> Pick(PrimaryTags(title, description, keywords, author), MetaContent(k)) == []
    ensures Pick(PrimaryTags(title, description, keywords, author), MetaContent(k)) ==
              match k
              case Title => [title]
              case Description => [description]
              case Keywords => [keywords]
              case Author => [author]
              case _ => []
  {
    PickPrimary(title, description, keywords, author, MetaContent(k));
  }

  /** The first three fixed Open Graph tags, read by one meta key. */
  lemma OgTypeUrlTitleMeta(ogType: string, url: string, title: string, k: MetaKey)
    ensures Pick([Meta(OgType, ogType), Meta(OgUrl, url), Meta(OgTitle, title)], MetaContent(k)) ==
              match k
              case OgType => [ogType]
              case OgUrl => [url]
              case OgTitle => [title]
              case _ => []
  {
    Pick3(Meta(OgType, ogType), Meta(OgUrl, url), Meta(OgTitle, title), MetaContent(k));
  }

  /** The next three fixed Open Graph tags, read by one meta key. */
  lemma OgDescriptionImageMeta(description: string, image: string, k: MetaKey)
    ensures Pick([Meta(OgDescription, description), Meta(OgImage, image), Meta(OgImageWidth, "1200")], MetaContent(k)) ==
              match k
              case OgDescription => [description]
              case OgImage => [image]
              case OgImageWidth => ["1200"]
              case _ => []
  {
    Pick3(Meta(OgDescription, description), Meta(OgImage, image), Meta(OgImageWidth, "1200"), MetaContent(k));
  }

  /** The last three fixed Open Graph tags, read by one meta key. */
  lemma OgSiteLocaleMeta(locale: string, k: MetaKey)
    ensures Pick([Meta(OgImageHeight, "630"), Meta(OgSiteName, "DS Education"), Meta(OgLocale, locale)], MetaContent(k)) ==
              match k
              case OgImageHeight => ["630"]
              case OgSiteName => ["DS Education"]
              case OgLocale => [locale]
              case _ => []
  {
    Pick3(Meta(OgImageHeight, "630"), Meta(OgSiteName, "DS Education"), Meta(OgLocale, locale), MetaContent(k));
  }

  /** The nine fixed Open Graph tags, read by one meta key. */
  lemma OpenGraphFixedMeta(ogType: string, url: string, title: string, description: string, image: string,
                           language: string, k: MetaKey)
    ensures Pick(OpenGraphFixed(ogType, url, title, description, image, language), MetaContent(k)) ==
              match k
              case OgType => [ogType]
              case OgUrl => [url]
              case OgTitle => [title]
              case OgDescription => [description]
              case OgImage => [image]
              case OgImageWidth => ["1200"]
              case OgImageHeight => ["630"]
              case OgSiteName => ["DS Education"]
              case OgLocale => [if language == "kh" then "km_KH" else "en_US"]
              case _ => []
  {
    var r, locale := MetaContent(k), if language == "kh" then "km_KH" else "en_US";
    var x := [Meta(OgType, ogType), Meta(OgUrl, url), Meta(OgTitle, title)];
    var y := [Meta(OgDescription, description), Meta(OgImage, image), Meta(OgImageWidth, "1200")];
    var z := [Meta(OgImageHeight, "630"), Meta(OgSiteName, "DS Education"), Meta(OgLocale, locale)];
    assert OpenGraphFixed(ogType, url, title, description, image, language) == x + y + z;
    PickConcat(x, y, r);
    PickConcat(x + y, z, r);
    OgTypeUrlTitleMeta(ogType, url, title, k);
    OgDescriptionImageMeta(description, image, k);
    OgSiteLocaleMeta(locale, k);
  }

  lemma OpenGraphMeta(ogType: string, url: string, title: string, description: string, image: string,
                      language: string, published: Option<string>, modified: Option<string>, k: MetaKey)
    ensures Section(k) != 4 ==>
              Pick(OpenGraphTags(ogType, url, title, description, image, language, published, modified), MetaContent(k)) == []
    ensures Pick(OpenGraphTags(ogType, url, title, description, image, language, published, modified), MetaContent(k)) ==
              match k
              case OgType => [ogType]
              case OgUrl => [url]
              case OgTitle => [title]
              case OgDescription => [description]
              case OgImage => [image]
              case OgImageWidth => ["1200"]
              case OgImageHeight => ["630"]
              case OgSiteName => ["DS Education"]
              case OgLocale => [if language == "kh" then "km_KH" else "en_US"]
              case ArticlePublishedTime => if Truthy(published) then [published.value] else []
              case ArticleModifiedTime => if Truthy(modified) then [modified.value] else []
              case _ => []
  {
    var r := MetaContent(k);
    var fixed := Pick(OpenGraphFixed(ogType, url, title, description, image, language), r);
    var pub := Pick(OptionalMeta(ArticlePublishedTime, published), r);
    var mod := Pick(OptionalMeta(ArticleModifiedTime, modified), r);
    assert k == ArticlePublishedTime || k == ArticleModifiedTime ==> fixed == [] by {
      OpenGraphFixedMeta(ogType, url, title, description, image, language, k);
    }
    assert pub == (if k == ArticlePublishedTime && Truthy(published) then [published.value] else []) by {
      PickOptional(ArticlePublishedTime, published, r);
    }
    assert mod == (if k == ArticleModifiedTime && Truthy(modified) then [modified.value] else []) by {
      PickOptional(ArticleModifiedTime, modified, r);
    }
    PickOpenGraph(ogType, url, title, description, image, language, published, modified, r);
    if k == ArticlePublishedTime || k == ArticleModifiedTime {
      assert fixed + pub + mod == pub + mod;
    } else {
      assert fixed + pub + mod == fixed;
      OpenGraphFixedMeta(ogType, url, title, description, image, language, k);
    }
  }

  lemma TwitterMeta(url: string, title: string, description: string, image: string, k: MetaKey)
    ensures Section(k) != 5 ==> Pick(TwitterTags(url, title, description, image), MetaContent(k)) == []
    ensures Pick(TwitterTags(url, title, description, image), MetaContent(k)) ==
              match k
              case TwitterCard => ["summary_large_image"]
              case TwitterUrl => [url]
              case TwitterTitle => [title]
              case TwitterDescription => [description]
              case TwitterImage => [image]
              case TwitterCreator => ["@DSEducation"]
              case _ => []
  {
    PickTwitter(url, title, description, image, MetaContent(k));
  }

  lemma SchemaMeta(title: string, description: string, image: string, k: MetaKey)
    ensures Section(k) != 6 ==> Pick(SchemaTags(title, description, image), MetaContent(k)) == []
    ensures Pick(SchemaTags(title, description, image), MetaContent(k)) ==
              match k
              case SchemaName => [title]
              case SchemaDescription => [description]
              case SchemaImage => [image]
              case _ => []
  {
    PickSchema(title, description, image, MetaContent(k));
  }

  /** The meta tags of the head as a table: what each key carries, and no entry for a key that is left out. */
  function ExpectedMeta(p: SeoProps, d: Defaults, language: string, k: MetaKey): seq<string>
  {
    var title := FullTitle(p, d);
    var description := OrElse(p.description, d.description);
    var url := FullUrl(p);
    var image := Coalesce(p.image, DefaultImage);
    match k
    case Title | OgTitle | TwitterTitle | SchemaName => [title]
    case Description | OgDescription | TwitterDescription | SchemaDescription => [description]
    case OgImage | TwitterImage | SchemaImage => [image]
    case OgUrl | TwitterUrl => [url]
    case Keywords => [OrElse(p.keywords, d.keywords)]
    case Author => [Coalesce(p.author, DefaultAuthor)]
    case Robots => [if Coalesce(p.noindex, false) then RobotsNoIndex else RobotsIndex]
    case Language => [if language == "kh" then "Khmer" else "English"]
    case OgType => [Coalesce(p.ogType, DefaultType)]
    case OgImageWidth => ["1200"]
    case OgImageHeight => ["630"]
    case OgSiteName => ["DS Education"]
    case OgLocale => [if language == "kh" then "km_KH" else "en_US"]
    case ArticlePublishedTime => if Truthy(p.publishedTime) then [p.publishedTime.value] else []
    case ArticleModifiedTime => if Truthy(p.modifiedTime) then [p.modifiedTime.value] else []
    case TwitterCard => ["summary_large_image"]
    case TwitterCreator => ["@DSEducation"]
  }

  /** Eight readings of which all but the `i`th are empty concatenate to the `i`th. */
  lemma OneNonEmpty(parts: seq<seq<string>>, i: nat)
    requires |parts| == 8 && i < 8
    requires forall j :: 0 <= j < 8 && j != i ==> parts[j] == []
    ensures parts[0] + parts[1] + parts[2] + parts[3] + parts[4] + parts[5] + parts[6] + parts[7] == parts[i]
  {
    var x := parts[i];
    assert parts[0] + parts[1] == if i <= 1 then x else [];
    assert parts[0] + parts[1] + parts[2] == if i <= 2 then x else [];
    assert parts[0] + parts[1] + parts[2] + parts[3] == if i <= 3 then x else [];
    assert parts[0] + parts[1] + parts[2] + parts[3] + parts[4] == if i <= 4 then x else [];
    assert parts[0] + parts[1] + parts[2] + parts[3] + parts[4] + parts[5] == if i <= 5 then x else [];
    assert parts[0] + parts[1] + parts[2] + parts[3] + parts[4] + parts[5] + parts[6] == if i <= 6 then x else [];
  }

  /** The `i`th of the eight segments the head lists, in order. */
  function Segment(p: SeoProps, d: Defaults, language: string, windowPath: Option<string>, i: nat): seq<Tag>
    requires i < 8
  {
    var title := FullTitle(p, d);
    var description := OrElse(p.description, d.description);
    var url := FullUrl(p);
    var image := Coalesce(p.image, DefaultImage);
    if i == 0 then PrimaryTags(title, description, OrElse(p.keywords, d.keywords), Coalesce(p.author, DefaultAuthor))
    else if i == 1 then RobotsTags(Coalesce(p.noindex, false))
    else if i == 2 then LanguageTags(language)
    else if i == 3 then LinkTags(CanonicalUrl(p), CurrentPath(windowPath))
    else if i == 4 then OpenGraphTags(Coalesce(p.ogType, DefaultType), url, title, description, image, language,
                                      p.publishedTime, p.modifiedTime)
    else if i == 5 then TwitterTags(url, title, description, image)
    else if i == 6 then SchemaTags(title, description, image)
    else StructuredDataTags(p.structuredData)
  }

  /** A meta key is written only by its own segment: every other segment reads empty. */
  lemma OtherSegmentsSilent(p: SeoProps, d: Defaults, language: string, windowPath: Option<string>, k: MetaKey, j: nat)
    requires j < 8 && j != Section(k)
    ensures Pick(Segment(p, d, language, windowPath, j), MetaContent(k)) == []
  {
    var title := FullTitle(p, d);
    var description := OrElse(p.description, d.description);
    var url := FullUrl(p);
    var image := Coalesce(p.image, DefaultImage);
    if j == 0 {
      PrimaryMeta(title, description, OrElse(p.keywords, d.keywords), Coalesce(p.author, DefaultAuthor), k);
    } else if j == 1 {
      RobotsMeta(Coalesce(p.noindex, false), k);
    } else if j == 2 {
      LanguageMeta(language, k);
    } else if j == 3 {
      LinksMeta(CanonicalUrl(p), CurrentPath(windowPath), k);
    } else if j == 4 {
      OpenGraphMeta(Coalesce(p.ogType, DefaultType), url, title, description, image, language,
                    p.publishedTime, p.modifiedTime, k);
    } else if j == 5 {
      TwitterMeta(url, title, description, image, k);
    } else if j == 6 {
      SchemaMeta(title, description, image, k);
    } else {
      ScriptMeta(p.structuredData, k);
    }
  }

  /** The segment that writes a meta key carries the table's entry for it. */
  lemma OwnSegmentMeta(p: SeoProps, d: Defaults, language: string, windowPath: Option<string>, k: MetaKey)
    ensures Pick(Segment(p, d, language, windowPath, Section(k)), MetaContent(k)) == ExpectedMeta(p, d, language, k)
  {
    var title := FullTitle(p, d);
    var description := OrElse(p.description, d.description);
    var url := FullUrl(p);
    var image := Coalesce(p.image, DefaultImage);
    if Section(k) == 0 {
      PrimaryMeta(title, description, OrElse(p.keywords, d.keywords), Coalesce(p.author, DefaultAuthor), k);
    } else if Section(k) == 1 {
      RobotsMeta(Coalesce(p.noindex, false), k);
    } else if Section(k) == 2 {
      LanguageMeta(language, k);
    } else if Section(k) == 4 {
      OpenGraphMeta(Coalesce(p.ogType, DefaultType), url, title, description, image, language,
                    p.publishedTime, p.modifiedTime, k);
    } else if Section(k) == 5 {
      TwitterMeta(url, title, description, image, k);
    } else {
      SchemaMeta(title, description, image, k);
    }
  }

  /** Reading the head by any meta key gives the table's entry: every key is written at most once. */
  lemma HeadMeta(p: SeoProps, d: Defaults, language: string, windowPath: Option<string>, k: MetaKey)
    ensures Pick(HeadTags(p, d, language, windowPath), MetaContent(k)) == ExpectedMeta(p, d, language, k)
  {
    var r := MetaContent(k);
    var parts := seq(8, j requires 0 <= j < 8 => Pick(Segment(p, d, language, windowPath, j), r));
    forall j | 0 <= j < 8 && j != Section(k) ensures parts[j] == [] {
      OtherSegmentsSilent(p, d, language, windowPath, k, j);
    }
    OneNonEmpty(parts, Section(k));
    OwnSegmentMeta(p, d, language, windowPath, k);
    HeadSegments(p, d, language, windowPath, r);
  }

  /** Only the title tag of the primary tags, and only the html lang of the language tags, reach a reader not after meta content. */
  lemma PrimaryLanguageNonMeta(title: string, description: string, keywords: string, author: string, language: string,
                               r: Reader)
    requires !r.MetaContent?
    ensures Pick(PrimaryTags(title, description, keywords, author), r) == Read(r, TitleTag(title))
    ensures Pick(LanguageTags(language), r) == Read(r, HtmlLang(language))
  {
    PickPrimary(title, description, keywords, author, r);
    PickLanguage(language, r);
  }

  /** Open Graph tags are all meta tags: a reader not after meta content finds nothing there. */
  lemma OpenGraphSilent(ogType: string, url: string, title: string, description: string, image: string,
                        language: string, published: Option<string>, modified: Option<string>, r: Reader)
    requires !r.MetaContent?
    ensures Pick(OpenGraphTags(ogType, url, title, description, image, language, published, modified), r) == []
  {
    PickOpenGraph(ogType, url, title, description, image, language, published, modified, r);
    PickOpenGraphFixed(ogType, url, title, description, image, language, r);
    PickOptional(ArticlePublishedTime, published, r);
    PickOptional(ArticleModifiedTime, modified, r);
  }

  /** Robots, Twitter and schema tags are all meta tags: a reader not after meta content finds nothing there. */
  lemma MetaSectionsSilent(noindex: bool, url: string, title: string, description: string, image: string, r: Reader)
    requires !r.MetaContent?
    ensures Pick(RobotsTags(noindex), r) == []
    ensures Pick(TwitterTags(url, title, description, image), r) == []
    ensures Pick(SchemaTags(title, description, image), r) == []
  {
    PickRobots(noindex, r);
    PickTwitter(url, title, description, image, r);
    PickSchema(title, description, image, r);
  }

  /** The head read by a reader that is not after meta content: only the title, html, link and script tags count. */
  lemma HeadNonMeta(p: SeoProps, d: Defaults, language: string, windowPath: Option<string>, r: Reader)
    requires !r.MetaContent?
    ensures Pick(HeadTags(p, d, language, windowPath), r) ==
              Read(r, TitleTag(FullTitle(p, d))) + Read(r, HtmlLang(language)) +
              Pick(LinkTags(CanonicalUrl(p), CurrentPath(windowPath)), r) + Pick(StructuredDataTags(p.structuredData), r)
  {
    var title := FullTitle(p, d);
    var description := OrElse(p.description, d.description);
    var url := FullUrl(p);
    var image := Coalesce(p.image, DefaultImage);
    PrimaryLanguageNonMeta(title, description, OrElse(p.keywords, d.keywords), Coalesce(p.author, DefaultAuthor),
                           language, r);
    MetaSectionsSilent(Coalesce(p.noindex, false), url, title, description, image, r);
    OpenGraphSilent(Coalesce(p.ogType, DefaultType), url, title, description, image, language,
                    p.publishedTime, p.modifiedTime, r);
    HeadSegments(p, d, language, windowPath, r);
    var a, c := Read(r, TitleTag(title)), Read(r, HtmlLang(language));
    var l := Pick(LinkTags(CanonicalUrl(p), CurrentPath(windowPath)), r);
    assert a + [] + c == a + c;
    assert a + [] + c + l + [] == a + c + l;
    assert a + [] + c + l + [] + [] + [] == a + c + l;
  }

  /** The head read by a reader not after meta content, with the link and script tags spelled out. */
  lemma ReadLinksAndScript(p: SeoProps, d: Defaults, language: string, windowPath: Option<string>, r: Reader)
    requires !r.MetaContent?
    ensures var path := CurrentPath(windowPath);
            Pick(HeadTags(p, d, language, windowPath), r) ==
              Read(r, TitleTag(FullTitle(p, d))) + Read(r, HtmlLang(language)) +
              (Read(r, LinkTag("canonical", None, CanonicalUrl(p))) +
               Read(r, LinkTag("alternate", Some("en"), SiteUrl + path)) +
               Read(r, LinkTag("alternate", Some("km"), SiteUrl + path + "?lang=kh")) +
               Read(r, LinkTag("alternate", Some("x-default"), SiteUrl + path))) +
              (if p.structuredData.Some? then Read(r, JsonLd(p.structuredData.value)) else [])
  {
    HeadNonMeta(p, d, language, windowPath, r);
    PickLinks(CanonicalUrl(p), CurrentPath(windowPath), r);
    PickScript(p.structuredData, r);
  }

  /** A meta key whose table entry is `v` reads `v` from the head. */
  lemma MetaIs(p: SeoProps, d: Defaults, language: string, windowPath: Option<string>, k: MetaKey, v: seq<string>)
    requires ExpectedMeta(p, d, language, k) == v
    ensures Pick(HeadTags(p, d, language, windowPath), MetaContent(k)) == v
  {
    HeadMeta(p, d, language, windowPath, k);
  }

  // What the head promises.

  /** A non-empty title gets the site suffix; a missing or empty one gives the default title. */
  lemma TitleSuffixed(p: SeoProps, d: Defaults)
    ensures Truthy(p.title) ==> StartsWith(FullTitle(p, d), p.title.value) &&
                                FullTitle(p, d)[|p.title.value|..] == TitleSuffix
    ensures !Truthy(p.title) ==> FullTitle(p, d) == d.title
  {
    if Truthy(p.title) {
      assert FullTitle(p, d)[..|p.title.value|] == p.title.value;
    }
  }

  /** The title tag, the title meta, `og:title`, `twitter:title` and the schema name each occur once, all with the full title. */
  lemma TitlesAgree(p: SeoProps, d: Defaults, language: string, windowPath: Option<string>, k: MetaKey)
    requires k in {Title, OgTitle, TwitterTitle, SchemaName}
    ensures Pick(HeadTags(p, d, language, windowPath), TitleText) == [FullTitle(p, d)]
    ensures Pick(HeadTags(p, d, language, windowPath), MetaContent(k)) == [FullTitle(p, d)]
  {
    ReadLinksAndScript(p, d, language, windowPath, TitleText);
    MetaIs(p, d, language, windowPath, k, [FullTitle(p, d)]);
  }

  /**
   * The description, `og:description`, `twitter:description` and the schema
   * description each occur once, all with the description prop, or the
   * default when it is missing or empty.
   */
  lemma DescriptionsAgree(p: SeoProps, d: Defaults, language: string, windowPath: Option<string>, k: MetaKey)
    requires k in {Description, OgDescription, TwitterDescription, SchemaDescription}
    ensures Pick(HeadTags(p, d, language, windowPath), MetaContent(k)) ==
              [if Truthy(p.description) then p.description.value else d.description]
  {
    MetaIs(p, d, language, windowPath, k, [OrElse(p.description, d.description)]);
  }

  /** The keywords meta occurs once, with the keywords prop, or the default when it is missing or empty. */
  lemma KeywordsFallBack(p: SeoProps, d: Defaults, language: string, windowPath: Option<string>)
    ensures Pick(HeadTags(p, d, language, windowPath), MetaContent(Keywords)) ==
              [if Truthy(p.keywords) then p.keywords.value else d.keywords]
  {
    MetaIs(p, d, language, windowPath, Keywords, [OrElse(p.keywords, d.keywords)]);
  }

  /** `og:image`, `twitter:image` and the schema image each occur once, with the image prop or the default image. */
  lemma ImagesAgree(p: SeoProps, d: Defaults, language: string, windowPath: Option<string>, k: MetaKey)
    requires k in {OgImage, TwitterImage, SchemaImage}
    ensures Pick(HeadTags(p, d, language, windowPath), MetaContent(k)) ==
              [if p.image.Some? then p.image.value else DefaultImage]
  {
    MetaIs(p, d, language, windowPath, k, [Coalesce(p.image, DefaultImage)]);
  }

  /**
   * `og:url` and `twitter:url` each occur once, with the site URL followed by
   * the url prop (the bare site URL when it is missing or empty); the one
   * canonical link points at the canonical prop, or at that page URL.
   */
  lemma UrlsAgree(p: SeoProps, d: Defaults, language: string, windowPath: Option<string>, k: MetaKey)
    requires k in {OgUrl, TwitterUrl}
    ensures var page := if Truthy(p.url) then SiteUrl + p.url.value else SiteUrl;
            Pick(HeadTags(p, d, language, windowPath), MetaContent(k)) == [page] &&
            Pick(HeadTags(p, d, language, windowPath), CanonicalHref) ==
              [if Truthy(p.canonical) then p.canonical.value else page]
    ensures StartsWith(FullUrl(p), SiteUrl)
  {
    MetaIs(p, d, language, windowPath, k, [FullUrl(p)]);
    ReadLinksAndScript(p, d, language, windowPath, CanonicalHref);
    assert FullUrl(p)[..|SiteUrl|] == SiteUrl;
  }

  /** Exactly three alternate links, `en`, `km` and `x-default`, in that order. */
  lemma AlternateLanguages(p: SeoProps, d: Defaults, language: string, windowPath: Option<string>)
    ensures Pick(HeadTags(p, d, language, windowPath), HrefLangs) == ["en", "km", "x-default"]
  {
    ReadLinksAndScript(p, d, language, windowPath, HrefLangs);
  }

  /**
   * The `en` and `x-default` alternates point at the current path on the
   * site, the `km` one at the same URL followed by `?lang=kh`.
   */
  lemma Alternates(p: SeoProps, d: Defaults, language: string, windowPath: Option<string>)
    ensures var tags := HeadTags(p, d, language, windowPath);
            var here := SiteUrl + CurrentPath(windowPath);
            Pick(tags, AlternateHref("en")) == [here] &&
            Pick(tags, AlternateHref("km")) == [here + "?lang=kh"] &&
            Pick(tags, AlternateHref("x-default")) == [here]
  {
    ReadLinksAndScript(p, d, language, windowPath, AlternateHref("en"));
    ReadLinksAndScript(p, d, language, windowPath, AlternateHref("km"));
    ReadLinksAndScript(p, d, language, windowPath, AlternateHref("x-default"));
  }

  /** The one robots meta forbids indexing exactly when `noindex` is true; left out, it allows indexing. */
  lemma RobotsFollowNoindex(p: SeoProps, d: Defaults, language: string, windowPath: Option<string>)
    ensures Pick(HeadTags(p, d, language, windowPath), MetaContent(Robots)) ==
              [if p.noindex == Some(true) then RobotsNoIndex else RobotsIndex]
  {
    MetaIs(p, d, language, windowPath, Robots, [if p.noindex == Some(true) then RobotsNoIndex else RobotsIndex]);
  }

  /**
   * The html element takes the active language; the language meta says
   * Khmer and the Open Graph locale is `km_KH` exactly when that language is
   * `kh`, and English and `en_US` otherwise.
   */
  lemma LanguageFollowsActive(p: SeoProps, d: Defaults, language: string, windowPath: Option<string>)
    ensures Pick(HeadTags(p, d, language, windowPath), DocumentLang) == [language]
    ensures Pick(HeadTags(p, d, language, windowPath), MetaContent(Language)) ==
              [if language == "kh" then "Khmer" else "English"]
    ensures Pick(HeadTags(p, d, language, windowPath), MetaContent(OgLocale)) ==
              [if language == "kh" then "km_KH" else "en_US"]
  {
    var tags := HeadTags(p, d, language, windowPath);
    assert Pick(tags, DocumentLang) == [language] by { ReadLinksAndScript(p, d, language, windowPath, DocumentLang); }
    MetaIs(p, d, language, windowPath, Language, [if language == "kh" then "Khmer" else "English"]);
    MetaIs(p, d, language, windowPath, OgLocale, [if language == "kh" then "km_KH" else "en_US"]);
  }

  /** Each article time is written once when it is given and non-empty, and not at all otherwise. */
  lemma ArticleTimesWhenGiven(p: SeoProps, d: Defaults, language: string, windowPath: Option<string>, k: MetaKey)
    requires k in {ArticlePublishedTime, ArticleModifiedTime}
    ensures var time := if k == ArticlePublishedTime then p.publishedTime else p.modifiedTime;
            Pick(HeadTags(p, d, language, windowPath), MetaContent(k)) == if Truthy(time) then [time.value] else []
  {
    var time := if k == ArticlePublishedTime then p.publishedTime else p.modifiedTime;
    MetaIs(p, d, language, windowPath, k, if Truthy(time) then [time.value] else []);
  }

  /** A structured-data script is written once when structured data is given, and not at all otherwise. */
  lemma StructuredDataWhenGiven(p: SeoProps, d: Defaults, language: string, windowPath: Option<string>)
    ensures Pick(HeadTags(p, d, language, windowPath), ScriptJson) ==
              if p.structuredData.Some? then [p.structuredData.value] else []
  {
    ReadLinksAndScript(p, d, language, windowPath, ScriptJson);
  }
}
