/**
 * The page metadata of the front end: the document title, the canonical URL,
 * the Open Graph and Twitter tags, derived from a page's title and optional
 * description, keywords, image, URL and type.
 */
module Seo {
  import opened Records
  import opened Text

  const SiteOrigin := "https://medyordam.uz"
  const TitleSuffix := " | MedYordam"
  const DefaultDescription := "MedYordam - Shifokorlar uchun tez va ishonchli bemor tibbiy tarixini ko'rish tizimi"
  const DefaultKeywords := "medyordam, tibbiy yordam, bemor tarixi, shifokor, tez tibbiy yordam, uzbekistan, medical, emergency, patient history"
  const DefaultImage := "https://medyordam.uz/og-image.png"
  const DefaultType := "website"

  /** The component's properties; `None` is a property left out, which takes its default. */
  datatype SeoProps = SeoProps(
    title: string,
    description: Option<string>,
    keywords: Option<string>,
    image: Option<string>,
    url: Option<string>,
    pageType: Option<string>)

  /** The tags rendered into the document head (the fixed ones included). */
  datatype HeadTags = HeadTags(
    lang: string,
    title: string,
    description: string,
    keywords: string,
    robots: string,
    canonical: string,
    ogType: string,
    ogTitle: string,
    ogDescription: string,
    ogImage: string,
    ogImageWidth: string,
    ogImageHeight: string,
    ogUrl: string,
    ogSiteName: string,
    ogLocale: string,
    twitterCard: string,
    twitterTitle: string,
    twitterDescription: string,
    twitterImage: string)

  /** `${title} | MedYordam`: the page title followed by the site suffix. */
  function SiteTitle(title: string): (r: string)
    ensures |r| == |title| + |TitleSuffix|
    ensures r[..|title|] == title && r[|title|..] == TitleSuffix
  {
    title + TitleSuffix
  }

  /** Different page titles give different site titles. */
  lemma SiteTitleInjective(a: string, b: string)
    requires SiteTitle(a) == SiteTitle(b)
    ensures a == b
  {
    assert a == SiteTitle(a)[..|a|];
  }

  /**
   * The canonical URL: the `url` property when it is truthy, otherwise the
   * page's own address (`location`), or the site origin when there is no window.
   */
  function CanonicalUrl(url: Option<string>, location: Option<string>): (r: string)
    ensures Truthy(url) ==> r == url.value
    ensures !Truthy(url) && location.Some? ==> r == location.value
    ensures !Truthy(url) && location.None? ==> r == SiteOrigin
  {
    if url.Some? && url.value != "" then url.value
    else if location.Some? then location.value
    else SiteOrigin
  }

  /** An image that starts with "http" is used as it is; any other is a path on the site. */
  function FullImageUrl(image: string): (r: string)
    ensures StartsWith(r, "http")
    ensures StartsWith(image, "http") ==> r == image
    ensures !StartsWith(image, "http") ==> r == SiteOrigin + image
  {
    if StartsWith(image, "http") then image else SiteOrigin + image
  }

  /** Making an image URL absolute twice is making it absolute once. */
  lemma FullImageUrlIdempotent(image: string)
    ensures FullImageUrl(FullImageUrl(image)) == FullImageUrl(image)
  {
  }

  /** The `og:locale` of the interface language. */
  function OgLocale(language: string): (r: string)
    ensures r in {"uz_UZ", "ru_RU", "en_US"}
    ensures r == "uz_UZ" <==> language == "uz"
    ensures r == "ru_RU" <==> language == "ru"
  {
    if language == "uz" then "uz_UZ" else if language == "ru" then "ru_RU" else "en_US"
  }

  /**
   * The head of a page: `language` is the interface language and `location`
   * the page's address, `None` when rendered without a window.
   */
  function Head(props: SeoProps, language: string, location: Option<string>): (h: HeadTags)
    ensures h.title == SiteTitle(props.title) && h.ogTitle == h.title && h.twitterTitle == h.title
    ensures h.ogImage == FullImageUrl(props.image.GetOr(DefaultImage)) && h.twitterImage == h.ogImage
    ensures h.canonical == CanonicalUrl(props.url, location) && h.ogUrl == h.canonical
    ensures h.description == props.description.GetOr(DefaultDescription)
    ensures h.ogDescription == h.description && h.twitterDescription == h.description
    ensures h.keywords == props.keywords.GetOr(DefaultKeywords)
    ensures h.ogType == props.pageType.GetOr(DefaultType)
    ensures h.ogLocale == OgLocale(language) && h.lang == language
    ensures h.robots == "index, follow" && h.ogSiteName == "MedYordam"
    ensures h.ogImageWidth == "1200" && h.ogImageHeight == "630"
    ensures h.twitterCard == "summary_large_image"
  {
    var description := props.description.GetOr(DefaultDescription);
    var keywords := props.keywords.GetOr(DefaultKeywords);
    var image := props.image.GetOr(DefaultImage);
    var pageType := props.pageType.GetOr(DefaultType);
    var siteTitle := SiteTitle(props.title);
    var canonicalUrl := CanonicalUrl(props.url, location);
    var fullImageUrl := FullImageUrl(image);
    HeadTags(
      language, siteTitle, description, keywords, "index, follow", canonicalUrl,
      pageType, siteTitle, description, fullImageUrl, "1200", "630", canonicalUrl, "MedYordam",
      OgLocale(language),
      "summary_large_image", siteTitle, description, fullImageUrl)
  }

  /**
   * A page that gives only its title gets the default description, keywords,
   * image and type; the default image is already absolute. A property given
   * as the empty string is kept, since defaults replace only left-out ones.
   */
  lemma HeadDefaults(title: string, language: string, location: Option<string>)
    ensures var h := Head(SeoProps(title, None, None, None, None, None), language, location);
      && h.description == DefaultDescription && h.keywords == DefaultKeywords
      && h.ogImage == DefaultImage && h.ogType == "website"
      && h.canonical == (if location.Some? then location.value else "https://medyordam.uz")
    ensures Head(SeoProps(title, Some(""), None, None, None, None), language, location).description == ""
  {
    assert StartsWith(DefaultImage, "http") by {
      assert DefaultImage[..4] == "http";
    }
  }
}
