/**
 * The sitemap (src/app/sitemap.ts): the home page followed by one entry per project page.
 * The `lastModified` timestamps (the build's current date) are not modelled.
 */
module Sitemap {
  import opened Decimal
  import opened Catalog

  /** The `changeFrequency` values a sitemap entry may take. */
  datatype ChangeFrequency = Always | Hourly | Daily | Weekly | Monthly | Yearly | Never

  datatype SitemapEntry = SitemapEntry(url: string, changeFrequency: ChangeFrequency, priority: real)

  /** The site's base URL. */
  const BaseUrl: string := "https://romeroarchitects.com"

  /** The number of project pages the sitemap lists. */
  const ProjectPageCount: nat := 11

  /** The static pages: only the home page. */
  function StaticPages(baseUrl: string): seq<SitemapEntry>
  {
    [SitemapEntry(baseUrl, Monthly, 1.0)]
  }

  /** The project pages, `/project-1` to `/project-11`. */
  function ProjectPages(baseUrl: string): seq<SitemapEntry>
  {
    seq(ProjectPageCount, i requires 0 <= i < ProjectPageCount =>
      SitemapEntry(baseUrl + "/project-" + Dec(i + 1), Monthly, 0.7))
  }

  /** The sitemap for `baseUrl`. */
  function SitemapFor(baseUrl: string): (r: seq<SitemapEntry>)
    ensures |r| == 1 + ProjectPageCount
    ensures r[0] == SitemapEntry(baseUrl, Monthly, 1.0)
  {
    StaticPages(baseUrl) + ProjectPages(baseUrl)
  }

  /** The sitemap the site publishes. */
  function Sitemap(): (r: seq<SitemapEntry>)
    ensures |r| == 12 && r[0].url == "https://romeroarchitects.com" && r[0].priority == 1.0
  {
    SitemapFor(BaseUrl)
  }

  /** Twelve entries: the home page with priority 1, then the eleven project pages with priority 0.7. */
  lemma SitemapShape(baseUrl: string)
    ensures var r := SitemapFor(baseUrl);
      && |r| == 1 + ProjectPageCount
      && r[0].url == baseUrl && r[0].priority == 1.0
      && (forall k :: 1 <= k < |r| ==> r[k].url == baseUrl + "/project-" + Dec(k) && r[k].priority == 0.7)
      && (forall k :: 0 <= k < |r| ==> r[k].changeFrequency == Monthly)
  {
  }

  /** Every URL begins with the base URL, and no two project pages share a URL. */
  lemma {:induction false} UrlsDistinctUnderBase(baseUrl: string)
    ensures var r := SitemapFor(baseUrl);
      && (forall k :: 0 <= k < |r| ==> baseUrl <= r[k].url)
      && (forall j, k :: 1 <= j < k < |r| ==> r[j].url != r[k].url)
  {
    var r := SitemapFor(baseUrl);
    var prefix := baseUrl + "/project-";
    forall k | 0 <= k < |r| ensures baseUrl <= r[k].url {
      if k > 0 {
        assert r[k].url == baseUrl + ("/project-" + Dec(k));
      }
    }
    forall j, k | 1 <= j < k < |r| ensures r[j].url != r[k].url {
      if r[j].url == r[k].url {
        assert r[j].url == prefix + Dec(j) && r[k].url == prefix + Dec(k);
        assert Dec(j) == r[j].url[|prefix|..];
        assert Dec(k) == r[k].url[|prefix|..];
        DecInjective(j, k);
      }
    }
  }

  /** The project URLs are the base URL followed by each catalog record's link, in catalog order. */
  lemma UrlsFollowCatalog(baseUrl: string)
    ensures |SitemapFor(baseUrl)| == 1 + |Projects()|
    ensures forall k :: 0 <= k < |Projects()| ==> SitemapFor(baseUrl)[k + 1].url == baseUrl + Projects()[k].link
  {
    CatalogShape();
    forall k | 0 <= k < |Projects()| ensures SitemapFor(baseUrl)[k + 1].url == baseUrl + Projects()[k].link {
      assert Projects()[k].link == "/project-" + Dec(k + 1);
      assert baseUrl + "/project-" + Dec(k + 1) == baseUrl + ("/project-" + Dec(k + 1));
    }
  }
}
