/** The sitemap of apps/web/src/app/sitemap.ts: nine static pages followed
    by one entry per article, the articles coming from the CMS when it
    answers, and nothing more when it does not. */
module Sitemap {
  import opened Http

  const DEFAULT_SITE_URL := "https://retispec.com"
  const DEFAULT_STRAPI_URL := "http://localhost:1337"

  /** The three environment variables the sitemap reads. */
  datatype Env = Env(siteUrl: Option<string>, strapiUrl: Option<string>, apiToken: Option<string>)

  function SiteUrl(env: Env): (r: string)
    ensures r != ""
  {
    OrElse(env.siteUrl, DEFAULT_SITE_URL)
  }

  datatype ChangeFrequency = Weekly | Monthly | Yearly

  /** A sitemap entry; the priority is kept in tenths (0.7 is 7). */
  datatype Entry = Entry(url: string, changeFrequency: ChangeFrequency, priorityTenths: nat)

  /** The two fields the sitemap asks the CMS for. */
  datatype ArticleRef = ArticleRef(slug: string, updatedAt: string)

  /** The static pages, in declared order. */
  function StaticPages(site: string): (r: seq<Entry>)
    ensures |r| == 9
    ensures forall i :: 0 <= i < |r| ==> r[i].priorityTenths <= 10
  {
    [
      Entry(site, Weekly, 10),
      Entry(site + "/solution", Monthly, 8),
      Entry(site + "/team", Monthly, 7),
      Entry(site + "/careers", Weekly, 7),
      Entry(site + "/contact", Monthly, 7),
      Entry(site + "/news", Weekly, 8),
      Entry(site + "/members", Monthly, 5),
      Entry(site + "/courses", Monthly, 5),
      Entry(site + "/privacy-policy", Yearly, 3)
    ]
  }

  /** The request for the article list: slugs and update times, newest
      update first, with a one-hour freshness window and no cache tag. */
  function ArticlesRequest(env: Env): (r: FetchRequest)
    ensures r.tags.None? && r.revalidate == 3600
    ensures "Bearer " <= r.authorization
  {
    FetchRequest(
      OrElse(env.strapiUrl, DEFAULT_STRAPI_URL) + "/api/articles?fields[0]=slug&fields[1]=updatedAt&sort=updatedAt:desc",
      "Bearer " + OrElse(env.apiToken, ""),
      None,
      3600)
  }

  function ArticleEntry(site: string, article: ArticleRef): Entry
  {
    Entry(site + "/news/" + article.slug, Weekly, 6)
  }

  /** `(json.data || []).map(article => ...)` */
  function ArticleEntries(site: string, articles: seq<ArticleRef>): (r: seq<Entry>)
    ensures |r| == |articles|
    ensures forall i :: 0 <= i < |articles| ==>
      r[i].url == site + "/news/" + articles[i].slug && r[i].changeFrequency == Weekly && r[i].priorityTenths == 6
  {
    if articles == [] then []
    else [ArticleEntry(site, articles[0])] + ArticleEntries(site, articles[1..])
  }

  /** The article entries: none when `fetch` rejects, the reply is not ok,
      or its body does not decode (the `catch` swallows that too). */
  function ArticlePages(site: string, reply: Result<HttpResponse<ArticleRef>>): (r: seq<Entry>)
    ensures reply.Err? || !reply.value.ok || reply.value.json.None? ==> r == []
    ensures reply.Ok? && reply.value.ok && reply.value.json.Some? && reply.value.json.value.data.Some? ==>
      |r| == |reply.value.json.value.data.value|
    ensures reply.Ok? && reply.value.ok && reply.value.json.Some? && reply.value.json.value.data.None? ==> r == []
    ensures forall i :: 0 <= i < |r| ==> r[i].changeFrequency == Weekly && r[i].priorityTenths == 6
  {
    if reply.Ok? && reply.value.ok && reply.value.json.Some? then
      var data := reply.value.json.value.data;
      ArticleEntries(site, if data.Some? then data.value else [])
    else []
  }

  /** `sitemap()` */
  function BuildSitemap(env: Env, transport: Transport<ArticleRef>): (r: seq<Entry>)
    ensures |r| >= 9
    ensures r[..9] == StaticPages(SiteUrl(env))
  {
    StaticPages(SiteUrl(env)) + ArticlePages(SiteUrl(env), transport(ArticlesRequest(env)))
  }

  // --- Properties ---

  lemma ConcatCancel(a: string, b: string, c: string)
    requires a + b == a + c
    ensures b == c
  {
    assert b == (a + b)[|a|..];
    assert c == (a + c)[|a|..];
  }

  /** Nine static entries: the first is the site URL itself, every one
      starts with it, and no two share a URL. */
  lemma StaticPagesShape(site: string)
    ensures |StaticPages(site)| == 9
    ensures StaticPages(site)[0].url == site
    ensures forall i :: 0 <= i < 9 ==> site <= StaticPages(site)[i].url
    ensures forall i, j :: 0 <= i < j < 9 ==> StaticPages(site)[i].url != StaticPages(site)[j].url
  {
    var pages := StaticPages(site);
    var suffixes := ["", "/solution", "/team", "/careers", "/contact", "/news", "/members", "/courses", "/privacy-policy"];
    forall i | 0 <= i < 9
      ensures pages[i].url == site + suffixes[i]
      ensures site <= pages[i].url
    {
      assert (site + suffixes[i])[..|site|] == site;
    }
    forall i, j | 0 <= i < j < 9
      ensures pages[i].url != pages[j].url
    {
      if pages[i].url == pages[j].url {
        ConcatCancel(site, suffixes[i], suffixes[j]);
      }
    }
  }

  /** A rejected fetch or a reply that is not ok gives exactly the static
      entries. */
  lemma FailureGivesStaticOnly(env: Env, transport: Transport<ArticleRef>)
    requires transport(ArticlesRequest(env)).Err? || !transport(ArticlesRequest(env)).value.ok
    ensures BuildSitemap(env, transport) == StaticPages(SiteUrl(env))
  {
  }

  /** An ok reply: the static entries, then one entry per returned article
      in the order of the data; missing `data` gives no article entry. */
  lemma SuccessAppendsArticles(env: Env, transport: Transport<ArticleRef>)
    requires transport(ArticlesRequest(env)).Ok?
    requires transport(ArticlesRequest(env)).value.ok
    requires transport(ArticlesRequest(env)).value.json.Some?
    ensures var data := transport(ArticlesRequest(env)).value.json.value.data;
      var articles := if data.Some? then data.value else [];
      var r := BuildSitemap(env, transport);
      && |r| == 9 + |articles|
      && r[9..] == ArticleEntries(SiteUrl(env), articles)
      && (data.None? ==> r == StaticPages(SiteUrl(env)))
  {
  }
}
