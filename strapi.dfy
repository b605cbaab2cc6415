/** The typed content client of apps/web/src/lib/strapi.ts: one query per
    `get*` accessor, the request each one sends (URL, bearer header, cache
    tags, freshness window), how a reply is settled into an envelope or an
    error, and how the single-record and site-configuration accessors shape
    the envelope they get back. */
module Strapi {
  import opened Http

  const DEFAULT_STRAPI_URL := "http://localhost:1337"
  /** Freshness window, in seconds, used when the caller supplies none. */
  const DEFAULT_REVALIDATE := 3600

  /** The two environment variables the client reads. */
  datatype Env = Env(strapiUrl: Option<string>, apiToken: Option<string>)

  function BaseUrl(env: Env): string
  {
    OrElse(env.strapiUrl, DEFAULT_STRAPI_URL)
  }

  function ApiToken(env: Env): string
  {
    OrElse(env.apiToken, "")
  }

  // --- Content types ---

  /** A JSON object (`Record<string, unknown>`), its values kept as JSON text. */
  type JsonObject = map<string, string>

  datatype Section = Team | Board

  function SectionName(s: Section): string
  {
    match s
    case Team => "team"
    case Board => "board"
  }

  datatype StrapiArticle = StrapiArticle(
    id: int, documentId: string, title: string, slug: string,
    description: Option<string>, content: Option<string>,
    publishedAt: Option<string>, createdAt: string, updatedAt: string)

  datatype TeamMember = TeamMember(
    id: int, documentId: string, name: string, title: string,
    photoUrl: Option<string>, order: int, section: Section)

  datatype Testimonial = Testimonial(
    id: int, documentId: string, quote: string, authorName: string,
    authorTitle: string, order: int)

  datatype Publication = Publication(
    id: int, documentId: string, title: string, authors: string,
    year: Option<string>, month: Option<string>, link: Option<string>, order: int)

  datatype Presentation = Presentation(
    id: int, documentId: string, title: string, authors: string,
    link: Option<string>, order: int)

  datatype NewsItem = NewsItem(
    id: int, documentId: string, title: string, source: Option<string>,
    date: Option<string>, link: Option<string>, tag: Option<string>,
    isHighlight: bool, isVideo: bool, order: int)

  datatype CareerOpening = CareerOpening(
    id: int, documentId: string, position: string, location: Option<string>,
    applyLink: Option<string>, order: int)

  datatype FeaturedLogo = FeaturedLogo(
    id: int, documentId: string, name: string, logoUrl: Option<string>, order: int)

  datatype PageContent = PageContent(
    id: int, documentId: string, pageSlug: string, heroTitle: Option<string>,
    heroBadge: Option<string>, heroSubtitle: Option<string>, sections: Option<JsonObject>)

  datatype SiteConfig = SiteConfig(
    id: int, documentId: string, key: string, value: Option<JsonObject>)

  // --- Fetch helper ---

  /** The caller's optional `{ tags, revalidate }`. */
  datatype FetchOptions = FetchOptions(tags: Option<seq<string>>, revalidate: Option<int>)

  /** The request `fetchStrapi(path, options)` hands to `fetch`. */
  function BuildRequest(env: Env, path: string, options: Option<FetchOptions>): (r: FetchRequest)
    ensures "Bearer " <= r.authorization
    ensures options.None? || options.value.revalidate.None? ==> r.revalidate == DEFAULT_REVALIDATE
    ensures options.Some? && options.value.revalidate.Some? ==> r.revalidate == options.value.revalidate.value
    ensures r.tags == (if options.Some? then options.value.tags else None)
  {
    FetchRequest(
      BaseUrl(env) + "/api" + path,
      "Bearer " + ApiToken(env),
      if options.Some? then options.value.tags else None,
      if options.Some? && options.value.revalidate.Some? then options.value.revalidate.value
      else DEFAULT_REVALIDATE)
  }

  /** What `fetchStrapi` makes of what `fetch` gave back: a rejection
      propagates, a reply that is not ok raises, and only an ok reply with a
      decodable body becomes an envelope. */
  function Settle<R>(reply: Result<HttpResponse<R>>): (r: Result<Envelope<R>>)
    ensures r.Ok? <==> reply.Ok? && reply.value.ok && reply.value.json.Some?
    ensures r.Ok? ==> r.value == reply.value.json.value
    ensures reply.Ok? && !reply.value.ok ==> r == Err(HttpError(reply.value.status, reply.value.statusText))
    ensures reply.Err? ==> r == Err(reply.error)
  {
    match reply
    case Err(e) => Err(e)
    case Ok(res) =>
      if !res.ok then Err(HttpError(res.status, res.statusText))
      else if res.json.None? then Err(InvalidJson)
      else Ok(res.json.value)
  }

  /** `fetchStrapi(path, options)`: build the request, hand it to `fetch`,
      settle the reply. */
  function FetchStrapi<R>(env: Env, path: string, options: Option<FetchOptions>, transport: Transport<R>): (r: Result<Envelope<R>>)
    ensures var reply := transport(BuildRequest(env, path, options));
      && (r.Ok? <==> reply.Ok? && reply.value.ok && reply.value.json.Some?)
      && (r.Ok? ==> r.value == reply.value.json.value)
      && (reply.Ok? && !reply.value.ok ==> r == Err(HttpError(reply.value.status, reply.value.statusText)))
  {
    Settle(transport(BuildRequest(env, path, options)))
  }

  // --- Fetchers ---

  /** One query per exported `get*` accessor. */
  datatype Query =
    | Articles
    | ArticleBySlug(slug: string)
    | TeamMembers(section: Option<Section>)
    | Testimonials
    | Publications
    | Presentations
    | NewsItems
    | CareerOpenings
    | FeaturedLogos
    | PageContentBySlug(slug: string)
    | SiteConfigByKey(key: string)
    | AllSiteConfigs

  const TEAM_MEMBERS_PATH := "/team-members?sort=order:asc&pagination[pageSize]=100"
  const SECTION_FILTER := "&filters[section][$eq]="
  const ALL_SITE_CONFIGS_PATH := "/site-configs?pagination[pageSize]=100"

  /** The query path of each accessor; `encode` is `encodeURIComponent`. */
  function Path(q: Query, encode: string -> string): string
  {
    match q
    case Articles => "/articles?sort=publishedAt:desc"
    case ArticleBySlug(slug) => "/articles?filters[slug][$eq]=" + encode(slug)
    case TeamMembers(section) =>
      TEAM_MEMBERS_PATH + (if section.Some? then SECTION_FILTER + SectionName(section.value) else "")
    case Testimonials => "/testimonials?sort=order:asc"
    case Publications => "/publications?sort=order:asc"
    case Presentations => "/presentations?sort=order:asc"
    case NewsItems => "/news-items?sort=order:asc&pagination[pageSize]=100"
    case CareerOpenings => "/career-openings?sort=order:asc"
    case FeaturedLogos => "/featured-logos?sort=order:asc"
    case PageContentBySlug(slug) => "/page-contents?filters[pageSlug][$eq]=" + encode(slug)
    case SiteConfigByKey(key) => "/site-configs?filters[key][$eq]=" + encode(key)
    case AllSiteConfigs => ALL_SITE_CONFIGS_PATH
  }

  /** The tag naming the content type an accessor reads. */
  function CollectionTag(q: Query): string
  {
    match q
    case Articles | ArticleBySlug(_) => "articles"
    case TeamMembers(_) => "team-members"
    case Testimonials => "testimonials"
    case Publications => "publications"
    case Presentations => "presentations"
    case NewsItems => "news-items"
    case CareerOpenings => "career-openings"
    case FeaturedLogos => "featured-logos"
    case PageContentBySlug(_) => "page-contents"
    case SiteConfigByKey(_) | AllSiteConfigs => "site-configs"
  }

  /** The cache tags an accessor attaches: its collection tag, then, for a
      lookup by slug or key, a tag built from the raw (unencoded) argument. */
  function Tags(q: Query): (r: seq<string>)
    ensures 1 <= |r| <= 2 && r[0] == CollectionTag(q)
    ensures |r| == 2 <==> q.ArticleBySlug? || q.PageContentBySlug? || q.SiteConfigByKey?
  {
    match q
    case ArticleBySlug(slug) => [CollectionTag(q), "article-" + slug]
    case PageContentBySlug(slug) => [CollectionTag(q), "page-" + slug]
    case SiteConfigByKey(key) => [CollectionTag(q), "config-" + key]
    case _ => [CollectionTag(q)]
  }

  /** Every accessor passes its tags and no freshness window. */
  function Options(q: Query): FetchOptions
  {
    FetchOptions(Some(Tags(q)), None)
  }

  function Request(env: Env, q: Query, encode: string -> string): FetchRequest
  {
    BuildRequest(env, Path(q, encode), Some(Options(q)))
  }

  /** The envelope an accessor returns (`getArticles`, `getTeamMembers`, ...). */
  function Get<R>(env: Env, q: Query, encode: string -> string, transport: Transport<R>): (r: Result<Envelope<R>>)
    ensures var reply := transport(Request(env, q, encode));
      && (r.Ok? <==> reply.Ok? && reply.value.ok && reply.value.json.Some?)
      && (r.Ok? ==> r.value == reply.value.json.value)
  {
    FetchStrapi(env, Path(q, encode), Some(Options(q)), transport)
  }

  /** `res.data?.[0] ?? null` */
  function FirstOrNull<R>(data: Option<seq<R>>): (r: Option<R>)
    ensures r.None? <==> data.None? || |data.value| == 0
    ensures r.Some? ==> r.value == data.value[0]
  {
    if data.Some? && |data.value| > 0 then Some(data.value[0]) else None
  }

  /** `getPageContent(slug)`: the first matching record, or null. */
  function GetPageContent(env: Env, slug: string, encode: string -> string, transport: Transport<PageContent>): (r: Result<Option<PageContent>>)
    ensures var res := Get(env, PageContentBySlug(slug), encode, transport);
      && (r.Err? <==> res.Err?)
      && (r.Err? ==> r.error == res.error)
      && (r.Ok? ==> (r.value.None? <==> res.value.data.None? || |res.value.data.value| == 0))
      && (r.Ok? && r.value.Some? ==> r.value.value == res.value.data.value[0])
  {
    match Get(env, PageContentBySlug(slug), encode, transport)
    case Err(e) => Err(e)
    case Ok(res) => Ok(FirstOrNull(res.data))
  }

  /** `getSiteConfig(key)`: the first matching record's value, or null. */
  function GetSiteConfig(env: Env, key: string, encode: string -> string, transport: Transport<SiteConfig>): (r: Result<Option<JsonObject>>)
    ensures var res := Get(env, SiteConfigByKey(key), encode, transport);
      && (r.Err? <==> res.Err?)
      && (r.Err? ==> r.error == res.error)
      && (r.Ok? ==> (r.value.Some? <==>
            res.value.data.Some? && |res.value.data.value| > 0 && res.value.data.value[0].value.Some?))
      && (r.Ok? && r.value.Some? ==> r.value == res.value.data.value[0].value)
  {
    match Get(env, SiteConfigByKey(key), encode, transport)
    case Err(e) => Err(e)
    case Ok(res) =>
      var first := FirstOrNull(res.data);
      Ok(if first.Some? then first.value.value else None)
  }

  // --- All site configurations as a map ---

  /** `cfg.key && cfg.value`: a non-empty key and a non-null value (every
      object, even `{}`, is truthy). */
  predicate Kept(cfg: SiteConfig)
  {
    cfg.key != "" && cfg.value.Some?
  }

  /** The one name that `obj[name] = value` on a plain object does not store
      as an own key: it calls the inherited prototype setter instead. */
  const PROTO_KEY := "__proto__"

  /** `obj[key] = value` on a plain object, seen through its own keys. */
  function SetOwn(m: map<string, JsonObject>, key: string, value: JsonObject): (r: map<string, JsonObject>)
    ensures key != PROTO_KEY ==> r == m[key := value]
    ensures key == PROTO_KEY ==> r == m
  {
    if key == PROTO_KEY then m else m[key := value]
  }

  /** The own keys of the object the loop of `getAllSiteConfigs` has built
      after the given records, in order. */
  function ConfigMap(cfgs: seq<SiteConfig>): (r: map<string, JsonObject>)
    ensures PROTO_KEY !in r
  {
    if cfgs == [] then map[]
    else
      var m := ConfigMap(cfgs[..|cfgs| - 1]);
      var last := cfgs[|cfgs| - 1];
      if Kept(last) then SetOwn(m, last.key, last.value.value) else m
  }

  /** The records the loop walks: `res.data ?? []`. */
  function RecordsOrEmpty<R>(data: Option<seq<R>>): (r: seq<R>)
    ensures data.None? ==> r == []
    ensures data.Some? ==> r == data.value
  {
    if data.Some? then data.value else []
  }

  /** `getAllSiteConfigs()`: fetch every configuration record, then fold the
      kept ones into a key-to-value map. */
  method GetAllSiteConfigs(env: Env, transport: Transport<SiteConfig>) returns (r: Result<map<string, JsonObject>>)
    ensures var res := FetchStrapi(env, ALL_SITE_CONFIGS_PATH, Some(Options(AllSiteConfigs)), transport);
      && (r.Err? <==> res.Err?)
      && (r.Err? ==> r.error == res.error)
      && (r.Ok? ==> r.value == ConfigMap(RecordsOrEmpty(res.value.data)))
  {
    var res := FetchStrapi(env, ALL_SITE_CONFIGS_PATH, Some(Options(AllSiteConfigs)), transport);
    if res.Err? {
      return Err(res.error);
    }
    var cfgs := RecordsOrEmpty(res.value.data);
    var m: map<string, JsonObject> := map[];
    for i := 0 to |cfgs|
      invariant m == ConfigMap(cfgs[..i])
    {
      var cfg := cfgs[i];
      if cfg.key != "" && cfg.value.Some? {
        m := SetOwn(m, cfg.key, cfg.value.value);
      }
      assert cfgs[..i + 1][..i] == cfgs[..i];
    }
    assert cfgs[..|cfgs|] == cfgs;
    return Ok(m);
  }

  // --- Properties ---

  /** Every request goes to exactly base + "/api" + path, with a bearer token. */
  lemma RequestUrl(env: Env, q: Query, encode: string -> string)
    ensures Request(env, q, encode).url == BaseUrl(env) + "/api" + Path(q, encode)
    ensures Request(env, q, encode).authorization == "Bearer " + ApiToken(env)
  {
  }

  /** No accessor supplies a freshness window, so every one gets the default,
      and every one passes its tag list. */
  lemma DefaultWindowEverywhere(env: Env, q: Query, encode: string -> string)
    ensures Request(env, q, encode).revalidate == DEFAULT_REVALIDATE
    ensures Request(env, q, encode).tags == Some(Tags(q))
  {
  }

  /** `getTeamMembers` always sorts by order and asks for 100 records, and
      adds the section filter if and only if a section is given. */
  lemma TeamMembersFilter(section: Option<Section>, encode: string -> string)
    ensures TEAM_MEMBERS_PATH <= Path(TeamMembers(section), encode)
    ensures |Path(TeamMembers(section), encode)| > |TEAM_MEMBERS_PATH| <==> section.Some?
    ensures section.Some? ==>
      Path(TeamMembers(section), encode)[|TEAM_MEMBERS_PATH|..] == SECTION_FILTER + SectionName(section.value)
    ensures Tags(TeamMembers(section)) == ["team-members"]
  {
  }

  /** Lookups by slug or key put the encoded argument in the query string and
      the raw argument in the record tag. */
  lemma LookupTags(arg: string, encode: string -> string)
    ensures Path(ArticleBySlug(arg), encode) == "/articles?filters[slug][$eq]=" + encode(arg)
    ensures Tags(ArticleBySlug(arg)) == ["articles", "article-" + arg]
    ensures Path(PageContentBySlug(arg), encode) == "/page-contents?filters[pageSlug][$eq]=" + encode(arg)
    ensures Tags(PageContentBySlug(arg)) == ["page-contents", "page-" + arg]
    ensures Path(SiteConfigByKey(arg), encode) == "/site-configs?filters[key][$eq]=" + encode(arg)
    ensures Tags(SiteConfigByKey(arg)) == ["site-configs", "config-" + arg]
  {
  }

  /** A reply that is not ok never yields an envelope, whatever the query. */
  lemma NotOkRaises<R>(env: Env, q: Query, encode: string -> string, transport: Transport<R>)
    requires transport(Request(env, q, encode)).Ok?
    requires !transport(Request(env, q, encode)).value.ok
    ensures Get(env, q, encode, transport).Err?
    ensures Get(env, q, encode, transport).error.HttpError?
  {
  }

  /** Every key of the site-configuration map comes from a kept record, and
      every kept record's key is in the map, except "__proto__". */
  lemma {:induction false} ConfigMapKeys(cfgs: seq<SiteConfig>, k: string)
    ensures k in ConfigMap(cfgs) <==> k != PROTO_KEY && exists i :: 0 <= i < |cfgs| && Kept(cfgs[i]) && cfgs[i].key == k
  {
    if cfgs != [] {
      var init := cfgs[..|cfgs| - 1];
      ConfigMapKeys(init, k);
      if k in ConfigMap(init) {
        var i :| 0 <= i < |init| && Kept(init[i]) && init[i].key == k;
        assert cfgs[i] == init[i];
      }
      if exists i :: 0 <= i < |cfgs| && Kept(cfgs[i]) && cfgs[i].key == k {
        var i :| 0 <= i < |cfgs| && Kept(cfgs[i]) && cfgs[i].key == k;
        if i < |init| {
          assert init[i] == cfgs[i];
        }
      }
    }
  }

  /** For a key held by several kept records, the last of them wins. */
  lemma {:induction false} ConfigMapLastWins(cfgs: seq<SiteConfig>, i: nat)
    requires i < |cfgs| && Kept(cfgs[i]) && cfgs[i].key != PROTO_KEY
    requires forall j :: i < j < |cfgs| && Kept(cfgs[j]) ==> cfgs[j].key != cfgs[i].key
    ensures cfgs[i].key in ConfigMap(cfgs)
    ensures ConfigMap(cfgs)[cfgs[i].key] == cfgs[i].value.value
  {
    var init := cfgs[..|cfgs| - 1];
    if i < |cfgs| - 1 {
      assert init[i] == cfgs[i];
      forall j | i < j < |init| && Kept(init[j])
        ensures init[j].key != init[i].key
      {
        assert init[j] == cfgs[j];
      }
      ConfigMapLastWins(init, i);
    }
  }

  /** Missing or empty data gives the empty map. */
  lemma ConfigMapOfNothing(data: Option<seq<SiteConfig>>)
    requires data.None? || data == Some([])
    ensures ConfigMap(RecordsOrEmpty(data)) == map[]
  {
  }
}
