/** The news page of apps/web/src/app/news/page.tsx: the two content fetches
    with their fallbacks, the split of the news items into highlights and
    the rest, which sections are rendered, and the small per-item rules of
    the cards. */
module News {
  import opened Http
  import Strapi

  const DEFAULT_TITLE := "Latest News"

  /** What the hero banner is given. */
  datatype Hero = Hero(badge: Option<string>, title: string, subtitle: Option<string>)

  /** The sections of the page, top to bottom. */
  datatype PageSection = HeroBanner | Highlights | AllCoverage | MediaInquiries

  /** What the page renders from: the hero and the two lists. */
  datatype NewsView = NewsView(hero: Hero, highlights: seq<Strapi.NewsItem>, allNews: seq<Strapi.NewsItem>)

  /** `getPageContent("news").catch(() => null)` */
  function PageOrNull(page: Result<Option<Strapi.PageContent>>): (r: Option<Strapi.PageContent>)
    ensures page.Err? ==> r.None?
    ensures page.Ok? ==> r == page.value
  {
    if page.Ok? then page.value else None
  }

  /** `getNewsItems().catch(() => ({ data: [] }))` */
  function NewsOrEmpty(news: Result<Envelope<Strapi.NewsItem>>): (r: Envelope<Strapi.NewsItem>)
    ensures news.Err? ==> r == Envelope(Some([]))
    ensures news.Ok? ==> r == news.value
  {
    if news.Ok? then news.value else Envelope(Some([]))
  }

  /** The props of the hero banner: `page?.heroBadge`,
      `page?.heroTitle ?? "Latest News"`, `page?.heroSubtitle`. */
  function HeroFor(page: Option<Strapi.PageContent>): Hero
  {
    if page.None? then Hero(None, DEFAULT_TITLE, None)
    else Hero(
      page.value.heroBadge,
      if page.value.heroTitle.Some? then page.value.heroTitle.value else DEFAULT_TITLE,
      page.value.heroSubtitle)
  }

  /** `items.filter((n) => n.isHighlight == highlight)` */
  function Filter(items: seq<Strapi.NewsItem>, highlight: bool): (r: seq<Strapi.NewsItem>)
    ensures |r| <= |items|
    ensures forall i :: 0 <= i < |r| ==> r[i].isHighlight == highlight
  {
    if items == [] then []
    else (if items[0].isHighlight == highlight then [items[0]] else []) + Filter(items[1..], highlight)
  }

  /** `NewsPage()`: fall back on each failed fetch, then split the items.
      A successful news fetch whose envelope lacks `data` makes
      `news.data.filter` throw, so the render fails. */
  function Render(page: Result<Option<Strapi.PageContent>>, news: Result<Envelope<Strapi.NewsItem>>): (r: Result<NewsView>)
    ensures r.Err? <==> news.Ok? && news.value.data.None?
    ensures r.Err? ==> r.error == TypeError
  {
    var envelope := NewsOrEmpty(news);
    if envelope.data.None? then Err(TypeError)
    else
      var items := envelope.data.value;
      Ok(NewsView(HeroFor(PageOrNull(page)), Filter(items, true), Filter(items, false)))
  }

  /** The sections that are rendered, in page order. */
  function Sections(v: NewsView): (r: seq<PageSection>)
    ensures 2 <= |r| <= 4
    ensures r[0] == HeroBanner && r[|r| - 1] == MediaInquiries
  {
    [HeroBanner]
    + (if |v.highlights| > 0 then [Highlights] else [])
    + (if |v.allNews| > 0 then [AllCoverage] else [])
    + [MediaInquiries]
  }

  // --- Card details ---

  /** A card's link: `item.link ?? "#"` (an empty link stays empty). */
  function Href(link: Option<string>): (r: string)
    ensures link.None? ==> r == "#"
    ensures link.Some? ==> r == link.value
  {
    if link.Some? then link.value else "#"
  }

  /** `{x && <span>{x}</span>}`: a badge or label is shown only for a
      truthy (non-null, non-empty) value. */
  function Shown(s: Option<string>): (r: Option<string>)
    ensures r.Some? <==> Truthy(s)
    ensures r.Some? ==> r == s
  {
    if Truthy(s) then s else None
  }

  /** How `{item.source}` renders: nothing for null. */
  function SourceText(source: Option<string>): string
  {
    if source.Some? then source.value else ""
  }

  /** The line under an "All Coverage" title: the source, then
      " — " + date when the date is truthy. */
  function SourceLine(source: Option<string>, date: Option<string>): (r: string)
    ensures SourceText(source) <= r
    ensures |r| > |SourceText(source)| <==> Truthy(date)
    ensures Truthy(date) ==> r[|SourceText(source)|..] == " — " + date.value
  {
    var line := SourceText(source) + (if Truthy(date) then " — " + date.value else "");
    assert line[..|SourceText(source)|] == SourceText(source);
    line
  }

  // --- Properties of the split ---

  /** Membership: an item is in a list exactly when it is in the data and
      its `isHighlight` flag matches the list. */
  lemma {:induction false} FilterMembers(items: seq<Strapi.NewsItem>, highlight: bool, x: Strapi.NewsItem)
    ensures x in Filter(items, highlight) <==> x in items && x.isHighlight == highlight
  {
    if items != [] {
      FilterMembers(items[1..], highlight, x);
      assert items == [items[0]] + items[1..];
    }
  }

  /** `sub` occurs in `s` in the same order, possibly with gaps. */
  predicate IsSubsequence<T(==)>(sub: seq<T>, s: seq<T>)
    decreases |s|
  {
    if sub == [] then true
    else if s == [] then false
    else if sub[0] == s[0] then IsSubsequence(sub[1..], s[1..])
    else IsSubsequence(sub, s[1..])
  }

  /** Each list keeps the order of the data. */
  lemma {:induction false} FilterKeepsOrder(items: seq<Strapi.NewsItem>, highlight: bool)
    ensures IsSubsequence(Filter(items, highlight), items)
  {
    if items != [] {
      var rest := Filter(items[1..], highlight);
      FilterKeepsOrder(items[1..], highlight);
      if items[0].isHighlight == highlight {
        assert Filter(items, highlight) == [items[0]] + rest;
        assert ([items[0]] + rest)[1..] == rest;
      } else {
        assert Filter(items, highlight) == rest;
        if rest != [] {
          FilterMembers(items[1..], highlight, rest[0]);
        }
      }
    }
  }

  /** Filtering a concatenation is the concatenation of the filtered parts. */
  lemma {:induction false} FilterAppend(s: seq<Strapi.NewsItem>, t: seq<Strapi.NewsItem>, highlight: bool)
    ensures Filter(s + t, highlight) == Filter(s, highlight) + Filter(t, highlight)
  {
    if s != [] {
      FilterAppend(s[1..], t, highlight);
      assert (s + t)[1..] == s[1..] + t;
    } else {
      assert s + t == t;
    }
  }

  /** The two lists partition the data: every occurrence lands in exactly
      one of them. */
  lemma {:induction false} FilterPartition(items: seq<Strapi.NewsItem>)
    ensures multiset(Filter(items, true)) + multiset(Filter(items, false)) == multiset(items)
    ensures |Filter(items, true)| + |Filter(items, false)| == |items|
  {
    if items != [] {
      FilterPartition(items[1..]);
      assert items == [items[0]] + items[1..];
    }
  }

  /** After a successful render, the highlights are the highlighted items
      and "All Coverage" the others, each item in exactly one list. */
  lemma RenderSplitsItems(page: Result<Option<Strapi.PageContent>>, news: Result<Envelope<Strapi.NewsItem>>, x: Strapi.NewsItem)
    requires Render(page, news).Ok?
    ensures var v := Render(page, news).value;
      var items := NewsOrEmpty(news).data.value;
      && (x in v.highlights <==> x in items && x.isHighlight)
      && (x in v.allNews <==> x in items && !x.isHighlight)
      && |v.highlights| + |v.allNews| == |items|
      && IsSubsequence(v.highlights, items)
      && IsSubsequence(v.allNews, items)
  {
    var items := NewsOrEmpty(news).data.value;
    FilterMembers(items, true, x);
    FilterMembers(items, false, x);
    FilterPartition(items);
    FilterKeepsOrder(items, true);
    FilterKeepsOrder(items, false);
  }

  /** A failed news fetch renders neither list: the page is the hero and the
      media-inquiries call to action. */
  lemma FailedNewsFetchShowsNoLists(page: Result<Option<Strapi.PageContent>>, e: Error)
    ensures Render(page, Err(e)).Ok?
    ensures Sections(Render(page, Err(e)).value) == [HeroBanner, MediaInquiries]
  {
  }

  /** Failed or absent page content: title "Latest News", no badge, no
      subtitle. A record without a title also gets the default title. */
  lemma MissingPageContentFallsBack(page: Result<Option<Strapi.PageContent>>, news: Result<Envelope<Strapi.NewsItem>>)
    requires page.Err? || page == Ok(None)
    requires Render(page, news).Ok?
    ensures Render(page, news).value.hero == Hero(None, "Latest News", None)
  {
  }

  lemma UntitledPageGetsDefaultTitle(p: Strapi.PageContent)
    requires p.heroTitle.None?
    ensures HeroFor(Some(p)).title == "Latest News"
    ensures HeroFor(Some(p)).badge == p.heroBadge && HeroFor(Some(p)).subtitle == p.heroSubtitle
  {
  }

  /** Highlights shows iff there is a highlight, "All Coverage" iff there is
      another item; the hero comes first and the call to action last, always. */
  lemma SectionVisibility(v: NewsView)
    ensures Highlights in Sections(v) <==> |v.highlights| > 0
    ensures AllCoverage in Sections(v) <==> |v.allNews| > 0
    ensures Sections(v)[0] == HeroBanner
    ensures Sections(v)[|Sections(v)| - 1] == MediaInquiries
  {
  }
}
