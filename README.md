# Content client, revalidation webhook and page logic of a CMS-backed marketing site

This Dafny project models the sequential logic beneath the markup of a Next.js
marketing site whose content comes from a Strapi CMS:

- **Content client** (`Strapi`, over the shared `Http` vocabulary). There is one
  `Query` per `get*` accessor. For each, the model gives the path, the cache
  tags and the request handed to `fetch`: URL, bearer header, tags and a
  freshness window. It also gives how a reply becomes an envelope or an error,
  the first-or-null selection of the slug and key lookups, and the loop that
  folds site-configuration records into a map.
- **Revalidation webhook** (`Revalidate`). `POST` compares a shared secret
  with JavaScript's strict `!==`, where an absent header is `null` and an
  unset variable `undefined`. It then calls `revalidateTag` on ten tags in
  order and stops at the first call that throws. The framework's cache is a
  `TagCache` object that logs those calls.
- **Tag coverage** (`Coverage`). This is the invariant that links the two
  files above: every request the client sends carries one of the webhook's
  tags.
- **Navigation bar** (`Navbar`). It holds the link list and the prefix rule for
  the highlighted link. A `NavbarState` class holds the menu-open and scrolled
  flags and the toggle, route-change and scroll events that change them.
- **News page** (`News`). The page falls back on each failed fetch. It splits
  the items into highlights and the rest, and shows a section only when its
  list is non-empty. It also defines the small rules of each card.
- **Sitemap** (`Sitemap`). Nine static entries come first, then one entry per
  article the CMS returns. When the CMS fails, only the static entries remain.

The network is a `Transport` parameter, a function from the request to what
`fetch` yields. Environment variables are parameters too. `encodeURIComponent`
is an `encode` function parameter. Priorities are integer tenths.

The model follows the code in these details:

- A lookup by slug or key yields the first record of the list the CMS
  returns; that list may hold several.
- `getAllSiteConfigs` assigns into a plain object. A record keyed
  `"__proto__"` therefore sets the object's prototype instead of adding an
  own key, and the model's map of own keys leaves it out.
- The news card's source line tests the date for truthiness, so an empty
  date is suppressed as well as a null one.
- The news page reads `news.data.filter` without a guard. A successful fetch
  whose envelope lacks `data` therefore makes the render throw (`TypeError`
  in `News.Render`). `getPageContent`, `getSiteConfig`, `getAllSiteConfigs`
  and the sitemap all guard that case.
- The sitemap's own fetch carries no cache tag (`Sitemap.ArticlesRequest`).
  The webhook therefore never refreshes the article list in the sitemap. Only
  the one-hour window does.
- The pathname effect in the navigation bar runs only when the pathname
  changes. A route event with the same pathname leaves the menu as it was.

## Model

| member | source | states |
|---|---|---|
| Http.OrElse | apps/web/src/lib/strapi.ts:1-2 | `process.env.X \|\| fallback` yields the variable exactly when it is set and non-empty, the fallback otherwise, and is never empty when the fallback is not |
| Strapi.BuildRequest | apps/web/src/lib/strapi.ts:118-134 | the header is a bearer token; the window is the caller's, or 3600 when the caller supplies none or no options; the tags are the caller's |
| Strapi.Settle | apps/web/src/lib/strapi.ts:136-140 | an envelope is returned if and only if the reply is ok and decodes; a reply that is not ok raises an error carrying its status and status text; a rejected fetch propagates |
| Strapi.FetchStrapi | apps/web/src/lib/strapi.ts:118-141 | for the request `BuildRequest` makes, an envelope exactly when the reply is ok and decodes, that reply's body, and an HTTP error with its status and status text when it is not ok |
| Strapi.Path | apps/web/src/lib/strapi.ts:145-229 | the query path of each accessor; its shape is stated by `Strapi.RequestUrl`, `Strapi.TeamMembersFilter` and `Strapi.LookupTags` |
| Strapi.CollectionTag | apps/web/src/lib/strapi.ts:145-229 | the tag of the content type an accessor reads; `Coverage.EveryQueryIsCovered` and `Coverage.EveryTagIsUsed` tie it to the webhook's list |
| Strapi.Tags | apps/web/src/lib/strapi.ts:145-229 | the first tag is always the collection tag; there is a second tag exactly for the three lookups by slug or key |
| Strapi.Get | apps/web/src/lib/strapi.ts:145-229 | every accessor yields an envelope exactly when the reply to its own request is ok and decodes, and then that reply's body |
| Strapi.RequestUrl | apps/web/src/lib/strapi.ts:125-129 | every accessor's URL is exactly base + "/api" + path, and its Authorization header is "Bearer " + token |
| Strapi.DefaultWindowEverywhere | apps/web/src/lib/strapi.ts:145-229 | no accessor supplies a window, so every request has 3600 and carries the accessor's tag list |
| Strapi.TeamMembersFilter | apps/web/src/lib/strapi.ts:158-165 | the path always starts with the order-sorted, page-size-100 query; it is longer if and only if a section is given, and the extra part is exactly the section filter |
| Strapi.LookupTags | apps/web/src/lib/strapi.ts:151-222 | slug and key lookups put the encoded argument in the path and the raw argument in the record tag; the tags are exactly [collection tag, prefix + raw argument] |
| Strapi.NotOkRaises | apps/web/src/lib/strapi.ts:136-138 | for every accessor, a reply that is not ok yields an HTTP error and never an envelope |
| Strapi.FirstOrNull | apps/web/src/lib/strapi.ts:215 | null exactly when data is missing or empty, otherwise the first record |
| Strapi.GetPageContent | apps/web/src/lib/strapi.ts:210-216 | fails exactly when the fetch fails; otherwise the first record, or null when data is missing or empty |
| Strapi.GetSiteConfig | apps/web/src/lib/strapi.ts:218-224 | fails exactly when the fetch fails; otherwise the first record's value, or null when there is no first record or its value is null |
| Strapi.GetAllSiteConfigs | apps/web/src/lib/strapi.ts:226-238 | fails exactly when the fetch fails; otherwise the loop builds `ConfigMap` of the records (`res.data ?? []`) |
| Strapi.RecordsOrEmpty | apps/web/src/lib/strapi.ts:232 | `res.data ?? []`: the records when present, none otherwise |
| Strapi.SetOwn | apps/web/src/lib/strapi.ts:234 | an assignment adds or replaces the key, except `"__proto__"`, which adds no own key |
| Strapi.ConfigMap | apps/web/src/lib/strapi.ts:231-237 | the own keys after the loop over the given records never include `"__proto__"`; its contents are stated by `Strapi.ConfigMapKeys` and `Strapi.ConfigMapLastWins` |
| Strapi.ConfigMapKeys | apps/web/src/lib/strapi.ts:231-237 | a key is in the map if and only if it is not `"__proto__"` and some record with a non-empty key and a non-null value has it |
| Strapi.ConfigMapLastWins | apps/web/src/lib/strapi.ts:232-236 | a key other than `"__proto__"` held by several kept records maps to the value of the last of them |
| Strapi.ConfigMapOfNothing | apps/web/src/lib/strapi.ts:232 | missing or empty data gives the empty map |
| Revalidate.Authorized | apps/web/src/app/api/revalidate/route.ts:18-20 | the strict comparison passes if and only if the header is present, the secret is set, and the two are equal |
| Revalidate.PostResponse | apps/web/src/app/api/revalidate/route.ts:17-35 | status 401 exactly on a bad secret, 500 exactly when an authorised call meets a throwing `revalidateTag`, 200 otherwise, always one of the three fixed bodies |
| Revalidate.PostInvalidations | apps/web/src/app/api/revalidate/route.ts:17-35 | the tags invalidated are a prefix of the list; none exactly on a bad secret or a throw at the first tag; all ten exactly when authorised and nothing throws |
| Revalidate.TagCache.constructor | apps/web/src/app/api/revalidate/route.ts:1 | a fresh cache has recorded no invalidation |
| Revalidate.TagCache.RevalidateTag | apps/web/src/app/api/revalidate/route.ts:26 | a call that does not throw appends its tag to the log; a throwing call records nothing |
| Revalidate.Post | apps/web/src/app/api/revalidate/route.ts:17-35 | the response is `PostResponse` and the log grows by exactly `PostInvalidations`, in order |
| Revalidate.PostTwice | apps/web/src/app/api/revalidate/route.ts:24-28 | two authorised calls both return success, and the stale set after them equals the set after one |
| Revalidate.AllTagsDistinct | apps/web/src/app/api/revalidate/route.ts:4-15 | the list holds exactly ten pairwise distinct names |
| Revalidate.BadSecretChangesNothing | apps/web/src/app/api/revalidate/route.ts:20-22 | a bad secret gives status 401 with `{message: "Invalid secret"}` and invalidates nothing |
| Revalidate.UnsetSecretRejectsAll | apps/web/src/app/api/revalidate/route.ts:18-20 | with the secret unset, every request is rejected, including one with no header |
| Revalidate.GoodSecretInvalidatesAll | apps/web/src/app/api/revalidate/route.ts:24-28 | the right secret with no throwing call invalidates all ten tags in list order and answers `{success: true, revalidated: true}` with status 200 |
| Revalidate.ThrowStopsWithoutRollback | apps/web/src/app/api/revalidate/route.ts:24-33 | when the call for tag k throws, tags 0..k-1 stay invalidated, no later tag is attempted, and the answer is 500 with `{success: false, message: "Revalidation failed"}` |
| Revalidate.PostIdempotent | apps/web/src/app/api/revalidate/route.ts:25-28 | a second authorised call gives the same response and leaves the same stale set |
| Coverage.EveryQueryIsCovered | apps/web/src/lib/strapi.ts:145-229 | every accessor's first tag is its collection tag, and that tag is in the webhook's list |
| Coverage.EveryTagIsUsed | apps/web/src/app/api/revalidate/route.ts:4-15 | every tag in the webhook's list is the collection tag of some accessor |
| Coverage.SuccessfulPostCoversEveryFetch | apps/web/src/app/api/revalidate/route.ts:24-28 | after a successful call, every accessor's request carries a tag that is stale |
| Coverage.RecordTagsAreNotListed | apps/web/src/lib/strapi.ts:151-222 | article and config record tags are never in the webhook's list; a page record tag is in it only for the slug "contents" |
| Navbar.IsActive | apps/web/src/components/navbar.tsx:37-38 | an active link's href is a prefix of the pathname; `Navbar.HomeActiveOnlyAtRoot` and `Navbar.AtMostOneActive` state the rest |
| Navbar.HomeActiveOnlyAtRoot | apps/web/src/components/navbar.tsx:37-38 | the home link is active if and only if the pathname is exactly "/" |
| Navbar.PrefixIsNotSegmentAware | apps/web/src/components/navbar.tsx:38 | the rule is a plain string prefix: "/news" is active on "/news/launch" and also on "/newsroom"; "/" is not active on "/solution" |
| Navbar.HrefsIncomparable | apps/web/src/components/navbar.tsx:9-16 | no non-home href of the link list is a prefix of another |
| Navbar.AtMostOneActive | apps/web/src/components/navbar.tsx:9-38 | on any pathname, two active links of the list are the same link |
| Navbar.NavbarState.constructor | apps/web/src/components/navbar.tsx:24-25 | the menu starts closed and the bar not scrolled |
| Navbar.NavbarState.Toggle | apps/web/src/components/navbar.tsx:94 | the toggle flips the open flag and changes nothing else |
| Navbar.ToggleTwice | apps/web/src/components/navbar.tsx:94 | toggling twice restores the original state |
| Navbar.NavbarState.RouteChange | apps/web/src/components/navbar.tsx:33-35 | a changed pathname closes the menu whatever it was; the scrolled flag is untouched |
| Navbar.NavbarState.Scroll | apps/web/src/components/navbar.tsx:27-28 | the scrolled flag becomes `scrollY > 20`; the open flag is untouched |
| Navbar.NavbarState.AriaLabel | apps/web/src/components/navbar.tsx:96-103 | the label reads "Close menu" if and only if the mobile menu is shown, otherwise "Open menu" |
| News.PageOrNull | apps/web/src/app/news/page.tsx:15 | a failed page-content fetch becomes null |
| News.NewsOrEmpty | apps/web/src/app/news/page.tsx:16 | a failed news fetch becomes `{data: []}` |
| News.HeroFor | apps/web/src/app/news/page.tsx:24-28 | the hero's props; stated by `News.MissingPageContentFallsBack` and `News.UntitledPageGetsDefaultTitle` |
| News.Filter | apps/web/src/app/news/page.tsx:19-20 | the result is no longer than the data and every item in it has the requested `isHighlight` flag |
| News.Sections | apps/web/src/app/news/page.tsx:31-130 | two to four sections, the hero first and the media-inquiries call to action last |
| News.Render | apps/web/src/app/news/page.tsx:13-20 | the render fails, with a type error, exactly when the news fetch succeeds without `data` |
| News.FilterMembers | apps/web/src/app/news/page.tsx:19-20 | an item is in the highlights (resp. the others) if and only if it is in the data with `isHighlight` true (resp. false) |
| News.FilterKeepsOrder | apps/web/src/app/news/page.tsx:19-20 | each list is a subsequence of the data, in its order |
| News.FilterAppend | apps/web/src/app/news/page.tsx:19-20 | filtering a concatenation is the concatenation of the filtered parts |
| News.FilterPartition | apps/web/src/app/news/page.tsx:19-20 | the two lists together hold every occurrence of the data exactly once: multisets add up, and so do lengths |
| News.RenderSplitsItems | apps/web/src/app/news/page.tsx:14-20 | after a successful render, highlights and "All Coverage" are the highlighted and other items, in order, and their sizes add up to the data's |
| News.FailedNewsFetchShowsNoLists | apps/web/src/app/news/page.tsx:16-70 | a failed news fetch renders only the hero and the media-inquiries section |
| News.MissingPageContentFallsBack | apps/web/src/app/news/page.tsx:15-28 | failed or absent page content gives title "Latest News", no badge and no subtitle |
| News.UntitledPageGetsDefaultTitle | apps/web/src/app/news/page.tsx:24-28 | a record without a title gets "Latest News", keeping its badge and subtitle |
| News.SectionVisibility | apps/web/src/app/news/page.tsx:31-130 | highlights show if and only if there is one; "All Coverage" shows if and only if there is another item; the hero comes first and the call to action always comes last |
| News.Href | apps/web/src/app/news/page.tsx:38 | a card links to its link, or to "#" when the link is null |
| News.Shown | apps/web/src/app/news/page.tsx:44-58 | a tag, date or source label is shown if and only if it is non-null and non-empty |
| News.SourceLine | apps/web/src/app/news/page.tsx:101-104 | the line starts with the source; it is longer than the source if and only if the date is truthy, and then the rest is " — " + date |
| Sitemap.SiteUrl | apps/web/src/app/sitemap.ts:3 | the site URL is never empty |
| Sitemap.ArticlesRequest | apps/web/src/app/sitemap.ts:21-29 | the article request carries a bearer header, a 3600-second window and no cache tag |
| Sitemap.StaticPages | apps/web/src/app/sitemap.ts:6-16 | nine entries, every priority at most 1.0 |
| Sitemap.ArticlePages | apps/web/src/app/sitemap.ts:30-43 | no entries on a rejected fetch, a reply that is not ok, an undecodable body or missing `data`; otherwise one per article; every entry weekly with priority 0.6 |
| Sitemap.ArticleEntries | apps/web/src/app/sitemap.ts:32-39 | one entry per article, in order, each with URL site + "/news/" + slug, weekly, priority 0.6 |
| Sitemap.BuildSitemap | apps/web/src/app/sitemap.ts:5-46 | the output always starts with the nine static entries |
| Sitemap.StaticPagesShape | apps/web/src/app/sitemap.ts:6-16 | nine static entries; the first URL is the site URL itself, every URL starts with it, and no two are equal |
| Sitemap.FailureGivesStaticOnly | apps/web/src/app/sitemap.ts:30-45 | a rejected fetch or a reply that is not ok gives exactly the static entries |
| Sitemap.SuccessAppendsArticles | apps/web/src/app/sitemap.ts:30-45 | an ok reply gives the static entries followed by the article entries of the data; missing `data` gives the static entries alone |

## Left out

- Network I/O and JSON decoding: `fetch` is the `Transport` parameter. The decoded body arrives as a value, or as `None` when it is not JSON. The envelope's `meta` is not read by any modelled code and is not modelled.
- Strapi.ConfigMap: the result is modelled by its own keys. A record keyed `"__proto__"` replaces the object's prototype, and the inherited properties that brings are not modelled; nor are inherited names such as `toString` that a lookup in the returned object would also find.
- `encodeURIComponent` is an arbitrary `encode` parameter. Its percent-encoding table is not reproduced.
- Next.js cache internals: `revalidateTag` is a log entry in `TagCache`. Its profile argument, always `"default"`, is not recorded. The cache's repopulation on the next fetch is not modelled.
- `Date` values (`lastModified`, the article's `updatedAt`) are left out of the sitemap entries. They are opaque timestamps.
- Browser and React wiring (`addEventListener`, `usePathname`, re-render scheduling, `Promise.all`): only the state transitions and the two independent fetch outcomes are modelled.
- Markup and class strings: the header's scrolled styling, the logo-or-text choice in the navigation bar, and the desktop and mobile link lists' classes. The news cards are modelled only through their link, badges and source line.
- The footer, hero banner, form inputs, root layout, home page, not-found page, video player, robots file, Next.js configuration and ESLint configuration: they are static markup or configuration with no logic to state.
- The accessors with no shaping of their own (`getArticles`, `getTestimonials`, and the rest) are modelled through `Strapi.Get` and the lemmas over every `Query`, not one by one.
