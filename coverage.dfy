/** How the content client's cache tags (apps/web/src/lib/strapi.ts) relate
    to the tag list of the revalidation webhook
    (apps/web/src/app/api/revalidate/route.ts). */
module Coverage {
  import opened Http
  import Strapi
  import Revalidate

  /** Every accessor's collection tag is one of the webhook's ten tags. */
  lemma EveryQueryIsCovered(q: Strapi.Query)
    ensures Strapi.Tags(q)[0] == Strapi.CollectionTag(q)
    ensures Strapi.CollectionTag(q) in Revalidate.ALL_TAGS
  {
  }

  /** Every one of the webhook's tags is the collection tag of some accessor:
      the list names no tag that nothing fetches. */
  lemma EveryTagIsUsed(t: string)
    requires t in Revalidate.ALL_TAGS
    ensures exists q :: Strapi.CollectionTag(q) == t
  {
    var qs := [Strapi.Articles, Strapi.TeamMembers(None), Strapi.Testimonials, Strapi.Publications,
               Strapi.Presentations, Strapi.NewsItems, Strapi.CareerOpenings, Strapi.FeaturedLogos,
               Strapi.PageContentBySlug(""), Strapi.AllSiteConfigs];
    var i :| 0 <= i < |Revalidate.ALL_TAGS| && Revalidate.ALL_TAGS[i] == t;
    assert Strapi.CollectionTag(qs[i]) == t;
  }

  /** After an authorised call in which no `revalidateTag` call throws, every
      request any accessor sends carries a tag that is now stale. */
  lemma SuccessfulPostCoversEveryFetch(log: seq<string>, secret: string, q: Strapi.Query,
                                       env: Strapi.Env, encode: string -> string)
    ensures var after := log + Revalidate.PostInvalidations(Some(secret), Some(secret), None);
      var tags := Strapi.Request(env, q, encode).tags;
      && tags.Some?
      && exists t :: t in tags.value && t in Revalidate.StaleTags(after)
  {
    var after := log + Revalidate.PostInvalidations(Some(secret), Some(secret), None);
    var t := Strapi.CollectionTag(q);
    EveryQueryIsCovered(q);
    Strapi.DefaultWindowEverywhere(env, q, encode);
    assert after[|log|..] == Revalidate.ALL_TAGS;
    assert t in after;
    assert t in Strapi.Request(env, q, encode).tags.value;
  }

  /** The record tags of lookups by slug or key are not in the webhook's
      list, with one exception: the page slug "contents", whose record tag
      "page-contents" coincides with the collection tag. So a record is
      refreshed by the webhook only through its collection tag. */
  lemma RecordTagsAreNotListed(arg: string)
    ensures "article-" + arg !in Revalidate.ALL_TAGS
    ensures "config-" + arg !in Revalidate.ALL_TAGS
    ensures "page-" + arg in Revalidate.ALL_TAGS <==> arg == "contents"
  {
    var tags := Revalidate.ALL_TAGS;
    var a, c, p := "article-" + arg, "config-" + arg, "page-" + arg;
    assert a[0] == 'a' && a[7] == '-';
    assert c[0] == 'c' && c[1] == 'o';
    assert p[0] == 'p' && p[1] == 'a' && p[..5] == "page-";
    forall i | 0 <= i < |tags|
      ensures a != tags[i] && c != tags[i]
      ensures p == tags[i] ==> i == 8
    {
      assert i == 0 || i == 1 || i == 2 || i == 3 || i == 4 || i == 5 || i == 6 || i == 7 || i == 8 || i == 9;
    }
    if p in tags {
      var i :| 0 <= i < |tags| && tags[i] == p;
      assert arg == p[5..] == tags[8][5..];
    }
    if arg == "contents" {
      assert |p| == |tags[8]|;
      forall k | 0 <= k < |p| ensures p[k] == tags[8][k] {
        assert k < 5 || k - 5 < |arg|;
      }
      assert p == tags[8];
    }
  }
}
