/** The crawler of pkg/sitemap/crawl.go, updated in place: `add`, `enqueue`, `consume`, and the loops of
    `crawl` over levels and batches. */
module SiteCrawl {
  import opened CrawlFrontier
  import opened CrawlPages
  import opened CrawlLevels
  import Robots

  class Crawler {
    const setting: Setting
    const site: Site
    const limit: nat
    var seen: set<string>
    var urls: seq<Entry>
    var limited: bool
    ghost var offered: set<string>
    var queued: set<string>
    var counts: map<string, nat>
    var robotsSkipped: nat
    ghost var skipped: set<string>
    ghost var enqueued: seq<Target>
    var level: seq<Target>
    var next: seq<Target>
    ghost var fetched: seq<Target>
    ghost var cut: bool
    var crawled: nat
    var rendered: nat
    var pageLimitHit: bool

    ghost function Listed(): Listing
      reads this
    {
      Listing(limit, seen, urls, limited, offered)
    }

    ghost function Planned(): Plan
      reads this
    {
      Plan(queued, counts, robotsSkipped, skipped, enqueued)
    }

    ghost function Value(): State
      reads this
    {
      State(Listed(), Planned(), fetched + level + next)
    }

    ghost function Now(): Progress
      reads this
    {
      Progress(Value(), fetched, level, next, cut, crawled, rendered)
    }

    constructor (setting: Setting, listing: Listing)
      ensures this.setting == setting && site == setting.site && limit == listing.limit
      ensures Listed() == listing && Planned() == JustStart(setting.start)
      ensures level == next == fetched == [] && crawled == rendered == 0 && !pageLimitHit && !cut
    {
      this.setting, site, limit := setting, setting.site, listing.limit;
      seen, urls, limited, offered := listing.seen, listing.urls, listing.limited, listing.offered;
      queued, counts, robotsSkipped, skipped, enqueued := {setting.start}, map[], 0, {}, [];
      level, next, fetched, crawled, rendered, pageLimitHit, cut := [], [], [], 0, 0, false, false;
    }

    predicate Full()
      reads this
    {
      |urls| >= limit
    }

    /** `run.add`. */
    method Add(url: string, source: string)
      modifies this`offered, this`seen, this`urls, this`limited
      ensures Listed() == CrawlFrontier.Add(site, old(Listed()), url, source)
    {
      offered := offered + {url};
      if url == "" || url in seen || !site.permitted(url) {
        return;
      }
      if Full() {
        limited := true;
        return;
      }
      seen := seen + {url};
      urls := urls + [Entry(url, source)];
    }

    /** `Sampler.Allow`. */
    method Allow(shape: string) returns (allowed: bool)
      modifies this`counts
      ensures allowed <==> Taken(old(Planned()), shape) < SHAPE_SAMPLE_LIMIT
      ensures counts == if allowed then old(counts)[shape := Taken(old(Planned()), shape) + 1] else old(counts)
    {
      var taken := if shape in counts then counts[shape] else 0;
      allowed := taken < SHAPE_SAMPLE_LIMIT;
      if allowed {
        counts := counts[shape := taken + 1];
      }
    }

    /** `enqueue`. */
    method Enqueue(url: string, depth: nat)
      requires FollowsRules(site)
      modifies this`queued, this`counts, this`robotsSkipped, this`skipped, this`enqueued, this`next
      ensures Planned() == CrawlFrontier.Enqueue(site, old(Planned()), url, depth)
      ensures next == old(next) + enqueued[|old(enqueued)|..]
    {
      if url == "" || url in queued || !site.permitted(url) {
        return;
      }
      var blocked := Robots.Blocks(site.rules, site.path(url));
      assert blocked <==> Verdict(site, url);
      if blocked {
        queued, skipped := queued + {url}, skipped + {url};
        robotsSkipped := robotsSkipped + 1;
        return;
      }
      var allowed := Allow(site.shape(url));
      if !allowed {
        return;
      }
      queued := queued + {url};
      next, enqueued := next + [Target(url, depth)], enqueued + [Target(url, depth)];
    }

    method Offer(url: string, source: string, expand: bool, depth: nat)
      requires FollowsRules(site)
      modifies this`offered, this`seen, this`urls, this`limited, this`queued, this`counts, this`robotsSkipped, this`skipped, this`enqueued, this`next
      ensures Value() == CrawlFrontier.Offer(site, old(Value()), url, source, expand, depth)
      ensures fetched + level + old(next) <= fetched + level + next
    {
      Add(url, source);
      ghost var more: seq<Target> := [];
      if expand {
        Enqueue(url, depth);
        more := enqueued[|old(enqueued)|..];
      }
      assert fetched + level + (old(next) + more) == (fetched + level + old(next)) + more;
    }

    method OfferAll(links: seq<string>, source: string, expand: bool, depth: nat)
      requires FollowsRules(site)
      modifies this`offered, this`seen, this`urls, this`limited, this`queued, this`counts, this`robotsSkipped, this`skipped, this`enqueued, this`next
      ensures Value() == CrawlFrontier.OfferAll(site, old(Value()), links, source, expand, depth)
    {
      for i := 0 to |links|
        invariant Value() == CrawlFrontier.OfferAll(site, old(Value()), links[..i], source, expand, depth)
      {
        assert links[..i + 1][..i] == links[..i];
        Offer(links[i], source, expand, depth);
      }
      assert links[..|links|] == links;
    }

    /** `consume`, on the listing and the plan. */
    method TakeUp(t: Target, a: Answer)
      requires FollowsRules(site) && IsRead(site, t, a)
      modifies this`offered, this`seen, this`urls, this`limited, this`queued, this`counts, this`robotsSkipped, this`skipped, this`enqueued, this`next
      ensures Value() == CrawlPages.Consume(site, old(Value()), t, a, setting.maxDepth)
    {
      if t.depth == 0 {
        Offer(Normalized(site, t, a), SourceOf(t, a), false, 1);
      }
      if !a.html {
        return;
      }
      var expand := t.depth + 1 < setting.maxDepth && !a.duplicate;
      OfferAll(Normalize(site, a.links, Final(t, a)), SourceOf(t, a), expand, t.depth + 1);
      OfferAll(Normalize(site, a.explored, Final(t, a)), "explore", expand, t.depth + 1);
    }

    /** `consume`: one page. */
    method Consume(t: Target, a: Answer)
      requires FollowsRules(site)
      modifies this`offered, this`seen, this`urls, this`limited, this`queued, this`counts, this`robotsSkipped, this`skipped, this`enqueued, this`next,
               this`crawled, this`rendered
      ensures Value() == CrawlPages.Consume(site, old(Value()), t, a, setting.maxDepth)
      ensures crawled == old(crawled) + if IsRead(site, t, a) then 1 else 0
      ensures rendered == old(rendered) + if IsRead(site, t, a) && a.rendered then 1 else 0
    {
      if !a.Loaded? || a.status >= 400 || Normalized(site, t, a) == "" {
        return;
      }
      crawled := crawled + 1;
      if a.rendered {
        rendered := rendered + 1;
      }
      TakeUp(t, a);
    }
  }
}
