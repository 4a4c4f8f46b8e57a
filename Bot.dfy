/** bot.py's module-level dictionaries and the functions that update them in
    place.  Each method is proved to make exactly the transition that module
    BotState defines, so the lemmas there hold of the running bot. */
module Bot {
  import opened Wrappers
  import opened Strings
  import opened BotState

  class Runner {
    var searched: map<string, seq<string>>     // `_searched`
    var repliedTo: map<string, seq<HeroKey>>   // `_replied_to`
    var failedPosts: map<string, int>          // `_failed_posts`
    var ourPosts: map<string, OwnPost>         // `_our_posts`

    /** The four dictionaries as one value. */
    function Snapshot(): Memory
      reads this
    {
      Memory(searched, repliedTo, failedPosts, ourPosts)
    }

    /** The state at import time: four empty dictionaries (bot.py:24-42). */
    constructor ()
      ensures Snapshot() == EmptyMemory
    {
      searched := map[];
      repliedTo := map[];
      failedPosts := map[];
      ourPosts := map[];
    }

    /** `_search(post)`: mark the item in its hour bucket, then look for a term. */
    method Search(p: ContentItem, st: Settings) returns (found: bool)
      modifies this
      ensures Snapshot() == Mark(old(Snapshot()), p.id, p.Hour())
      ensures found <==> exists i :: 0 <= i < |Terms(st)| && Contains(p.Text(), Terms(st)[i])
    {
      MarkSearched(p);
      found := AnyTerm(p.Text(), Terms(st));
    }

    /** Record the item in its hour's bucket, creating the bucket first. */
    method MarkSearched(p: ContentItem)
      modifies this
      ensures Snapshot() == Mark(old(Snapshot()), p.id, p.Hour())
    {
      var hour := p.Hour();
      if hour !in searched {
        searched := searched[hour := []];
      }
      searched := searched[hour := searched[hour] + [p.id]];
    }

    /** The search loop: does the text contain one of the terms? */
    static method AnyTerm(text: string, terms: seq<string>) returns (found: bool)
      ensures found <==> exists i :: 0 <= i < |terms| && Contains(text, terms[i])
    {
      var i := 0;
      while i < |terms|
        invariant 0 <= i <= |terms|
        invariant forall j :: 0 <= j < i ==> !Contains(text, terms[j])
      {
        if Contains(text, terms[i]) {
          return true;
        }
        i := i + 1;
      }
      return false;
    }

    /** `_filter_check(post)`. */
    method FilterCheck(p: ContentItem, st: Settings, now: int) returns (go: bool)
      modifies this
      ensures (Snapshot(), go) == Filter(old(Snapshot()), p, st, now)
    {
      if p.author.None? {
        return false;
      }
      if p.author.value == st.username || p.id in ourPosts {
        return false;
      }
      var hour := p.Hour();
      if hour in searched && p.id in searched[hour] {
        return false;
      }
      if p.createdUtc < now - st.maxTimeframe {
        return false;
      }
      go := Search(p, st);
    }

    /** `_add_to_failed(post)`, threshold read as a number. */
    method AddToFailed(p: ContentItem, failsAllowed: int) returns (e: Option<Exception>)
      modifies this
      ensures (Snapshot(), e) == BotState.AddToFailed(old(Snapshot()), p, failsAllowed)
    {
      if p.id in failedPosts {
        failedPosts := failedPosts[p.id := failedPosts[p.id] + 1];
      } else {
        failedPosts := failedPosts[p.id := 1];
      }
      if failedPosts[p.id] < failsAllowed {
        var hour := p.Hour();
        if hour !in searched {
          return Some(KeyError);
        }
        if p.id !in searched[hour] {
          return Some(ValueError);
        }
        searched := searched[hour := RemoveFirst(searched[hour], p.id)];
      }
      return None;
    }

    /** `_add_reply(post)` with the url formatted and the failure logged under `post.id`. */
    method AddReply(p: ContentItem, st: Settings, tr: Transport) returns (res: Result<bool>)
      modifies this
      ensures (Snapshot(), res) == BotState.AddReply(old(Snapshot()), p, st, tr)
    {
      ghost var m := Snapshot();
      var info := HeroInfo(p.Text(), st.baseUrl);
      if info.ParseFailed? {
        return Raised(info.error);
      }
      if info.NoRegion? {
        var e := AddToFailed(p, st.failsAllowed);
        return if e.Some? then Raised(e.value) else Ok(false);
      }
      res := Answer(p, info.key, st, tr);
    }

    /** The ledger part of `_add_reply`, once the hero is known. */
    method Answer(p: ContentItem, key: HeroKey, st: Settings, tr: Transport) returns (res: Result<bool>)
      modifies this
      ensures (Snapshot(), res) == BotState.Answer(old(Snapshot()), p, key, st, tr)
    {
      var sub := p.Discussion();
      if sub in repliedTo && key in repliedTo[sub] {
        return Ok(false);
      }
      EnsureLedger(sub);
      ghost var m1 := Snapshot();
      var text := tr.render(key);
      if text.Raised? {
        return Raised(text.error);
      }
      repliedTo := repliedTo[sub := repliedTo[sub] + [key]];
      var posted := tr.reply(p, text.value);
      ourPosts := ourPosts[posted.id := OwnPost(posted.createdUtc, sub)];
      RecordFields(m1, sub, key, posted, repliedTo, ourPosts);
      return Ok(true);
    }

    /** Give the discussion an empty ledger unless it has one. */
    method EnsureLedger(sub: string)
      modifies this
      ensures Snapshot() == OpenLedger(old(Snapshot()), sub)
    {
      if sub !in repliedTo {
        repliedTo := repliedTo[sub := []];
      }
    }

    /** One listing of `run`: filter and answer each item in order, stopping at
        the first exception. */
    method ProcessListing(items: seq<ContentItem>, st: Settings, now: int, tr: Transport) returns (e: Option<Exception>)
      modifies this
      ensures (Snapshot(), e) == Process(old(Snapshot()), items, st, now, tr)
    {
      var i := 0;
      while i < |items|
        invariant 0 <= i <= |items|
        invariant Process(old(Snapshot()), items, st, now, tr) == Process(Snapshot(), items[i..], st, now, tr)
      {
        assert items[i..][0] == items[i] && items[i..][1..] == items[i + 1..];
        var go := FilterCheck(items[i], st, now);
        if go {
          var res := AddReply(items[i], st, tr);
          if res.Raised? {
            return Some(res.error);
          }
        }
        i := i + 1;
      }
      return None;
    }

    /** `_remove_if_necessary`: decide for every tracked reply, then delete the
        ones decided on; returns the replies deleted on reddit. */
    method RemoveIfNecessary(now: int, fetch: (string, string) -> Fetch) returns (deleted: set<string>)
      modifies this
      ensures (Snapshot(), deleted) == Sweep(old(Snapshot()), now, fetch)
    {
      var toDelete;
      toDelete, deleted := SweepScan(now, fetch);
      DropTracked(toDelete);
      assert ourPosts == Sweep(old(Snapshot()), now, fetch).0.ourPosts;
    }

    /** The first loop of `_remove_if_necessary`: which tracked replies to
        forget (expired, gone, or negatively scored) and which of them were
        deleted on reddit. */
    method SweepScan(now: int, fetch: (string, string) -> Fetch) returns (toDelete: set<string>, deleted: set<string>)
      ensures toDelete == set id | id in ourPosts && !Kept(id, ourPosts[id], now, fetch)
      ensures deleted == Sweep(Snapshot(), now, fetch).1
    {
      var removalTime := now - RetentionSeconds;
      toDelete := {};
      deleted := {};
      var pending := ourPosts.Keys;
      while pending != {}
        invariant pending <= ourPosts.Keys
        invariant toDelete == set id | id in ourPosts && id !in pending && !Kept(id, ourPosts[id], now, fetch)
        invariant deleted == set id | id in ourPosts && id !in pending && Deleted(id, ourPosts[id], now, fetch)
        decreases pending
      {
        var id :| id in pending;
        var rec := ourPosts[id];
        if rec.timestamp < removalTime {
          toDelete := toDelete + {id};
        } else {
          var f := fetch(rec.sId, id);
          if f.NotFound? {
            toDelete := toDelete + {id};
          } else if f.score < 0 {
            deleted := deleted + {id};
            toDelete := toDelete + {id};
          }
        }
        pending := pending - {id};
      }
    }

    /** The second loop of `_remove_if_necessary`: forget the given replies. */
    method DropTracked(toDelete: set<string>)
      modifies this
      ensures ourPosts == map id | id in old(ourPosts) && id !in toDelete :: old(ourPosts)[id]
      ensures searched == old(searched) && repliedTo == old(repliedTo) && failedPosts == old(failedPosts)
    {
      var rest := toDelete;
      while rest != {}
        invariant searched == old(searched) && repliedTo == old(repliedTo) && failedPosts == old(failedPosts)
        invariant ourPosts == map id | id in old(ourPosts) && (id !in toDelete || id in rest) :: old(ourPosts)[id]
        decreases rest
      {
        var id :| id in rest;
        ourPosts := ourPosts - {id};
        rest := rest - {id};
      }
    }

    /** The body of the loop in `_get_our_posts` for one recent comment:
        mark its parent as searched in the comment's hour and track it. */
    method RememberComment(c: OwnComment)
      modifies this
      ensures Snapshot() == Remember(old(Snapshot()), c)
    {
      var hour := HourKey(c.createdUtc);
      if hour !in searched {
        searched := searched[hour := []];
      }
      searched := searched[hour := searched[hour] + [ParentKey(c.parentId)]];
      ourPosts := ourPosts[c.id := OwnPost(c.createdUtc, c.submissionId)];
      RememberFields(old(Snapshot()), c, searched, ourPosts);
    }

    /** `_get_our_posts` with `cutoff = now - timeframe`: remember own comments
        (newest first) until the first older one. */
    method GetOurPosts(cs: seq<OwnComment>, cutoff: int)
      modifies this
      ensures Snapshot() == Bootstrap(old(Snapshot()), cs, cutoff)
    {
      var i := 0;
      while i < |cs|
        invariant 0 <= i <= |cs|
        invariant Bootstrap(old(Snapshot()), cs, cutoff) == Bootstrap(Snapshot(), cs[i..], cutoff)
      {
        var c := cs[i];
        assert cs[i..][0] == c && cs[i..][1..] == cs[i + 1..];
        if c.createdUtc < cutoff {
          break;
        }
        RememberComment(c);
        i := i + 1;
      }
    }

    /** One turn of the loop in `run`: submissions, then comments, then the sweep. */
    method RunCycle(submissions: seq<ContentItem>, comments: seq<ContentItem>, st: Settings, now: int,
                    tr: Transport, fetch: (string, string) -> Fetch) returns (e: Option<Exception>)
      modifies this
      ensures (Snapshot(), e) == Cycle(old(Snapshot()), submissions, comments, st, now, tr, fetch)
    {
      e := ProcessListing(submissions, st, now, tr);
      if e.Some? {
        return;
      }
      e := ProcessListing(comments, st, now, tr);
      if e.Some? {
        return;
      }
      var _ := RemoveIfNecessary(now, fetch);
    }
  }
}
