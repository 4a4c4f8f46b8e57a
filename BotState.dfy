/** The bot's bookkeeping (bot.py) as values: the four module-level dictionaries
    and the transitions `_filter_check`, `_search`, `_add_reply`, `_add_to_failed`,
    `_remove_if_necessary` and `_get_our_posts` make on them.  The class in
    module Bot performs the same transitions in place. */
module BotState {
  import opened Wrappers
  import opened Strings

  const HourSeconds: int := 60 * 60
  const DaySeconds: int := 24 * HourSeconds
  /** How long the bot keeps watching its own replies (bot.py:55, :270). */
  const RetentionSeconds: int := 48 * HourSeconds

  // ---------------------------------------------------------------------------
  // `_get_hour`: hour-of-day buckets

  /** The UTC hour of day of a POSIX timestamp, as `time.gmtime` computes it
      (floor division, so also for timestamps before 1970). */
  function HourOfDay(t: int): (h: int)
    ensures 0 <= h < 24
  {
    (t / HourSeconds) % 24
  }

  function DigitChar(d: int): char
    requires 0 <= d < 10
  {
    ('0' as int + d) as char
  }

  function DigitValue(c: char): int {
    c as int - '0' as int
  }

  /** `_get_hour`: `strftime('%H')`, the hour of day as two decimal digits. */
  function HourKey(t: int): (k: string)
    ensures |k| == 2 && IsDigit(k[0]) && IsDigit(k[1])
    ensures DigitValue(k[0]) * 10 + DigitValue(k[1]) == HourOfDay(t)
  {
    var h := HourOfDay(t);
    [DigitChar(h / 10), DigitChar(h % 10)]
  }

  /** Two timestamps share a bucket exactly when they share the hour of day. */
  lemma HourKeySameBucket(a: int, b: int)
    ensures HourKey(a) == HourKey(b) <==> HourOfDay(a) == HourOfDay(b)
  {
    if HourKey(a) == HourKey(b) {
      assert HourOfDay(a) == DigitValue(HourKey(a)[0]) * 10 + DigitValue(HourKey(a)[1]);
    }
  }

  /** The buckets repeat every day: a timestamp and the same time any number of
      days later (or earlier) land in the same bucket. */
  lemma {:induction false} HourKeyRepeatsDaily(t: int, days: int)
    ensures HourKey(t + days * DaySeconds) == HourKey(t)
  {
    var x := t + days * DaySeconds;
    assert x == t + (24 * days) * 3600;
    assert x / 3600 == t / 3600 + 24 * days;
    assert (t / 3600 + 24 * days) % 24 == (t / 3600) % 24;
  }

  // ---------------------------------------------------------------------------
  // Items, settings and the four dictionaries

  /** A submission or a comment of the watched subreddit. */
  datatype ContentItem =
    | Submission(id: string, author: Option<string>, createdUtc: int, selftext: string)
    | Comment(id: string, author: Option<string>, createdUtc: int, body: string, submissionId: string)
  {
    /** The text searched and parsed: a comment's `body`, a submission's `selftext`. */
    function Text(): string {
      if Comment? then body else selftext
    }

    /** The id of the discussion (submission) the item belongs to. */
    function Discussion(): string {
      if Comment? then submissionId else id
    }

    function Hour(): string {
      HourKey(createdUtc)
    }
  }

  /** The `reddit_bot` configuration the core reads. */
  datatype Settings = Settings(
    username: string,      // `username`
    searchTerms: string,   // `search_terms`, comma separated
    maxTimeframe: int,     // `int(max_timeframe)`, seconds
    failsAllowed: int,     // `fails_allowed`, read as a number
    baseUrl: string)       // `base_url`, a template with a `{region}` placeholder

  /** `_search_terms`: `search_terms.split(',')`. */
  function Terms(st: Settings): seq<string> {
    Split(st.searchTerms, ',')
  }

  /** `{profile, hero_id, region}`: what one reply shows. */
  datatype HeroKey = HeroKey(profile: string, heroId: string, region: string)

  /** A tracked reply of the bot's own: `{timestamp, s_id}`. */
  datatype OwnPost = OwnPost(timestamp: int, sId: string)

  /** The four module-level dictionaries of bot.py. */
  datatype Memory = Memory(
    searched: map<string, seq<string>>,     // hour key -> ids already searched
    repliedTo: map<string, seq<HeroKey>>,   // submission id -> heroes shown there
    failedPosts: map<string, int>,          // item id -> failed attempts
    ourPosts: map<string, OwnPost>)         // own reply id -> its record

  const EmptyMemory := Memory(map[], map[], map[], map[])

  /** The ids in one hour bucket (an absent bucket reads as empty). */
  function Bucket(m: Memory, key: string): seq<string> {
    if key in m.searched then m.searched[key] else []
  }

  predicate Seen(m: Memory, id: string, key: string) {
    key in m.searched && id in m.searched[key]
  }

  /** The heroes already shown in one discussion. */
  function Shown(m: Memory, sub: string): seq<HeroKey> {
    if sub in m.repliedTo then m.repliedTo[sub] else []
  }

  function FailCount(m: Memory, id: string): int {
    if id in m.failedPosts then m.failedPosts[id] else 0
  }

  /** No discussion lists the same hero twice. */
  ghost predicate LedgerDuplicateFree(m: Memory) {
    forall sub, i, j :: sub in m.repliedTo && 0 <= i < j < |m.repliedTo[sub]| ==>
      m.repliedTo[sub][i] != m.repliedTo[sub][j]
  }

  // ---------------------------------------------------------------------------
  // `_filter_check` and `_search` (bot.py:90-132)

  /** Some search term occurs in the text (bot.py:128-132). */
  function AnyTermIn(terms: seq<string>, text: string): (b: bool)
    ensures b <==> exists i :: 0 <= i < |terms| && Contains(text, terms[i])
  {
    if |terms| == 0 then false
    else if Contains(text, terms[0]) then true
    else
      var b := AnyTermIn(terms[1..], text);
      assert forall i :: 1 <= i < |terms| ==> terms[i] == terms[1..][i - 1];
      b
  }

  /** The checks of `_filter_check` that an item must pass before it is searched. */
  predicate Eligible(m: Memory, p: ContentItem, st: Settings, now: int) {
    && p.author.Some?
    && p.author.value != st.username
    && p.id !in m.ourPosts
    && !Seen(m, p.id, p.Hour())
    && p.createdUtc >= now - st.maxTimeframe
  }

  /** Append an id to its hour bucket, creating the bucket if needed. */
  function Mark(m: Memory, id: string, key: string): (r: Memory)
    ensures Seen(r, id, key)
  {
    m.(searched := m.searched[key := Bucket(m, key) + [id]])
  }

  /** `_filter_check(post)`, which ends in `_search(post)`: the memory afterwards
      and whether the item is to be answered. */
  function Filter(m: Memory, p: ContentItem, st: Settings, now: int): (r: (Memory, bool))
    ensures !Eligible(m, p, st, now) ==> r == (m, false)
    ensures Eligible(m, p, st, now) ==>
      && Seen(r.0, p.id, p.Hour())
      && r.0.searched == m.searched[p.Hour() := Bucket(m, p.Hour()) + [p.id]]
      && (r.1 <==> exists i :: 0 <= i < |Terms(st)| && Contains(p.Text(), Terms(st)[i]))
    ensures r.0.repliedTo == m.repliedTo && r.0.failedPosts == m.failedPosts && r.0.ourPosts == m.ourPosts
  {
    if p.author.None? then (m, false)
    else if p.author.value == st.username || p.id in m.ourPosts then (m, false)
    else if Seen(m, p.id, p.Hour()) then (m, false)
    else if p.createdUtc < now - st.maxTimeframe then (m, false)
    else (Mark(m, p.id, p.Hour()), AnyTermIn(Terms(st), p.Text()))
  }

  // ---------------------------------------------------------------------------
  // `_get_hero_info` (bot.py:189-214)

  /** What `_get_hero_info` makes of a text: no known host (`None`), a hero, or an exception. */
  datatype HeroParse = NoRegion | Parsed(key: HeroKey) | ParseFailed(error: Exception)

  /** `base_url.format(region=r)`: the base url of one region. */
  function RegionUrl(template: string, region: string): string {
    Replace(template, "{region}", region)
  }

  /** The base url of a region without its scheme: what bot.py:195-198 look for in the text. */
  function RegionHost(template: string, region: string): string {
    Replace(RegionUrl(template, region), "http://", "")
  }

  /** The region whose host the text mentions; `us` wins when both occur. */
  function RegionOf(content: string, template: string): (r: Option<string>)
    ensures r.None? <==> !Contains(content, RegionHost(template, "us")) && !Contains(content, RegionHost(template, "eu"))
    ensures r == Some("us") <==> Contains(content, RegionHost(template, "us"))
    ensures r.Some? ==> r.value == "us" || r.value == "eu"
  {
    if Contains(content, RegionHost(template, "us")) then Some("us")
    else if Contains(content, RegionHost(template, "eu")) then Some("eu")
    else None
  }

  /** The part of the text the ids are read from: `content.split(separator)[1]`
      when the separator occurs, the whole text otherwise (bot.py:206-210). */
  function Fragment(content: string, separator: string): (r: string)
    requires |separator| > 0
    ensures !Contains(content, separator) ==> r == content
  {
    match SecondPiece(content, separator)
    case Some(t) => t
    case None => content
  }

  /** `(profile, hero_id)` read from a fragment (bot.py:211-212): the digits that
      start the text after the first `hero/`, and the text after the first
      `profile/` cut at the next `profile/` and then at the first `/hero/`. */
  function ProfileAndHero(temp: string): (r: Result<(string, string)>)
    ensures r.Raised? <==> !Contains(temp, "hero/") || !Contains(temp, "profile/")
    ensures r.Raised? ==> r.error == IndexError
    ensures r.Ok? ==> forall i :: 0 <= i < |r.value.1| ==> IsDigit(r.value.1[i])
    ensures r.Ok? ==> !Contains(r.value.0, "/hero/")
  {
    match SecondPiece(temp, "hero/")
    case None => Raised(IndexError)
    case Some(h) =>
      match SecondPiece(temp, "profile/")
      case None => Raised(IndexError)
      case Some(pr) => Ok((Before(pr, "/hero/"), LeadingDigits(h)))
  }

  /** Split the text on `separator` and read the hero of `region` from it. */
  function ParseWith(content: string, region: string, separator: string): HeroParse {
    if |separator| == 0 then ParseFailed(ValueError)
    else
      match ProfileAndHero(Fragment(content, separator))
      case Raised(e) => ParseFailed(e)
      case Ok(ph) => Parsed(HeroKey(ph.0, ph.1, region))
  }

  /** `_get_hero_info(content)`, splitting on the region's base url as intended. */
  function HeroInfo(content: string, template: string): (r: HeroParse)
    ensures r.NoRegion? <==> RegionOf(content, template).None?
    ensures r.Parsed? ==> RegionOf(content, template) == Some(r.key.region)
    ensures r.Parsed? ==> forall i :: 0 <= i < |r.key.heroId| ==> IsDigit(r.key.heroId[i])
    ensures r.ParseFailed? ==> r.error == IndexError || r.error == ValueError
  {
    match RegionOf(content, template)
    case None => NoRegion
    case Some(region) => ParseWith(content, region, RegionUrl(template, region))
  }

  /** `_get_hero_info(content)` as written: bot.py:204 formats the key literal
      `'base_url'`, so the text is split on the unformatted template. */
  function HeroInfoAsWritten(content: string, template: string): (r: HeroParse)
    ensures r.NoRegion? <==> RegionOf(content, template).None?
  {
    match RegionOf(content, template)
    case None => NoRegion
    case Some(region) => ParseWith(content, region, template)
  }

  /** A marker such as `hero/` or `profile/`, a word ended by its only `/`,
      has no proper prefix that is also a suffix. */
  lemma UnborderedMarker(t: string)
    requires |t| > 0 && t[|t| - 1] == '/' && '/' !in t[..|t| - 1]
    ensures Unbordered(t)
  {
    forall k | 0 < k < |t| ensures t[..k] != t[|t| - k..] {
      assert t[..k][k - 1] == t[..|t| - 1][k - 1];
      assert t[|t| - k..][k - 1] == '/';
    }
  }

  lemma AllDigitsLeading(h: string)
    requires forall i :: 0 <= i < |h| ==> IsDigit(h[i])
    ensures LeadingDigits(h) == h
    decreases |h|
  {
    if |h| > 0 {
      AllDigitsLeading(h[1..]);
    }
  }

  /** The piece after the first `hero/`, when that is the one after `a`. */
  lemma HeroPiece(a: string, hero: string)
    requires !Contains(a, "hero/")
    requires forall i :: 0 <= i < |hero| ==> IsDigit(hero[i])
    ensures SecondPiece(a + "hero/" + hero, "hero/") == Some(hero)
  {
    UnborderedMarker("hero/");
    FirstOccurrenceAfter(a, "hero/", hero);
    SplitAt(a, "hero/", hero);
    MissingChar(hero, "hero/", 'h');
  }

  /** The piece after the first `profile/`, when that is the one after `pre`. */
  lemma ProfilePiece(pre: string, rest: string)
    requires !Contains(pre, "profile/") && !Contains(rest, "profile/")
    ensures SecondPiece(pre + "profile/" + rest, "profile/") == Some(rest)
  {
    UnborderedMarker("profile/");
    FirstOccurrenceAfter(pre, "profile/", rest);
    SplitAt(pre, "profile/", rest);
  }

  /** Reading `pre + "profile/" + P + "/hero/" + H` gives back `(P, H)` when `H`
      is digits, `P` has no `/`, the first `profile/` and the first `hero/` are
      the ones around `P`, and nothing after the first `profile/` repeats it. */
  lemma {:induction false} FragmentRoundTrip(pre: string, profile: string, hero: string)
    requires !Contains(pre, "profile/")
    requires !Contains(pre + "profile/" + profile + "/", "hero/")
    requires '/' !in profile
    requires !Contains(profile + "/hero/" + hero, "profile/")
    requires forall i :: 0 <= i < |hero| ==> IsDigit(hero[i])
    ensures ProfileAndHero(pre + "profile/" + profile + "/hero/" + hero) == Ok((profile, hero))
  {
    var temp := pre + "profile/" + profile + "/hero/" + hero;
    HeroOfFragment(pre, profile, hero);
    ProfileOfFragment(pre, profile, hero);
    ProfileBeforeHero(profile, hero);
    AllDigitsLeading(hero);
    ReadPieces(temp, hero, profile + "/hero/" + hero);
  }

  lemma HeroOfFragment(pre: string, profile: string, hero: string)
    requires !Contains(pre + "profile/" + profile + "/", "hero/")
    requires forall i :: 0 <= i < |hero| ==> IsDigit(hero[i])
    ensures SecondPiece(pre + "profile/" + profile + "/hero/" + hero, "hero/") == Some(hero)
  {
    var a := pre + "profile/" + profile + "/";
    assert pre + "profile/" + profile + "/hero/" + hero == a + "hero/" + hero;
    HeroPiece(a, hero);
  }

  lemma ProfileOfFragment(pre: string, profile: string, hero: string)
    requires !Contains(pre, "profile/")
    requires !Contains(profile + "/hero/" + hero, "profile/")
    ensures SecondPiece(pre + "profile/" + profile + "/hero/" + hero, "profile/") == Some(profile + "/hero/" + hero)
  {
    var rest := profile + "/hero/" + hero;
    assert pre + "profile/" + profile + "/hero/" + hero == pre + "profile/" + rest by {
      assert profile + "/hero/" + hero == rest;
    }
    ProfilePiece(pre, rest);
  }

  lemma ProfileBeforeHero(profile: string, hero: string)
    requires '/' !in profile
    ensures Before(profile + "/hero/" + hero, "/hero/") == profile
  {
    FirstOccurrenceHead(profile, "/hero/", hero);
    SplitAt(profile, "/hero/", hero);
  }

  lemma ReadPieces(temp: string, h: string, pr: string)
    requires SecondPiece(temp, "hero/") == Some(h) && SecondPiece(temp, "profile/") == Some(pr)
    ensures ProfileAndHero(temp) == Ok((Before(pr, "/hero/"), LeadingDigits(h)))
  {
  }

  /** As written, a text that does not contain the raw template is read whole. */
  lemma AsWrittenReadsWholeText(content: string, template: string, region: string)
    requires |template| > 0 && !Contains(content, template)
    requires RegionOf(content, template) == Some(region)
    ensures HeroInfoAsWritten(content, template) == match ProfileAndHero(content)
      case Raised(e) => ParseFailed(e)
      case Ok(ph) => Parsed(HeroKey(ph.0, ph.1, region))
  {
  }

  /** Parsing `base + "profile/" + P + "/hero/" + H`, where `base` is the base url
      of the region found, after any text that does not contain that base url,
      gives `(P, H)` in that region. */
  lemma {:induction false} HeroInfoRoundTrip(pre: string, template: string, region: string, base: string, profile: string, hero: string)
    requires base == RegionUrl(template, region) && |base| > 0 && Unbordered(base)
    requires RegionOf(pre + base + "profile/" + profile + "/hero/" + hero, template) == Some(region)
    requires !Contains(pre, base)
    requires !Contains("profile/" + profile + "/hero/" + hero, base)
    requires !Contains("profile/" + profile + "/", "hero/")
    requires '/' !in profile
    requires !Contains(profile + "/hero/" + hero, "profile/")
    requires forall i :: 0 <= i < |hero| ==> IsDigit(hero[i])
    ensures HeroInfo(pre + base + "profile/" + profile + "/hero/" + hero, template) == Parsed(HeroKey(profile, hero, region))
  {
    var frag := "profile/" + profile + "/hero/" + hero;
    ReassociateFragment(pre + base, profile, hero);
    BareFragment(profile, hero);
    ParsedAfterBase(pre, template, region, base, frag, profile, hero);
  }

  lemma ReassociateFragment(x: string, profile: string, hero: string)
    ensures x + "profile/" + profile + "/hero/" + hero == x + ("profile/" + profile + "/hero/" + hero)
  {
    var b1 := "profile/" + profile;
    var b2 := b1 + "/hero/";
    assert x + "profile/" + profile == x + b1;
    assert x + b1 + "/hero/" == x + b2;
    assert x + b2 + hero == x + (b2 + hero);
  }

  /** The fragment read on its own. */
  lemma BareFragment(profile: string, hero: string)
    requires !Contains("profile/" + profile + "/", "hero/")
    requires '/' !in profile
    requires !Contains(profile + "/hero/" + hero, "profile/")
    requires forall i :: 0 <= i < |hero| ==> IsDigit(hero[i])
    ensures ProfileAndHero("profile/" + profile + "/hero/" + hero) == Ok((profile, hero))
  {
    NoProfileInEmpty();
    assert "" + "profile/" + profile + "/hero/" + hero == "profile/" + profile + "/hero/" + hero;
    assert "" + "profile/" + profile + "/" == "profile/" + profile + "/";
    FragmentRoundTrip("", profile, hero);
  }

  lemma ParsedAfterBase(pre: string, template: string, region: string, base: string, frag: string, profile: string, hero: string)
    requires base == RegionUrl(template, region) && |base| > 0 && Unbordered(base)
    requires RegionOf(pre + base + frag, template) == Some(region)
    requires !Contains(pre, base) && !Contains(frag, base)
    requires ProfileAndHero(frag) == Ok((profile, hero))
    ensures HeroInfo(pre + base + frag, template) == Parsed(HeroKey(profile, hero, region))
  {
    FragmentAfter(pre, base, frag);
    HeroInfoOf(pre + base + frag, template, region, frag);
  }

  /** The fragment after the first occurrence of an unbordered base url. */
  lemma FragmentAfter(pre: string, base: string, frag: string)
    requires |base| > 0 && Unbordered(base)
    requires !Contains(pre, base) && !Contains(frag, base)
    ensures Fragment(pre + base + frag, base) == frag
  {
    FirstOccurrenceAfter(pre, base, frag);
    SplitAt(pre, base, frag);
  }

  lemma NoProfileInEmpty()
    ensures !Contains("", "profile/")
  {
    MissingChar("", "profile/", 'p');
  }

  /** `HeroInfo` in terms of the fragment it reads. */
  lemma HeroInfoOf(content: string, template: string, region: string, frag: string)
    requires RegionOf(content, template) == Some(region)
    requires |RegionUrl(template, region)| > 0
    requires Fragment(content, RegionUrl(template, region)) == frag
    requires ProfileAndHero(frag).Ok?
    ensures HeroInfo(content, template) == Parsed(HeroKey(ProfileAndHero(frag).value.0, ProfileAndHero(frag).value.1, region))
  {
  }

  // ---------------------------------------------------------------------------
  // `_add_to_failed` (bot.py:249-262)

  /** `list.remove(x)`: the list without the first occurrence of `x`. */
  function RemoveFirst(xs: seq<string>, x: string): (r: seq<string>)
    requires x in xs
    ensures |r| == |xs| - 1
    ensures multiset(r) == multiset(xs) - multiset{x}
  {
    if xs[0] == x then
      assert xs == [xs[0]] + xs[1..];
      xs[1..]
    else
      var r := [xs[0]] + RemoveFirst(xs[1..], x);
      assert xs == [xs[0]] + xs[1..];
      r
  }

  /** One more failed attempt for the item. */
  function CountFailure(m: Memory, id: string): (r: Memory)
    ensures FailCount(r, id) == FailCount(m, id) + 1
    ensures forall other :: other != id ==> FailCount(r, other) == FailCount(m, other)
    ensures r.searched == m.searched && r.repliedTo == m.repliedTo && r.ourPosts == m.ourPosts
  {
    m.(failedPosts := m.failedPosts[id := FailCount(m, id) + 1])
  }

  /** Take the item's id out of its hour bucket, as `_searched[hour].remove(id)`
      does: a missing bucket is a KeyError, a missing id a ValueError. */
  function Unmark(m: Memory, p: ContentItem): (r: (Memory, Option<Exception>))
    ensures p.Hour() !in m.searched ==> r == (m, Some(KeyError))
    ensures p.Hour() in m.searched && p.id !in m.searched[p.Hour()] ==> r == (m, Some(ValueError))
    ensures r.1.None? <==> Seen(m, p.id, p.Hour())
    ensures r.1.None? ==>
      && r.0.searched.Keys == m.searched.Keys
      && (forall k :: k in m.searched && k != p.Hour() ==> r.0.searched[k] == m.searched[k])
      && multiset(Bucket(r.0, p.Hour())) == multiset(Bucket(m, p.Hour())) - multiset{p.id}
    ensures r.0.repliedTo == m.repliedTo && r.0.failedPosts == m.failedPosts && r.0.ourPosts == m.ourPosts
  {
    var h := p.Hour();
    if h !in m.searched then (m, Some(KeyError))
    else if p.id !in m.searched[h] then (m, Some(ValueError))
    else (m.(searched := m.searched[h := RemoveFirst(m.searched[h], p.id)]), None)
  }

  /** `_add_to_failed(post)` with the threshold read as a number and the log
      line naming `post.id`: count the failure, and while the count is below
      the threshold unmark the item so that a later cycle tries it again. */
  function AddToFailed(m: Memory, p: ContentItem, failsAllowed: int): (r: (Memory, Option<Exception>))
    ensures FailCount(r.0, p.id) == FailCount(m, p.id) + 1
    ensures r.0.failedPosts == m.failedPosts[p.id := FailCount(m, p.id) + 1]
    ensures r.0.repliedTo == m.repliedTo && r.0.ourPosts == m.ourPosts
    ensures r.0.searched.Keys == m.searched.Keys
    ensures forall k :: k in m.searched && k != p.Hour() ==> r.0.searched[k] == m.searched[k]
    ensures FailCount(m, p.id) + 1 >= failsAllowed ==> r.0.searched == m.searched && r.1 == None
    ensures FailCount(m, p.id) + 1 < failsAllowed ==>
      && (p.Hour() !in m.searched ==> r.0.searched == m.searched && r.1 == Some(KeyError))
      && (p.Hour() in m.searched && p.id !in m.searched[p.Hour()] ==>
            r.0.searched == m.searched && r.1 == Some(ValueError))
      && (Seen(m, p.id, p.Hour()) ==>
            r.1 == None && multiset(Bucket(r.0, p.Hour())) == multiset(Bucket(m, p.Hour())) - multiset{p.id})
  {
    var m1 := CountFailure(m, p.id);
    if FailCount(m1, p.id) < failsAllowed then Unmark(m1, p) else (m1, None)
  }

  /** `_add_to_failed(post)` as written.  bot.py:257 compares the count with the
      configuration string, and in Python 2 every int is less than every str, so
      the item is always unmarked; bot.py:260 (and :262) then name an undefined
      `post_id`, so the call always ends in an exception once the state has
      changed. */
  function AddToFailedAsWritten(m: Memory, p: ContentItem): (r: (Memory, Option<Exception>))
    ensures r.0.failedPosts == m.failedPosts[p.id := FailCount(m, p.id) + 1]
    ensures r.0.repliedTo == m.repliedTo && r.0.ourPosts == m.ourPosts
    ensures r.1.Some?
    ensures r.1 == Some(NameError) <==> Seen(m, p.id, p.Hour())
  {
    var m1 := CountFailure(m, p.id);
    assert m1.searched == m.searched;
    var unmarked := Unmark(m1, p);
    if unmarked.1.Some? then unmarked else (unmarked.0, Some(NameError))
  }

  /** Once the count reaches the threshold the item keeps its mark, so
      `_filter_check` never lets it through again. */
  lemma GiveUpKeepsMark(m: Memory, p: ContentItem, st: Settings, now: int)
    requires Seen(m, p.id, p.Hour())
    requires FailCount(m, p.id) + 1 >= st.failsAllowed
    ensures Seen(AddToFailed(m, p, st.failsAllowed).0, p.id, p.Hour())
    ensures Filter(AddToFailed(m, p, st.failsAllowed).0, p, st, now) == (AddToFailed(m, p, st.failsAllowed).0, false)
  {
  }

  /** Below the threshold an item marked once is unmarked, so the next cycle
      searches it again. */
  lemma RetryUnmarks(m: Memory, p: ContentItem, failsAllowed: int)
    requires Seen(m, p.id, p.Hour()) && multiset(m.searched[p.Hour()])[p.id] == 1
    requires FailCount(m, p.id) + 1 < failsAllowed
    ensures AddToFailed(m, p, failsAllowed).1 == None
    ensures !Seen(AddToFailed(m, p, failsAllowed).0, p.id, p.Hour())
  {
    var r := AddToFailed(m, p, failsAllowed).0;
    assert multiset(Bucket(r, p.Hour()))[p.id] == 0;
  }

  /** Starting from no failures, an item that fails every time is searched
      exactly `failsAllowed` times: the first `failsAllowed - 1` failures unmark
      it, the last one leaves it marked. */
  lemma {:induction false} RetriedUntilThreshold(m: Memory, p: ContentItem, failsAllowed: int, k: nat)
    requires Seen(m, p.id, p.Hour()) && multiset(m.searched[p.Hour()])[p.id] == 1
    requires FailCount(m, p.id) == k
    ensures k + 1 < failsAllowed ==> !Seen(AddToFailed(m, p, failsAllowed).0, p.id, p.Hour())
    ensures k + 1 >= failsAllowed ==> Seen(AddToFailed(m, p, failsAllowed).0, p.id, p.Hour())
  {
    if k + 1 < failsAllowed {
      RetryUnmarks(m, p, failsAllowed);
    }
  }

  // ---------------------------------------------------------------------------
  // `_add_reply` (bot.py:139-186)

  /** What the reddit API returns for a posted reply. */
  datatype PostedReply = PostedReply(id: string, createdUtc: int)

  /** The outside world `_add_reply` talks to: `_create_post` (the hero lookup,
      the profiler and the formatter) and the reply call of the item.
      `_create_post` either gives the text or raises: when the hero cannot be
      loaded, `hero_lookup` stores into `None` and raises a TypeError
      (`Lookup.Tagged`) before `_create_post` can test the hero, so it never
      returns `None`. */
  datatype Transport = Transport(
    render: HeroKey -> Result<string>,
    reply: (ContentItem, string) -> PostedReply)

  /** Make sure the discussion has a (possibly empty) ledger, as bot.py:170 does. */
  function OpenLedger(m: Memory, sub: string): (r: Memory)
    ensures sub in r.repliedTo && Shown(r, sub) == Shown(m, sub)
    ensures forall s :: s != sub ==> Shown(r, s) == Shown(m, s)
    ensures r.repliedTo.Keys == m.repliedTo.Keys + {sub}
    ensures r.searched == m.searched && r.failedPosts == m.failedPosts && r.ourPosts == m.ourPosts
  {
    if sub in m.repliedTo then m else m.(repliedTo := m.repliedTo[sub := []])
  }

  /** The reply went out: record the hero in the discussion's ledger and track
      the new reply. */
  function Record(m: Memory, sub: string, key: HeroKey, posted: PostedReply): (r: Memory)
    ensures Shown(r, sub) == Shown(m, sub) + [key]
    ensures forall s :: s != sub ==> Shown(r, s) == Shown(m, s)
    ensures r.ourPosts == m.ourPosts[posted.id := OwnPost(posted.createdUtc, sub)]
    ensures r.searched == m.searched && r.failedPosts == m.failedPosts
  {
    m.(repliedTo := m.repliedTo[sub := Shown(m, sub) + [key]],
       ourPosts := m.ourPosts[posted.id := OwnPost(posted.createdUtc, sub)])
  }

  /** The memory after recording a reply, field by field. */
  lemma RecordFields(m: Memory, sub: string, key: HeroKey, posted: PostedReply,
                     repliedTo: map<string, seq<HeroKey>>, ourPosts: map<string, OwnPost>)
    requires sub in m.repliedTo
    requires repliedTo == m.repliedTo[sub := m.repliedTo[sub] + [key]]
    requires ourPosts == m.ourPosts[posted.id := OwnPost(posted.createdUtc, sub)]
    ensures Memory(m.searched, repliedTo, m.failedPosts, ourPosts) == Record(m, sub, key, posted)
  {
  }

  function Failure(m: Memory, p: ContentItem, failsAllowed: int): Result<bool> {
    match AddToFailed(m, p, failsAllowed).1
    case None => Ok(false)
    case Some(e) => Raised(e)
  }

  /** `_add_reply(post)` with the base url formatted (bot.py:204) and the
      failure logged under `post.id` (bot.py:260): answer the item unless its
      hero is already shown in the discussion. */
  function AddReply(m: Memory, p: ContentItem, st: Settings, tr: Transport): (r: (Memory, Result<bool>))
    ensures HeroInfo(p.Text(), st.baseUrl).ParseFailed? ==> r == (m, Raised(HeroInfo(p.Text(), st.baseUrl).error))
    ensures HeroInfo(p.Text(), st.baseUrl).NoRegion? ==>
      r.0 == AddToFailed(m, p, st.failsAllowed).0 && r.1 == Failure(m, p, st.failsAllowed)
    ensures var h := HeroInfo(p.Text(), st.baseUrl);
      h.Parsed? && h.key in Shown(m, p.Discussion()) ==> r == (m, Ok(false))
    ensures var h := HeroInfo(p.Text(), st.baseUrl);
      h.Parsed? && h.key !in Shown(m, p.Discussion()) && tr.render(h.key).Ok? ==>
        r == (Record(OpenLedger(m, p.Discussion()), p.Discussion(), h.key, tr.reply(p, tr.render(h.key).value)), Ok(true))
    ensures var h := HeroInfo(p.Text(), st.baseUrl);
      h.Parsed? && h.key !in Shown(m, p.Discussion()) && tr.render(h.key).Raised? ==>
        r == (OpenLedger(m, p.Discussion()), Raised(tr.render(h.key).error))
    ensures r.1 == Ok(true) ==>
      && HeroInfo(p.Text(), st.baseUrl).Parsed?
      && HeroInfo(p.Text(), st.baseUrl).key !in Shown(m, p.Discussion())
      && Shown(r.0, p.Discussion()) == Shown(m, p.Discussion()) + [HeroInfo(p.Text(), st.baseUrl).key]
    ensures r.1 != Ok(true) ==> forall s :: Shown(r.0, s) == Shown(m, s)
    ensures forall s :: s != p.Discussion() ==> Shown(r.0, s) == Shown(m, s)
    ensures forall s :: Shown(m, s) <= Shown(r.0, s)
    ensures forall id :: FailCount(m, id) <= FailCount(r.0, id)
    ensures m.ourPosts.Keys <= r.0.ourPosts.Keys
  {
    match HeroInfo(p.Text(), st.baseUrl)
    case ParseFailed(e) => (m, Raised(e))
    case NoRegion => (AddToFailed(m, p, st.failsAllowed).0, Failure(m, p, st.failsAllowed))
    case Parsed(key) => Answer(m, p, key, st, tr)
  }

  /** The part of `_add_reply` after the hero is known (bot.py:160-186): skip a
      hero already shown in the discussion; otherwise open the ledger, compose
      the reply, record the hero and send it.  `if not reply` (bot.py:172)
      tests the reply method, which is always set, so nothing is tested there;
      an exception from `_create_post` leaves `_add_reply` with the ledger
      opened and no failure counted. */
  function Answer(m: Memory, p: ContentItem, key: HeroKey, st: Settings, tr: Transport): (r: (Memory, Result<bool>))
    ensures key in Shown(m, p.Discussion()) ==> r == (m, Ok(false))
    ensures key !in Shown(m, p.Discussion()) && tr.render(key).Ok? ==>
      r == (Record(OpenLedger(m, p.Discussion()), p.Discussion(), key, tr.reply(p, tr.render(key).value)), Ok(true))
    ensures key !in Shown(m, p.Discussion()) && tr.render(key).Raised? ==>
      r == (OpenLedger(m, p.Discussion()), Raised(tr.render(key).error))
    ensures r.1 == Ok(true) ==>
      key !in Shown(m, p.Discussion()) && Shown(r.0, p.Discussion()) == Shown(m, p.Discussion()) + [key]
    ensures r.1 != Ok(true) ==> forall s :: Shown(r.0, s) == Shown(m, s)
    ensures forall s :: s != p.Discussion() ==> Shown(r.0, s) == Shown(m, s)
    ensures r.0.searched == m.searched && r.0.failedPosts == m.failedPosts
    ensures m.ourPosts.Keys <= r.0.ourPosts.Keys
  {
    var sub := p.Discussion();
    if sub in m.repliedTo && key in m.repliedTo[sub] then (m, Ok(false))
    else
      var m1 := OpenLedger(m, sub);
      match tr.render(key)
      case Raised(e) => (m1, Raised(e))
      case Ok(text) => (Record(m1, sub, key, tr.reply(p, text)), Ok(true))
  }

  /** `_add_reply(post)` as written: the hero is read with the unformatted
      template (bot.py:204) and failures go through `_add_to_failed` as
      written; once the hero is known it goes on as `Answer`. */
  function AddReplyAsWritten(m: Memory, p: ContentItem, st: Settings, tr: Transport): (r: (Memory, Result<bool>))
    ensures HeroInfoAsWritten(p.Text(), st.baseUrl).NoRegion? ==> r.1.Raised?
    ensures var h := HeroInfoAsWritten(p.Text(), st.baseUrl);
      h.Parsed? ==> (r.1.Raised? <==> h.key !in Shown(m, p.Discussion()) && tr.render(h.key).Raised?)
  {
    var h := HeroInfoAsWritten(p.Text(), st.baseUrl);
    if h.ParseFailed? then (m, Raised(h.error))
    else if h.NoRegion? then
      var failed := AddToFailedAsWritten(m, p);
      (failed.0, Raised(failed.1.value))
    else Answer(m, p, h.key, st, tr)
  }

  /** `_add_reply` never lists a hero twice in one discussion. */
  lemma AddReplyKeepsLedger(m: Memory, p: ContentItem, st: Settings, tr: Transport)
    requires LedgerDuplicateFree(m)
    ensures LedgerDuplicateFree(AddReply(m, p, st, tr).0)
  {
    var (r, res) := AddReply(m, p, st, tr);
    forall sub, i, j | sub in r.repliedTo && 0 <= i < j < |r.repliedTo[sub]|
      ensures r.repliedTo[sub][i] != r.repliedTo[sub][j]
    {
      assert r.repliedTo[sub] == Shown(r, sub);
      if res != Ok(true) || sub != p.Discussion() {
        assert Shown(r, sub) == Shown(m, sub);
        assert sub in m.repliedTo && Shown(m, sub) == m.repliedTo[sub];
      } else {
        var key := HeroInfo(p.Text(), st.baseUrl).key;
        assert Shown(r, sub) == Shown(m, sub) + [key] && key !in Shown(m, sub);
        if sub in m.repliedTo {
          assert Shown(m, sub) == m.repliedTo[sub];
        }
      }
    }
  }

  // ---------------------------------------------------------------------------
  // One pass of `run` (bot.py:59-72)

  /** `if _filter_check(post): _add_reply(post)` for one item. */
  function Handle(m: Memory, p: ContentItem, st: Settings, now: int, tr: Transport): (r: (Memory, Result<bool>))
    ensures !Eligible(m, p, st, now) ==> r == (m, Ok(false))
    ensures r.1 == Ok(true) ==> Seen(r.0, p.id, p.Hour())
    ensures forall s :: Shown(m, s) <= Shown(r.0, s)
    ensures forall id :: FailCount(m, id) <= FailCount(r.0, id)
    ensures m.ourPosts.Keys <= r.0.ourPosts.Keys
  {
    var (m1, go) := Filter(m, p, st, now);
    assert m1.repliedTo == m.repliedTo && m1.failedPosts == m.failedPosts && m1.ourPosts == m.ourPosts;
    if go then AddReply(m1, p, st, tr) else (m1, Ok(false))
  }

  /** The items of one listing in order; an exception ends the pass (it is
      caught at bot.py:74, after which the bot reconnects).  A pass only adds:
      ledgers only grow at their end, failure counts never drop, and no
      tracked reply is forgotten. */
  function Process(m: Memory, items: seq<ContentItem>, st: Settings, now: int, tr: Transport): (r: (Memory, Option<Exception>))
    ensures forall s :: Shown(m, s) <= Shown(r.0, s)
    ensures forall id :: FailCount(m, id) <= FailCount(r.0, id)
    ensures m.ourPosts.Keys <= r.0.ourPosts.Keys
    decreases |items|
  {
    if |items| == 0 then (m, None)
    else
      var (m1, res) := Handle(m, items[0], st, now, tr);
      if res.Raised? then (m1, Some(res.error))
      else Process(m1, items[1..], st, now, tr)
  }

  /** A pass over `a + b` handles `a` first.  An exception while handling `a`
      ends the pass there and `b` is never handled, since the handler at
      bot.py:74 sits outside the item loop; otherwise `b` is handled from the
      memory `a` left behind. */
  lemma {:induction false} ProcessAppend(m: Memory, a: seq<ContentItem>, b: seq<ContentItem>, st: Settings, now: int, tr: Transport)
    ensures Process(m, a, st, now, tr).1.Some? ==> Process(m, a + b, st, now, tr) == Process(m, a, st, now, tr)
    ensures Process(m, a, st, now, tr).1.None? ==>
              Process(m, a + b, st, now, tr) == Process(Process(m, a, st, now, tr).0, b, st, now, tr)
    decreases |a|
  {
    if |a| == 0 {
      assert a + b == b;
    } else {
      assert (a + b)[0] == a[0] && (a + b)[1..] == a[1..] + b;
      var (m1, res) := Handle(m, a[0], st, now, tr);
      if res.Ok? {
        ProcessAppend(m1, a[1..], b, st, now, tr);
      }
    }
  }

  /** Answered items keep their mark: handling the same item again right away
      does nothing. */
  lemma AnsweredOnce(m: Memory, p: ContentItem, st: Settings, now: int, tr: Transport)
    requires Handle(m, p, st, now, tr).1 == Ok(true)
    ensures Handle(Handle(m, p, st, now, tr).0, p, st, now, tr) == (Handle(m, p, st, now, tr).0, Ok(false))
  {
  }

  /** A listing of items that are all ineligible leaves the memory unchanged. */
  lemma {:induction false} ProcessIneligible(m: Memory, items: seq<ContentItem>, st: Settings, now: int, tr: Transport)
    requires forall i :: 0 <= i < |items| ==> !Eligible(m, items[i], st, now)
    ensures Process(m, items, st, now, tr) == (m, None)
    decreases |items|
  {
    if |items| > 0 {
      ProcessIneligible(m, items[1..], st, now, tr);
    }
  }

  /** Processing a listing never lists a hero twice in one discussion. */
  lemma {:induction false} ProcessKeepsLedger(m: Memory, items: seq<ContentItem>, st: Settings, now: int, tr: Transport)
    requires LedgerDuplicateFree(m)
    ensures LedgerDuplicateFree(Process(m, items, st, now, tr).0)
    decreases |items|
  {
    if |items| > 0 {
      var (m1, go) := Filter(m, items[0], st, now);
      assert m1.repliedTo == m.repliedTo;
      if go {
        AddReplyKeepsLedger(m1, items[0], st, tr);
      }
      var (m2, res) := Handle(m, items[0], st, now, tr);
      if res.Ok? {
        ProcessKeepsLedger(m2, items[1..], st, now, tr);
      }
    }
  }

  // ---------------------------------------------------------------------------
  // `_remove_if_necessary` (bot.py:265-298)

  /** What fetching one of our replies gives: nothing, or its current score. */
  datatype Fetch = NotFound | Score(score: int)

  /** A record older than the retention window; equality is not older. */
  predicate Expired(rec: OwnPost, now: int) {
    rec.timestamp < now - RetentionSeconds
  }

  /** The record survives the sweep: recent, found, and not negatively scored. */
  predicate Kept(id: string, rec: OwnPost, now: int, fetch: (string, string) -> Fetch) {
    !Expired(rec, now) && fetch(rec.sId, id).Score? && fetch(rec.sId, id).score >= 0
  }

  /** The reply is deleted from reddit: recent, found, and scored below zero. */
  predicate Deleted(id: string, rec: OwnPost, now: int, fetch: (string, string) -> Fetch) {
    !Expired(rec, now) && fetch(rec.sId, id).Score? && fetch(rec.sId, id).score < 0
  }

  /** `_remove_if_necessary`: the memory afterwards and the replies deleted on
      reddit. `fetch(s_id, id)` stands for `get_submission` and its first comment. */
  function Sweep(m: Memory, now: int, fetch: (string, string) -> Fetch): (r: (Memory, set<string>))
    ensures r.0.ourPosts.Keys <= m.ourPosts.Keys
    ensures forall id :: id in r.0.ourPosts ==> r.0.ourPosts[id] == m.ourPosts[id]
    ensures forall id :: id in m.ourPosts && Expired(m.ourPosts[id], now) ==> id !in r.0.ourPosts && id !in r.1
    ensures forall id :: id in m.ourPosts && fetch(m.ourPosts[id].sId, id).NotFound? ==> id !in r.0.ourPosts && id !in r.1
    ensures forall id :: id in m.ourPosts && Deleted(id, m.ourPosts[id], now, fetch) ==> id !in r.0.ourPosts && id in r.1
    ensures forall id :: id in m.ourPosts && Kept(id, m.ourPosts[id], now, fetch) ==> id in r.0.ourPosts && id !in r.1
    ensures r.1 <= m.ourPosts.Keys
    ensures r.0.searched == m.searched && r.0.repliedTo == m.repliedTo && r.0.failedPosts == m.failedPosts
  {
    var kept := map id | id in m.ourPosts && Kept(id, m.ourPosts[id], now, fetch) :: m.ourPosts[id];
    var deleted := set id | id in m.ourPosts && Deleted(id, m.ourPosts[id], now, fetch);
    (m.(ourPosts := kept), deleted)
  }

  /** After a sweep every tracked reply is within the retention window. */
  lemma SweepRetention(m: Memory, now: int, fetch: (string, string) -> Fetch)
    ensures forall id :: id in Sweep(m, now, fetch).0.ourPosts ==>
      Sweep(m, now, fetch).0.ourPosts[id].timestamp >= now - RetentionSeconds
  {
    var r := Sweep(m, now, fetch).0;
    forall id | id in r.ourPosts ensures r.ourPosts[id].timestamp >= now - RetentionSeconds {
      assert id in m.ourPosts && r.ourPosts[id] == m.ourPosts[id];
    }
  }

  /** A second sweep with the same answers keeps everything and deletes nothing. */
  lemma SweepIdempotent(m: Memory, now: int, fetch: (string, string) -> Fetch)
    ensures Sweep(Sweep(m, now, fetch).0, now, fetch) == (Sweep(m, now, fetch).0, {})
  {
    var r := Sweep(m, now, fetch).0;
    var r2 := Sweep(r, now, fetch);
    forall id | id in r.ourPosts ensures Kept(id, r.ourPosts[id], now, fetch) {
      assert r.ourPosts[id] == m.ourPosts[id];
    }
    assert r2.0.ourPosts == r.ourPosts;
    forall id | id in r.ourPosts ensures !Deleted(id, r.ourPosts[id], now, fetch) {
      assert Kept(id, r.ourPosts[id], now, fetch);
    }
    assert r2.1 == {};
  }

  /** One cycle of `run`: the new submissions, then the new comments, then the
      sweep; an exception skips the rest of the cycle, the sweep included, so
      then no tracked reply is dropped. */
  function Cycle(m: Memory, submissions: seq<ContentItem>, comments: seq<ContentItem>, st: Settings, now: int,
                 tr: Transport, fetch: (string, string) -> Fetch): (r: (Memory, Option<Exception>))
    ensures forall s :: Shown(m, s) <= Shown(r.0, s)
    ensures forall id :: FailCount(m, id) <= FailCount(r.0, id)
    ensures r.1.Some? ==> m.ourPosts.Keys <= r.0.ourPosts.Keys
  {
    var (m1, e1) := Process(m, submissions, st, now, tr);
    if e1.Some? then (m1, e1)
    else
      var (m2, e2) := Process(m1, comments, st, now, tr);
      if e2.Some? then (m2, e2)
      else (Sweep(m2, now, fetch).0, None)
  }

  /** A cycle that raises nothing ends with every tracked reply in the window. */
  lemma CycleRetention(m: Memory, submissions: seq<ContentItem>, comments: seq<ContentItem>, st: Settings, now: int,
                       tr: Transport, fetch: (string, string) -> Fetch)
    requires Cycle(m, submissions, comments, st, now, tr, fetch).1.None?
    ensures forall id :: id in Cycle(m, submissions, comments, st, now, tr, fetch).0.ourPosts ==>
      Cycle(m, submissions, comments, st, now, tr, fetch).0.ourPosts[id].timestamp >= now - RetentionSeconds
  {
    var (m1, _) := Process(m, submissions, st, now, tr);
    var (m2, _) := Process(m1, comments, st, now, tr);
    SweepRetention(m2, now, fetch);
  }

  // ---------------------------------------------------------------------------
  // `_get_our_posts` (bot.py:301-325)

  /** One of the bot's own comments, as the user listing returns it (newest first). */
  datatype OwnComment = OwnComment(id: string, createdUtc: int, parentId: string, submissionId: string)

  /** The id the parent is searched under: the part after the first `_` of a
      fullname such as `t3_abc`, the parent id itself otherwise. */
  function ParentKey(parentId: string): (r: string)
    ensures '_' !in parentId ==> r == parentId
    ensures '_' !in r
  {
    var parts := Split(parentId, '_');
    if |parts| > 1 then parts[1] else parentId
  }

  /** Remember one own comment: its parent as searched in the comment's hour,
      the comment as tracked. */
  function Remember(m: Memory, c: OwnComment): (r: Memory)
    ensures Bucket(r, HourKey(c.createdUtc)) == Bucket(m, HourKey(c.createdUtc)) + [ParentKey(c.parentId)]
    ensures forall k :: k != HourKey(c.createdUtc) ==> Bucket(r, k) == Bucket(m, k)
    ensures r.ourPosts == m.ourPosts[c.id := OwnPost(c.createdUtc, c.submissionId)]
    ensures r.repliedTo == m.repliedTo && r.failedPosts == m.failedPosts
  {
    var h := HourKey(c.createdUtc);
    m.(searched := m.searched[h := Bucket(m, h) + [ParentKey(c.parentId)]],
       ourPosts := m.ourPosts[c.id := OwnPost(c.createdUtc, c.submissionId)])
  }

  /** The memory after remembering a comment is the old memory with its
      hour's bucket extended and the comment tracked. */
  lemma RememberFields(m: Memory, c: OwnComment, searched: map<string, seq<string>>, ourPosts: map<string, OwnPost>)
    requires var h := HourKey(c.createdUtc);
             searched == (if h in m.searched then m.searched else m.searched[h := []])[h := Bucket(m, h) + [ParentKey(c.parentId)]]
    requires ourPosts == m.ourPosts[c.id := OwnPost(c.createdUtc, c.submissionId)]
    ensures Memory(searched, m.repliedTo, m.failedPosts, ourPosts) == Remember(m, c)
  {
  }

  /** The number of leading comments not older than the cutoff. */
  function RecentCount(cs: seq<OwnComment>, cutoff: int): (n: nat)
    ensures n <= |cs|
    ensures forall i :: 0 <= i < n ==> cs[i].createdUtc >= cutoff
    ensures n < |cs| ==> cs[n].createdUtc < cutoff
  {
    if |cs| == 0 || cs[0].createdUtc < cutoff then 0 else 1 + RecentCount(cs[1..], cutoff)
  }

  /** `_get_our_posts` with `cutoff = now - timeframe`: remember the comments
      up to the first older one. */
  function Bootstrap(m: Memory, cs: seq<OwnComment>, cutoff: int): (r: Memory)
    ensures m.ourPosts.Keys <= r.ourPosts.Keys
    ensures r.repliedTo == m.repliedTo && r.failedPosts == m.failedPosts
    ensures |cs| == 0 || cs[0].createdUtc < cutoff ==> r == m
    decreases |cs|
  {
    if |cs| == 0 || cs[0].createdUtc < cutoff then m
    else Bootstrap(Remember(m, cs[0]), cs[1..], cutoff)
  }

  /** Bootstrapping only adds: marks and tracked replies already present stay. */
  lemma {:induction false} BootstrapGrows(m: Memory, cs: seq<OwnComment>, cutoff: int)
    ensures forall id, k :: Seen(m, id, k) ==> Seen(Bootstrap(m, cs, cutoff), id, k)
    decreases |cs|
  {
    if |cs| > 0 && cs[0].createdUtc >= cutoff {
      var m1 := Remember(m, cs[0]);
      forall id, k | Seen(m, id, k) ensures Seen(m1, id, k) {
        assert id in Bucket(m, k);
        assert id in Bucket(m1, k);
      }
      BootstrapGrows(m1, cs[1..], cutoff);
    }
  }

  /** Every comment before the first old one has its parent marked in the
      comment's hour and is tracked. */
  lemma {:induction false} BootstrapRecords(m: Memory, cs: seq<OwnComment>, cutoff: int)
    ensures forall i :: 0 <= i < RecentCount(cs, cutoff) ==>
      Seen(Bootstrap(m, cs, cutoff), ParentKey(cs[i].parentId), HourKey(cs[i].createdUtc))
      && cs[i].id in Bootstrap(m, cs, cutoff).ourPosts
    decreases |cs|
  {
    if |cs| > 0 && cs[0].createdUtc >= cutoff {
      var m1 := Remember(m, cs[0]);
      BootstrapRecords(m1, cs[1..], cutoff);
      BootstrapGrows(m1, cs[1..], cutoff);
      assert Seen(m1, ParentKey(cs[0].parentId), HourKey(cs[0].createdUtc));
      forall i | 1 <= i < RecentCount(cs, cutoff)
        ensures Seen(Bootstrap(m, cs, cutoff), ParentKey(cs[i].parentId), HourKey(cs[i].createdUtc))
        ensures cs[i].id in Bootstrap(m, cs, cutoff).ourPosts
      {
        assert cs[i] == cs[1..][i - 1];
      }
    }
  }

  /** Nothing at or after the first old comment is tracked unless it already was:
      every tracked reply afterwards was tracked before or is a recent comment. */
  lemma {:induction false} BootstrapStops(m: Memory, cs: seq<OwnComment>, cutoff: int)
    ensures forall id :: id in Bootstrap(m, cs, cutoff).ourPosts ==>
      id in m.ourPosts || exists i :: 0 <= i < RecentCount(cs, cutoff) && cs[i].id == id
    decreases |cs|
  {
    if |cs| > 0 && cs[0].createdUtc >= cutoff {
      var m1 := Remember(m, cs[0]);
      BootstrapStops(m1, cs[1..], cutoff);
      forall id | id in Bootstrap(m, cs, cutoff).ourPosts
        ensures id in m.ourPosts || exists i :: 0 <= i < RecentCount(cs, cutoff) && cs[i].id == id
      {
        if id !in m.ourPosts && id != cs[0].id {
          assert id in m1.ourPosts || exists i :: 0 <= i < RecentCount(cs[1..], cutoff) && cs[1..][i].id == id;
          var i :| 0 <= i < RecentCount(cs[1..], cutoff) && cs[1..][i].id == id;
          assert cs[i + 1].id == id;
        } else if id !in m.ourPosts {
          assert cs[0].id == id;
        }
      }
    }
  }

  /** The fullname of a submission gives back the submission's id. */
  lemma ParentKeyOfFullname(kind: string, id: string)
    requires '_' !in kind && '_' !in id
    ensures ParentKey(kind + "_" + id) == id
  {
    assert kind + "_" + id == kind + ['_'] + id;
    SplitAfterFirst(kind, '_', id);
    SplitNone(id, '_');
  }

  // ---------------------------------------------------------------------------
  // Where the code as written departs from what it evidently intends

  /** bot.py:171-175 with lookup.py:46-47: when the hero cannot be loaded,
      `_create_post` raises rather than returning `None`, so the exception
      leaves `_add_reply` with no failure counted.  The item stays marked, so no
      later cycle tries it again, and the cycle ends before the remaining items
      and the sweep. */
  lemma FailedLookupStaysMarked(m: Memory, submissions: seq<ContentItem>, comments: seq<ContentItem>, st: Settings,
                                now: int, later: int, tr: Transport, fetch: (string, string) -> Fetch)
    requires |submissions| > 0 && Filter(m, submissions[0], st, now).1
    requires var h := HeroInfo(submissions[0].Text(), st.baseUrl);
      h.Parsed? && h.key !in Shown(m, submissions[0].Discussion()) && tr.render(h.key).Raised?
    ensures var p := submissions[0];
      var r := Cycle(m, submissions, comments, st, now, tr, fetch);
      && r.1 == Some(tr.render(HeroInfo(p.Text(), st.baseUrl).key).error)
      && FailCount(r.0, p.id) == FailCount(m, p.id)
      && Seen(r.0, p.id, p.Hour())
      && Filter(r.0, p, st, later) == (r.0, false)
      && r.0.ourPosts == m.ourPosts
  {
    var p := submissions[0];
    var key := HeroInfo(p.Text(), st.baseUrl).key;
    var m2 := OpenLedger(Filter(m, p, st, now).0, p.Discussion());
    FailedRenderEndsPass(m, submissions, st, now, tr);
    assert Cycle(m, submissions, comments, st, now, tr, fetch) == (m2, Some(tr.render(key).error));
    assert Seen(m2, p.id, p.Hour());
  }

  /** The pass over a listing whose first item cannot be composed ends there,
      with the ledger opened and the item marked. */
  lemma FailedRenderEndsPass(m: Memory, items: seq<ContentItem>, st: Settings, now: int, tr: Transport)
    requires |items| > 0 && Filter(m, items[0], st, now).1
    requires var h := HeroInfo(items[0].Text(), st.baseUrl);
      h.Parsed? && h.key !in Shown(m, items[0].Discussion()) && tr.render(h.key).Raised?
    ensures Process(m, items, st, now, tr) ==
      (OpenLedger(Filter(m, items[0], st, now).0, items[0].Discussion()),
       Some(tr.render(HeroInfo(items[0].Text(), st.baseUrl).key).error))
  {
    var p := items[0];
    var key := HeroInfo(p.Text(), st.baseUrl).key;
    var m1 := Filter(m, p, st, now).0;
    assert Shown(m1, p.Discussion()) == Shown(m, p.Discussion());
    assert Handle(m, p, st, now, tr) == AddReply(m1, p, st, tr);
    assert AddReply(m1, p, st, tr) == (OpenLedger(m1, p.Discussion()), Raised(tr.render(key).error));
  }

  /** `_add_reply` as its failure branch intends (bot.py:171-175, with
      `_create_post` giving `None` when the hero cannot be loaded,
      bot.py:226-231): a reply that cannot be composed counts as a failure of
      the item. */
  function AnswerCounted(m: Memory, p: ContentItem, key: HeroKey, st: Settings, tr: Transport): (r: (Memory, Result<bool>))
    ensures tr.render(key).Ok? || key in Shown(m, p.Discussion()) ==> r == Answer(m, p, key, st, tr)
    ensures key !in Shown(m, p.Discussion()) && tr.render(key).Raised? ==>
      && r.0 == AddToFailed(OpenLedger(m, p.Discussion()), p, st.failsAllowed).0
      && r.1 == Failure(OpenLedger(m, p.Discussion()), p, st.failsAllowed)
      && r.0.ourPosts == m.ourPosts
      && FailCount(r.0, p.id) == FailCount(m, p.id) + 1
  {
    var sub := p.Discussion();
    if sub in m.repliedTo && key in m.repliedTo[sub] then (m, Ok(false))
    else
      var m1 := OpenLedger(m, sub);
      match tr.render(key)
      case Raised(_) => (AddToFailed(m1, p, st.failsAllowed).0, Failure(m1, p, st.failsAllowed))
      case Ok(text) => (Record(m1, sub, key, tr.reply(p, text)), Ok(true))
  }

  /** With the failure counted, an item marked once whose reply cannot be
      composed is unmarked below the threshold and tried again, where the code
      as written keeps it marked. */
  lemma CountedLookupRetried(m: Memory, p: ContentItem, key: HeroKey, st: Settings, tr: Transport)
    requires Seen(m, p.id, p.Hour()) && multiset(m.searched[p.Hour()])[p.id] == 1
    requires FailCount(m, p.id) + 1 < st.failsAllowed
    requires key !in Shown(m, p.Discussion()) && tr.render(key).Raised?
    ensures AnswerCounted(m, p, key, st, tr).1 == Ok(false)
    ensures !Seen(AnswerCounted(m, p, key, st, tr).0, p.id, p.Hour())
    ensures Seen(Answer(m, p, key, st, tr).0, p.id, p.Hour())
  {
    var m1 := OpenLedger(m, p.Discussion());
    RetryUnmarks(m1, p, st.failsAllowed);
  }

  /** bot.py:257: as written the item is unmarked however often it has failed,
      so it is retried forever. */
  lemma AsWrittenNeverGivesUp(m: Memory, p: ContentItem)
    requires Seen(m, p.id, p.Hour()) && multiset(m.searched[p.Hour()])[p.id] == 1
    ensures !Seen(AddToFailedAsWritten(m, p).0, p.id, p.Hour())
    ensures FailCount(AddToFailedAsWritten(m, p).0, p.id) == FailCount(m, p.id) + 1
  {
    var r := AddToFailedAsWritten(m, p).0;
    assert multiset(Bucket(r, p.Hour()))[p.id] == 0;
  }

  /** bot.py:260/262: as written every recorded failure raises a NameError after
      the state has changed; the exception ends the pass over the listing. */
  lemma AsWrittenFailureRaises(m: Memory, p: ContentItem, st: Settings, tr: Transport)
    requires HeroInfoAsWritten(p.Text(), st.baseUrl).NoRegion?
    requires Seen(m, p.id, p.Hour())
    ensures AddReplyAsWritten(m, p, st, tr).1 == Raised(NameError)
    ensures FailCount(AddReplyAsWritten(m, p, st, tr).0, p.id) == FailCount(m, p.id) + 1
  {
  }

  /** With the log line naming `post.id`, recording the failure of a marked item
      raises nothing, so the pass goes on with the next item. */
  lemma FailureRaisesNothing(m: Memory, p: ContentItem, failsAllowed: int)
    requires Seen(m, p.id, p.Hour())
    ensures AddToFailed(m, p, failsAllowed).1 == None
  {
  }

  /** A text with no leading digits after its first `hero/` gives an empty hero id. */
  lemma NoLeadingDigits(s: string)
    requires |s| > 0 && !IsDigit(s[0])
    ensures LeadingDigits(s) == ""
  {
  }

  /** bot.py:204 splits on the unformatted template, which a post does not
      contain, so the whole text is read: a stray `hero/` followed by a non-digit
      before the url (as in `hero/x`) makes the hero id empty, where splitting on
      the region's base url reads the right hero. */
  lemma {:induction false} AsWrittenMisreadsHero(pre: string, template: string, region: string, base: string, profile: string, hero: string)
    requires |pre| > 5 && "hero/" <= pre && !IsDigit(pre[5])
    requires base == RegionUrl(template, region) && |base| > 0 && Unbordered(base)
    requires |template| > 0
    requires !Contains(pre + base + "profile/" + profile + "/hero/" + hero, template)
    requires RegionOf(pre + base + "profile/" + profile + "/hero/" + hero, template) == Some(region)
    requires !Contains(pre, base)
    requires !Contains("profile/" + profile + "/hero/" + hero, base)
    requires !Contains("profile/" + profile + "/", "hero/")
    requires '/' !in profile
    requires !Contains(profile + "/hero/" + hero, "profile/")
    requires |hero| > 0 && forall i :: 0 <= i < |hero| ==> IsDigit(hero[i])
    ensures HeroInfo(pre + base + "profile/" + profile + "/hero/" + hero, template)
      == Parsed(HeroKey(profile, hero, region))
    ensures HeroInfoAsWritten(pre + base + "profile/" + profile + "/hero/" + hero, template).Parsed?
    ensures HeroInfoAsWritten(pre + base + "profile/" + profile + "/hero/" + hero, template).key.heroId == ""
  {
    HeroInfoRoundTrip(pre, template, region, base, profile, hero);
    AsWrittenHeroEmpty(pre, template, region, base, profile, hero);
  }

  lemma AsWrittenHeroEmpty(pre: string, template: string, region: string, base: string, profile: string, hero: string)
    requires |pre| > 5 && "hero/" <= pre && !IsDigit(pre[5])
    requires |template| > 0
    requires !Contains(pre + base + "profile/" + profile + "/hero/" + hero, template)
    requires RegionOf(pre + base + "profile/" + profile + "/hero/" + hero, template) == Some(region)
    ensures HeroInfoAsWritten(pre + base + "profile/" + profile + "/hero/" + hero, template).Parsed?
    ensures HeroInfoAsWritten(pre + base + "profile/" + profile + "/hero/" + hero, template).key.heroId == ""
  {
    var content := pre + base + "profile/" + profile + "/hero/" + hero;
    var rest := base + "profile/" + profile + "/hero/" + hero;
    Reassociate(pre, base, profile, hero);
    ProfileAt(base, profile, hero);
    MisreadAsWritten(content, template, region, pre, rest, |base|);
  }

  lemma Reassociate(pre: string, base: string, profile: string, hero: string)
    ensures pre + base + "profile/" + profile + "/hero/" + hero == pre + (base + "profile/" + profile + "/hero/" + hero)
  {
    var b1 := base + "profile/";
    var b2 := b1 + profile;
    var b3 := b2 + "/hero/";
    assert pre + base + "profile/" == pre + b1;
    assert pre + b1 + profile == pre + b2;
    assert pre + b2 + "/hero/" == pre + b3;
    assert pre + b3 + hero == pre + (b3 + hero);
  }

  lemma ProfileAt(base: string, profile: string, hero: string)
    ensures MatchAt(base + "profile/" + profile + "/hero/" + hero, "profile/", |base|)
  {
    var s := base + "profile/" + profile + "/hero/" + hero;
    assert s[|base|..|base| + 8] == "profile/";
  }

  lemma MisreadAsWritten(content: string, template: string, region: string, pre: string, rest: string, k: nat)
    requires |template| > 0 && !Contains(content, template)
    requires RegionOf(content, template) == Some(region)
    requires |pre| > 5 && "hero/" <= pre && !IsDigit(pre[5])
    requires content == pre + rest
    requires MatchAt(rest, "profile/", k)
    ensures HeroInfoAsWritten(content, template).Parsed?
    ensures HeroInfoAsWritten(content, template).key.heroId == ""
  {
    AsWrittenReadsWholeText(content, template, region);
    MisreadPieces(content, pre, rest, k);
  }

  /** The pieces `ProfileAndHero` reads from `pre + rest` when `pre` starts with
      `hero/` and a non-digit, and `rest` holds a `profile/` at `k`. */
  lemma MisreadPieces(content: string, pre: string, rest: string, k: nat)
    requires |pre| > 5 && "hero/" <= pre && !IsDigit(pre[5])
    requires content == pre + rest
    requires MatchAt(rest, "profile/", k)
    ensures ProfileAndHero(content).Ok?
    ensures ProfileAndHero(content).value.1 == ""
  {
    assert MatchAt(content, "hero/", 0);
    assert IndexOf(content, "hero/") == 0;
    var after := content[5..];
    assert After(content, "hero/") == Some(after);
    var piece := Before(after, "hero/");
    assert SecondPiece(content, "hero/") == Some(piece);
    var i: nat := k + |pre|;
    assert content[i..] == rest[k..];
    assert MatchAt(content, "profile/", i);
    if |piece| > 0 {
      assert piece[0] == after[0] == pre[5];
      NoLeadingDigits(piece);
    }
  }
}
