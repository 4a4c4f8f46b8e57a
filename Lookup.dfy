/** lookup.py: requests to the Diablo 3 community API.  The transfer itself
    (urllib2 and json.loads) is an oracle `fetch` from the request url to what
    came back; everything the module decides about that answer is modelled. */
module Lookup {
  import opened Wrappers
  import opened Strings

  /** A decoded JSON value. */
  datatype Json =
    | JNull
    | JBool(b: bool)
    | JInt(n: int)
    | JStr(s: string)
    | JList(items: seq<Json>)
    | JObject(fields: map<string, Json>)

  /** A decoded JSON object: the dictionaries the module hands back. */
  type Object = map<string, Json>

  /** What one request to the API gave: an HTTP error status, a network error,
      or a body decoded into an object. */
  datatype Transfer = HttpError(status: int) | NetworkError(reason: string) | Body(data: Object)

  /** One hero of a profile's `heroes` list, as far as the selection reads it. */
  datatype HeroSummary = HeroSummary(id: string, name: string, level: int, lastUpdated: int)

  /** Python truthiness of an optional text: `None` and `''` are false. */
  predicate Truthy(o: Option<string>) {
    o.Some? && o.value != ""
  }

  // ---------------------------------------------------------------------------
  // _api_call

  /** The request url: the configured base url with `{region}` filled in,
      followed by the path. */
  function ApiUrl(baseUrl: string, region: string, path: string): (r: string)
    ensures |path| <= |r| && r[|r| - |path|..] == path
    ensures !Contains(baseUrl, "{region}") ==> r == baseUrl + path
    ensures forall i: nat :: MatchAt(baseUrl, "{region}", i) && '{' !in baseUrl[..i] && '{' !in baseUrl[i + 8..] ==>
      r == baseUrl[..i] + region + baseUrl[i + 8..] + path
  {
    FillRegion(baseUrl, region);
    Replace(baseUrl, "{region}", region) + path
  }

  /** `base_url.format(region=region)` on a template without other fields. */
  lemma FillRegion(baseUrl: string, region: string)
    ensures !Contains(baseUrl, "{region}") ==> Replace(baseUrl, "{region}", region) == baseUrl
    ensures forall i: nat :: MatchAt(baseUrl, "{region}", i) && '{' !in baseUrl[..i] && '{' !in baseUrl[i + 8..] ==>
      Replace(baseUrl, "{region}", region) == baseUrl[..i] + region + baseUrl[i + 8..]
  {
    if !Contains(baseUrl, "{region}") {
      ReplaceAbsent(baseUrl, "{region}", region);
    }
    forall i: nat | MatchAt(baseUrl, "{region}", i) && '{' !in baseUrl[..i] && '{' !in baseUrl[i + 8..]
      ensures Replace(baseUrl, "{region}", region) == baseUrl[..i] + region + baseUrl[i + 8..]
    {
      assert baseUrl == baseUrl[..i] + "{region}" + baseUrl[i + 8..];
      ReplaceOnce(baseUrl[..i], "{region}", baseUrl[i + 8..], region);
    }
  }

  /** The answer check of `_api_call`: transfer errors give `None`; a body
      carrying `code` is an API error and gives `None`, reading its `reason`
      first (a `KeyError` when it has none); any other body is the answer. */
  function Checked(t: Transfer): (r: Result<Option<Object>>)
    ensures r.Raised? <==> t.Body? && "code" in t.data && "reason" !in t.data
    ensures r.Raised? ==> r.error == KeyError
    ensures r == Ok(None) <==> !t.Body? || ("code" in t.data && "reason" in t.data)
    ensures r.Ok? && r.value.Some? ==> t == Body(r.value.value) && "code" !in r.value.value
  {
    match t
    case Body(data) =>
      if "code" in data then
        if "reason" in data then Ok(None) else Raised(KeyError)
      else Ok(Some(data))
    case _ => Ok(None)
  }

  /** `_api_call(path, region)`: a failed transfer gives `None`, and the only
      exception is the `KeyError` of an error report without a reason. */
  function ApiCall(baseUrl: string, region: string, path: string, fetch: string -> Transfer): (r: Result<Option<Object>>)
    ensures !fetch(ApiUrl(baseUrl, region, path)).Body? ==> r == Ok(None)
    ensures r.Raised? ==> r == Raised(KeyError)
  {
    Checked(fetch(ApiUrl(baseUrl, region, path)))
  }

  /** Whatever `_api_call` hands back is never an API error report. */
  lemma AnswerHasNoErrorCode(baseUrl: string, region: string, path: string, fetch: string -> Transfer)
    ensures var r := ApiCall(baseUrl, region, path, fetch);
            r.Ok? && r.value.Some? ==> "code" !in r.value.value && fetch(ApiUrl(baseUrl, region, path)) == Body(r.value.value)
  {
  }

  // ---------------------------------------------------------------------------
  // _get_hero_id

  /** The state of the name scan: the candidates found so far (id to
      last-updated time), the level of the last match, and whether the scan
      has stopped. */
  datatype HeroScan = HeroScan(matches: map<string, int>, level: int, stopped: bool)

  const ScanStart := HeroScan(map[], 0, false)

  /** One turn of the scan over `heroes`: a hero whose name matches (ignoring
      case) becomes a candidate and sets the level; a non-matching hero below
      that level stops the scan. */
  function ScanStep(s: HeroScan, h: HeroSummary, name: string): (r: HeroScan)
    ensures r.matches.Keys == s.matches.Keys || (Lower(h.name) == Lower(name) && r.matches.Keys == s.matches.Keys + {h.id})
    ensures s.stopped ==> r == s
  {
    if s.stopped then s
    else if Lower(h.name) == Lower(name) then HeroScan(s.matches[h.id := h.lastUpdated], h.level, false)
    else if h.level < s.level then s.(stopped := true)
    else s
  }

  /** The scan run over a list of heroes. */
  function ScanRun(s: HeroScan, hs: seq<HeroSummary>, name: string): HeroScan
    decreases |hs|
  {
    if |hs| == 0 then s else ScanRun(ScanStep(s, hs[0], name), hs[1..], name)
  }

  /** The candidates the scan of a profile's heroes finds. */
  function Candidates(hs: seq<HeroSummary>, name: string): map<string, int> {
    ScanRun(ScanStart, hs, name).matches
  }

  /** Running over two lists is running over the first, then the second. */
  lemma {:induction false} ScanRunAppend(s: HeroScan, a: seq<HeroSummary>, b: seq<HeroSummary>, name: string)
    ensures ScanRun(s, a + b, name) == ScanRun(ScanRun(s, a, name), b, name)
    decreases |a|
  {
    if |a| > 0 {
      assert (a + b)[0] == a[0] && (a + b)[1..] == a[1..] + b;
      ScanRunAppend(ScanStep(s, a[0], name), a[1..], b, name);
    } else {
      assert a + b == b;
    }
  }

  /** A stopped scan reads nothing more. */
  lemma {:induction false} StoppedStays(s: HeroScan, hs: seq<HeroSummary>, name: string)
    requires s.stopped
    ensures ScanRun(s, hs, name) == s
    decreases |hs|
  {
    if |hs| > 0 {
      StoppedStays(s, hs[1..], name);
    }
  }

  /** Once the scan has stopped, the heroes after that point make no
      difference to the result. */
  lemma ScanIgnoresRest(a: seq<HeroSummary>, b1: seq<HeroSummary>, b2: seq<HeroSummary>, name: string)
    requires ScanRun(ScanStart, a, name).stopped
    ensures Candidates(a + b1, name) == Candidates(a + b2, name) == Candidates(a, name)
  {
    ScanRunAppend(ScanStart, a, b1, name);
    ScanRunAppend(ScanStart, a, b2, name);
    StoppedStays(ScanRun(ScanStart, a, name), b1, name);
    StoppedStays(ScanRun(ScanStart, a, name), b2, name);
  }

  /** Only heroes whose name matches become candidates. */
  lemma {:induction false} CandidatesAreNamed(s: HeroScan, hs: seq<HeroSummary>, name: string, id: string)
    requires id in ScanRun(s, hs, name).matches
    ensures id in s.matches || exists i :: 0 <= i < |hs| && hs[i].id == id && Lower(hs[i].name) == Lower(name)
    decreases |hs|
  {
    if |hs| > 0 {
      var s1 := ScanStep(s, hs[0], name);
      CandidatesAreNamed(s1, hs[1..], name, id);
      if id !in s1.matches {
        var i :| 0 <= i < |hs[1..]| && hs[1..][i].id == id && Lower(hs[1..][i].name) == Lower(name);
        assert hs[i + 1] == hs[1..][i];
      }
    }
  }

  /** The scan never drops a candidate. */
  lemma {:induction false} CandidatesGrow(s: HeroScan, hs: seq<HeroSummary>, name: string)
    ensures s.matches.Keys <= ScanRun(s, hs, name).matches.Keys
    decreases |hs|
  {
    if |hs| > 0 {
      CandidatesGrow(ScanStep(s, hs[0], name), hs[1..], name);
    }
  }

  /** Every matching hero the scan reaches before stopping is a candidate. */
  lemma ReachedMatchIsCandidate(hs: seq<HeroSummary>, name: string, i: nat)
    requires i < |hs| && Lower(hs[i].name) == Lower(name)
    requires !ScanRun(ScanStart, hs[..i], name).stopped
    ensures hs[i].id in Candidates(hs, name)
  {
    var s := ScanRun(ScanStart, hs[..i], name);
    assert hs == hs[..i] + hs[i..];
    ScanRunAppend(ScanStart, hs[..i], hs[i..], name);
    assert hs[i..][0] == hs[i];
    CandidatesGrow(ScanStep(s, hs[i], name), hs[i..][1..], name);
  }

  /** `sorted(matches, key=...)` reversed, first element: a candidate with the
      latest last-updated time. */
  method MostRecent(matches: map<string, int>) returns (best: string)
    requires |matches| > 0
    ensures best in matches
    ensures forall k :: k in matches ==> matches[k] <= matches[best]
  {
    var pending := matches.Keys;
    best :| best in pending;
    pending := pending - {best};
    while pending != {}
      invariant pending <= matches.Keys && best in matches
      invariant forall k :: k in matches && k !in pending ==> matches[k] <= matches[best]
      decreases pending
    {
      var k :| k in pending;
      if matches[best] < matches[k] {
        best := k;
      }
      pending := pending - {k};
    }
  }

  /** `_get_hero_id` once the profile request has been answered: `roster` is
      the profile's `heroes` list, `None` when the request gave nothing. */
  method GetHeroId(roster: Option<seq<HeroSummary>>, heroName: Option<string>) returns (r: Result<Option<string>>)
    ensures roster.None? ==> r == Ok(None)
    ensures roster.Some? && !Truthy(heroName) ==>
              r == if |roster.value| == 0 then Raised(IndexError) else Ok(Some(roster.value[0].id))
    ensures roster.Some? && Truthy(heroName) ==> r.Ok?
    ensures roster.Some? && Truthy(heroName) ==>
              var found := Candidates(roster.value, heroName.value);
              (r.value.None? <==> |found| == 0) &&
              (r.value.Some? ==> r.value.value in found &&
                                 forall k :: k in found ==> found[k] <= found[r.value.value])
  {
    if roster.None? {
      return Ok(None);
    }
    var heroes := roster.value;
    if !Truthy(heroName) {
      if |heroes| == 0 {
        return Raised(IndexError);
      }
      return Ok(Some(heroes[0].id));
    }
    var name := heroName.value;
    var matches: map<string, int> := map[];
    var matchedLevel := 0;
    var i := 0;
    while i < |heroes|
      invariant 0 <= i <= |heroes|
      invariant Candidates(heroes, name) == ScanRun(HeroScan(matches, matchedLevel, false), heroes[i..], name).matches
    {
      var h := heroes[i];
      assert heroes[i..][0] == h && heroes[i..][1..] == heroes[i + 1..];
      if Lower(h.name) == Lower(name) {
        matches := matches[h.id := h.lastUpdated];
        matchedLevel := h.level;
      } else if h.level < matchedLevel {
        StoppedStays(HeroScan(matches, matchedLevel, true), heroes[i + 1..], name);
        break;
      }
      i := i + 1;
    }
    if |matches| == 0 {
      return Ok(None);
    }
    var best := MostRecent(matches);
    return Ok(Some(best));
  }

  // ---------------------------------------------------------------------------
  // hero_lookup

  /** The path of the profile request. */
  function ProfilePath(profile: string): string {
    "profile/" + profile + "/"
  }

  /** The path of the hero request; a missing id is formatted as `None`. */
  function HeroPath(profile: string, heroId: Option<string>): (r: string)
    ensures "profile/" + profile + "/hero/" <= r
    ensures heroId.Some? ==> r == ProfilePath(profile) + "hero/" + heroId.value
    ensures heroId.None? ==> r == ProfilePath(profile) + "hero/None"
  {
    var id := if heroId.Some? then heroId.value else "None";
    assert "profile/" + profile + "/hero/" + id == ProfilePath(profile) + "hero/" + id;
    "profile/" + profile + "/hero/" + id
  }

  /** The profile request's answer as `_get_hero_id` sees it: nothing when the
      call gave `None` or an empty object; `heroesOf` reads its `heroes` list. */
  function Roster(answer: Option<Object>, heroesOf: Object -> seq<HeroSummary>): (r: Option<seq<HeroSummary>>)
    ensures r.Some? <==> answer.Some? && |answer.value| > 0
  {
    if answer.Some? && |answer.value| > 0 then Some(heroesOf(answer.value)) else None
  }

  /** The last step of `hero_lookup`: store the requested profile in the
      answer; an answer of `None` cannot be stored into (`TypeError`). */
  function Tagged(answer: Result<Option<Object>>, profile: string): (r: Result<Object>)
    ensures r.Ok? <==> answer.Ok? && answer.value.Some?
    ensures r.Ok? ==> r.value == answer.value.value["profile" := JStr(profile)]
    ensures answer == Ok(None) ==> r == Raised(TypeError)
    ensures answer.Raised? ==> r == Raised(answer.error)
  {
    match answer
    case Raised(e) => Raised(e)
    case Ok(None) => Raised(TypeError)
    case Ok(Some(d)) => Ok(d["profile" := JStr(profile)])
  }

  /** `hero_lookup(profile, hero, hero_id, region)`: a given id is used as it
      is; otherwise the id is chosen from the profile's heroes first. */
  method HeroLookup(profile: string, heroName: Option<string>, heroId: Option<string>, baseUrl: string, region: string,
                    fetch: string -> Transfer, heroesOf: Object -> seq<HeroSummary>) returns (r: Result<Object>)
    ensures Truthy(heroId) ==> r == Tagged(ApiCall(baseUrl, region, HeroPath(profile, heroId), fetch), profile)
    ensures !Truthy(heroId) && ApiCall(baseUrl, region, ProfilePath(profile), fetch).Raised? ==>
              r == Raised(ApiCall(baseUrl, region, ProfilePath(profile), fetch).error)
    ensures !Truthy(heroId) && ApiCall(baseUrl, region, ProfilePath(profile), fetch) == Ok(None) ==>
              r == Tagged(ApiCall(baseUrl, region, HeroPath(profile, None), fetch), profile)
    ensures r.Ok? ==> "profile" in r.value && r.value["profile"] == JStr(profile)
  {
    var id := heroId;
    if !Truthy(heroId) {
      var profileAnswer := ApiCall(baseUrl, region, ProfilePath(profile), fetch);
      if profileAnswer.Raised? {
        return Raised(profileAnswer.error);
      }
      var chosen := GetHeroId(Roster(profileAnswer.value, heroesOf), heroName);
      if chosen.Raised? {
        return Raised(chosen.error);
      }
      id := chosen.value;
    }
    r := Tagged(ApiCall(baseUrl, region, HeroPath(profile, id), fetch), profile);
  }

  // ---------------------------------------------------------------------------
  // item_lookup

  /** One character of an item name as the API spells it: `-` and `'` are
      dropped, a space becomes `-`, and a letter is lowered. */
  function SlugChar(c: char): string {
    if c == '-' || c == '\'' then "" else if c == ' ' then "-" else [LowerChar(c)]
  }

  /** An item name as the API spells it, character by character. */
  function Slug(s: string): string
    decreases |s|
  {
    if |s| == 0 then "" else SlugChar(s[0]) + Slug(s[1..])
  }

  /** `_convert_item_name`: lower case, hyphens dropped, spaces turned into
      hyphens, apostrophes dropped, under `item/`.  The three replacements in
      turn amount to spelling each character on its own (`Slug`). */
  function ConvertItemName(item: string): (r: string)
    ensures r == "item/" + Slug(item)
    ensures "item/" <= r
    ensures ' ' !in r && '\'' !in r
    ensures forall i :: 5 <= i < |r| ==> !IsUpper(r[i])
  {
    var s1 := Replace(Lower(item), "-", "");
    var s2 := Replace(s1, " ", "-");
    var s3 := Replace(s2, "'", "");
    ConvertedIsSlug(item);
    SlugShape(item);
    "item/" + s3
  }

  /** The chain of `lower` and the three `replace` calls spells the name
      character by character. */
  lemma {:induction false} ConvertedIsSlug(item: string)
    ensures Replace(Replace(Replace(Lower(item), "-", ""), " ", "-"), "'", "") == Slug(item)
    decreases |item|
  {
    if |item| > 0 {
      var x := [LowerChar(item[0])];
      var t0 := Lower(item[1..]);
      assert Lower(item) == x + t0;
      ReplaceCharAppend(x, t0, '-', "");
      var h1 := Replace(x, "-", "");
      var t1 := Replace(t0, "-", "");
      ReplaceCharAppend(h1, t1, ' ', "-");
      var h2 := Replace(h1, " ", "-");
      var t2 := Replace(t1, " ", "-");
      ReplaceCharAppend(h2, t2, '\'', "");
      SlugCharSpelled(item[0]);
      ConvertedIsSlug(item[1..]);
    }
  }

  /** The three replacements on one lowered character. */
  lemma SlugCharSpelled(c: char)
    ensures Replace(Replace(Replace([LowerChar(c)], "-", ""), " ", "-"), "'", "") == SlugChar(c)
  {
    var x := [LowerChar(c)];
    ReplaceCharHead(x, '-', "");
    assert x[1..] == "";
    if c == '-' {
    } else {
      ReplaceCharHead(x, ' ', "-");
      if c == ' ' {
        ReplaceCharHead("-", '\'', "");
      } else {
        ReplaceCharHead(x, '\'', "");
      }
    }
  }

  /** A spelled name holds no space, no apostrophe and no upper-case letter. */
  lemma {:induction false} SlugShape(s: string)
    ensures ' ' !in Slug(s) && '\'' !in Slug(s)
    ensures forall i :: 0 <= i < |Slug(s)| ==> !IsUpper(Slug(s)[i])
    decreases |s|
  {
    if |s| > 0 {
      SlugShape(s[1..]);
      var h := SlugChar(s[0]);
      assert Slug(s) == h + Slug(s[1..]);
      forall i | 0 <= i < |Slug(s)| ensures !IsUpper(Slug(s)[i]) {
        if i >= |h| {
          assert Slug(s)[i] == Slug(s[1..])[i - |h|];
        }
      }
    }
  }

  /** The path of the item request: a tooltip string as it is, an item name
      converted first. */
  function ItemPath(item: string, isItemName: bool): (r: string)
    ensures isItemName ==> "data/item/" <= r && ' ' !in r
    ensures isItemName ==> r == "data/" + ConvertItemName(item)
    ensures !isItemName ==> r == "data/" + item
  {
    "data/" + (if isItemName then ConvertItemName(item) else item)
  }

  /** `item_lookup(item, is_item_name, region)`: the answer to the request
      for the item's path; a failed transfer gives `None`. */
  function ItemLookup(item: string, isItemName: bool, baseUrl: string, region: string, fetch: string -> Transfer): (r: Result<Option<Object>>)
    ensures !fetch(ApiUrl(baseUrl, region, ItemPath(item, isItemName))).Body? ==> r == Ok(None)
    ensures r.Ok? && r.value.Some? ==> "code" !in r.value.value
  {
    ApiCall(baseUrl, region, ItemPath(item, isItemName), fetch)
  }
}
