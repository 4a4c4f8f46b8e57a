# d3 profile bot — a verified model

The bot watches a subreddit for posts and comments that link to a Diablo III
player profile. It looks the hero up through the Battle.net API and replies
with a text profile of the hero: intro, gear, stats and skills. It never
answers the same hero twice in one discussion, retries an item a bounded
number of times, and deletes its own replies once they are downvoted.

This project models the core of that bot in Dafny and proves what it
promises. There is one Dafny module per source file, plus shared modules for
Python's string operations and for results and exceptions.

- `Wrappers`: `Option`; `Result`, which is either `Ok` or `Raised` with one
  of Python's exception kinds.
- `Strings`: the Python 2 `str` operations the bot relies on, over
  `seq<char>`. These are `in`, `find`, `split(c)`, `join`, `split()` into
  words, `replace`, `lower`, `title`, and the leading-digit run taken by
  `re.split('\D+', …)[0]`.
- `BotState`: the bot's four dictionaries as one `Memory` value. Every
  operation of `bot.py` is a function from memory to memory, and the lemmas
  about the bot's behaviour are stated over these functions.
  - `_searched`: hour bucket to the ids already searched.
  - `_replied_to`: discussion to the heroes already shown there.
  - `_failed_posts`: item to its number of failed attempts.
  - `_our_posts`: the bot's own replies.
- `Bot`: class `Runner`. Its fields are the four dictionaries, and its
  methods update them in place as `bot.py` does. Each method is proved to
  make exactly the transition that `BotState` defines.
- `Config`: `utils.get_config_params` over the lines of the file.
  - It is a loop with an `in_section` flag and a `break`.
  - It is proved equal to a line-by-line scan and to a direct "section
    body" definition.
- `Lookup`: the URL and path building of `lookup.py`, the API error check,
  and the hero selection of `_get_hero_id`.
- `Profiler`: the attribute min/max rule and the multiplier table of
  `get_gear`, gear stat sums, skills, and the intro data.
- `Formatter`: the Markdown helpers and the text of the intro, gear, stats
  and skills sections.
- `Logger`: level parsing, the per-severity gate and the log path.

External inputs are parameters of the model:

- The clock is `now`.
- Reddit's answers are values (`ContentItem`, `OwnComment`, `Fetch`).
- The reply composer and the reply call form a `Transport`.
- The HTTP fetch is a function from URL to `Transfer`.
- The SQLite tables are maps.
- `str.format` of a database display template is a `Fill` function.

Three details of the code shape the model:

- The hour bucket is the two-character string given by `strftime('%H')`.
- A bucket is a list: an id can occur twice, and a retry removes only the
  first occurrence.
- An item without an author is rejected before any other check.

## Model

| member | source | states |
|---|---|---|
| BotState.HourKey | bot.py:134-137 | the bucket key is two digits whose value is the UTC hour of day |
| BotState.HourKeySameBucket | bot.py:134-137 | two timestamps share a bucket exactly when they share the hour of day |
| BotState.HourKeyRepeatsDaily | bot.py:134-137 | timestamps a whole number of days apart share a bucket, so buckets mix calendar days |
| BotState.AnyTermIn | bot.py:128-132 | true exactly when some search term is a substring of the text |
| BotState.Mark | bot.py:114-117 | after marking, the id is in its hour bucket |
| BotState.Filter | bot.py:90-109 | an ineligible item leaves the memory unchanged and gives false; an eligible one has its id appended to its bucket, even when nothing matches, and gives true exactly when some term occurs in its text; the other dictionaries never change |
| BotState.RegionOf | bot.py:194-202 | no region exactly when neither the us nor the eu host occurs; us wins when both occur |
| BotState.Fragment | bot.py:206-210 | without the separator the whole content is parsed |
| BotState.ProfileAndHero | bot.py:211-212 | IndexError exactly when `hero/` or `profile/` is missing; the hero id is all digits and the profile never contains `/hero/` |
| BotState.HeroInfo | bot.py:189-214 | the intended parser (base url formatted for the region): no region exactly when no host occurs; a parsed hero carries the detected region and a digit-only id; failures are IndexError or ValueError |
| BotState.HeroInfoAsWritten | bot.py:189-214 | the parser as written: no result exactly when no host occurs |
| BotState.FragmentRoundTrip | bot.py:211-212 | parsing `…profile/P/hero/H` gives (P, H) when H is digits, P has no `/` and the prefix names neither marker |
| BotState.HeroInfoRoundTrip | bot.py:194-214 | a post holding `<base url>profile/P/hero/H` parses to (P, H, region) |
| BotState.AsWrittenReadsWholeText | bot.py:204-210 | as written, the split uses the unformatted template, which is not in the post, so the whole post is parsed |
| BotState.RemoveFirst | bot.py:259 | `list.remove` drops exactly one occurrence |
| BotState.CountFailure | bot.py:252-255 | the item's count goes up by one, starting at 1; no other count and no other dictionary changes |
| BotState.Unmark | bot.py:258-259 | KeyError without the bucket, ValueError when the id is not in it; otherwise one occurrence leaves that bucket and no other bucket changes |
| BotState.AddToFailed | bot.py:249-262 | with a numeric threshold: the count rises by one and no other count changes; below the threshold the id leaves its bucket once, or KeyError (no bucket) or ValueError (id not in it) with `_searched` untouched; at the threshold `_searched` is untouched; other buckets, the ledger and own posts never change |
| BotState.AddToFailedAsWritten | bot.py:249-262 | as written: the count rises by one and the call always raises, with NameError exactly when the id was marked |
| BotState.GiveUpKeepsMark | bot.py:257-262 | once the threshold is reached the item stays marked, so the filter rejects it for good |
| BotState.RetryUnmarks | bot.py:257-260 | below the threshold a once-marked item is unmarked without an error |
| BotState.RetriedUntilThreshold | bot.py:252-262 | after k earlier failures the item is retried exactly when k + 1 is below the threshold |
| BotState.OpenLedger | bot.py:161-169 | the discussion gets an empty ledger if it had none; no ledger's contents change |
| BotState.Record | bot.py:177-179 | the hero is appended to this discussion's ledger only, and the reply is tracked with its time and discussion |
| BotState.AddReply | bot.py:139-186 | parse errors propagate with no change; no region counts a failure; a hero already shown gives false with no change; a fresh hero whose reply is composed is recorded in the ledger and the posted reply tracked with its time and discussion, giving true; a failed composition raises with only the ledger opened; ledgers only grow at their end, failure counts never drop and no tracked reply is forgotten |
| BotState.Answer | bot.py:160-186 | a shown hero gives false with no change; a fresh hero whose reply is composed gives true, appends the hero to this ledger and tracks the posted reply; an exception from `_create_post` leaves only the opened ledger and counts no failure; `_searched` and the failure counts never change |
| BotState.AddReplyAsWritten | bot.py:139-186 | as written: no region always raises; for a parsed hero, an exception exactly when the hero is fresh and its reply cannot be composed |
| BotState.AddReplyKeepsLedger | bot.py:160-177 | replying keeps every discussion's ledger free of duplicates |
| BotState.Handle | bot.py:62-64 | an ineligible item changes nothing; a successful reply leaves the item marked; ledgers only grow at their end, failure counts never drop and no tracked reply is forgotten |
| BotState.Process | bot.py:61-70 | a pass over a listing only adds: ledgers grow at their end, failure counts never drop, no tracked reply is forgotten |
| BotState.ProcessAppend | bot.py:59-74 | a pass over `a + b` handles `a` first; an exception in `a` ends the pass before `b`, otherwise `b` starts from the memory `a` left |
| BotState.AnsweredOnce | bot.py:93-102 | handling an item again after a successful reply does nothing (at most one reply per item) |
| BotState.ProcessIneligible | bot.py:62-70 | a listing of ineligible items changes nothing and raises nothing |
| BotState.ProcessKeepsLedger | bot.py:57-70 | processing a listing keeps every ledger duplicate-free |
| BotState.Sweep | bot.py:265-298 | expired records are dropped without a fetch; records that are gone are dropped; negative scores are deleted and dropped; all others are kept unchanged; no other dictionary changes |
| BotState.Cycle | bot.py:59-75 | submissions, comments, then the sweep; ledgers and failure counts only grow, and a cycle cut short by an exception forgets no tracked reply |
| BotState.SweepRetention | bot.py:270-275 | after the sweep no tracked reply is older than 48 hours |
| BotState.SweepIdempotent | bot.py:265-298 | a second sweep at the same time with the same scores deletes and drops nothing |
| BotState.CycleRetention | bot.py:59-73 | after a cycle without an exception, no tracked reply is older than 48 hours |
| BotState.ParentKey | bot.py:319-322 | an id without `_` is kept, and the result never contains `_` |
| BotState.ParentKeyOfFullname | bot.py:319-320 | a fullname `kind_id` gives `id` |
| BotState.Remember | bot.py:315-325 | the parent id is appended to the bucket of the comment's own hour, no other bucket changes, and the comment is tracked |
| BotState.RecentCount | bot.py:309-311 | the comments before the first older one are all recent, and the next one is older |
| BotState.Bootstrap | bot.py:301-325 | bootstrap only adds tracked replies, leaves the ledger and failure counts alone, and does nothing when the newest comment is already old |
| BotState.BootstrapGrows | bot.py:301-325 | bootstrap never removes a mark |
| BotState.BootstrapRecords | bot.py:309-325 | every recent comment's parent is marked in its hour, and the comment is tracked |
| BotState.BootstrapStops | bot.py:309-311 | nothing after the first older comment is tracked |
| BotState.FailedLookupStaysMarked | bot.py:171-175 | when `_create_post` raises for the first submission, the cycle ends with that exception, counts no failure, leaves the item marked so no later check lets it through, and skips the sweep |
| BotState.FailedRenderEndsPass | bot.py:61-70 | a pass whose first item cannot be composed ends there, with only the ledger opened after the mark |
| BotState.AnswerCounted | bot.py:171-175 | the intended failure branch: a reply that cannot be composed counts one failure and tracks nothing; otherwise the same as `Answer` |
| BotState.CountedLookupRetried | bot.py:171-175 | with the failure counted, an item marked once is unmarked below the threshold and tried again, while the code as written keeps it marked |
| BotState.AsWrittenNeverGivesUp | bot.py:257 | as written, every failure unmarks the item, whatever its count |
| BotState.AsWrittenFailureRaises | bot.py:156-158 | as written, a post without a profile link raises NameError after its failure is counted |
| BotState.FailureRaisesNothing | bot.py:257-262 | corrected: recording a failure of a marked item raises nothing |
| BotState.AsWrittenMisreadsHero | bot.py:204-211 | the corrected parser reads (P, H), while the code as written reads an empty hero id from the same post |
| BotState.AsWrittenHeroEmpty | bot.py:204-211 | as written, a `hero/` before the profile link followed by a non-digit gives an empty hero id |
| Bot.Runner.constructor | bot.py:24-42 | the four dictionaries start empty |
| Bot.Runner.Search | bot.py:111-132 | marks the item in its bucket and returns whether a term occurs in its text |
| Bot.Runner.MarkSearched | bot.py:114-117 | makes exactly the `Mark` transition |
| Bot.Runner.AnyTerm | bot.py:128-132 | the term loop returns true exactly when some term occurs in the text |
| Bot.Runner.FilterCheck | bot.py:90-109 | makes exactly the `Filter` transition and returns its verdict |
| Bot.Runner.AddToFailed | bot.py:249-262 | makes exactly the `AddToFailed` transition |
| Bot.Runner.AddReply | bot.py:139-186 | makes exactly the `AddReply` transition |
| Bot.Runner.Answer | bot.py:160-186 | makes exactly the `Answer` transition |
| Bot.Runner.EnsureLedger | bot.py:161-169 | makes exactly the `OpenLedger` transition |
| Bot.Runner.ProcessListing | bot.py:61-70 | the listing loop makes exactly the `Process` transition and stops at the first exception |
| Bot.Runner.RemoveIfNecessary | bot.py:265-298 | the collect-then-delete sweep makes exactly the `Sweep` transition |
| Bot.Runner.SweepScan | bot.py:270-295 | the first loop collects exactly the records not kept, and deletes exactly those with a negative score |
| Bot.Runner.DropTracked | bot.py:297-298 | the second loop removes exactly the collected ids and changes nothing else |
| Bot.Runner.RememberComment | bot.py:315-325 | makes exactly the `Remember` transition |
| Bot.Runner.GetOurPosts | bot.py:301-325 | the bootstrap loop with its `break` makes exactly the `Bootstrap` transition |
| Bot.Runner.RunCycle | bot.py:59-73 | submissions, then comments, then the sweep, stopping at the first exception |
| Config.SectionStart | utils.py:22-23 | the first line containing `[section]`; no earlier line contains it |
| Config.BlankIndex | utils.py:20-21 | the first line equal to a bare newline; no earlier line is one |
| Config.ParseSetting | utils.py:11-17 | IndexError exactly when the line has no `:`; otherwise key + `:` + value is the line without whitespace, and the key has no `:` |
| Config.ReadSetting | utils.py:11-17 | the split-and-rejoin loop computes `ParseSetting` |
| Config.GetConfigParams | utils.py:1-24 | the line loop with its flag and `break` computes the section-body definition |
| Config.ScanIsConfig | utils.py:9-23 | the line-by-line scan agrees with the section-body definition |
| Config.OutsideStays | utils.py:9-24 | without the header line nothing is read |
| Config.ConfigReadsSectionBody | utils.py:9-23 | lines up to the header, and everything from the first blank line on, are never parsed |
| Config.SettleNoSpace | utils.py:11 | no key or value contains whitespace |
| Config.SettleKeeps | utils.py:19 | a key that no later line sets keeps its value |
| Config.LastSettingWins | utils.py:19 | the last line setting a key decides its value |
| Config.SettleRaises | utils.py:12 | the section raises IndexError exactly when one of its lines has no `:` |
| Lookup.ApiUrl | lookup.py:12-13 | the request url is the base url with its one `{region}` field replaced by the region (the base url itself when it has none), followed by the path |
| Lookup.FillRegion | lookup.py:12 | formatting the base url replaces its one `{region}` field, and leaves a url without one unchanged |
| Lookup.Checked | lookup.py:17-32 | HTTP and network errors give None; a body with `code` gives None, or KeyError when `reason` is missing; any other body is returned unchanged |
| Lookup.ApiCall | lookup.py:9-32 | a failed transfer gives None, and the only exception is KeyError |
| Lookup.AnswerHasNoErrorCode | lookup.py:21-25 | returned data never holds `code`, and it is exactly what was fetched |
| Lookup.ScanStep | lookup.py:63-68 | a hero becomes a candidate only when its name matches, ignoring case; a stopped scan stays stopped |
| Lookup.ScanIgnoresRest | lookup.py:67-68 | once the scan has stopped, later heroes do not matter |
| Lookup.CandidatesAreNamed | lookup.py:63-65 | every candidate is a hero whose name matches |
| Lookup.ReachedMatchIsCandidate | lookup.py:63-65 | a matching hero reached before the scan stops is a candidate |
| Lookup.MostRecent | lookup.py:70-74 | the chosen candidate has the greatest last-updated time |
| Lookup.GetHeroId | lookup.py:50-79 | no profile data gives None; without a name the first hero's id, or IndexError on an empty roster; with a name, None exactly when there is no candidate, else a most recently updated candidate |
| Lookup.HeroPath | lookup.py:43 | the hero request path is the profile path followed by `hero/` and the id, or `hero/None` when there is no id |
| Lookup.Roster | lookup.py:57-59 | empty or missing profile data counts as no data |
| Lookup.Tagged | lookup.py:46-47 | the answer gets `profile` set to the requested profile; a missing answer raises TypeError |
| Lookup.HeroLookup | lookup.py:34-48 | a given hero id skips name resolution; otherwise the resolved id (or `None`) is requested; the result's `profile` is the requested one |
| Lookup.ConvertItemName | lookup.py:92-95 | `item/` + the name spelled character by character (`Slug`): `-` and `'` dropped, spaces turned into `-`, letters lowered; so no space, apostrophe or upper-case letter follows `item/` |
| Lookup.ConvertedIsSlug | lookup.py:94 | the chain `lower()`, `replace('-','')`, `replace(' ','-')`, `replace("'",'')` equals the per-character spelling for every name |
| Lookup.SlugShape | lookup.py:94 | a spelled name holds no space, no apostrophe and no upper-case letter |
| Lookup.ItemPath | lookup.py:86-88 | `data/` + the converted name for an item name, `data/` + the tooltip otherwise |
| Lookup.ItemLookup | lookup.py:81-90 | a failed transfer gives None, and returned data never holds `code` |
| Logger.LogLevel | logger.py:61-76 | the five names map to 0 to 4, and any other text gives 1 |
| Logger.UnknownLevelIsInfo | logger.py:76 | a text naming no severity gives the default level 1 |
| Logger.LevelOfName | logger.py:70-75 | naming a severity selects its value |
| Logger.Logged | logger.py:13-41 | an entry is written exactly when the level is at most its severity, with that severity's prefix; a missing `log_level` raises KeyError |
| Logger.GateMonotone | logger.py:13-41 | whenever an entry is written, every more severe entry is written too |
| Logger.DefaultLevelGate | logger.py:16-23 | under an unknown level, debug entries are dropped and all others are written |
| Logger.NamedLevelGate | logger.py:13-41 | a named level writes exactly the entries of that severity and above |
| Logger.FilePath | logger.py:7-11 | the location, then `/`, then the file name; KeyError when either setting is missing |
| Logger.FilePathParts | logger.py:10-11 | when the file name holds no `/`, the path's last `/` is the one after the location |
| Profiler.WithAttr | profiler.py:55-59 | an attribute missing from the table is added with multiplier 1; existing entries never change |
| Profiler.StatOf | profiler.py:62-88 | an error exactly when a value the rule reads is missing; the min is always the raw min times the multiplier, and an attribute that is neither a damage min nor the bleed chance has its max scaled by the multiplier too |
| Profiler.DamageSpan | profiler.py:68-73 | a damage-min attribute's max is its min plus the Delta max times the multiplier |
| Profiler.BleedMax | profiler.py:74-82 | bleed chance's max is the bleed damage min times its multiplier, or 0 when absent |
| Profiler.PlainScaled | profiler.py:55-66 | a new plain attribute keeps its raw min and max (multiplier 1) |
| Profiler.StatsInOrder | profiler.py:49-88 | one stat per raw attribute, in order, each with its min scaled by its multiplier, and the max of a plain attribute scaled by the same multiplier |
| Profiler.TableKeeps | profiler.py:55-59 | the table only gains rows, each with multiplier 1, and every attribute read ends up in it |
| Profiler.ItemStats | profiler.py:49-88 | the attribute loop computes the stat list and the updated table |
| Profiler.Normalised | profiler.py:44-46 | a passive keeps its words, with the whitespace collapsed |
| Profiler.NormalisedIdempotent | profiler.py:46 | collapsing whitespace twice changes nothing more |
| Profiler.GemRun | profiler.py:94-99 | one value per gem attribute, in order, each the raw max times the multiplier; an error exactly when one is missing |
| Profiler.ItemUrl | profiler.py:36-40 | only legendary and set items get a url |
| Profiler.FailedLookupGivesNone | profiler.py:26-29 | any failed item lookup makes the gear None |
| Profiler.GearHasEverySlot | profiler.py:22-34 | a complete gear dictionary has exactly one entry per slot |
| Profiler.GetGear | profiler.py:9-107 | the slot loop computes the gear and the updated table |
| Profiler.GearEntry | profiler.py:31-99 | one slot's entry: name, type, url, passives, stats and gems |
| Profiler.GetStatsFromGear | profiler.py:156-168 | exactly the configured stat names, each the sum of `min` over every slot's stats with that name |
| Profiler.SkillUrl | profiler.py:215-232 | IndexError exactly when the tooltip has fewer than three `/`-separated parts |
| Profiler.SkillUrlOfTooltip | profiler.py:219-232 | tooltip `h/c/s` gives base + `/class/c/<type>/s` |
| Profiler.ActiveEntry | profiler.py:178-187 | an empty slot gives an all-None entry; otherwise the skill name, a url, and the rune only when present |
| Profiler.PassiveEntry | profiler.py:188-194 | an empty slot gives an all-None entry; otherwise the name and a url, and never a rune |
| Profiler.GetSkills | profiler.py:172-196 | both lists keep their length and order, entry by entry; an error exactly when some entry's url fails |
| Profiler.HeroUrl | profiler.py:235-241 | the base url with its one `{region}` field replaced by the region (unchanged when it has none), then `/profile/<profile>/hero/<id>` |
| Profiler.DisplayClass | profiler.py:206 | the displayed class has no `-` |
| Profiler.DisplayClassShape | profiler.py:206 | the class is title-cased, with each `-` turned into a space and the length kept |
| Profiler.IntroInfo | profiler.py:198-212 | `Hardcore` exactly when the flag is set, else empty; name, level and paragon level are copied; the class is the displayed class and the url the hero url |
| Formatter.CreateUrl | formatter.py:224-230 | a falsy url gives the text; otherwise the text in brackets followed by the url in parentheses |
| Formatter.LinkText | formatter.py:228-230 | the link text can be read back from the link |
| Formatter.ItalicSuperscript | formatter.py:232-235 | the superscript text wrapped in `*` |
| Formatter.Super | formatter.py:237-240 | the superscript starts with `^`, and is just `^` for a text without words |
| Formatter.SuperWords | formatter.py:237-240 | every word gets a `^`, and the words are joined by single spaces |
| Formatter.ItalicSuperWords | formatter.py:232-235 | inside the stars, the words are the input's words, each with a `^` |
| Formatter.CellsSplit | formatter.py:176-192 | a row of cells splits back into its cells |
| Formatter.SkillRows | formatter.py:176-192 | the active, rune and passive rows start `> \|` and hold one cell per skill, in order |
| Formatter.FormatSkills | formatter.py:165-194 | the list-building code produces the skills table, line by line |
| Formatter.NatTextRoundTrip | formatter.py:205-206 | a number's decimal text reads back as the number |
| Formatter.IntText | formatter.py:205-206 | an integer's decimal text, with `-` for negatives |
| Formatter.FormatIntro | formatter.py:196-207 | the linked name and the level, then the paragon level, `) `, the hardcore mark and the class |
| Formatter.AscendingSorted | formatter.py:67 | `sorted` of the keys lists each key once, in increasing order |
| Formatter.FirstSeenSpec | formatter.py:47-53 | the gem attributes are listed once each, and every gem's attribute is listed |
| Formatter.GemSumAppend | formatter.py:47-53 | gem sums add up over concatenated gem lists |
| Formatter.GemTotals | formatter.py:46-53 | each gem total is the sum of every gem value for that attribute |
| Formatter.RegularRun | formatter.py:32-43 | regular stats are keyed below `max_order` |
| Formatter.GemLines | formatter.py:55-64 | gem entries take consecutive keys from `max_order + 1`, and earlier entries are kept |
| Formatter.GemsFollowStats | formatter.py:36-67 | in ascending key order every regular stat precedes every gem entry, and gem keys have no gaps |
| Formatter.ItemInfo | formatter.py:26-30 | the heading holds no typographic apostrophe |
| Formatter.PassiveLine | formatter.py:70-74 | the passive line is empty exactly when the joined passives are empty |
| Formatter.StatMap | formatter.py:32-64 | the stat and gem loops compute the item's stat map |
| Formatter.FormatGear | formatter.py:7-92 | the loops produce the gear text: the intro, then the listed slots' texts |
| Formatter.GearText | formatter.py:7-92 | the gear text starts with the gear intro, and raises exactly when some slot's item text raises |
| Formatter.DisplayedAll | formatter.py:84-92 | when every listed slot has a text, exactly those texts are shown, in the listed order |
| Formatter.DisplayedListed | formatter.py:84-92 | only texts of listed slots are shown, at most one per listed name |
| Formatter.Post | formatter.py:120-127 | the stat line at its display order is replaced, and the name width covers the new name |
| Formatter.BoardShowsOnly | formatter.py:112-148 | every shown line comes from a displayable stat whose value is neither 0 nor a primary stat below 100 |
| Formatter.LastStatWins | formatter.py:129-148 | a later stat, such as a gear stat, replaces an earlier one with the same display order |
| Formatter.CritBase | formatter.py:136-140 | a gear crit chance of 0 still shows, as 5; a character crit of 0 is hidden |
| Formatter.ValueColumn | formatter.py:151-155 | names are right-aligned to the widest name, so every value starts at the same column |
| Formatter.FormatStats | formatter.py:94-157 | the loops produce the stats text: the intro, then one line per shown stat in ascending display order |
| Formatter.StatsText | formatter.py:94-157 | the stats text starts with the stats intro; it raises, with TypeError, exactly when some stat has no row, and is just the intro when there are no stats |
| Strings.Split | utils.py:11 | `split(c)` gives at least one piece, none containing `c`, and one piece exactly when `c` is absent |
| Strings.JoinSplit | utils.py:11-17 | joining the pieces with the separator gives the text back |
| Strings.SplitJoin | utils.py:11-17 | splitting a join of separator-free pieces gives the pieces back |
| Strings.Words | formatter.py:234 | `split()` gives non-empty words without whitespace |
| Strings.WordsJoin | formatter.py:234 | words joined by spaces split back into the same words |
| Strings.Contains | bot.py:129 | `in` holds exactly when the pattern occurs at some position |
| Strings.IndexOf | bot.py:211-212 | the first occurrence of a pattern |
| Strings.LeadingDigits | bot.py:211 | the digit run at the start of the text |
| Strings.Replace | lookup.py:94 | replacing a character by text without it removes that character |
| Strings.ReplaceAbsent | bot.py:195 | replacing an absent pattern changes nothing |
| Strings.ReplaceOnce | lookup.py:12 | a pattern occurring once, with its first character nowhere else, is replaced exactly there |
| Strings.Lower | lookup.py:64 | no upper-case letter is left; each upper-case letter becomes its lower-case letter, and every other character is kept |
| Strings.LowerIdempotent | lookup.py:64 | lowering twice is lowering once |
| Strings.Title | profiler.py:206 | `title()` keeps every non-letter, keeps each letter's identity, and makes a letter upper case exactly when it starts the text or follows a non-letter |
| Strings.SecondPiece | bot.py:211-212 | `split(sep)[1]`: None exactly when `sep` is absent; otherwise the text after the first `sep`, running to the next `sep` or to the end, with no `sep` inside |
| Strings.RemoveSpaces | utils.py:11 | `''.join(line.split())` keeps exactly the non-whitespace characters, in order (`Squeeze`) |
| Strings.ConcatWords | utils.py:11 | gluing the words of a text together gives its non-whitespace characters |
| Strings.LowerEqual | lookup.py:64 | two names match ignoring case exactly when their characters match position by position after lowering |

## Left out

- Reddit access through praw is not modelled: connecting, listings,
  `get_submission`, posting a reply, `delete`, `get_redditor`. Their results
  are inputs. The reply call is `Transport.reply`, and a fetched score is
  `Fetch`.
- `time.time()`, `time.sleep` and the endless loop with its reconnect in
  `run` are not modelled. One turn of the loop is `RunCycle` with `now` as a
  parameter, and an exception ends the turn with the dictionaries as they
  are.
- `_create_post` is the oracle `Transport.render`, which gives the reply
  text or raises. It only chains the lookup, profiler and formatter calls,
  each of which is modelled on its own. It never returns None: when the
  hero cannot be loaded, `hero_lookup` raises TypeError first
  (`Lookup.Tagged`), so its `if not hero` branch is dead code.
- The case where an item is neither a comment nor a submission, in
  `_search` and `_add_reply`, is not modelled. `ContentItem` has only those
  two kinds.
- Log output (`logger.debug` … `logger.error`) is not modelled. Only the
  `post_id` NameError, which changes control flow, is kept.
- Reading the config and login files is not modelled. A config file is
  given as its list of lines.
- `logger._log` is not modelled: the file write, the timestamp and the
  error file. `Logged` returns the text that would follow the timestamp.
- The HTTP request and JSON decoding of `_api_call` are not modelled. The
  fetch is a function from URL to `Transfer`. The profile's `heroes` list
  comes from the decoder `heroesOf`.
- The SQLite connections, queries, commits and rollbacks are not modelled.
  The item, multiplier and stats tables are maps.
  - The `sqlite3.Error` paths are not modelled, including `format_stats`
    returning None and `get_gear` returning partial gear.
  - `utils.close_db` and `utils.rollback_db` are not modelled.
- Stat values and multipliers are floats in the API and are integers here.
- `str.format` of a database display template is the function `Fill`.
- `_get_item_url` is the function `urlOf`. It only chains an item lookup,
  two replaces and two configured paths.
- `get_stats` is not part of this model.
- `format_outro` is not part of this model. It is a fixed footer built from
  `_create_url` and `_super`, both of which are modelled.
- `time.strftime('%H', time.gmtime(t))` is computed from
  `(t / 3600) mod 24`. Fractional timestamps are not modelled.
- `int(config['max_order'])` and `int(config['max_timeframe'])` are integer
  parameters. A non-numeric setting raising ValueError is not modelled.
- Python 2 dictionary iteration order is given as the order of sequences:
  gear slots, `attributesRaw`, the gem totals and the stat dictionaries.
  - Gem entries are numbered in first-seen attribute order, while Python 2
    iterates `gem_data` in hash order.
  - This changes only which gem comes first among the gem entries, not
    that they all follow the regular stats.
- `max_val_len` in `format_stats` is computed but never used, so it is not
  modelled.
- Strings.Title: handles only ASCII letters; Unicode case mapping is not
  modelled.
- Strings.Lower: ASCII only. Hero names come from `json.loads` as unicode,
  and their non-ASCII letters would be lowered too.
- `.format(region=…)` of the base url is modelled as replacing `{region}`.
  A template with any other field would raise in Python, and that is not
  modelled.
- Lookup.GetHeroId: among candidates with the same last-updated time, which
  one Python's sort-and-reverse picks is not pinned down, because that
  depends on dictionary order. The model proves only that a most recently
  updated candidate is returned.
- Lookup.HeroLookup: when the profile request answers, the contract says
  only that the result is tagged with the profile. Which id is chosen is
  stated by `GetHeroId`.
- BotState.HeroInfoAsWritten: its contract states only when a region is
  found. What it parses is stated by `AsWrittenReadsWholeText`,
  `AsWrittenHeroEmpty` and `AsWrittenMisreadsHero`.

## Findings

| source | as written | input that shows it | evidently intended | confidence | as-written member | corrected member |
|---|---|---|---|---|---|---|
| bot.py:172 | `_create_post` never returns None: for a hero that cannot be loaded, `hero_lookup` stores into None (lookup.py:47) and raises TypeError, and bot.py:172 tests `reply`, a bound method that is always truthy, instead of `formatted_reply`; so the failure branch is dead, and the TypeError leaves `_add_reply` with the ledger opened, no failure counted, the item marked for good and the rest of the cycle skipped | a post linking a hero whose hero request gives an HTTP error or an API error report | count a failure through `_add_to_failed`, so the item is retried up to the threshold, and go on with the next item | high; not executed | BotState.FailedLookupStaysMarked | BotState.CountedLookupRetried |
| bot.py:257 | compares the integer count with the string `fails_allowed`; in Python 2 an int is always less than a str | `fails_allowed: 3` and a fourth failure of the same item | give up once the count reaches the threshold, as `int(...)` does at bot.py:104 | high; not executed | BotState.AsWrittenNeverGivesUp | BotState.GiveUpKeepsMark |
| bot.py:260 | both log lines name the undefined `post_id`, so every failure raises NameError after the state change, and bot.py:74 abandons the rest of the cycle | any post without a profile link | log `post.id` and carry on | high; not executed | BotState.AsWrittenFailureRaises | BotState.FailureRaisesNothing |
| bot.py:204 | formats the literal `'base_url'` and looks that key up, so the split at bot.py:206 uses the unformatted template, finds nothing and parses the whole post | `see hero/x at <us base url>profile/P/hero/123`: the hero id comes out empty | split at the base url formatted for the detected region | high; not executed | BotState.AsWrittenMisreadsHero | BotState.HeroInfoRoundTrip |
