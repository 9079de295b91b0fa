# WHO Covid Advice chef: a verified model

This project models the decision logic of the WHO Covid Advice "sushi chef". The chef turns the
World Health Organization's COVID-19 public-advice pages into a Kolibri channel. The model
covers:

- **Channel set-up**: how `get_channel` adapts the channel's fields to the configured language.
  The source id gets the suffix `-<language>`, the description is picked from SOURCE_MAP, and the
  source domain becomes the advice page's URL.
- **Topic planning**: which child `construct_channel` adds for each link of the advice page's
  topic list. The advice page itself comes first. The endpoint is the last path segment of a
  link's `href`. The `videos` endpoint becomes a video topic, a BLACKLIST endpoint is skipped,
  and any other endpoint becomes an HTML page.
- **Video selection**: which videos `scrape_video_page` puts in a video topic.
  - It takes embedded iframes whose `src` mentions neither `google` nor `facebook`.
  - It then takes native video blocks, whose `onclick` descriptor `f("Handler", "AssetId")` is
    parsed with a regular expression. The `YoutubeVideo` handler is skipped.
- **Language discovery**: `get_available_languages` reads the language codes of the selector's
  `openLinkWithTranslation('xx')` calls.
- **Section walk**: `WHOCovidAdvicePageScraper.get_ricecooker_node` walks a page's section
  headings.
  - A heading holding an `h1` sets the topic title, and the last such heading wins.
  - Any other heading is classified by its next sibling: a text section (`content-block`), the
    maximal run of consecutive `row` siblings, or no call at all.

Fetched and parsed pages are records holding exactly the lookups the code makes on them. A
lookup that finds nothing is an `Option`. The code's exceptions are `Result` errors:
- `None` used as an element is `NoneElement`;
- a missing attribute or dictionary key is `KeyError`;
- `.group` on a failed `re.search` is `NoMatch`.

Every `for` loop over a list that stops at the first exception is an instance of
`Results.Collect`. Its methods are proved equal to the `Collect` of a per-item step function,
and the lemmas say what those functions produce. The one other loop, the `while` loop that
collects a run of `row` siblings in scrapers/who.py, stops at its first exception as well; it is
modelled by `WhoScraper.RowRunEnd` instead, since it walks a cursor through siblings rather than
over a list.

Files:
- `results.dfy`: Option/Result, the error kinds, and the generic loop fold `Collect`.
- `pystr.dfy`: `str.strip`, `split('/')[-1]` and substring `in`.
- `chef_regex.dfy`: the two regular expressions, with the match `re.search` reports (the
  leftmost one, with greedy groups as long as possible).
- `sushichef.dfy`: the chef.
- `who_scraper.dfy`: the section walk of scrapers/who.py.

## Model

| member | source | states |
|---|---|---|
| PyStr.StripTrims | sushichef.py:151 | `strip()` removes only whitespace from both ends, and its result neither starts nor ends with whitespace |
| PyStr.LastSegmentSpec | sushichef.py:152 | `href.split('/')[-1]` is a slash-free suffix of the href; it is preceded by a `/` unless it is the whole href |
| PyStr.LastSegmentAfterSlash | sushichef.py:152 | whatever comes before the last `/`, the endpoint is the text after it |
| PyStr.ContainsOccurs | sushichef.py:179 | Python's `test in src` holds exactly when `test` occurs as a contiguous substring of `src` |
| ChefRegex.DescriptorGroups | sushichef.py:191 | group 1 and group 2 are the two quoted texts of the first match in `re.search`'s backtracking order; when nothing matches, `.group` fails, and no match exists |
| ChefRegex.OnlyDescriptor | sushichef.py:191 | a descriptor match with no `(` before it and no other `"` after its first quote gives the groups |
| ChefRegex.DescriptorRoundTrip | sushichef.py:191 | for `name("H",<spaces>"A")tail` with quote-free, newline-free, non-empty H and A, the groups are (H, A) |
| ChefRegex.TranslationGroup | sushichef.py:209 | the group is the non-empty, quote-free text of the leftmost `openLinkWithTranslation('…')` match; with no match `.group` fails |
| ChefRegex.OnlyTranslation | sushichef.py:209 | a call with no `(` before it is the match reported, so its quoted code is the group |
| ChefRegex.TranslationRoundTrip | sushichef.py:209 | `prefix openLinkWithTranslation('code') suffix` gives back `code` when the prefix has no `(` and the code is non-empty and quote-free |
| SushiChef.TopicUrlEndpoint | sushichef.py:34 | a topic URL is the main URL (empty endpoint) followed by the endpoint, and taking its last segment gives the endpoint back |
| SushiChef.SourceIdDistinguishesLanguages | sushichef.py:123 | the `'{}-{}'` source id determines the language |
| SushiChef.MainUrlDistinguishesLanguages | sushichef.py:125 | the source domain `BASE_URL.format(language, '')` determines the language |
| SushiChef.ConfiguredChannelsDiffer | sushichef.py:119-126 | channels configured for two different languages differ in source id and in source domain |
| SushiChef.Channel.FromChannelInfo | sushichef.py:104-111 | a new channel carries the `channel_info` fields and has no children |
| SushiChef.Channel.AddChild | sushichef.py:147 | `add_child` appends the node and leaves every other field unchanged |
| SushiChef.WhoCovidAdviceChef.constructor | sushichef.py:112-117 | the chef keeps its options and starts with language `en` |
| SushiChef.WhoCovidAdviceChef.GetChannel | sushichef.py:119-126 | reads the language option; a missing option or a language absent from SOURCE_MAP raises KeyError; otherwise the fresh channel has language, suffixed source id, SOURCE_MAP description and main-URL domain, and no children |
| SushiChef.WhoCovidAdviceChef.ConstructChannel | sushichef.py:128-161 | sets the chef's language from the language option, as `get_channel` does; succeeds exactly when `ConstructedChannel` does; the channel's fields and children are those it gives, and any error is the first exception the code would raise |
| SushiChef.WhoCovidAdviceChef.AddTopics | sushichef.py:150-159 | the topic loop appends exactly the children of the loop's steps to the channel, stops at the first error, and leaves the channel's fields unchanged |
| SushiChef.WhoCovidAdviceChef.TopicChild | sushichef.py:152-159 | one loop iteration: KeyError without `href`; `videos` scrapes the video page; a blacklisted endpoint adds nothing; any other endpoint adds the HTML page at its topic URL |
| SushiChef.WhoCovidAdviceChef.ScrapeVideoPage | sushichef.py:168-201 | the video topic at `url` holds the embedded videos followed by the native ones, or the first error raised while collecting them |
| SushiChef.EmbeddedVideos | sushichef.py:178-184 | the iframe loop equals the fold of its steps: KeyError without `src`, skip on an ignored host, error without a heading, else the embed titled with the stripped heading |
| SushiChef.NativeVideos | sushichef.py:188-199 | the native loop equals the fold of its steps: errors for a missing `h3`, `a`, `onclick` or descriptor match; playlists skipped; else the asset titled with the stripped `h3` |
| SushiChef.AvailableLanguages | sushichef.py:205-210 | `get_available_languages` equals the fold of its steps: a missing selector, anchor, `onclick` or match is an error, otherwise one code per item in order |
| SushiChef.TopicStepFollowsLink | sushichef.py:152-159 | an iteration that raises nothing adds no child exactly for blacklisted endpoints, and otherwise adds the child for the link |
| SushiChef.TopicsFollowLinks | sushichef.py:150-159 | without an error, the loop adds exactly one child per non-blacklisted link, in link order; a `videos` link gives the video topic, any other the HTML page at its topic URL |
| SushiChef.ChannelChildrenFollowLinks | sushichef.py:143-159 | the children are the advice page at the main URL, titled with its section heading, followed by one child per accepted link in order |
| SushiChef.IframeStepEmbeds | sushichef.py:179-184 | an iframe iteration that raises nothing skips exactly the ignored embeds and otherwise yields the iframe's embed |
| SushiChef.EmbeddedVideosFollowIframes | sushichef.py:178-184 | without an error, one embedded video per non-ignored iframe, in document order, duplicates kept |
| SushiChef.IgnoredHostSkipped | sushichef.py:170-179 | an iframe whose `src` contains `google` or `facebook` anywhere yields nothing |
| SushiChef.IgnoredIffHostOccurs | sushichef.py:170-179 | an embed is ignored exactly when `google` or `facebook` occurs as a substring of its `src` |
| SushiChef.VideoBlockStepPlays | sushichef.py:189-199 | a block iteration that raises nothing skips exactly the `YoutubeVideo` blocks and otherwise yields the native video of the descriptor's asset |
| SushiChef.NativeVideosFollowBlocks | sushichef.py:188-199 | without an error, one native video per non-playlist block, in document order, duplicates kept |
| SushiChef.EmbeddedBeforeNative | sushichef.py:176-199 | a video topic lists every embedded video before every native one; its length is the number of shown iframes plus shown blocks |
| SushiChef.NativeVideoFromDescriptor | sushichef.py:191-197 | a block whose `onclick` is `f("H", "A")` gives the native video of asset A, unless H is `YoutubeVideo`, in which case it gives nothing |
| SushiChef.LanguagesFollowItems | sushichef.py:205-210 | when the loop raises nothing, there is exactly one code per selector item, in order, and each is the group of that item's `onclick` |
| SushiChef.SelectorItemStep | sushichef.py:209 | an item whose anchor calls `openLinkWithTranslation('code')` gives back `code` |
| SushiChef.LanguagesOfSelectorItems | sushichef.py:205-210 | a selector of such items lists exactly their codes, in order |
| WhoScraper.RowRunEndSpec | scrapers/who.py:56-59 | the `while` loop stops at the first sibling that is not a row, and all siblings before it are rows; it fails on `None` exactly when every remaining sibling is a row; it raises KeyError exactly when a class-less sibling comes before any non-row |
| WhoScraper.SectionCallSpec | scrapers/who.py:50-61 | no next sibling, or one without classes, is an error; `content-block` gives a text-section call on that sibling; otherwise `row` gives the maximal non-empty run of rows starting at it, in order; neither class gives no call |
| WhoScraper.UntitledPage | scrapers/who.py:38 | without a section holding an `h1`, the title stays `''` |
| WhoScraper.LastHeadingWins | scrapers/who.py:40-46 | the title is the stripped text of the last section holding an `h1` |
| WhoScraper.CallsFollowSections | scrapers/who.py:40-61 | without an error, there is one hook call per calling non-title section, in document order; each is the call made for its section, and title sections make none |
| WhoScraper.AdvicePageScraper.constructor | scrapers/who.py:7-9 | the scraper keeps its URL and file path |
| WhoScraper.AdvicePageScraper.GetRicecookerNode | scrapers/who.py:32-63 | the loop's result equals `PageOf`: the topic at the scraper's URL with the last heading title, plus the hook calls, or the first error |
| WhoScraper.AdvicePageScraper.ClassifySection | scrapers/who.py:50-61 | the classification and the `rows` loop equal `SectionCall` |

## Left out

- Network and file I/O (`downloader.read`, `open(...)`) is not modelled. The parsed contents of each page are parameters: `AdvicePage`, `VideoPage`, the language selector's items, and the sections of the advice page.
- HTML parsing with BeautifulSoup is not modelled. A page is a record of the lookups the code makes, and a lookup that can come back empty is an `Option`.
- The ricecooker and webmixer classes are not modelled, since they are foreign code. This covers `TopicNode`, `to_contentnode`, `guess_scraper`, LICENSE, and the `WHOPageScraper`, `WHOWebVideoScraper` and `WHOVideoScraper` scrapers, which are not defined in scrapers/who.py. Their results are the stand-in values `HtmlPage`, `WebVideo` and `NativeVideo`, which record the arguments the chef passes.
- SushiChef.ConfiguredHeader: the SOURCE_MAP description texts are represented by their language (`SourceMapDescription(language)`), not by the texts themselves.
- SushiChef.ConstructChannel: every `videos` link fetches the same page, because its URL depends only on the language. The video page is therefore a single parameter.
- Logging (LOGGER, `print`) is left out, since it does not affect results.
- The `__main__` loop over languages is left out, apart from the language-code parse it relies on (`AvailableLanguages`).
- `node_for_text_section`, `node_for_rows` and `node_for_video` do nothing. Only which hook is called, and with what, is recorded, as the `Call` values of `WhoScraper`.
- `WHOPageScraperBase.get_ricecooker_node` only raises NotImplementedError and is not modelled.
- WhoScraper.AdvicePageScraper.GetRicecookerNode: `topic_node.title` is assigned in place in the source. Here it is a local title that goes into the returned topic, since nothing else refers to the node while the loop runs.
- ChefRegex.DescriptorGroups: when nothing matches, the contract says that no match exists. When a match exists, it says the groups are those of the first match in backtracking order. Correctness of a concrete `onclick` is proved for the laid-out descriptor shape (`OnlyDescriptor`, `DescriptorRoundTrip`), not for every string.
- `str.strip()` uses Python's `str.isspace` characters; `\s` in the descriptor pattern is taken as the same set.
