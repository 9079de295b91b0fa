/**
 * The chef of sushichef.py: how the channel's metadata is set for one language, which child
 * each topic link of the advice page becomes, which videos a video page yields, and which
 * language codes the language selector lists. Fetching and parsing pages is not modelled: a
 * parsed page is a record of exactly the lookups the chef makes on it.
 */
module SushiChef {
  import opened Results
  import opened PyStr
  import opened ChefRegex

  const ChannelName := "WHO Covid Advice"
  const ChannelSourceId := "who-covid-advice"
  const ChannelDomain := "who.int"
  const ChannelLanguage := "en"
  const ChannelThumbnail := "https://news.umanitoba.ca/wp-content/uploads/2020/04/WHO.jpg"

  /** The two constant parts of BASE_URL, around its `{language}` and `{endpoint}` fields. */
  const UrlHead := "https://www.who.int/"
  const UrlMiddle := "/emergencies/diseases/novel-coronavirus-2019/advice-for-public/"

  const Blacklist: seq<string> := ["healthy-parenting"]
  const IgnoredVideos: seq<string> := ["google", "facebook"]
  const VideosEndpoint := "videos"
  /** The handler whose native video blocks are playlists and are skipped. */
  const PlaylistHandler := "YoutubeVideo"
  /** The option key the chef reads its language from. */
  const LanguageOption := "language"

  /** The languages SOURCE_MAP has an entry for. */
  const SourceMapLanguages: set<string> := {"en", "ar", "es", "fr", "zh", "ru"}

  /** The description SOURCE_MAP gives a channel in `language`; the texts themselves are not
      part of this model. */
  datatype Description = SourceMapDescription(language: string)

  // ---------------------------------------------------------------------------------------
  // URLs and identifiers

  /** `BASE_URL.format(language=language, endpoint=endpoint)`. */
  function TopicUrl(language: string, endpoint: string): string
  {
    UrlHead + language + UrlMiddle + endpoint
  }

  /** The advice page itself: BASE_URL with an empty endpoint. */
  function MainUrl(language: string): string
  {
    TopicUrl(language, "")
  }

  /** A topic URL is the main URL followed by the endpoint, and the endpoint is what
      `split('/')[-1]` recovers from it. */
  lemma {:induction false} TopicUrlEndpoint(language: string, endpoint: string)
    requires '/' !in endpoint
    ensures TopicUrl(language, endpoint) == MainUrl(language) + endpoint
    ensures LastSegment(TopicUrl(language, endpoint)) == endpoint
  {
    var p := UrlHead + language + UrlMiddle[..|UrlMiddle| - 1];
    assert UrlMiddle == UrlMiddle[..|UrlMiddle| - 1] + "/";
    assert TopicUrl(language, endpoint) == p + "/" + endpoint;
    LastSegmentAfterSlash(p, endpoint);
  }

  /** `'{}-{}'.format(source_id, language)`. */
  function SourceIdFor(sourceId: string, language: string): string
  {
    sourceId + "-" + language
  }

  /** Channels built for different languages get different source ids. */
  lemma {:induction false} SourceIdDistinguishesLanguages(l1: string, l2: string)
    requires SourceIdFor(ChannelSourceId, l1) == SourceIdFor(ChannelSourceId, l2)
    ensures l1 == l2
  {
    var n := |ChannelSourceId| + 1;
    assert SourceIdFor(ChannelSourceId, l1)[n..] == l1;
    assert SourceIdFor(ChannelSourceId, l2)[n..] == l2;
  }

  // ---------------------------------------------------------------------------------------
  // Parsed pages and produced nodes

  /** An `<a>` element; `onclick` is None when it has no such attribute. */
  datatype Anchor = Anchor(onclick: Option<string>)

  /** An `<a>` of the advice page's topic list. */
  datatype TopicLink = TopicLink(href: Option<string>, text: string)

  /** The advice page: the text of its first `div.section-heading` and the links of its
      `ul.accordion-content`, each None when the page has no such element. */
  datatype AdvicePage = AdvicePage(sectionHeading: Option<string>, accordion: Option<seq<TopicLink>>)

  /** An `<iframe>`: its `src`, and the text of the `div.section-heading` inside its enclosing
      `div.sf_colsIn` (None when either element is missing). */
  datatype Iframe = Iframe(src: Option<string>, heading: Option<string>)

  /** A `div.sf-multimedia-item__video`: the text of its `<h3>` and its first `<a>`. */
  datatype VideoBlock = VideoBlock(heading: Option<string>, anchor: Option<Anchor>)

  /** The video page: its iframes and its native video blocks, each in document order. */
  datatype VideoPage = VideoPage(iframes: seq<Iframe>, videoBlocks: seq<VideoBlock>)

  /** A `<li>` of the language selector, with its first `<a>`. */
  datatype LanguageItem = LanguageItem(anchor: Option<Anchor>)

  /** A video handed to a video scraper: an embed by its `src`, or a native video by its asset id. */
  datatype Video = WebVideo(src: string, title: string) | NativeVideo(assetId: string, title: string)

  /** A child of the channel: a page scraped to HTML, or the topic holding a page's videos. */
  datatype ContentNode =
    | HtmlPage(url: string, title: string)
    | VideoTopic(sourceId: string, title: string, videos: seq<Video>)

  // ---------------------------------------------------------------------------------------
  // The video page

  /** `any(test in src for test in IGNORED_VIDEOS)`: an embed from a social-widget host. */
  predicate IsIgnoredVideo(src: string)
  {
    exists test :: test in IgnoredVideos && Contains(src, test)
  }

  /** One iteration of the iframe loop of `scrape_video_page`. */
  function IframeStep(iframe: Iframe): Result<Option<Video>>
  {
    if iframe.src.None? then Err(KeyError("src"))
    else if IsIgnoredVideo(iframe.src.value) then Ok(None)
    else if iframe.heading.None? then Err(NoneElement("div.sf_colsIn div.section-heading"))
    else Ok(Some(WebVideo(iframe.src.value, Strip(iframe.heading.value))))
  }

  /** One iteration of the native-video loop of `scrape_video_page`. */
  function VideoBlockStep(block: VideoBlock): Result<Option<Video>>
  {
    if block.heading.None? then Err(NoneElement("h3"))
    else if block.anchor.None? then Err(NoneElement("a"))
    else if block.anchor.value.onclick.None? then Err(KeyError("onclick"))
    else
      match DescriptorGroups(block.anchor.value.onclick.value)
      case Err(e) => Err(e)
      case Ok((handler, assetId)) =>
        if handler == PlaylistHandler then Ok(None)
        else Ok(Some(NativeVideo(assetId, Strip(block.heading.value))))
  }

  function IframeSteps(iframes: seq<Iframe>): (r: seq<Result<Option<Video>>>)
    ensures |r| == |iframes| && forall k :: 0 <= k < |r| ==> r[k] == IframeStep(iframes[k])
  {
    if iframes == [] then [] else [IframeStep(iframes[0])] + IframeSteps(iframes[1..])
  }

  function VideoBlockSteps(blocks: seq<VideoBlock>): (r: seq<Result<Option<Video>>>)
    ensures |r| == |blocks| && forall k :: 0 <= k < |r| ==> r[k] == VideoBlockStep(blocks[k])
  {
    if blocks == [] then [] else [VideoBlockStep(blocks[0])] + VideoBlockSteps(blocks[1..])
  }

  /** The videos `scrape_video_page` finds on a page: the embedded ones, then the native ones. */
  function PageVideos(page: VideoPage): Result<seq<Video>>
  {
    match Collect(IframeSteps(page.iframes))
    case Err(e) => Err(e)
    case Ok(embedded) =>
      match Collect(VideoBlockSteps(page.videoBlocks))
      case Err(e) => Err(e)
      case Ok(native) => Ok(embedded + native)
  }

  /** The video topic `scrape_video_page(url, title)` builds from the page's contents. */
  function VideoTopicFor(url: string, title: string, page: VideoPage): Result<ContentNode>
  {
    match PageVideos(page)
    case Err(e) => Err(e)
    case Ok(videos) => Ok(VideoTopic(url, title, videos))
  }

  // ---------------------------------------------------------------------------------------
  // The channel

  /** One iteration of the topic loop of `construct_channel`, where `videos` is what scraping the
      video page gives. */
  function TopicStep(language: string, videos: Result<seq<Video>>, link: TopicLink): Result<Option<ContentNode>>
  {
    if link.href.None? then Err(KeyError("href"))
    else
      var endpoint := LastSegment(link.href.value);
      var url := TopicUrl(language, endpoint);
      if endpoint == VideosEndpoint then
        match videos
        case Err(e) => Err(e)
        case Ok(found) => Ok(Some(VideoTopic(url, Strip(link.text), found)))
      else if endpoint !in Blacklist then Ok(Some(HtmlPage(url, Strip(link.text))))
      else Ok(None)
  }

  function TopicSteps(language: string, videos: Result<seq<Video>>, links: seq<TopicLink>)
    : (r: seq<Result<Option<ContentNode>>>)
    ensures |r| == |links| && forall k :: 0 <= k < |r| ==> r[k] == TopicStep(language, videos, links[k])
  {
    if links == [] then [] else [TopicStep(language, videos, links[0])] + TopicSteps(language, videos, links[1..])
  }

  // ---------------------------------------------------------------------------------------
  // The language selector

  /** One iteration of the loop of `get_available_languages`. */
  function LanguageStep(item: LanguageItem): Result<Option<string>>
  {
    if item.anchor.None? then Err(NoneElement("a"))
    else if item.anchor.value.onclick.None? then Err(KeyError("onclick"))
    else
      match TranslationGroup(item.anchor.value.onclick.value)
      case Err(e) => Err(e)
      case Ok(code) => Ok(Some(code))
  }

  function LanguageSteps(items: seq<LanguageItem>): (r: seq<Result<Option<string>>>)
    ensures |r| == |items| && forall k :: 0 <= k < |r| ==> r[k] == LanguageStep(items[k])
  {
    if items == [] then [] else [LanguageStep(items[0])] + LanguageSteps(items[1..])
  }

  /** The language codes `get_available_languages` returns for the items of the page's
      `ul.sf-lang-selector` (None when the page has no such list). */
  function LanguagesOf(selector: Option<seq<LanguageItem>>): Result<seq<string>>
  {
    if selector.None? then Err(NoneElement("ul.sf-lang-selector"))
    else Collect(LanguageSteps(selector.value))
  }

  /** `get_available_languages`, given the items of the English advice page's language selector. */
  method AvailableLanguages(selector: Option<seq<LanguageItem>>) returns (r: Result<seq<string>>)
    ensures r == LanguagesOf(selector)
  {
    if selector.None? {
      return Err(NoneElement("ul.sf-lang-selector"));
    }
    var items := selector.value;
    var languages: seq<string> := [];
    ghost var steps := LanguageSteps(items);
    var i := 0;
    while i < |items|
      invariant 0 <= i <= |items|
      invariant Collect(steps[..i]) == Ok(languages)
    {
      var item := items[i];
      assert steps[i] == LanguageStep(item);
      CollectStep(steps, i, languages);
      if item.anchor.None? {
        return Err(NoneElement("a"));
      }
      if item.anchor.value.onclick.None? {
        return Err(KeyError("onclick"));
      }
      var code := TranslationGroup(item.anchor.value.onclick.value);
      if code.Err? {
        return Err(code.error);
      }
      languages := languages + [code.value];
      i := i + 1;
    }
    assert steps[..i] == steps;
    return Ok(languages);
  }

  /** The channel fields as `channel_info` sets them, before `get_channel` adjusts them. */
  datatype ChannelHeader = ChannelHeader(
    sourceDomain: string, sourceId: string, title: string, language: string,
    thumbnail: string, description: Option<Description>)

  const ChannelInfo := ChannelHeader(ChannelDomain, ChannelSourceId, ChannelName, ChannelLanguage,
                                     ChannelThumbnail, None)

  /** The channel fields after `get_channel` with the given options. */
  function ConfiguredHeader(options: map<string, string>): Result<ChannelHeader>
  {
    if LanguageOption !in options then Err(KeyError(LanguageOption))
    else
      var language := options[LanguageOption];
      if language !in SourceMapLanguages then Err(KeyError(language))
      else Ok(ChannelInfo.(language := language,
                           sourceId := SourceIdFor(ChannelInfo.sourceId, language),
                           description := Some(SourceMapDescription(language)),
                           sourceDomain := MainUrl(language)))
  }

  /** The children `construct_channel` gives a channel in `language`, where `videos` is what
      scraping the video page gives: the advice page, then the topics. */
  function ChannelChildren(language: string, advice: AdvicePage, videos: Result<seq<Video>>)
    : Result<seq<ContentNode>>
  {
    if advice.sectionHeading.None? then Err(NoneElement("div.section-heading"))
    else if advice.accordion.None? then Err(NoneElement("ul.accordion-content"))
    else
      match Collect(TopicSteps(language, videos, advice.accordion.value))
      case Err(e) => Err(e)
      case Ok(topics) => Ok([HtmlPage(MainUrl(language), advice.sectionHeading.value)] + topics)
  }

  /** The channel `construct_channel` builds: its fields, and its children. */
  function ConstructedChannel(options: map<string, string>, advice: AdvicePage, videoPage: VideoPage)
    : Result<(ChannelHeader, seq<ContentNode>)>
  {
    match ConfiguredHeader(options)
    case Err(e) => Err(e)
    case Ok(header) =>
      match ChannelChildren(header.language, advice, PageVideos(videoPage))
      case Err(e) => Err(e)
      case Ok(children) => Ok((header, children))
  }

  /** The channel node: its fields are set in place by `get_channel`, and children are added
      one at a time. */
  class Channel {
    var sourceDomain: string
    var sourceId: string
    var title: string
    var language: string
    var thumbnail: string
    var description: Option<Description>
    var children: seq<ContentNode>

    function Header(): ChannelHeader
      reads this
    {
      ChannelHeader(sourceDomain, sourceId, title, language, thumbnail, description)
    }

    /** The channel `channel_info` describes, with no children yet. */
    constructor FromChannelInfo()
      ensures Header() == ChannelInfo && children == []
    {
      sourceDomain, sourceId, title := ChannelDomain, ChannelSourceId, ChannelName;
      language, thumbnail, description := ChannelLanguage, ChannelThumbnail, None;
      children := [];
    }

    /** `add_child`: appends one child and changes nothing else. */
    method AddChild(node: ContentNode)
      modifies this
      ensures Header() == old(Header())
      ensures children == old(children) + [node]
    {
      children := children + [node];
    }
  }

  class WhoCovidAdviceChef {
    var language: string
    const options: map<string, string>

    constructor (options: map<string, string>)
      ensures this.options == options && language == "en"
    {
      this.options := options;
      language := "en";
    }

    /** `get_channel`: takes the language from the options, then suffixes the source id with it
        and sets the description and source domain for it. */
    method GetChannel() returns (r: Result<Channel>)
      modifies this`language
      ensures language == if LanguageOption in options then options[LanguageOption] else old(language)
      ensures r.Ok? <==> ConfiguredHeader(options).Ok?
      ensures r.Err? ==> r.error == ConfiguredHeader(options).error
      ensures r.Ok? ==> fresh(r.value) && r.value.Header() == ConfiguredHeader(options).value
      ensures r.Ok? ==> r.value.children == []
    {
      var channel := new Channel.FromChannelInfo();
      if LanguageOption !in options {
        return Err(KeyError(LanguageOption));
      }
      language := options[LanguageOption];
      channel.language := language;
      channel.sourceId := SourceIdFor(channel.sourceId, language);
      if language !in SourceMapLanguages {
        return Err(KeyError(language));
      }
      channel.description := Some(SourceMapDescription(language));
      channel.sourceDomain := MainUrl(language);
      return Ok(channel);
    }

    /** `construct_channel`: the channel from `get_channel`, then the advice page as its first
        child, then one child per topic link that is the video page or not blacklisted. */
    method ConstructChannel(advice: AdvicePage, videoPage: VideoPage) returns (r: Result<Channel>)
      modifies this`language
      ensures language == if LanguageOption in options then options[LanguageOption] else old(language)
      ensures r.Ok? <==> ConstructedChannel(options, advice, videoPage).Ok?
      ensures r.Err? ==> r.error == ConstructedChannel(options, advice, videoPage).error
      ensures r.Ok? ==> fresh(r.value) &&
                        (r.value.Header(), r.value.children) == ConstructedChannel(options, advice, videoPage).value
    {
      var got := GetChannel();
      if got.Err? {
        return Err(got.error);
      }
      var channel := got.value;
      var lang := language;
      var mainUrl := MainUrl(lang);
      if advice.sectionHeading.None? {
        return Err(NoneElement("div.section-heading"));
      }
      channel.AddChild(HtmlPage(mainUrl, advice.sectionHeading.value));
      if advice.accordion.None? {
        return Err(NoneElement("ul.accordion-content"));
      }
      ghost var header := channel.Header();
      ghost var main := HtmlPage(mainUrl, advice.sectionHeading.value);
      assert header == ConfiguredHeader(options).value && header.language == lang;
      assert channel.children == [] + [main] == [main];
      var added := AddTopics(channel, lang, advice.accordion.value, videoPage);
      if added.Err? {
        return Err(added.error);
      }
      assert channel.Header() == header;
      assert channel.children == [main] + added.value;
      assert ChannelChildren(lang, advice, PageVideos(videoPage)) == Ok([main] + added.value);
      return Ok(channel);
    }

    /** The topic loop of `construct_channel`: adds to `channel` the child of each topic link in
        turn, and stops at the first exception. */
    method AddTopics(channel: Channel, language: string, links: seq<TopicLink>, videoPage: VideoPage)
      returns (r: Result<seq<ContentNode>>)
      modifies channel
      ensures r == Collect(TopicSteps(language, PageVideos(videoPage), links))
      ensures channel.Header() == old(channel.Header())
      ensures r.Ok? ==> channel.children == old(channel.children) + r.value
    {
      ghost var videos := PageVideos(videoPage);
      ghost var steps := TopicSteps(language, videos, links);
      var topics: seq<ContentNode> := [];
      var i := 0;
      while i < |links|
        invariant 0 <= i <= |links|
        invariant Collect(steps[..i]) == Ok(topics)
        invariant channel.Header() == old(channel.Header())
        invariant channel.children == old(channel.children) + topics
      {
        var link := links[i];
        assert steps[i] == TopicStep(language, videos, link);
        CollectStep(steps, i, topics);
        var child := TopicChild(language, link, videoPage);
        if child.Err? {
          return Err(child.error);
        }
        if child.value.Some? {
          channel.AddChild(child.value.value);
          topics := topics + [child.value.value];
        } else {
          assert topics + [] == topics;
        }
        i := i + 1;
      }
      assert steps[..i] == steps;
      return Ok(topics);
    }

    /** The body of the topic loop of `construct_channel`: the child a topic link adds, if any. */
    method TopicChild(language: string, link: TopicLink, videoPage: VideoPage)
      returns (r: Result<Option<ContentNode>>)
      ensures r == TopicStep(language, PageVideos(videoPage), link)
    {
      if link.href.None? {
        return Err(KeyError("href"));
      }
      var endpoint := LastSegment(link.href.value);
      var topicUrl := TopicUrl(language, endpoint);
      if endpoint == VideosEndpoint {
        var video := ScrapeVideoPage(topicUrl, Strip(link.text), videoPage);
        if video.Err? {
          return Err(video.error);
        }
        return Ok(Some(video.value));
      } else if endpoint !in Blacklist {
        return Ok(Some(HtmlPage(topicUrl, Strip(link.text))));
      }
      return Ok(None);
    }

    /** `scrape_video_page`: a topic holding the page's embedded videos, then its native videos. */
    method ScrapeVideoPage(url: string, title: string, page: VideoPage) returns (r: Result<ContentNode>)
      ensures r == VideoTopicFor(url, title, page)
    {
      var embedded := EmbeddedVideos(page.iframes);
      if embedded.Err? {
        return Err(embedded.error);
      }
      var native := NativeVideos(page.videoBlocks);
      if native.Err? {
        return Err(native.error);
      }
      return Ok(VideoTopic(url, title, embedded.value + native.value));
    }
  }

  /** The first loop of `scrape_video_page`: one video per iframe whose `src` is not ignored. */
  method EmbeddedVideos(iframes: seq<Iframe>) returns (r: Result<seq<Video>>)
    ensures r == Collect(IframeSteps(iframes))
  {
    var videos: seq<Video> := [];
    ghost var steps := IframeSteps(iframes);
    var i := 0;
    while i < |iframes|
      invariant 0 <= i <= |iframes|
      invariant Collect(steps[..i]) == Ok(videos)
    {
      var iframe := iframes[i];
      assert steps[i] == IframeStep(iframe);
      CollectStep(steps, i, videos);
      if iframe.src.None? {
        return Err(KeyError("src"));
      }
      if !IsIgnoredVideo(iframe.src.value) {
        if iframe.heading.None? {
          return Err(NoneElement("div.sf_colsIn div.section-heading"));
        }
        videos := videos + [WebVideo(iframe.src.value, Strip(iframe.heading.value))];
      }
      i := i + 1;
    }
    assert steps[..i] == steps;
    return Ok(videos);
  }

  /** The second loop of `scrape_video_page`: one video per native video block, except playlists. */
  method NativeVideos(blocks: seq<VideoBlock>) returns (r: Result<seq<Video>>)
    ensures r == Collect(VideoBlockSteps(blocks))
  {
    var videos: seq<Video> := [];
    ghost var steps := VideoBlockSteps(blocks);
    var i := 0;
    while i < |blocks|
      invariant 0 <= i <= |blocks|
      invariant Collect(steps[..i]) == Ok(videos)
    {
      var block := blocks[i];
      assert steps[i] == VideoBlockStep(block);
      CollectStep(steps, i, videos);
      if block.heading.None? {
        return Err(NoneElement("h3"));
      }
      if block.anchor.None? {
        return Err(NoneElement("a"));
      }
      if block.anchor.value.onclick.None? {
        return Err(KeyError("onclick"));
      }
      var matches := DescriptorGroups(block.anchor.value.onclick.value);
      if matches.Err? {
        return Err(matches.error);
      }
      var (handler, assetId) := matches.value;
      if handler != PlaylistHandler {
        videos := videos + [NativeVideo(assetId, Strip(block.heading.value))];
      }
      i := i + 1;
    }
    assert steps[..i] == steps;
    return Ok(videos);
  }

  // ---------------------------------------------------------------------------------------
  // What the channel's children are

  /** The topic links that give a child: every link whose endpoint is not blacklisted. */
  function AcceptedLinks(links: seq<TopicLink>): (r: seq<TopicLink>)
    ensures |r| <= |links|
  {
    if links == [] then []
    else if links[0].href.Some? && LastSegment(links[0].href.value) in Blacklist then AcceptedLinks(links[1..])
    else [links[0]] + AcceptedLinks(links[1..])
  }

  /** `node` is the child for `link`: the topic holding the video page's videos when the link's
      endpoint is 'videos' (and scraping that page raised nothing), otherwise the HTML page at the
      link's topic URL; either is titled with the link's text. */
  predicate FollowsLink(node: ContentNode, language: string, videos: Result<seq<Video>>, link: TopicLink)
  {
    link.href.Some? &&
    var endpoint := LastSegment(link.href.value);
    endpoint !in Blacklist &&
    if endpoint == VideosEndpoint then
      videos.Ok? && node == VideoTopic(TopicUrl(language, endpoint), Strip(link.text), videos.value)
    else
      node == HtmlPage(TopicUrl(language, endpoint), Strip(link.text))
  }

  /** One iteration of the topic loop that raises nothing skips exactly the blacklisted links and
      otherwise yields the link's child. */
  lemma {:induction false} TopicStepFollowsLink(language: string, videos: Result<seq<Video>>, link: TopicLink)
    requires TopicStep(language, videos, link).Ok?
    ensures var o := TopicStep(language, videos, link).value;
            (o.None? <==> link.href.Some? && LastSegment(link.href.value) in Blacklist) &&
            (o.Some? ==> FollowsLink(o.value, language, videos, link))
  {
  }

  /** Children that follow their links pairwise still do with one more pair in front. */
  lemma {:induction false} FollowsLinksCons(language: string, videos: Result<seq<Video>>,
                                            node: ContentNode, link: TopicLink,
                                            nodes: seq<ContentNode>, links: seq<TopicLink>)
    requires FollowsLink(node, language, videos, link) && |nodes| == |links|
    requires forall k :: 0 <= k < |links| ==> FollowsLink(nodes[k], language, videos, links[k])
    ensures forall k :: 0 <= k < |links| + 1 ==>
              FollowsLink(([node] + nodes)[k], language, videos, ([link] + links)[k])
  {
    forall k | 0 <= k < |links| + 1
      ensures FollowsLink(([node] + nodes)[k], language, videos, ([link] + links)[k])
    {
      if k == 0 {
        assert ([node] + nodes)[0] == node && ([link] + links)[0] == link;
      } else {
        assert FollowsLink(nodes[k - 1], language, videos, links[k - 1]);
        assert ([node] + nodes)[k] == nodes[k - 1] && ([link] + links)[k] == links[k - 1];
      }
    }
  }

  /** When the topic loop raises nothing, it yields exactly one child per accepted link, in the
      order of the links; blacklisted links yield nothing and no link yields two children. */
  lemma {:induction false} TopicsFollowLinks(language: string, videos: Result<seq<Video>>, links: seq<TopicLink>)
    requires Collect(TopicSteps(language, videos, links)).Ok?
    ensures var topics := Collect(TopicSteps(language, videos, links)).value;
            var kept := AcceptedLinks(links);
            |topics| == |kept| && forall k :: 0 <= k < |kept| ==> FollowsLink(topics[k], language, videos, kept[k])
  {
    if links != [] {
      var steps := TopicSteps(language, videos, links);
      assert steps[1..] == TopicSteps(language, videos, links[1..]);
      TopicsFollowLinks(language, videos, links[1..]);
      var rest := Collect(steps[1..]).value;
      var restKept := AcceptedLinks(links[1..]);
      TopicStepFollowsLink(language, videos, links[0]);
      assert steps[0] == TopicStep(language, videos, links[0]);
      if steps[0] == Ok(None) {
        assert AcceptedLinks(links) == restKept;
        assert Collect(steps).value == [] + rest == rest;
      } else {
        assert AcceptedLinks(links) == [links[0]] + restKept;
        assert Collect(steps).value == [steps[0].value.value] + rest;
        FollowsLinksCons(language, videos, steps[0].value.value, links[0], rest, restKept);
      }
    }
  }

  /** The children `construct_channel` gives a channel: first the advice page at the main URL,
      titled with its section heading, then one child per accepted topic link. */
  lemma {:induction false} ChannelChildrenFollowLinks(language: string, advice: AdvicePage, videos: Result<seq<Video>>)
    requires ChannelChildren(language, advice, videos).Ok?
    ensures advice.sectionHeading.Some? && advice.accordion.Some?
    ensures var children := ChannelChildren(language, advice, videos).value;
            var kept := AcceptedLinks(advice.accordion.value);
            |children| == 1 + |kept| &&
            children[0] == HtmlPage(MainUrl(language), advice.sectionHeading.value) &&
            forall k :: 0 <= k < |kept| ==> FollowsLink(children[k + 1], language, videos, kept[k])
  {
    var links := advice.accordion.value;
    TopicsFollowLinks(language, videos, links);
    var topics := Collect(TopicSteps(language, videos, links)).value;
    var children := ChannelChildren(language, advice, videos).value;
    var main := HtmlPage(MainUrl(language), advice.sectionHeading.value);
    var kept := AcceptedLinks(links);
    assert children == [main] + topics;
    forall k | 0 <= k < |kept|
      ensures FollowsLink(children[k + 1], language, videos, kept[k])
    {
      assert FollowsLink(topics[k], language, videos, kept[k]);
      assert children[k + 1] == topics[k];
    }
  }

  /** The source domain is the main URL, which differs from one language to the next. */
  lemma {:induction false} MainUrlDistinguishesLanguages(l1: string, l2: string)
    requires MainUrl(l1) == MainUrl(l2)
    ensures l1 == l2
  {
    assert |l1| == |l2|;
    assert MainUrl(l1)[|UrlHead|..|UrlHead| + |l1|] == l1;
    assert MainUrl(l2)[|UrlHead|..|UrlHead| + |l2|] == l2;
  }

  /** Two channels configured for different languages differ in source id and source domain. */
  lemma {:induction false} ConfiguredChannelsDiffer(o1: map<string, string>, o2: map<string, string>)
    requires ConfiguredHeader(o1).Ok? && ConfiguredHeader(o2).Ok?
    requires ConfiguredHeader(o1).value.language != ConfiguredHeader(o2).value.language
    ensures ConfiguredHeader(o1).value.sourceId != ConfiguredHeader(o2).value.sourceId
    ensures ConfiguredHeader(o1).value.sourceDomain != ConfiguredHeader(o2).value.sourceDomain
  {
    var l1, l2 := o1[LanguageOption], o2[LanguageOption];
    if SourceIdFor(ChannelSourceId, l1) == SourceIdFor(ChannelSourceId, l2) {
      SourceIdDistinguishesLanguages(l1, l2);
    }
    if MainUrl(l1) == MainUrl(l2) {
      MainUrlDistinguishesLanguages(l1, l2);
    }
  }

  // ---------------------------------------------------------------------------------------
  // What a video page yields

  /** The iframes that give a video: those whose `src` names no ignored host. */
  function ShownIframes(iframes: seq<Iframe>): (r: seq<Iframe>)
    ensures |r| <= |iframes|
  {
    if iframes == [] then []
    else if iframes[0].src.Some? && IsIgnoredVideo(iframes[0].src.value) then ShownIframes(iframes[1..])
    else [iframes[0]] + ShownIframes(iframes[1..])
  }

  /** `video` is the embed of `iframe`: its `src`, titled with the stripped section heading. */
  predicate EmbedsIframe(video: Video, iframe: Iframe)
  {
    iframe.src.Some? && iframe.heading.Some? && !IsIgnoredVideo(iframe.src.value) &&
    video == WebVideo(iframe.src.value, Strip(iframe.heading.value))
  }

  /** One iteration of the iframe loop that raises nothing skips exactly the ignored embeds and
      otherwise yields the iframe's video. */
  lemma {:induction false} IframeStepEmbeds(iframe: Iframe)
    requires IframeStep(iframe).Ok?
    ensures var o := IframeStep(iframe).value;
            (o.None? <==> iframe.src.Some? && IsIgnoredVideo(iframe.src.value)) &&
            (o.Some? ==> EmbedsIframe(o.value, iframe))
  {
  }

  /** When the iframe loop raises nothing, it yields one embedded video per shown iframe, in
      order and without removing duplicates; ignored hosts yield nothing. */
  lemma {:induction false} EmbeddedVideosFollowIframes(iframes: seq<Iframe>)
    ensures var r := Collect(IframeSteps(iframes));
            r.Ok? ==> Pairwise(EmbedsIframe, r.value, ShownIframes(iframes))
  {
    if iframes != [] && Collect(IframeSteps(iframes)).Ok? {
      var steps := IframeSteps(iframes);
      assert steps[1..] == IframeSteps(iframes[1..]);
      EmbeddedVideosFollowIframes(iframes[1..]);
      var rest := Collect(steps[1..]).value;
      var restShown := ShownIframes(iframes[1..]);
      IframeStepEmbeds(iframes[0]);
      assert steps[0] == IframeStep(iframes[0]);
      if steps[0] == Ok(None) {
        assert ShownIframes(iframes) == restShown;
        assert Collect(steps).value == [] + rest == rest;
      } else {
        assert ShownIframes(iframes) == [iframes[0]] + restShown;
        assert Collect(steps).value == [steps[0].value.value] + rest;
        PairwiseCons(EmbedsIframe, steps[0].value.value, iframes[0], rest, restShown);
      }
    }
  }

  /** The handler a native video block's descriptor names, when it has one. */
  function BlockHandler(block: VideoBlock): Option<string>
  {
    if block.anchor.Some? && block.anchor.value.onclick.Some? &&
       DescriptorGroups(block.anchor.value.onclick.value).Ok?
    then Some(DescriptorGroups(block.anchor.value.onclick.value).value.0)
    else None
  }

  /** The native video blocks that give a video: all but the YouTube playlists. */
  function ShownBlocks(blocks: seq<VideoBlock>): (r: seq<VideoBlock>)
    ensures |r| <= |blocks|
  {
    if blocks == [] then []
    else if BlockHandler(blocks[0]) == Some(PlaylistHandler) then ShownBlocks(blocks[1..])
    else [blocks[0]] + ShownBlocks(blocks[1..])
  }

  /** `video` is the native video of `block`: the asset its descriptor names (second group),
      under a handler other than the playlist one, titled with the block's stripped heading. */
  predicate PlaysBlock(video: Video, block: VideoBlock)
  {
    block.heading.Some? && block.anchor.Some? && block.anchor.value.onclick.Some? &&
    var groups := DescriptorGroups(block.anchor.value.onclick.value);
    groups.Ok? && groups.value.0 != PlaylistHandler &&
    video == NativeVideo(groups.value.1, Strip(block.heading.value))
  }

  /** One iteration of the native-video loop that raises nothing skips exactly the playlists and
      otherwise yields the block's video. */
  lemma {:induction false} VideoBlockStepPlays(block: VideoBlock)
    requires VideoBlockStep(block).Ok?
    ensures var o := VideoBlockStep(block).value;
            (o.None? <==> BlockHandler(block) == Some(PlaylistHandler)) &&
            (o.Some? ==> PlaysBlock(o.value, block))
  {
  }

  /** When the native-video loop raises nothing, it yields one video per block that is not a
      playlist, in order. */
  lemma {:induction false} NativeVideosFollowBlocks(blocks: seq<VideoBlock>)
    ensures var r := Collect(VideoBlockSteps(blocks));
            r.Ok? ==> Pairwise(PlaysBlock, r.value, ShownBlocks(blocks))
  {
    if blocks != [] && Collect(VideoBlockSteps(blocks)).Ok? {
      var steps := VideoBlockSteps(blocks);
      assert steps[1..] == VideoBlockSteps(blocks[1..]);
      NativeVideosFollowBlocks(blocks[1..]);
      var rest := Collect(steps[1..]).value;
      var restShown := ShownBlocks(blocks[1..]);
      VideoBlockStepPlays(blocks[0]);
      assert steps[0] == VideoBlockStep(blocks[0]);
      if steps[0] == Ok(None) {
        assert ShownBlocks(blocks) == restShown;
        assert Collect(steps).value == [] + rest == rest;
      } else {
        assert ShownBlocks(blocks) == [blocks[0]] + restShown;
        assert Collect(steps).value == [steps[0].value.value] + rest;
        PairwiseCons(PlaysBlock, steps[0].value.value, blocks[0], rest, restShown);
      }
    }
  }

  /** A video topic lists all embedded videos before all native ones, one per shown iframe and
      one per shown block. */
  lemma {:induction false} EmbeddedBeforeNative(url: string, title: string, page: VideoPage)
    requires VideoTopicFor(url, title, page).Ok?
    ensures var videos := VideoTopicFor(url, title, page).value.videos;
            var shown := ShownIframes(page.iframes);
            |videos| == |shown| + |ShownBlocks(page.videoBlocks)| &&
            (forall k :: 0 <= k < |shown| ==> videos[k].WebVideo?) &&
            (forall k :: |shown| <= k < |videos| ==> videos[k].NativeVideo?)
  {
    EmbeddedVideosFollowIframes(page.iframes);
    NativeVideosFollowBlocks(page.videoBlocks);
    var embedded := Collect(IframeSteps(page.iframes)).value;
    var native := Collect(VideoBlockSteps(page.videoBlocks)).value;
    var videos := VideoTopicFor(url, title, page).value.videos;
    assert videos == embedded + native;
    forall k | 0 <= k < |videos|
      ensures k < |embedded| ==> videos[k].WebVideo?
      ensures k >= |embedded| ==> videos[k].NativeVideo?
    {
      if k < |embedded| {
        assert EmbedsIframe(embedded[k], ShownIframes(page.iframes)[k]);
        assert videos[k] == embedded[k];
      } else {
        assert PlaysBlock(native[k - |embedded|], ShownBlocks(page.videoBlocks)[k - |embedded|]);
        assert videos[k] == native[k - |embedded|];
      }
    }
  }

  /** An iframe whose `src` mentions an ignored host anywhere is skipped. */
  lemma {:induction false} IgnoredHostSkipped(before: string, host: string, after: string, heading: Option<string>)
    requires host in IgnoredVideos
    ensures IframeStep(Iframe(Some(before + host + after), heading)) == Ok(None)
  {
    var src := before + host + after;
    assert src[|before|..|before| + |host|] == host;
    assert OccursAt(src, host, |before|);
    ContainsOccurs(src, host);
  }

  /** An embed is ignored exactly when "google" or "facebook" occurs somewhere in its `src`. */
  lemma {:induction false} IgnoredIffHostOccurs(src: string)
    ensures IsIgnoredVideo(src) <==> exists i :: OccursAt(src, "google", i) || OccursAt(src, "facebook", i)
  {
    ContainsOccurs(src, "google");
    ContainsOccurs(src, "facebook");
    assert IgnoredVideos[0] == "google" && IgnoredVideos[1] == "facebook";
  }

  /** A block whose `onclick` calls a player with a handler and an asset id gives the native video
      of that asset, unless the handler is the playlist one. */
  lemma {:induction false} NativeVideoFromDescriptor(heading: string, name: string, handler: string,
                                                     spaces: string, asset: string, tail: string)
    requires '(' !in name && AllSpace(spaces) && '"' !in tail
    requires |handler| > 0 && '"' !in handler && '\n' !in handler
    requires |asset| > 0 && '"' !in asset && '\n' !in asset
    ensures VideoBlockStep(VideoBlock(Some(heading), Some(Anchor(Some(DescriptorText(name, handler, spaces, asset, tail)))))) ==
            if handler == PlaylistHandler then Ok(None) else Ok(Some(NativeVideo(asset, Strip(heading))))
  {
    DescriptorRoundTrip(name, handler, spaces, asset, tail);
  }

  // ---------------------------------------------------------------------------------------
  // What the language selector lists

  /** `code` is what the item's `onclick` gives as the language. */
  predicate ListsLanguage(code: string, item: LanguageItem)
  {
    item.anchor.Some? && item.anchor.value.onclick.Some? &&
    TranslationGroup(item.anchor.value.onclick.value) == Ok(code)
  }

  /** When `get_available_languages` raises nothing, it lists one code per selector item, in
      order, each the group of that item's `onclick`. */
  lemma {:induction false} LanguagesFollowItems(items: seq<LanguageItem>)
    ensures var r := Collect(LanguageSteps(items));
            r.Ok? ==> Pairwise(ListsLanguage, r.value, items)
  {
    if items != [] && Collect(LanguageSteps(items)).Ok? {
      var steps := LanguageSteps(items);
      assert steps[1..] == LanguageSteps(items[1..]);
      LanguagesFollowItems(items[1..]);
      var rest := Collect(steps[1..]).value;
      assert steps[0] == LanguageStep(items[0]);
      var code := steps[0].value.value;
      assert Collect(steps).value == [code] + rest;
      assert items == [items[0]] + items[1..];
      PairwiseCons(ListsLanguage, code, items[0], rest, items[1..]);
    }
  }

  /** A language selector item whose link switches to `code`. */
  function SelectorItem(code: string): LanguageItem
  {
    LanguageItem(Some(Anchor(Some(TranslationCall + code + "')"))))
  }

  function SelectorItems(codes: seq<string>): (r: seq<LanguageItem>)
    ensures |r| == |codes| && forall k :: 0 <= k < |r| ==> r[k] == SelectorItem(codes[k])
  {
    if codes == [] then [] else [SelectorItem(codes[0])] + SelectorItems(codes[1..])
  }

  /** The loop of `get_available_languages` reads back the code of an item that switches to it. */
  lemma {:induction false} SelectorItemStep(code: string)
    requires |code| > 0 && '\'' !in code
    ensures LanguageStep(SelectorItem(code)) == Ok(Some(code))
  {
    TranslationRoundTrip("", code, "");
    assert "" + TranslationCall + code + "')" + "" == TranslationCall + code + "')";
  }

  /** `get_available_languages` lists back, in order, the codes of a selector whose items each
      switch to one language. */
  lemma {:induction false} LanguagesOfSelectorItems(codes: seq<string>)
    requires forall k :: 0 <= k < |codes| ==> |codes[k]| > 0 && '\'' !in codes[k]
    ensures LanguagesOf(Some(SelectorItems(codes))) == Ok(codes)
  {
    var items := SelectorItems(codes);
    var steps := LanguageSteps(items);
    if codes == [] {
      assert steps == [];
    } else {
      assert items[1..] == SelectorItems(codes[1..]);
      assert steps[1..] == LanguageSteps(items[1..]);
      LanguagesOfSelectorItems(codes[1..]);
      assert Collect(steps[1..]) == Ok(codes[1..]);
      SelectorItemStep(codes[0]);
      assert steps[0] == LanguageStep(items[0]) == Ok(Some(codes[0]));
      assert Collect(steps) == Ok([codes[0]] + codes[1..]);
      assert codes == [codes[0]] + codes[1..];
    }
  }
}
