/**
 * The advice-page scraper of scrapers/who.py: `WHOCovidAdvicePageScraper.get_ricecooker_node`
 * walks the `div.section-heading` elements of a page. A heading holding an `h1` names the
 * topic; any other heading is classified by its next sibling, which is either a text section
 * (`content-block`), the first of a run of `row` siblings, or neither.
 */
module WhoScraper {
  import opened Results
  import opened PyStr

  const ContentBlockClass := "content-block"
  const RowClass := "row"
  /** What `find_next_sibling()` gives past the last sibling is `None`, and reading its
      `attrs` then fails. */
  const NextSibling := "find_next_sibling()"
  const ClassAttribute := "class"

  /** An element following a section heading: its class tokens (`None` when it has no
      `class` attribute) and its markup. */
  datatype Sibling = Sibling(classes: Option<set<string>>, html: string)

  /** A `div.section-heading`: its text, whether it contains an `h1`, and the elements that
      follow it in the document, nearest first. */
  datatype Section = Section(text: string, hasH1: bool, following: seq<Sibling>)

  /** A call of one of the scraper's content hooks. */
  datatype Call =
    | TextSection(content: Sibling)   // node_for_text_section(content)
    | Rows(rows: seq<Sibling>)        // node_for_rows(rows)

  /** The topic node the scraper returns. */
  datatype Topic = Topic(sourceId: string, title: string)

  /** The returned topic together with the hook calls made while walking the page. */
  datatype Scraped = Scraped(topic: Topic, calls: seq<Call>)

  /** `token in sibling.attrs['class']`, failing when the sibling has no class attribute. */
  function HasClass(sibling: Sibling, token: string): Result<bool>
  {
    match sibling.classes
    case None => Err(KeyError(ClassAttribute))
    case Some(tokens) => Ok(token in tokens)
  }

  predicate CarriesRow(sibling: Sibling)
  {
    sibling.classes.Some? && RowClass in sibling.classes.value
  }

  // ---------------------------------------------------------------------------------------
  // The run of rows

  /** Where the `while` loop collecting rows stops when it looks at `following[i]` next:
      the index of the first sibling from `i` on that does not carry `row`. */
  function RowRunEnd(following: seq<Sibling>, i: nat): (r: Result<nat>)
    requires i <= |following|
    ensures r.Ok? ==> i <= r.value < |following|
    decreases |following| - i
  {
    if i == |following| then Err(NoneElement(NextSibling))
    else match HasClass(following[i], RowClass)
      case Err(e) => Err(e)
      case Ok(isRow) => if isRow then RowRunEnd(following, i + 1) else Ok(i)
  }

  /** `e` ends the run of rows that starts at `i`: every sibling in between carries `row`
      and the one at `e` has classes, none of them `row`. */
  predicate IsRunEnd(following: seq<Sibling>, i: nat, e: nat)
  {
    i <= e < |following| && (forall k :: i <= k < e ==> CarriesRow(following[k])) &&
    following[e].classes.Some? && RowClass !in following[e].classes.value
  }

  /** The loop stops exactly at the end of the run; it fails with `None` exactly when every
      remaining sibling is a row, and on a missing class attribute exactly when one is met
      before any sibling that is not a row. */
  lemma {:induction false} RowRunEndSpec(following: seq<Sibling>, i: nat, e: nat)
    requires i <= |following|
    ensures RowRunEnd(following, i) == Ok(e) <==> IsRunEnd(following, i, e)
    ensures RowRunEnd(following, i) == Err(NoneElement(NextSibling)) <==>
            forall k :: i <= k < |following| ==> CarriesRow(following[k])
    ensures RowRunEnd(following, i) == Err(KeyError(ClassAttribute)) <==>
            exists j :: i <= j < |following| && following[j].classes.None? &&
                        forall k :: i <= k < j ==> CarriesRow(following[k])
    decreases |following| - i
  {
    if i < |following| {
      RowRunEndSpec(following, i + 1, e);
      if CarriesRow(following[i]) {
        if RowRunEnd(following, i) == Err(KeyError(ClassAttribute)) {
          var j :| i + 1 <= j < |following| && following[j].classes.None? &&
                   forall k :: i + 1 <= k < j ==> CarriesRow(following[k]);
          assert forall k :: i <= k < j ==> CarriesRow(following[k]);
        }
      } else if following[i].classes.None? {
        assert !IsRunEnd(following, i, e);
        assert !CarriesRow(following[i]);
      } else {
        assert !CarriesRow(following[i]);
      }
    }
  }

  /** `section.find_next_sibling()` and its classification by the sibling's classes: a text
      section, the run of rows it starts, or no call. */
  function SectionCall(following: seq<Sibling>): Result<Option<Call>>
  {
    if following == [] then Err(NoneElement(NextSibling))
    else match HasClass(following[0], ContentBlockClass)
      case Err(e) => Err(e)
      case Ok(isText) =>
        if isText then Ok(Some(TextSection(following[0])))
        else if RowClass !in following[0].classes.value then Ok(None)
        else match RowRunEnd(following, 1)
          case Err(e) => Err(e)
          case Ok(end) => Ok(Some(Rows(following[..end])))
  }

  /** How a section is classified by its next sibling. With no next sibling, or one without
      a class attribute, the scraper fails. A `content-block` sibling is passed on as a text
      section. Otherwise a `row` sibling starts the rows passed on: the longest run of
      consecutive `row` siblings, in document order, never empty. A sibling with neither
      class leads to no call. */
  lemma SectionCallSpec(following: seq<Sibling>, rows: seq<Sibling>)
    ensures following == [] ==> SectionCall(following) == Err(NoneElement(NextSibling))
    ensures following != [] && following[0].classes.None? ==>
            SectionCall(following) == Err(KeyError(ClassAttribute))
    ensures following != [] && following[0].classes.Some? ==>
            (ContentBlockClass in following[0].classes.value <==>
             SectionCall(following) == Ok(Some(TextSection(following[0]))))
    ensures following != [] && following[0].classes.Some? &&
            ContentBlockClass !in following[0].classes.value && RowClass in following[0].classes.value ==>
            (SectionCall(following) == Ok(Some(Rows(rows))) <==>
             rows != [] && |rows| <= |following| && rows == following[..|rows|] &&
             IsRunEnd(following, 0, |rows|))
    ensures SectionCall(following) == Ok(None) <==>
            following != [] && following[0].classes.Some? &&
            ContentBlockClass !in following[0].classes.value && RowClass !in following[0].classes.value
  {
    if following != [] && following[0].classes.Some? &&
       ContentBlockClass !in following[0].classes.value && RowClass in following[0].classes.value {
      RowRunEndSpec(following, 1, |rows|);
      assert CarriesRow(following[0]);
      if SectionCall(following) == Ok(Some(Rows(rows))) {
        var end := RowRunEnd(following, 1).value;
        assert rows == following[..end];
        assert RowRunEnd(following, 1) == Ok(|rows|);
      }
    }
  }

  // ---------------------------------------------------------------------------------------
  // The walk over the sections

  /** What the loop body does with one section: a title section makes no call. */
  function SectionStep(section: Section): Result<Option<Call>>
  {
    if section.hasH1 then Ok(None) else SectionCall(section.following)
  }

  function SectionSteps(sections: seq<Section>): (steps: seq<Result<Option<Call>>>)
    ensures |steps| == |sections|
    ensures forall k :: 0 <= k < |sections| ==> steps[k] == SectionStep(sections[k])
  {
    if sections == [] then [] else [SectionStep(sections[0])] + SectionSteps(sections[1..])
  }

  /** The topic title after the loop: the stripped text of the last section holding an `h1`,
      or the initial `''`. */
  function TitleOf(sections: seq<Section>): string
  {
    if sections == [] then ""
    else if sections[|sections| - 1].hasH1 then Strip(sections[|sections| - 1].text)
    else TitleOf(sections[..|sections| - 1])
  }

  /** What `get_ricecooker_node` returns for the page at `url` with these sections. */
  function PageOf(url: string, sections: seq<Section>): Result<Scraped>
  {
    match Collect(SectionSteps(sections))
    case Err(e) => Err(e)
    case Ok(calls) => Ok(Scraped(Topic(url, TitleOf(sections)), calls))
  }

  /** The title is `''` when no section holds an `h1`. */
  lemma {:induction false} UntitledPage(sections: seq<Section>)
    requires forall k :: 0 <= k < |sections| ==> !sections[k].hasH1
    ensures TitleOf(sections) == ""
  {
    if sections != [] {
      UntitledPage(sections[..|sections| - 1]);
    }
  }

  /** Otherwise it is the stripped text of the last section that holds one. */
  lemma {:induction false} LastHeadingWins(sections: seq<Section>, j: nat)
    requires j < |sections| && sections[j].hasH1
    requires forall k :: j < k < |sections| ==> !sections[k].hasH1
    ensures TitleOf(sections) == Strip(sections[j].text)
  {
    if j < |sections| - 1 {
      LastHeadingWins(sections[..|sections| - 1], j);
    }
  }

  /** `call` is the one made for `section`. */
  predicate MadeFor(call: Call, section: Section)
  {
    !section.hasH1 && SectionCall(section.following) == Ok(Some(call))
  }

  /** The sections that lead to a hook call. */
  function CallingSections(sections: seq<Section>): (r: seq<Section>)
    ensures |r| <= |sections|
  {
    if sections == [] then []
    else if !sections[0].hasH1 && SectionCall(sections[0].following).Ok? &&
            SectionCall(sections[0].following).value.Some?
    then [sections[0]] + CallingSections(sections[1..])
    else CallingSections(sections[1..])
  }

  /** When the walk raises nothing, it makes one call per calling section, in document
      order, each the call made for that section. */
  lemma {:induction false} CallsFollowSections(sections: seq<Section>)
    ensures var r := Collect(SectionSteps(sections));
            r.Ok? ==> Pairwise(MadeFor, r.value, CallingSections(sections))
  {
    if sections != [] {
      var steps := SectionSteps(sections);
      assert steps[1..] == SectionSteps(sections[1..]);
      CallsFollowSections(sections[1..]);
      var r := Collect(steps);
      if r.Ok? {
        var rest := Collect(steps[1..]).value;
        var restCalling := CallingSections(sections[1..]);
        if steps[0].value.Some? {
          PairwiseCons(MadeFor, steps[0].value.value, sections[0], rest, restCalling);
        }
      }
    }
  }

  // ---------------------------------------------------------------------------------------
  // The scraper

  /** `WHOCovidAdvicePageScraper`: the page's URL and the file its HTML was saved to. */
  class AdvicePageScraper {
    const url: string
    const fileOnDisk: string

    constructor (url: string, fileOnDisk: string)
      ensures this.url == url && this.fileOnDisk == fileOnDisk
    {
      this.url := url;
      this.fileOnDisk := fileOnDisk;
    }

    /** `get_ricecooker_node`, over the sections already parsed from `fileOnDisk`. */
    method GetRicecookerNode(sections: seq<Section>) returns (r: Result<Scraped>)
      ensures r == PageOf(url, sections)
    {
      var title := "";
      var calls: seq<Call> := [];
      ghost var steps := SectionSteps(sections);
      for i := 0 to |sections|
        invariant title == TitleOf(sections[..i])
        invariant Collect(steps[..i]) == Ok(calls)
      {
        var section := sections[i];
        assert sections[..i + 1][..i] == sections[..i];
        assert steps[i] == SectionStep(section);
        CollectStep(steps, i, calls);
        var text := Strip(section.text);
        if section.hasH1 {
          title := text;
          continue;
        }
        var call := ClassifySection(section.following);
        match call
        case Err(e) =>
          return Err(e);
        case Ok(o) =>
          if o.Some? {
            calls := calls + [o.value];
          }
      }
      assert sections[..|sections|] == sections;
      assert steps[..|sections|] == steps;
      r := Ok(Scraped(Topic(url, title), calls));
    }

    /** The classification by the next sibling's class, with the loop collecting the run of
        rows: the hook call for a section that is not the title. */
    method ClassifySection(following: seq<Sibling>) returns (r: Result<Option<Call>>)
      ensures r == SectionCall(following)
    {
      if following == [] {
        return Err(NoneElement(NextSibling));
      }
      var content := following[0];
      if content.classes.None? {
        return Err(KeyError(ClassAttribute));
      }
      if ContentBlockClass in content.classes.value {
        return Ok(Some(TextSection(content)));
      }
      if RowClass !in content.classes.value {
        return Ok(None);
      }
      var rows := [content];
      var next := 1;
      while true
        invariant 1 <= next <= |following|
        invariant rows == following[..next]
        invariant RowRunEnd(following, 1) == RowRunEnd(following, next)
        decreases |following| - next
      {
        if next == |following| {
          return Err(NoneElement(NextSibling));
        }
        if following[next].classes.None? {
          return Err(KeyError(ClassAttribute));
        }
        if RowClass !in following[next].classes.value {
          break;
        }
        rows := rows + [following[next]];
        next := next + 1;
      }
      return Ok(Some(Rows(rows)));
    }
  }
}
