/** The text `bing_search` builds from a Bing Web Search response: one
    snippet per web page, deep link, news article and YouTube video, each
    opened by the placeholder `__POS__`, which is replaced by a running result
    number as the snippets are written out, either in the order of the
    response's ranking (interleaved) or section by section (categorized). */
module BingSearch {
  import opened Wrappers
  import opened PyText
  import opened Seqs
  import opened BingMarkets

  /** One rich fact of a result: the text of its label and the texts of its items. */
  datatype Fact = Fact(key: string, items: seq<string>)

  /** A deep link under a web page; its snippet may be missing. */
  datatype DeepLink = DeepLink(name: string, url: string, snippet: Option<string>)

  /** A web page result; `mentions` holds the names of the mentioned entities. */
  datatype WebPage = WebPage(
    id: string,
    name: string,
    url: string,
    snippet: string,
    richFacts: Option<seq<Fact>>,
    mentions: Option<seq<string>>,
    deepLinks: Option<seq<DeepLink>>)

  /** A news article, or a video whose `url` is its `contentUrl`. */
  datatype MediaItem = MediaItem(
    name: string,
    url: string,
    description: Option<string>,
    datePublished: Option<string>,
    richFacts: Option<seq<Fact>>,
    mentions: Option<seq<string>>)

  /** An answer of the response: its id and its values. */
  datatype Answer<T> = Answer(id: string, value: seq<T>)

  /** The parts of the response the search reads. `ranking` lists the items
      of `rankingResponse.mainline`, each with the answer id it points to
      (`None` for an item without `value.id`); it is `None` when the response
      has no mainline ranking. */
  datatype Response = Response(
    webPages: Option<seq<WebPage>>,
    news: Option<Answer<MediaItem>>,
    videos: Option<Answer<MediaItem>>,
    relatedSearches: Option<Answer<string>>,
    ranking: Option<seq<Option<string>>>)

  /** `urlparse`, `unquote`, `quote` and `urlunparse` applied to a link's
      target; `None` when they raise `ValueError`. */
  type Requote = string -> Option<string>

  // ---------------------------------------------------------------------
  // Markdown links

  function ScrubChar(c: char): char {
    if c == '[' || c == ']' then ' ' else c
  }

  /** `re.sub(r"[\[\]]", " ", anchor)`. */
  function Scrub(anchor: string): (r: string)
    ensures |r| == |anchor|
  {
    seq(|anchor|, i requires 0 <= i < |anchor| => ScrubChar(anchor[i]))
  }

  /** The scrubbed anchor has no bracket left and differs from the original
      only where the original had a bracket. */
  lemma ScrubClean(anchor: string)
    ensures '[' !in Scrub(anchor) && ']' !in Scrub(anchor)
    ensures forall i :: 0 <= i < |anchor| && anchor[i] != '[' && anchor[i] != ']' ==> Scrub(anchor)[i] == anchor[i]
    ensures forall i :: 0 <= i < |anchor| && (anchor[i] == '[' || anchor[i] == ']') ==> Scrub(anchor)[i] == ' '
  {
    forall i | 0 <= i < |anchor| ensures Scrub(anchor)[i] == ScrubChar(anchor[i]) {
    }
  }

  /** `_markdown_link(anchor, href)`: when re-quoting the target fails the
      link is written with the anchor as given. */
  function MarkdownLink(anchor: string, href: string, requote: Requote): string {
    match requote(href)
    case None => "[" + anchor + "](" + href + ")"
    case Some(target) => "[" + Scrub(anchor) + "](" + target + ")"
  }

  /** When the target re-quotes, the first `]` of the link closes the anchor,
      so the link text is the whole scrubbed anchor. */
  lemma MarkdownLinkText(anchor: string, href: string, requote: Requote)
    requires requote(href).Some?
    ensures var link := MarkdownLink(anchor, href, requote);
      link[0] == '[' && ']' in link && FirstIndex(link, ']') == |anchor| + 1 &&
      link[1..|anchor| + 1] == Scrub(anchor)
  {
    var link := MarkdownLink(anchor, href, requote);
    var a := Scrub(anchor);
    ScrubClean(anchor);
    assert link == "[" + a + "](" + requote(href).value + ")";
    assert link[|anchor| + 1] == ']';
    assert link[1..|anchor| + 1] == a;
    assert link[..|anchor| + 1] == "[" + a;
    assert ']' !in link[..|anchor| + 1];
  }

  // ---------------------------------------------------------------------
  // Snippets

  const Pos := "__POS__"

  /** Does the snippet still carry the placeholder for its number? */
  predicate HasPos(s: string) {
    Contains(s, Pos)
  }

  /** The label that marks a snippet's kind, shown only when interleaving. */
  function Label(kind: string, interleave: bool): string {
    if interleave then "[" + kind + "] " else ""
  }

  function Default(s: Option<string>): string {
    if s.Some? then s.value else ""
  }

  /** `_processFacts`: one `label: item item …` line per fact. */
  function FactsText(facts: seq<Fact>): string {
    Join("\n", seq(|facts|, i requires 0 <= i < |facts| => facts[i].key + ": " + Join(" ", facts[i].items)))
  }

  /** The rich facts and the mentions a snippet may end with. */
  function Extras(richFacts: Option<seq<Fact>>, mentions: Option<seq<string>>): string {
    (if richFacts.Some? then "\n" + FactsText(richFacts.value) else "") +
    (if mentions.Some? then "\nMentions: " + Join(", ", mentions.value) else "")
  }

  /** The day part of an ISO timestamp: everything before the first `T`. */
  function DateLine(datePublished: Option<string>): string {
    if datePublished.Some? then "\nDate published: " + Split(datePublished.value, 'T')[0] else ""
  }

  /** The snippet of a web page. */
  function WebSnippet(page: WebPage, tag: string, requote: Requote): string {
    Pos + (". " + tag + MarkdownLink(page.name, page.url, requote) + "\n" + page.snippet +
    Extras(page.richFacts, page.mentions))
  }

  /** The snippet of a deep link. */
  function DeepSnippet(link: DeepLink, tag: string, requote: Requote): string {
    Pos + (". " + tag + MarkdownLink(link.name, link.url, requote) + "\n" + Default(link.snippet))
  }

  /** The snippet of a news article or a video: its first part is stripped
      before the date, facts and mentions are added. */
  function MediaSnippet(item: MediaItem, tag: string, requote: Requote): string {
    Strip(Pos + (". " + tag + MarkdownLink(item.name, item.url, requote) + "\n" + Default(item.description))) +
    (DateLine(item.datePublished) + Extras(item.richFacts, item.mentions))
  }

  /** A text that starts with the placeholder carries it, also after it is
      stripped and more text is added. */
  lemma PosFirst(rest: string, tail: string)
    ensures HasPos(Pos + rest)
    ensures HasPos(Strip(Pos + rest) + tail)
  {
    var head := Pos + rest;
    assert head[..|Pos|] == Pos;
    assert OccursAt(head, Pos, 0);
    assert head[0] == '_' && head[|Pos| - 1] == '_';
    StripKeepsHead(head, |Pos| - 1);
    var m := Strip(head) + tail;
    assert m[..|Pos|] == Strip(head)[..|Pos|];
    assert OccursAt(m, Pos, 0);
  }

  /** Every web, deep-link, news and video snippet gets a number. */
  lemma WebSnippetNumbered(page: WebPage, tag: string, requote: Requote)
    ensures HasPos(WebSnippet(page, tag, requote))
  {
    PosFirst(". " + tag + MarkdownLink(page.name, page.url, requote) + "\n" + page.snippet +
      Extras(page.richFacts, page.mentions), "");
  }

  lemma DeepSnippetNumbered(link: DeepLink, tag: string, requote: Requote)
    ensures HasPos(DeepSnippet(link, tag, requote))
  {
    PosFirst(". " + tag + MarkdownLink(link.name, link.url, requote) + "\n" + Default(link.snippet), "");
  }

  lemma MediaSnippetNumbered(item: MediaItem, tag: string, requote: Requote)
    ensures HasPos(MediaSnippet(item, tag, requote))
  {
    PosFirst(". " + tag + MarkdownLink(item.name, item.url, requote) + "\n" + Default(item.description),
      DateLine(item.datePublished) + Extras(item.richFacts, item.mentions));
  }

  // ---------------------------------------------------------------------
  // Collecting the snippets

  /** The snippet of a web page, as a function of the page alone. */
  function PageRenderer(tag: string, requote: Requote): WebPage -> string {
    (page: WebPage) => WebSnippet(page, tag, requote)
  }

  /** The snippet of a deep link, as a function of the link alone. */
  function DeepRenderer(tag: string, requote: Requote): DeepLink -> string {
    (link: DeepLink) => DeepSnippet(link, tag, requote)
  }

  function LinksOf(page: WebPage): seq<DeepLink> {
    if page.deepLinks.Some? then page.deepLinks.value else []
  }

  /** A page's own snippet followed by those of its deep links. */
  function PageSnippets(page: WebPage, render: WebPage -> string, renderLink: DeepLink -> string): seq<string> {
    [render(page)] + Map(LinksOf(page), renderLink)
  }

  /** `web_snippets`: the snippets of all pages, in response order. */
  function WebList(pages: seq<WebPage>, render: WebPage -> string, renderLink: DeepLink -> string): seq<string> {
    if pages == [] then []
    else WebList(pages[..|pages| - 1], render, renderLink) + PageSnippets(pages[|pages| - 1], render, renderLink)
  }

  function Lookup(groups: map<string, seq<string>>, id: string): seq<string> {
    if id in groups then groups[id] else []
  }

  /** The snippet groups the web pages register, by page id: a later page
      with the same id extends the group. */
  function WebGroups(pages: seq<WebPage>, render: WebPage -> string, renderLink: DeepLink -> string)
    : map<string, seq<string>>
  {
    if pages == [] then map[]
    else
      var groups := WebGroups(pages[..|pages| - 1], render, renderLink);
      var page := pages[|pages| - 1];
      groups[page.id := Lookup(groups, page.id) + PageSnippets(page, render, renderLink)]
  }

  /** The web loop of `bing_search`: fills the groups and `web_snippets`. */
  method CollectWeb(pages: seq<WebPage>, render: WebPage -> string, renderLink: DeepLink -> string)
      returns (groups: map<string, seq<string>>, web: seq<string>)
    ensures groups == WebGroups(pages, render, renderLink)
    ensures web == WebList(pages, render, renderLink)
  {
    groups, web := map[], [];
    for k := 0 to |pages|
      invariant groups == WebGroups(pages[..k], render, renderLink)
      invariant web == WebList(pages[..k], render, renderLink)
    {
      assert pages[..k + 1][..k] == pages[..k];
      groups, web := AddPage(groups, web, pages[k], render, renderLink);
    }
    assert pages[..|pages|] == pages;
  }

  /** One round of the web loop: the page's snippet, then its deep links',
      go to the end of its group and of `web_snippets`. */
  method AddPage(groups0: map<string, seq<string>>, web0: seq<string>, page: WebPage,
                 render: WebPage -> string, renderLink: DeepLink -> string)
      returns (groups: map<string, seq<string>>, web: seq<string>)
    ensures groups == groups0[page.id := Lookup(groups0, page.id) + PageSnippets(page, render, renderLink)]
    ensures web == web0 + PageSnippets(page, render, renderLink)
  {
    groups, web := groups0, web0;
    var snippet := render(page);
    if page.id !in groups {
      groups := groups[page.id := []];
    }
    groups := groups[page.id := groups[page.id] + [snippet]];
    web := web + [snippet];
    var deeps := Map(LinksOf(page), renderLink);
    if page.deepLinks.Some? {
      groups, web := AddDeepLinks(groups, web, page.id, page.deepLinks.value, renderLink);
    } else {
      assert deeps == [];
      assert groups[page.id] + deeps == groups[page.id];
      assert web + deeps == web;
    }
    assert Lookup(groups0, page.id) + [snippet] + deeps == Lookup(groups0, page.id) + ([snippet] + deeps);
    assert web0 + [snippet] + deeps == web0 + ([snippet] + deeps);
  }

  /** The inner loop over a page's deep links: each snippet goes to the end
      of the page's group, which the page's own snippet has started. */
  method AddDeepLinks(groups0: map<string, seq<string>>, web0: seq<string>, id: string, links: seq<DeepLink>,
                      renderLink: DeepLink -> string)
      returns (groups: map<string, seq<string>>, web: seq<string>)
    requires id in groups0
    ensures groups == groups0[id := groups0[id] + Map(links, renderLink)]
    ensures web == web0 + Map(links, renderLink)
  {
    groups, web := groups0, web0;
    assert Map(links[..0], renderLink) == [];
    assert groups0[id] + [] == groups0[id];
    assert groups == groups0[id := groups0[id] + Map(links[..0], renderLink)];
    for d := 0 to |links|
      invariant groups == groups0[id := groups0[id] + Map(links[..d], renderLink)]
      invariant web == web0 + Map(links[..d], renderLink)
    {
      var deep := renderLink(links[d]);
      var own := Map(links[..d], renderLink);
      assert links[..d + 1] == links[..d] + [links[d]];
      MapSnoc(links[..d], links[d], renderLink);
      assert groups0[id] + own + [deep] == groups0[id] + (own + [deep]);
      assert web0 + own + [deep] == web0 + (own + [deep]);
      groups := groups[id := groups[id] + [deep]];
      web := web + [deep];
    }
    assert links[..|links|] == links;
  }

  /** A page selector: does the page have this id? */
  function WithId(id: string): WebPage -> bool {
    (page: WebPage) => page.id == id
  }

  lemma WebListSnoc(pages: seq<WebPage>, page: WebPage, render: WebPage -> string, renderLink: DeepLink -> string)
    ensures WebList(pages + [page], render, renderLink) == WebList(pages, render, renderLink) + PageSnippets(page, render, renderLink)
  {
    assert (pages + [page])[..|pages|] == pages;
  }

  /** Reference reading of the web groups: an id has a group exactly when a
      page has that id ... */
  lemma {:induction false} WebGroupsKeys(pages: seq<WebPage>, render: WebPage -> string, renderLink: DeepLink -> string,
                                         id: string)
    ensures id in WebGroups(pages, render, renderLink) <==> exists i :: 0 <= i < |pages| && pages[i].id == id
  {
    if pages != [] {
      var init, page := pages[..|pages| - 1], pages[|pages| - 1];
      WebGroupsKeys(init, render, renderLink, id);
      if exists i :: 0 <= i < |pages| && pages[i].id == id {
        var i :| 0 <= i < |pages| && pages[i].id == id;
        if i < |init| {
          assert init[i] == pages[i];
        }
      }
      if exists i :: 0 <= i < |init| && init[i].id == id {
        var i :| 0 <= i < |init| && init[i].id == id;
        assert pages[i] == init[i];
      }
    }
  }

  /** ... and the group is the snippets of those pages, in order. */
  lemma {:induction false} WebGroupsByPage(pages: seq<WebPage>, render: WebPage -> string, renderLink: DeepLink -> string,
                                           id: string)
    ensures Lookup(WebGroups(pages, render, renderLink), id) == WebList(Filter(pages, WithId(id)), render, renderLink)
  {
    if pages != [] {
      var init, page := pages[..|pages| - 1], pages[|pages| - 1];
      assert pages == init + [page];
      WebGroupsByPage(init, render, renderLink, id);
      FilterSnoc(init, page, WithId(id));
      if page.id == id {
        WebListSnoc(Filter(init, WithId(id)), page, render, renderLink);
      } else {
        assert Filter(pages, WithId(id)) == Filter(init, WithId(id));
      }
    }
  }

  /** The snippet of a news article or a video, as a function of the item alone. */
  function MediaRenderer(tag: string, requote: Requote): MediaItem -> string {
    (item: MediaItem) => MediaSnippet(item, tag, requote)
  }

  /** The news loop of `bing_search`. */
  method CollectNews(items: seq<MediaItem>, render: MediaItem -> string) returns (news: seq<string>)
    ensures news == Map(items, render)
  {
    news := [];
    for k := 0 to |items|
      invariant news == Map(items[..k], render)
    {
      assert items[..k + 1] == items[..k] + [items[k]];
      MapSnoc(items[..k], items[k], render);
      news := news + [render(items[k])];
    }
    assert items[..|items|] == items;
  }

  /** Only videos hosted as YouTube watch pages are kept. */
  predicate IsYouTube(item: MediaItem) {
    StartsWith(item.url, "https://www.youtube.com/watch?v=")
  }

  /** The video loop of `bing_search`: the other videos are skipped. */
  method CollectVideos(items: seq<MediaItem>, render: MediaItem -> string) returns (videos: seq<string>)
    ensures videos == Map(Filter(items, IsYouTube), render)
  {
    videos := [];
    for k := 0 to |items|
      invariant videos == Map(Filter(items[..k], IsYouTube), render)
    {
      var item := items[k];
      assert items[..k + 1] == items[..k] + [item];
      FilterSnoc(items[..k], item, IsYouTube);
      if !StartsWith(item.url, "https://www.youtube.com/watch?v=") {
        assert Filter(items[..k + 1], IsYouTube) == Filter(items[..k], IsYouTube);
        continue;
      }
      MapSnoc(Filter(items[..k], IsYouTube), item, render);
      videos := videos + [render(item)];
    }
    assert items[..|items|] == items;
  }

  /** Every YouTube video has its snippet among the video snippets, and every
      video snippet is that of a YouTube video. */
  lemma VideosKept(items: seq<MediaItem>, render: MediaItem -> string)
    ensures var videos := Map(Filter(items, IsYouTube), render);
      && (forall i :: 0 <= i < |items| && IsYouTube(items[i]) ==> render(items[i]) in videos)
      && (forall j :: 0 <= j < |videos| ==>
            exists i :: 0 <= i < |items| && IsYouTube(items[i]) && videos[j] == render(items[i]))
  {
    var kept := Filter(items, IsYouTube);
    var videos := Map(kept, render);
    MapAt(kept, render);
    forall i | 0 <= i < |items| && IsYouTube(items[i]) ensures render(items[i]) in videos {
      FilterKeeps(items, IsYouTube, i);
      var k :| 0 <= k < |kept| && kept[k] == items[i];
      assert videos[k] == render(items[i]);
    }
    forall j | 0 <= j < |videos|
      ensures exists i :: 0 <= i < |items| && IsYouTube(items[i]) && videos[j] == render(items[i])
    {
      FilterPicks(items, IsYouTube, j);
      var i :| 0 <= i < |items| && items[i] == kept[j];
      assert videos[j] == render(items[i]);
    }
  }

  /** The lines of the related-searches block. */
  function RelatedLines(texts: seq<string>): string {
    if texts == [] then ""
    else RelatedLines(texts[..|texts| - 1]) + ("- " + texts[|texts| - 1] + "\n")
  }

  function RelatedBlock(texts: seq<string>): string {
    "## Related Searches:\n" + RelatedLines(texts)
  }

  /** The related-searches loop of `bing_search`. */
  method CollectRelated(texts: seq<string>) returns (block: string)
    ensures block == RelatedBlock(texts)
  {
    block := "## Related Searches:\n";
    for k := 0 to |texts|
      invariant block == RelatedBlock(texts[..k])
    {
      assert texts[..k + 1][..k] == texts[..k];
      block := block + "- " + texts[k] + "\n";
    }
    assert texts[..|texts|] == texts;
  }

  /** Every related search has a line of its own in the block. */
  lemma {:induction false} RelatedListed(texts: seq<string>, i: nat)
    requires i < |texts|
    ensures Contains(RelatedBlock(texts), "- " + texts[i] + "\n")
  {
    var init, last := texts[..|texts| - 1], texts[|texts| - 1];
    var line := "- " + last + "\n";
    assert RelatedBlock(texts) == RelatedBlock(init) + line;
    if i < |texts| - 1 {
      assert texts[i] == init[i];
      RelatedListed(init, i);
      ContainsWithin([], RelatedBlock(init), line, "- " + texts[i] + "\n");
      assert [] + RelatedBlock(init) + line == RelatedBlock(texts);
    } else {
      assert OccursAt(line, line, 0);
      ContainsWithin(RelatedBlock(init), line, [], line);
      assert RelatedBlock(init) + line + [] == RelatedBlock(texts);
    }
  }

  // ---------------------------------------------------------------------
  // Numbering

  /** How many of the snippets carry the placeholder. */
  function PosCount(snippets: seq<string>): (n: nat)
    ensures n <= |snippets|
  {
    if snippets == [] then 0
    else PosCount(snippets[..|snippets| - 1]) + (if HasPos(snippets[|snippets| - 1]) then 1 else 0)
  }

  /** One snippet as written out: numbered `n` if it carries the placeholder,
      then a blank line. */
  function Entry(s: string, n: nat): string {
    (if HasPos(s) then ReplaceAll(s, Pos, NatStr(n)) else s) + "\n\n"
  }

  /** The snippets written out in order, numbering on from `start`: a
      snippet that carries the placeholder gets one more than the number of
      such snippets before it. */
  function Numbered(snippets: seq<string>, start: nat): string {
    if snippets == [] then ""
    else
      var init := snippets[..|snippets| - 1];
      Numbered(init, start) + Entry(snippets[|snippets| - 1], start + PosCount(init) + 1)
  }

  /** The numbers `Numbered` hands out, in the order it hands them out. */
  function Numbers(snippets: seq<string>, start: nat): seq<nat> {
    if snippets == [] then []
    else
      var init := snippets[..|snippets| - 1];
      Numbers(init, start) + (if HasPos(snippets[|snippets| - 1]) then [start + PosCount(init) + 1] else [])
  }

  /** The numbers are `start + 1`, `start + 2`, … with no gap and no
      repetition, one per snippet that carries the placeholder. */
  lemma {:induction false} NumbersConsecutive(snippets: seq<string>, start: nat)
    ensures Numbers(snippets, start) == seq(PosCount(snippets), k => start + k + 1)
  {
    if snippets != [] {
      var init := snippets[..|snippets| - 1];
      NumbersConsecutive(init, start);
    }
  }

  lemma {:induction false} PosCountConcat(a: seq<string>, b: seq<string>)
    ensures PosCount(a + b) == PosCount(a) + PosCount(b)
    decreases |b|
  {
    if b == [] {
      assert a + b == a;
    } else {
      var b' := b[..|b| - 1];
      assert (a + b)[..|a + b| - 1] == a + b';
      assert (a + b)[|a + b| - 1] == b[|b| - 1];
      PosCountConcat(a, b');
    }
  }

  /** Writing out two runs of snippets one after the other numbers the
      second run on from where the first stopped. */
  lemma {:induction false} NumberedConcat(a: seq<string>, b: seq<string>, start: nat)
    ensures Numbered(a + b, start) == Numbered(a, start) + Numbered(b, start + PosCount(a))
    decreases |b|
  {
    if b == [] {
      assert a + b == a;
    } else {
      var b' := b[..|b| - 1];
      var last := b[|b| - 1];
      assert (a + b)[..|a + b| - 1] == a + b';
      assert (a + b)[|a + b| - 1] == last;
      NumberedConcat(a, b', start);
      PosCountConcat(a, b');
      var e := Entry(last, start + PosCount(a + b') + 1);
      assert e == Entry(last, start + PosCount(a) + PosCount(b') + 1);
      assert Numbered(a, start) + Numbered(b', start + PosCount(a)) + e ==
        Numbered(a, start) + (Numbered(b', start + PosCount(a)) + e);
    }
  }

  /** When every snippet carries the placeholder, every snippet is counted. */
  lemma {:induction false} PosCountAll(snippets: seq<string>)
    requires forall i :: 0 <= i < |snippets| ==> HasPos(snippets[i])
    ensures PosCount(snippets) == |snippets|
  {
    if snippets != [] {
      PosCountAll(snippets[..|snippets| - 1]);
    }
  }

  lemma NumberedSnoc(snippets: seq<string>, k: nat, start: nat)
    requires k < |snippets|
    ensures Numbered(snippets[..k + 1], start) == Numbered(snippets[..k], start) + Entry(snippets[k], start + PosCount(snippets[..k]) + 1)
    ensures PosCount(snippets[..k + 1]) == PosCount(snippets[..k]) + (if HasPos(snippets[k]) then 1 else 0)
  {
    assert snippets[..k + 1][..k] == snippets[..k];
  }

  lemma AppendAssoc(a: string, b: string, c: string)
    ensures a + b + c == a + (b + c)
  {
  }

  /** The loop that writes out a run of snippets, numbering those that carry
      the placeholder with a running counter. */
  method NumberSnippets(snippets: seq<string>, content0: string, idx0: nat) returns (content: string, idx: nat)
    ensures content == content0 + Numbered(snippets, idx0)
    ensures idx == idx0 + PosCount(snippets)
  {
    content, idx := content0, idx0;
    for k := 0 to |snippets|
      invariant content == content0 + Numbered(snippets[..k], idx0)
      invariant idx == idx0 + PosCount(snippets[..k])
    {
      var s := snippets[k];
      var piece;
      if Contains(s, "__POS__") {
        idx := idx + 1;
        piece := ReplaceAll(s, "__POS__", NatStr(idx)) + "\n\n";
      } else {
        piece := s + "\n\n";
      }
      assert piece == Entry(s, idx0 + PosCount(snippets[..k]) + 1);
      NumberedSnoc(snippets, k, idx0);
      AppendAssoc(content0, Numbered(snippets[..k], idx0), piece);
      content := content + piece;
    }
    assert snippets[..|snippets|] == snippets;
  }

  // ---------------------------------------------------------------------
  // Interleaved and categorized output

  /** The group a ranking item points to; nothing for an item without an
      answer id or with an id no group has. */
  function GroupOf(id: Option<string>, groups: map<string, seq<string>>): seq<string> {
    if id.Some? && id.value in groups then groups[id.value] else []
  }

  /** The snippets in ranking order: each ranked group in turn. */
  function Ranked(ids: seq<Option<string>>, groups: map<string, seq<string>>): seq<string> {
    if ids == [] then []
    else Ranked(ids[..|ids| - 1], groups) + GroupOf(ids[|ids| - 1], groups)
  }

  lemma {:induction false} RankedConcat(a: seq<Option<string>>, b: seq<Option<string>>, groups: map<string, seq<string>>)
    ensures Ranked(a + b, groups) == Ranked(a, groups) + Ranked(b, groups)
    decreases |b|
  {
    if b == [] {
      assert a + b == a;
    } else {
      var b' := b[..|b| - 1];
      assert (a + b)[..|a + b| - 1] == a + b';
      assert (a + b)[|a + b| - 1] == b[|b| - 1];
      RankedConcat(a, b', groups);
      assert Ranked(a, groups) + Ranked(b', groups) + GroupOf(b[|b| - 1], groups) ==
        Ranked(a, groups) + (Ranked(b', groups) + GroupOf(b[|b| - 1], groups));
    }
  }

  /** A ranked id with a group contributes that whole group, right after
      the groups of the items ranked before it and before those ranked
      after it. */
  lemma RankedAt(ids: seq<Option<string>>, groups: map<string, seq<string>>, i: nat)
    requires i < |ids|
    ensures Ranked(ids, groups) == Ranked(ids[..i], groups) + GroupOf(ids[i], groups) + Ranked(ids[i + 1..], groups)
  {
    assert ids == ids[..i + 1] + ids[i + 1..];
    RankedConcat(ids[..i + 1], ids[i + 1..], groups);
    assert ids[..i + 1][..i] == ids[..i];
  }

  /** Ranking items whose ids have no group produce nothing. */
  lemma {:induction false} RankedUnknown(ids: seq<Option<string>>, groups: map<string, seq<string>>)
    requires forall i :: 0 <= i < |ids| ==> ids[i].None? || ids[i].value !in groups
    ensures Ranked(ids, groups) == []
  {
    if ids != [] {
      RankedUnknown(ids[..|ids| - 1], groups);
    }
  }

  /** The interleaved loop of `bing_search`: the groups in ranking order,
      numbered with one running counter. */
  method Interleave(ids: seq<Option<string>>, groups: map<string, seq<string>>) returns (content: string, idx: nat)
    ensures content == Numbered(Ranked(ids, groups), 0)
    ensures idx == PosCount(Ranked(ids, groups))
  {
    content, idx := "", 0;
    for k := 0 to |ids|
      invariant content == Numbered(Ranked(ids[..k], groups), 0)
      invariant idx == PosCount(Ranked(ids[..k], groups))
    {
      assert ids[..k + 1][..k] == ids[..k];
      var before := Ranked(ids[..k], groups);
      var group := GroupOf(ids[k], groups);
      NumberedConcat(before, group, 0);
      PosCountConcat(before, group);
      var id := ids[k];
      if id.Some? && id.value in groups {
        content, idx := NumberSnippets(groups[id.value], content, idx);
      } else {
        assert before + group == before;
      }
    }
    assert ids[..|ids|] == ids;
  }

  /** A categorized section: a heading, then its snippets, unless it has
      none. */
  function Section(title: string, snippets: seq<string>, start: nat): string {
    if snippets == [] then "" else "## " + title + "\n\n" + Numbered(snippets, start)
  }

  method WriteSection(title: string, snippets: seq<string>, content0: string, idx0: nat)
      returns (content: string, idx: nat)
    ensures content == content0 + Section(title, snippets, idx0)
    ensures idx == idx0 + PosCount(snippets)
  {
    if |snippets| > 0 {
      content, idx := NumberSnippets(snippets, content0 + ("## " + title + "\n\n"), idx0);
      assert content0 + ("## " + title + "\n\n") + Numbered(snippets, idx0) ==
        content0 + ("## " + title + "\n\n" + Numbered(snippets, idx0));
    } else {
      content, idx := content0, idx0;
      assert content0 + "" == content0;
    }
  }

  /** The categorized text: web, news and video sections numbered with one
      running counter, then the related searches as they are. */
  function Categorized(web: seq<string>, news: seq<string>, videos: seq<string>, related: string): string {
    Section("Web Results", web, 0) + Section("News Results", news, PosCount(web)) +
    Section("Video Results", videos, PosCount(web) + PosCount(news)) + related
  }

  /** The categorized branch of `bing_search`. */
  method Categorize(web: seq<string>, news: seq<string>, videos: seq<string>, related: string)
      returns (content: string, idx: nat)
    ensures content == Categorized(web, news, videos, related)
    ensures idx == PosCount(web) + PosCount(news) + PosCount(videos)
  {
    ghost var w, n, v := Section("Web Results", web, 0), Section("News Results", news, PosCount(web)),
      Section("Video Results", videos, PosCount(web) + PosCount(news));
    content, idx := WriteSection("Web Results", web, "", 0);
    assert content == w by {
      assert "" + w == w;
    }
    content, idx := WriteSection("News Results", news, content, idx);
    assert content == w + n;
    content, idx := WriteSection("Video Results", videos, content, idx);
    assert content == w + n + v;
    if |related| > 0 {
      content := content + related;
    } else {
      assert content + related == content;
    }
  }

  // ---------------------------------------------------------------------
  // The search

  /** Why `bing_search` fails. */
  datatype SearchError =
    | CallFailed(reason: CallError)  // raised by the checks before the request
    | NoRanking                      // interleaving a response without a mainline ranking (a `KeyError`)

  /** `web_snippets` of a response. */
  function WebOf(resp: Response, interleave: bool, requote: Requote): seq<string> {
    var tag := Label("WEB", interleave);
    if resp.webPages.Some? then WebList(resp.webPages.value, PageRenderer(tag, requote), DeepRenderer(tag, requote))
    else []
  }

  /** `news_snippets` of a response. */
  function NewsOf(resp: Response, interleave: bool, requote: Requote): seq<string> {
    if resp.news.Some? then Map(resp.news.value.value, MediaRenderer(Label("NEWS", interleave), requote))
    else []
  }

  /** `video_snippets` of a response: its YouTube videos only. */
  function VideosOf(resp: Response, interleave: bool, requote: Requote): seq<string> {
    if resp.videos.Some? then Map(Filter(resp.videos.value.value, IsYouTube), MediaRenderer(Label("VIDEO", interleave), requote))
    else []
  }

  /** `related_searches` of a response: the block, or nothing. */
  function RelatedOf(resp: Response): string {
    if resp.relatedSearches.Some? then RelatedBlock(resp.relatedSearches.value.value) else ""
  }

  /** The web groups of a response, keyed by page id. */
  function WebGroupsOf(resp: Response, interleave: bool, requote: Requote): map<string, seq<string>> {
    var tag := Label("WEB", interleave);
    if resp.webPages.Some? then WebGroups(resp.webPages.value, PageRenderer(tag, requote), DeepRenderer(tag, requote))
    else map[]
  }

  /** Registers an answer's snippets under its id, only when it has one. */
  function WithAnswer<T>(groups: map<string, seq<string>>, answer: Option<Answer<T>>, snippets: seq<string>)
    : map<string, seq<string>>
  {
    if answer.Some? && snippets != [] then groups[answer.value.id := snippets] else groups
  }

  /** Registers the related-searches block, stripped, under its answer id. */
  function WithRelated(groups: map<string, seq<string>>, answer: Option<Answer<string>>): map<string, seq<string>> {
    if answer.Some? then groups[answer.value.id := [Strip(RelatedBlock(answer.value.value))]] else groups
  }

  /** The `snippets` dictionary: the web groups, then the news and the video
      group, each only when it has a snippet, then the related-searches block
      stripped, each registered under its answer id. */
  function Groups(resp: Response, interleave: bool, requote: Requote): map<string, seq<string>> {
    var withNews := WithAnswer(WebGroupsOf(resp, interleave, requote), resp.news, NewsOf(resp, interleave, requote));
    var withVideos := WithAnswer(withNews, resp.videos, VideosOf(resp, interleave, requote));
    WithRelated(withVideos, resp.relatedSearches)
  }

  /** The web part of the collection. */
  method CollectWebOf(resp: Response, interleave: bool, requote: Requote)
      returns (groups: map<string, seq<string>>, web: seq<string>)
    ensures groups == WebGroupsOf(resp, interleave, requote)
    ensures web == WebOf(resp, interleave, requote)
  {
    groups, web := map[], [];
    if resp.webPages.Some? {
      var tag := Label("WEB", interleave);
      groups, web := CollectWeb(resp.webPages.value, PageRenderer(tag, requote), DeepRenderer(tag, requote));
    }
  }

  /** The news part of the collection. */
  method CollectNewsOf(resp: Response, interleave: bool, requote: Requote) returns (news: seq<string>)
    ensures news == NewsOf(resp, interleave, requote)
  {
    news := [];
    if resp.news.Some? {
      news := CollectNews(resp.news.value.value, MediaRenderer(Label("NEWS", interleave), requote));
    }
  }

  /** The video part of the collection. */
  method CollectVideosOf(resp: Response, interleave: bool, requote: Requote) returns (videos: seq<string>)
    ensures videos == VideosOf(resp, interleave, requote)
  {
    videos := [];
    if resp.videos.Some? {
      videos := CollectVideos(resp.videos.value.value, MediaRenderer(Label("VIDEO", interleave), requote));
    }
  }

  /** Registers a news or video answer's snippets, when it has any. */
  method Register<T>(groups0: map<string, seq<string>>, answer: Option<Answer<T>>, snippets: seq<string>)
      returns (groups: map<string, seq<string>>)
    ensures groups == WithAnswer(groups0, answer, snippets)
  {
    groups := groups0;
    if answer.Some? && |snippets| > 0 {
      groups := groups[answer.value.id := snippets];
    }
  }

  /** The related-searches part of the collection: the block, registered
      stripped under the answer's id. */
  method RegisterRelated(groups0: map<string, seq<string>>, resp: Response)
      returns (groups: map<string, seq<string>>, related: string)
    ensures groups == WithRelated(groups0, resp.relatedSearches)
    ensures related == RelatedOf(resp)
  {
    groups, related := groups0, "";
    if resp.relatedSearches.Some? {
      related := CollectRelated(resp.relatedSearches.value.value);
      groups := groups[resp.relatedSearches.value.id := [Strip(related)]];
    }
  }

  /** The collection half of `bing_search`: every answer's snippets, and the
      dictionary the interleaved layout reads them from. */
  method CollectAnswers(resp: Response, interleave: bool, requote: Requote)
      returns (groups: map<string, seq<string>>, web: seq<string>, news: seq<string>, videos: seq<string>, related: string)
    ensures groups == Groups(resp, interleave, requote)
    ensures web == WebOf(resp, interleave, requote)
    ensures news == NewsOf(resp, interleave, requote)
    ensures videos == VideosOf(resp, interleave, requote)
    ensures related == RelatedOf(resp)
  {
    groups, web := CollectWebOf(resp, interleave, requote);
    news := CollectNewsOf(resp, interleave, requote);
    groups := Register(groups, resp.news, news);
    videos := CollectVideosOf(resp, interleave, requote);
    groups := Register(groups, resp.videos, videos);
    groups, related := RegisterRelated(groups, resp);
  }

  /** The text `bing_search` returns: a header with the count, then the
      stripped content. */
  function Report(query: string, content: string, count: nat): string {
    "## A Bing search for '" + query + "' found " + NatStr(count) + " results:\n\n" + Strip(content)
  }

  /** Equal contents and counts give equal reports (stated on its own so
      that the stripping is not unfolded on the long texts). */
  lemma SameReport(query: string, a: string, b: string, m: nat, n: nat)
    requires a == b && m == n
    ensures Report(query, a, m) == Report(query, b, n)
  {
  }

  /** The categorized report: the sections of the snippets and the number
      of snippets numbered in them. */
  function CategorizedReport(query: string, web: seq<string>, news: seq<string>, videos: seq<string>, related: string)
    : string
  {
    Report(query, Categorized(web, news, videos, related), PosCount(web) + PosCount(news) + PosCount(videos))
  }

  /** The interleaved report: the groups in the order of the mainline
      ranking, numbered, and the number of snippets numbered. */
  function InterleavedReport(query: string, ids: seq<Option<string>>, groups: map<string, seq<string>>): string {
    Report(query, Numbered(Ranked(ids, groups), 0), PosCount(Ranked(ids, groups)))
  }

  /** The interleaved layout of `bing_search`. */
  method WriteInterleaved(query: string, ids: seq<Option<string>>, groups: map<string, seq<string>>)
      returns (report: string)
    ensures report == InterleavedReport(query, ids, groups)
  {
    var content, idx := Interleave(ids, groups);
    report := Report(query, content, idx);
    SameReport(query, content, Numbered(Ranked(ids, groups), 0), idx, PosCount(Ranked(ids, groups)));
  }

  /** The categorized layout of `bing_search`. */
  method WriteCategorized(query: string, web: seq<string>, news: seq<string>, videos: seq<string>, related: string)
      returns (report: string)
    ensures report == CategorizedReport(query, web, news, videos, related)
  {
    var content, idx := Categorize(web, news, videos, related);
    report := Report(query, content, idx);
    SameReport(query, content, Categorized(web, news, videos, related), idx, PosCount(web) + PosCount(news) + PosCount(videos));
  }

  /** `bing_search`: the request checks, then the snippets of the response
      the service returned, written out interleaved or categorized. The
      result count in the header is the number of snippets numbered. */
  method BingSearch(query: string, lat: Option<real>, lon: Option<real>, interleave: bool, market: Option<string>,
                    apiKey: Option<string>, resp: Response, requote: Requote)
      returns (r: Result<string, SearchError>)
    ensures PrepareRequest(query, lat, lon, market, apiKey).Err? ==>
              r == Err(CallFailed(PrepareRequest(query, lat, lon, market, apiKey).error))
    ensures PrepareRequest(query, lat, lon, market, apiKey).Ok? && interleave && resp.ranking.None? ==>
              r == Err(NoRanking)
    ensures PrepareRequest(query, lat, lon, market, apiKey).Ok? && interleave && resp.ranking.Some? ==>
              r == Ok(InterleavedReport(query, resp.ranking.value, Groups(resp, true, requote)))
    ensures PrepareRequest(query, lat, lon, market, apiKey).Ok? && !interleave ==>
              r == Ok(CategorizedReport(query, WebOf(resp, false, requote), NewsOf(resp, false, requote),
                                        VideosOf(resp, false, requote), RelatedOf(resp)))
  {
    var call := PrepareRequest(query, lat, lon, market, apiKey);
    if call.Err? {
      return Err(CallFailed(call.error));
    }
    var groups, web, news, videos, related := CollectAnswers(resp, interleave, requote);
    var report;
    if interleave {
      if resp.ranking.None? {
        return Err(NoRanking);
      }
      report := WriteInterleaved(query, resp.ranking.value, groups);
    } else {
      report := WriteCategorized(query, web, news, videos, related);
    }
    r := Ok(report);
  }

  // ---------------------------------------------------------------------
  // What the header counts

  /** Every snippet of the run carries the placeholder. */
  predicate AllNumbered(snippets: seq<string>) {
    forall i :: 0 <= i < |snippets| ==> HasPos(snippets[i])
  }

  lemma AllNumberedConcat(a: seq<string>, b: seq<string>)
    requires AllNumbered(a) && AllNumbered(b)
    ensures AllNumbered(a + b)
  {
    forall i | 0 <= i < |a + b| ensures HasPos((a + b)[i]) {
      if i >= |a| {
        assert (a + b)[i] == b[i - |a|];
      }
    }
  }

  lemma MapNumbered<T>(xs: seq<T>, render: T -> string)
    requires forall x :: HasPos(render(x))
    ensures AllNumbered(Map(xs, render))
  {
    MapAt(xs, render);
  }

  /** Snippets rendered by numbered renderers are all numbered. */
  lemma {:induction false} WebListNumbered(pages: seq<WebPage>, render: WebPage -> string, renderLink: DeepLink -> string)
    requires forall page :: HasPos(render(page))
    requires forall link :: HasPos(renderLink(link))
    ensures AllNumbered(WebList(pages, render, renderLink))
  {
    if pages != [] {
      var page := pages[|pages| - 1];
      WebListNumbered(pages[..|pages| - 1], render, renderLink);
      MapNumbered(LinksOf(page), renderLink);
      AllNumberedConcat([render(page)], Map(LinksOf(page), renderLink));
      AllNumberedConcat(WebList(pages[..|pages| - 1], render, renderLink), PageSnippets(page, render, renderLink));
    }
  }

  /** Every web, news and video snippet of a response carries the placeholder. */
  lemma AnswersNumbered(resp: Response, interleave: bool, requote: Requote)
    ensures AllNumbered(WebOf(resp, interleave, requote))
    ensures AllNumbered(NewsOf(resp, interleave, requote))
    ensures AllNumbered(VideosOf(resp, interleave, requote))
  {
    var web, news, video := Label("WEB", interleave), Label("NEWS", interleave), Label("VIDEO", interleave);
    forall page ensures HasPos(PageRenderer(web, requote)(page)) {
      WebSnippetNumbered(page, web, requote);
    }
    forall link ensures HasPos(DeepRenderer(web, requote)(link)) {
      DeepSnippetNumbered(link, web, requote);
    }
    forall item ensures HasPos(MediaRenderer(news, requote)(item)) && HasPos(MediaRenderer(video, requote)(item)) {
      MediaSnippetNumbered(item, news, requote);
      MediaSnippetNumbered(item, video, requote);
    }
    if resp.webPages.Some? {
      WebListNumbered(resp.webPages.value, PageRenderer(web, requote), DeepRenderer(web, requote));
    }
    if resp.news.Some? {
      MapNumbered(resp.news.value.value, MediaRenderer(news, requote));
    }
    if resp.videos.Some? {
      MapNumbered(Filter(resp.videos.value.value, IsYouTube), MediaRenderer(video, requote));
    }
  }

  /** The categorized header counts every web, news and video snippet: each
      gets its own number, and the related searches none. */
  lemma CategorizedCount(resp: Response, requote: Requote)
    ensures PosCount(WebOf(resp, false, requote)) + PosCount(NewsOf(resp, false, requote))
            + PosCount(VideosOf(resp, false, requote))
            == |WebOf(resp, false, requote)| + |NewsOf(resp, false, requote)| + |VideosOf(resp, false, requote)|
  {
    AnswersNumbered(resp, false, requote);
    PosCountAll(WebOf(resp, false, requote));
    PosCountAll(NewsOf(resp, false, requote));
    PosCountAll(VideosOf(resp, false, requote));
  }

  /** Every group in the dictionary has at least one snippet. */
  predicate NoEmptyGroup(groups: map<string, seq<string>>) {
    forall id :: id in groups ==> |groups[id]| > 0
  }

  lemma {:induction false} WebGroupsNonEmpty(pages: seq<WebPage>, render: WebPage -> string, renderLink: DeepLink -> string)
    ensures NoEmptyGroup(WebGroups(pages, render, renderLink))
  {
    if pages != [] {
      WebGroupsNonEmpty(pages[..|pages| - 1], render, renderLink);
    }
  }

  lemma WithAnswerNonEmpty<T>(groups: map<string, seq<string>>, answer: Option<Answer<T>>, snippets: seq<string>)
    requires NoEmptyGroup(groups)
    ensures NoEmptyGroup(WithAnswer(groups, answer, snippets))
  {
  }

  lemma GroupsNonEmpty(resp: Response, interleave: bool, requote: Requote)
    ensures NoEmptyGroup(Groups(resp, interleave, requote))
  {
    var tag := Label("WEB", interleave);
    var g0 := WebGroupsOf(resp, interleave, requote);
    if resp.webPages.Some? {
      WebGroupsNonEmpty(resp.webPages.value, PageRenderer(tag, requote), DeepRenderer(tag, requote));
    }
    var g1 := WithAnswer(g0, resp.news, NewsOf(resp, interleave, requote));
    WithAnswerNonEmpty(g0, resp.news, NewsOf(resp, interleave, requote));
    var g2 := WithAnswer(g1, resp.videos, VideosOf(resp, interleave, requote));
    WithAnswerNonEmpty(g1, resp.videos, VideosOf(resp, interleave, requote));
    assert NoEmptyGroup(WithRelated(g2, resp.relatedSearches));
  }

  /** Every group of the dictionary is numbered throughout. */
  predicate NumberedGroups(groups: map<string, seq<string>>) {
    forall id :: id in groups ==> AllNumbered(groups[id])
  }

  /** Outside the related searches, every group is numbered throughout. */
  lemma {:induction false} WebGroupsNumbered(pages: seq<WebPage>, render: WebPage -> string, renderLink: DeepLink -> string)
    requires forall page :: HasPos(render(page))
    requires forall link :: HasPos(renderLink(link))
    ensures NumberedGroups(WebGroups(pages, render, renderLink))
  {
    if pages != [] {
      var init, page := pages[..|pages| - 1], pages[|pages| - 1];
      var groups := WebGroups(init, render, renderLink);
      WebGroupsNumbered(init, render, renderLink);
      MapNumbered(LinksOf(page), renderLink);
      AllNumberedConcat([render(page)], Map(LinksOf(page), renderLink));
      assert AllNumbered(Lookup(groups, page.id));
      AllNumberedConcat(Lookup(groups, page.id), PageSnippets(page, render, renderLink));
    }
  }

  /** A ranking over numbered groups numbers every snippet it lays out. */
  lemma {:induction false} RankedNumbered(ids: seq<Option<string>>, groups: map<string, seq<string>>)
    requires NumberedGroups(groups)
    ensures AllNumbered(Ranked(ids, groups))
  {
    if ids != [] {
      RankedNumbered(ids[..|ids| - 1], groups);
      AllNumberedConcat(Ranked(ids[..|ids| - 1], groups), GroupOf(ids[|ids| - 1], groups));
    }
  }

  lemma WithAnswerNumbered<T>(groups: map<string, seq<string>>, answer: Option<Answer<T>>, snippets: seq<string>)
    requires NumberedGroups(groups) && AllNumbered(snippets)
    ensures NumberedGroups(WithAnswer(groups, answer, snippets))
  {
  }

  /** Without related searches, the interleaved header counts every snippet
      the ranking lays out. */
  lemma InterleavedCount(ids: seq<Option<string>>, resp: Response, requote: Requote)
    requires resp.relatedSearches.None?
    ensures PosCount(Ranked(ids, Groups(resp, true, requote))) == |Ranked(ids, Groups(resp, true, requote))|
  {
    var tag := Label("WEB", true);
    AnswersNumbered(resp, true, requote);
    forall page ensures HasPos(PageRenderer(tag, requote)(page)) {
      WebSnippetNumbered(page, tag, requote);
    }
    forall link ensures HasPos(DeepRenderer(tag, requote)(link)) {
      DeepSnippetNumbered(link, tag, requote);
    }
    var g0 := WebGroupsOf(resp, true, requote);
    if resp.webPages.Some? {
      WebGroupsNumbered(resp.webPages.value, PageRenderer(tag, requote), DeepRenderer(tag, requote));
    }
    var g1 := WithAnswer(g0, resp.news, NewsOf(resp, true, requote));
    WithAnswerNumbered(g0, resp.news, NewsOf(resp, true, requote));
    var g2 := WithAnswer(g1, resp.videos, VideosOf(resp, true, requote));
    WithAnswerNumbered(g1, resp.videos, VideosOf(resp, true, requote));
    assert Groups(resp, true, requote) == WithRelated(g2, None);
    RankedNumbered(ids, g2);
    PosCountAll(Ranked(ids, g2));
  }

  /** An empty news answer registers no group: the dictionary is the same as
      for a response without that answer. */
  lemma EmptyNewsIgnored(resp: Response, interleave: bool, requote: Requote)
    requires NewsOf(resp, interleave, requote) == []
    ensures Groups(resp, interleave, requote) == Groups(resp.(news := None), interleave, requote)
  {
    var other := resp.(news := None);
    assert WebGroupsOf(other, interleave, requote) == WebGroupsOf(resp, interleave, requote);
    assert VideosOf(other, interleave, requote) == VideosOf(resp, interleave, requote);
    assert RelatedOf(other) == RelatedOf(resp);
  }

  /** The same for an answer without YouTube videos. */
  lemma EmptyVideosIgnored(resp: Response, interleave: bool, requote: Requote)
    requires VideosOf(resp, interleave, requote) == []
    ensures Groups(resp, interleave, requote) == Groups(resp.(videos := None), interleave, requote)
  {
    var other := resp.(videos := None);
    assert WebGroupsOf(other, interleave, requote) == WebGroupsOf(resp, interleave, requote);
    assert NewsOf(other, interleave, requote) == NewsOf(resp, interleave, requote);
    assert RelatedOf(other) == RelatedOf(resp);
  }

  /** The related-searches group is the stripped block alone, and it counts
      towards the interleaved header exactly when the block carries the
      placeholder (the interleaved loop numbers every snippet that does). */
  lemma RelatedGroupCount(resp: Response, interleave: bool, requote: Requote)
    requires resp.relatedSearches.Some?
    ensures var groups, id := Groups(resp, interleave, requote), resp.relatedSearches.value.id;
      && id in groups && groups[id] == [Strip(RelatedOf(resp))]
      && (PosCount(groups[id]) == 1 <==> HasPos(Strip(RelatedOf(resp))))
  {
    var group := [Strip(RelatedOf(resp))];
    assert group[..0] == [];
  }

  /** A related search whose text is the placeholder itself leaves it in the
      stripped block. */
  lemma RelatedTextNumbered()
    ensures HasPos(Strip(RelatedBlock(["__POS__"])))
  {
    var block := RelatedBlock(["__POS__"]);
    assert RelatedLines(["__POS__"]) == "- __POS__\n" by {
      assert ["__POS__"][..0] == [];
    }
    assert block == "## Related Searches:\n- __POS__\n";
    StripKeepsHead(block, 29);
    var stripped := Strip(block);
    assert stripped[23..30] == stripped[..30][23..30] == block[23..30];
    assert OccursAt(stripped, Pos, 23);
  }
}
