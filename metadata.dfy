/** Page metadata built from the filter criteria found in the query string:
    title, description and keywords, and the parser that reads the criteria
    and counts the agents they select. */
module Metadata {
  import opened Wrappers
  import opened Text
  import opened AgentTypes
  import opened SeqUtil
  import AgentSlice

  /** The builder's parameters. Every use of `search`, `status`, `category`
      and `pricingModel` is a truthiness test, so `undefined` and empty are
      the same to it; the two counts default to 0 when absent. */
  datatype MetadataParams = MetadataParams(
    search: Option<string>,
    status: Option<seq<string>>,
    category: Option<seq<string>>,
    pricingModel: Option<string>,
    totalAgents: Option<nat>,
    filteredCount: Option<nat>)

  datatype OpenGraph = OpenGraph(title: string, description: string, kind: string, locale: string, siteName: string)
  datatype Twitter = Twitter(card: string, title: string, description: string)
  datatype Robots = Robots(index: bool, follow: bool, googleBotIndex: bool, googleBotFollow: bool)
  datatype Metadata = Metadata(
    title: string,
    description: string,
    keywords: string,
    openGraph: OpenGraph,
    twitter: Twitter,
    robots: Robots)

  const DefaultTitle := "AI Agents Catalog - ArkLab"
  const TitleSuffix := " - ArkLab AI Agents"
  const DefaultDescription := "Discover and explore our comprehensive collection of AI agents designed to streamline your business operations. Find AI solutions for customer service, marketing, development, and more."
  const BaseKeywords := ["AI agents", "artificial intelligence", "automation", "business solutions", "ArkLab"]

  /** `if (s)` on an optional string. */
  predicate Present(s: Option<string>) {
    s.Some? && s.value != ""
  }

  /** `xs && xs.length > 0` on an optional list. */
  predicate PresentList(xs: Option<seq<string>>) {
    xs.Some? && |xs.value| > 0
  }

  predicate HasFilters(p: MetadataParams) {
    Present(p.search) || PresentList(p.status) || PresentList(p.category) || Present(p.pricingModel)
  }

  /** "A" for one value; "A, B & C" for several: all but the last joined by
      ", ", then " & " and the last. */
  function ListText(xs: seq<string>): string
    requires |xs| >= 1
  {
    if |xs| == 1 then xs[0] else Join(xs[..|xs| - 1], ", ") + " & " + xs[|xs| - 1]
  }

  function LowerAll(xs: seq<string>): (r: seq<string>)
    ensures |r| == |xs|
  {
    seq(|xs|, i requires 0 <= i < |xs| => Lower(xs[i]))
  }

  // ---------------------------------------------------------------------
  // What the builder produces, stated part by part

  function SearchPart(p: MetadataParams, before: string, after: string): seq<string> {
    if Present(p.search) then [before + p.search.value + after] else []
  }

  function StatusTitle(p: MetadataParams): seq<string> {
    if PresentList(p.status) then [ListText(p.status.value) + " AI Agents"] else []
  }

  function CategoryTitle(p: MetadataParams): seq<string> {
    if PresentList(p.category) then [ListText(p.category.value) + " Solutions"] else []
  }

  function PricingTitle(p: MetadataParams): seq<string> {
    if Present(p.pricingModel) then [p.pricingModel.value + " Models"] else []
  }

  /** The title components in their fixed order: search, status, category,
      pricing. */
  function TitleComponents(p: MetadataParams): (r: seq<string>)
    ensures |r| > 0 <==> HasFilters(p)
  {
    SearchPart(p, "\"", "\"") + StatusTitle(p) + CategoryTitle(p) + PricingTitle(p)
  }

  function DescriptionComponents(p: MetadataParams): (r: seq<string>)
    ensures |r| > 0 <==> HasFilters(p)
  {
    SearchPart(p, "searching for \"", "\"")
    + (if PresentList(p.status) then [Lower(ListText(p.status.value)) + " status"] else [])
    + (if PresentList(p.category) then [Lower(ListText(p.category.value)) + " category"] else [])
    + (if Present(p.pricingModel) then [Lower(p.pricingModel.value) + " pricing"] else [])
  }

  function Title(p: MetadataParams): string {
    if HasFilters(p) then Join(TitleComponents(p), " | ") + TitleSuffix else DefaultTitle
  }

  function Description(p: MetadataParams): string {
    if HasFilters(p) then
      "Found " + NatToString(p.filteredCount.GetOr(0)) + " AI agents "
      + Join(DescriptionComponents(p), ", ")
      + " from our catalog of " + NatToString(p.totalAgents.GetOr(0)) + " solutions. "
      + DefaultDescription
    else DefaultDescription
  }

  /** The keyword list: the five base keywords, then the search, the
      lower-cased statuses, the lower-cased categories and the lower-cased
      pricing model, each only when present. */
  function KeywordList(p: MetadataParams): (r: seq<string>)
    ensures |r| >= |BaseKeywords| && r[..|BaseKeywords|] == BaseKeywords
  {
    BaseKeywords
    + (if Present(p.search) then [p.search.value] else [])
    + (if PresentList(p.status) then LowerAll(p.status.value) else [])
    + (if PresentList(p.category) then LowerAll(p.category.value) else [])
    + (if Present(p.pricingModel) then [Lower(p.pricingModel.value)] else [])
  }

  // ---------------------------------------------------------------------
  // The builder

  /** The first stage of `generateDynamicMetadata`: push a title component
      and a description component for each present filter, in order. */
  method BuildComponents(params: MetadataParams)
    returns (titleComponents: seq<string>, descriptionComponents: seq<string>)
    ensures titleComponents == TitleComponents(params)
    ensures descriptionComponents == DescriptionComponents(params)
  {
    titleComponents := [];
    descriptionComponents := [];
    if Present(params.search) {
      var search := params.search.value;
      titleComponents := titleComponents + ["\"" + search + "\""];
      descriptionComponents := descriptionComponents + ["searching for \"" + search + "\""];
    }
    if PresentList(params.status) {
      var statusText := ListText(params.status.value);
      titleComponents := titleComponents + [statusText + " AI Agents"];
      descriptionComponents := descriptionComponents + [Lower(statusText) + " status"];
    }
    if PresentList(params.category) {
      var categoryText := ListText(params.category.value);
      titleComponents := titleComponents + [categoryText + " Solutions"];
      descriptionComponents := descriptionComponents + [Lower(categoryText) + " category"];
    }
    if Present(params.pricingModel) {
      var pricingModel := params.pricingModel.value;
      titleComponents := titleComponents + [pricingModel + " Models"];
      descriptionComponents := descriptionComponents + [Lower(pricingModel) + " pricing"];
    }
  }

  /** The keyword stage: start from the base keywords and push the present
      filters, lower-cased except for the search. */
  method BuildKeywords(params: MetadataParams) returns (keywords: seq<string>)
    ensures keywords == KeywordList(params)
  {
    keywords := BaseKeywords;
    if Present(params.search) {
      keywords := keywords + [params.search.value];
    }
    if PresentList(params.status) {
      keywords := keywords + LowerAll(params.status.value);
    }
    if PresentList(params.category) {
      keywords := keywords + LowerAll(params.category.value);
    }
    if Present(params.pricingModel) {
      keywords := keywords + [Lower(params.pricingModel.value)];
    }
  }

  /** `generateDynamicMetadata`: builds the components, picks the title and
      the description, and copies both into the Open Graph and Twitter
      records. */
  method GenerateDynamicMetadata(params: MetadataParams) returns (m: Metadata)
    ensures m.title == Title(params)
    ensures m.description == Description(params)
    ensures m.keywords == Join(KeywordList(params), ", ")
    ensures m.openGraph.title == m.title && m.openGraph.description == m.description
    ensures m.twitter.title == m.title && m.twitter.description == m.description
    ensures m.robots == Robots(true, true, true, true)
  {
    var totalAgents := params.totalAgents.GetOr(0);
    var filteredCount := params.filteredCount.GetOr(0);
    var titleComponents, descriptionComponents := BuildComponents(params);

    var title := DefaultTitle;
    if |titleComponents| > 0 {
      title := Join(titleComponents, " | ") + TitleSuffix;
    }

    var description := DefaultDescription;
    if |descriptionComponents| > 0 {
      var hasFilters := HasFilters(params);
      if hasFilters {
        description := "Found " + NatToString(filteredCount) + " AI agents "
          + Join(descriptionComponents, ", ")
          + " from our catalog of " + NatToString(totalAgents) + " solutions. "
          + description;
      }
    }

    var keywords := BuildKeywords(params);
    m := Metadata(
      title,
      description,
      Join(keywords, ", "),
      OpenGraph(title, description, "website", "en_US", "ArkLab AI Agents Catalog"),
      Twitter("summary_large_image", title, description),
      Robots(true, true, true, true));
  }

  // ---------------------------------------------------------------------
  // Properties of the title, description and keywords

  /** The title is the fixed default exactly when no filter is present;
      otherwise it ends with " - ArkLab AI Agents". */
  lemma TitleIsDefaultIff(p: MetadataParams)
    ensures Title(p) == DefaultTitle <==> !HasFilters(p)
    ensures HasFilters(p) ==> Title(p)[|Title(p)| - |TitleSuffix|..] == TitleSuffix
  {
    if HasFilters(p) {
      var t := Title(p);
      assert t[|t| - 1] == 's';
      assert DefaultTitle[|DefaultTitle| - 1] == 'b';
    }
  }

  /** With a status list and a pricing model only, the title names the
      statuses, then the pricing model. */
  lemma TitleForStatusAndPricing(status: seq<string>, pricing: string)
    requires |status| >= 1 && pricing != ""
    ensures Title(MetadataParams(None, Some(status), None, Some(pricing), None, None))
            == ListText(status) + " AI Agents | " + pricing + " Models - ArkLab AI Agents"
  {
    var p := MetadataParams(None, Some(status), None, Some(pricing), None, None);
    var a, b := ListText(status) + " AI Agents", pricing + " Models";
    assert TitleComponents(p) == [a, b];
    assert [a, b][1..] == [b];
    assert Join([a, b], " | ") == a + " | " + b;
    TitleLiterals();
    var l := ListText(status);
    calc {
      a + " | " + b + TitleSuffix;
      l + (" AI Agents" + " | ") + pricing + (" Models" + TitleSuffix);
      l + " AI Agents | " + pricing + " Models - ArkLab AI Agents";
    }
  }

  /** The fixed pieces of that title, merged. */
  lemma TitleLiterals()
    ensures " AI Agents" + " | " == " AI Agents | "
    ensures " Models" + TitleSuffix == " Models - ArkLab AI Agents"
  {
  }

  /** The list text of several values is their plain ", " join with only the
      last separator changed to " & ". */
  lemma ListTextReplacesLastComma(xs: seq<string>)
    requires |xs| >= 2
    ensures var p, l := Join(xs[..|xs| - 1], ", "), xs[|xs| - 1];
            Join(xs, ", ") == p + ", " + l && ListText(xs) == p + " & " + l
  {
    assert xs == xs[..|xs| - 1] + [xs[|xs| - 1]];
    JoinAppend(xs[..|xs| - 1], [xs[|xs| - 1]], ", ");
  }

  /** Three statuses read "Active, Beta & Archived". */
  lemma ListTextOfThree()
    ensures ListText(["Active", "Beta", "Archived"]) == "Active, Beta & Archived"
  {
    assert ["Active", "Beta", "Archived"][..2] == ["Active", "Beta"];
    assert ["Active", "Beta"][1..] == ["Beta"];
  }

  /** The description always ends with the default text, and differs from it
      (it gains a "Found ..." prefix) exactly when a filter is present. */
  lemma DescriptionShape(p: MetadataParams)
    ensures |Description(p)| >= |DefaultDescription|
    ensures Description(p)[|Description(p)| - |DefaultDescription|..] == DefaultDescription
    ensures Description(p) == DefaultDescription <==> !HasFilters(p)
    ensures HasFilters(p) ==> Description(p)[..6] == "Found "
  {
    if HasFilters(p) {
      var pre := "Found " + NatToString(p.filteredCount.GetOr(0)) + " AI agents "
                 + Join(DescriptionComponents(p), ", ")
                 + " from our catalog of " + NatToString(p.totalAgents.GetOr(0)) + " solutions. ";
      var d := pre + DefaultDescription;
      assert Description(p) == d;
      assert d[|d| - |DefaultDescription|..] == DefaultDescription;
      assert d[..6] == pre[..6] == "Found ";
    }
  }

  /** The keyword string always starts with the five base keywords in order. */
  lemma KeywordsStartWithBase(p: MetadataParams)
    ensures var base := Join(BaseKeywords, ", ");
            |Join(KeywordList(p), ", ")| >= |base| &&
            Join(KeywordList(p), ", ")[..|base|] == base
  {
    var ks := KeywordList(p);
    if |ks| > |BaseKeywords| {
      assert ks == BaseKeywords + ks[|BaseKeywords|..];
      JoinAppend(BaseKeywords, ks[|BaseKeywords|..], ", ");
    } else {
      assert ks == BaseKeywords;
    }
  }

  // ---------------------------------------------------------------------
  // Reading the criteria from the query string

  /** `searchParams.get(key) || undefined`. */
  function OptionalParam(searchParams: map<string, string>, key: string): (r: Option<string>)
    ensures r.None? <==> key !in searchParams || searchParams[key] == ""
    ensures r.Some? ==> r.value == searchParams[key] && r.value != ""
  {
    if key in searchParams && searchParams[key] != "" then Some(searchParams[key]) else None
  }

  /** `xs.filter(Boolean)` on strings. */
  function NonEmptyPieces(xs: seq<string>): seq<string> {
    if xs == [] then []
    else (if xs[0] != "" then [xs[0]] else []) + NonEmptyPieces(xs[1..])
  }

  /** `searchParams.get(key)?.split(",").filter(Boolean) || []`. */
  function ListParam(searchParams: map<string, string>, key: string): seq<string> {
    if key in searchParams then NonEmptyPieces(Split(searchParams[key], ',')) else []
  }

  /** The parsed list is `filter(Boolean)` of the comma-separated segments of
      the raw value: every entry is a non-empty, comma-free segment, every
      non-empty segment is kept with its number of occurrences, and the order
      of the segments is kept. An absent key gives the empty list. */
  lemma {:induction false} ListParamPieces(searchParams: map<string, string>, key: string)
    ensures forall k :: 0 <= k < |ListParam(searchParams, key)| ==>
              ListParam(searchParams, key)[k] != "" && ',' !in ListParam(searchParams, key)[k]
    ensures key !in searchParams ==> ListParam(searchParams, key) == []
    ensures key in searchParams ==>
              var segments, r := Split(searchParams[key], ','), ListParam(searchParams, key);
              && Join(segments, ",") == searchParams[key]
              && r == NonEmptyPieces(segments)
              && IsSubsequence(r, segments)
              && (forall s :: s in segments && s != "" ==> s in r)
              && (forall s :: s != "" ==> multiset(r)[s] == multiset(segments)[s])
  {
    if key in searchParams {
      var segments := Split(searchParams[key], ',');
      SplitJoin(searchParams[key], ',');
      NonEmptyPiecesFrom(segments);
      NonEmptyPiecesOrder(segments);
      NonEmptyPiecesCounts(segments);
    }
  }

  /** `xs.filter(Boolean)` keeps only non-empty strings of `xs`. */
  lemma {:induction false} NonEmptyPiecesFrom(xs: seq<string>)
    ensures forall k :: 0 <= k < |NonEmptyPieces(xs)| ==>
              NonEmptyPieces(xs)[k] != "" && NonEmptyPieces(xs)[k] in xs
  {
    if xs != [] {
      NonEmptyPiecesFrom(xs[1..]);
      var rest := NonEmptyPieces(xs[1..]);
      if xs[0] != "" {
        assert NonEmptyPieces(xs) == [xs[0]] + rest;
      }
      forall k | 0 <= k < |rest| ensures rest[k] in xs {
        assert rest[k] in xs[1..];
      }
    }
  }

  /** `xs.filter(Boolean)` keeps the order of `xs`. */
  lemma {:induction false} NonEmptyPiecesOrder(xs: seq<string>)
    ensures IsSubsequence(NonEmptyPieces(xs), xs)
  {
    if xs != [] {
      NonEmptyPiecesOrder(xs[1..]);
      var rest := NonEmptyPieces(xs[1..]);
      if xs[0] != "" {
        var r := NonEmptyPieces(xs);
        assert r == [xs[0]] + rest && r[1..] == rest;
      } else {
        assert NonEmptyPieces(xs) == rest;
      }
    }
  }

  /** `xs.filter(Boolean)` keeps every non-empty string with its number of
      occurrences, so none is lost. */
  lemma {:induction false} NonEmptyPiecesCounts(xs: seq<string>)
    ensures forall s :: s != "" ==> multiset(NonEmptyPieces(xs))[s] == multiset(xs)[s]
    ensures forall s :: s in xs && s != "" ==> s in NonEmptyPieces(xs)
  {
    if xs != [] {
      NonEmptyPiecesCounts(xs[1..]);
      assert xs == [xs[0]] + xs[1..];
      assert multiset(xs) == multiset([xs[0]]) + multiset(xs[1..]);
      var rest := NonEmptyPieces(xs[1..]);
      if xs[0] != "" {
        assert NonEmptyPieces(xs) == [xs[0]] + rest;
      }
      forall s | s in xs && s != "" ensures s in NonEmptyPieces(xs) {
        assert multiset(xs)[s] > 0;
      }
    }
  }

  /** "Active,Beta" splits into its two names. */
  lemma ActiveBetaPieces()
    ensures NonEmptyPieces(Split("Active,Beta", ',')) == ["Active", "Beta"]
  {
    ActiveBetaText();
    SplitNoSeparator("Beta", ',');
    SplitAtSeparator("Active", ',', "Beta");
    var xs := ["Active", "Beta"];
    assert Split("Active,Beta", ',') == ["Active"] + ["Beta"] == xs;
    assert xs[1..] == ["Beta"] && xs[1..][1..] == [];
    assert NonEmptyPieces(["Beta"]) == ["Beta"];
    assert NonEmptyPieces(xs) == ["Active"] + NonEmptyPieces(["Beta"]);
  }

  /** The characters of "Active,Beta": one comma, between the two names. */
  lemma ActiveBetaText()
    ensures ',' !in "Active" && ',' !in "Beta"
    ensures "Active,Beta" == "Active" + [','] + "Beta"
  {
  }

  /** ",Beta,," splits into "", "Beta", "", "", of which only "Beta" is kept. */
  lemma StrayCommaPieces()
    ensures NonEmptyPieces(Split(",Beta,,", ',')) == ["Beta"]
  {
    assert ',' !in "Beta";
    SplitNoSeparator("", ',');
    SplitAtSeparator("", ',', "");
    SplitAtSeparator("Beta", ',', ",");
    SplitAtSeparator("", ',', "Beta,,");
    assert "," == "" + [','] + "";
    assert "Beta,," == "Beta" + [','] + ",";
    assert ",Beta,," == "" + [','] + "Beta,,";
    var xs := ["", "Beta", "", ""];
    assert Split(",Beta,,", ',') == xs;
    assert xs[1..] == ["Beta", "", ""] && xs[1..][1..] == ["", ""];
    assert xs[1..][1..][1..] == [""] && xs[1..][1..][1..][1..] == [];
    assert NonEmptyPieces(["", ""]) == [];
  }

  /** "Active,Beta" reads as the two statuses; stray commas are ignored. */
  lemma StatusListExample()
    ensures ListParam(map["status" := "Active,Beta"], "status") == ["Active", "Beta"]
    ensures ListParam(map["status" := ",Beta,,"], "status") == ["Beta"]
    ensures ListParam(map[], "status") == []
  {
    ActiveBetaPieces();
    StrayCommaPieces();
  }

  /** "?status=Active,Beta&pricing=Subscription" reads as two statuses, a
      pricing model, no search and no categories. */
  lemma StatusAndPricingQuery()
    ensures var sp := map["status" := "Active,Beta", "pricing" := "Subscription"];
            && OptionalParam(sp, "search") == None
            && ListParam(sp, "status") == ["Active", "Beta"]
            && ListParam(sp, "category") == []
            && OptionalParam(sp, "pricing") == Some("Subscription")
  {
    var sp := map["status" := "Active,Beta", "pricing" := "Subscription"];
    assert "search"[1] != "status"[1] && "search"[1] != "pricing"[1];
    assert "category"[0] != "status"[0] && "category"[0] != "pricing"[0];
    assert "status"[0] != "pricing"[0];
    assert sp["status"] == "Active,Beta" && sp["pricing"] == "Subscription";
    assert "search" !in sp && "category" !in sp;
    ActiveBetaPieces();
  }

  /** Those criteria count only Forge (Beta, Subscription) among Echo
      (Active, Free Tier) and Forge. */
  lemma StatusAndPricingCount()
    ensures CountMatching([AgentSlice.Echo, AgentSlice.Forge], None, ["Active", "Beta"], [], Some("Subscription")) == 1
  {
    var status := ["Active", "Beta"];
    var pricing := Some("Subscription");
    assert !UrlMatches(AgentSlice.Echo, None, status, [], pricing);
    assert UrlMatches(AgentSlice.Forge, None, status, [], pricing);
    assert [AgentSlice.Echo, AgentSlice.Forge][1..] == [AgentSlice.Forge];
    assert [AgentSlice.Forge][1..] == [];
    assert CountMatching([AgentSlice.Forge], None, status, [], pricing) == 1 + CountMatching([], None, status, [], pricing);
  }

  /** The duplicated copy of the filter predicate used to count matches, with
      `!search` and `!pricingModel` for "no constraint". */
  predicate UrlMatches(agent: Agent, search: Option<string>, status: seq<string>,
                       category: seq<string>, pricingModel: Option<string>)
  {
    && (search.None? || Contains(Lower(agent.name), Lower(search.value))
                     || Contains(Lower(agent.description), Lower(search.value)))
    && (|status| == 0 || StatusName(agent.status) in status)
    && (|category| == 0 || agent.category in category)
    && (pricingModel.None? || PricingName(agent.pricingModel) == pricingModel.value)
  }

  /** Where the parser can produce them (no empty search or pricing), the
      duplicated predicate accepts exactly the agents the store's filter
      accepts, with `undefined` read as the store's "" default. */
  lemma UrlMatchesIsStoreMatch(agent: Agent, search: Option<string>, status: seq<string>,
                               category: seq<string>, pricingModel: Option<string>)
    requires search.Some? ==> search.value != ""
    requires pricingModel.Some? ==> pricingModel.value != ""
    ensures UrlMatches(agent, search, status, category, pricingModel) <==>
            AgentSlice.Matches(agent, AgentFilters(search.GetOr(""), status, category, pricingModel.GetOr("")))
  {
  }

  /** `agents.filter(agent => UrlMatches(...)).length`: never more than the
      number of agents, and all of them when nothing constrains. */
  function CountMatching(agents: seq<Agent>, search: Option<string>, status: seq<string>,
                         category: seq<string>, pricingModel: Option<string>): (r: nat)
    ensures r <= |agents|
    ensures search.None? && status == [] && category == [] && pricingModel.None? ==> r == |agents|
  {
    if agents == [] then 0
    else (if UrlMatches(agents[0], search, status, category, pricingModel) then 1 else 0)
         + CountMatching(agents[1..], search, status, category, pricingModel)
  }

  /** The count agrees with the store's filter: it is the length of the list
      the same criteria select in the store. */
  lemma {:induction false} CountMatchesStoreFilter(agents: seq<Agent>, search: Option<string>,
                                                   status: seq<string>, category: seq<string>,
                                                   pricingModel: Option<string>)
    requires search.Some? ==> search.value != ""
    requires pricingModel.Some? ==> pricingModel.value != ""
    ensures CountMatching(agents, search, status, category, pricingModel)
            == |AgentSlice.FilterAgents(agents, AgentFilters(search.GetOr(""), status, category, pricingModel.GetOr("")))|
  {
    if agents != [] {
      CountMatchesStoreFilter(agents[1..], search, status, category, pricingModel);
    }
  }

  /** The parameters `getMetadataFromSearchParams` hands to the builder. */
  function ParamsFromSearch(searchParams: map<string, string>, agents: seq<Agent>): MetadataParams {
    var search := OptionalParam(searchParams, "search");
    var status := ListParam(searchParams, "status");
    var category := ListParam(searchParams, "category");
    var pricingModel := OptionalParam(searchParams, "pricing");
    MetadataParams(search, Some(status), Some(category), pricingModel,
                   Some(|agents|), Some(CountMatching(agents, search, status, category, pricingModel)))
  }

  /** `getMetadataFromSearchParams`. */
  method GetMetadataFromSearchParams(searchParams: map<string, string>, agents: seq<Agent>)
    returns (m: Metadata)
    ensures m.title == Title(ParamsFromSearch(searchParams, agents))
    ensures m.description == Description(ParamsFromSearch(searchParams, agents))
    ensures m.keywords == Join(KeywordList(ParamsFromSearch(searchParams, agents)), ", ")
    ensures m.openGraph.title == m.title && m.openGraph.description == m.description
    ensures m.twitter.title == m.title && m.twitter.description == m.description
  {
    m := GenerateDynamicMetadata(ParamsFromSearch(searchParams, agents));
  }

  /** The parsed parameters report the catalog size and the number of agents
      the store's filter would show for the same criteria. */
  lemma ParsedCounts(searchParams: map<string, string>, agents: seq<Agent>)
    ensures var p := ParamsFromSearch(searchParams, agents);
            p.totalAgents == Some(|agents|) &&
            p.filteredCount == Some(|AgentSlice.FilterAgents(agents, AgentFilters(
              p.search.GetOr(""), p.status.value, p.category.value, p.pricingModel.GetOr("")))|)
  {
    var p := ParamsFromSearch(searchParams, agents);
    CountMatchesStoreFilter(agents, p.search, p.status.value, p.category.value, p.pricingModel);
  }
}
