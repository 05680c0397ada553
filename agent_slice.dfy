/** The catalog store: the agent list, the filter criteria, the filtered
    view of the list, the loading flag and the selected agent, with one
    method per reducer and per case of the asynchronous fetch. */
module AgentSlice {
  import opened Wrappers
  import opened Text
  import opened SeqUtil
  import opened AgentTypes

  // ---------------------------------------------------------------------
  // The filter predicate

  /** Empty search, or the lower-cased search occurs in the lower-cased name
      or the lower-cased description. */
  predicate MatchesSearch(agent: Agent, search: string) {
    search == "" ||
    Contains(Lower(agent.name), Lower(search)) ||
    Contains(Lower(agent.description), Lower(search))
  }

  predicate MatchesStatus(agent: Agent, status: seq<string>) {
    |status| == 0 || StatusName(agent.status) in status
  }

  predicate MatchesCategory(agent: Agent, category: seq<string>) {
    |category| == 0 || agent.category in category
  }

  predicate MatchesPricing(agent: Agent, pricingModel: string) {
    pricingModel == "" || PricingName(agent.pricingModel) == pricingModel
  }

  predicate Matches(agent: Agent, filters: AgentFilters) {
    && MatchesSearch(agent, filters.search)
    && MatchesStatus(agent, filters.status)
    && MatchesCategory(agent, filters.category)
    && MatchesPricing(agent, filters.pricingModel)
  }

  /** `filterAgents`: `agents.filter(agent => Matches(agent, filters))`. The
      result is no longer than the input and holds only matching agents of
      the input. */
  function FilterAgents(agents: seq<Agent>, filters: AgentFilters): (r: seq<Agent>)
    ensures |r| <= |agents|
    ensures forall i :: 0 <= i < |r| ==> r[i] in agents && Matches(r[i], filters)
  {
    if agents == [] then []
    else (if Matches(agents[0], filters) then [agents[0]] else []) + FilterAgents(agents[1..], filters)
  }

  /** An agent is in the filtered list exactly when it is in the input and
      satisfies all four criteria. */
  lemma {:induction false} FilterAgentsMembers(agents: seq<Agent>, filters: AgentFilters)
    ensures forall a :: a in FilterAgents(agents, filters) <==> a in agents && Matches(a, filters)
  {
    if agents != [] {
      FilterAgentsMembers(agents[1..], filters);
      assert agents == [agents[0]] + agents[1..];
    }
  }

  /** Each matching agent keeps its number of occurrences; the others vanish. */
  lemma {:induction false} FilterAgentsCounts(agents: seq<Agent>, filters: AgentFilters)
    ensures forall a :: multiset(FilterAgents(agents, filters))[a] ==
                          if Matches(a, filters) then multiset(agents)[a] else 0
  {
    if agents != [] {
      FilterAgentsCounts(agents[1..], filters);
      assert agents == [agents[0]] + agents[1..];
      assert multiset(agents) == multiset([agents[0]]) + multiset(agents[1..]);
    }
  }

  /** The filtered list keeps the order of the input. */
  lemma {:induction false} FilterAgentsOrder(agents: seq<Agent>, filters: AgentFilters)
    ensures IsSubsequence(FilterAgents(agents, filters), agents)
  {
    if agents != [] {
      FilterAgentsOrder(agents[1..], filters);
      var rest := FilterAgents(agents[1..], filters);
      if Matches(agents[0], filters) {
        var r := FilterAgents(agents, filters);
        assert r == [agents[0]] + rest && r[1..] == rest;
      } else {
        assert FilterAgents(agents, filters) == rest;
      }
    }
  }

  /** The default criteria match every agent, so filtering by them is the
      identity. */
  lemma {:induction false} DefaultFiltersKeepAll(agents: seq<Agent>)
    ensures FilterAgents(agents, DefaultFilters) == agents
  {
    if agents != [] {
      DefaultFiltersKeepAll(agents[1..]);
      assert Matches(agents[0], DefaultFilters);
      assert agents == [agents[0]] + agents[1..];
    }
  }

  /** Filtering returns its input unchanged exactly when every agent in it
      matches. */
  lemma {:induction false} FilterKeepsAllIff(agents: seq<Agent>, filters: AgentFilters)
    ensures FilterAgents(agents, filters) == agents <==> forall a :: a in agents ==> Matches(a, filters)
  {
    FilterAgentsMembers(agents, filters);
    if forall a :: a in agents ==> Matches(a, filters) {
      AllMatchKeepsAll(agents, filters);
    }
  }

  lemma {:induction false} AllMatchKeepsAll(agents: seq<Agent>, filters: AgentFilters)
    requires forall a :: a in agents ==> Matches(a, filters)
    ensures FilterAgents(agents, filters) == agents
  {
    if agents != [] {
      assert agents[0] in agents;
      AllMatchKeepsAll(agents[1..], filters);
      assert agents == [agents[0]] + agents[1..];
    }
  }

  /** Filtering twice by the same criteria is filtering once. */
  lemma FilterAgentsIdempotent(agents: seq<Agent>, filters: AgentFilters)
    ensures FilterAgents(FilterAgents(agents, filters), filters) == FilterAgents(agents, filters)
  {
    FilterAgentsMembers(agents, filters);
    AllMatchKeepsAll(FilterAgents(agents, filters), filters);
  }

  /** The search ignores letter case: two non-empty searches that lower-case
      to the same text select the same agents. */
  lemma SearchIgnoresCase(agent: Agent, s: string, t: string)
    requires s != "" && t != "" && Lower(s) == Lower(t)
    ensures MatchesSearch(agent, s) == MatchesSearch(agent, t)
  {
  }

  /** The four criteria are independent tests: an agent matches exactly when
      it passes each one on its own, every agent passes the defaults, and so
      resetting any one criterion to its default never loses a match. */
  lemma MatchesEachCriterion(agent: Agent, filters: AgentFilters)
    ensures Matches(agent, filters) <==>
              && Matches(agent, DefaultFilters.(search := filters.search))
              && Matches(agent, DefaultFilters.(status := filters.status))
              && Matches(agent, DefaultFilters.(category := filters.category))
              && Matches(agent, DefaultFilters.(pricingModel := filters.pricingModel))
    ensures Matches(agent, DefaultFilters)
    ensures Matches(agent, filters) ==>
              && Matches(agent, filters.(search := ""))
              && Matches(agent, filters.(status := []))
              && Matches(agent, filters.(category := []))
              && Matches(agent, filters.(pricingModel := ""))
  {
  }

  // ---------------------------------------------------------------------
  // Partial updates of the criteria

  /** `{ ...filters, ...patch }`: present fields overwrite, absent ones stay. */
  function Merge(filters: AgentFilters, patch: FiltersPatch): (r: AgentFilters)
    ensures patch.search.Some? ==> r.search == patch.search.value
    ensures patch.search.None? ==> r.search == filters.search
    ensures patch.status.Some? ==> r.status == patch.status.value
    ensures patch.status.None? ==> r.status == filters.status
    ensures patch.category.Some? ==> r.category == patch.category.value
    ensures patch.category.None? ==> r.category == filters.category
    ensures patch.pricingModel.Some? ==> r.pricingModel == patch.pricingModel.value
    ensures patch.pricingModel.None? ==> r.pricingModel == filters.pricingModel
  {
    AgentFilters(
      patch.search.GetOr(filters.search),
      patch.status.GetOr(filters.status),
      patch.category.GetOr(filters.category),
      patch.pricingModel.GetOr(filters.pricingModel))
  }

  // ---------------------------------------------------------------------
  // The store

  class Store {
    var agents: seq<Agent>
    var filteredAgents: seq<Agent>
    var filters: AgentFilters
    var loading: bool
    var selectedAgent: Option<Agent>

    /** The filtered view is the criteria applied to the full list. */
    predicate Consistent()
      reads this
    {
      filteredAgents == FilterAgents(agents, filters)
    }

    /** `initialState`. */
    constructor ()
      ensures agents == [] && filteredAgents == [] && filters == DefaultFilters
      ensures !loading && selectedAgent == None
      ensures Consistent()
    {
      agents := [];
      filteredAgents := [];
      filters := DefaultFilters;
      loading := false;
      selectedAgent := None;
    }

    /** `setAgents`: replace the list and refilter it by the current criteria. */
    method SetAgents(payload: seq<Agent>)
      modifies this
      ensures agents == payload && filteredAgents == FilterAgents(payload, filters)
      ensures filters == old(filters) && loading == old(loading) && selectedAgent == old(selectedAgent)
      ensures Consistent()
    {
      agents := payload;
      filteredAgents := FilterAgents(payload, filters);
    }

    /** `initializeAgents`: like `setAgents`, but only while the list is empty;
        once the store holds agents it is a no-op. */
    method InitializeAgents(payload: seq<Agent>)
      modifies this
      ensures old(agents) != [] ==> agents == old(agents) && filteredAgents == old(filteredAgents)
      ensures old(agents) == [] ==> agents == payload && filteredAgents == FilterAgents(payload, filters)
      ensures filters == old(filters) && loading == old(loading) && selectedAgent == old(selectedAgent)
      ensures old(agents) == [] || old(Consistent()) ==> Consistent()
    {
      if |agents| == 0 {
        agents := payload;
        filteredAgents := FilterAgents(payload, filters);
      }
    }

    /** `setFilters`: merge the partial criteria and refilter the full list. */
    method SetFilters(patch: FiltersPatch)
      modifies this
      ensures filters == Merge(old(filters), patch)
      ensures agents == old(agents) && filteredAgents == FilterAgents(agents, filters)
      ensures loading == old(loading) && selectedAgent == old(selectedAgent)
      ensures Consistent()
    {
      filters := Merge(filters, patch);
      filteredAgents := FilterAgents(agents, filters);
    }

    /** `setSelectedAgent`: only the selection changes. */
    method SetSelectedAgent(agent: Option<Agent>)
      modifies this
      ensures selectedAgent == agent
      ensures agents == old(agents) && filteredAgents == old(filteredAgents)
      ensures filters == old(filters) && loading == old(loading)
      ensures old(Consistent()) ==> Consistent()
    {
      selectedAgent := agent;
    }

    /** `clearFilters`: default criteria and the full list as the filtered view,
        which is what filtering by the defaults yields. */
    method ClearFilters()
      modifies this
      ensures filters == DefaultFilters && filteredAgents == agents
      ensures agents == old(agents) && loading == old(loading) && selectedAgent == old(selectedAgent)
      ensures Consistent()
    {
      filters := AgentFilters("", [], [], "");
      filteredAgents := agents;
      DefaultFiltersKeepAll(agents);
    }

    /** `fetchAgents.pending`. */
    method FetchPending()
      modifies this
      ensures loading
      ensures agents == old(agents) && filteredAgents == old(filteredAgents)
      ensures filters == old(filters) && selectedAgent == old(selectedAgent)
      ensures old(Consistent()) ==> Consistent()
    {
      loading := true;
    }

    /** `fetchAgents.fulfilled`: the payload becomes both the list and the
        filtered view, without applying the current criteria. The view is
        consistent afterwards exactly when every fetched agent matches them. */
    method FetchFulfilled(payload: seq<Agent>)
      modifies this
      ensures !loading && agents == payload && filteredAgents == payload
      ensures filters == old(filters) && selectedAgent == old(selectedAgent)
      ensures Consistent() <==> forall a :: a in payload ==> Matches(a, filters)
    {
      loading := false;
      agents := payload;
      filteredAgents := payload;
      FilterKeepsAllIff(payload, filters);
    }

    /** `fetchAgents.rejected`: only the loading flag changes. */
    method FetchRejected()
      modifies this
      ensures !loading
      ensures agents == old(agents) && filteredAgents == old(filteredAgents)
      ensures filters == old(filters) && selectedAgent == old(selectedAgent)
      ensures old(Consistent()) ==> Consistent()
    {
      loading := false;
    }
  }

  // ---------------------------------------------------------------------
  // Scenarios

  const Echo := Agent("1", "Echo", "voice bot", Active, "Support", FreeTier)
  const Forge := Agent("2", "Forge", "code gen", Beta, "Dev", Subscription)

  /** Selecting the "Active" status keeps only Echo. */
  lemma ActiveStatusScenario()
    ensures FilterAgents([Echo, Forge], AgentFilters("", ["Active"], [], "")) == [Echo]
  {
    var f := AgentFilters("", ["Active"], [], "");
    assert Matches(Echo, f) && !Matches(Forge, f);
    assert [Echo, Forge][1..] == [Forge] && [Forge][1..] == [];
    assert FilterAgents([Forge], f) == [];
  }

  /** Searching "code" keeps only Forge, whose description contains it;
      Echo's name and description do not. */
  lemma CodeSearchScenario()
    ensures FilterAgents([Echo, Forge], AgentFilters("code", [], [], "")) == [Forge]
  {
    var f := AgentFilters("code", [], [], "");
    assert Lower("code") == "code";
    assert Lower("code gen")[0..4] == "code";
    assert OccursAt(Lower(Forge.description), Lower(f.search), 0);
    assert Lower("Echo") == "echo";
    assert Lower("voice bot") == "voice bot";
    assert !Contains("echo", "code") by {
      assert "echo"[0..4][0] != "code"[0];
    }
    assert !Contains("voice bot", "code") by {
      forall i | 0 <= i <= 5 ensures !OccursAt("voice bot", "code", i) {
        assert "voice bot"[i + 1] != 'o' || "voice bot"[i] != 'c';
      }
    }
    assert !Matches(Echo, f) && Matches(Forge, f);
    assert [Echo, Forge][1..] == [Forge] && [Forge][1..] == [];
    assert FilterAgents([Forge], f) == [Forge];
  }

  /** A fetch that completes while the "Active" status is selected leaves
      Forge, a Beta agent, in the filtered view: the store is inconsistent. */
  method FulfilledWhileFiltered() returns (consistent: bool, shown: seq<Agent>)
    ensures !consistent && shown == [Forge]
  {
    var store := new Store();
    store.SetFilters(FiltersPatch(None, Some(["Active"]), None, None));
    store.FetchFulfilled([Forge]);
    assert !Matches(Forge, store.filters);
    consistent := store.Consistent();
    shown := store.filteredAgents;
  }
}
