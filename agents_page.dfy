/** The catalog page: the one-shot hand-off of the server-rendered agents to
    the store, the choice of which list to show, and the loading and empty
    branches. */
module AgentsPageView {
  import opened Text
  import opened AgentTypes
  import opened SeqUtil
  import AgentSlice

  datatype Body = Cards(agents: seq<Agent>) | NoAgentsFound
  datatype PageView = Spinner | Page(countLine: string, body: Body)

  /** "Showing {shown} of {total} agents". */
  function CountLine(shown: nat, total: nat): string {
    "Showing " + NatToString(shown) + " of " + NatToString(total) + " agents"
  }

  /** One mounted page. `initialized` is the ref flag; the ghost counter
      records how many times the page dispatched `initializeAgents`. */
  class AgentsPage {
    const initialAgents: seq<Agent>
    var initialized: bool
    ghost var dispatches: nat

    ghost predicate Valid()
      reads this
    {
      dispatches == if initialized then 1 else 0
    }

    constructor (initialAgents: seq<Agent>)
      ensures this.initialAgents == initialAgents
      ensures !initialized && dispatches == 0 && Valid()
    {
      this.initialAgents := initialAgents;
      initialized := false;
      dispatches := 0;
    }

    /** The mount effect: dispatch `initializeAgents` once, and only with a
        non-empty list; the flag is set right after the dispatch. */
    method SeedEffect(store: AgentSlice.Store)
      requires Valid()
      modifies this, store
      ensures Valid() && dispatches <= 1
      ensures initialized == (old(initialized) || |initialAgents| > 0)
      ensures old(initialized) || |initialAgents| == 0 ==>
                unchanged(store) && dispatches == old(dispatches)
      ensures !old(initialized) && |initialAgents| > 0 && old(store.agents) == [] ==>
                store.agents == initialAgents &&
                store.filteredAgents == AgentSlice.FilterAgents(initialAgents, store.filters)
      ensures old(store.agents) != [] ==>
                store.agents == old(store.agents) && store.filteredAgents == old(store.filteredAgents)
      ensures store.filters == old(store.filters) && store.loading == old(store.loading)
      ensures store.selectedAgent == old(store.selectedAgent)
    {
      if !initialized && |initialAgents| > 0 {
        store.InitializeAgents(initialAgents);
        dispatches := dispatches + 1;
        initialized := true;
      }
    }

    /** Before the flag is set the server-rendered list is shown, afterwards
        the store's filtered view, whatever state the store is in (after a
        fetch that completed under active criteria it may hold agents that
        do not match them). In a consistent store that view is only agents
        the store holds, in its order, each matching its criteria. */
    function AgentsToRender(store: AgentSlice.Store): (r: seq<Agent>)
      reads this, store
      ensures !initialized ==> r == initialAgents
      ensures initialized ==> r == store.filteredAgents
      ensures initialized && store.Consistent() ==>
                && IsSubsequence(r, store.agents)
                && forall a :: a in r ==> a in store.agents && AgentSlice.Matches(a, store.filters)
    {
      if initialized then
        AgentSlice.FilterAgentsOrder(store.agents, store.filters);
        AgentSlice.FilterAgentsMembers(store.agents, store.filters);
        store.filteredAgents
      else initialAgents
    }

    /** The page: only the spinner while loading; otherwise the count line
        and either the cards or "No agents found". */
    function Render(store: AgentSlice.Store): (v: PageView)
      reads this, store
      ensures v.Spinner? <==> store.loading
      ensures v.Page? ==> v.countLine == CountLine(|AgentsToRender(store)|, |initialAgents|)
      ensures v.Page? ==> (v.body == NoAgentsFound <==> AgentsToRender(store) == [])
      ensures v.Page? && v.body.Cards? ==> v.body.agents == AgentsToRender(store)
    {
      var shown := AgentsToRender(store);
      if store.loading then Spinner
      else Page(CountLine(|shown|, |initialAgents|), if |shown| > 0 then Cards(shown) else NoAgentsFound)
    }
  }

  /** A second run of the effect after the user has filtered neither
      re-seeds the store nor resets the filtered view. */
  method FilterThenRerunEffect(initial: seq<Agent>, patch: FiltersPatch)
    returns (before: seq<Agent>, after: seq<Agent>, seeded: bool)
    ensures before == after
    ensures seeded == (|initial| > 0)
    ensures seeded ==> after == AgentSlice.FilterAgents(initial, AgentSlice.Merge(DefaultFilters, patch))
  {
    var store := new AgentSlice.Store();
    var page := new AgentsPage(initial);
    page.SeedEffect(store);
    store.SetFilters(patch);
    before := page.AgentsToRender(store);
    page.SeedEffect(store);
    after := page.AgentsToRender(store);
    seeded := page.initialized;
  }

  /** With no server-rendered agents nothing is dispatched and the page shows
      "No agents found" with a count of 0 of 0. */
  method EmptyInitialList() returns (view: PageView)
    ensures view == Page(CountLine(0, 0), NoAgentsFound)
  {
    var store := new AgentSlice.Store();
    var page := new AgentsPage([]);
    page.SeedEffect(store);
    view := page.Render(store);
  }
}
