/** The filter panel's logic: the option lists, the handlers that turn a
    widget event into a partial update of the criteria, the pricing select's
    value mapping, the "Clear All" action and the active-filter test. */
module FilterControls {
  import opened Wrappers
  import opened SeqUtil
  import opened AgentTypes
  import AgentSlice

  // ---------------------------------------------------------------------
  // Option lists

  function Categories(agents: seq<Agent>): seq<string> {
    Dedup(seq(|agents|, i requires 0 <= i < |agents| => agents[i].category))
  }

  /** `agents.map(agent => agent.status)`. */
  function StatusColumn(agents: seq<Agent>): seq<string> {
    seq(|agents|, i requires 0 <= i < |agents| => StatusName(agents[i].status))
  }

  /** `agents.map(agent => agent.pricingModel)`. */
  function PricingColumn(agents: seq<Agent>): seq<string> {
    seq(|agents|, i requires 0 <= i < |agents| => PricingName(agents[i].pricingModel))
  }

  function Statuses(agents: seq<Agent>): seq<string> {
    Dedup(StatusColumn(agents))
  }

  function PricingModels(agents: seq<Agent>): seq<string> {
    Dedup(PricingColumn(agents))
  }

  /** The category options are the agents' categories, each once, in the
      order of their first appearance. */
  lemma CategoryOptions(agents: seq<Agent>)
    ensures var all := seq(|agents|, i requires 0 <= i < |agents| => agents[i].category);
            var r := Categories(agents);
            && (forall c :: c in r <==> exists a :: a in agents && a.category == c)
            && (forall i, j :: 0 <= i < j < |r| ==> r[i] != r[j])
            && (forall i :: 0 <= i < |r| ==> r[i] in all)
            && (forall i, j :: 0 <= i < j < |r| ==> IndexOf(all, r[i]) < IndexOf(all, r[j]))
  {
    var all := seq(|agents|, i requires 0 <= i < |agents| => agents[i].category);
    DedupSpec(all);
    forall c ensures c in all <==> exists a :: a in agents && a.category == c {
      if c in all {
        var k :| 0 <= k < |all| && all[k] == c;
        assert agents[k] in agents;
      }
      if exists a :: a in agents && a.category == c {
        var a :| a in agents && a.category == c;
        var k :| 0 <= k < |agents| && agents[k] == a;
        assert all[k] == c;
      }
    }
  }

  /** The status and pricing options hold each value once, in the order of
      first appearance, and exactly the values some agent has. */
  lemma StatusAndPricingOptions(agents: seq<Agent>)
    ensures var ss, r := StatusColumn(agents), Statuses(agents);
            && (forall v :: v in r <==> exists a :: a in agents && StatusName(a.status) == v)
            && Distinct(r)
            && (forall i :: 0 <= i < |r| ==> r[i] in ss)
            && (forall i, j :: 0 <= i < j < |r| ==> IndexOf(ss, r[i]) < IndexOf(ss, r[j]))
    ensures var ps, r := PricingColumn(agents), PricingModels(agents);
            && (forall v :: v in r <==> exists a :: a in agents && PricingName(a.pricingModel) == v)
            && Distinct(r)
            && (forall i :: 0 <= i < |r| ==> r[i] in ps)
            && (forall i, j :: 0 <= i < j < |r| ==> IndexOf(ps, r[i]) < IndexOf(ps, r[j]))
  {
    var ss, ps := StatusColumn(agents), PricingColumn(agents);
    DedupSpec(ss);
    DedupSpec(ps);
    forall v ensures v in ss <==> exists a :: a in agents && StatusName(a.status) == v {
      if v in ss {
        var k :| 0 <= k < |ss| && ss[k] == v;
        assert agents[k] in agents;
      }
      if exists a :: a in agents && StatusName(a.status) == v {
        var a :| a in agents && StatusName(a.status) == v;
        var k :| 0 <= k < |agents| && agents[k] == a;
        assert ss[k] == v;
      }
    }
    forall v ensures v in ps <==> exists a :: a in agents && PricingName(a.pricingModel) == v {
      if v in ps {
        var k :| 0 <= k < |ps| && ps[k] == v;
        assert agents[k] in agents;
      }
      if exists a :: a in agents && PricingName(a.pricingModel) == v {
        var a :| a in agents && PricingName(a.pricingModel) == v;
        var k :| 0 <= k < |agents| && agents[k] == a;
        assert ps[k] == v;
      }
    }
  }

  // ---------------------------------------------------------------------
  // Handlers: each returns the partial criteria it dispatches

  /** A patch that sets exactly one field. */
  predicate OnlySearch(p: FiltersPatch) {
    p.search.Some? && p.status.None? && p.category.None? && p.pricingModel.None?
  }
  predicate OnlyStatus(p: FiltersPatch) {
    p.search.None? && p.status.Some? && p.category.None? && p.pricingModel.None?
  }
  predicate OnlyCategory(p: FiltersPatch) {
    p.search.None? && p.status.None? && p.category.Some? && p.pricingModel.None?
  }
  predicate OnlyPricing(p: FiltersPatch) {
    p.search.None? && p.status.None? && p.category.None? && p.pricingModel.Some?
  }

  /** Checking appends the value at the end; unchecking removes every
      occurrence of it. The value is selected afterwards exactly when it was
      checked, every other value keeps its count, and since a checkbox is
      ticked exactly when its value is selected (so `checked` only arrives
      for an unselected value) a duplicate-free selection stays so. */
  function Toggle(selected: seq<string>, value: string, checked: bool): (r: seq<string>)
    ensures value in r <==> checked
    ensures forall s :: s != value ==> multiset(r)[s] == multiset(selected)[s]
    ensures Distinct(selected) && (checked ==> value !in selected) ==> Distinct(r)
  {
    RemoveAllCounts(selected, value);
    RemoveAllDistinct(selected, value);
    if checked then AppendFresh(selected, value); selected + [value]
    else RemoveAll(selected, value)
  }

  /** Appending a value not yet present keeps a list duplicate-free. */
  lemma AppendFresh(selected: seq<string>, value: string)
    ensures Distinct(selected) && value !in selected ==> Distinct(selected + [value])
  {
    if Distinct(selected) && value !in selected {
      var r := selected + [value];
      forall i, j | 0 <= i < j < |r| ensures r[i] != r[j] {
        if j < |selected| {
          assert r[i] == selected[i] && r[j] == selected[j];
        } else {
          assert r[i] == selected[i];
        }
      }
    }
  }

  function HandleSearchChange(value: string): (p: FiltersPatch)
    ensures OnlySearch(p) && p.search.value == value
  {
    FiltersPatch(Some(value), None, None, None)
  }

  function HandleStatusChange(filters: AgentFilters, status: string, checked: bool): (p: FiltersPatch)
    ensures OnlyStatus(p)
    ensures checked ==> p.status.value == filters.status + [status]
    ensures !checked ==> status !in p.status.value && IsSubsequence(p.status.value, filters.status)
    ensures !checked ==> forall s :: s != status ==> multiset(p.status.value)[s] == multiset(filters.status)[s]
  {
    RemoveAllCounts(filters.status, status);
    RemoveAllOrder(filters.status, status);
    FiltersPatch(None, Some(Toggle(filters.status, status, checked)), None, None)
  }

  function HandleCategoryChange(filters: AgentFilters, category: string, checked: bool): (p: FiltersPatch)
    ensures OnlyCategory(p)
    ensures checked ==> p.category.value == filters.category + [category]
    ensures !checked ==> category !in p.category.value && IsSubsequence(p.category.value, filters.category)
    ensures !checked ==> forall c :: c != category ==> multiset(p.category.value)[c] == multiset(filters.category)[c]
  {
    RemoveAllCounts(filters.category, category);
    RemoveAllOrder(filters.category, category);
    FiltersPatch(None, None, Some(Toggle(filters.category, category, checked)), None)
  }

  /** Checking a value that was not selected and then unchecking it restores
      the selection. */
  lemma {:induction false} ToggleOnThenOff(selected: seq<string>, value: string)
    requires value !in selected
    ensures Toggle(Toggle(selected, value, true), value, false) == selected
  {
    RemoveAllAppend(selected, [value], value);
    RemoveAbsent(selected, value);
    assert RemoveAll([value], value) == [];
  }

  /** The select's "all" entry means no pricing constraint (""). */
  function PricingFromSelect(value: string): string {
    if value == "all" then "" else value
  }

  /** The select shows `filters.pricingModel || "all"`. */
  function SelectValue(pricingModel: string): string {
    if pricingModel == "" then "all" else pricingModel
  }

  function HandlePricingChange(value: string): (p: FiltersPatch)
    ensures OnlyPricing(p) && p.pricingModel.value == PricingFromSelect(value)
  {
    FiltersPatch(None, None, None, Some(PricingFromSelect(value)))
  }

  /** The displayed value and the handler invert each other: choosing what is
      shown stores the criterion back (unless the criterion is literally
      "all"), and showing a stored choice gives back any non-empty choice. */
  lemma PricingSelectRoundTrip(pricingModel: string, value: string)
    ensures pricingModel != "all" ==> PricingFromSelect(SelectValue(pricingModel)) == pricingModel
    ensures value != "" ==> SelectValue(PricingFromSelect(value)) == value
  {
  }

  /** Each handler changes only its own field of the criteria. */
  lemma HandlersTouchOneField(filters: AgentFilters, text: string, value: string, checked: bool)
    ensures AgentSlice.Merge(filters, HandleSearchChange(text)) == filters.(search := text)
    ensures AgentSlice.Merge(filters, HandleStatusChange(filters, value, checked))
            == filters.(status := Toggle(filters.status, value, checked))
    ensures AgentSlice.Merge(filters, HandleCategoryChange(filters, value, checked))
            == filters.(category := Toggle(filters.category, value, checked))
    ensures AgentSlice.Merge(filters, HandlePricingChange(value))
            == filters.(pricingModel := PricingFromSelect(value))
  {
  }

  // ---------------------------------------------------------------------
  // Active filters and "Clear All"

  /** `filters.search || filters.status.length > 0 || ... || filters.pricingModel`:
      the "Clear All" button shows exactly when the criteria are not the
      defaults. */
  predicate HasActiveFilters(filters: AgentFilters)
    ensures HasActiveFilters(filters) <==> filters != DefaultFilters
  {
    var active := filters.search != "" || |filters.status| > 0 || |filters.category| > 0
                  || filters.pricingModel != "";
    assert !active ==> filters.status == [] && filters.category == [];
    active
  }

  /** `handleClearFilters`: dispatch `clearFilters`, then replace the URL with
      the bare pathname (returned). */
  method HandleClearFilters(store: AgentSlice.Store, pathname: string) returns (url: string)
    modifies store
    ensures url == pathname
    ensures store.filters == DefaultFilters && store.filteredAgents == store.agents
    ensures store.agents == old(store.agents) && store.loading == old(store.loading)
    ensures store.selectedAgent == old(store.selectedAgent)
    ensures store.Consistent() && !HasActiveFilters(store.filters)
  {
    store.ClearFilters();
    url := pathname;
  }
}
