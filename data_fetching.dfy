/** Loading the agent records: the batch validator and the server-side
    fallback. The delay, the dynamic import of the data file and the logging
    are outside the model; what the import yields is a parameter. */
module DataFetching {
  import opened Wrappers
  import opened Text

  /** A record as it comes out of the data file. The cast to `Agent` checks
      nothing, so every field is a string and "" stands for a missing or
      falsy field. */
  datatype RawAgent = RawAgent(
    id: string,
    name: string,
    description: string,
    status: string,
    category: string,
    pricingModel: string)

  /** What the data file holds: not an array, or an array of records. */
  datatype LoadedData = NotAnArray | Records(items: seq<RawAgent>)

  /** The two errors the validator throws before they are wrapped: "Invalid
      agents data format" and "Invalid agent data at index {index}: missing
      required fields". Their texts are only logged, so the model keeps the
      index and drops the text. */
  datatype LoadError = InvalidFormat | MissingFields(index: nat)

  const LoadFailedMessage := "Failed to load agents data"

  /** All six fields are truthy; an empty description fails too. */
  predicate HasRequiredFields(a: RawAgent) {
    a.id != "" && a.name != "" && a.description != "" &&
    a.status != "" && a.category != "" && a.pricingModel != ""
  }

  predicate AllValid(items: seq<RawAgent>) {
    forall i :: 0 <= i < |items| ==> HasRequiredFields(items[i])
  }

  /** The validation inside `fetchAgentsData`: reject a non-array, then walk
      the records and stop at the first one lacking a required field. */
  method Validate(data: LoadedData) returns (r: Result<seq<RawAgent>, LoadError>)
    ensures data.NotAnArray? ==> r == Failure(InvalidFormat)
    ensures data.Records? ==> (r.Success? <==> AllValid(data.items))
    ensures r.Success? ==> data.Records? && r.value == data.items
    ensures data.Records? && r.Failure? ==> r.error.MissingFields?
    ensures r.Failure? && r.error.MissingFields? ==>
              data.Records? && r.error.index < |data.items| &&
              !HasRequiredFields(data.items[r.error.index]) &&
              AllValid(data.items[..r.error.index])
  {
    if data.NotAnArray? {
      return Failure(InvalidFormat);
    }
    var agents := data.items;
    var index := 0;
    while index < |agents|
      invariant 0 <= index <= |agents|
      invariant AllValid(agents[..index])
    {
      if !HasRequiredFields(agents[index]) {
        return Failure(MissingFields(index));
      }
      assert agents[..index + 1] == agents[..index] + [agents[index]];
      index := index + 1;
    }
    assert agents[..index] == agents;
    return Success(agents);
  }

  /** `fetchAgentsData` once the import has happened (`None`: the import
      threw). Any failure surfaces as the one wrapped message; an accepted
      batch comes back unchanged. */
  method FetchAgentsData(imported: Option<LoadedData>) returns (r: Result<seq<RawAgent>, string>)
    ensures r.Failure? ==> r.error == LoadFailedMessage
    ensures r.Success? <==> imported.Some? && imported.value.Records? && AllValid(imported.value.items)
    ensures r.Success? ==> r.value == imported.value.items
  {
    if imported.None? {
      return Failure(LoadFailedMessage);
    }
    var checked := Validate(imported.value);
    if checked.Failure? {
      return Failure(LoadFailedMessage);
    }
    return Success(checked.value);
  }

  /** `getServerSideAgents`: never fails; the fetched records, or none. */
  method GetServerSideAgents(imported: Option<LoadedData>) returns (agents: seq<RawAgent>)
    ensures imported.Some? && imported.value.Records? && AllValid(imported.value.items) ==>
              agents == imported.value.items
    ensures !(imported.Some? && imported.value.Records? && AllValid(imported.value.items)) ==>
              agents == []
  {
    var r := FetchAgentsData(imported);
    if r.Success? {
      agents := r.value;
    } else {
      agents := [];
    }
  }

  /** Rejection is whole-batch: one bad record anywhere rejects a batch, even
      when every other record is valid. */
  lemma OneBadRecordRejectsAll(items: seq<RawAgent>, k: nat)
    requires k < |items| && !HasRequiredFields(items[k])
    ensures !AllValid(items)
    ensures forall pre, post :: AllValid(pre) && AllValid(post) ==>
              !AllValid(pre + [items[k]] + post)
  {
    forall pre, post | AllValid(pre) && AllValid(post)
      ensures !AllValid(pre + [items[k]] + post)
    {
      assert (pre + [items[k]] + post)[|pre|] == items[k];
    }
  }
}
