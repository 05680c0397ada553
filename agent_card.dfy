/** The agent card's display logic: the badge colour tables, the initials
    shown in the avatar, and the "View Details" action. */
module AgentCard {
  import opened Wrappers
  import opened Text
  import opened AgentTypes
  import AgentSlice

  /** The six badge colours the card uses. */
  datatype Tone = Green | Yellow | Gray | Blue | Purple | Orange

  function ToneName(t: Tone): string {
    match t
    case Green => "green"
    case Yellow => "yellow"
    case Gray => "gray"
    case Blue => "blue"
    case Purple => "purple"
    case Orange => "orange"
  }

  /** The class string of a badge in colour `t`; all six strings in the
      card follow this one pattern. */
  function BadgeClasses(t: Tone): string {
    var c := ToneName(t);
    "bg-" + c + "-100 text-" + c + "-800 dark:bg-" + c + "-900/30 dark:text-" + c
    + "-400 border-" + c + "-200 dark:border-" + c + "-800"
  }

  /** Different colours give different class strings. */
  lemma BadgeClassesInjective(t: Tone, u: Tone)
    ensures BadgeClasses(t) == BadgeClasses(u) <==> t == u
  {
    if t != u {
      var bt, bu := BadgeClasses(t), BadgeClasses(u);
      assert bt[3] == ToneName(t)[0] && bu[3] == ToneName(u)[0];
      assert bt[5] == ToneName(t)[2] && bu[5] == ToneName(u)[2];
    }
  }

  function StatusTone(status: string): Tone {
    if status == "Active" then Green
    else if status == "Beta" then Yellow
    else if status == "Archived" then Gray
    else Gray
  }

  function PricingTone(pricingModel: string): Tone {
    if pricingModel == "Free Tier" then Blue
    else if pricingModel == "Subscription" then Purple
    else if pricingModel == "Per-Use" then Orange
    else Gray
  }

  /** `getStatusColor`: always one of the three status badges. */
  function StatusColor(status: string): (r: string)
    ensures r in {BadgeClasses(Green), BadgeClasses(Yellow), BadgeClasses(Gray)}
  {
    BadgeClasses(StatusTone(status))
  }

  /** `getPricingColor`: always one of the four pricing badges. */
  function PricingColor(pricingModel: string): (r: string)
    ensures r in {BadgeClasses(Blue), BadgeClasses(Purple), BadgeClasses(Orange), BadgeClasses(Gray)}
  {
    BadgeClasses(PricingTone(pricingModel))
  }

  /** Active is green and Beta yellow; every other status, Archived
      included, gets the gray badge. */
  lemma StatusColorTable(status: string)
    ensures StatusColor(status) == BadgeClasses(Green) <==> status == "Active"
    ensures StatusColor(status) == BadgeClasses(Yellow) <==> status == "Beta"
    ensures StatusColor(status) == BadgeClasses(Gray) <==> status != "Active" && status != "Beta"
    ensures StatusColor(status) == BadgeClasses(Gray) <==> StatusColor(status) == StatusColor("Archived")
  {
    BadgeClassesInjective(StatusTone(status), Green);
    BadgeClassesInjective(StatusTone(status), Yellow);
    BadgeClassesInjective(StatusTone(status), Gray);
  }

  /** Each pricing model has its own colour; unknown ones get the gray badge. */
  lemma PricingColorTable(pricingModel: string)
    ensures PricingColor(pricingModel) == BadgeClasses(Blue) <==> pricingModel == "Free Tier"
    ensures PricingColor(pricingModel) == BadgeClasses(Purple) <==> pricingModel == "Subscription"
    ensures PricingColor(pricingModel) == BadgeClasses(Orange) <==> pricingModel == "Per-Use"
    ensures PricingColor(pricingModel) == BadgeClasses(Gray) <==>
              pricingModel != "Free Tier" && pricingModel != "Subscription" && pricingModel != "Per-Use"
  {
    BadgeClassesInjective(PricingTone(pricingModel), Blue);
    BadgeClassesInjective(PricingTone(pricingModel), Purple);
    BadgeClassesInjective(PricingTone(pricingModel), Orange);
    BadgeClassesInjective(PricingTone(pricingModel), Gray);
  }

  /** On the enumerated values every pricing model is coloured and never
      gray. */
  lemma EnumeratedPricingNeverGray(p: PricingModel)
    ensures PricingColor(PricingName(p)) != BadgeClasses(Gray)
  {
    PricingColorTable(PricingName(p));
  }

  // ---------------------------------------------------------------------
  // Initials

  /** `words.map(word => word[0]).join("")`: an empty word's `word[0]` is
      `undefined`, which joins as nothing. */
  function FirstLetters(words: seq<string>): string {
    if words == [] then ""
    else (if words[0] == "" then "" else [words[0][0]]) + FirstLetters(words[1..])
  }

  /** `name.split(" ").map(word => word[0]).join("").slice(0, 2)`. */
  function Initials(name: string): (r: string)
    ensures |r| <= 2
  {
    var letters := FirstLetters(Split(name, ' '));
    if |letters| <= 2 then letters else letters[..2]
  }

  /** Reference definition: the characters of `s` that are not spaces and
      start a word, i.e. come first (when `atStart`) or after a space. */
  function WordStarts(s: string, atStart: bool): string {
    if s == [] then ""
    else (if atStart && s[0] != ' ' then [s[0]] else "") + WordStarts(s[1..], s[0] == ' ')
  }

  /** The first letters of all pieces but the first are the word starts of
      the text read as if not at the start of a word. */
  lemma {:induction false} FirstLettersOfLaterPieces(s: string)
    ensures FirstLetters(Split(s, ' ')[1..]) == WordStarts(s, false)
    decreases |s|, 0
  {
    if s != [] {
      var rest := Split(s[1..], ' ');
      FirstLettersOfLaterPieces(s[1..]);
      if s[0] == ' ' {
        assert Split(s, ' ')[1..] == rest;
        FirstLettersSplit(s[1..]);
      } else {
        assert Split(s, ' ')[1..] == rest[1..];
      }
    }
  }

  /** `split`, `map` and `join` together yield exactly the word starts. */
  lemma {:induction false} FirstLettersSplit(s: string)
    ensures FirstLetters(Split(s, ' ')) == WordStarts(s, true)
    decreases |s|, 1
  {
    if s != [] {
      FirstLettersOfLaterPieces(s);
      var words := Split(s, ' ');
      if s[0] == ' ' {
        assert words[0] == "";
      } else {
        assert words[0][0] == s[0];
      }
    }
  }

  /** The initials are the first two word starts of the name: the first
      letters of its space-separated words, with runs of spaces contributing
      nothing. */
  lemma InitialsAreWordStarts(name: string)
    ensures var starts := WordStarts(name, true);
            Initials(name) == if |starts| <= 2 then starts else starts[..2]
  {
    FirstLettersSplit(name);
  }

  /** "View Details": select exactly this card's agent. */
  method ViewDetails(store: AgentSlice.Store, agent: Agent)
    modifies store
    ensures store.selectedAgent == Some(agent)
    ensures store.agents == old(store.agents) && store.filteredAgents == old(store.filteredAgents)
    ensures store.filters == old(store.filters) && store.loading == old(store.loading)
  {
    store.SetSelectedAgent(Some(agent));
  }
}
