// The category input of book-store-app/src/components/CategoryCombobox.jsx:
// the options shown for the typed query, and the state changes and change
// events of selecting an option, typing, and the arrow and escape keys.
module CategoryCombobox {
  import opened Wrappers
  import opened Text
  import opened Lists

  /** The component's state: the text in the input and whether the option panel is open. */
  datatype Combo = Combo(query: string, open: bool)

  /** The `{ target: { name, value } }` event handed to `onChange`. */
  datatype Change = Change(name: string, value: string)

  /** `value || ''`: the query a (re)mounted or re-synced component shows. */
  function Synced(value: Option<string>): string {
    if value.Some? then value.value else ""
  }

  /** An option passes when its lower-cased text contains the lower-cased query; a null option is `''`. */
  predicate OptionMatches(opt: Option<string>, q: string) {
    Contains(ToLower(Synced(opt)), q)
  }

  /** `filtered`: all options for an empty query, otherwise those containing it, ignoring case. */
  function Filtered(options: seq<Option<string>>, query: string): seq<Option<string>> {
    var q := ToLower(query);
    if q == "" then options else Filter(options, (opt: Option<string>) => OptionMatches(opt, q))
  }

  /**
   * An empty query shows every option; any query shows, in their order,
   * exactly the options whose text contains it, ignoring case.
   */
  lemma {:induction false} FilteredOutcome(options: seq<Option<string>>, query: string)
    ensures query == "" ==> Filtered(options, query) == options
    ensures Subsequence(Filtered(options, query), options)
    ensures forall opt :: opt in Filtered(options, query) <==>
      opt in options && Contains(ToLower(Synced(opt)), ToLower(query))
  {
    var q := ToLower(query);
    var p := (opt: Option<string>) => OptionMatches(opt, q);
    if q == "" {
      forall opt | opt in options
        ensures Contains(ToLower(Synced(opt)), q)
      {
        ContainsSelf(ToLower(Synced(opt)));
      }
      SubsequenceRefl(options);
    } else {
      FilterSubsequence(options, p);
      FilterMembers(options, p);
    }
  }

  /** `handleSelect`: the option is emitted under 'category', becomes the query, and the panel closes. */
  function Select(c: Combo, opt: string): (r: (Combo, Change))
    ensures r.0 == Combo(opt, false) && r.1 == Change("category", opt)
  {
    (c.(query := opt, open := false), Change("category", opt))
  }

  /** `handleInputChange`: the typed text becomes the query and is emitted; the panel is untouched. */
  function InputChange(c: Combo, typed: string): (r: (Combo, Change))
    ensures r.0 == Combo(typed, c.open) && r.1 == Change("category", typed)
  {
    (c.(query := typed), Change("category", typed))
  }

  /** `handleKeyDown`: Escape closes the panel, ArrowDown opens it, any other key changes nothing. */
  function KeyDown(c: Combo, key: string): (r: Combo)
    ensures r.query == c.query
    ensures key == "Escape" ==> !r.open
    ensures key == "ArrowDown" ==> r.open
    ensures key != "Escape" && key != "ArrowDown" ==> r == c
  {
    if key == "Escape" then c.(open := false)
    else if key == "ArrowDown" then c.(open := true)
    else c
  }

  /** The value effect: when the parent's value changes the query follows it. */
  function ValueChanged(c: Combo, value: Option<string>): (r: Combo)
    ensures r.open == c.open
    ensures value.Some? ==> r.query == value.value
    ensures value.None? ==> r.query == ""
  {
    c.(query := Synced(value))
  }

  /**
   * After a selection the parent echoes the emitted value back, and the
   * selected option is among those the panel then shows.
   */
  lemma {:induction false} SelectedOptionStaysShown(c: Combo, options: seq<Option<string>>, opt: string)
    requires Some(opt) in options
    ensures var (c1, e) := Select(c, opt);
      var c2 := ValueChanged(c1, Some(e.value));
      c2.query == opt && Some(opt) in Filtered(options, c2.query)
  {
    FilteredOutcome(options, opt);
    ContainsSelf(ToLower(opt));
  }
}
