/**
 * The searchable combo box (src/components/ui/ComboBox.tsx): the option
 * filter and the small open/search state machine driven by its handlers.
 * Focus timers, the document listener and rendering are not modelled.
 */
module ComboBox {
  import opened Common

  /** `opt => opt.includes(term)` */
  function MatchesTerm(term: string): string -> bool
  {
    o => Contains(o, term)
  }

  /** The options shown for a search term: all of them for "", else those containing the term. */
  function FilterOptions(options: seq<string>, term: string): (shown: seq<string>)
  {
    if term == "" then options else Filter(options, MatchesTerm(term))
  }

  /** An option is shown iff it is one of the options and contains the (possibly empty) term. */
  lemma {:induction false} FilterOptionsMembers(options: seq<string>, term: string, o: string)
    ensures o in FilterOptions(options, term) <==> o in options && Contains(o, term)
    ensures |FilterOptions(options, term)| <= |options|
  {
    ContainsEmpty(o);
  }

  /** The shown options keep the original order: they are the options minus some of them. */
  lemma {:induction false} FilterOptionsOrder(options: seq<string>, term: string)
    ensures term != "" ==> FilterOptions(options + [term], term) == FilterOptions(options, term) + [term]
  {
    if term != "" {
      FilterAppend(options, [term], MatchesTerm(term));
      assert StartsWith(term, term);
    }
  }

  /** Typing more narrows the list: every option shown for a longer term is shown for a term it contains. */
  lemma {:induction false} FilterOptionsNarrows(options: seq<string>, term: string, longer: string, o: string)
    requires Contains(longer, term)
    requires o in FilterOptions(options, longer)
    ensures o in FilterOptions(options, term)
  {
    FilterOptionsMembers(options, longer, o);
    FilterOptionsMembers(options, term, o);
    ContainsTransitive(o, longer, term);
  }

  /** The text in the input: the search term while open, else the selected value. */
  function InputText(isOpen: bool, searchTerm: string, value: string): (text: string)
    ensures isOpen ==> text == searchTerm
    ensures !isOpen ==> text == value
  {
    if isOpen then searchTerm else value
  }

  class Box {
    const options: seq<string>
    const disabled: bool
    var value: string
    var isOpen: bool
    var searchTerm: string
    var filteredOptions: seq<string>
    /** The values passed to `onChange`, in order. */
    var reported: seq<string>

    /** The filter effect has run for the current search term. */
    predicate Valid()
      reads this
    {
      filteredOptions == FilterOptions(options, searchTerm)
    }

    constructor(opts: seq<string>, v: string, isDisabled: bool)
      ensures Valid()
      ensures options == opts && value == v && disabled == isDisabled
      ensures !isOpen && searchTerm == "" && filteredOptions == opts && reported == []
    {
      options := opts;
      disabled := isDisabled;
      value := v;
      isOpen := false;
      searchTerm := "";
      filteredOptions := opts;
      reported := [];
    }

    /** The effect on `searchTerm`: recompute the shown options. */
    method Refilter()
      modifies this
      ensures Valid()
      ensures isOpen == old(isOpen) && searchTerm == old(searchTerm)
      ensures value == old(value) && reported == old(reported)
    {
      if searchTerm != "" {
        filteredOptions := Filter(options, MatchesTerm(searchTerm));
      } else {
        filteredOptions := options;
      }
    }

    /** `handleSelect`: report the option, close the list and clear the search. */
    method HandleSelect(option: string)
      modifies this
      ensures Valid()
      ensures reported == old(reported) + [option]
      ensures !isOpen && searchTerm == "" && filteredOptions == options
      ensures value == old(value)
    {
      reported := reported + [option];
      isOpen := false;
      searchTerm := "";
      Refilter();
    }

    /** `handleToggle`: flip the list unless disabled. */
    method HandleToggle()
      modifies this
      ensures disabled ==> isOpen == old(isOpen)
      ensures !disabled ==> isOpen == !old(isOpen)
      ensures searchTerm == old(searchTerm) && filteredOptions == old(filteredOptions)
      ensures value == old(value) && reported == old(reported)
    {
      if !disabled {
        isOpen := !isOpen;
      }
    }

    /** A mouse-down outside the box while it is open closes it and clears the search. */
    method ClickOutside()
      modifies this
      ensures Valid()
      ensures old(isOpen) ==> !isOpen && searchTerm == ""
      ensures !old(isOpen) ==> isOpen == old(isOpen) && searchTerm == old(searchTerm)
      ensures value == old(value) && reported == old(reported)
    {
      if isOpen {
        isOpen := false;
        searchTerm := "";
      }
      Refilter();
    }

    /** Typing changes the search term only while the list is open. */
    method Type(text: string)
      modifies this
      ensures Valid()
      ensures searchTerm == (if old(isOpen) then text else old(searchTerm))
      ensures isOpen == old(isOpen) && value == old(value) && reported == old(reported)
    {
      if isOpen {
        searchTerm := text;
      }
      Refilter();
    }

    /** Focusing the input opens the list unless disabled. */
    method Focus()
      modifies this
      ensures isOpen == (old(isOpen) || !disabled)
      ensures searchTerm == old(searchTerm) && filteredOptions == old(filteredOptions)
      ensures value == old(value) && reported == old(reported)
    {
      if !disabled {
        isOpen := true;
      }
    }
  }
}
