/**
 * The filter bar (`ExpenseFilters`): four controlled inputs bound to their
 * owner's filter state, a Clear button shown while any filter is set, and a
 * status select that can be hidden.
 */
module ExpenseFilterBar {
  import opened Wrappers
  import ExpenseData

  /** The values the status select offers; "" stands for "All Status". */
  const StatusOptions: seq<string> := ["", ExpenseData.Pending, ExpenseData.Approved, ExpenseData.Rejected]

  predicate IsStatusOption(s: string)
  {
    s in StatusOptions
  }

  /**
   * Whether the Clear button is offered: some filter value is truthy, that
   * is, non-empty.
   */
  function AnyFilterActive(status: string, from: string, to: string, search: string): (active: bool)
    ensures active <==> ExpenseData.Filters(status, from, to, search) != ExpenseData.InitialFilters
    ensures !active <==> status == "" && from == "" && to == "" && search == ""
  {
    status != "" || from != "" || to != "" || search != ""
  }

  /** What the search box shows for a search prop that may be missing. */
  function SearchInputValue(search: Option<string>): (shown: string)
    ensures shown == "" <==> search == None || search == Some("")
    ensures search.Some? ==> shown == search.value
  {
    match search
    case None => ""
    case Some(s) => s
  }

  class FilterBar {
    var status: string
    var from: string
    var to: string
    var search: string
    const hideStatus: bool

    ghost predicate Valid()
      reads this
    {
      IsStatusOption(status)
    }

    /** The four bound values as the hook's filter record. */
    function Current(): ExpenseData.Filters
      reads this
    {
      ExpenseData.Filters(status, from, to, search)
    }

    predicate ClearShown()
      reads this
    {
      AnyFilterActive(status, from, to, search)
    }

    predicate StatusControlShown()
      reads this
    {
      !hideStatus
    }

    /**
     * A bar bound to the hook's initial filters. `hideStatusProp` is None when
     * the prop is not passed, in which case it defaults to false.
     */
    constructor (hideStatusProp: Option<bool>)
      ensures Valid()
      ensures Current() == ExpenseData.InitialFilters && !ClearShown()
      ensures StatusControlShown() <==> hideStatusProp != Some(true)
    {
      status, from, to, search := "", "", "", "";
      hideStatus := if hideStatusProp.Some? then hideStatusProp.value else false;
    }

    /** The status select delivers one of its options to `setStatus`. */
    method OnStatusChange(value: string)
      requires Valid()
      requires IsStatusOption(value)
      modifies this`status
      ensures Valid()
      ensures status == value
    {
      status := value;
    }

    method OnFromChange(value: string)
      requires Valid()
      modifies this`from
      ensures Valid()
      ensures from == value
    {
      from := value;
    }

    method OnToChange(value: string)
      requires Valid()
      modifies this`to
      ensures Valid()
      ensures to == value
    {
      to := value;
    }

    method OnSearchChange(value: string)
      requires Valid()
      modifies this`search
      ensures Valid()
      ensures search == value
    {
      search := value;
    }

    /**
     * `clearFilters`: the four setters called with "" in turn. Afterwards the
     * Clear button is gone, and clearing an already clear bar changes nothing.
     */
    method ClearFilters()
      requires Valid()
      modifies this`status, this`from, this`to, this`search
      ensures Valid()
      ensures Current() == ExpenseData.InitialFilters
      ensures !ClearShown()
      ensures old(!ClearShown()) ==> unchanged(this)
    {
      status := "";
      from := "";
      to := "";
      search := "";
    }
  }
}
