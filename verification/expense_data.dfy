/**
 * View state of the expense list (the `useExpenseData` hook): the filter and
 * sort records with their updaters, the request parameters derived from them,
 * the polling cadence, and the `expenses`/`loading` updates made when a fetch
 * completes.
 */
module ExpenseData {
  import opened Wrappers

  // Tab names the hook compares `activeTab` against. Any other string is
  // possible and takes the "team" branch.
  const Personal: string := "personal"
  const Approvals: string := "approvals"
  const History: string := "history"

  const Manager: string := "MANAGER"

  // Values of the `view` request parameter.
  const PersonalView: string := "personal"
  const TeamView: string := "team"

  // Expense statuses.
  const Pending: string := "PENDING"
  const Approved: string := "APPROVED"
  const Rejected: string := "REJECTED"

  const Asc: string := "asc"
  const Desc: string := "desc"

  // Poll periods in milliseconds.
  const ActionablePollMs: nat := 10000
  const PersonalPollMs: nat := 15000

  /** One row of the list as the server returns it; the hook never looks inside. */
  datatype Expense = Expense(id: int, category: string, amount: int, status: string, createdAt: string)

  /** The consolidated filter record; "" means the filter is not set. */
  datatype Filters = Filters(status: string, from: string, to: string, search: string)

  datatype FilterKey = Status | From | To | Search

  datatype SortConfig = SortConfig(sortBy: string, order: string)

  /** Query parameters of the list request: the spread of filters and sort plus `view`. */
  datatype Params = Params(view: string, status: string, from: string, to: string,
                           search: string, sortBy: string, order: string)

  /** Outcome of the list request: its `expenses` array, or a thrown error. */
  datatype Response = Success(rows: seq<Expense>) | Failure

  const InitialFilters: Filters := Filters("", "", "", "")
  const InitialSort: SortConfig := SortConfig("date", Desc)

  function Get(f: Filters, key: FilterKey): string
  {
    match key
    case Status => f.status
    case From => f.from
    case To => f.to
    case Search => f.search
  }

  /** The functional updater of `setFilter`: `{ ...prev, [key]: value }`. */
  function WithFilter(prev: Filters, key: FilterKey, value: string): (r: Filters)
    ensures Get(r, key) == value
    ensures forall k :: k != key ==> Get(r, k) == Get(prev, k)
  {
    match key
    case Status => prev.(status := value)
    case From => prev.(from := value)
    case To => prev.(to := value)
    case Search => prev.(search := value)
  }

  /** The two orders the sort state is meant to hold. */
  predicate ValidOrder(s: SortConfig)
  {
    s.order == Asc || s.order == Desc
  }

  /** `"asc"` becomes `"desc"`; every other string becomes `"asc"`. */
  function Opposite(order: string): string
  {
    if order == Asc then Desc else Asc
  }

  /** The functional updater of `handleSort`. */
  function ToggleSort(prev: SortConfig, field: string): (r: SortConfig)
    ensures r.sortBy == field && ValidOrder(r)
    ensures prev.sortBy != field ==> r.order == Desc
    ensures prev.sortBy == field ==> (r.order == Asc <==> prev.order != Asc)
  {
    if prev.sortBy == field then prev.(order := Opposite(prev.order))
    else SortConfig(field, Desc)
  }

  /** Clicking the sorted column twice gives back the original sort state. */
  lemma SameFieldTwiceRestores(s: SortConfig)
    requires ValidOrder(s)
    ensures ToggleSort(ToggleSort(s, s.sortBy), s.sortBy) == s
  {
  }

  /**
   * Without a valid order the double click does not restore it: any order
   * other than asc or desc comes back as a valid one.
   */
  lemma SameFieldTwiceNeedsValidOrder(s: SortConfig)
    requires !ValidOrder(s)
    ensures ToggleSort(ToggleSort(s, s.sortBy), s.sortBy) != s
  {
  }

  /** Sort state after a series of column clicks, applied in the order made. */
  function SortAfter(s: SortConfig, clicks: seq<string>): SortConfig
    decreases |clicks|
  {
    if clicks == [] then s
    else ToggleSort(SortAfter(s, clicks[..|clicks| - 1]), clicks[|clicks| - 1])
  }

  /**
   * A corollary of ToggleSort's contract: after at least one click, from any
   * start state, the order is valid and the last clicked field is sorted on;
   * with no click the state is unchanged. So every state reachable from the
   * initial {date, desc} has a valid order.
   */
  lemma ClicksKeepValidOrder(s: SortConfig, clicks: seq<string>)
    ensures clicks != [] ==> ValidOrder(SortAfter(s, clicks))
    ensures clicks != [] ==> SortAfter(s, clicks).sortBy == clicks[|clicks| - 1]
    ensures clicks == [] ==> SortAfter(s, clicks) == s
    ensures ValidOrder(SortAfter(InitialSort, clicks))
  {
  }

  /**
   * Clicking the sorted column `n` times: an even number of clicks restores
   * the state, an odd number flips the order.
   */
  lemma {:induction false} RepeatedClicksAlternate(s: SortConfig, n: nat)
    requires ValidOrder(s)
    ensures SortAfter(s, seq(n, _ => s.sortBy)) ==
            if n % 2 == 0 then s else s.(order := Opposite(s.order))
  {
    if n > 0 {
      var clicks := seq(n, _ => s.sortBy);
      assert clicks[..n - 1] == seq(n - 1, _ => s.sortBy);
      RepeatedClicksAlternate(s, n - 1);
    }
  }

  /** One `setFilter(key, value)` call. */
  datatype FilterEdit = FilterEdit(key: FilterKey, value: string)

  /** Filter state after a series of `setFilter` calls, applied in the order made. */
  function FiltersAfter(f: Filters, edits: seq<FilterEdit>): Filters
    decreases |edits|
  {
    if edits == [] then f
    else
      var e := edits[|edits| - 1];
      WithFilter(FiltersAfter(f, edits[..|edits| - 1]), e.key, e.value)
  }

  /**
   * Successive `setFilter` calls compose: each key ends with the value of the
   * last call that named it, and a key no call named keeps its value.
   */
  lemma {:induction false} LastEditWins(f: Filters, edits: seq<FilterEdit>, k: FilterKey)
    ensures (forall i :: 0 <= i < |edits| ==> edits[i].key != k) ==>
              Get(FiltersAfter(f, edits), k) == Get(f, k)
    ensures forall i ::
              (0 <= i < |edits| && edits[i].key == k && (forall j :: i < j < |edits| ==> edits[j].key != k))
              ==> Get(FiltersAfter(f, edits), k) == edits[i].value
  {
    if edits != [] {
      var n := |edits| - 1;
      var prefix := edits[..n];
      LastEditWins(f, prefix, k);
      assert forall i :: 0 <= i < n ==> prefix[i] == edits[i];
    }
  }

  /**
   * The request parameters `fetchExpenses` sends for a tab: filters and sort
   * spread in, then `view` and `status` set by the tab. Empty filters are sent
   * as "" and the role is never consulted.
   */
  function BuildParams(tab: string, filters: Filters, sort: SortConfig): (p: Params)
    ensures p.from == filters.from && p.to == filters.to && p.search == filters.search
    ensures p.sortBy == sort.sortBy && p.order == sort.order
    ensures p.view == (if tab == Personal then PersonalView else TeamView)
    ensures tab == Personal ==> p.status == filters.status
    ensures tab == Approvals ==> p.status == Pending
    ensures tab == History && filters.status != "" ==> p.status == filters.status
    ensures tab == History && filters.status == "" ==> p.status == Approved
    ensures tab != Personal && tab != Approvals && tab != History ==> p.status == filters.status
  {
    var spread := Params(PersonalView, filters.status, filters.from, filters.to,
                         filters.search, sort.sortBy, sort.order);
    if tab == Personal then spread
    else if tab == Approvals then spread.(view := TeamView, status := Pending)
    else if tab == History && filters.status == "" then spread.(view := TeamView, status := Approved)
    else spread.(view := TeamView)
  }

  /** Once filters are reset, the history tab asks for approved items. */
  lemma HistoryAfterResetShowsApproved(sort: SortConfig)
    ensures BuildParams(History, InitialFilters, sort).status == Approved
  {
  }

  /**
   * The polling period chosen for (role, tab), or None when the view does
   * not poll.
   */
  function PollInterval(role: string, tab: string): (ms: Option<nat>)
    ensures ms == Some(ActionablePollMs) <==> tab == Approvals && role == Manager
    ensures ms == Some(PersonalPollMs) <==> tab == Personal
    ensures ms == None <==> !(tab == Approvals && role == Manager) && tab != Personal
  {
    if tab == Approvals && role == Manager then Some(ActionablePollMs)
    else if tab == Personal then Some(PersonalPollMs)
    else None
  }

  /** The state the hook keeps across renders. */
  class ExpenseView {
    var expenses: seq<Expense>
    var loading: bool
    var filters: Filters
    var sortConfig: SortConfig

    ghost predicate Valid()
      reads this
    {
      ValidOrder(sortConfig)
    }

    constructor ()
      ensures Valid()
      ensures expenses == [] && loading
      ensures filters == InitialFilters && sortConfig == InitialSort
    {
      expenses := [];
      loading := true;
      filters := InitialFilters;
      sortConfig := InitialSort;
    }

    method SetFilter(key: FilterKey, value: string)
      requires Valid()
      modifies this`filters
      ensures Valid()
      ensures filters == WithFilter(old(filters), key, value)
    {
      filters := WithFilter(filters, key, value);
    }

    method HandleSort(field: string)
      requires Valid()
      modifies this`sortConfig
      ensures Valid()
      ensures sortConfig == ToggleSort(old(sortConfig), field)
      ensures field == old(sortConfig.sortBy) ==> ToggleSort(sortConfig, field) == old(sortConfig)
    {
      SameFieldTwiceRestores(sortConfig);
      sortConfig := ToggleSort(sortConfig, field);
    }

    method ResetFilters()
      requires Valid()
      modifies this`filters
      ensures Valid()
      ensures filters == InitialFilters
    {
      filters := Filters("", "", "", "");
    }

    /**
     * Start of `fetchExpenses`, up to the request: a foreground fetch raises
     * `loading`; the parameters are built by assigning to a spread record.
     */
    method BeginFetch(tab: string, isBackground: bool) returns (params: Params)
      requires Valid()
      modifies this`loading
      ensures Valid()
      ensures loading == (if isBackground then old(loading) else true)
      ensures params == BuildParams(tab, filters, sortConfig)
    {
      if !isBackground {
        loading := true;
      }
      params := Params(PersonalView, filters.status, filters.from, filters.to,
                       filters.search, sortConfig.sortBy, sortConfig.order);
      if tab == Personal {
        params := params.(view := PersonalView);
      } else {
        params := params.(view := TeamView);
        if tab == Approvals {
          params := params.(status := Pending);
        } else if tab == History {
          if filters.status == "" {
            params := params.(status := Approved);
          }
        }
      }
    }

    /**
     * End of `fetchExpenses`, when the request settles: a success replaces the
     * rows, a failure keeps them, and only a foreground fetch lowers `loading`.
     * Whatever response arrives is applied.
     */
    method CompleteFetch(isBackground: bool, response: Response)
      requires Valid()
      modifies this`expenses, this`loading
      ensures Valid()
      ensures expenses == (if response.Success? then response.rows else old(expenses))
      ensures loading == (if isBackground then old(loading) else false)
    {
      if response.Success? {
        expenses := response.rows;
      }
      if !isBackground {
        loading := false;
      }
    }

    /** `fetchExpenses` run to completion with the given server response. */
    method FetchExpenses(tab: string, isBackground: bool, response: Response) returns (params: Params)
      requires Valid()
      modifies this`expenses, this`loading
      ensures Valid()
      ensures params == BuildParams(tab, filters, sortConfig)
      ensures expenses == (if response.Success? then response.rows else old(expenses))
      ensures loading == (if isBackground then old(loading) else false)
    {
      params := BeginFetch(tab, isBackground);
      CompleteFetch(isBackground, response);
    }

    /** `refresh`: a background fetch, which never touches `loading`. */
    method Refresh(tab: string, response: Response) returns (params: Params)
      requires Valid()
      modifies this`expenses, this`loading
      ensures Valid()
      ensures params == BuildParams(tab, filters, sortConfig)
      ensures expenses == (if response.Success? then response.rows else old(expenses))
      ensures loading == old(loading)
    {
      params := FetchExpenses(tab, true, response);
    }
  }

  /**
   * Two overlapping foreground fetches whose responses arrive in reverse
   * order. The first request is built from the initial filters, the second
   * after the search changed. The first request's rows (`older`) are applied
   * last and stay on screen, and the newer request's completion already
   * clears `loading` while the older request is still outstanding.
   */
  method OverlappingFetches(tab: string, older: seq<Expense>, newer: seq<Expense>)
    returns (view: ExpenseView, first: Params, second: Params, loadingBetween: bool)
    ensures first == BuildParams(tab, InitialFilters, InitialSort)
    ensures second.search == "taxi" && first != second
    ensures view.expenses == older
    ensures !loadingBetween
  {
    view := new ExpenseView();
    first := view.BeginFetch(tab, false);
    view.SetFilter(Search, "taxi");
    second := view.BeginFetch(tab, false);
    view.CompleteFetch(false, Success(newer));
    loadingBetween := view.loading;
    view.CompleteFetch(false, Success(older));
  }
}
