/**
 * The Companies screen's local view state and its event handlers. Each
 * handler calls `setState` with the fields it changes; `setState` merges them
 * into the current state and keeps the others.
 */
module CompaniesView {
  import opened CompanyRecord
  import opened CompaniesList

  datatype Option<T> = None | Some(value: T)

  /** The argument of `setState`: the fields to overwrite. */
  datatype Patch = Patch(
    filterName: Option<string> := None,
    order: Option<string> := None,
    orderBy: Option<string> := None,
    page: Option<int> := None,
    rowsPerPage: Option<int> := None,
    selected: Option<seq<string>> := None)

  /** One field after the merge: the patch's value if it has one. */
  function Merge<T>(current: T, update: Option<T>): T
  {
    if update.Some? then update.value else current
  }

  class ViewState {
    var filterName: string
    var order: string
    var orderBy: string
    var page: int
    var rowsPerPage: int
    var selected: seq<string>

    /** `defaultState`. */
    constructor ()
      ensures filterName == "" && order == "asc" && orderBy == "name"
      ensures page == 0 && rowsPerPage == 5 && selected == []
    {
      filterName := "";
      order := "asc";
      orderBy := "name";
      page := 0;
      rowsPerPage := 5;
      selected := [];
    }

    /** `setState(patch)`: a shallow merge. */
    method SetState(patch: Patch)
      modifies this
      ensures filterName == Merge(old(filterName), patch.filterName)
      ensures order == Merge(old(order), patch.order)
      ensures orderBy == Merge(old(orderBy), patch.orderBy)
      ensures page == Merge(old(page), patch.page)
      ensures rowsPerPage == Merge(old(rowsPerPage), patch.rowsPerPage)
      ensures selected == Merge(old(selected), patch.selected)
    {
      filterName := Merge(filterName, patch.filterName);
      order := Merge(order, patch.order);
      orderBy := Merge(orderBy, patch.orderBy);
      page := Merge(page, patch.page);
      rowsPerPage := Merge(rowsPerPage, patch.rowsPerPage);
      selected := Merge(selected, patch.selected);
    }

    /** `handleRequestSort(event, property)`: sort by `property`; descending
        only when it was already the ascending sort column. */
    method RequestSort(property: string)
      modifies this
      ensures orderBy == property
      ensures order == if old(orderBy) == property && old(order) == "asc" then "desc" else "asc"
      ensures filterName == old(filterName) && page == old(page)
      ensures rowsPerPage == old(rowsPerPage) && selected == old(selected)
    {
      var isAsc := orderBy == property && order == "asc";
      SetState(Patch(order := Some(if isAsc then "desc" else "asc"), orderBy := Some(property)));
    }

    /** `handleSelectAllClick(event)`: checked selects every loaded company by
        name, in entity order, not only the visible page; unchecked clears. */
    method SelectAllClick(checked: bool, companies: seq<Company>)
      modifies this
      ensures checked ==> |selected| == |companies| && forall k :: 0 <= k < |companies| ==> selected[k] == companies[k].name
      ensures !checked ==> selected == []
      ensures filterName == old(filterName) && order == old(order) && orderBy == old(orderBy)
      ensures page == old(page) && rowsPerPage == old(rowsPerPage)
    {
      if checked {
        var newSelecteds := Names(companies);
        SetState(Patch(selected := Some(newSelecteds)));
        return;
      }
      SetState(Patch(selected := Some([])));
    }

    /** `handleClick(event, name)`: toggle one row's selection. */
    method Click(name: string)
      modifies this
      ensures selected == Toggle(old(selected), name)
      ensures filterName == old(filterName) && order == old(order) && orderBy == old(orderBy)
      ensures page == old(page) && rowsPerPage == old(rowsPerPage)
    {
      var newSelected := ClickSelection(selected, name);
      SetState(Patch(selected := Some(newSelected)));
    }

    /** `handleChangePage(event, newPage)`. */
    method ChangePage(newPage: int)
      modifies this
      ensures page == newPage
      ensures filterName == old(filterName) && order == old(order) && orderBy == old(orderBy)
      ensures rowsPerPage == old(rowsPerPage) && selected == old(selected)
    {
      SetState(Patch(page := Some(newPage)));
    }

    /** `handleChangeRowsPerPage(event)`, with the new value already parsed:
        back to the first page. */
    method ChangeRowsPerPage(newRowsPerPage: int)
      modifies this
      ensures page == 0 && rowsPerPage == newRowsPerPage
      ensures filterName == old(filterName) && order == old(order) && orderBy == old(orderBy)
      ensures selected == old(selected)
    {
      SetState(Patch(page := Some(0), rowsPerPage := Some(newRowsPerPage)));
    }

    /** `handleFilterByName(event)`. */
    method FilterByName(value: string)
      modifies this
      ensures filterName == value
      ensures order == old(order) && orderBy == old(orderBy) && page == old(page)
      ensures rowsPerPage == old(rowsPerPage) && selected == old(selected)
    {
      SetState(Patch(filterName := Some(value)));
    }

    /** Whether a row's checkbox shows as ticked. */
    function IsSelected(name: string): (r: bool)
      reads this
      ensures r <==> name in selected
    {
      IsItemSelected(selected, name)
    }

    /** What the table shows for the loaded `companies`: the rows of the
        current page of `applySortFilter`'s result, the `emptyRows` padding,
        and whether "not found" shows (`filteredCompanies.length === 0`). */
    method Rows(companies: seq<Company>) returns (visible: seq<Company>, emptyRows: int, notFound: bool)
      ensures emptyRows == EmptyRows(page, rowsPerPage, |companies|)
      ensures page >= 0 && rowsPerPage >= 0 ==> |visible| <= rowsPerPage
      ensures forall x :: x in visible ==> x in companies
      ensures filterName != "" ==> visible == PageRows(Filter(companies, filterName), page, rowsPerPage)
      ensures filterName == "" ==>
        forall k, l :: 0 <= k < l < |visible| ==> Compare(GetComparator(order, orderBy), visible[k], visible[l]) <= 0
      ensures notFound <==> if filterName == "" then companies == [] else Filter(companies, filterName) == []
    {
      emptyRows := EmptyRows(page, rowsPerPage, |companies|);
      var comparator := GetComparator(order, orderBy);
      var filteredCompanies, origin := ApplySortFilter(companies, comparator, filterName);
      notFound := |filteredCompanies| == 0;
      visible := PageRows(filteredCompanies, page, rowsPerPage);
      PageRowsWithin(filteredCompanies, page, rowsPerPage);
      if filterName == "" {
        PageRowsSorted(comparator, filteredCompanies, page, rowsPerPage);
      }
    }
  }
}
