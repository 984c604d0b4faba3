/** useUIStore: the search box text, the selected location and whether the search
    panel is open. */
module Ui {
  import opened Outcomes

  class UiStore {
    var searchQuery: string
    var selectedLocationId: Option<string>
    var isSearchOpen: bool

    constructor ()
      ensures searchQuery == "" && selectedLocationId == None && !isSearchOpen
    {
      searchQuery := "";
      selectedLocationId := None;
      isSearchOpen := false;
    }

    /** setSearchQuery(query). */
    method SetSearchQuery(query: string)
      modifies this
      ensures searchQuery == query
      ensures selectedLocationId == old(selectedLocationId) && isSearchOpen == old(isSearchOpen)
    {
      searchQuery := query;
    }

    /** setSelectedLocation(id); None stands for null. */
    method SetSelectedLocation(id: Option<string>)
      modifies this
      ensures selectedLocationId == id
      ensures searchQuery == old(searchQuery) && isSearchOpen == old(isSearchOpen)
    {
      selectedLocationId := id;
    }

    /** toggleSearch(). */
    method ToggleSearch()
      modifies this
      ensures isSearchOpen == !old(isSearchOpen)
      ensures searchQuery == old(searchQuery) && selectedLocationId == old(selectedLocationId)
    {
      isSearchOpen := !isSearchOpen;
    }

    /** clearSearch(): empties the query only; the panel stays as it is. */
    method ClearSearch()
      modifies this
      ensures searchQuery == ""
      ensures selectedLocationId == old(selectedLocationId) && isSearchOpen == old(isSearchOpen)
    {
      searchQuery := "";
    }
  }

  /** Toggling the search panel twice restores every field. */
  method ToggleSearchTwice(store: UiStore)
    modifies store
    ensures store.isSearchOpen == old(store.isSearchOpen)
    ensures store.searchQuery == old(store.searchQuery)
    ensures store.selectedLocationId == old(store.selectedLocationId)
  {
    store.ToggleSearch();
    store.ToggleSearch();
  }

  /** clearSearch() and setSearchQuery("") leave two stores that started equal
      equal again. */
  method ClearIsSetEmpty(a: UiStore, b: UiStore)
    requires a != b
    requires a.searchQuery == b.searchQuery && a.selectedLocationId == b.selectedLocationId
    requires a.isSearchOpen == b.isSearchOpen
    modifies a, b
    ensures a.searchQuery == b.searchQuery && a.selectedLocationId == b.selectedLocationId
    ensures a.isSearchOpen == b.isSearchOpen
  {
    a.ClearSearch();
    b.SetSearchQuery("");
  }
}
