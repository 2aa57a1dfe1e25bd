/**
 * features/subscribers/subscribersSlice.ts: the page number and search text of the
 * subscribers table.
 */
module SubscribersSlice {

  datatype SubscribersState = SubscribersState(currentPage: int, searchQuery: string)

  const InitialState := SubscribersState(1, "")

  class SubscribersStore {
    var currentPage: int
    var searchQuery: string

    function State(): SubscribersState
      reads this
    {
      SubscribersState(currentPage, searchQuery)
    }

    constructor ()
      ensures State() == InitialState
    {
      currentPage, searchQuery := 1, "";
    }

    method SetCurrentPage(p: int)
      modifies this
      ensures State() == old(State()).(currentPage := p)
    {
      currentPage := p;
    }

    /** A new search always starts again at page 1. */
    method SetSearchQuery(q: string)
      modifies this
      ensures State() == SubscribersState(1, q)
    {
      searchQuery := q;
      currentPage := 1;
    }

    /** `resetSubscribersState` returns `initialState`, whatever the state was. */
    method ResetSubscribersState()
      modifies this
      ensures State() == InitialState
    {
      currentPage, searchQuery := InitialState.currentPage, InitialState.searchQuery;
    }
  }
}
