/** `src/store/earthquakeStore.ts`: the store holding the search box text and the table's
    latest filtered rows. */
module EarthquakeStore {
  import opened Types

  class Store {
    var filteredData: seq<Quake>
    var searchTerm: string

    /** The store starts with no filtered rows and an empty search term. */
    constructor ()
      ensures filteredData == [] && searchTerm == ""
    {
      filteredData := [];
      searchTerm := "";
    }

    /** `set({ filteredData: data })`. */
    method SetFilteredData(data: seq<Quake>)
      modifies this
      ensures filteredData == data && searchTerm == old(searchTerm)
    {
      filteredData := data;
    }

    /** `set({ searchTerm: term })`. */
    method SetSearchTerm(term: string)
      modifies this
      ensures searchTerm == term && filteredData == old(filteredData)
    {
      searchTerm := term;
    }
  }

  /** Each setter is idempotent: writing the same value twice leaves the state of writing it once. */
  method SettersIdempotent(store: Store, data: seq<Quake>, term: string)
    modifies store
    ensures store.filteredData == data && store.searchTerm == term
  {
    store.SetFilteredData(data);
    store.SetSearchTerm(term);
    ghost var once := (store.filteredData, store.searchTerm);
    store.SetFilteredData(data);
    store.SetSearchTerm(term);
    assert (store.filteredData, store.searchTerm) == once;
  }
}
