/** The search holder that both screens share: the lifecycle state of the
    current search and the category filter the segmented control selects.
    The holder's own network request and completion order are not part of
    this model; only the state it publishes is. */
module SearchHolder {

  datatype Option<T> = None | Some(value: T)

  /** One catalog item. Only the fields the two screens pass around are kept. */
  datatype SearchResult = SearchResult(name: string, artistName: string, kind: string, imageSmall: string)

  /** The four-case search state that every rendering decision dispatches on. */
  datatype SearchState =
    | NotSearchedYet
    | Loading
    | NoResults
    | Results(list: seq<SearchResult>)

  /** The category filter; its raw value is the segment index that selects it. */
  datatype Category = All | Music | Software | EBooks {
    function RawValue(): (raw: int)
      ensures 0 <= raw < 4
    {
      match this
      case All => 0
      case Music => 1
      case Software => 2
      case EBooks => 3
    }
  }

  /** `Search.Category(rawValue:)`: a category for the indices 0 to 3, none otherwise. */
  function CategoryFromRaw(raw: int): (c: Option<Category>)
    ensures c.Some? <==> 0 <= raw < 4
    ensures c.Some? ==> c.value.RawValue() == raw
  {
    if raw == 0 then Some(All)
    else if raw == 1 then Some(Music)
    else if raw == 2 then Some(Software)
    else if raw == 3 then Some(EBooks)
    else None
  }

  /** Every category is recovered from its own raw value. */
  lemma CategoryRoundTrip(c: Category)
    ensures CategoryFromRaw(c.RawValue()) == Some(c)
  {
  }

  /** The shared holder: both screens read `state`, only the holder changes it. */
  class Search {
    var state: SearchState

    constructor ()
      ensures state == NotSearchedYet
    {
      state := NotSearchedYet;
    }
  }
}
