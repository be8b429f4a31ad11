/** The list page: search text and page number, the page count, the
    prefetch of the following page, the identifier each card navigates to,
    and which of the four screens is shown. */
module CharacterList {
  import opened Records
  import Api
  import Segments

  const FetchErrorMessage: string := "Failed to fetch"

  /** What one query yields: the page's records and the number of pages. */
  datatype QueryResult = QueryResult(characters: seq<Character>, totalPages: int)

  /** The cache key `['characters', search, page]`. */
  datatype QueryKey = QueryKey(search: string, page: int)

  /** `Math.ceil(count / 10)`: the fewest pages of ten that hold `count` records. */
  function TotalPages(count: int): (pages: int)
    ensures 10 * (pages - 1) < count <= 10 * pages
    ensures count >= 0 ==> pages >= 0
    ensures count == 0 ==> pages == 0
  {
    (count + 9) / 10
  }

  /** The query function: the records as delivered, and the page count. */
  function ToQueryResult(response: CharacterResponse): (r: QueryResult)
    ensures r.characters == response.results
    ensures 10 * (r.totalPages - 1) < response.count <= 10 * r.totalPages
  {
    QueryResult(response.results, TotalPages(response.count))
  }

  /** The request a query key is fetched with: `getCharacters(page, search)`. */
  function KeyRequest(key: QueryKey): (r: Api.PeopleRequest)
    ensures r.page == key.page && r.search == key.search
  {
    Api.GetCharacters(Some(key.page), Some(key.search))
  }

  /** Until data arrives the view works on an empty list and zero pages. */
  function DataOrDefault(data: Option<QueryResult>): (r: QueryResult)
    ensures data.None? ==> r.characters == [] && r.totalPages == 0
    ensures data.Some? ==> r == data.value
  {
    match data
    case Some(d) => d
    case None => QueryResult([], 0)
  }

  /** The prefetch effect: when the page count is set and the current page
      is not the last, the following page is fetched under its own key. */
  function Prefetch(search: string, page: int, totalPages: int): (r: Option<QueryKey>)
    requires page >= 1
    ensures r.Some? <==> 0 < totalPages && page < totalPages
    ensures r.Some? ==> r.value.search == search && r.value.page == page + 1
    ensures r.Some? ==> 2 <= r.value.page <= totalPages
  {
    if totalPages != 0 && page < totalPages then Some(QueryKey(search, page + 1)) else None
  }

  /** `url.split('/').filter(Boolean).pop()`: the last non-empty segment,
      or `undefined` when there is none. */
  function DeriveId(url: string): (id: Option<string>)
    ensures id.Some? ==> id.value != "" && '/' !in id.value
  {
    Segments.Last(Segments.NonEmpty(Segments.Split(url, '/')))
  }

  /** The route a card click navigates to; a template literal prints a
      missing id as `undefined`. */
  function NavigationTarget(url: string): (route: string)
    ensures |route| > |"/character/"| && route[..|"/character/"|] == "/character/"
    ensures DeriveId(url).Some? ==> route[|"/character/"|..] == DeriveId(url).value
    ensures DeriveId(url).None? ==> route[|"/character/"|..] == "undefined"
  {
    "/character/" + match DeriveId(url) case Some(id) => id case None => "undefined"
  }

  /** Whatever comes before, the segment ending a URL with a closing slash
      is the derived id. */
  lemma {:induction false} DeriveIdOfTrailingSegment(prefix: string, id: string)
    requires id != [] && '/' !in id
    ensures DeriveId(prefix + "/" + id + "/") == Some(id)
  {
    var tail := id + ['/'] + "";
    assert prefix + "/" + id + "/" == prefix + ['/'] + tail;
    Segments.SplitAtSeparator(prefix, tail, '/');
    Segments.SplitAtSeparator(id, "", '/');
    Segments.SplitWithoutSeparator(id, '/');
    assert Segments.Split(tail, '/') == [id, ""];
    Segments.NonEmptyConcat(Segments.Split(prefix, '/'), [id, ""]);
    assert Segments.NonEmpty([id, ""]) == [id] by {
      assert [id, ""][1..] == [""];
      assert [""][1..] == [];
    }
  }

  /** Without a closing slash the final segment is the id just the same. */
  lemma DeriveIdOfFinalSegment(prefix: string, id: string)
    requires id != [] && '/' !in id
    ensures DeriveId(prefix + "/" + id) == Some(id)
  {
    assert prefix + "/" + id == prefix + ['/'] + id;
    Segments.SplitAtSeparator(prefix, id, '/');
    Segments.SplitWithoutSeparator(id, '/');
    Segments.NonEmptyConcat(Segments.Split(prefix, '/'), [id]);
    Segments.NonEmptySingleton(id);
  }

  /** A derived id is the last non-empty segment: it is segment `j`, and
      every segment after it is empty. */
  lemma DeriveIdIsLastSegment(url: string) returns (j: int)
    requires DeriveId(url).Some?
    ensures Segments.LastNonEmptyAt(Segments.Split(url, '/'), j, DeriveId(url).value)
  {
    j := Segments.NonEmptyLast(Segments.Split(url, '/'));
  }

  /** No id is derived exactly when the URL holds nothing but slashes. */
  lemma DeriveIdMissing(url: string)
    ensures DeriveId(url).None? <==> forall i :: 0 <= i < |url| ==> url[i] == '/'
  {
    var parts := Segments.Split(url, '/');
    if forall i :: 0 <= i < |url| ==> url[i] == '/' {
      Segments.SplitOfSeparators(url, '/');
      Segments.NonEmptyOfEmptyPieces(parts);
    }
    if DeriveId(url).None? {
      assert forall j :: 0 <= j < |parts| ==> parts[j] == [] by {
        forall j | 0 <= j < |parts| ensures parts[j] == [] {
          assert parts[j] in parts;
        }
      }
      Segments.JoinOfEmptyPieces(parts, '/');
      Segments.JoinSplit(url, '/');
    }
  }

  /** Deriving the id from the detail URL of the service layer gives the
      id back, and the card navigates to its route. */
  lemma DetailUrlRoundTrip(id: string)
    requires id != [] && '/' !in id
    ensures DeriveId(Api.CharacterUrl(id)) == Some(id)
    ensures NavigationTarget(Api.CharacterUrl(id)) == "/character/" + id
  {
    assert Api.CharacterUrl(id) == (Api.BaseUrl + "/people") + "/" + id + "/";
    DeriveIdOfTrailingSegment(Api.BaseUrl + "/people", id);
  }

  /** The canonical URL of the first character leads to `/character/1`. */
  lemma FirstCharacterRoute()
    ensures DeriveId("https://swapi.dev/api/people/1/") == Some("1")
    ensures NavigationTarget("https://swapi.dev/api/people/1/") == "/character/1"
  {
    assert Api.CharacterUrl("1") == "https://swapi.dev/api/people/1/";
    DetailUrlRoundTrip("1");
  }

  /** What one card shows, and where clicking it leads. */
  datatype Card = Card(name: string, birthYear: string, gender: string, target: string)

  function CardFor(c: Character): (card: Card)
    ensures card.name == c.name && card.birthYear == c.birth_year && card.gender == c.gender
    ensures card.target == NavigationTarget(c.url)
    ensures DeriveId(c.url).Some? ==> card.target == "/character/" + DeriveId(c.url).value
  {
    Card(c.name, c.birth_year, c.gender, NavigationTarget(c.url))
  }

  datatype ListBody = NoCharactersFound | Cards(cards: seq<Card>)

  /** The four screens: a full-page spinner, the error text, or the listing
      (search box, body, a spinner overlay while loading, pagination). */
  datatype ListView =
    | LoadingScreen
    | ErrorScreen(message: string)
    | Listing(body: ListBody, overlay: bool, pageCount: int, page: int)

  /** The render: spinner while loading with nothing to show, then an error,
      then "No characters found" for an empty list, otherwise one card per
      record in response order. */
  function SelectView(isLoading: bool, isError: bool, errorIsInstance: bool, data: QueryResult, page: int): (v: ListView)
    ensures v.LoadingScreen? <==> isLoading && |data.characters| == 0
    ensures v.ErrorScreen? <==> isError && errorIsInstance && !(isLoading && |data.characters| == 0)
    ensures v.ErrorScreen? ==> v.message == FetchErrorMessage
    ensures v.Listing? ==> v.overlay == isLoading && v.pageCount == data.totalPages && v.page == page
    ensures v.Listing? && v.body.NoCharactersFound? <==>
      !isLoading && !(isError && errorIsInstance) && |data.characters| == 0
    ensures v.Listing? && v.body.Cards? ==>
      |v.body.cards| == |data.characters| > 0 &&
      forall i :: 0 <= i < |data.characters| ==> v.body.cards[i] == CardFor(data.characters[i])
  {
    if isLoading && |data.characters| == 0 then LoadingScreen
    else if isError && errorIsInstance then ErrorScreen(FetchErrorMessage)
    else if |data.characters| == 0 then Listing(NoCharactersFound, isLoading, data.totalPages, page)
    else
      var cs := data.characters;
      Listing(Cards(seq(|cs|, i requires 0 <= i < |cs| => CardFor(cs[i]))), isLoading, data.totalPages, page)
  }

  /** A settled empty response (`count: 0, results: []`) shows the explicit
      empty state with no pages, not a blank screen and not an error. */
  lemma EmptyResponseShowsNoCharacters(response: CharacterResponse, page: int)
    requires response.count == 0 && response.results == []
    ensures SelectView(false, false, false, ToQueryResult(response), page)
         == Listing(NoCharactersFound, false, 0, page)
  {
  }

  /** The component's own state: the settled search text and the page. */
  class ListComponent {
    var search: string
    var page: int

    /** Pages are numbered from 1. */
    ghost predicate Valid()
      reads this
    {
      page >= 1
    }

    /** Mounting starts on page 1 with no search text. */
    constructor ()
      ensures Valid() && search == "" && page == 1
    {
      search := "";
      page := 1;
    }

    /** The debounced search callback, once the input has settled. */
    method SettleSearch(value: string)
      modifies this
      ensures Valid() && search == value && page == 1
    {
      search := value;
      page := 1;
    }

    /** `handlePageChange`: the pagination control offers only pages 1..count. */
    method HandlePageChange(value: int)
      requires value >= 1
      modifies this
      ensures Valid() && page == value && search == old(search)
    {
      page := value;
    }

    /** The key of the main query. */
    function Key(): QueryKey
      reads this
    {
      QueryKey(search, page)
    }

    /** The key the prefetch effect fetches, if any. */
    function PrefetchKey(data: Option<QueryResult>): Option<QueryKey>
      reads this
      requires Valid()
    {
      Prefetch(search, page, DataOrDefault(data).totalPages)
    }

    /** What is on screen for one state of the main query. */
    function View(isLoading: bool, isError: bool, errorIsInstance: bool, data: Option<QueryResult>): ListView
      reads this
    {
      SelectView(isLoading, isError, errorIsInstance, DataOrDefault(data), page)
    }
  }

  /** Mounting shows the spinner before any data has arrived. */
  method InitialRenderScenario() returns (v: ListView, r: Api.PeopleRequest)
    ensures v == LoadingScreen
    ensures r.page == 1 && r.search == ""
  {
    var list := new ListComponent();
    v := list.View(true, false, false, None);
    r := KeyRequest(list.Key());
  }

  /** A settled search for any value, made from page 3, fetches page 1 of
      that search. */
  method SearchScenario(value: string) returns (r: Api.PeopleRequest)
    ensures r.page == 1 && r.search == value
  {
    var list := new ListComponent();
    list.HandlePageChange(3);
    list.SettleSearch(value);
    r := KeyRequest(list.Key());
  }

  /** Clicking page 2 of 82 records fetches page 2 with the empty search,
      and prefetches page 3. */
  method PaginationScenario(results: seq<Character>) returns (r: Api.PeopleRequest, next: Option<QueryKey>)
    ensures r.page == 2 && r.search == ""
    ensures next == Some(QueryKey("", 3))
  {
    var list := new ListComponent();
    var data := ToQueryResult(CharacterResponse(82, None, None, results));
    assert data.totalPages == 9;
    list.HandlePageChange(2);
    r := KeyRequest(list.Key());
    next := list.PrefetchKey(Some(data));
  }

  /** No prefetch happens without data, or from the last page. */
  method NoPrefetchScenario(results: seq<Character>) returns (none: Option<QueryKey>, last: Option<QueryKey>)
    ensures none == None && last == None
  {
    var list := new ListComponent();
    none := list.PrefetchKey(None);
    list.HandlePageChange(9);
    last := list.PrefetchKey(Some(ToQueryResult(CharacterResponse(82, None, None, results))));
  }
}
