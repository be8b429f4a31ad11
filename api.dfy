/** The service layer: the two remote requests (as the requests they
    issue; the HTTP transport itself is outside the model) and the local
    edit store keyed `character-<id>`. */
module Api {
  import opened Records
  import WebStorage

  const BaseUrl: string := "https://swapi.dev/api"

  /** A GET of the people listing with its two query parameters. */
  datatype PeopleRequest = PeopleRequest(url: string, page: int, search: string)

  /** `getCharacters(page = 1, search = '')`: an omitted argument takes its
      default; a given one is passed through unchanged. */
  function GetCharacters(page: Option<int>, search: Option<string>): (r: PeopleRequest)
    ensures r.url == BaseUrl + "/people/"
    ensures page.None? ==> r.page == 1
    ensures page.Some? ==> r.page == page.value
    ensures search.None? ==> r.search == ""
    ensures search.Some? ==> r.search == search.value
  {
    PeopleRequest(
      BaseUrl + "/people/",
      match page case Some(p) => p case None => 1,
      match search case Some(q) => q case None => "")
  }

  /** The URL `getCharacter(id)` fetches: the id sits between the people
      path and a closing slash. */
  function CharacterUrl(id: string): (url: string)
    ensures |url| == |BaseUrl + "/people/"| + |id| + 1
    ensures url[..|BaseUrl + "/people/"|] == BaseUrl + "/people/"
    ensures url[|BaseUrl + "/people/"|..|url| - 1] == id
    ensures url[|url| - 1] == '/'
  {
    BaseUrl + "/people/" + id + "/"
  }

  /** The key a local edit is saved under. */
  function LocalEditKey(id: string): string
  {
    "character-" + id
  }

  /** Different ids never share a local edit key. */
  lemma LocalEditKeyInjective(a: string, b: string)
    ensures LocalEditKey(a) == LocalEditKey(b) ==> a == b
  {
    if LocalEditKey(a) == LocalEditKey(b) {
      assert a == LocalEditKey(a)[10..];
      assert b == LocalEditKey(b)[10..];
    }
  }

  /** `getLocalCharacter(id)`: the record saved for `id`, or null. */
  function GetLocalCharacter(items: WebStorage.Items, id: string): (r: Option<Character>)
    ensures r.Some? <==> "character-" + id in items
    ensures r.Some? ==> r.value == items["character-" + id]
  {
    WebStorage.GetItem(items, LocalEditKey(id))
  }

  /** `saveCharacterLocally(id, character)`. */
  method SaveCharacterLocally(storage: WebStorage.Storage, id: string, character: Character)
    modifies storage
    ensures storage.items == old(storage.items)[LocalEditKey(id) := character]
    ensures GetLocalCharacter(storage.items, id) == Some(character)
    ensures forall other :: other != id ==>
      GetLocalCharacter(storage.items, other) == old(GetLocalCharacter(storage.items, other))
  {
    storage.SetItem(LocalEditKey(id), character);
    forall other | other != id
      ensures GetLocalCharacter(storage.items, other) == old(GetLocalCharacter(storage.items, other))
    {
      LocalEditKeyInjective(id, other);
    }
  }

  /** Reading back what was just saved gives the saved record. */
  lemma LocalRoundTrip(items: WebStorage.Items, id: string, character: Character)
    ensures GetLocalCharacter(items[LocalEditKey(id) := character], id) == Some(character)
  {
  }

  /** Nothing is found for an id never saved. */
  lemma LocalMissing(items: WebStorage.Items, id: string)
    requires forall other :: LocalEditKey(other) in items ==> other != id
    ensures GetLocalCharacter(items, id) == None
  {
  }

  /** Saving for one id leaves every other id's lookup as it was. */
  lemma LocalNonInterference(items: WebStorage.Items, a: string, b: string, character: Character)
    requires a != b
    ensures GetLocalCharacter(items[LocalEditKey(a) := character], b) == GetLocalCharacter(items, b)
  {
    LocalEditKeyInjective(a, b);
  }

  /** Of two saves for the same id the second wins, and the first leaves no trace. */
  lemma LocalLastWriteWins(items: WebStorage.Items, id: string, first: Character, second: Character)
    ensures items[LocalEditKey(id) := first][LocalEditKey(id) := second]
         == items[LocalEditKey(id) := second]
    ensures GetLocalCharacter(items[LocalEditKey(id) := first][LocalEditKey(id) := second], id) == Some(second)
  {
  }
}
