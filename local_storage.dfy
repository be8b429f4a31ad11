/** `LocalStorageService`: the second local edit scheme, keyed
    `character_<id>`, which is also the key the detail view saves under. */
module LocalStorageService {
  import opened Records
  import WebStorage
  import Api

  /** The key a record is saved under by this service. */
  function StorageKey(id: string): string
  {
    "character_" + id
  }

  /** Different ids never share a key. */
  lemma StorageKeyInjective(a: string, b: string)
    ensures StorageKey(a) == StorageKey(b) ==> a == b
  {
    if StorageKey(a) == StorageKey(b) {
      assert a == StorageKey(a)[10..];
      assert b == StorageKey(b)[10..];
    }
  }

  /** No `character_` key is ever a `character-` key: the two schemes
      differ in the tenth character. */
  lemma KeySchemesDisjoint(a: string, b: string)
    ensures StorageKey(a) != Api.LocalEditKey(b)
  {
    assert StorageKey(a)[9] == '_';
    assert Api.LocalEditKey(b)[9] == '-';
  }

  /** `getCharacter(id)`: the record saved for `id`, or null. */
  function GetCharacter(items: WebStorage.Items, id: string): (r: Option<Character>)
    ensures r.Some? <==> "character_" + id in items
    ensures r.Some? ==> r.value == items["character_" + id]
  {
    WebStorage.GetItem(items, StorageKey(id))
  }

  /** `saveCharacter(id, character)`. */
  method SaveCharacter(storage: WebStorage.Storage, id: string, character: Character)
    modifies storage
    ensures storage.items == old(storage.items)[StorageKey(id) := character]
    ensures GetCharacter(storage.items, id) == Some(character)
    ensures forall other :: other != id ==>
      GetCharacter(storage.items, other) == old(GetCharacter(storage.items, other))
    ensures forall any :: Api.GetLocalCharacter(storage.items, any) == old(Api.GetLocalCharacter(storage.items, any))
  {
    storage.SetItem(StorageKey(id), character);
    forall other | other != id
      ensures GetCharacter(storage.items, other) == old(GetCharacter(storage.items, other))
    {
      StorageKeyInjective(id, other);
    }
    forall any
      ensures Api.GetLocalCharacter(storage.items, any) == old(Api.GetLocalCharacter(storage.items, any))
    {
      KeySchemesDisjoint(id, any);
    }
  }

  /** Reading back what was just saved gives the saved record. */
  lemma RoundTrip(items: WebStorage.Items, id: string, character: Character)
    ensures GetCharacter(items[StorageKey(id) := character], id) == Some(character)
  {
  }

  /** Nothing is found for an id never saved. */
  lemma Missing(items: WebStorage.Items, id: string)
    requires forall other :: StorageKey(other) in items ==> other != id
    ensures GetCharacter(items, id) == None
  {
  }

  /** Saving for one id leaves every other id's lookup as it was. */
  lemma NonInterference(items: WebStorage.Items, a: string, b: string, character: Character)
    requires a != b
    ensures GetCharacter(items[StorageKey(a) := character], b) == GetCharacter(items, b)
  {
    StorageKeyInjective(a, b);
  }

  /** Of two saves for the same id the second wins, and the first leaves no trace. */
  lemma LastWriteWins(items: WebStorage.Items, id: string, first: Character, second: Character)
    ensures items[StorageKey(id) := first][StorageKey(id) := second]
         == items[StorageKey(id) := second]
    ensures GetCharacter(items[StorageKey(id) := first][StorageKey(id) := second], id) == Some(second)
  {
  }

  /** A save under this scheme never changes what `getLocalCharacter` sees. */
  lemma SaveKeepsLocalEdits(items: WebStorage.Items, id: string, character: Character, other: string)
    ensures Api.GetLocalCharacter(items[StorageKey(id) := character], other)
         == Api.GetLocalCharacter(items, other)
  {
    KeySchemesDisjoint(id, other);
  }

  /** And a save through `saveCharacterLocally` never changes what this
      service sees. */
  lemma LocalEditsKeepSaved(items: WebStorage.Items, id: string, character: Character, other: string)
    ensures GetCharacter(items[Api.LocalEditKey(id) := character], other) == GetCharacter(items, other)
  {
    KeySchemesDisjoint(other, id);
  }
}
