/** The detail page: load one record, toggle an edit mode over a scratch
    copy, change its fields one at a time, save the scratch into local
    storage under `character_<id>`, or cancel. */
module CharacterDetail {
  import opened Records
  import WebStorage
  import LocalStorageService

  const LoadErrorMessage: string := "Failed to load character details."

  /** The seven text fields the edit form offers. */
  datatype Field = Name | Height | Mass | HairColor | SkinColor | EyeColor | BirthYear

  function FieldValue(c: Character, f: Field): string
  {
    match f
    case Name => c.name
    case Height => c.height
    case Mass => c.mass
    case HairColor => c.hair_color
    case SkinColor => c.skin_color
    case EyeColor => c.eye_color
    case BirthYear => c.birth_year
  }

  /** `{ ...editedChar, [field]: value }`: exactly one form field replaced. */
  function WithField(c: Character, f: Field, v: string): (r: Character)
    ensures FieldValue(r, f) == v
    ensures forall g :: g != f ==> FieldValue(r, g) == FieldValue(c, g)
    ensures r.gender == c.gender && r.homeworld == c.homeworld && r.url == c.url
    ensures r.films == c.films && r.species == c.species
    ensures r.vehicles == c.vehicles && r.starships == c.starships
    ensures r == c <==> FieldValue(c, f) == v
  {
    match f
    case Name => c.(name := v)
    case Height => c.(height := v)
    case Mass => c.(mass := v)
    case HairColor => c.(hair_color := v)
    case SkinColor => c.(skin_color := v)
    case EyeColor => c.(eye_color := v)
    case BirthYear => c.(birth_year := v)
  }

  /** What the remote fetch came back with: a response body (which may
      hold no record), or a rejection. */
  datatype FetchOutcome = Fetched(data: Option<Character>) | Failed

  /** The five screens, each with what it shows. The title above the form
      is the committed name, not the scratch one. */
  datatype DetailView =
    | Loading
    | ErrorText(message: string)
    | NotFound
    | EditForm(title: string, scratch: Character)
    | ReadOnly(shown: Character)

  /** A string state cell is truthy when set and non-empty. */
  predicate Truthy(s: Option<string>)
  {
    s.Some? && s.value != ""
  }

  /** The render: loading, then the error, then "Character not found", then
      the form only when editing with a scratch copy, else the read-only view. */
  function SelectView(loading: bool, error: Option<string>, character: Option<Character>,
                      editedChar: Option<Character>, isEditing: bool): (v: DetailView)
    ensures v.Loading? <==> loading
    ensures v.ErrorText? <==> !loading && Truthy(error)
    ensures v.ErrorText? ==> v.message == error.value
    ensures v.NotFound? <==> !loading && !Truthy(error) && character.None?
    ensures v.EditForm? <==> !loading && !Truthy(error) && character.Some? && isEditing && editedChar.Some?
    ensures v.EditForm? ==> v.title == character.value.name && v.scratch == editedChar.value
    ensures v.ReadOnly? ==> character == Some(v.shown) && !(isEditing && editedChar.Some?)
  {
    if loading then Loading
    else if Truthy(error) then ErrorText(error.value)
    else if character.None? then NotFound
    else if isEditing && editedChar.Some? then EditForm(character.value.name, editedChar.value)
    else ReadOnly(character.value)
  }

  class DetailComponent {
    /** The route parameter, absent when the route carries none. */
    const id: Option<string>
    /** The browser store the save writes into. */
    const storage: WebStorage.Storage

    var character: Option<Character>
    var editedChar: Option<Character>
    var loading: bool
    var error: Option<string>
    var isEditing: bool

    predicate HasId()
      reads this
    {
      Truthy(id)
    }

    /** Loading ends only through the load effect, which needs an id; the
        only error ever set is the load error, and a record, a scratch copy
        or an error exists only once loading has ended. */
    ghost predicate Valid()
      reads this
    {
      && (!loading ==> HasId())
      && (error.Some? ==> error.value == LoadErrorMessage)
      && (character.Some? || editedChar.Some? || error.Some? ==> !loading)
    }

    /** Mounting: still loading, nothing loaded, no error, not editing. */
    constructor (id: Option<string>, storage: WebStorage.Storage)
      ensures this.id == id && this.storage == storage
      ensures character == None && editedChar == None && loading && error == None && !isEditing
      ensures Valid()
    {
      this.id := id;
      this.storage := storage;
      character := None;
      editedChar := None;
      loading := true;
      error := None;
      isEditing := false;
    }

    /** The load effect, once the fetch has settled. Without an id it does
        nothing at all. */
    method LoadEffect(outcome: FetchOutcome)
      requires Valid()
      modifies this
      ensures Valid()
      ensures !HasId() ==>
        character == old(character) && error == old(error) && loading == old(loading)
      ensures HasId() ==> !loading
      ensures HasId() && outcome.Fetched? ==> character == outcome.data && error == old(error)
      ensures HasId() && outcome.Failed? ==> error == Some(LoadErrorMessage) && character == old(character)
      ensures editedChar == old(editedChar) && isEditing == old(isEditing)
    {
      if !HasId() {
        return;
      }
      loading := true;
      match outcome {
        case Fetched(data) => character := data;
        case Failed => error := Some(LoadErrorMessage);
      }
      loading := false;
    }

    /** `handleEditToggle`: entering edit mode with a record copies it into
        the scratch; leaving it only clears the flag. */
    method HandleEditToggle()
      requires Valid()
      modifies this
      ensures Valid()
      ensures isEditing == !old(isEditing)
      ensures editedChar == if !old(isEditing) && old(character).Some? then old(character) else old(editedChar)
      ensures character == old(character) && loading == old(loading) && error == old(error)
    {
      if !isEditing && character.Some? {
        editedChar := character;
      }
      isEditing := !isEditing;
    }

    /** One text field's `onChange`; the form, and so the handler, exists
        only while there is a scratch copy. */
    method HandleFieldChange(f: Field, value: string)
      requires Valid() && editedChar.Some?
      modifies this
      ensures Valid()
      ensures editedChar == Some(WithField(old(editedChar).value, f, value))
      ensures character == old(character) && loading == old(loading)
      ensures error == old(error) && isEditing == old(isEditing)
    {
      editedChar := Some(WithField(editedChar.value, f, value));
    }

    /** `handleSave`: with a scratch copy and an id, store the scratch under
        `character_<id>`, commit it and leave edit mode; otherwise nothing. */
    method HandleSave()
      requires Valid()
      modifies this, storage
      ensures Valid()
      ensures old(editedChar).Some? && HasId() ==>
        && storage.items == old(storage.items)[LocalStorageService.StorageKey(id.value) := old(editedChar).value]
        && LocalStorageService.GetCharacter(storage.items, id.value) == old(editedChar)
        && character == old(editedChar)
        && !isEditing
      ensures !(old(editedChar).Some? && HasId()) ==>
        storage.items == old(storage.items) && character == old(character) && isEditing == old(isEditing)
      ensures editedChar == old(editedChar) && loading == old(loading) && error == old(error)
    {
      if editedChar.Some? && HasId() {
        storage.SetItem("character_" + id.value, editedChar.value);
        character := editedChar;
        isEditing := false;
      }
    }

    /** `handleCancel`: drop the scratch and leave edit mode. */
    method HandleCancel()
      requires Valid()
      modifies this
      ensures Valid()
      ensures editedChar == None && !isEditing
      ensures character == old(character) && loading == old(loading) && error == old(error)
    {
      editedChar := None;
      isEditing := false;
    }

    /** What is on screen now. */
    function View(): DetailView
      reads this
    {
      SelectView(loading, error, character, editedChar, isEditing)
    }
  }

  /** Before the fetch settles the spinner is shown. */
  method InitialRenderScenario(storage: WebStorage.Storage) returns (v: DetailView)
    ensures v == Loading
  {
    var d := new DetailComponent(Some("1"), storage);
    v := d.View();
  }

  /** Without an id the load is skipped, so the spinner stays, whatever the
      service would have answered. */
  method MissingIdScenario(storage: WebStorage.Storage, outcome: FetchOutcome) returns (v: DetailView)
    ensures v == Loading
  {
    var d := new DetailComponent(None, storage);
    d.LoadEffect(outcome);
    v := d.View();
  }

  /** A loaded record is shown read-only. */
  method LoadedScenario(storage: WebStorage.Storage, luke: Character) returns (v: DetailView)
    ensures v == ReadOnly(luke)
  {
    var d := new DetailComponent(Some("1"), storage);
    d.LoadEffect(Fetched(Some(luke)));
    v := d.View();
  }

  /** A response without a record ends in "Character not found". */
  method NotFoundScenario(storage: WebStorage.Storage) returns (v: DetailView)
    ensures v == NotFound
  {
    var d := new DetailComponent(Some("1"), storage);
    d.LoadEffect(Fetched(None));
    v := d.View();
  }

  /** A rejected fetch shows exactly the load error text. */
  method LoadErrorScenario(storage: WebStorage.Storage) returns (v: DetailView)
    ensures v == ErrorText("Failed to load character details.")
  {
    var d := new DetailComponent(Some("1"), storage);
    d.LoadEffect(Failed);
    v := d.View();
  }

  /** Edit opens the form on an exact copy of the record. */
  method EditModeScenario(storage: WebStorage.Storage, luke: Character) returns (v: DetailView)
    ensures v == EditForm(luke.name, luke)
  {
    var d := new DetailComponent(Some("1"), storage);
    d.LoadEffect(Fetched(Some(luke)));
    d.HandleEditToggle();
    v := d.View();
  }

  /** Edit, change the height from 172 to 175, save: the view shows 175 and
      the store holds the edited record under `character_1`. */
  method EditSaveScenario(luke: Character) returns (v: DetailView, stored: Option<Character>)
    requires luke.height == "172"
    ensures v == ReadOnly(luke.(height := "175")) && v.shown.height == "175"
    ensures stored == Some(luke.(height := "175"))
  {
    var storage := new WebStorage.Storage();
    var d := new DetailComponent(Some("1"), storage);
    d.LoadEffect(Fetched(Some(luke)));
    d.HandleEditToggle();
    d.HandleFieldChange(Height, "175");
    d.HandleSave();
    v := d.View();
    stored := LocalStorageService.GetCharacter(storage.items, "1");
  }

  /** Edit, change the height, cancel: the view shows the original 172 and
      nothing was written to the store. */
  method EditCancelScenario(luke: Character) returns (v: DetailView, stored: Option<Character>)
    requires luke.height == "172"
    ensures v == ReadOnly(luke) && v.shown.height == "172"
    ensures stored == None
  {
    var storage := new WebStorage.Storage();
    var d := new DetailComponent(Some("1"), storage);
    d.LoadEffect(Fetched(Some(luke)));
    d.HandleEditToggle();
    d.HandleFieldChange(Height, "175");
    d.HandleCancel();
    v := d.View();
    stored := LocalStorageService.GetCharacter(storage.items, "1");
  }
}
