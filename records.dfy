/** The record shapes the remote character service returns. */
module Records {

  /** A value that may be absent (`null` or `undefined` on the JavaScript side). */
  datatype Option<T> = None | Some(value: T)

  /** One character record, field by field as the service delivers it.
      Every scalar field is a string, even height and mass. */
  datatype Character = Character(
    name: string,
    height: string,
    mass: string,
    hair_color: string,
    skin_color: string,
    eye_color: string,
    birth_year: string,
    gender: string,
    homeworld: string,
    films: seq<string>,
    species: seq<string>,
    vehicles: seq<string>,
    starships: seq<string>,
    url: string)

  /** One page of the paginated people listing. */
  datatype CharacterResponse = CharacterResponse(
    count: int,
    next: Option<string>,
    previous: Option<string>,
    results: seq<Character>)
}
