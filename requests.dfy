/**
 The request-level decisions of the character and planet handlers: the
 presence check on create, the null default of the optional column, the
 partial update that keeps absent columns, and the dictionaries the
 handlers return for a stored row.
 */
module Requests {
  import opened Models

  /** A parsed JSON request body: field name to value. A key mapped to
      `Null` is present (the client sent null); a missing key is absent. */
  type Request = map<string, Json>

  /** Python's `data.get(key, default)`. */
  function Get(data: Request, key: string, default: Json): (v: Json)
    ensures key in data ==> v == data[key]
    ensures key !in data ==> v == default
  {
    if key in data then data[key] else default
  }

  /** The descriptive columns of each entity, by the names the requests and
      the row dictionaries use. */
  const CharacterColumns: set<string> := {"name", "species", "homeworld", "gender"}
  const PlanetColumns: set<string> := {"name", "climate", "terrain", "population"}

  /** The presence check of `add_character`. */
  predicate HasCharacterFields(data: Request)
  {
    "name" in data && "species" in data && "homeworld" in data
  }

  /** The presence check of `add_planet`. */
  predicate HasPlanetFields(data: Request)
  {
    "name" in data && "climate" in data && "terrain" in data
  }

  /** The dictionary `get_character` and `get_all_characters` build for a row. */
  function CharacterRow(c: Character): (o: Object)
    ensures o.Keys == {"character_id"} + CharacterColumns
    ensures o["character_id"] == Num(c.characterId) && o["name"] == c.name
  {
    map["character_id" := Num(c.characterId), "name" := c.name, "species" := c.species,
        "homeworld" := c.homeworld, "gender" := c.gender]
  }

  /** The dictionary `get_planet` and `get_all_planets` build for a row. */
  function PlanetRow(p: Planet): (o: Object)
    ensures o.Keys == {"planet_id"} + PlanetColumns
    ensures o["planet_id"] == Num(p.planetId) && o["name"] == p.name
  {
    map["planet_id" := Num(p.planetId), "name" := p.name, "climate" := p.climate,
        "terrain" := p.terrain, "population" := p.population]
  }

  /** The dictionary `get_all_users` builds for a row: unlike `Users.serialize`
      it carries the creation date, and like it never the password hash. */
  function UserRow(u: User): (o: Object)
    ensures o.Keys == {"user_id", "email", "username", "user_creation_date"}
    ensures "password_hash" !in o
    ensures o["user_id"] == Num(u.userId) && o["email"] == Str(u.email)
    ensures o["username"] == Str(u.username) && o["user_creation_date"] == Str(u.creationDate)
  {
    map["user_id" := Num(u.userId), "email" := Str(u.email), "username" := Str(u.username),
        "user_creation_date" := Str(u.creationDate)]
  }

  /** The record `add_character` stores under a newly allocated id: every
      column is the request's value, and `gender` is null when absent. */
  function NewCharacter(id: int, data: Request): (c: Character)
    requires HasCharacterFields(data) && data["name"] != Null
    ensures c.characterId == id
    ensures forall k :: k in CharacterColumns ==> CharacterRow(c)[k] == Get(data, k, Null)
  {
    Character(id, data["name"], data["species"], data["homeworld"], Get(data, "gender", Null))
  }

  /** The record `add_planet` stores under a newly allocated id: every
      column is the request's value, and `population` is null when absent. */
  function NewPlanet(id: int, data: Request): (p: Planet)
    requires HasPlanetFields(data) && data["name"] != Null
    ensures p.planetId == id
    ensures forall k :: k in PlanetColumns ==> PlanetRow(p)[k] == Get(data, k, Null)
  {
    Planet(id, data["name"], data["climate"], data["terrain"], Get(data, "population", Null))
  }

  /** The state `update_character` commits: each column takes the request's
      value when its key is present and keeps its value otherwise; the id
      never changes. A request that sets `name` to null gives `None`: the
      NOT NULL constraint rejects the commit. */
  function PatchCharacter(c: Character, data: Request): (r: Option<Character>)
    ensures r.None? <==> "name" in data && data["name"] == Null
    ensures r.Some? ==> r.value.characterId == c.characterId
    ensures r.Some? ==> forall k :: k in CharacterColumns ==>
                          CharacterRow(r.value)[k] == Get(data, k, CharacterRow(c)[k])
  {
    var name := Get(data, "name", c.name);
    if name == Null then None
    else Some(Character(c.characterId, name, Get(data, "species", c.species),
                        Get(data, "homeworld", c.homeworld), Get(data, "gender", c.gender)))
  }

  /** The state `update_planet` commits; see PatchCharacter. */
  function PatchPlanet(p: Planet, data: Request): (r: Option<Planet>)
    ensures r.None? <==> "name" in data && data["name"] == Null
    ensures r.Some? ==> r.value.planetId == p.planetId
    ensures r.Some? ==> forall k :: k in PlanetColumns ==>
                          PlanetRow(r.value)[k] == Get(data, k, PlanetRow(p)[k])
  {
    var name := Get(data, "name", p.name);
    if name == Null then None
    else Some(Planet(p.planetId, name, Get(data, "climate", p.climate),
                     Get(data, "terrain", p.terrain), Get(data, "population", p.population)))
  }

  /** An update with an empty body leaves the character as it was. */
  lemma PatchCharacterEmpty(c: Character)
    ensures PatchCharacter(c, map[]) == Some(c)
  {
  }

  /** Repeating an update changes nothing more. */
  lemma PatchCharacterIdempotent(c: Character, data: Request)
    requires PatchCharacter(c, data).Some?
    ensures PatchCharacter(PatchCharacter(c, data).value, data) == PatchCharacter(c, data)
  {
  }

  /** An update with an empty body leaves the planet as it was. */
  lemma PatchPlanetEmpty(p: Planet)
    ensures PatchPlanet(p, map[]) == Some(p)
  {
  }

  /** Repeating an update changes nothing more. */
  lemma PatchPlanetIdempotent(p: Planet, data: Request)
    requires PatchPlanet(p, data).Some?
    ensures PatchPlanet(PatchPlanet(p, data).value, data) == PatchPlanet(p, data)
  {
  }

  /** The row the handlers return and `Characters.serialize` agree on every
      column; they differ only in the name of the id key. */
  lemma CharacterRowAgreesWithSerialize(c: Character)
    ensures CharacterRow(c)["character_id"] == SerializeCharacter(c)["id"]
    ensures forall k :: k in CharacterColumns ==> CharacterRow(c)[k] == SerializeCharacter(c)[k]
  {
  }

  /** The row the handlers return and `Planets.serialize` agree on every
      column; they differ only in the name of the id key. */
  lemma PlanetRowAgreesWithSerialize(p: Planet)
    ensures PlanetRow(p)["planet_id"] == SerializePlanet(p)["id"]
    ensures forall k :: k in PlanetColumns ==> PlanetRow(p)[k] == SerializePlanet(p)[k]
  {
  }

  /** Posting a serialised character to `add_character` recreates it, and
      putting it to `update_character` of any row makes that row equal to it
      except for the id. */
  lemma SerializedCharacterRecreates(c: Character, d: Character)
    ensures HasCharacterFields(SerializeCharacter(c))
    ensures NewCharacter(c.characterId, SerializeCharacter(c)) == c
    ensures PatchCharacter(d, SerializeCharacter(c)) == Some(c.(characterId := d.characterId))
  {
  }

  /** Posting a serialised planet to `add_planet` recreates it, and putting
      it to `update_planet` of any row makes that row equal to it except for
      the id. */
  lemma SerializedPlanetRecreates(p: Planet, q: Planet)
    ensures HasPlanetFields(SerializePlanet(p))
    ensures NewPlanet(p.planetId, SerializePlanet(p)) == p
    ensures PatchPlanet(q, SerializePlanet(p)) == Some(p.(planetId := q.planetId))
  {
  }
}
