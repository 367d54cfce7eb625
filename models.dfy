/**
 The record shapes of the four tables (users, planets, characters, favorites)
 and their `serialize` methods. Column nullability is carried by the types:
 a column declared NOT NULL has a type without a null value.
 */
module Models {

  datatype Option<T> = None | Some(value: T)

  /** A JSON scalar as it arrives in a request body or leaves in a response.
      `Null` is both JSON null and SQL NULL. */
  datatype Json = Null | Str(s: string) | Num(n: int)

  /** The value of a column declared `nullable=False`. */
  type NonNull = j: Json | !j.Null? witness Str("")

  /** A JSON object: the dictionaries the handlers hand to `jsonify`. */
  type Object = map<string, Json>

  /** A row of `users`. Every column is NOT NULL; `email` is unique across
      the table (see UniqueEmails). The creation timestamp is kept opaque. */
  datatype User = User(userId: int, email: string, passwordHash: string,
                       username: string, creationDate: string)

  /** A row of `planets`: only `name` is NOT NULL. */
  datatype Planet = Planet(planetId: int, name: NonNull, climate: Json,
                           terrain: Json, population: Json)

  /** A row of `characters`: only `name` is NOT NULL. */
  datatype Character = Character(characterId: int, name: NonNull, species: Json,
                                 homeworld: Json, gender: Json)

  /** A row of `favorites` as the table is declared: `user_id` and
      `favorite_type` are NOT NULL, and each target table has its own
      nullable foreign key. (The handlers use a different shape; see
      module Favorites.) */
  datatype FavoriteColumns = FavoriteColumns(favoriteId: int, userId: int,
                                             planetId: Option<int>, characterId: Option<int>,
                                             favoriteType: string)

  /** The unique constraint on `users.email`. */
  ghost predicate UniqueEmails(users: map<int, User>)
  {
    forall a, b :: a in users && b in users && a != b ==> users[a].email != users[b].email
  }

  /** A nullable integer column as JSON. */
  function NullableInt(v: Option<int>): (j: Json)
    ensures j.Null? <==> v.None?
    ensures v.Some? ==> j == Num(v.value)
  {
    match v
    case None => Null
    case Some(n) => Num(n)
  }

  /** `Users.serialize`: the id, the email and the user name, and nothing else. */
  function SerializeUser(u: User): (o: Object)
    ensures o.Keys == {"id", "email", "username"}
    ensures "password_hash" !in o
    ensures o["id"] == Num(u.userId) && o["email"] == Str(u.email) && o["username"] == Str(u.username)
  {
    map["id" := Num(u.userId), "email" := Str(u.email), "username" := Str(u.username)]
  }

  /** What `Users.serialize` returns does not depend on the password hash
      (nor on the creation date): no change to either is observable. */
  lemma SerializeUserHidesSecrets(u: User, hash: string, date: string)
    ensures SerializeUser(u.(passwordHash := hash, creationDate := date)) == SerializeUser(u)
  {
  }

  /** `Planets.serialize`: `planet_id` under the key "id", the other columns
      under their own names. */
  function SerializePlanet(p: Planet): (o: Object)
    ensures o.Keys == {"id", "name", "climate", "terrain", "population"}
    ensures o["id"] == Num(p.planetId)
    ensures o["name"] == p.name && o["climate"] == p.climate
    ensures o["terrain"] == p.terrain && o["population"] == p.population
  {
    map["id" := Num(p.planetId), "name" := p.name, "climate" := p.climate,
        "terrain" := p.terrain, "population" := p.population]
  }

  /** `Characters.serialize`: `character_id` under the key "id", the other
      columns under their own names. */
  function SerializeCharacter(c: Character): (o: Object)
    ensures o.Keys == {"id", "name", "species", "homeworld", "gender"}
    ensures o["id"] == Num(c.characterId)
    ensures o["name"] == c.name && o["species"] == c.species
    ensures o["homeworld"] == c.homeworld && o["gender"] == c.gender
  {
    map["id" := Num(c.characterId), "name" := c.name, "species" := c.species,
        "homeworld" := c.homeworld, "gender" := c.gender]
  }

  /** `Favorites.serialize`: every declared column, with `favorite_id`
      under the key "id" and an absent foreign key as null. */
  function SerializeFavorite(f: FavoriteColumns): (o: Object)
    ensures o.Keys == {"id", "user_id", "planet_id", "character_id", "favorite_type"}
    ensures o["id"] == Num(f.favoriteId) && o["user_id"] == Num(f.userId)
    ensures o["planet_id"] == NullableInt(f.planetId)
    ensures o["character_id"] == NullableInt(f.characterId)
    ensures o["favorite_type"] == Str(f.favoriteType)
  {
    map["id" := Num(f.favoriteId), "user_id" := Num(f.userId),
        "planet_id" := NullableInt(f.planetId), "character_id" := NullableInt(f.characterId),
        "favorite_type" := Str(f.favoriteType)]
  }

  /** Serialisation loses nothing: two planets with the same JSON are the
      same planet. */
  lemma SerializePlanetInjective(p: Planet, q: Planet)
    requires SerializePlanet(p) == SerializePlanet(q)
    ensures p == q
  {
  }

  /** Serialisation loses nothing: two characters with the same JSON are the
      same character. */
  lemma SerializeCharacterInjective(c: Character, d: Character)
    requires SerializeCharacter(c) == SerializeCharacter(d)
    ensures c == d
  {
  }

  /** Serialisation loses nothing: two favorites with the same JSON are the
      same favorite. */
  lemma SerializeFavoriteInjective(f: FavoriteColumns, g: FavoriteColumns)
    requires SerializeFavorite(f) == SerializeFavorite(g)
    ensures f == g
  {
  }
}
