/**
 The request handlers as methods of an in-memory store holding the four
 tables. Each method returns the HTTP status code and the response body;
 a committed change is an assignment to the store's fields, and a failed
 request (an unhandled exception, answered with status 500) changes nothing.
 */
module App {
  import opened Models
  import opened Requests
  import opened Favorites

  const OK: int := 200
  const Created: int := 201
  const BadRequest: int := 400
  const NotFound: int := 404
  const InternalError: int := 500

  /** A response body: a JSON object, a JSON array of objects, or the error
      page of a request that raised. */
  datatype Body = Obj(fields: Object) | Arr(items: seq<Object>) | Crash(reason: string)

  function Message(key: string, text: string): (o: Object)
    ensures o.Keys == {key} && o[key] == Str(text)
  {
    map[key := Str(text)]
  }

  /** `ids` lists every key of the table exactly once. */
  ghost predicate IsOrdering<R>(ids: seq<int>, table: map<int, R>)
  {
    (forall i :: 0 <= i < |ids| ==> ids[i] in table) &&
    (forall i, j :: 0 <= i < j < |ids| ==> ids[i] != ids[j]) &&
    (forall id :: id in table ==> id in ids)
  }

  /** `items` holds one entry per row of the table, the row as `view` shows
      it, in some order (the query has no ORDER BY). */
  ghost predicate Enumerates<R>(items: seq<Object>, table: map<int, R>, view: R -> Object)
  {
    exists ids :: IsOrdering(ids, table) && |ids| == |items| &&
                  forall i :: 0 <= i < |ids| ==> items[i] == view(table[ids[i]])
  }

  /** The loop of the `get_all_` handlers: `query.all()`, then one
      dictionary appended per row. */
  method Enumerate<R>(table: map<int, R>, view: R -> Object) returns (items: seq<Object>)
    ensures Enumerates(items, table, view)
  {
    var remaining := table.Keys;
    ghost var ids: seq<int> := [];
    items := [];
    while remaining != {}
      invariant remaining <= table.Keys
      invariant |ids| == |items|
      invariant forall i :: 0 <= i < |ids| ==> ids[i] in table && ids[i] !in remaining
      invariant forall i, j :: 0 <= i < j < |ids| ==> ids[i] != ids[j]
      invariant forall id :: id in table && id !in remaining ==> id in ids
      invariant forall i :: 0 <= i < |ids| ==> items[i] == view(table[ids[i]])
      decreases remaining
    {
      assert (forall k :: k !in remaining) ==> remaining == {};
      var key :| key in remaining;
      items := items + [view(table[key])];
      ids := ids + [key];
      remaining := remaining - {key};
    }
    assert IsOrdering(ids, table);
  }

  /** Every row sits under its own primary key, and every key is below the
      next id the table will allocate. */
  ghost predicate CharactersKeyed(t: map<int, Character>, next: int)
  {
    0 < next && forall id :: id in t ==> t[id].characterId == id && 0 < id < next
  }

  ghost predicate PlanetsKeyed(t: map<int, Planet>, next: int)
  {
    0 < next && forall id :: id in t ==> t[id].planetId == id && 0 < id < next
  }

  ghost predicate UsersKeyed(t: map<int, User>)
  {
    forall id :: id in t ==> t[id].userId == id
  }

  /** Favorite ids are distinct and below the next id to allocate. */
  ghost predicate FavoritesKeyed(s: seq<Favorite>, next: int)
  {
    0 < next &&
    (forall i :: 0 <= i < |s| ==> 0 < s[i].favoriteId < next) &&
    (forall i, j :: 0 <= i < j < |s| ==> s[i].favoriteId != s[j].favoriteId)
  }

  class Store {
    var users: map<int, User>
    var planets: map<int, Planet>
    var characters: map<int, Character>
    /** The favorites table in stored order. */
    var favorites: seq<Favorite>
    /** The next id each autoincrement primary key hands out. */
    var nextPlanetId: int
    var nextCharacterId: int
    var nextFavoriteId: int

    ghost predicate Valid()
      reads this
    {
      UsersKeyed(users) && UniqueEmails(users) &&
      PlanetsKeyed(planets, nextPlanetId) &&
      CharactersKeyed(characters, nextCharacterId) &&
      FavoritesKeyed(favorites, nextFavoriteId)
    }

    /** A database whose users table is given (no handler creates users)
        and whose other tables are empty. */
    constructor (users: map<int, User>)
      requires UsersKeyed(users) && UniqueEmails(users)
      ensures Valid()
      ensures this.users == users && planets == map[] && characters == map[] && favorites == []
    {
      this.users := users;
      planets, characters, favorites := map[], map[], [];
      nextPlanetId, nextCharacterId, nextFavoriteId := 1, 1, 1;
    }

    // ---- Characters ----

    /** [GET] /characters */
    method GetAllCharacters() returns (status: int, body: Body)
      requires Valid()
      ensures status == OK && body.Arr? && Enumerates(body.items, characters, CharacterRow)
    {
      var items := Enumerate(characters, CharacterRow);
      return OK, Arr(items);
    }

    /** [GET] /character/<id> */
    method GetCharacter(id: int) returns (status: int, body: Body)
      requires Valid()
      ensures id in characters ==> status == OK && body == Obj(CharacterRow(characters[id]))
      ensures id !in characters ==> status == NotFound && body == Obj(Message("message", "Character not found"))
    {
      if id !in characters {
        return NotFound, Obj(Message("message", "Character not found"));
      }
      var character := characters[id];
      return OK, Obj(CharacterRow(character));
    }

    /** [POST] /character */
    method AddCharacter(data: Request) returns (status: int, body: Body)
      requires Valid()
      modifies this`characters, this`nextCharacterId
      ensures Valid()
      ensures !HasCharacterFields(data) ==>
                status == BadRequest && body == Obj(Message("error", "Missing required fields"))
      ensures HasCharacterFields(data) && data["name"] == Null ==>
                status == InternalError && body.Crash?
      ensures status != Created ==>
                characters == old(characters) && nextCharacterId == old(nextCharacterId)
      ensures HasCharacterFields(data) && data["name"] != Null ==>
                var id := old(nextCharacterId);
                status == Created && id !in old(characters) &&
                characters == old(characters)[id := NewCharacter(id, data)] &&
                nextCharacterId == id + 1 &&
                body == Obj(map["message" := Str("Character added successfully"),
                                "character_id" := Num(id), "name" := data["name"]])
    {
      if !HasCharacterFields(data) {
        return BadRequest, Obj(Message("error", "Missing required fields"));
      }
      if data["name"] == Null {
        return InternalError, Crash("NOT NULL constraint failed: characters.name");
      }
      var id := nextCharacterId;
      var character := NewCharacter(id, data);
      characters := characters[id := character];
      nextCharacterId := nextCharacterId + 1;
      return Created, Obj(map["message" := Str("Character added successfully"),
                              "character_id" := Num(id), "name" := character.name]);
    }

    /** [PUT] /character/<id> */
    method UpdateCharacter(id: int, data: Request) returns (status: int, body: Body)
      requires Valid()
      modifies this`characters
      ensures Valid()
      ensures id !in old(characters) ==>
                status == NotFound && characters == old(characters) &&
                body == Obj(Message("error", "Character not found"))
      ensures id in old(characters) ==>
                var r := PatchCharacter(old(characters)[id], data);
                (r.None? ==> status == InternalError && characters == old(characters) && body.Crash?) &&
                (r.Some? ==> status == OK && characters == old(characters)[id := r.value] &&
                             body == Obj(map["message" := Str("Character updated successfully"),
                                             "character_id" := Num(id), "name" := r.value.name]))
    {
      if id !in characters {
        return NotFound, Obj(Message("error", "Character not found"));
      }
      var character := characters[id];
      var name := Get(data, "name", character.name);
      var species := Get(data, "species", character.species);
      var homeworld := Get(data, "homeworld", character.homeworld);
      var gender := Get(data, "gender", character.gender);
      if name == Null {
        return InternalError, Crash("NOT NULL constraint failed: characters.name");
      }
      character := character.(name := name, species := species, homeworld := homeworld, gender := gender);
      characters := characters[id := character];
      return OK, Obj(map["message" := Str("Character updated successfully"),
                         "character_id" := Num(id), "name" := character.name]);
    }

    /** [DELETE] /character/<id> */
    method DeleteCharacter(id: int) returns (status: int, body: Body)
      requires Valid()
      modifies this`characters
      ensures Valid()
      ensures id !in old(characters) ==>
                status == NotFound && characters == old(characters) &&
                body == Obj(Message("error", "Character not found"))
      ensures id in old(characters) ==>
                status == OK && characters == old(characters) - {id} &&
                body == Obj(map["message" := Str("Character deleted successfully"), "character_id" := Num(id)])
    {
      if id !in characters {
        return NotFound, Obj(Message("error", "Character not found"));
      }
      characters := characters - {id};
      return OK, Obj(map["message" := Str("Character deleted successfully"), "character_id" := Num(id)]);
    }

    // ---- Planets ----

    /** [GET] /planets */
    method GetAllPlanets() returns (status: int, body: Body)
      requires Valid()
      ensures status == OK && body.Arr? && Enumerates(body.items, planets, PlanetRow)
    {
      var items := Enumerate(planets, PlanetRow);
      return OK, Arr(items);
    }

    /** [GET] /planet/<id> */
    method GetPlanet(id: int) returns (status: int, body: Body)
      requires Valid()
      ensures id in planets ==> status == OK && body == Obj(PlanetRow(planets[id]))
      ensures id !in planets ==> status == NotFound && body == Obj(Message("message", "Planet not found"))
    {
      if id !in planets {
        return NotFound, Obj(Message("message", "Planet not found"));
      }
      var planet := planets[id];
      return OK, Obj(PlanetRow(planet));
    }

    /** [POST] /planet */
    method AddPlanet(data: Request) returns (status: int, body: Body)
      requires Valid()
      modifies this`planets, this`nextPlanetId
      ensures Valid()
      ensures !HasPlanetFields(data) ==>
                status == BadRequest && body == Obj(Message("error", "Missing required fields"))
      ensures HasPlanetFields(data) && data["name"] == Null ==>
                status == InternalError && body.Crash?
      ensures status != Created ==>
                planets == old(planets) && nextPlanetId == old(nextPlanetId)
      ensures HasPlanetFields(data) && data["name"] != Null ==>
                var id := old(nextPlanetId);
                status == Created && id !in old(planets) &&
                planets == old(planets)[id := NewPlanet(id, data)] &&
                nextPlanetId == id + 1 &&
                body == Obj(map["message" := Str("Planet added successfully"),
                                "planet_id" := Num(id), "name" := data["name"]])
    {
      if !HasPlanetFields(data) {
        return BadRequest, Obj(Message("error", "Missing required fields"));
      }
      if data["name"] == Null {
        return InternalError, Crash("NOT NULL constraint failed: planets.name");
      }
      var id := nextPlanetId;
      var planet := NewPlanet(id, data);
      planets := planets[id := planet];
      nextPlanetId := nextPlanetId + 1;
      return Created, Obj(map["message" := Str("Planet added successfully"),
                              "planet_id" := Num(id), "name" := planet.name]);
    }

    /** [PUT] /planet/<id> */
    method UpdatePlanet(id: int, data: Request) returns (status: int, body: Body)
      requires Valid()
      modifies this`planets
      ensures Valid()
      ensures id !in old(planets) ==>
                status == NotFound && planets == old(planets) &&
                body == Obj(Message("error", "Planet not found"))
      ensures id in old(planets) ==>
                var r := PatchPlanet(old(planets)[id], data);
                (r.None? ==> status == InternalError && planets == old(planets) && body.Crash?) &&
                (r.Some? ==> status == OK && planets == old(planets)[id := r.value] &&
                             body == Obj(map["message" := Str("Planet updated successfully"),
                                             "planet_id" := Num(id), "name" := r.value.name]))
    {
      if id !in planets {
        return NotFound, Obj(Message("error", "Planet not found"));
      }
      var planet := planets[id];
      var name := Get(data, "name", planet.name);
      var climate := Get(data, "climate", planet.climate);
      var terrain := Get(data, "terrain", planet.terrain);
      var population := Get(data, "population", planet.population);
      if name == Null {
        return InternalError, Crash("NOT NULL constraint failed: planets.name");
      }
      planet := planet.(name := name, climate := climate, terrain := terrain, population := population);
      planets := planets[id := planet];
      return OK, Obj(map["message" := Str("Planet updated successfully"),
                         "planet_id" := Num(id), "name" := planet.name]);
    }

    /** [DELETE] /planet/<id> */
    method DeletePlanet(id: int) returns (status: int, body: Body)
      requires Valid()
      modifies this`planets
      ensures Valid()
      ensures id !in old(planets) ==>
                status == NotFound && planets == old(planets) &&
                body == Obj(Message("error", "Planet not found"))
      ensures id in old(planets) ==>
                status == OK && planets == old(planets) - {id} &&
                body == Obj(map["message" := Str("Planet deleted successfully"), "planet_id" := Num(id)])
    {
      if id !in planets {
        return NotFound, Obj(Message("error", "Planet not found"));
      }
      planets := planets - {id};
      return OK, Obj(map["message" := Str("Planet deleted successfully"), "planet_id" := Num(id)]);
    }

    // ---- Users and favorites ----

    /** [GET] /users */
    method GetAllUsers() returns (status: int, body: Body)
      requires Valid()
      ensures status == OK && body.Arr? && Enumerates(body.items, users, UserRow)
    {
      var items := Enumerate(users, UserRow);
      return OK, Arr(items);
    }

    /** [GET] /users/favorites */
    method GetUserFavorites() returns (status: int, body: Body)
      requires Valid()
      ensures Listing(favorites, planets, characters).Some? ==>
                status == OK && body == Arr(Listing(favorites, planets, characters).value)
      ensures Listing(favorites, planets, characters).None? ==>
                status == InternalError && body.Crash?
    {
      var owned := OwnedBy(favorites, CurrentUser);
      var items: seq<Object> := [];
      var i := 0;
      while i < |owned|
        invariant 0 <= i <= |owned|
        invariant Views(owned[..i], planets, characters) == Some(items)
      {
        var favorite := owned[i];
        assert owned[..i + 1][..i] == owned[..i];
        if favorite.favoriteType == PlanetType {
          if favorite.ref !in planets {
            ViewsFailurePersists(owned, i + 1, planets, characters);
            return InternalError, Crash("'NoneType' object has no attribute 'planet_id'");
          }
          var planet := planets[favorite.ref];
          items := items + [PlanetFavoriteView(planet)];
        } else if favorite.favoriteType == CharacterType {
          if favorite.ref !in characters {
            ViewsFailurePersists(owned, i + 1, planets, characters);
            return InternalError, Crash("'NoneType' object has no attribute 'character_id'");
          }
          var character := characters[favorite.ref];
          items := items + [CharacterFavoriteView(character)];
        }
        i := i + 1;
      }
      assert owned[..i] == owned;
      return OK, Arr(items);
    }

    /** [POST] /favorite/planet/<id> */
    method AddFavoritePlanet(id: int) returns (status: int, body: Body)
      requires Valid()
      modifies this`favorites, this`nextFavoriteId
      ensures Valid()
      ensures id !in planets ==>
                status == NotFound && favorites == old(favorites) && nextFavoriteId == old(nextFavoriteId) &&
                body == Obj(Message("error", "Planet not found"))
      ensures id in planets ==>
                status == Created &&
                favorites == old(favorites) + [Favorite(old(nextFavoriteId), CurrentUser, PlanetType, id)] &&
                nextFavoriteId == old(nextFavoriteId) + 1 &&
                body == Obj(map["message" := Str("Planet added to favorites"),
                                "planet_id" := Num(id), "planet_name" := planets[id].name])
    {
      if id !in planets {
        return NotFound, Obj(Message("error", "Planet not found"));
      }
      var planet := planets[id];
      favorites := favorites + [Favorite(nextFavoriteId, CurrentUser, PlanetType, id)];
      nextFavoriteId := nextFavoriteId + 1;
      return Created, Obj(map["message" := Str("Planet added to favorites"),
                              "planet_id" := Num(id), "planet_name" := planet.name]);
    }

    /** [POST] /favorite/character/<id> */
    method AddFavoriteCharacter(id: int) returns (status: int, body: Body)
      requires Valid()
      modifies this`favorites, this`nextFavoriteId
      ensures Valid()
      ensures id !in characters ==>
                status == NotFound && favorites == old(favorites) && nextFavoriteId == old(nextFavoriteId) &&
                body == Obj(Message("error", "Character not found"))
      ensures id in characters ==>
                status == Created &&
                favorites == old(favorites) + [Favorite(old(nextFavoriteId), CurrentUser, CharacterType, id)] &&
                nextFavoriteId == old(nextFavoriteId) + 1 &&
                body == Obj(map["message" := Str("Character added to favorites"),
                                "character_id" := Num(id), "character_name" := characters[id].name])
    {
      if id !in characters {
        return NotFound, Obj(Message("error", "Character not found"));
      }
      var character := characters[id];
      favorites := favorites + [Favorite(nextFavoriteId, CurrentUser, CharacterType, id)];
      nextFavoriteId := nextFavoriteId + 1;
      return Created, Obj(map["message" := Str("Character added to favorites"),
                              "character_id" := Num(id), "character_name" := character.name]);
    }

    /** [DELETE] /favorite/planet/<id> */
    method DeleteFavoritePlanet(id: int) returns (status: int, body: Body)
      requires Valid()
      modifies this`favorites
      ensures Valid()
      ensures var k := FirstMatch(old(favorites), CurrentUser, PlanetType, id);
              (k.None? ==> status == NotFound && favorites == old(favorites) &&
                           body == Obj(Message("error", "Favorite planet not found"))) &&
              (k.Some? ==> status == OK && favorites == RemoveAt(old(favorites), k.value) &&
                           body == Obj(map["message" := Str("Planet removed from favorites"), "planet_id" := Num(id)]))
    {
      var k := FirstMatch(favorites, CurrentUser, PlanetType, id);
      if k.None? {
        return NotFound, Obj(Message("error", "Favorite planet not found"));
      }
      favorites := RemoveAt(favorites, k.value);
      return OK, Obj(map["message" := Str("Planet removed from favorites"), "planet_id" := Num(id)]);
    }

    /** [DELETE] /favorite/character/<id> */
    method DeleteFavoriteCharacter(id: int) returns (status: int, body: Body)
      requires Valid()
      modifies this`favorites
      ensures Valid()
      ensures var k := FirstMatch(old(favorites), CurrentUser, CharacterType, id);
              (k.None? ==> status == NotFound && favorites == old(favorites) &&
                           body == Obj(Message("error", "Favorite character not found"))) &&
              (k.Some? ==> status == OK && favorites == RemoveAt(old(favorites), k.value) &&
                           body == Obj(map["message" := Str("Character removed from favorites"), "character_id" := Num(id)]))
    {
      var k := FirstMatch(favorites, CurrentUser, CharacterType, id);
      if k.None? {
        return NotFound, Obj(Message("error", "Favorite character not found"));
      }
      favorites := RemoveAt(favorites, k.value);
      return OK, Obj(map["message" := Str("Character removed from favorites"), "character_id" := Num(id)]);
    }
  }
}
