/**
 Sequences of requests against one store, and what the handlers' contracts
 guarantee about them together.
 */
module Scenarios {
  import opened Models
  import opened Requests
  import opened Favorites
  import opened App

  /** POST /character, then GET /character/<the id in the response>: the
      row comes back with the request's columns and a null gender when the
      request had none. */
  method CreateThenGetCharacter(s: Store, data: Request) returns (created: int, fetched: int, row: Body)
    requires s.Valid() && HasCharacterFields(data) && data["name"] != Null
    modifies s
    ensures created == Created && fetched == OK
    ensures row.Obj? && row.fields.Keys == {"character_id"} + CharacterColumns
    ensures row.fields["name"] == data["name"]
    ensures forall k :: k in CharacterColumns ==> row.fields[k] == Get(data, k, Null)
  {
    var body;
    created, body := s.AddCharacter(data);
    var id := body.fields["character_id"].n;
    fetched, row := s.GetCharacter(id);
  }

  /** POST /planet, then GET /planet/<the id in the response>. */
  method CreateThenGetPlanet(s: Store, data: Request) returns (created: int, fetched: int, row: Body)
    requires s.Valid() && HasPlanetFields(data) && data["name"] != Null
    modifies s
    ensures created == Created && fetched == OK
    ensures row.Obj? && row.fields.Keys == {"planet_id"} + PlanetColumns
    ensures row.fields["name"] == data["name"]
    ensures forall k :: k in PlanetColumns ==> row.fields[k] == Get(data, k, Null)
  {
    var body;
    created, body := s.AddPlanet(data);
    var id := body.fields["planet_id"].n;
    fetched, row := s.GetPlanet(id);
  }

  /** PUT /character/<id>, then GET /character/<id>: present keys replaced,
      absent keys kept. */
  method UpdateThenGetCharacter(s: Store, id: int, data: Request) returns (updated: int, fetched: int, row: Body)
    requires s.Valid() && id in s.characters && !("name" in data && data["name"] == Null)
    modifies s
    ensures updated == OK && fetched == OK
    ensures row.Obj? && row.fields.Keys == {"character_id"} + CharacterColumns
    ensures row.fields["character_id"] == Num(id)
    ensures forall k :: k in CharacterColumns ==>
              row.fields[k] == Get(data, k, CharacterRow(old(s.characters)[id])[k])
  {
    var body;
    updated, body := s.UpdateCharacter(id, data);
    fetched, row := s.GetCharacter(id);
  }

  /** DELETE /character/<id>, then GET /character/<id>: 404. */
  method DeleteThenGetCharacter(s: Store, id: int) returns (deleted: int, fetched: int)
    requires s.Valid() && id in s.characters
    modifies s
    ensures deleted == OK && fetched == NotFound
  {
    var body;
    deleted, body := s.DeleteCharacter(id);
    fetched, body := s.GetCharacter(id);
  }

  /** DELETE /planet/<id>, then GET /planet/<id>: 404. */
  method DeleteThenGetPlanet(s: Store, id: int) returns (deleted: int, fetched: int)
    requires s.Valid() && id in s.planets
    modifies s
    ensures deleted == OK && fetched == NotFound
  {
    var body;
    deleted, body := s.DeletePlanet(id);
    fetched, body := s.GetPlanet(id);
  }

  /** POST then DELETE /favorite/planet/<id> for a planet the user had not
      favorited: the favorites table is as it was. */
  method FavoriteThenUnfavoritePlanet(s: Store, id: int) returns (added: int, removed: int)
    requires s.Valid() && id in s.planets
    requires FirstMatch(s.favorites, CurrentUser, PlanetType, id).None?
    modifies s
    ensures added == Created && removed == OK
    ensures s.favorites == old(s.favorites)
  {
    var body;
    ghost var before := s.favorites;
    added, body := s.AddFavoritePlanet(id);
    AddThenRemove(before, Favorite(old(s.nextFavoriteId), CurrentUser, PlanetType, id));
    removed, body := s.DeleteFavoritePlanet(id);
  }

  /** POST then DELETE /favorite/character/<id> for a character the user had
      not favorited: the favorites table is as it was. */
  method FavoriteThenUnfavoriteCharacter(s: Store, id: int) returns (added: int, removed: int)
    requires s.Valid() && id in s.characters
    requires FirstMatch(s.favorites, CurrentUser, CharacterType, id).None?
    modifies s
    ensures added == Created && removed == OK
    ensures s.favorites == old(s.favorites)
  {
    var body;
    ghost var before := s.favorites;
    added, body := s.AddFavoriteCharacter(id);
    AddThenRemove(before, Favorite(old(s.nextFavoriteId), CurrentUser, CharacterType, id));
    removed, body := s.DeleteFavoriteCharacter(id);
  }

  /** Deleting a planet does not delete the favorites that refer to it, so
      after POST /favorite/planet/<id> and DELETE /planet/<id> every
      GET /users/favorites fails. */
  method DeletingFavoritedPlanetBreaksListing(s: Store, id: int) returns (listed: int)
    requires s.Valid() && id in s.planets
    modifies s
    ensures listed == InternalError
  {
    var status, body := s.AddFavoritePlanet(id);
    var j := |s.favorites| - 1;
    status, body := s.DeletePlanet(id);
    assert s.favorites[j].userId == CurrentUser && EntryOf(s.favorites[j], s.planets, s.characters).Dangling?;
    ListingFailsIff(s.favorites, s.planets, s.characters);
    listed, body := s.GetUserFavorites();
  }
}
