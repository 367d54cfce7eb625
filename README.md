# Star Wars REST API: request handlers over an in-memory entity store

This project models the request-handler layer of a small Flask REST API. The API
serves four tables: users, planets, characters and favorites. The handlers
become methods of a `Store` class. The class holds three tables as maps from
id to record (users, planets, characters) and the favorites table as a
sequence of rows in stored order.

Each handler method returns the HTTP status code and the response body.
A committed change is an assignment to the store's fields. A request that
raises an unhandled exception gets status 500 and changes nothing. The source
raises in more cases than these (see "## Left out"); two of the cases that
raise are modelled:

- a NOT NULL violation on `name`, when a create or update sends `"name": null`;
- a favorite whose target was deleted, when the favorites listing reaches it.

Modules, one per component:

- `Models` (`models.dfy`): the record shapes and their `serialize` methods.
  Nullability is carried by the types: `name` has the type `NonNull`, and the
  nullable columns have type `Json`, which includes `Null`.
- `Requests` (`requests.dfy`): decisions the character and planet handlers make
  on a request body. They cover the presence check on create, the null default
  of the optional column, the partial update, and the dictionaries returned
  for a row.
- `Favorites` (`favorites.dfy`): the favorites row as the handlers use it. It
  also holds the first-match lookup that unfavoriting deletes, and the
  specification of the current user's favorites listing.
- `App` (`app.dfy`): the `Store` class, one method per handler, and the loop
  shared by the list endpoints.
- `Scenarios` (`scenarios.dfy`): request sequences and what the handler
  contracts guarantee about them together (create then get, delete then get,
  favorite then unfavorite, deleting a favorited planet).

The favorites reference field is a mismatch in the source. The handlers read
and write a single column `favorite_id_ref`, whose table is named by
`favorite_type` (`"planet"` or `"character"`). The declared `Favorites` table
has no such column. It has `planet_id` and `character_id` instead. The model
keeps both shapes. `Favorites.Favorite` is the handlers' shape, and the whole
store uses it. `Models.FavoriteColumns` is the declared shape, used only by the
table's `serialize` method, `Models.SerializeFavorite`.

The current user is the constant `Favorites.CurrentUser` = 1, as hard-coded in
every favorites handler.

The code has no token authentication. It accepts duplicate favorites. A
favorite whose target is gone makes the listing fail rather than being
skipped. Deleting a planet or character does not delete its favorites. The
model does the same.

## Model

| member | source | states |
|---|---|---|
| Models.SerializeUser | src/models.py:17-23 | the user's JSON has exactly the keys id, email and username, with the row's values; there is no password_hash key |
| Models.SerializeUserHidesSecrets | src/models.py:17-23 | the user's JSON does not depend on the password hash or the creation date |
| Models.SerializePlanet | src/models.py:36-43 | the planet's JSON has planet_id under "id", and name, climate, terrain and population unchanged under their own keys |
| Models.SerializeCharacter | src/models.py:56-63 | the character's JSON has character_id under "id", and name, species, homeworld and gender unchanged under their own keys |
| Models.SerializeFavorite | src/models.py:80-87 | the favorite's JSON has the keys id, user_id, planet_id, character_id and favorite_type, with the row's values; an absent foreign key is null |
| Models.SerializePlanetInjective | src/models.py:36-43 | two planets with equal JSON are equal, so serialisation loses no column |
| Models.SerializeCharacterInjective | src/models.py:56-63 | two characters with equal JSON are equal |
| Models.SerializeFavoriteInjective | src/models.py:80-87 | two declared favorite rows with equal JSON are equal |
| Models.UniqueEmails | src/models.py:8 | no two users share an email, the unique constraint on `users.email` |
| Requests.Get | src/app.py:120-123 | Python's `data.get(key, default)`: the request's value when the key is present, the default otherwise |
| Requests.HasCharacterFields | src/app.py:88 | the create check of `add_character`: name, species and homeworld are all present |
| Requests.HasPlanetFields | src/app.py:203 | the create check of `add_planet`: name, climate and terrain are all present |
| Requests.CharacterRow | src/app.py:72-78 | the dictionary returned for a character has the key character_id and the four column keys, with the row's id and name |
| Requests.PlanetRow | src/app.py:187-193 | the dictionary returned for a planet has the key planet_id and the four column keys, with the row's id and name |
| Requests.UserRow | src/app.py:278-283 | the dictionary listed for a user has user_id, email, username and user_creation_date with the row's values, and never the password hash |
| Requests.NewCharacter | src/app.py:91-96 | the created character has the allocated id; each column equals the request's value; gender is null when the request has none |
| Requests.NewPlanet | src/app.py:206-211 | the created planet has the allocated id; each column equals the request's value; population is null when the request has none |
| Requests.PatchCharacter | src/app.py:120-125 | a present key replaces its column and an absent key keeps the old value; the id is unchanged; a null name fails (None) exactly when the request sets it |
| Requests.PatchPlanet | src/app.py:234-239 | a present key replaces its column and an absent key keeps the old value; the id is unchanged; a null name fails (None) exactly when the request sets it |
| Requests.PatchCharacterEmpty | src/app.py:120-123 | an update with an empty body leaves the character unchanged |
| Requests.PatchCharacterIdempotent | src/app.py:120-123 | applying the same update twice gives the same character as applying it once |
| Requests.PatchPlanetEmpty | src/app.py:234-237 | an update with an empty body leaves the planet unchanged |
| Requests.PatchPlanetIdempotent | src/app.py:234-237 | applying the same update twice gives the same planet as applying it once |
| Requests.CharacterRowAgreesWithSerialize | src/app.py:72-78 | the handlers' character dictionary and Characters.serialize agree on every column and on the id; only the id's key name differs |
| Requests.PlanetRowAgreesWithSerialize | src/app.py:187-193 | the handlers' planet dictionary and Planets.serialize agree on every column and on the id; only the id's key name differs |
| Requests.SerializedCharacterRecreates | src/app.py:88-96 | a serialised character passes the create check and recreates the same character; as an update body it makes any row equal to it except for the id |
| Requests.SerializedPlanetRecreates | src/app.py:203-211 | a serialised planet passes the create check and recreates the same planet; as an update body it makes any row equal to it except for the id |
| Favorites.Matches | src/app.py:369 | a row matches when its user, type tag and reference all equal the filter's |
| Favorites.FirstMatch | src/app.py:369 | the result is the earliest position whose row matches (user, type, ref); None exactly when no row matches |
| Favorites.RemoveAt | src/app.py:374-375 | deleting position k keeps every row before k and shifts every row after k down by one |
| Favorites.RemoveFirstMatch | src/app.py:369-375 | unfavoriting removes exactly one matching row; every non-matching row keeps its relative order |
| Favorites.AddThenRemove | src/app.py:328-375 | when the user had not favorited the target, favoriting then unfavoriting restores the table exactly |
| Favorites.AddThenRemoveCount | src/app.py:322-375 | favoriting then unfavoriting always restores the number of matching rows, duplicates included |
| Favorites.OwnedBy | src/app.py:294 | the listing query returns only rows of the given user |
| Favorites.OwnedByMembers | src/app.py:294 | a row is returned by the user query exactly when it is in the table and belongs to that user |
| Favorites.Listed | src/app.py:297-311 | the rows a listing shows all belong to the user and have type "planet" or "character" |
| Favorites.PlanetFavoriteView | src/app.py:300-304 | a favorited planet is listed with favorite_type "planet", its planet_id and its name |
| Favorites.CharacterFavoriteView | src/app.py:307-311 | a favorited character is listed with favorite_type "character", its character_id and its name |
| Favorites.KnownType | src/app.py:298-305 | the type tags the listing resolves are "planet" and "character"; any other row is skipped |
| Favorites.EntryOf | src/app.py:298-311 | a row of unknown type is skipped; a row whose planet or character is absent fails; both hold in both directions |
| Favorites.Views | src/app.py:297-311 | the listing loop over rows in order: a successful run has at most one entry per row; None when a row's target is gone |
| Favorites.Listing | src/app.py:294-313 | what `get_user_favorites` answers: the loop over the current user's rows; a successful listing has at most one entry per row of theirs |
| Favorites.ViewsFailurePersists | src/app.py:297-303 | once the listing loop meets a dangling reference, the whole listing fails |
| Favorites.ViewsFailIff | src/app.py:297-311 | the listing of a sequence of rows fails exactly when some row of known type has an absent target |
| Favorites.ListingShowsListed | src/app.py:294-313 | a successful listing has one entry per listed row (the user's rows of known type), in stored order, each the view of that row's target |
| Favorites.ListingStep | src/app.py:297-311 | one more row of the user's of a known type appends its target's entry; any other row leaves the listing as it was |
| Favorites.ListingFailsIff | src/app.py:294-313 | the current user's listing fails exactly when one of their rows of known type has an absent target; other users' rows never cause it |
| App.Enumerates | src/app.py:47-60 | the items are one view per row of the table, under an ordering that lists every id exactly once |
| App.Enumerate | src/app.py:47-60 | the list loop returns one entry per table row, each the row as the view shows it, every row exactly once, in some order |
| App.Store.Valid | src/models.py:7-67 | every row is stored under its own primary key (the user_id, planet_id, character_id and favorite_id keys at lines 7, 27, 47 and 67); planet, character and favorite ids are positive and below the next id to allocate; favorite ids are distinct; emails are unique (line 8) |
| App.Store.constructor | src/models.py:7-8 | a store whose users table is given (ids as keys, emails unique) and whose other tables are empty |
| App.Store.GetAllCharacters | src/app.py:45-60 | status 200 and one dictionary per stored character, each exactly once |
| App.Store.GetCharacter | src/app.py:64-80 | status 200 with the stored row when the id exists, otherwise 404 with "Character not found" |
| App.Store.AddCharacter | src/app.py:84-105 | 400 and no change when name, species or homeworld is missing; 500 and no change when name is null; otherwise 201, a fresh id is inserted with NewCharacter's record, and the response echoes the id and name |
| App.Store.UpdateCharacter | src/app.py:110-131 | 404 and no change when the id is absent; 500 and no change when the update sets name to null; otherwise 200 and only that row changes, to PatchCharacter's result |
| App.Store.DeleteCharacter | src/app.py:136-150 | 404 and no change when the id is absent; otherwise 200 and exactly that id leaves the table |
| App.Store.GetAllPlanets | src/app.py:160-174 | status 200 and one dictionary per stored planet, each exactly once |
| App.Store.GetPlanet | src/app.py:179-195 | status 200 with the stored row when the id exists, otherwise 404 with "Planet not found" |
| App.Store.AddPlanet | src/app.py:199-220 | 400 and no change when name, climate or terrain is missing; 500 and no change when name is null; otherwise 201, a fresh id is inserted with NewPlanet's record, and the response echoes the id and name |
| App.Store.UpdatePlanet | src/app.py:224-245 | 404 and no change when the id is absent; 500 and no change when the update sets name to null; otherwise 200 and only that row changes, to PatchPlanet's result |
| App.Store.DeletePlanet | src/app.py:250-264 | 404 and no change when the id is absent; otherwise 200 and exactly that id leaves the table |
| App.Store.GetAllUsers | src/app.py:273-284 | status 200 and one dictionary per stored user, each exactly once, none with the password hash |
| App.Store.GetUserFavorites | src/app.py:288-313 | status 200 with the Listing entries when no listed favorite dangles, otherwise 500 |
| App.Store.AddFavoritePlanet | src/app.py:317-338 | 404 and nothing added when the planet is absent; otherwise 201 and exactly one row (user 1, "planet", id) is appended under a fresh favorite id |
| App.Store.AddFavoriteCharacter | src/app.py:342-360 | 404 and nothing added when the character is absent; otherwise 201 and exactly one row (user 1, "character", id) is appended under a fresh favorite id |
| App.Store.DeleteFavoritePlanet | src/app.py:364-380 | 404 and no change when no row matches (user 1, "planet", id); otherwise 200 and the first matching row alone is removed |
| App.Store.DeleteFavoriteCharacter | src/app.py:385-401 | 404 and no change when no row matches (user 1, "character", id); otherwise 200 and the first matching row alone is removed |
| Scenarios.CreateThenGetCharacter | src/app.py:64-105 | after a successful create, getting the returned id gives 200 and the request's name, species, homeworld and gender (null if absent) |
| Scenarios.CreateThenGetPlanet | src/app.py:179-220 | after a successful create, getting the returned id gives 200 and the request's name, climate, terrain and population (null if absent) |
| Scenarios.UpdateThenGetCharacter | src/app.py:64-131 | after an update, getting the id shows present keys replaced and absent keys kept |
| Scenarios.DeleteThenGetCharacter | src/app.py:64-150 | after a successful delete, getting the same id gives 404 |
| Scenarios.DeleteThenGetPlanet | src/app.py:179-264 | after a successful delete, getting the same id gives 404 |
| Scenarios.FavoriteThenUnfavoritePlanet | src/app.py:317-380 | favoriting then unfavoriting a planet not yet favorited gives 201, then 200, and restores the favorites table |
| Scenarios.FavoriteThenUnfavoriteCharacter | src/app.py:342-401 | favoriting then unfavoriting a character not yet favorited gives 201, then 200, and restores the favorites table |
| Scenarios.DeletingFavoritedPlanetBreaksListing | src/app.py:250-313 | favoriting a planet and then deleting it makes the favorites listing fail with 500 |

"Nothing else changes" for the mutating handlers is stated by their
field-level `modifies` clauses. For example, `AddCharacter` may change only
`characters` and `nextCharacterId`, so the other tables stay as they were.

The NOT NULL columns (`users.*`, `planets.name`, `characters.name`,
`favorites.user_id`, `favorites.favorite_type`) are non-null by type. The
invariant `Store.Valid` states the rest:

- every row is stored under its own id;
- planet, character and favorite ids are positive and below the next id to allocate (users have no counter: no handler creates users);
- favorite ids are distinct;
- no two users share an email.

## Left out

- Flask application setup, database URL selection, migrations, CORS and the admin panel (src/app.py:13-26): configuration with no logic.
- The error handler and the sitemap (src/app.py:29-36): they call `utils` and `admin`, which are not part of this model.
- Server start-up (src/app.py:408-410) and the `__repr__` methods: output only.
- JSON parsing and `jsonify`. A request is a map from field name to a JSON scalar (null, string or integer). These cases are not modelled: a body that is not a JSON object (the handlers answer 400, 404 or 500 depending on the handler and the value), array, nested-object, boolean or non-integer number values, and how the database coerces a value of the wrong type into a column.
- String length limits of the columns, and the `TIMESTAMP` type. The creation date is an opaque string.
- Id allocation. Each table hands out ids from a counter that only grows, like a database sequence. SQLite may reuse the largest id after it is deleted. The contracts of AddCharacter, AddPlanet, AddFavoritePlanet and AddFavoriteCharacter fix the new id to the counter's value and advance the counter by one; only the Scenarios rely on nothing more than the new id being absent from the table.
- Result order of `query.all()` and of `filter_by(...).first()`. SQL leaves both unspecified without ORDER BY. The list endpoints promise every row exactly once in some order. The favorites listing (src/app.py:294) and the row the unfavorite handlers delete (src/app.py:369, 390, through `Favorites.FirstMatch`) follow the favorites table's stored order, which the database does not guarantee.
- The foreign key from `favorites.user_id` to `users`. The favorites handlers write user 1 whether or not that user exists. Whether the database rejects that depends on the engine, and the model does not check it.
- The declared favorites columns. Against the declared `Favorites` table (src/models.py:65-71), which lacks `favorite_id_ref`, every favorite add that gets past its planet or character lookup raises (src/app.py:328, 351); every unfavorite raises at its own lookup (src/app.py:369, 390), so its 404 is never reached; and so does every favorites listing that reaches a planet or character row (src/app.py:299, 306). The model follows the handlers' single-reference shape and does not capture those failures. With the declared columns, deleting a planet or character (src/app.py:144, 258) would also go through the backrefs at src/models.py:74-75, and SQLAlchemy's default cascade would set the referencing rows' `planet_id` or `character_id` to NULL. The model does not capture that either: in the handlers' shape a deleted target leaves its favorites unchanged.
- Token authentication, password hashing and token expiry: none of this exists in the code.
- Duplicate-favorite rejection and cascade deletion of favorites: the code does neither. Duplicates are accepted, and a deleted target leaves a dangling favorite (see Scenarios.DeletingFavoritedPlanetBreaksListing).
- SQLAlchemy session and transaction machinery. Each successful handler's changes are one atomic assignment, and a failed commit leaves the store as it was.
