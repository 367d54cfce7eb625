/**
 The favorites table as the handlers use it, and the specification of the
 three favorites operations: the first-match lookup that unfavoriting
 deletes, and the listing of the current user's favorites, which resolves
 each row to its planet or character by the type tag.
 */
module Favorites {
  import opened Models

  /** A favorites row as the handlers read and write it: a single reference
      id `ref` whose table is named by `favoriteType`. (The declared table,
      Models.FavoriteColumns, has one foreign key per target instead.) */
  datatype Favorite = Favorite(favoriteId: int, userId: int, favoriteType: string, ref: int)

  /** The user every favorites handler acts for. */
  const CurrentUser: int := 1

  /** The two type tags the handlers write and resolve. */
  const PlanetType: string := "planet"
  const CharacterType: string := "character"

  /** The filter `filter_by(user_id=user, favorite_type=kind, favorite_id_ref=ref)`. */
  predicate Matches(f: Favorite, user: int, kind: string, ref: int)
  {
    f.userId == user && f.favoriteType == kind && f.ref == ref
  }

  /** The position of `filter_by(...).first()`: the earliest row, in stored
      order, that matches; `None` when no row does. */
  function FirstMatch(s: seq<Favorite>, user: int, kind: string, ref: int): (r: Option<nat>)
    ensures r.Some? ==> r.value < |s| && Matches(s[r.value], user, kind, ref)
    ensures r.Some? ==> forall j :: 0 <= j < r.value ==> !Matches(s[j], user, kind, ref)
    ensures r.None? <==> forall j :: 0 <= j < |s| ==> !Matches(s[j], user, kind, ref)
  {
    if s == [] then None
    else if Matches(s[0], user, kind, ref) then Some(0)
    else match FirstMatch(s[1..], user, kind, ref)
      case None => None
      case Some(k) => Some(k + 1)
  }

  /** The table after `session.delete` of the row at position k. */
  function RemoveAt(s: seq<Favorite>, k: nat): (r: seq<Favorite>)
    requires k < |s|
    ensures |r| == |s| - 1
    ensures forall j :: 0 <= j < k ==> r[j] == s[j]
    ensures forall j :: k <= j < |r| ==> r[j] == s[j + 1]
  {
    s[..k] + s[k + 1..]
  }

  /** How many rows match. */
  function Count(s: seq<Favorite>, user: int, kind: string, ref: int): nat
  {
    if s == [] then 0
    else Count(s[..|s| - 1], user, kind, ref) + (if Matches(s[|s| - 1], user, kind, ref) then 1 else 0)
  }

  /** The rows that do not match, in stored order. */
  function Others(s: seq<Favorite>, user: int, kind: string, ref: int): seq<Favorite>
  {
    if s == [] then []
    else Others(s[..|s| - 1], user, kind, ref) + (if Matches(s[|s| - 1], user, kind, ref) then [] else [s[|s| - 1]])
  }

  lemma {:induction false} CountAppend(a: seq<Favorite>, b: seq<Favorite>, user: int, kind: string, ref: int)
    ensures Count(a + b, user, kind, ref) == Count(a, user, kind, ref) + Count(b, user, kind, ref)
    ensures Others(a + b, user, kind, ref) == Others(a, user, kind, ref) + Others(b, user, kind, ref)
    decreases |b|
  {
    if b == [] {
      assert a + b == a;
    } else {
      var b' := b[..|b| - 1];
      assert (a + b)[..|a + b| - 1] == a + b';
      CountAppend(a, b', user, kind, ref);
    }
  }

  lemma {:induction false} NoMatchCount(s: seq<Favorite>, user: int, kind: string, ref: int)
    requires forall j :: 0 <= j < |s| ==> !Matches(s[j], user, kind, ref)
    ensures Count(s, user, kind, ref) == 0
    ensures Others(s, user, kind, ref) == s
  {
    if s != [] {
      var init := s[..|s| - 1];
      NoMatchCount(init, user, kind, ref);
      assert s == init + [s[|s| - 1]];
    }
  }

  /** Unfavoriting deletes exactly one matching row and leaves every other
      row where it was, in order. */
  lemma {:induction false} RemoveFirstMatch(s: seq<Favorite>, user: int, kind: string, ref: int)
    requires FirstMatch(s, user, kind, ref).Some?
    ensures var r := RemoveAt(s, FirstMatch(s, user, kind, ref).value);
            Count(r, user, kind, ref) == Count(s, user, kind, ref) - 1 &&
            Others(r, user, kind, ref) == Others(s, user, kind, ref)
  {
    var k := FirstMatch(s, user, kind, ref).value;
    var pre, mid, post := s[..k], [s[k]], s[k + 1..];
    assert s == pre + (mid + post);
    assert RemoveAt(s, k) == pre + post;
    CountAppend(pre, mid + post, user, kind, ref);
    CountAppend(mid, post, user, kind, ref);
    CountAppend(pre, post, user, kind, ref);
    NoMatchCount(pre, user, kind, ref);
    assert mid[..0] == [];
    assert Count(mid, user, kind, ref) == 1 && Others(mid, user, kind, ref) == [];
    var r := RemoveAt(s, k);
    assert Count(r, user, kind, ref) == Count(post, user, kind, ref);
    assert Count(s, user, kind, ref) == 1 + Count(post, user, kind, ref);
    assert Others(r, user, kind, ref) == pre + Others(post, user, kind, ref);
    assert Others(s, user, kind, ref) == pre + ([] + Others(post, user, kind, ref));
    assert [] + Others(post, user, kind, ref) == Others(post, user, kind, ref);
  }

  /** Favoriting and then unfavoriting the same target restores the table
      when the user had not favorited it before. */
  lemma {:induction false} AddThenRemove(s: seq<Favorite>, f: Favorite)
    requires FirstMatch(s, f.userId, f.favoriteType, f.ref).None?
    ensures FirstMatch(s + [f], f.userId, f.favoriteType, f.ref) == Some(|s|)
    ensures RemoveAt(s + [f], |s|) == s
  {
    if s != [] {
      assert (s + [f])[1..] == s[1..] + [f];
      AddThenRemove(s[1..], f);
    }
    assert (s + [f])[..|s|] == s;
  }

  /** Favoriting and then unfavoriting the same target always leaves the
      number of the user's favorites of that target as it was; only the
      position of the remaining duplicates may change. */
  lemma {:induction false} AddThenRemoveCount(s: seq<Favorite>, f: Favorite)
    ensures FirstMatch(s + [f], f.userId, f.favoriteType, f.ref).Some?
    ensures var t := s + [f];
            Count(RemoveAt(t, FirstMatch(t, f.userId, f.favoriteType, f.ref).value), f.userId, f.favoriteType, f.ref)
            == Count(s, f.userId, f.favoriteType, f.ref)
  {
    var t := s + [f];
    assert Matches(t[|s|], f.userId, f.favoriteType, f.ref);
    RemoveFirstMatch(t, f.userId, f.favoriteType, f.ref);
    assert t[..|t| - 1] == s;
  }

  /** The rows of one user, in stored order: `filter_by(user_id=user).all()`. */
  function OwnedBy(s: seq<Favorite>, user: int): (r: seq<Favorite>)
    ensures forall j :: 0 <= j < |r| ==> r[j].userId == user
  {
    if s == [] then []
    else OwnedBy(s[..|s| - 1], user) + (if s[|s| - 1].userId == user then [s[|s| - 1]] else [])
  }

  /** The type tags the listing resolves; a row with any other tag is skipped. */
  predicate KnownType(f: Favorite)
  {
    f.favoriteType == PlanetType || f.favoriteType == CharacterType
  }

  /** The rows a listing shows for `user`: theirs, of a known type, in stored order. */
  function Listed(s: seq<Favorite>, user: int): (r: seq<Favorite>)
    ensures forall j :: 0 <= j < |r| ==> r[j].userId == user && KnownType(r[j])
  {
    if s == [] then []
    else Listed(s[..|s| - 1], user) + (if s[|s| - 1].userId == user && KnownType(s[|s| - 1]) then [s[|s| - 1]] else [])
  }

  /** The entry the listing appends for a favorited planet. */
  function PlanetFavoriteView(p: Planet): (o: Object)
    ensures o.Keys == {"favorite_type", "planet_id", "name"}
    ensures o["favorite_type"] == Str(PlanetType) && o["planet_id"] == Num(p.planetId) && o["name"] == p.name
  {
    map["favorite_type" := Str(PlanetType), "planet_id" := Num(p.planetId), "name" := p.name]
  }

  /** The entry the listing appends for a favorited character. */
  function CharacterFavoriteView(c: Character): (o: Object)
    ensures o.Keys == {"favorite_type", "character_id", "name"}
    ensures o["favorite_type"] == Str(CharacterType) && o["character_id"] == Num(c.characterId) && o["name"] == c.name
  {
    map["favorite_type" := Str(CharacterType), "character_id" := Num(c.characterId), "name" := c.name]
  }

  /** What the listing does with one row: skip a row of unknown type, fail
      on a reference whose target is gone, or show the target. */
  datatype Entry = Skipped | Dangling | Shown(view: Object)

  function EntryOf(f: Favorite, planets: map<int, Planet>, characters: map<int, Character>): (e: Entry)
    ensures e.Skipped? <==> !KnownType(f)
    ensures e.Dangling? <==> (f.favoriteType == PlanetType && f.ref !in planets) ||
                             (f.favoriteType == CharacterType && f.ref !in characters)
  {
    if f.favoriteType == PlanetType then
      if f.ref in planets then Shown(PlanetFavoriteView(planets[f.ref])) else Dangling
    else if f.favoriteType == CharacterType then
      if f.ref in characters then Shown(CharacterFavoriteView(characters[f.ref])) else Dangling
    else Skipped
  }

  /** The entries built for the rows of s, front to back; `None` when a
      row's target is gone (the handler fails on `None.planet_id`). */
  function Views(s: seq<Favorite>, planets: map<int, Planet>, characters: map<int, Character>): (r: Option<seq<Object>>)
    ensures r.Some? ==> |r.value| <= |s|
  {
    if s == [] then Some([])
    else match Views(s[..|s| - 1], planets, characters)
      case None => None
      case Some(vs) =>
        match EntryOf(s[|s| - 1], planets, characters)
        case Skipped => Some(vs)
        case Dangling => None
        case Shown(v) => Some(vs + [v])
  }

  /** What `get_user_favorites` answers for the table s. */
  function Listing(s: seq<Favorite>, planets: map<int, Planet>, characters: map<int, Character>): (r: Option<seq<Object>>)
    ensures r.Some? ==> |r.value| <= |OwnedBy(s, CurrentUser)|
  {
    Views(OwnedBy(s, CurrentUser), planets, characters)
  }

  /** A failure part-way through is a failure of the whole listing. */
  lemma {:induction false} ViewsFailurePersists(s: seq<Favorite>, k: nat, planets: map<int, Planet>, characters: map<int, Character>)
    requires k <= |s| && Views(s[..k], planets, characters).None?
    ensures Views(s, planets, characters).None?
    decreases |s| - k
  {
    if k < |s| {
      assert s[..k + 1][..k] == s[..k];
      ViewsFailurePersists(s, k + 1, planets, characters);
    } else {
      assert s[..k] == s;
    }
  }

  /** The listing of s fails exactly when some row of s has a known type and
      a target that is gone. */
  lemma {:induction false} ViewsFailIff(s: seq<Favorite>, planets: map<int, Planet>, characters: map<int, Character>)
    ensures Views(s, planets, characters).None? <==>
            exists j :: 0 <= j < |s| && EntryOf(s[j], planets, characters).Dangling?
  {
    if s != [] {
      var init := s[..|s| - 1];
      ViewsFailIff(init, planets, characters);
      if exists j :: 0 <= j < |init| && EntryOf(init[j], planets, characters).Dangling? {
        var j :| 0 <= j < |init| && EntryOf(init[j], planets, characters).Dangling?;
        assert s[j] == init[j];
      }
      if exists j :: 0 <= j < |s| && EntryOf(s[j], planets, characters).Dangling? {
        var j :| 0 <= j < |s| && EntryOf(s[j], planets, characters).Dangling?;
        if j < |init| { assert init[j] == s[j]; }
      }
    }
  }

  /** A successful listing shows the user's rows of a known type, each as
      the entry for its target, in stored order and nothing else. */
  lemma {:induction false} ListingShowsListed(s: seq<Favorite>, user: int, planets: map<int, Planet>, characters: map<int, Character>)
    requires Views(OwnedBy(s, user), planets, characters).Some?
    ensures var vs := Views(OwnedBy(s, user), planets, characters).value;
            |vs| == |Listed(s, user)| &&
            forall j :: 0 <= j < |vs| ==> EntryOf(Listed(s, user)[j], planets, characters) == Shown(vs[j])
  {
    if s != [] {
      ListingStep(s, user, planets, characters);
      ListingShowsListed(s[..|s| - 1], user, planets, characters);
    }
  }

  /** The last row of s either adds its target's entry to the listing (the
      user's row of a known type) or leaves the listing as it was. */
  lemma {:induction false} ListingStep(s: seq<Favorite>, user: int, planets: map<int, Planet>, characters: map<int, Character>)
    requires s != [] && Views(OwnedBy(s, user), planets, characters).Some?
    ensures var init, f := s[..|s| - 1], s[|s| - 1];
            Views(OwnedBy(init, user), planets, characters).Some? &&
            if f.userId == user && KnownType(f) then
              EntryOf(f, planets, characters).Shown? &&
              Listed(s, user) == Listed(init, user) + [f] &&
              Views(OwnedBy(s, user), planets, characters).value ==
                Views(OwnedBy(init, user), planets, characters).value + [EntryOf(f, planets, characters).view]
            else
              Listed(s, user) == Listed(init, user) &&
              Views(OwnedBy(s, user), planets, characters) == Views(OwnedBy(init, user), planets, characters)
  {
    var init, f := s[..|s| - 1], s[|s| - 1];
    var o := OwnedBy(init, user);
    if f.userId == user {
      assert OwnedBy(s, user) == o + [f];
      ViewsSnoc(o, f, planets, characters);
    } else {
      assert OwnedBy(s, user) == o;
    }
  }

  /** One more row either leaves the entries as they were (unknown type),
      appends the row's entry, or fails the listing. */
  lemma {:induction false} ViewsSnoc(o: seq<Favorite>, f: Favorite, planets: map<int, Planet>, characters: map<int, Character>)
    requires Views(o + [f], planets, characters).Some?
    ensures Views(o, planets, characters).Some?
    ensures !EntryOf(f, planets, characters).Dangling?
    ensures EntryOf(f, planets, characters).Skipped? ==> Views(o + [f], planets, characters) == Views(o, planets, characters)
    ensures EntryOf(f, planets, characters).Shown? ==>
              Views(o + [f], planets, characters) == Some(Views(o, planets, characters).value + [EntryOf(f, planets, characters).view])
  {
    assert (o + [f])[..|o|] == o;
  }

  /** The listing of the current user fails exactly when one of their rows
      of a known type refers to a target that is gone; other users' rows
      never make it fail. */
  lemma {:induction false} ListingFailsIff(s: seq<Favorite>, planets: map<int, Planet>, characters: map<int, Character>)
    ensures Listing(s, planets, characters).None? <==>
            exists j :: 0 <= j < |s| && s[j].userId == CurrentUser && EntryOf(s[j], planets, characters).Dangling?
  {
    var o := OwnedBy(s, CurrentUser);
    ViewsFailIff(o, planets, characters);
    OwnedByMembers(s, CurrentUser);
    if exists j :: 0 <= j < |o| && EntryOf(o[j], planets, characters).Dangling? {
      var j :| 0 <= j < |o| && EntryOf(o[j], planets, characters).Dangling?;
      assert o[j] in o;
      var i :| 0 <= i < |s| && s[i] == o[j];
    }
    if exists i :: 0 <= i < |s| && s[i].userId == CurrentUser && EntryOf(s[i], planets, characters).Dangling? {
      var i :| 0 <= i < |s| && s[i].userId == CurrentUser && EntryOf(s[i], planets, characters).Dangling?;
      assert s[i] in s;
      var j :| 0 <= j < |o| && o[j] == s[i];
    }
  }

  /** A row is among the user's rows exactly when it is in the table and
      belongs to the user. */
  lemma {:induction false} OwnedByMembers(s: seq<Favorite>, user: int)
    ensures forall f :: f in OwnedBy(s, user) <==> f in s && f.userId == user
  {
    if s != [] {
      var init := s[..|s| - 1];
      OwnedByMembers(init, user);
      assert s == init + [s[|s| - 1]];
    }
  }
}
