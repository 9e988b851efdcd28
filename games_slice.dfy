/**
 * The games list slice: a list of games that starts out null, three reducers
 * that change it in place, and the three lifecycle reducers of `fetchAll`.
 * A reducer that reads the list while it is still null throws; here it
 * reports `false` and leaves the state as it was.
 */
module GamesSlice {
  import opened Wrappers

  datatype Game = Game(id: int, name: string, platforms: seq<string>)

  /** The payload of `add`: a game without an id. */
  datatype NewGame = NewGame(name: string, platforms: seq<string>)

  /** Ids strictly increase along the list. */
  ghost predicate IdsIncreasing(games: seq<Game>) {
    forall i, j :: 0 <= i < j < |games| ==> games[i].id < games[j].id
  }

  /** The id `add` gives: one past the last game's id, 1 for an empty list. */
  function NextId(games: seq<Game>): int {
    if |games| > 0 then games[|games| - 1].id + 1 else 1
  }

  /** The list with every game of the given id removed, the rest in order. */
  function Without(games: seq<Game>, id: int): (rest: seq<Game>)
    ensures |rest| <= |games|
    ensures forall k :: 0 <= k < |rest| ==> rest[k].id != id
    ensures forall g :: g in rest ==> g in games
  {
    if games == [] then []
    else if games[0].id == id then Without(games[1..], id)
    else [games[0]] + Without(games[1..], id)
  }

  /** The list with every game of the payload's id replaced by the payload. */
  function Replaced(games: seq<Game>, payload: Game): (updated: seq<Game>)
    ensures |updated| == |games|
  {
    seq(|games|, k requires 0 <= k < |games| => if games[k].id == payload.id then payload else games[k])
  }

  /** After `add`, ids still increase and the new id is new. */
  lemma AddKeepsIdsIncreasing(games: seq<Game>, payload: NewGame)
    requires IdsIncreasing(games)
    ensures forall k :: 0 <= k < |games| ==> games[k].id != NextId(games)
    ensures IdsIncreasing(games + [Game(NextId(games), payload.name, payload.platforms)])
  {
    var added := games + [Game(NextId(games), payload.name, payload.platforms)];
    forall i, j | 0 <= i < j < |added|
      ensures added[i].id < added[j].id
    {
      if j == |games| {
        assert added[i].id <= games[|games| - 1].id;
      }
    }
  }

  /** Removing keeps exactly the games of other ids, each as often as before. */
  lemma {:induction false} WithoutKeepsOthers(games: seq<Game>, id: int)
    ensures forall g: Game :: g.id != id ==> multiset(Without(games, id))[g] == multiset(games)[g]
    ensures forall g: Game :: g.id == id ==> multiset(Without(games, id))[g] == 0
  {
    if games != [] {
      WithoutKeepsOthers(games[1..], id);
      assert games == [games[0]] + games[1..];
    }
  }

  /** Removing from two lists joined is removing from each: the survivors keep their order. */
  lemma {:induction false} WithoutDistributes(front: seq<Game>, back: seq<Game>, id: int)
    ensures Without(front + back, id) == Without(front, id) + Without(back, id)
  {
    if front == [] {
      assert front + back == back;
    } else {
      assert (front + back)[1..] == front[1..] + back;
      WithoutDistributes(front[1..], back, id);
    }
  }

  /** Removing twice is removing once. */
  lemma {:induction false} WithoutIdempotent(games: seq<Game>, id: int)
    ensures Without(Without(games, id), id) == Without(games, id)
  {
    if games != [] {
      WithoutIdempotent(games[1..], id);
      if games[0].id != id {
        assert ([games[0]] + Without(games[1..], id))[1..] == Without(games[1..], id);
      }
    }
  }

  /** Removing an id no game has changes nothing. */
  lemma {:induction false} WithoutAbsent(games: seq<Game>, id: int)
    requires forall k :: 0 <= k < |games| ==> games[k].id != id
    ensures Without(games, id) == games
  {
    if games != [] {
      WithoutAbsent(games[1..], id);
      assert games == [games[0]] + games[1..];
    }
  }

  /** Removing keeps ids increasing. */
  lemma {:induction false} WithoutKeepsIdsIncreasing(games: seq<Game>, id: int)
    requires IdsIncreasing(games)
    ensures IdsIncreasing(Without(games, id))
  {
    if games != [] {
      assert IdsIncreasing(games[1..]);
      WithoutKeepsIdsIncreasing(games[1..], id);
      if games[0].id != id {
        var tail := Without(games[1..], id);
        forall k | 0 <= k < |tail|
          ensures games[0].id < tail[k].id
        {
          assert tail[k] in games[1..];
        }
      }
    }
  }

  /**
   * One pass of the `remove` loop at index `i`: splicing out a matching game,
   * or keeping any other, extends the removal by one place to the left.
   */
  lemma RemoveStep(before: seq<Game>, i: int, id: int)
    requires 0 <= i < |before|
    ensures var list := before[..i + 1] + Without(before[i + 1..], id);
      && list[i] == before[i]
      && (before[i].id == id ==> list[..i] + list[i + 1..] == before[..i] + Without(before[i..], id))
      && (before[i].id != id ==> list == before[..i] + Without(before[i..], id))
  {
    var list := before[..i + 1] + Without(before[i + 1..], id);
    assert before[i..][1..] == before[i + 1..];
    assert list[..i] == before[..i];
    assert list[i + 1..] == Without(before[i + 1..], id);
    assert before[..i + 1] == before[..i] + [before[i]];
  }

  /** Updating an id no game has changes nothing. */
  lemma ReplacedAbsent(games: seq<Game>, payload: Game)
    requires forall k :: 0 <= k < |games| ==> games[k].id != payload.id
    ensures Replaced(games, payload) == games
  {
  }

  /** Updating never changes the list of ids, so it keeps them increasing. */
  lemma ReplacedKeepsIds(games: seq<Game>, payload: Game)
    ensures forall k :: 0 <= k < |games| ==> Replaced(games, payload)[k].id == games[k].id
    ensures IdsIncreasing(games) ==> IdsIncreasing(Replaced(games, payload))
  {
  }

  /** The slice's state. */
  class GamesState {
    var values: Option<seq<Game>>
    var loading: bool
    var error: Option<string>

    /** The initial state: no list yet, not loading, no error. */
    constructor ()
      ensures values == None && !loading && error == None
    {
      values := None;
      loading := false;
      error := None;
    }

    /** The `getGames` selector. */
    function Games(): Option<seq<Game>>
      reads this
    {
      values
    }

    /** The `isLoading` selector. */
    function IsLoading(): bool
      reads this
    {
      loading
    }

    /** The `add` reducer: push a game with the next id. */
    method Add(payload: NewGame) returns (ok: bool)
      modifies this
      ensures ok <==> old(values).Some?
      ensures ok ==> values == Some(old(values).value + [Game(NextId(old(values).value), payload.name, payload.platforms)])
      ensures !ok ==> values == old(values)
      ensures loading == old(loading) && error == old(error)
    {
      if values.None? {
        return false;
      }
      var id := 1;
      if |values.value| > 0 {
        id := values.value[|values.value| - 1].id + 1;
      }
      var newGame := Game(id, payload.name, payload.platforms);
      values := Some(values.value + [newGame]);
      ok := true;
    }

    /** The `update` reducer: walk down the list, overwriting every game of the payload's id. */
    method Update(payload: Game) returns (ok: bool)
      modifies this
      ensures ok <==> old(values).Some?
      ensures ok ==> values == Some(Replaced(old(values).value, payload))
      ensures !ok ==> values == old(values)
      ensures loading == old(loading) && error == old(error)
    {
      if values.None? {
        return false;
      }
      ghost var before := values.value;
      var i := |values.value| - 1;
      while i >= 0
        invariant -1 <= i < |before|
        invariant values.Some? && |values.value| == |before|
        invariant forall k :: 0 <= k <= i ==> values.value[k] == before[k]
        invariant forall k :: i < k < |before| ==> values.value[k] == Replaced(before, payload)[k]
        invariant loading == old(loading) && error == old(error)
      {
        if values.value[i].id == payload.id {
          values := Some(values.value[i := payload]);
        }
        i := i - 1;
      }
      assert values.value == Replaced(before, payload);
      ok := true;
    }

    /** The `remove` reducer: walk down the list, splicing out every game of the id. */
    method Remove(id: int) returns (ok: bool)
      modifies this
      ensures ok <==> old(values).Some?
      ensures ok ==> values == Some(Without(old(values).value, id))
      ensures !ok ==> values == old(values)
      ensures loading == old(loading) && error == old(error)
    {
      if values.None? {
        return false;
      }
      ghost var before := values.value;
      var i := |values.value| - 1;
      assert before[..i + 1] + Without(before[i + 1..], id) == before;
      while i >= 0
        invariant -1 <= i < |before|
        invariant values == Some(before[..i + 1] + Without(before[i + 1..], id))
        invariant loading == old(loading) && error == old(error)
      {
        RemoveStep(before, i, id);
        if values.value[i].id == id {
          values := Some(values.value[..i] + values.value[i + 1..]);
        }
        i := i - 1;
      }
      assert before[..0] + Without(before[0..], id) == Without(before, id);
      ok := true;
    }

    /** `fetchAll` pending: only the loading flag is raised. */
    method Pending()
      modifies this
      ensures loading && values == old(values) && error == old(error)
    {
      loading := true;
    }

    /** `fetchAll` fulfilled: the fetched list becomes the list. */
    method Fulfilled(payload: seq<Game>)
      modifies this
      ensures !loading && values == Some(payload) && error == old(error)
    {
      loading := false;
      values := Some(payload);
    }

    /** `fetchAll` rejected: an empty list and an error. */
    method Rejected()
      modifies this
      ensures !loading && values == Some([]) && error == Some("Error")
    {
      loading := false;
      values := Some([]);
      error := Some("Error");
    }
  }
}
