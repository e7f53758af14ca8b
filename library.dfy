/**
 * The game library and the favorites bar. The two JSON documents become the
 * sequences `games` and `favorites`; loading one is reading the field and saving
 * one is assigning it. Dialog answers (the chosen file, the pressed button, whether
 * an icon could be extracted, whether a path exists) are parameters.
 */
module Library {
  import opened Options

  /** A library or favorites record; `icon` is `None` when the record has no icon key. */
  datatype Game = Game(name: string, path: string, icon: Option<string>)

  /** `any(g['path'] == p for g in s)`. */
  predicate HasPath(s: seq<Game>, p: string) {
    exists i :: 0 <= i < |s| && s[i].path == p
  }

  /** No two records share a path. */
  predicate UniquePaths(s: seq<Game>) {
    forall i, j :: 0 <= i < j < |s| ==> s[i].path != s[j].path
  }

  /** The position of the first record with path `p`, as a `for ... break` search finds it. */
  function FirstWithPath(s: seq<Game>, p: string): (r: Option<nat>)
    ensures r.None? <==> !HasPath(s, p)
    ensures r.Some? ==> r.value < |s| && s[r.value].path == p
    ensures r.Some? ==> forall j :: 0 <= j < r.value ==> s[j].path != p
    decreases |s|
  {
    if s == [] then None
    else if s[0].path == p then Some(0)
    else
      match FirstWithPath(s[1..], p)
      case None =>
        assert forall i :: 1 <= i < |s| ==> s[i] == s[1..][i - 1];
        None
      case Some(k) =>
        assert forall j :: 1 <= j < k + 1 ==> s[j] == s[1..][j - 1];
        Some(k + 1)
  }

  /** `[g for g in s if g['path'] != p]`. */
  function WithoutPath(s: seq<Game>, p: string): (r: seq<Game>)
    ensures forall g :: g in r <==> g in s && g.path != p
    ensures |r| <= |s|
    decreases |s|
  {
    if s == [] then []
    else (if s[0].path != p then [s[0]] else []) + WithoutPath(s[1..], p)
  }

  /** Filtering keeps the original order: it distributes over concatenation. */
  lemma {:induction false} WithoutPathConcat(a: seq<Game>, b: seq<Game>, p: string)
    ensures WithoutPath(a + b, p) == WithoutPath(a, p) + WithoutPath(b, p)
    decreases |a|
  {
    if a == [] {
      assert a + b == b;
    } else {
      assert (a + b)[0] == a[0];
      assert (a + b)[1..] == a[1..] + b;
      WithoutPathConcat(a[1..], b, p);
    }
  }

  /** Every record with another path survives as often as it occurred; none with path `p` does. */
  lemma {:induction false} WithoutPathCounts(s: seq<Game>, p: string, g: Game)
    ensures multiset(WithoutPath(s, p))[g] == if g.path == p then 0 else multiset(s)[g]
    decreases |s|
  {
    if s != [] {
      WithoutPathCounts(s[1..], p, g);
      assert s == [s[0]] + s[1..];
    }
  }

  /** Removing a path that no record has changes nothing; removing twice is removing once. */
  lemma {:induction false} WithoutPathAbsent(s: seq<Game>, p: string)
    requires !HasPath(s, p)
    ensures WithoutPath(s, p) == s
    decreases |s|
  {
    if s != [] {
      assert s[0].path != p;
      assert !HasPath(s[1..], p) by {
        forall i | 0 <= i < |s[1..]| ensures s[1..][i].path != p {
          assert s[1..][i] == s[i + 1];
        }
      }
      WithoutPathAbsent(s[1..], p);
      assert s == [s[0]] + s[1..];
    }
  }

  lemma WithoutPathIdempotent(s: seq<Game>, p: string)
    ensures WithoutPath(WithoutPath(s, p), p) == WithoutPath(s, p)
  {
    var r := WithoutPath(s, p);
    assert !HasPath(r, p) by {
      forall i | 0 <= i < |r| ensures r[i].path != p {
        assert r[i] in r;
      }
    }
    WithoutPathAbsent(r, p);
  }

  lemma UniquePathsCons(g: Game, s: seq<Game>)
    ensures UniquePaths([g] + s) <==> UniquePaths(s) && forall h :: h in s ==> h.path != g.path
  {
    var t := [g] + s;
    assert forall i :: 0 <= i < |s| ==> t[i + 1] == s[i];
    if UniquePaths(t) {
      forall h | h in s ensures h.path != g.path {
        var i :| 0 <= i < |s| && s[i] == h;
        assert t[0] == g && t[i + 1] == h;
      }
    }
  }

  /** Filtering never introduces two records with one path. */
  lemma {:induction false} WithoutPathKeepsUnique(s: seq<Game>, p: string)
    requires UniquePaths(s)
    ensures UniquePaths(WithoutPath(s, p))
    decreases |s|
  {
    if s != [] {
      assert s == [s[0]] + s[1..];
      UniquePathsCons(s[0], s[1..]);
      WithoutPathKeepsUnique(s[1..], p);
      if s[0].path != p {
        UniquePathsCons(s[0], WithoutPath(s[1..], p));
      }
    }
  }

  /** The favorite record made from a library record: its icon defaults to "". */
  function FavoriteOf(g: Game): Game {
    Game(g.name, g.path, Some(g.icon.GetOr("")))
  }

  /** Favorites after `add_to_favorites`, given the path of the list's current item, if any. */
  function AddFavorite(games: seq<Game>, favs: seq<Game>, current: Option<string>): seq<Game> {
    match current
    case None => favs
    case Some(p) =>
      if HasPath(favs, p) then favs
      else
        match FirstWithPath(games, p)
        case None => favs
        case Some(k) => favs + [FavoriteOf(games[k])]
  }

  /**
   * Adding a favorite leaves the list alone exactly when there is no current item,
   * no game has its path, or a favorite already has it; otherwise it appends one
   * record, copied from the first game with that path, after the existing favorites.
   * It never makes two favorites share a path.
   */
  lemma AddFavoriteEffect(games: seq<Game>, favs: seq<Game>, current: Option<string>)
    ensures var r := AddFavorite(games, favs, current);
      && (r == favs <==> current.None? || !HasPath(games, current.value) || HasPath(favs, current.value))
      && favs <= r && |r| <= |favs| + 1
      && (r != favs ==>
            var k := FirstWithPath(games, current.value).value;
            && r == favs + [FavoriteOf(games[k])]
            && r[|favs|].name == games[k].name
            && r[|favs|].path == current.value
            && r[|favs|].icon == Some(games[k].icon.GetOr("")))
      && (UniquePaths(favs) ==> UniquePaths(r))
  {
    var r := AddFavorite(games, favs, current);
    if r != favs {
      var p := current.value;
      var k := FirstWithPath(games, p).value;
      assert r == favs + [FavoriteOf(games[k])];
      assert |r| == |favs| + 1;
      if UniquePaths(favs) {
        forall i, j | 0 <= i < j < |r| ensures r[i].path != r[j].path {
          if j == |favs| {
            assert r[i] == favs[i];
          }
        }
      }
    }
  }

  /** Adding the same item again does nothing more. */
  lemma AddFavoriteIdempotent(games: seq<Game>, favs: seq<Game>, current: Option<string>)
    ensures AddFavorite(games, AddFavorite(games, favs, current), current) == AddFavorite(games, favs, current)
  {
    var r := AddFavorite(games, favs, current);
    if r != favs {
      AddFavoriteEffect(games, favs, current);
      assert r[|favs|].path == current.value;
      assert HasPath(r, current.value);
    }
  }

  /**
   * Adding a game does not check for its path: after adding the same path twice,
   * the library holds two records with it, and deleting that path removes both.
   */
  lemma AddGameAllowsDuplicates(games: seq<Game>, g: Game, h: Game)
    requires g.path == h.path
    ensures var added := games + [g] + [h];
      && !UniquePaths(added)
      && WithoutPath(added, g.path) == WithoutPath(games, g.path)
  {
    var added := games + [g] + [h];
    assert added[|games|] == g && added[|games| + 1] == h;
    WithoutPathConcat(games + [g], [h], g.path);
    WithoutPathConcat(games, [g], g.path);
    assert WithoutPath([g], g.path) == [];
    assert WithoutPath([h], g.path) == [];
  }

  // ---------------------------------------------------------------------------
  // Launching
  // ---------------------------------------------------------------------------

  datatype LaunchOutcome =
    | NotFound(path: string)
    | Spawned(path: string)
    | SpawnFailed(path: string, message: string)

  /**
   * `launch_path`: a missing file is reported without any attempt to spawn;
   * otherwise the spawn either succeeds or reports the system's message.
   */
  function LaunchPath(path: string, pathExists: bool, spawnError: Option<string>): (r: LaunchOutcome)
    ensures r.path == path
    ensures r.NotFound? <==> !pathExists
    ensures r.Spawned? <==> pathExists && spawnError.None?
    ensures r.SpawnFailed? ==> spawnError == Some(r.message)
  {
    if !pathExists then NotFound(path)
    else
      match spawnError
      case None => Spawned(path)
      case Some(m) => SpawnFailed(path, m)
  }

  // ---------------------------------------------------------------------------
  // The launcher's list state
  // ---------------------------------------------------------------------------

  /** The buttons of the game list's context dialog; closing it counts as cancel. */
  datatype GameMenuChoice = AddToFavoritesChoice | DeleteGameChoice | CancelChoice

  /**
   * The stored library and favorites, the path of the list's current item, the
   * selected game's path and the record the details pane shows (`None` when cleared).
   */
  class Launcher {
    var games: seq<Game>
    var favorites: seq<Game>
    var currentItem: Option<string>
    var selectedGamePath: Option<string>
    var details: Option<Game>

    /** The details pane shows the selected game, and that game is in the library. */
    ghost predicate Valid()
      reads this
    {
      && (selectedGamePath.Some? <==> details.Some?)
      && (details.Some? ==> details.value.path == selectedGamePath.value && details.value in games)
    }

    constructor (storedGames: seq<Game>, storedFavorites: seq<Game>)
      ensures Valid()
      ensures games == storedGames && favorites == storedFavorites
      ensures currentItem == None && selectedGamePath == None && details == None
    {
      games := storedGames;
      favorites := storedFavorites;
      currentItem := None;
      selectedGamePath := None;
      details := None;
    }

    /**
     * `add_game`: an empty answer from the file dialog changes nothing; otherwise
     * the record is appended, with no check for the path, and the list is rebuilt,
     * which clears its current item.
     */
    method AddGame(chosenPath: string, name: string, iconPath: string, iconExtracted: bool)
      requires Valid()
      modifies this
      ensures Valid()
      ensures chosenPath == "" ==> unchanged(this)
      ensures chosenPath != "" ==>
        && games == old(games) + [Game(name, chosenPath, Some(if iconExtracted then iconPath else ""))]
        && currentItem == None
        && favorites == old(favorites) && selectedGamePath == old(selectedGamePath) && details == old(details)
    {
      if chosenPath != "" {
        var icon := iconPath;
        if !iconExtracted {
          icon := "";
        }
        games := games + [Game(name, chosenPath, Some(icon))];
        currentItem := None;
      }
    }

    /** `display_game_details`: the first record with the item's path is shown and selected. */
    method DisplayGameDetails(itemPath: string)
      requires Valid()
      modifies this
      ensures Valid()
      ensures games == old(games) && favorites == old(favorites) && currentItem == old(currentItem)
      ensures match FirstWithPath(old(games), itemPath)
        case None => selectedGamePath == old(selectedGamePath) && details == old(details)
        case Some(k) => selectedGamePath == Some(itemPath) && details == Some(old(games)[k])
    {
      var gs := games;
      var i := 0;
      while i < |gs|
        invariant 0 <= i <= |gs|
        invariant forall j :: 0 <= j < i ==> gs[j].path != itemPath
        invariant selectedGamePath == old(selectedGamePath) && details == old(details)
      {
        if gs[i].path == itemPath {
          details := Some(gs[i]);
          selectedGamePath := Some(gs[i].path);
          break;
        }
        i := i + 1;
      }
    }

    /** A click makes the item current and then shows its details. */
    method ClickItem(itemPath: string)
      requires Valid()
      modifies this
      ensures Valid()
      ensures games == old(games) && favorites == old(favorites) && currentItem == Some(itemPath)
      ensures match FirstWithPath(old(games), itemPath)
        case None => selectedGamePath == old(selectedGamePath) && details == old(details)
        case Some(k) => selectedGamePath == Some(itemPath) && details == Some(old(games)[k])
    {
      currentItem := Some(itemPath);
      DisplayGameDetails(itemPath);
    }

    /**
     * The delete branch of the game list's context dialog: every record with the
     * path goes, the list is rebuilt, and the details are cleared if that game was
     * the selected one.
     */
    method DeleteGame(gamePath: string)
      requires Valid()
      modifies this
      ensures Valid()
      ensures games == WithoutPath(old(games), gamePath)
      ensures favorites == old(favorites) && currentItem == None
      ensures old(selectedGamePath) == Some(gamePath) ==> selectedGamePath == None && details == None
      ensures old(selectedGamePath) != Some(gamePath) ==>
        selectedGamePath == old(selectedGamePath) && details == old(details)
    {
      games := WithoutPath(games, gamePath);
      currentItem := None;
      if selectedGamePath == Some(gamePath) {
        details := None;
        selectedGamePath := None;
      }
    }

    /**
     * `add_to_favorites`: with a current item, search the library for its path and
     * append a favorite for the first match unless a favorite already has the path.
     */
    method AddToFavorites()
      requires Valid()
      modifies this
      ensures Valid()
      ensures favorites == AddFavorite(old(games), old(favorites), old(currentItem))
      ensures games == old(games) && currentItem == old(currentItem)
      ensures selectedGamePath == old(selectedGamePath) && details == old(details)
    {
      if currentItem.Some? {
        var path := currentItem.value;
        var gs := games;
        var favs := favorites;
        var i := 0;
        while i < |gs|
          invariant 0 <= i <= |gs|
          invariant favs == favorites == old(favorites)
          invariant forall j :: 0 <= j < i ==> !(gs[j].path == path && !HasPath(favs, path))
          invariant games == old(games) && currentItem == old(currentItem)
          invariant selectedGamePath == old(selectedGamePath) && details == old(details)
        {
          if gs[i].path == path && !HasPath(favs, path) {
            favs := favs + [FavoriteOf(gs[i])];
            favorites := favs;
            break;
          }
          i := i + 1;
        }
      }
    }

    /** The game list's context dialog on the item under the pointer, if any. */
    method ShowGameContextMenu(item: Option<string>, choice: GameMenuChoice)
      requires Valid()
      modifies this
      ensures Valid()
      ensures item.None? || choice == CancelChoice ==> unchanged(this)
      ensures item.Some? && choice == AddToFavoritesChoice ==>
        && favorites == AddFavorite(old(games), old(favorites), item)
        && currentItem == item && games == old(games)
        && selectedGamePath == old(selectedGamePath) && details == old(details)
      ensures item.Some? && choice == DeleteGameChoice ==>
        && games == WithoutPath(old(games), item.value)
        && favorites == old(favorites) && currentItem == None
        && (old(selectedGamePath) == item ==> selectedGamePath == None && details == None)
        && (old(selectedGamePath) != item ==>
              selectedGamePath == old(selectedGamePath) && details == old(details))
    {
      if item.Some? {
        if choice == AddToFavoritesChoice {
          currentItem := item;
          AddToFavorites();
        } else if choice == DeleteGameChoice {
          DeleteGame(item.value);
        }
      }
    }

    /** The favorite button's context dialog: on confirmation, every favorite with the path goes. */
    method ShowFavContextMenu(fav: Game, confirmed: bool)
      requires Valid()
      modifies this
      ensures Valid()
      ensures favorites == if confirmed then WithoutPath(old(favorites), fav.path) else old(favorites)
      ensures games == old(games) && currentItem == old(currentItem)
      ensures selectedGamePath == old(selectedGamePath) && details == old(details)
    {
      if confirmed {
        favorites := WithoutPath(favorites, fav.path);
      }
    }

    /**
     * The play button: nothing happens unless a non-empty path is selected; then
     * that path is launched.
     */
    method PlaySelectedGame(pathExists: bool, spawnError: Option<string>) returns (outcome: Option<LaunchOutcome>)
      ensures outcome.None? <==> selectedGamePath.None? || selectedGamePath.value == ""
      ensures outcome.Some? ==> outcome.value.path == selectedGamePath.value
      ensures outcome.Some? ==> (outcome.value.NotFound? <==> !pathExists)
      ensures outcome.Some? ==> outcome.value == LaunchPath(selectedGamePath.value, pathExists, spawnError)
    {
      outcome := None;
      if selectedGamePath.Some? && selectedGamePath.value != "" {
        outcome := Some(LaunchPath(selectedGamePath.value, pathExists, spawnError));
      }
    }
  }
}
