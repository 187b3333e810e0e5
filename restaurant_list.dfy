/** The restaurant list of the client: the favourites the user marks, the
    search and cuisine filter, and the cuisine options offered. */
module RestaurantList {
  import opened Common
  import opened Store
  import opened Records

  // ----- favourites -----

  /** The set `toggleFavorite(id)` installs: `id` removed if present, added otherwise. */
  function Toggled(favorites: set<string>, id: string): set<string> {
    if id in favorites then favorites - {id} else favorites + {id}
  }

  /** Toggling flips the membership of exactly that id, so toggling twice changes nothing. */
  lemma ToggleFlips(favorites: set<string>, id: string, other: string)
    requires other != id
    ensures id in Toggled(favorites, id) <==> id !in favorites
    ensures other in Toggled(favorites, id) <==> other in favorites
    ensures Toggled(Toggled(favorites, id), id) == favorites
  {
  }

  /** The favourites state of the list. */
  class Favorites {
    var favorites: set<string>

    constructor ()
      ensures favorites == {}
    {
      favorites := {};
    }

    /** `toggleFavorite(id)`: copies the set, adds or deletes `id`, installs the copy. */
    method ToggleFavorite(id: string)
      modifies this
      ensures favorites == Toggled(old(favorites), id)
    {
      var next := favorites;
      if id in next {
        next := next - {id};
      } else {
        next := next + {id};
      }
      favorites := next;
    }
  }

  // ----- search -----

  /** `toLowerCase` on ASCII letters; every other character is kept. */
  function LowerChar(c: char): (l: char)
    ensures 'A' <= c <= 'Z' ==> 'a' <= l <= 'z' && l as int == c as int + ('a' as int - 'A' as int)
    ensures !('A' <= c <= 'Z') ==> l == c
  {
    if 'A' <= c <= 'Z' then (c as int + 32) as char else c
  }

  function Lower(s: string): (r: string)
    ensures |r| == |s|
    ensures forall i :: 0 <= i < |s| ==> r[i] == LowerChar(s[i])
  {
    seq(|s|, i requires 0 <= i < |s| => LowerChar(s[i]))
  }

  /** `s.includes(t)`: `t` starts at the front of `s` or somewhere further on. */
  predicate HasSubstring(s: string, t: string)
    decreases |s|
  {
    t <= s || (s != [] && HasSubstring(s[1..], t))
  }

  /** `t` occurs in `s` starting at position `i`. */
  predicate OccursAt(s: string, t: string, i: int) {
    0 <= i <= |s| - |t| && s[i..i + |t|] == t
  }

  /** `includes` means: `t` occurs at some position of `s`. */
  lemma {:induction false} HasSubstringAt(s: string, t: string)
    ensures HasSubstring(s, t) <==> exists i :: OccursAt(s, t, i)
    decreases |s|
  {
    if t <= s {
      assert OccursAt(s, t, 0);
    } else if s == [] {
    } else {
      HasSubstringAt(s[1..], t);
      if HasSubstring(s[1..], t) {
        var i :| OccursAt(s[1..], t, i);
        assert s[i + 1..i + 1 + |t|] == s[1..][i..i + |t|];
        assert OccursAt(s, t, i + 1);
      }
      if exists i :: OccursAt(s, t, i) {
        var i :| OccursAt(s, t, i);
        assert i != 0;
        assert s[1..][i - 1..i - 1 + |t|] == s[i..i + |t|];
        assert OccursAt(s[1..], t, i - 1);
      }
    }
  }

  /** The test `filteredRestaurants` applies to one restaurant. */
  predicate Matches(searchTerm: string, selectedCuisine: string, r: Restaurant) {
    && (HasSubstring(Lower(r.name), Lower(searchTerm)) || HasSubstring(Lower(r.cuisine), Lower(searchTerm)))
    && (selectedCuisine == "all" || r.cuisine == selectedCuisine)
  }

  function Matching(searchTerm: string, selectedCuisine: string): Doc<Restaurant> -> bool {
    (d: Doc<Restaurant>) => Matches(searchTerm, selectedCuisine, d.data)
  }

  /** `filteredRestaurants`. */
  function Filtered(restaurants: Collection<Restaurant>, searchTerm: string, selectedCuisine: string)
    : Collection<Restaurant>
  {
    Filter(restaurants, Matching(searchTerm, selectedCuisine))
  }

  /** The filtered list keeps exactly the matching restaurants, in the fetched order. */
  lemma FilteredMembers(restaurants: Collection<Restaurant>, searchTerm: string, selectedCuisine: string)
    ensures IsSubsequence(Filtered(restaurants, searchTerm, selectedCuisine), restaurants)
    ensures forall d :: d in Filtered(restaurants, searchTerm, selectedCuisine) <==>
              d in restaurants && Matches(searchTerm, selectedCuisine, d.data)
  {
    FilterIsSubsequence(restaurants, Matching(searchTerm, selectedCuisine));
    forall d ensures d in Filtered(restaurants, searchTerm, selectedCuisine) <==>
                     d in restaurants && Matches(searchTerm, selectedCuisine, d.data) {
      FilterMembers(restaurants, Matching(searchTerm, selectedCuisine), d);
    }
  }

  /** With an empty search and `all` selected, every restaurant is shown. */
  lemma NoFilterKeepsAll(restaurants: Collection<Restaurant>)
    ensures Filtered(restaurants, "", "all") == restaurants
  {
    forall i | 0 <= i < |restaurants| ensures Matching("", "all")(restaurants[i]) {
      assert Lower("") == [];
      assert [] <= Lower(restaurants[i].data.name);
    }
    FilterKeepsAll(restaurants, Matching("", "all"));
  }

  /** Choosing a specific cuisine only narrows what `all` shows for the same search. */
  lemma CuisineNarrows(restaurants: Collection<Restaurant>, searchTerm: string, selectedCuisine: string)
    ensures IsSubsequence(Filtered(restaurants, searchTerm, selectedCuisine), Filtered(restaurants, searchTerm, "all"))
  {
    FilterNarrows(restaurants, Matching(searchTerm, selectedCuisine), Matching(searchTerm, "all"));
  }

  // ----- cuisine options -----

  /** `[...new Set(s)]`: each value once, at the place it first appears. */
  function Distinct(s: seq<string>): (r: seq<string>)
    ensures forall i, j :: 0 <= i < j < |r| ==> r[i] != r[j]
    ensures forall x :: x in r <==> x in s
  {
    if s == [] then []
    else
      var d := Distinct(s[..|s| - 1]);
      assert forall x :: x in s <==> x in s[..|s| - 1] || x == s[|s| - 1] by {
        assert s == s[..|s| - 1] + [s[|s| - 1]];
      }
      if s[|s| - 1] in d then d else d + [s[|s| - 1]]
  }

  /** Reading more restaurants only ever appends options: the options for any
      prefix of the list are a prefix of the options for the whole list, which
      is what "in order of first appearance" means. */
  lemma {:induction false} DistinctPrefix(s: seq<string>, n: nat)
    requires n <= |s|
    ensures Distinct(s[..n]) <= Distinct(s)
    decreases |s|
  {
    if n < |s| {
      var t := s[..|s| - 1];
      assert t[..n] == s[..n];
      DistinctPrefix(t, n);
    } else {
      assert s[..n] == s;
    }
  }

  function CuisineNames(restaurants: Collection<Restaurant>): (names: seq<string>)
    ensures |names| == |restaurants|
    ensures forall i :: 0 <= i < |restaurants| ==> names[i] == restaurants[i].data.cuisine
  {
    seq(|restaurants|, i requires 0 <= i < |restaurants| => restaurants[i].data.cuisine)
  }

  /** `['all', ...new Set(restaurants.map(r => r.cuisine))]`. */
  function Cuisines(restaurants: Collection<Restaurant>): (options: seq<string>)
    ensures |options| >= 1 && options[0] == "all"
    ensures forall i, j :: 1 <= i < j < |options| ==> options[i] != options[j]
    ensures forall c :: c in options[1..] <==> exists i :: 0 <= i < |restaurants| && restaurants[i].data.cuisine == c
  {
    var names := CuisineNames(restaurants);
    var options := ["all"] + Distinct(names);
    assert options[1..] == Distinct(names);
    forall c ensures c in names <==> exists i :: 0 <= i < |restaurants| && restaurants[i].data.cuisine == c {
      if c in names {
        var i :| 0 <= i < |names| && names[i] == c;
      }
    }
    options
  }

  /** The options follow the order in which cuisines first appear in the list:
      the options for the first `n` restaurants are a prefix of the options for all. */
  lemma CuisinesInFirstAppearanceOrder(restaurants: Collection<Restaurant>, n: nat)
    requires n <= |restaurants|
    ensures Cuisines(restaurants[..n]) <= Cuisines(restaurants)
  {
    var names := CuisineNames(restaurants);
    assert CuisineNames(restaurants[..n]) == names[..n];
    DistinctPrefix(names, n);
  }

  /** `all` is offered twice exactly when some restaurant's cuisine is itself called `all`. */
  lemma AllListedTwice(restaurants: Collection<Restaurant>)
    ensures (exists i, j :: 0 <= i < j < |Cuisines(restaurants)| && Cuisines(restaurants)[i] == Cuisines(restaurants)[j])
            <==> exists k :: 0 <= k < |restaurants| && restaurants[k].data.cuisine == "all"
  {
    var options := Cuisines(restaurants);
    if exists k :: 0 <= k < |restaurants| && restaurants[k].data.cuisine == "all" {
      assert "all" in options[1..];
      var j :| 0 <= j < |options[1..]| && options[1..][j] == "all";
      assert options[0] == options[j + 1];
    }
    if exists i, j :: 0 <= i < j < |options| && options[i] == options[j] {
      var i, j :| 0 <= i < j < |options| && options[i] == options[j];
      assert i == 0;
      assert options[j] == options[1..][j - 1];
      assert "all" in options[1..];
    }
  }
}
