/** The `/restaurants` routes. Both only read: the collections are passed in as values. */
module RestaurantRoutes {
  import opened Common
  import opened Store
  import opened Records

  predicate InCountry(country: Option<string>, r: Restaurant) {
    Some(r.country) == country
  }

  predicate OnMenuOf(restaurantId: string, m: MenuItem) {
    m.restaurantId == restaurantId
  }

  /** `GET /`: the restaurants of the caller's country, each with its document id,
      in store order. A user without a country makes the query itself fail. */
  method ListRestaurants(user: Fields, restaurants: Collection<Restaurant>) returns (r: Reply<Collection<Restaurant>>)
    ensures Country(user).None? ==> r == Err(StatusInternalError, InternalServerError)
    ensures Country(user).Some? ==> r.Ok? && r.status == StatusOk
    ensures r.Ok? ==> forall d :: d in r.body <==> d in restaurants && d.data.country == Country(user).value
    ensures r.Ok? ==> IsSubsequence(r.body, restaurants)
  {
    var userCountry := Country(user);
    if userCountry.None? {
      return Err(StatusInternalError, InternalServerError);
    }
    var snapshot := Where(restaurants, (x: Restaurant) => InCountry(userCountry, x));
    var list := [];
    for i := 0 to |snapshot|
      invariant list == snapshot[..i]
    {
      list := list + [Doc(snapshot[i].id, snapshot[i].data)];
    }
    assert list == snapshot;
    forall d ensures d in snapshot <==> d in restaurants && d.data.country == userCountry.value {
      WhereMembers(restaurants, (x: Restaurant) => InCountry(userCountry, x), d);
    }
    WhereIsSubsequence(restaurants, (x: Restaurant) => InCountry(userCountry, x));
    return Ok(StatusOk, list);
  }

  /** `GET /:restaurantId/menu`: 404 for a missing restaurant before 403 for
      another country's; otherwise the menu items of that restaurant, in store order. */
  method GetMenu(user: Fields, restaurantId: string, restaurants: Collection<Restaurant>, menuItems: Collection<MenuItem>)
    returns (r: Reply<Collection<MenuItem>>)
    ensures restaurantId !in Ids(restaurants) ==> r == Err(StatusNotFound, RestaurantNotFound)
    ensures restaurantId in Ids(restaurants) && !InCountry(Country(user), Get(restaurants, restaurantId).value) ==>
              r == Err(StatusForbidden, CountryRestricted)
    ensures r.Ok? <==> restaurantId in Ids(restaurants) && InCountry(Country(user), Get(restaurants, restaurantId).value)
    ensures r.Ok? ==> r.status == StatusOk
    ensures r.Ok? ==> forall d :: d in r.body <==> d in menuItems && d.data.restaurantId == restaurantId
    ensures r.Ok? ==> IsSubsequence(r.body, menuItems)
  {
    var restaurantDoc := Get(restaurants, restaurantId);
    if restaurantDoc.None? {
      return Err(StatusNotFound, RestaurantNotFound);
    }
    if Some(restaurantDoc.value.country) != Country(user) {
      return Err(StatusForbidden, CountryRestricted);
    }
    var snapshot := Where(menuItems, (m: MenuItem) => OnMenuOf(restaurantId, m));
    var list := [];
    for i := 0 to |snapshot|
      invariant list == snapshot[..i]
    {
      list := list + [Doc(snapshot[i].id, snapshot[i].data)];
    }
    assert list == snapshot;
    forall d ensures d in snapshot <==> d in menuItems && d.data.restaurantId == restaurantId {
      WhereMembers(menuItems, (m: MenuItem) => OnMenuOf(restaurantId, m), d);
    }
    WhereIsSubsequence(menuItems, (m: MenuItem) => OnMenuOf(restaurantId, m));
    return Ok(StatusOk, list);
  }
}
