/** Values and sequence helpers shared by the server routes and the client components. */
module Common {

  datatype Option<+T> = None | Some(value: T)

  /** What a route handler sends: a success status with its JSON body, or an
      error status with the `error` message of the JSON body. */
  datatype Reply<+T> = Ok(status: int, body: T) | Err(status: int, error: string)

  const StatusOk := 200
  const StatusCreated := 201
  const StatusBadRequest := 400
  const StatusUnauthorized := 401
  const StatusForbidden := 403
  const StatusNotFound := 404
  const StatusInternalError := 500

  const InternalServerError := "Internal server error"
  const InsufficientPermissions := "Insufficient permissions"
  const CountryRestricted := "Access restricted to your assigned country"
  const RestaurantNotFound := "Restaurant not found"
  const PaymentMethodNotFound := "Payment method not found"

  /** A JSON object whose values are strings (a user document, `req.user`). */
  type Fields = map<string, string>

  /** Reading a property: `undefined` when it is absent. */
  function Lookup(f: Fields, key: string): (r: Option<string>)
    ensures r.Some? <==> key in f
    ensures r.Some? ==> r.value == f[key]
  {
    if key in f then Some(f[key]) else None
  }

  /** JavaScript truthiness of a property that holds a string: `undefined` and `""` are falsy. */
  predicate Truthy(v: Option<string>) {
    v.Some? && v.value != ""
  }

  /** `Array.prototype.includes` on a list of strings, applied to a property that may be absent. */
  predicate Includes(list: seq<string>, v: Option<string>) {
    v.Some? && v.value in list
  }

  /** `Array.prototype.filter`: the elements that satisfy `p`, in their order. */
  function Filter<T>(s: seq<T>, p: T -> bool): (r: seq<T>)
    ensures |r| <= |s|
  {
    if s == [] then [] else (if p(s[0]) then [s[0]] else []) + Filter(s[1..], p)
  }

  /** `r` can be obtained from `s` by deleting elements: same elements, same order. */
  predicate IsSubsequence<T(==)>(r: seq<T>, s: seq<T>)
    decreases |s|
  {
    if r == [] then true
    else if s == [] then false
    else (r[0] == s[0] && IsSubsequence(r[1..], s[1..])) || IsSubsequence(r, s[1..])
  }

  lemma {:induction false} SubsequenceOfTail<T>(r: seq<T>, s: seq<T>)
    requires s != [] && IsSubsequence(r, s[1..])
    ensures IsSubsequence(r, s)
  {
    if r != [] {
      assert IsSubsequence(r, s[1..]);
    }
  }

  lemma {:induction false} FilterMembers<T>(s: seq<T>, p: T -> bool, x: T)
    ensures x in Filter(s, p) <==> x in s && p(x)
  {
    if s != [] {
      FilterMembers(s[1..], p, x);
      assert s == [s[0]] + s[1..];
    }
  }

  lemma {:induction false} FilterIsSubsequence<T>(s: seq<T>, p: T -> bool)
    ensures IsSubsequence(Filter(s, p), s)
  {
    if s != [] {
      FilterIsSubsequence(s[1..], p);
      var rest := Filter(s[1..], p);
      if p(s[0]) {
        assert Filter(s, p) == [s[0]] + rest;
        assert ([s[0]] + rest)[1..] == rest;
      } else {
        assert Filter(s, p) == rest;
        SubsequenceOfTail(rest, s);
      }
    }
  }

  lemma {:induction false} FilterAppend<T>(a: seq<T>, b: seq<T>, p: T -> bool)
    ensures Filter(a + b, p) == Filter(a, p) + Filter(b, p)
  {
    if a == [] {
      assert a + b == b;
    } else {
      var ab := a + b;
      assert ab[0] == a[0] && ab[1..] == a[1..] + b;
      FilterAppend(a[1..], b, p);
      var head := if p(a[0]) then [a[0]] else [];
      calc {
        Filter(ab, p);
        head + Filter(ab[1..], p);
        head + (Filter(a[1..], p) + Filter(b, p));
        (head + Filter(a[1..], p)) + Filter(b, p);
      }
    }
  }

  lemma {:induction false} FilterKeepsAll<T>(s: seq<T>, p: T -> bool)
    requires forall i :: 0 <= i < |s| ==> p(s[i])
    ensures Filter(s, p) == s
  {
    if s != [] {
      FilterKeepsAll(s[1..], p);
      assert [s[0]] + s[1..] == s;
    }
  }

  lemma {:induction false} FilterDropsAll<T>(s: seq<T>, p: T -> bool)
    requires forall i :: 0 <= i < |s| ==> !p(s[i])
    ensures Filter(s, p) == []
  {
    if s != [] {
      FilterDropsAll(s[1..], p);
    }
  }

  /** Filtering by a stronger predicate keeps a subsequence of what the weaker one keeps. */
  lemma {:induction false} FilterNarrows<T>(s: seq<T>, p: T -> bool, q: T -> bool)
    requires forall i :: 0 <= i < |s| && p(s[i]) ==> q(s[i])
    ensures IsSubsequence(Filter(s, p), Filter(s, q))
  {
    if s != [] {
      FilterNarrows(s[1..], p, q);
      var rp, rq := Filter(s[1..], p), Filter(s[1..], q);
      if p(s[0]) {
        assert Filter(s, p) == [s[0]] + rp && Filter(s, q) == [s[0]] + rq;
        assert ([s[0]] + rp)[1..] == rp && ([s[0]] + rq)[1..] == rq;
      } else if q(s[0]) {
        assert Filter(s, p) == rp && Filter(s, q) == [s[0]] + rq;
        assert ([s[0]] + rq)[1..] == rq;
        SubsequenceOfTail(rp, [s[0]] + rq);
      } else {
        assert Filter(s, p) == rp && Filter(s, q) == rq;
      }
    }
  }
}

/** An in-memory stand-in for one collection of the document store. */
module Store {
  import opened Common

  /** A stored document; list handlers return it as `{ id: doc.id, ...doc.data() }`. */
  datatype Doc<+T> = Doc(id: string, data: T)

  /** A collection, its documents in the order they were added: a new document
      goes at the end, and queries return documents in this order. */
  type Collection<T> = seq<Doc<T>>

  /** Document ids are unique: the store generates them. */
  predicate UniqueIds<T>(c: Collection<T>) {
    forall i, j :: 0 <= i < j < |c| ==> c[i].id != c[j].id
  }

  function Ids<T>(c: Collection<T>): set<string> {
    set i | 0 <= i < |c| :: c[i].id
  }

  /** Position of the first document with this id, or |c| when there is none. */
  function IndexOf<T>(c: Collection<T>, id: string): (k: nat)
    ensures k <= |c|
    ensures k < |c| ==> c[k].id == id
    ensures forall j :: 0 <= j < k ==> c[j].id != id
    ensures k == |c| <==> id !in Ids(c)
  {
    if c == [] then 0
    else if c[0].id == id then 0
    else
      var k := 1 + IndexOf(c[1..], id);
      assert forall j :: 1 <= j < |c| ==> c[j] == c[1..][j - 1];
      assert id !in Ids(c[1..]) ==> id !in Ids(c) by {
        if id in Ids(c) {
          var j :| 0 <= j < |c| && c[j].id == id;
          assert c[1..][j - 1].id == id;
        }
      }
      k
  }

  /** `getDoc`: the data of the document with this id, if it exists. */
  function Get<T>(c: Collection<T>, id: string): (r: Option<T>)
    ensures r.Some? <==> id in Ids(c)
    ensures r.Some? ==> c[IndexOf(c, id)].data == r.value
  {
    var k := IndexOf(c, id);
    if k < |c| then Some(c[k].data) else None
  }

  /** `getDocs(query(collection, where(...)))`: the documents whose data satisfies `p`, in store order. */
  function Where<T>(c: Collection<T>, p: T -> bool): (r: Collection<T>)
    ensures |r| <= |c|
  {
    Filter(c, (d: Doc<T>) => p(d.data))
  }

  lemma WhereMembers<T>(c: Collection<T>, p: T -> bool, d: Doc<T>)
    ensures d in Where(c, p) <==> d in c && p(d.data)
  {
    FilterMembers(c, (d: Doc<T>) => p(d.data), d);
  }

  lemma WhereIsSubsequence<T>(c: Collection<T>, p: T -> bool)
    ensures IsSubsequence(Where(c, p), c)
  {
    FilterIsSubsequence(c, (d: Doc<T>) => p(d.data));
  }

  /** The first result of a query is the first matching document of the collection. */
  lemma {:induction false} WhereFirst<T>(c: Collection<T>, p: T -> bool)
    ensures Where(c, p) == [] <==> forall i :: 0 <= i < |c| ==> !p(c[i].data)
    ensures Where(c, p) != [] ==>
              exists i :: 0 <= i < |c| && Where(c, p)[0] == c[i] && p(c[i].data) && (forall j :: 0 <= j < i ==> !p(c[j].data))
  {
    if c != [] {
      WhereFirst(c[1..], p);
      var rest := Where(c[1..], p);
      assert Where(c, p) == (if p(c[0].data) then [c[0]] else []) + rest;
      if !p(c[0].data) && rest != [] {
        var i :| 0 <= i < |c[1..]| && rest[0] == c[1..][i] && p(c[1..][i].data)
                 && (forall j :: 0 <= j < i ==> !p(c[1..][j].data));
        assert forall j :: 1 <= j <= i ==> c[j] == c[1..][j - 1];
        assert Where(c, p)[0] == c[i + 1];
      }
      if !p(c[0].data) && rest == [] {
        assert forall i :: 1 <= i < |c| ==> c[i] == c[1..][i - 1];
      }
    }
  }

  /** A query keeps unique ids. */
  lemma {:induction false} WhereUnique<T>(c: Collection<T>, p: T -> bool)
    requires UniqueIds(c)
    ensures UniqueIds(Where(c, p))
  {
    if c != [] {
      assert UniqueIds(c[1..]) by {
        forall i, j | 0 <= i < j < |c[1..]| ensures c[1..][i].id != c[1..][j].id {
          assert c[1..][i] == c[i + 1] && c[1..][j] == c[j + 1];
        }
      }
      WhereUnique(c[1..], p);
      var rest := Where(c[1..], p);
      if p(c[0].data) {
        assert Where(c, p) == [c[0]] + rest;
        forall j | 0 <= j < |rest| ensures rest[j].id != c[0].id {
          assert rest[j] in rest;
          WhereMembers(c[1..], p, rest[j]);
          var m :| 0 <= m < |c[1..]| && c[1..][m] == rest[j];
          assert c[m + 1] == rest[j];
        }
      } else {
        assert Where(c, p) == rest;
      }
    }
  }
}
