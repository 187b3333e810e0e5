/** The `/payments` routes, all mounted behind `authorizeRole(['admin'])`, and
    the card-number mask they apply before anything is stored. */
module PaymentRoutes {
  import opened Common
  import opened Store
  import opened Records
  import opened Middleware

  const AdminRoles := ["admin"]
  const DeletedMessage := "Payment method deleted successfully"

  // ----- the card mask -----

  /** `\d` without the `u` flag: an ASCII decimal digit. */
  predicate IsDigit(c: char) {
    '0' <= c <= '9'
  }

  /** Where `/\d(?=\d{4})/g` matches: a digit followed by (at least) four more
      digits. The look-ahead consumes nothing, so every such position matches. */
  predicate MaskedAt(s: string, i: int)
    requires 0 <= i < |s|
  {
    IsDigit(s[i]) && i + 4 < |s| && forall k :: i < k <= i + 4 ==> IsDigit(s[k])
  }

  /** The length of the run of digits that `s` starts with. */
  function LeadingDigits(s: string): (n: nat)
    ensures n <= |s|
    ensures forall k :: 0 <= k < n ==> IsDigit(s[k])
    ensures n < |s| ==> !IsDigit(s[n])
  {
    if s == [] || !IsDigit(s[0]) then 0 else 1 + LeadingDigits(s[1..])
  }

  /** A position of `s` other than the first is masked exactly when the same
      character is masked in `s[1..]`. */
  lemma MaskedAtTail(s: string, i: int)
    requires 0 < i < |s|
    ensures MaskedAt(s, i) <==> MaskedAt(s[1..], i - 1)
  {
    assert forall k :: i < k <= i + 4 && k < |s| ==> s[k] == s[1..][k - 1];
  }

  /** The first position is masked exactly when it is a digit and at least four
      digits follow it. */
  lemma MaskedAtHead(s: string)
    requires |s| > 0
    ensures MaskedAt(s, 0) <==> IsDigit(s[0]) && LeadingDigits(s[1..]) >= 4
  {
    var run := LeadingDigits(s[1..]);
    if IsDigit(s[0]) && run >= 4 {
      assert forall k :: 0 < k <= 4 ==> s[k] == s[1..][k - 1];
    }
  }

  /** `cardNumber.replace(/\d(?=\d{4})/g, '*')`, computed in one right-to-left
      pass that counts the digits after each position: every digit with four or
      more digits after it becomes `*`, every other character is kept. */
  function Mask(s: string): (r: string)
    ensures |r| == |s|
    ensures forall i :: 0 <= i < |s| ==> r[i] == if MaskedAt(s, i) then '*' else s[i]
  {
    if s == [] then []
    else
      var tail := Mask(s[1..]);
      var head := if IsDigit(s[0]) && LeadingDigits(s[1..]) >= 4 then '*' else s[0];
      MaskedAtHead(s);
      forall i | 0 < i < |s| ensures ([head] + tail)[i] == if MaskedAt(s, i) then '*' else s[i] {
        MaskedAtTail(s, i);
      }
      [head] + tail
  }

  /** After masking, no digit has four digits after it: no five digits of the
      stored card number are ever consecutive. */
  lemma MaskLeavesNoLongRun(s: string)
    ensures forall i :: 0 <= i < |Mask(s)| ==> !MaskedAt(Mask(s), i)
  {
    var r := Mask(s);
    forall i | 0 <= i < |r| ensures !MaskedAt(r, i) {
    }
  }

  /** Masking a stored (already masked) number changes nothing. */
  lemma MaskIdempotent(s: string)
    ensures Mask(Mask(s)) == Mask(s)
  {
    MaskLeavesNoLongRun(s);
  }

  /** A number of digits only keeps its last four digits and every other digit is
      replaced, one `*` per digit. */
  lemma MaskDigits(s: string)
    requires forall i :: 0 <= i < |s| ==> IsDigit(s[i])
    ensures |s| >= 4 ==> forall i :: 0 <= i < |s| ==> Mask(s)[i] == if i < |s| - 4 then '*' else s[i]
    ensures |s| <= 4 ==> Mask(s) == s
  {
    forall i | 0 <= i < |s| && i < |s| - 4 ensures MaskedAt(s, i) {
    }
    if |s| <= 4 {
      assert forall i :: 0 <= i < |s| ==> !MaskedAt(s, i);
    }
  }

  /** Four characters or fewer are never masked. */
  lemma MaskShortIsIdentity(s: string)
    requires |s| <= 4
    ensures Mask(s) == s
  {
    assert forall i :: 0 <= i < |s| ==> !MaskedAt(s, i);
  }

  /** A non-digit shields the four digits before it from the mask. */
  lemma NonDigitBlocks(s: string, k: int)
    requires 0 <= k < |s| && !IsDigit(s[k])
    ensures forall i :: k - 4 <= i <= k && 0 <= i ==> !MaskedAt(s, i)
  {
  }

  /** Only the characters a digit run covers are touched, so a number written in
      groups of four, as the form's placeholder shows it, is stored unmasked. */
  lemma GroupedNumberIsStoredAsIs()
    ensures Mask("1234 5678 9012 3456") == "1234 5678 9012 3456"
  {
    var s := "1234 5678 9012 3456";
    assert |s| == 19 && s[4] == ' ' && s[9] == ' ' && s[14] == ' ';
    forall i | 0 <= i < |s| ensures !MaskedAt(s, i) {
      if i <= 4 {
        NonDigitBlocks(s, 4);
      } else if i <= 9 {
        NonDigitBlocks(s, 9);
      } else if i <= 14 {
        NonDigitBlocks(s, 14);
      }
    }
    UnmaskedIsIdentity(s);
  }

  /** Four characters behind three spaces hold no digit with four digits after
      it, so `   1234` is stored as it is. */
  lemma SpacedLastFourIsStoredAsIs(last: string)
    requires |last| == 4
    ensures Mask("   " + last) == "   " + last
  {
    var s := "   " + last;
    assert |s| == 7 && s[0] == ' ' && s[1] == ' ' && s[2] == ' ';
    forall i | 0 <= i < |s| ensures !MaskedAt(s, i) {
    }
    UnmaskedIsIdentity(s);
  }

  /** A text with no masked position is stored as it is. */
  lemma UnmaskedIsIdentity(s: string)
    requires forall i :: 0 <= i < |s| ==> !MaskedAt(s, i)
    ensures Mask(s) == s
  {
  }

  // ----- the handlers -----

  /** The document `POST /` adds: the masked card, the caller's country, both
      timestamps set to the same instant. */
  function NewPaymentMethod(kind: string, cardNumber: string, expiryDate: string, holderName: string,
                            country: string, now: Timestamp): PaymentMethod
  {
    PaymentMethod(kind, Mask(cardNumber), expiryDate, holderName, country, now, now)
  }

  /** `updateDoc(ref, updateData)`: type, masked card, expiry, holder and
      `updatedAt` are replaced; country and `createdAt` are kept. */
  function Updated(p: PaymentMethod, kind: string, cardNumber: string, expiryDate: string, holderName: string,
                   now: Timestamp): PaymentMethod
  {
    p.(kind := kind, cardNumber := Mask(cardNumber), expiryDate := expiryDate, holderName := holderName,
       updatedAt := now)
  }

  /** The query `where('country', '==', country)`. */
  function InCountry(country: Option<string>): PaymentMethod -> bool {
    (p: PaymentMethod) => Some(p.country) == country
  }

  /** `GET /` as a whole. A user without a country makes `where` throw. */
  function ListStep(methods: Collection<PaymentMethod>, user: Fields): (r: Reply<Collection<PaymentMethod>>)
  {
    if !RoleAllowed(AdminRoles, user) then Err(StatusForbidden, InsufficientPermissions)
    else if Country(user).None? then Err(StatusInternalError, InternalServerError)
    else Ok(StatusOk, Where(methods, InCountry(Country(user))))
  }

  /** `POST /` as a whole; `cardNumber` is None when the body has none, which
      makes `replace` throw, and `newId` is the id `addDoc` generates. */
  function CreateStep(methods: Collection<PaymentMethod>, user: Fields, kind: string, cardNumber: Option<string>,
                      expiryDate: string, holderName: string, now: Timestamp, newId: string)
    : (Reply<Doc<PaymentMethod>>, Collection<PaymentMethod>)
  {
    if !RoleAllowed(AdminRoles, user) then (Err(StatusForbidden, InsufficientPermissions), methods)
    else if cardNumber.None? || Country(user).None? then (Err(StatusInternalError, InternalServerError), methods)
    else
      var d := Doc(newId, NewPaymentMethod(kind, cardNumber.value, expiryDate, holderName, Country(user).value, now));
      (Ok(StatusCreated, d), methods + [d])
  }

  /** `PUT /:paymentMethodId` as a whole: 404, then 403 for another country's
      method, then a 500 when the body has no card number. */
  function UpdateStep(methods: Collection<PaymentMethod>, user: Fields, id: string, kind: string,
                      cardNumber: Option<string>, expiryDate: string, holderName: string, now: Timestamp)
    : (Reply<Doc<PaymentMethod>>, Collection<PaymentMethod>)
  {
    if !RoleAllowed(AdminRoles, user) then (Err(StatusForbidden, InsufficientPermissions), methods)
    else match Get(methods, id)
      case None => (Err(StatusNotFound, PaymentMethodNotFound), methods)
      case Some(p) =>
        if Some(p.country) != Country(user) then (Err(StatusForbidden, CountryRestricted), methods)
        else if cardNumber.None? then (Err(StatusInternalError, InternalServerError), methods)
        else
          var d := Doc(id, Updated(p, kind, cardNumber.value, expiryDate, holderName, now));
          (Ok(StatusOk, d), methods[IndexOf(methods, id) := d])
  }

  /** The collection without its `k`-th document. */
  function Without(c: Collection<PaymentMethod>, k: nat): (r: Collection<PaymentMethod>)
    requires k < |c|
    ensures |r| == |c| - 1
    ensures forall i :: 0 <= i < |r| ==> r[i] == if i < k then c[i] else c[i + 1]
  {
    c[..k] + c[k + 1..]
  }

  /** `DELETE /:paymentMethodId` as a whole. */
  function DeleteStep(methods: Collection<PaymentMethod>, user: Fields, id: string)
    : (Reply<string>, Collection<PaymentMethod>)
  {
    if !RoleAllowed(AdminRoles, user) then (Err(StatusForbidden, InsufficientPermissions), methods)
    else match Get(methods, id)
      case None => (Err(StatusNotFound, PaymentMethodNotFound), methods)
      case Some(p) =>
        if Some(p.country) != Country(user) then (Err(StatusForbidden, CountryRestricted), methods)
        else (Ok(StatusOk, DeletedMessage), Without(methods, IndexOf(methods, id)))
  }

  /** Only an admin gets a list, and only of the payment methods of the admin's
      own country, in store order. */
  lemma ListCases(methods: Collection<PaymentMethod>, user: Fields)
    ensures !RoleAllowed(AdminRoles, user) ==> ListStep(methods, user) == Err(StatusForbidden, InsufficientPermissions)
    ensures RoleAllowed(AdminRoles, user) && Country(user).None? ==>
              ListStep(methods, user) == Err(StatusInternalError, InternalServerError)
    ensures ListStep(methods, user).Ok? ==>
              && ListStep(methods, user).status == StatusOk
              && IsSubsequence(ListStep(methods, user).body, methods)
              && forall d :: d in ListStep(methods, user).body <==> d in methods && Some(d.data.country) == Country(user)
  {
    if ListStep(methods, user).Ok? {
      var p := InCountry(Country(user));
      WhereIsSubsequence(methods, p);
      forall d ensures d in Where(methods, p) <==> d in methods && Some(d.data.country) == Country(user) {
        WhereMembers(methods, p, d);
      }
    }
  }

  /** Creation refuses a non-admin with 403 and a body without a card number or
      a caller without a country with 500; otherwise it appends one document
      holding the masked card and the caller's country, and returns it. */
  lemma CreateCases(methods: Collection<PaymentMethod>, user: Fields, kind: string, cardNumber: Option<string>,
                    expiryDate: string, holderName: string, now: Timestamp, newId: string)
    ensures var (r, after) := CreateStep(methods, user, kind, cardNumber, expiryDate, holderName, now, newId);
      && (!RoleAllowed(AdminRoles, user) ==> r == Err(StatusForbidden, InsufficientPermissions) && after == methods)
      && (RoleAllowed(AdminRoles, user) && (cardNumber.None? || Country(user).None?) ==>
            r == Err(StatusInternalError, InternalServerError) && after == methods)
      && (r.Ok? <==> RoleAllowed(AdminRoles, user) && cardNumber.Some? && Country(user).Some?)
      && (r.Ok? ==>
            && r.status == StatusCreated && r.body.id == newId && after == methods + [r.body]
            && r.body.data.cardNumber == Mask(cardNumber.value)
            && Some(r.body.data.country) == Country(user)
            && r.body.data.kind == kind && r.body.data.expiryDate == expiryDate
            && r.body.data.holderName == holderName
            && r.body.data.createdAt == r.body.data.updatedAt == now)
  {
  }

  /** Update refuses a non-admin (403), a missing method (404), another
      country's method (403) and a body without a card number (500), writing
      nothing; otherwise it rewrites that one document in place, keeps its
      country and creation time, and returns exactly what is now stored. */
  lemma UpdateCases(methods: Collection<PaymentMethod>, user: Fields, id: string, kind: string,
                    cardNumber: Option<string>, expiryDate: string, holderName: string, now: Timestamp)
    ensures var (r, after) := UpdateStep(methods, user, id, kind, cardNumber, expiryDate, holderName, now);
      && (!RoleAllowed(AdminRoles, user) ==> r == Err(StatusForbidden, InsufficientPermissions) && after == methods)
      && (RoleAllowed(AdminRoles, user) && id !in Ids(methods) ==>
            r == Err(StatusNotFound, PaymentMethodNotFound) && after == methods)
      && (RoleAllowed(AdminRoles, user) && id in Ids(methods) && Some(Get(methods, id).value.country) != Country(user) ==>
            r == Err(StatusForbidden, CountryRestricted) && after == methods)
      && (r.Err? ==> after == methods)
      && (r.Ok? ==>
            var k := IndexOf(methods, id);
            var old_ := methods[k].data;
            && k < |methods| && r.status == StatusOk && cardNumber.Some?
            && |after| == |methods| && after[k] == r.body && r.body.id == id
            && (forall i :: 0 <= i < |methods| && i != k ==> after[i] == methods[i])
            && r.body.data.cardNumber == Mask(cardNumber.value)
            && r.body.data.kind == kind && r.body.data.expiryDate == expiryDate
            && r.body.data.holderName == holderName && r.body.data.updatedAt == now
            && r.body.data.country == old_.country && r.body.data.createdAt == old_.createdAt
            && Some(old_.country) == Country(user))
  {
  }

  /** Deletion refuses what update refuses (bar the card number); otherwise it
      removes exactly the one document with that id and keeps the others in order. */
  lemma DeleteCases(methods: Collection<PaymentMethod>, user: Fields, id: string)
    requires UniqueIds(methods)
    ensures var (r, after) := DeleteStep(methods, user, id);
      && (!RoleAllowed(AdminRoles, user) ==> r == Err(StatusForbidden, InsufficientPermissions) && after == methods)
      && (RoleAllowed(AdminRoles, user) && id !in Ids(methods) ==>
            r == Err(StatusNotFound, PaymentMethodNotFound) && after == methods)
      && (RoleAllowed(AdminRoles, user) && id in Ids(methods) && Some(Get(methods, id).value.country) != Country(user) ==>
            r == Err(StatusForbidden, CountryRestricted) && after == methods)
      && (r.Err? ==> after == methods)
      && (r.Ok? ==>
            && r == Ok(StatusOk, DeletedMessage)
            && id in Ids(methods) && id !in Ids(after) && UniqueIds(after)
            && Ids(after) == Ids(methods) - {id}
            && forall d :: d in after <==> d in methods && d.id != id)
  {
    if RoleAllowed(AdminRoles, user) && id in Ids(methods) && Some(Get(methods, id).value.country) == Country(user) {
      RemovedById(methods, id);
    }
  }

  /** Removing the first document with an existing id from a collection of
      distinct ids removes exactly that document and keeps the ids distinct. */
  lemma RemovedById(methods: Collection<PaymentMethod>, id: string)
    requires UniqueIds(methods) && id in Ids(methods)
    ensures var after := Without(methods, IndexOf(methods, id));
      && id !in Ids(after) && UniqueIds(after)
      && Ids(after) == Ids(methods) - {id}
      && forall d :: d in after <==> d in methods && d.id != id
  {
    var k := IndexOf(methods, id);
    var after := Without(methods, k);
    WithoutKeepsUnique(methods, k);
    WithoutMembers(methods, k);
    forall x ensures x in Ids(after) <==> x in Ids(methods) && x != id {
      if x in Ids(after) {
        var i :| 0 <= i < |after| && after[i].id == x;
        assert after[i] in after;
      }
      if x in Ids(methods) && x != id {
        var j :| 0 <= j < |methods| && methods[j].id == x;
        assert methods[j] in after;
      }
    }
  }

  /** Dropping one document keeps the remaining ids distinct. */
  lemma WithoutKeepsUnique(c: Collection<PaymentMethod>, k: nat)
    requires UniqueIds(c) && k < |c|
    ensures UniqueIds(Without(c, k))
  {
    var after := Without(c, k);
    forall i, j | 0 <= i < j < |after| ensures after[i].id != after[j].id {
      var i', j' := if i < k then i else i + 1, if j < k then j else j + 1;
      assert after[i] == c[i'] && after[j] == c[j'];
    }
  }

  /** With distinct ids, dropping the `k`-th document keeps exactly the documents with another id. */
  lemma WithoutMembers(c: Collection<PaymentMethod>, k: nat)
    requires UniqueIds(c) && k < |c|
    ensures forall d :: d in Without(c, k) <==> d in c && d.id != c[k].id
  {
    var after := Without(c, k);
    forall d ensures d in after <==> d in c && d.id != c[k].id {
      if d in after {
        var i :| 0 <= i < |after| && after[i] == d;
        var i' := if i < k then i else i + 1;
        assert c[i'] == d && i' != k;
      }
      if d in c && d.id != c[k].id {
        var j :| 0 <= j < |c| && c[j] == d;
        if j < k { assert after[j] == d; } else { assert after[j - 1] == d; }
      }
    }
  }

  /** An admin's writes never touch another country's payment methods: the
      documents of every other country are the same before and after any
      create, update or delete. */
  lemma WritesStayInCountry(methods: Collection<PaymentMethod>, user: Fields, id: string, kind: string,
                            cardNumber: Option<string>, expiryDate: string, holderName: string, now: Timestamp,
                            newId: string, other: string)
    requires UniqueIds(methods)
    requires Some(other) != Country(user)
    ensures var after := CreateStep(methods, user, kind, cardNumber, expiryDate, holderName, now, newId).1;
      forall d: Doc<PaymentMethod> :: d.data.country == other ==> (d in after <==> d in methods)
    ensures var after := UpdateStep(methods, user, id, kind, cardNumber, expiryDate, holderName, now).1;
      forall d: Doc<PaymentMethod> :: d.data.country == other ==> (d in after <==> d in methods)
    ensures var after := DeleteStep(methods, user, id).1;
      forall d: Doc<PaymentMethod> :: d.data.country == other ==> (d in after <==> d in methods)
  {
    UpdateStaysInCountry(methods, user, id, kind, cardNumber, expiryDate, holderName, now, other);
    DeleteCases(methods, user, id);
  }

  lemma UpdateStaysInCountry(methods: Collection<PaymentMethod>, user: Fields, id: string, kind: string,
                             cardNumber: Option<string>, expiryDate: string, holderName: string, now: Timestamp,
                             other: string)
    requires Some(other) != Country(user)
    ensures var after := UpdateStep(methods, user, id, kind, cardNumber, expiryDate, holderName, now).1;
      forall d: Doc<PaymentMethod> :: d.data.country == other ==> (d in after <==> d in methods)
  {
    UpdateCases(methods, user, id, kind, cardNumber, expiryDate, holderName, now);
    var (r, after) := UpdateStep(methods, user, id, kind, cardNumber, expiryDate, holderName, now);
    if r.Ok? {
      var k := IndexOf(methods, id);
      forall d: Doc<PaymentMethod> | d.data.country == other ensures d in after <==> d in methods {
        if d in methods {
          var j :| 0 <= j < |methods| && methods[j] == d;
          assert j != k;
          assert after[j] == d;
        }
        if d in after {
          var j :| 0 <= j < |after| && after[j] == d;
          assert j != k;
          assert methods[j] == d;
        }
      }
    }
  }

  /** The payment methods routes' view of the `paymentMethods` collection. */
  class PaymentStore {
    var methods: Collection<PaymentMethod>

    ghost predicate Valid()
      reads this
    {
      UniqueIds(methods)
    }

    constructor (initial: Collection<PaymentMethod>)
      requires UniqueIds(initial)
      ensures Valid() && methods == initial
    {
      methods := initial;
    }

    /** `GET /`: copies the query result document by document. */
    method List(user: Fields) returns (r: Reply<Collection<PaymentMethod>>)
      ensures r == ListStep(methods, user)
    {
      if !Includes(AdminRoles, Role(user)) {
        return Err(StatusForbidden, InsufficientPermissions);
      }
      var country := Country(user);
      if country.None? {
        return Err(StatusInternalError, InternalServerError);
      }
      var snapshot := Where(methods, InCountry(country));
      var list := [];
      for i := 0 to |snapshot|
        invariant list == snapshot[..i]
      {
        assert snapshot[..i + 1] == snapshot[..i] + [snapshot[i]];
        list := list + [Doc(snapshot[i].id, snapshot[i].data)];
      }
      assert snapshot[..|snapshot|] == snapshot;
      return Ok(StatusOk, list);
    }

    /** `POST /`. */
    method Create(user: Fields, kind: string, cardNumber: Option<string>, expiryDate: string, holderName: string,
                  now: Timestamp, newId: string)
      returns (r: Reply<Doc<PaymentMethod>>)
      requires Valid() && newId !in Ids(methods)
      modifies this
      ensures Valid()
      ensures (r, methods) == CreateStep(old(methods), user, kind, cardNumber, expiryDate, holderName, now, newId)
    {
      if !Includes(AdminRoles, Role(user)) {
        return Err(StatusForbidden, InsufficientPermissions);
      }
      if cardNumber.None? {
        return Err(StatusInternalError, InternalServerError);
      }
      var country := Country(user);
      if country.None? {
        return Err(StatusInternalError, InternalServerError);
      }
      var data := PaymentMethod(kind, Mask(cardNumber.value), expiryDate, holderName, country.value, now, now);
      methods := methods + [Doc(newId, data)];
      return Ok(StatusCreated, Doc(newId, data));
    }

    /** `PUT /:paymentMethodId`. */
    method Update(user: Fields, id: string, kind: string, cardNumber: Option<string>, expiryDate: string,
                  holderName: string, now: Timestamp)
      returns (r: Reply<Doc<PaymentMethod>>)
      requires Valid()
      modifies this
      ensures Valid()
      ensures (r, methods) == UpdateStep(old(methods), user, id, kind, cardNumber, expiryDate, holderName, now)
    {
      if !Includes(AdminRoles, Role(user)) {
        return Err(StatusForbidden, InsufficientPermissions);
      }
      var found := Get(methods, id);
      if found.None? {
        return Err(StatusNotFound, PaymentMethodNotFound);
      }
      var data := found.value;
      if Some(data.country) != Country(user) {
        return Err(StatusForbidden, CountryRestricted);
      }
      if cardNumber.None? {
        return Err(StatusInternalError, InternalServerError);
      }
      var updated := data.(kind := kind, cardNumber := Mask(cardNumber.value), expiryDate := expiryDate,
                           holderName := holderName, updatedAt := now);
      var k := IndexOf(methods, id);
      methods := methods[k := Doc(id, updated)];
      return Ok(StatusOk, Doc(id, updated));
    }

    /** `DELETE /:paymentMethodId`. */
    method Delete(user: Fields, id: string) returns (r: Reply<string>)
      requires Valid()
      modifies this
      ensures Valid()
      ensures (r, methods) == DeleteStep(old(methods), user, id)
    {
      if !Includes(AdminRoles, Role(user)) {
        return Err(StatusForbidden, InsufficientPermissions);
      }
      var found := Get(methods, id);
      if found.None? {
        return Err(StatusNotFound, PaymentMethodNotFound);
      }
      if Some(found.value.country) != Country(user) {
        return Err(StatusForbidden, CountryRestricted);
      }
      var k := IndexOf(methods, id);
      methods := methods[..k] + methods[k + 1..];
      DeleteCases(old(methods), user, id);
      return Ok(StatusOk, DeletedMessage);
    }
  }
}
