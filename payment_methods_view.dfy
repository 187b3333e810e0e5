/** The payment methods view of the client: the add/edit dialog, its form, and
    what it sends to the `/payments` routes. */
module PaymentMethodsView {
  import opened Common
  import opened Store
  import opened Records
  import opened PaymentRoutes

  /** The dialog's `formData`; `kind` is its `type` field. */
  datatype Form = Form(kind: string, cardNumber: string, expiryDate: string, holderName: string)

  /** The form the dialog starts from and is reset to. */
  const EmptyForm := Form("Credit Card", "", "", "")

  /** The request `handleSubmit` sends. */
  datatype SaveRequest = Put(id: string, form: Form) | Post(form: Form)

  function NotStar(c: char): bool {
    c != '*'
  }

  /** The global replace of `*` by nothing in `handleEdit`: every `*` removed, every other character
      kept in order. */
  function Unmask(s: string): string {
    Filter(s, NotStar)
  }

  /** The unmasked number holds no `*` and every other character of the stored
      one, as often as it occurs there and in the same order. */
  lemma UnmaskKeepsOthers(s: string)
    ensures '*' !in Unmask(s)
    ensures forall c :: c in Unmask(s) <==> c in s && c != '*'
    ensures multiset(Unmask(s)) == multiset(s)['*' := 0]
    ensures IsSubsequence(Unmask(s), s)
  {
    forall c ensures c in Filter(s, NotStar) <==> c in s && NotStar(c) {
      FilterMembers(s, NotStar, c);
    }
    FilterIsSubsequence(s, NotStar);
    UnmaskCounts(s);
  }

  lemma {:induction false} UnmaskCounts(s: string)
    ensures multiset(Unmask(s)) == multiset(s)['*' := 0]
  {
    if s != [] {
      UnmaskCounts(s[1..]);
      assert s == [s[0]] + s[1..];
      assert multiset(s) == multiset{s[0]} + multiset(s[1..]);
      if s[0] == '*' {
        assert Unmask(s) == Unmask(s[1..]);
      } else {
        assert Unmask(s) == [s[0]] + Unmask(s[1..]);
      }
    }
  }

  /** Stars in front of a star-free text are all dropped. */
  lemma UnmaskDropsLeadingStars(stars: string, rest: string)
    requires forall i :: 0 <= i < |stars| ==> stars[i] == '*'
    requires forall i :: 0 <= i < |rest| ==> rest[i] != '*'
    ensures Unmask(stars + rest) == rest
  {
    FilterAppend(stars, rest, NotStar);
    FilterDropsAll(stars, NotStar);
    FilterKeepsAll(rest, NotStar);
  }

  /** Unmasking does not undo the server's mask: a stored number of digits comes
      back as its last four digits only. */
  lemma UnmaskKeepsLastFour(s: string)
    requires |s| >= 4 && forall i :: 0 <= i < |s| ==> IsDigit(s[i])
    ensures Unmask(Mask(s)) == s[|s| - 4..]
  {
    MaskDigits(s);
    UnmaskStarsThenDigits(Mask(s), s);
  }

  lemma UnmaskStarsThenDigits(m: string, s: string)
    requires |m| == |s| >= 4 && forall i :: 0 <= i < |s| ==> IsDigit(s[i])
    requires forall i :: 0 <= i < |s| ==> m[i] == if i < |s| - 4 then '*' else s[i]
    ensures Unmask(m) == s[|s| - 4..]
  {
    var n := |s|;
    var stars, tail := m[..n - 4], s[n - 4..];
    assert forall i :: 0 <= i < |tail| ==> tail[i] == s[n - 4 + i];
    assert m == stars + tail;
    UnmaskDropsLeadingStars(stars, tail);
  }

  /** For example, a stored `************3456` is edited as `3456`. */
  lemma StoredCardEditedAsLastFour()
    ensures Unmask("************3456") == "3456"
  {
    var stars, tail := "************", "3456";
    assert "************3456" == stars + tail;
    UnmaskDropsLeadingStars(stars, tail);
  }

  /** A card in the grouped mask format keeps its spaces: `**** **** **** 1234` is
      edited as `   1234`. */
  lemma SeededCardEditedWithSpaces(last: string)
    requires forall i :: 0 <= i < |last| ==> last[i] != '*'
    ensures Unmask("**** **** **** " + last) == "   " + last
  {
    var group := "**** ";
    UnmaskDropsLeadingStars("****", " ");
    assert "****" + " " == group;
    UnmaskDropsLeadingStars("", last);
    assert "" + last == last;
    UnmaskGroups(group, last, ' ');
    assert group + group + group + last == "**** **** **** " + last;
  }

  /** Unmasking works group by group. */
  lemma UnmaskGroups(group: string, last: string, c: char)
    requires Unmask(group) == [c] && Unmask(last) == last
    ensures Unmask(group + group + group + last) == [c, c, c] + last
  {
    FilterAppend(group, group, NotStar);
    FilterAppend(group + group, group, NotStar);
    FilterAppend(group + group + group, last, NotStar);
  }

  /** The request for the current form: PUT to the method being edited, POST otherwise. */
  function SaveRequestFor(editing: Option<Doc<PaymentMethod>>, form: Form): (request: SaveRequest)
    ensures request.Put? <==> editing.Some?
    ensures request.form == form
    ensures request.Put? ==> request.id == editing.value.id
  {
    match editing
    case Some(chosen) => Put(chosen.id, form)
    case None => Post(form)
  }

  /** `handleDelete(methodId)`: the id sent to `DELETE`, only once the user confirms. */
  function DeleteRequest(methodId: string, confirmed: bool): (request: Option<string>)
    ensures request.Some? <==> confirmed
    ensures request.Some? ==> request.value == methodId
  {
    if confirmed then Some(methodId) else None
  }

  /** The dialog state of the view. */
  class PaymentDialog {
    var showModal: bool
    var editing: Option<Doc<PaymentMethod>>
    var form: Form

    /** Closed, nothing being edited, and the form at its defaults. */
    predicate Closed()
      reads this
    {
      !showModal && editing == None && form == EmptyForm
    }

    constructor ()
      ensures Closed()
    {
      showModal, editing, form := false, None, EmptyForm;
    }

    /** `handleEdit(method)`: opens the dialog on that method, with the card
        number unmasked. */
    method HandleEdit(chosen: Doc<PaymentMethod>)
      modifies this
      ensures showModal && editing == Some(chosen)
      ensures form == Form(chosen.data.kind, Unmask(chosen.data.cardNumber), chosen.data.expiryDate, chosen.data.holderName)
    {
      editing := Some(chosen);
      form := Form(chosen.data.kind, Unmask(chosen.data.cardNumber), chosen.data.expiryDate, chosen.data.holderName);
      showModal := true;
    }

    /** `handleSubmit`: the request sent; `succeeded` is whether the server
        accepted it, and only then is the dialog closed and reset. */
    method HandleSubmit(succeeded: bool) returns (request: SaveRequest)
      modifies this
      ensures request == SaveRequestFor(old(editing), old(form))
      ensures succeeded ==> Closed()
      ensures !succeeded ==> showModal == old(showModal) && editing == old(editing) && form == old(form)
    {
      if editing.Some? {
        request := Put(editing.value.id, form);
      } else {
        request := Post(form);
      }
      if succeeded {
        showModal := false;
        editing := None;
        form := EmptyForm;
      }
    }

    /** `closeModal`. */
    method CloseModal()
      modifies this
      ensures Closed()
    {
      showModal := false;
      editing := None;
      form := EmptyForm;
    }
  }
}
