/** The dashboard: the emergency-contact list editor, the filter that decides which
    contacts are submitted, the submission gate, the two requests that follow it,
    and the switch between the QR view and the editor. */
module Home {
  import opened Common
  import opened Text
  import opened Session

  const NoContactMsg := "Please add at least one emergency contact"
  const QrFailedMsg := "Failed to generate QR code. Please try again."
  const QrSuccessMsg := "QR code generated successfully!"

  /** The row `handleAddContact` appends and the editor starts with. */
  const BlankContact := Contact("", "")

  // ---------------------------------------------------------------------------
  // Which contacts are submitted
  // ---------------------------------------------------------------------------

  /** `contact.name.trim() && contact.phone.trim()`: by `BlankIffAllWhitespace`,
      both fields hold a character that is not white space. */
  predicate IsComplete(c: Contact) {
    !IsBlank(c.name) && !IsBlank(c.phone)
  }

  /** `contacts.filter(contact => contact.name.trim() && contact.phone.trim())`. */
  function ValidContacts(cs: seq<Contact>): (r: seq<Contact>)
    ensures |r| <= |cs|
    ensures forall i :: 0 <= i < |r| ==> IsComplete(r[i])
    ensures forall i :: 0 <= i < |cs| && IsComplete(cs[i]) ==> cs[i] in r
  {
    if cs == [] then []
    else
      var rest := ValidContacts(cs[1..]);
      assert forall i :: 1 <= i < |cs| ==> cs[i] == cs[1..][i - 1];
      if IsComplete(cs[0]) then [cs[0]] + rest else rest
  }

  /** `a` is `b` with some elements left out and the rest in their order. */
  ghost predicate IsSubsequence(a: seq<Contact>, b: seq<Contact>)
    decreases |b|
  {
    a == [] ||
    (b != [] && ((a[0] == b[0] && IsSubsequence(a[1..], b[1..])) || IsSubsequence(a, b[1..])))
  }

  /** The filter keeps the surviving contacts in their original order. */
  lemma {:induction false} ValidContactsIsSubsequence(cs: seq<Contact>)
    ensures IsSubsequence(ValidContacts(cs), cs)
  {
    if cs != [] {
      ValidContactsIsSubsequence(cs[1..]);
      var r := ValidContacts(cs);
      if IsComplete(cs[0]) {
        assert r[0] == cs[0] && r[1..] == ValidContacts(cs[1..]);
      }
    }
  }

  /** One step of the filter: the head survives exactly when it is complete. */
  lemma ValidContactsCons(c: Contact, rest: seq<Contact>)
    ensures ValidContacts([c] + rest) == (if IsComplete(c) then [c] else []) + ValidContacts(rest)
  {
    assert ([c] + rest)[0] == c && ([c] + rest)[1..] == rest;
  }

  /** Filtering a concatenation filters each part: the decision for one contact does
      not depend on its neighbours. */
  lemma {:induction false} ValidContactsAppend(a: seq<Contact>, b: seq<Contact>)
    ensures ValidContacts(a + b) == ValidContacts(a) + ValidContacts(b)
  {
    if a == [] {
      assert a + b == b;
    } else {
      assert a + b == [a[0]] + (a[1..] + b);
      ValidContactsCons(a[0], a[1..] + b);
      ValidContactsAppend(a[1..], b);
    }
  }

  /** The filter keeps each complete contact as many times as the list holds it, and
      no incomplete one: together with the order lemma, the result is exactly the
      complete contacts of the input. */
  lemma {:induction false} ValidContactsCounts(cs: seq<Contact>)
    ensures forall c :: multiset(ValidContacts(cs))[c] == if IsComplete(c) then multiset(cs)[c] else 0
  {
    if cs != [] {
      ValidContactsCounts(cs[1..]);
      ValidContactsCons(cs[0], cs[1..]);
      assert cs == [cs[0]] + cs[1..];
    }
  }

  /** Nothing survives exactly when no contact has both a name and a phone. */
  lemma {:induction false} ValidContactsEmpty(cs: seq<Contact>)
    ensures ValidContacts(cs) == [] <==> forall i :: 0 <= i < |cs| ==> !IsComplete(cs[i])
  {
    if ValidContacts(cs) != [] {
      var x := ValidContacts(cs)[0];
      ValidContactsCounts(cs);
      assert x in multiset(ValidContacts(cs));
      assert x in cs;
    }
  }

  /** A list whose every contact is complete is submitted as it is. */
  lemma {:induction false} ValidContactsOfComplete(cs: seq<Contact>)
    requires forall i :: 0 <= i < |cs| ==> IsComplete(cs[i])
    ensures ValidContacts(cs) == cs
  {
    if cs != [] {
      ValidContactsOfComplete(cs[1..]);
      ValidContactsCons(cs[0], cs[1..]);
      assert cs == [cs[0]] + cs[1..];
    }
  }

  // ---------------------------------------------------------------------------
  // The QR view
  // ---------------------------------------------------------------------------

  /** The summary shown instead of the editor once the user has a QR code. */
  datatype QrView = QrView(
    id: string,
    bloodType: string,
    medicalHistory: string,
    emergencyContacts: seq<Contact>,
    qrCodeUrl: string)

  /** The view the mount callback derives from the stored user: present exactly when
      there is a user with a truthy `qrCode`, and then a copy of that user's fields. */
  function QrFromUser(u: Option<User>): (r: Option<QrView>)
    ensures r.Some? <==> u.Some? && Truthy(u.value.qrCode)
    ensures r.Some? ==>
              r.value.id == u.value.id && r.value.bloodType == u.value.bloodType &&
              r.value.medicalHistory == u.value.medicalHistory &&
              r.value.emergencyContacts == u.value.emergencyContacts &&
              r.value.qrCodeUrl == u.value.qrCode.value
  {
    if u.Some? && Truthy(u.value.qrCode) then
      var user := u.value;
      Some(QrView(user.id, user.bloodType, user.medicalHistory, user.emergencyContacts, user.qrCode.value))
    else None
  }

  // ---------------------------------------------------------------------------
  // The page
  // ---------------------------------------------------------------------------

  datatype Field = Name | Phone

  /** The contact with one field replaced. */
  function WithField(c: Contact, field: Field, value: string): (r: Contact)
    ensures field == Name ==> r.name == value && r.phone == c.phone
    ensures field == Phone ==> r.phone == value && r.name == c.name
  {
    match field
    case Name => c.(name := value)
    case Phone => c.(phone := value)
  }

  /** The body of the profile update. */
  datatype UpdateRequest = UpdateRequest(bloodType: string, medicalHistory: string, emergencyContacts: seq<Contact>)

  /** The fields of the update reply and of the QR reply that the page reads (a `null`
      body is `JsonNull`). */
  datatype UpdateData = UpdateData(user: User)
  datatype QrData = QrData(qrCode: Option<string>)

  /** Where `handleSubmit` is suspended: on the update request, on the QR request
      (holding the user the update returned, or `None` when the update body was `null`,
      whose `user` is read only after the QR reply), or on its 1.5-second success timer. */
  datatype SubmitStage = NotSubmitting | AwaitingUpdate | AwaitingQr(updated: Option<User>) | AwaitingSuccessTimer

  /** The `Dashboard` component's state. */
  class Dashboard {
    var loading: bool
    var submitting: bool
    var error: string
    var success: string
    var qrData: Option<QrView>
    var contacts: seq<Contact>
    var stage: SubmitStage
    const store: SessionStore

    /** `submitting` is set exactly while `handleSubmit` has not finished. */
    predicate Valid()
      reads this
    {
      submitting <==> !stage.NotSubmitting?
    }

    /** The remove control is rendered only when there are at least two rows. */
    predicate RemoveShown()
      reads this
    {
      |contacts| > 1
    }

    constructor (store: SessionStore)
      ensures Valid() && this.store == store
      ensures loading && !submitting && error == "" && success == ""
      ensures qrData == None && contacts == [BlankContact] && stage == NotSubmitting
    {
      this.store := store;
      loading := true;
      submitting := false;
      error := "";
      success := "";
      qrData := None;
      contacts := [BlankContact];
      stage := NotSubmitting;
    }

    /** The callback scheduled on mount: show the QR view when the stored user has a QR
        code (otherwise leave it as it was), and stop loading. */
    method LoadFromStore()
      requires Valid() && loading
      modifies this
      ensures Valid() && !loading
      ensures qrData == if QrFromUser(store.user).Some? then QrFromUser(store.user) else old(qrData)
      ensures contacts == old(contacts) && error == old(error) && success == old(success)
      ensures submitting == old(submitting) && stage == old(stage)
    {
      var view := QrFromUser(store.user);
      if view.Some? {
        qrData := view;
      }
      loading := false;
    }

    /** `handleAddContact`: one blank row at the end, the others untouched. */
    method AddContact()
      requires Valid()
      modifies this
      ensures Valid() && contacts == old(contacts) + [BlankContact]
      ensures |contacts| == |old(contacts)| + 1 && contacts[..|old(contacts)|] == old(contacts)
      ensures loading == old(loading) && submitting == old(submitting) && error == old(error)
      ensures success == old(success) && qrData == old(qrData) && stage == old(stage)
    {
      contacts := contacts + [BlankContact];
    }

    /** `handleRemoveContact`: the row at `index` goes, the rows after it move up one,
        and the list never becomes empty because the control needs two rows. */
    method RemoveContact(index: nat)
      requires Valid() && RemoveShown() && index < |contacts|
      modifies this
      ensures Valid() && |contacts| == |old(contacts)| - 1 && contacts != []
      ensures forall k :: 0 <= k < index ==> contacts[k] == old(contacts)[k]
      ensures forall k :: index <= k < |contacts| ==> contacts[k] == old(contacts)[k + 1]
      ensures loading == old(loading) && submitting == old(submitting) && error == old(error)
      ensures success == old(success) && qrData == old(qrData) && stage == old(stage)
    {
      contacts := contacts[..index] + contacts[index + 1..];
    }

    /** `handleContactChange`: only the named field of the row at `index` changes. */
    method ChangeContact(index: nat, field: Field, value: string)
      requires Valid() && index < |contacts|
      modifies this
      ensures Valid() && |contacts| == |old(contacts)|
      ensures contacts[index] == WithField(old(contacts)[index], field, value)
      ensures forall k :: 0 <= k < |contacts| && k != index ==> contacts[k] == old(contacts)[k]
      ensures loading == old(loading) && submitting == old(submitting) && error == old(error)
      ensures success == old(success) && qrData == old(qrData) && stage == old(stage)
    {
      contacts := contacts[index := WithField(contacts[index], field, value)];
    }

    /** `handleSubmit` up to its first request: clear both messages; with no complete
        contact, refuse; otherwise mark the page submitting and send the filtered list. */
    method Submit(bloodType: string, medicalHistory: string) returns (request: Option<UpdateRequest>)
      requires Valid() && !submitting
      modifies this
      ensures Valid() && success == ""
      ensures request.None? <==> ValidContacts(old(contacts)) == []
      ensures request.None? ==> error == NoContactMsg && !submitting && stage == NotSubmitting
      ensures request.Some? ==>
                request.value == UpdateRequest(bloodType, medicalHistory, ValidContacts(old(contacts))) &&
                error == "" && submitting && stage == AwaitingUpdate
      ensures contacts == old(contacts) && qrData == old(qrData) && loading == old(loading)
    {
      error := "";
      success := "";
      var valid := ValidContacts(contacts);
      if |valid| == 0 {
        error := NoContactMsg;
        return None;
      }
      submitting := true;
      stage := AwaitingUpdate;
      request := Some(UpdateRequest(bloodType, medicalHistory, valid));
    }

    /** The update reply: its status is not inspected; a decoded body, `null` included,
        leads to the QR request; a failure to decode or to connect ends the submission
        with an error. */
    method UpdateResponded(resp: Response<UpdateData>) returns (qrRequested: bool)
      requires Valid() && stage == AwaitingUpdate
      modifies this
      ensures Valid()
      ensures qrRequested <==> resp.Reply? && !resp.body.Malformed?
      ensures qrRequested ==>
                stage == AwaitingQr(if resp.body.Parsed? then Some(resp.body.data.user) else None) &&
                error == old(error)
      ensures !qrRequested ==> error == QrFailedMsg && !submitting && stage == NotSubmitting
      ensures contacts == old(contacts) && qrData == old(qrData) && loading == old(loading)
      ensures success == old(success)
    {
      if resp.Reply? && resp.body.Parsed? {
        stage := AwaitingQr(Some(resp.body.data.user));
        return true;
      } else if resp.Reply? && resp.body.JsonNull? {
        stage := AwaitingQr(None);
        return true;
      }
      error := QrFailedMsg;
      submitting := false;
      stage := NotSubmitting;
      return false;
    }

    /** The QR reply: a decoded body stores the updated user with `qrCode` replaced by
        the one just generated and schedules the success message; otherwise, and when
        either reply was `null` (reading `qrCode` or `user` of it throws), the error. */
    method QrResponded(resp: Response<QrData>)
      requires Valid() && stage.AwaitingQr?
      modifies this, store
      ensures Valid()
      ensures resp.Reply? && resp.body.Parsed? && old(stage).updated.Some? ==>
                store.user == Some(old(stage).updated.value.(qrCode := resp.body.data.qrCode)) &&
                stage == AwaitingSuccessTimer && submitting && error == old(error)
      ensures !(resp.Reply? && resp.body.Parsed? && old(stage).updated.Some?) ==>
                store.user == old(store.user) &&
                error == QrFailedMsg && !submitting && stage == NotSubmitting
      ensures contacts == old(contacts) && qrData == old(qrData) && loading == old(loading)
      ensures success == old(success)
    {
      if resp.Reply? && resp.body.Parsed? && stage.updated.Some? {
        store.SetUser(Some(stage.updated.value.(qrCode := resp.body.data.qrCode)));
        stage := AwaitingSuccessTimer;
      } else {
        error := QrFailedMsg;
        submitting := false;
        stage := NotSubmitting;
      }
    }

    /** The 1.5-second callback after a successful submission. */
    method SuccessTimerFired()
      requires Valid() && stage == AwaitingSuccessTimer
      modifies this
      ensures Valid() && success == QrSuccessMsg && !submitting && stage == NotSubmitting
      ensures contacts == old(contacts) && qrData == old(qrData) && loading == old(loading)
      ensures error == old(error)
    {
      success := QrSuccessMsg;
      submitting := false;
      stage := NotSubmitting;
    }

    /** `handleEdit`: back to the editor, preloaded with the contacts of the QR view
        when there was one. */
    method Edit()
      requires Valid()
      modifies this
      ensures Valid() && qrData == None
      ensures contacts == if old(qrData).Some? then old(qrData).value.emergencyContacts else old(contacts)
      ensures loading == old(loading) && submitting == old(submitting) && error == old(error)
      ensures success == old(success) && stage == old(stage)
    {
      if qrData.Some? {
        contacts := qrData.value.emergencyContacts;
      }
      qrData := None;
    }
  }
}
