/** The settings screen: an editable list of one to five emergency contacts
    and the alert radius, loaded from and saved to the server's /settings. */
module SettingsScreen {
  import opened Text
  import opened Seqs
  import opened BackendRules

  /** `contact.trim() !== ''`: the contact is worth sending. */
  predicate Filled(contact: string) {
    Trim(contact) != ""
  }

  /** What pressing "Salvar" leads to. */
  datatype SaveOutcome =
    | NoContacts          // every field is blank: an alert, nothing is sent
    | NoToken             // no stored token: nothing is sent
    | Post(body: Settings)  // POST /settings with this body

  /** saveSettings: the blank fields are dropped, an all-blank list is
      refused before the token is even looked up. */
  function SaveOutcomeFor(contacts: seq<string>, alertDistanceKm: real, hasToken: bool): SaveOutcome {
    var validContacts := Keep(contacts, Filled);
    if |validContacts| == 0 then NoContacts
    else if !hasToken then NoToken
    else Post(Settings(validContacts, alertDistanceKm))
  }

  /** A field counts as filled exactly when it is not blank. */
  lemma FilledIffNotBlank(contact: string)
    ensures Filled(contact) <==> !Blank(contact)
  {
    TrimEmptyIffBlank(contact);
  }

  /** The filled fields: none exactly when every field is blank, none of them
      blank, and each non-blank entry as often as it was entered. */
  lemma FilledFields(contacts: seq<string>)
    ensures var kept := Keep(contacts, Filled);
      && (|kept| == 0 <==> forall i :: 0 <= i < |contacts| ==> Blank(contacts[i]))
      && (forall k :: 0 <= k < |kept| ==> !Blank(kept[k]))
      && (forall c :: multiset(kept)[c] == if Blank(c) then 0 else multiset(contacts)[c])
  {
    var kept := Keep(contacts, Filled);
    forall k | 0 <= k < |kept| ensures !Blank(kept[k]) {
      FilledIffNotBlank(kept[k]);
    }
    if |kept| == 0 {
      forall i | 0 <= i < |contacts| ensures Blank(contacts[i]) {
        KeepMember(contacts, Filled, contacts[i]);
        FilledIffNotBlank(contacts[i]);
      }
    } else {
      assert kept[0] in contacts;
    }
    forall c ensures multiset(kept)[c] == if Blank(c) then 0 else multiset(contacts)[c] {
      KeepCount(contacts, Filled, c);
      FilledIffNotBlank(c);
    }
  }

  /** Saving sends exactly the non-blank contacts, each as often as it was
      entered, in the order entered, untrimmed, together with the radius; it
      refuses exactly the all-blank list. */
  lemma SaveOutcomeSpec(contacts: seq<string>, alertDistanceKm: real, hasToken: bool)
    ensures SaveOutcomeFor(contacts, alertDistanceKm, hasToken).NoContacts? <==>
      forall i :: 0 <= i < |contacts| ==> Blank(contacts[i])
    ensures SaveOutcomeFor(contacts, alertDistanceKm, hasToken).NoToken? <==>
      !hasToken && exists i :: 0 <= i < |contacts| && !Blank(contacts[i])
    ensures var r := SaveOutcomeFor(contacts, alertDistanceKm, hasToken);
      r.Post? ==>
        && r.body.alertDistanceKm == alertDistanceKm
        && 1 <= |r.body.emergencyContacts| <= |contacts|
        && (forall k :: 0 <= k < |r.body.emergencyContacts| ==> !Blank(r.body.emergencyContacts[k]))
        && (forall c :: multiset(r.body.emergencyContacts)[c] == if Blank(c) then 0 else multiset(contacts)[c])
        && (forall a, b :: contacts == a + b ==> r.body.emergencyContacts == Keep(a, Filled) + Keep(b, Filled))
  {
    FilledFields(contacts);
    forall a, b | contacts == a + b ensures Keep(contacts, Filled) == Keep(a, Filled) + Keep(b, Filled) {
      KeepConcat(a, b, Filled);
    }
  }

  /** The client's filtering and limits line up with the server's rules:
      when the list holds at most five entries, the radius is in range and
      every filled entry is a valid phone number, the body sent is accepted. */
  lemma SavedSettingsAccepted(contacts: seq<string>, alertDistanceKm: real, hasToken: bool)
    requires |contacts| <= MaxContacts
    requires MinAlertDistanceKm <= alertDistanceKm <= MaxAlertDistanceKm
    requires forall i :: 0 <= i < |contacts| && !Blank(contacts[i]) ==> ContactError(contacts[i]).None?
    ensures var r := SaveOutcomeFor(contacts, alertDistanceKm, hasToken);
      r.Post? ==> SettingsAccepted(r.body)
  {
    var kept := Keep(contacts, Filled);
    forall k | 0 <= k < |kept| ensures ContactError(kept[k]).None? {
      FilledIffNotBlank(kept[k]);
      var i :| 0 <= i < |contacts| && contacts[i] == kept[k];
    }
  }

  /** How formatDistance labels a radius: whole metres below one kilometre
      (Math.round), kilometres otherwise. */
  datatype DistanceLabel = Meters(meters: int) | Kilometres(km: real)

  function FormatDistance(km: real): DistanceLabel {
    if km < 1.0 then Meters((km * 1000.0 + 0.5).Floor) else Kilometres(km)
  }

  /** Over the slider's range a sub-kilometre radius shows as 1 to 1000
      metres, the metre count nearest to the radius. */
  lemma FormatDistanceSpec(km: real)
    requires MinAlertDistanceKm <= km <= MaxAlertDistanceKm
    ensures FormatDistance(km).Meters? <==> km < 1.0
    ensures FormatDistance(km).Meters? ==>
      var m := FormatDistance(km).meters;
      1 <= m <= 1000 && m as real - 0.5 <= km * 1000.0 < m as real + 0.5
  {
  }

  /** The screen's form. */
  class SettingsForm {
    var contacts: seq<string>
    var alertDistanceKm: real
    var loading: bool

    /** There is always at least one field to type in. */
    ghost predicate Valid()
      reads this
    {
      |contacts| >= MinContacts
    }

    /** No more fields than the server accepts. */
    ghost predicate WithinLimit()
      reads this
    {
      |contacts| <= MaxContacts
    }

    constructor ()
      ensures contacts == [""] && alertDistanceKm == DefaultAlertDistanceKm && loading
      ensures Valid() && WithinLimit()
    {
      contacts := [""];
      alertDistanceKm := DefaultAlertDistanceKm;
      loading := true;
    }

    /** loadSettings with the answer of GET /settings (None when it failed);
        an empty stored list still shows one field. */
    method LoadSettings(hasToken: bool, response: Option<Settings>)
      modifies this`contacts, this`alertDistanceKm, this`loading
      ensures !loading
      ensures hasToken && response.Some? ==>
        && contacts == (if |response.value.emergencyContacts| > 0 then response.value.emergencyContacts else [""])
        && alertDistanceKm == response.value.alertDistanceKm
      ensures !(hasToken && response.Some?) ==>
        contacts == old(contacts) && alertDistanceKm == old(alertDistanceKm)
      ensures old(Valid()) ==> Valid()
      ensures hasToken && response.Some? ==> (WithinLimit() <==> |response.value.emergencyContacts| <= MaxContacts)
    {
      if hasToken && response.Some? {
        var data := response.value;
        contacts := if |data.emergencyContacts| > 0 then data.emergencyContacts else [""];
        alertDistanceKm := data.alertDistanceKm;
      }
      loading := false;
    }

    /** A blank field is appended while there are fewer than five. */
    method AddContact()
      modifies this`contacts
      ensures |old(contacts)| < MaxContacts ==> contacts == old(contacts) + [""]
      ensures |old(contacts)| >= MaxContacts ==> contacts == old(contacts)
      ensures old(Valid()) ==> Valid()
      ensures old(WithinLimit()) ==> WithinLimit()
    {
      if |contacts| < MaxContacts {
        contacts := contacts + [""];
      }
    }

    /** The field at `index` goes, unless it is the only one. */
    method RemoveContact(index: int)
      modifies this`contacts
      ensures |old(contacts)| > 1 ==> contacts == RemoveAt(old(contacts), index)
      ensures |old(contacts)| <= 1 ==> contacts == old(contacts)
      ensures old(Valid()) ==> Valid()
      ensures old(WithinLimit()) ==> WithinLimit()
    {
      if |contacts| > 1 {
        contacts := RemoveAt(contacts, index);
      }
    }

    /** The field at `index` takes the typed text; the others stay. */
    method UpdateContact(index: int, value: string)
      modifies this`contacts
      ensures |contacts| == |old(contacts)|
      ensures forall i :: 0 <= i < |contacts| ==> contacts[i] == if i == index then value else old(contacts)[i]
    {
      var current := contacts;
      contacts := seq(|current|, i requires 0 <= i < |current| => if i == index then value else current[i]);
    }

    /** The slider (0.001 to 10 km) or a preset sets the radius. */
    method UpdateDistance(value: real)
      requires MinAlertDistanceKm <= value <= MaxAlertDistanceKm
      modifies this`alertDistanceKm
      ensures alertDistanceKm == value
    {
      alertDistanceKm := value;
    }
  }
}
