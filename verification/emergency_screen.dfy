/** The emergency screen of the app: the big button that raises or cancels
    an emergency, the flag it keeps in the device's key-value storage, and
    the WhatsApp links it opens for the user's emergency contacts. */
module EmergencyScreen {
  import opened Text
  import opened Seqs

  /** The storage key of the "emergency active" flag. */
  const FlagKey := "emergency_button_disabled"
  const TokenKey := "auth_token"
  const WhatsAppPrefix := "https://wa.me/"

  // -------------------------------------------------- WhatsApp numbers

  /** `contact.replace(/[^\d+]/g, '')`: only digits and plus signs remain. */
  function DialChars(contact: string): string {
    Keep(contact, IsDialChar)
  }

  /** `s.replace(/^0+/, '')`: the leading zeros removed. */
  function StripLeadingZeros(s: string): (r: string)
    ensures |r| <= |s| && r == s[|s| - |r|..]
    ensures forall i :: 0 <= i < |s| - |r| ==> s[i] == '0'
    ensures r == [] || r[0] != '0'
  {
    if s != [] && s[0] == '0' then StripLeadingZeros(s[1..]) else s
  }

  /** The prefix a national number gets: the country code 55 for an
      eleven-digit mobile number starting with 9, 55 and the mobile prefix 9
      for a ten-digit number, nothing otherwise. Either way a prefixed number
      is thirteen characters long and starts with '5'. */
  function CountryPrefix(national: string): (p: string)
    ensures p == "" || p == "55" || p == "559"
    ensures p != "" ==> |p + national| == 13 && (p + national)[0] == '5'
  {
    if |national| == 11 && national[0] == '9' then "55"
    else if |national| == 10 then "559"
    else ""
  }

  /** The number a WhatsApp link is built from. A number written with '+'
      is taken as international; otherwise the leading zeros go and the
      country prefix is put in front. */
  function NormalizeNumber(contact: string): string {
    var clean := DialChars(contact);
    if |clean| > 0 && clean[0] == '+' then clean
    else
      var national := StripLeadingZeros(clean);
      CountryPrefix(national) + national
  }

  /** The link launched for one contact; the alert text, already URL-encoded,
      is a parameter. */
  function WhatsAppLink(contact: string, encodedMessage: string): string {
    WhatsAppPrefix + NormalizeNumber(contact) + "?text=" + encodedMessage
  }

  /** The dial characters of a contact are exactly its digits and plus signs,
      each as often as in the contact and in the same order. */
  lemma DialCharsSpec(contact: string)
    ensures forall i :: 0 <= i < |DialChars(contact)| ==> IsDialChar(DialChars(contact)[i])
    ensures forall c :: multiset(DialChars(contact))[c] == if IsDialChar(c) then multiset(contact)[c] else 0
    ensures forall a, b :: contact == a + b ==> DialChars(contact) == DialChars(a) + DialChars(b)
  {
    forall c ensures multiset(DialChars(contact))[c] == if IsDialChar(c) then multiset(contact)[c] else 0 {
      KeepCount(contact, IsDialChar, c);
    }
    forall a, b | contact == a + b ensures DialChars(contact) == DialChars(a) + DialChars(b) {
      KeepConcat(a, b, IsDialChar);
    }
  }

  /** A number written with '+' is kept as dialled; any other becomes its
      zero-stripped national form behind one of the prefixes "", "55" or
      "559", so at most three characters are added. */
  lemma NormalizeShape(contact: string)
    ensures var clean := DialChars(contact);
      |clean| > 0 && clean[0] == '+' ==> NormalizeNumber(contact) == clean
    ensures var clean := DialChars(contact);
      !(|clean| > 0 && clean[0] == '+') ==>
        exists p :: (p == "" || p == "55" || p == "559") && NormalizeNumber(contact) == p + StripLeadingZeros(clean)
    ensures |NormalizeNumber(contact)| <= |DialChars(contact)| + 3
  {
    var clean := DialChars(contact);
    if !(|clean| > 0 && clean[0] == '+') {
      var national := StripLeadingZeros(clean);
      assert NormalizeNumber(contact) == CountryPrefix(national) + national;
    }
  }

  /** A normalized number is made of digits and plus signs only. */
  lemma NormalizeDialChars(contact: string)
    ensures forall i :: 0 <= i < |NormalizeNumber(contact)| ==> IsDialChar(NormalizeNumber(contact)[i])
  {
    var clean := DialChars(contact);
    if !(|clean| > 0 && clean[0] == '+') {
      var national := StripLeadingZeros(clean);
      forall i | 0 <= i < |national| ensures IsDialChar(national[i]) {
        assert national[i] == clean[|clean| - |national| + i];
      }
      PrefixedDialChars(CountryPrefix(national), national);
    }
  }

  /** Putting one of the prefixes in front of dial characters leaves dial
      characters. */
  lemma PrefixedDialChars(p: string, national: string)
    requires p == "" || p == "55" || p == "559"
    requires forall i :: 0 <= i < |national| ==> IsDialChar(national[i])
    ensures forall i :: 0 <= i < |p + national| ==> IsDialChar((p + national)[i])
  {
    forall i | 0 <= i < |p + national| ensures IsDialChar((p + national)[i]) {
      if i < |p| {
        assert p[i] == '5' || p[i] == '9';
      } else {
        assert (p + national)[i] == national[i - |p|];
      }
    }
  }

  /** Normalizing a normalized number changes nothing. */
  lemma NormalizeIdempotent(contact: string)
    ensures NormalizeNumber(NormalizeNumber(contact)) == NormalizeNumber(contact)
  {
    var n := NormalizeNumber(contact);
    NormalizeDialChars(contact);
    KeepAll(n, IsDialChar);
    assert DialChars(n) == n;
    var clean := DialChars(contact);
    if !(|clean| > 0 && clean[0] == '+') {
      var national := StripLeadingZeros(clean);
      if CountryPrefix(national) != "" {
        assert StripLeadingZeros(n) == n;
      }
    }
  }

  /** The clean-up of one contact in the loop of `sendWhatsAppAlerts`, step
      by step: keep the dial characters, then, unless the number starts with
      '+', drop the leading zeros and put the country prefix in front. */
  method CleanContactNumber(contact: string) returns (cleanNumber: string)
    ensures cleanNumber == NormalizeNumber(contact)
  {
    cleanNumber := DialChars(contact);
    if !(|cleanNumber| > 0 && cleanNumber[0] == '+') {
      cleanNumber := StripLeadingZeros(cleanNumber);
      ghost var national := cleanNumber;
      if |cleanNumber| == 11 && cleanNumber[0] == '9' {
        cleanNumber := "55" + cleanNumber;
      } else if |cleanNumber| == 10 {
        cleanNumber := "559" + cleanNumber;
      } else {
        assert cleanNumber == "" + national;
      }
      assert cleanNumber == CountryPrefix(national) + national;
    }
  }

  /** The links of `sendWhatsAppAlerts`, one per contact in order, and the
      ones actually launched: those the platform reports it can open. */
  method SendWhatsAppAlerts(contacts: seq<string>, encodedMessage: string, canOpen: string -> bool)
    returns (links: seq<string>, launched: seq<string>)
    ensures |links| == |contacts|
    ensures forall i :: 0 <= i < |contacts| ==> links[i] == WhatsAppLink(contacts[i], encodedMessage)
    ensures launched == Keep(links, canOpen)
  {
    links := [];
    launched := [];
    for i := 0 to |contacts|
      invariant links == Map(contacts[..i], (c: string) => WhatsAppLink(c, encodedMessage))
      invariant launched == Keep(links, canOpen)
    {
      var cleanNumber := CleanContactNumber(contacts[i]);
      var url := WhatsAppPrefix + cleanNumber + "?text=" + encodedMessage;
      MapSnoc(contacts, i, (c: string) => WhatsAppLink(c, encodedMessage));
      KeepConcat(links, [url], canOpen);
      assert Keep([url], canOpen) == if canOpen(url) then [url] else [];
      links := links + [url];
      if canOpen(url) {
        launched := launched + [url];
      }
    }
    assert contacts[..|contacts|] == contacts;
    MapAt(contacts, (c: string) => WhatsAppLink(c, encodedMessage));
  }

  // -------------------------------------------------- the button

  /** What a tap on the button does. */
  datatype PressAction =
    | Ignored                // the button is disabled while a request runs
    | AskCancel              // an emergency is active: confirm cancelling it
    | RefuseNoLocation       // no position fix or no signed-in user yet
    | AskConfirmEmergency    // confirm raising an emergency

  function OnPress(active: bool, loading: bool, hasLocation: bool, hasUser: bool): PressAction {
    if loading then Ignored
    else if active then AskCancel
    else if !hasLocation || !hasUser then RefuseNoLocation
    else AskConfirmEmergency
  }

  /** The whole decision table: a tap is ignored exactly while loading;
      otherwise it asks to cancel exactly when the flag is set, is refused
      exactly when the position or the user is missing, and offers to raise
      an emergency exactly when both are there. */
  lemma OnPressSpec(active: bool, loading: bool, hasLocation: bool, hasUser: bool)
    ensures OnPress(active, loading, hasLocation, hasUser) == Ignored <==> loading
    ensures OnPress(active, loading, hasLocation, hasUser) == AskCancel <==> !loading && active
    ensures OnPress(active, loading, hasLocation, hasUser) == RefuseNoLocation <==>
      !loading && !active && (!hasLocation || !hasUser)
    ensures OnPress(active, loading, hasLocation, hasUser) == AskConfirmEmergency <==>
      !loading && !active && hasLocation && hasUser
  {
  }

  /** The screen's state: the flag shown on the button, the loading state
      that disables it, and the device storage it reads and writes. */
  class EmergencyButton {
    var active: bool
    var loading: bool
    var storage: map<string, string>

    constructor (stored: map<string, string>)
      ensures !active && !loading && storage == stored
    {
      active := false;
      loading := false;
      storage := stored;
    }

    /** A token is present and non-empty. */
    predicate HasToken()
      reads this
    {
      TokenKey in storage && storage[TokenKey] != ""
    }

    /** On mount: the flag is restored when storage holds "true". */
    method CheckEmergencyState()
      modifies this`active
      ensures active == (old(active) || (FlagKey in storage && storage[FlagKey] == "true"))
    {
      if FlagKey in storage && storage[FlagKey] == "true" {
        active := true;
      }
    }

    /** The confirmed activation. `settings` is the contact list of a
        successful GET /settings (None when it failed) and `created` whether
        POST /emergency succeeded. On success the flag is set and stored and
        the contacts, if any, get their links. */
    method ActivateEmergency(settings: Option<seq<string>>, created: bool, encodedMessage: string, canOpen: string -> bool)
      returns (links: seq<string>, launched: seq<string>)
      modifies this`active, this`loading, this`storage
      ensures !loading
      ensures HasToken() == old(HasToken())
      ensures old(HasToken()) && created ==>
        active && storage == old(storage)[FlagKey := "true"]
      ensures !(old(HasToken()) && created) ==>
        active == old(active) && storage == old(storage) && links == [] && launched == []
      ensures var contacts := if settings.Some? then settings.value else [];
        old(HasToken()) && created ==>
          |links| == |contacts| && (forall i :: 0 <= i < |contacts| ==> links[i] == WhatsAppLink(contacts[i], encodedMessage))
          && launched == Keep(links, canOpen)
    {
      loading := true;
      links, launched := [], [];
      if HasToken() {
        var contacts := if settings.Some? then settings.value else [];
        if created {
          active := true;
          storage := storage[FlagKey := "true"];
          if |contacts| > 0 {
            links, launched := SendWhatsAppAlerts(contacts, encodedMessage, canOpen);
          }
        }
      }
      loading := false;
    }

    /** The confirmed cancellation: when POST /emergency/cancel succeeds the
        flag is cleared and removed from storage. */
    method CancelEmergency(cancelled: bool)
      modifies this`active, this`storage
      ensures old(HasToken()) && cancelled ==>
        !active && storage == old(storage) - {FlagKey}
      ensures !(old(HasToken()) && cancelled) ==> active == old(active) && storage == old(storage)
    {
      if HasToken() && cancelled {
        active := false;
        storage := storage - {FlagKey};
      }
    }
  }
}
