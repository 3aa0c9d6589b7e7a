/** The records of the SafeRide server and the pure rules its endpoints apply:
    the settings validator, the phone-number check, the queries behind the
    "nearby" endpoints, and the predicates the tables keep. Times are
    milliseconds on a `nat` clock. */
module BackendRules {
  import opened Text
  import opened Seqs
  import opened Geo

  const DefaultAlertDistanceKm: real := 10.0
  const MinAlertDistanceKm: real := 0.001
  const MaxAlertDistanceKm: real := 10.0
  const MinContacts: nat := 1
  const MaxContacts: nat := 5
  const MinPhoneLength: nat := 8
  /** `find({"is_active": True}).to_list(1000)` reads at most this many emergencies. */
  const ActiveEmergencyFetchCap: nat := 1000
  const DayMs: nat := 24 * 60 * 60 * 1000
  /** A reset token is valid for 15 minutes. */
  const ResetTokenLifetimeMs: nat := 15 * 60 * 1000

  datatype HttpError = HttpError(status: nat, detail: string)
  datatype Result<T> = Ok(value: T) | Err(error: HttpError)

  const EmptyContactError := HttpError(400, "Contact number cannot be empty")
  const ValidationFailed := HttpError(422, "Unprocessable Entity")

  datatype User = User(id: string, email: string, name: string, vehiclePlate: string, createdAt: nat)
  /** A row of the users table: the public record and the bcrypt hash. */
  datatype StoredUser = StoredUser(user: User, passwordHash: string)

  /** Both the stored settings and the body of POST /settings. */
  datatype Settings = Settings(emergencyContacts: seq<string>, alertDistanceKm: real)

  datatype Emergency = Emergency(
    id: string, userId: string, userName: string, vehiclePlate: string,
    location: Point, createdAt: nat, isActive: bool)

  datatype NearbyEmergency = NearbyEmergency(emergency: Emergency, distanceKm: real)

  datatype ChatMessage = ChatMessage(
    id: string, userId: string, userName: string, message: string,
    location: Point, createdAt: nat, messageType: string)

  datatype NearbyMessage = NearbyMessage(message: ChatMessage, distanceKm: real)

  datatype DeviceBinding = DeviceBinding(
    userId: string, deviceId: string, deviceName: string, deviceBrand: string,
    subscriptionType: string, boundAt: nat)

  /** The body of POST /subscription/bind-device. */
  datatype SubscriptionUpdate = SubscriptionUpdate(
    deviceId: string, deviceName: string, deviceBrand: string,
    subscriptionType: string, expiresAt: nat)

  datatype UserSubscription = UserSubscription(kind: string, expiresAt: nat, deviceId: string, updatedAt: nat)

  /** The answer of GET /subscription/check-device. */
  datatype DeviceStatus = DeviceStatus(deviceName: string, subscriptionType: string, expiresAt: Option<nat>)

  datatype ResetRecord = ResetRecord(email: string, token: string, expiresAt: nat, used: bool, createdAt: nat)

  // ---------------------------------------------------------------- settings

  /** The pydantic bounds of UserSettingsUpdate: 1 to 5 contacts and a radius
      from 1 m to 10 km. */
  predicate WithinFieldBounds(u: Settings) {
    MinContacts <= |u.emergencyContacts| <= MaxContacts
    && MinAlertDistanceKm <= u.alertDistanceKm <= MaxAlertDistanceKm
  }

  /** The characters the phone check deletes before looking at the number. */
  predicate IsFormatting(c: char) {
    c == ' ' || c == '-' || c == '(' || c == ')'
  }

  predicate NotFormatting(c: char) { !IsFormatting(c) }

  predicate NotPlus(c: char) { c != '+' }

  /** A character a well-formed phone entry may contain. */
  predicate IsPhoneChar(c: char) { IsDialChar(c) || IsFormatting(c) }

  /** Python's `isdigit()` on a str: non-empty and every character a digit. */
  predicate AllDigits(s: string) {
    |s| > 0 && forall i :: 0 <= i < |s| ==> IsDigit(s[i])
  }

  /** The contact with spaces, dashes and parentheses deleted. */
  function CleanNumber(contact: string): string {
    Keep(contact, NotFormatting)
  }

  /** The check applied to each contact by POST /settings, as the error it
      raises or None. */
  function ContactError(contact: string): Option<HttpError> {
    if PyBlank(contact) then Some(EmptyContactError)
    else
      var clean := CleanNumber(contact);
      if !AllDigits(Keep(clean, NotPlus)) || |clean| < MinPhoneLength
      then Some(HttpError(400, "Invalid phone number format: " + contact))
      else None
  }

  /** The characters left after the deletions of the phone check are those of
      the contact that are neither formatting nor a plus sign. */
  lemma CheckedCharsMembers(contact: string)
    ensures forall x :: x in Keep(CleanNumber(contact), NotPlus) <==> x in contact && NotFormatting(x) && NotPlus(x)
  {
    forall x ensures x in Keep(CleanNumber(contact), NotPlus) <==> x in contact && NotFormatting(x) && NotPlus(x) {
      KeepMember(contact, NotFormatting, x);
      KeepMember(CleanNumber(contact), NotPlus, x);
    }
  }

  /** For a contact made of phone characters only, what is left after the
      deletions is all digits exactly when the contact has a digit. */
  lemma PhoneDigits(contact: string)
    requires forall i :: 0 <= i < |contact| ==> IsPhoneChar(contact[i])
    ensures AllDigits(Keep(CleanNumber(contact), NotPlus)) <==> exists i :: 0 <= i < |contact| && IsDigit(contact[i])
  {
    var digits := Keep(CleanNumber(contact), NotPlus);
    CheckedCharsMembers(contact);
    forall k | 0 <= k < |digits| ensures IsDigit(digits[k]) {
      assert digits[k] in digits;
      var m :| 0 <= m < |contact| && contact[m] == digits[k];
      assert IsPhoneChar(contact[m]);
    }
    if exists i :: 0 <= i < |contact| && IsDigit(contact[i]) {
      var i :| 0 <= i < |contact| && IsDigit(contact[i]);
      assert contact[i] in digits;
    }
    if |digits| > 0 {
      assert digits[0] in digits;
      var m :| 0 <= m < |contact| && contact[m] == digits[0];
      assert IsDigit(contact[m]);
    }
  }

  /** A contact made of phone characters only passes exactly when it has a
      digit and at least eight digits and plus signs together. */
  lemma PhoneCharsAccepted(contact: string)
    requires forall i :: 0 <= i < |contact| ==> IsPhoneChar(contact[i])
    ensures ContactError(contact).None? <==>
      (exists i :: 0 <= i < |contact| && IsDigit(contact[i])) && |Keep(contact, IsDialChar)| >= MinPhoneLength
  {
    KeepAgree(contact, NotFormatting, IsDialChar);
    PhoneDigits(contact);
    if PyBlank(contact) {
      assert forall i :: 0 <= i < |contact| ==> !IsDigit(contact[i]);
    }
  }

  /** A contact with any other character is rejected. */
  lemma OtherCharRejected(contact: string, i: int)
    requires 0 <= i < |contact| && !IsPhoneChar(contact[i])
    ensures ContactError(contact).Some?
  {
    if !PyBlank(contact) {
      CheckedCharsMembers(contact);
      assert contact[i] in Keep(CleanNumber(contact), NotPlus);
    }
  }

  /** The phone check stated without the intermediate deletions: a contact
      passes exactly when it is made of digits, '+', spaces, dashes and
      parentheses only, has at least one digit, and has at least eight digits
      and plus signs together. */
  lemma PhoneAcceptedIff(contact: string)
    ensures ContactError(contact).None? <==>
      && (forall i :: 0 <= i < |contact| ==> IsPhoneChar(contact[i]))
      && (exists i :: 0 <= i < |contact| && IsDigit(contact[i]))
      && |Keep(contact, IsDialChar)| >= MinPhoneLength
  {
    if forall i :: 0 <= i < |contact| ==> IsPhoneChar(contact[i]) {
      PhoneCharsAccepted(contact);
    } else {
      var i :| 0 <= i < |contact| && !IsPhoneChar(contact[i]);
      OtherCharRejected(contact, i);
    }
  }

  /** The first error among the contacts, in list order. */
  function FirstContactError(contacts: seq<string>): Option<HttpError> {
    if contacts == [] then None
    else if ContactError(contacts[0]).Some? then ContactError(contacts[0])
    else FirstContactError(contacts[1..])
  }

  /** The outcome of validating a POST /settings body: the field bounds first
      (422), then each contact in order (400). */
  function SettingsError(u: Settings): Option<HttpError> {
    if !WithinFieldBounds(u) then Some(ValidationFailed) else FirstContactError(u.emergencyContacts)
  }

  /** Settings the server accepts. */
  predicate SettingsAccepted(u: Settings) {
    WithinFieldBounds(u) && forall i :: 0 <= i < |u.emergencyContacts| ==> ContactError(u.emergencyContacts[i]).None?
  }

  /** The first error is absent exactly when every contact passes, and it is
      the error of the first contact that fails. */
  lemma {:induction false} FirstContactErrorSpec(contacts: seq<string>)
    ensures FirstContactError(contacts).None? <==> forall i :: 0 <= i < |contacts| ==> ContactError(contacts[i]).None?
    ensures FirstContactError(contacts).Some? ==>
      exists i :: 0 <= i < |contacts| && FirstContactError(contacts) == ContactError(contacts[i])
        && forall j :: 0 <= j < i ==> ContactError(contacts[j]).None?
  {
    if contacts != [] && ContactError(contacts[0]).None? {
      FirstContactErrorSpec(contacts[1..]);
      if FirstContactError(contacts[1..]).Some? {
        var i :| 0 <= i < |contacts[1..]| && FirstContactError(contacts[1..]) == ContactError(contacts[1..][i])
          && forall j :: 0 <= j < i ==> ContactError(contacts[1..][j]).None?;
        assert FirstContactError(contacts) == ContactError(contacts[i + 1]);
      }
    }
  }

  /** Validation succeeds exactly on accepted settings; every rejection is a
      400 or a 422. */
  lemma SettingsErrorSpec(u: Settings)
    ensures SettingsError(u).None? <==> SettingsAccepted(u)
    ensures SettingsError(u).Some? ==> SettingsError(u).value.status in {400, 422}
    ensures !WithinFieldBounds(u) ==> SettingsError(u) == Some(ValidationFailed)
  {
    FirstContactErrorSpec(u.emergencyContacts);
  }

  /** The validation loop of POST /settings: it stops at the first contact
      that fails. */
  method ValidateSettingsUpdate(u: Settings) returns (err: Option<HttpError>)
    ensures err.None? <==> SettingsAccepted(u)
    ensures err == SettingsError(u)
  {
    if !WithinFieldBounds(u) {
      return Some(ValidationFailed);
    }
    var i := 0;
    while i < |u.emergencyContacts|
      invariant 0 <= i <= |u.emergencyContacts|
      invariant forall j :: 0 <= j < i ==> ContactError(u.emergencyContacts[j]).None?
      invariant FirstContactError(u.emergencyContacts) == FirstContactError(u.emergencyContacts[i..])
    {
      var e := ContactError(u.emergencyContacts[i]);
      if e.Some? {
        return e;
      }
      assert u.emergencyContacts[i..][1..] == u.emergencyContacts[i + 1..];
      i := i + 1;
    }
    return None;
  }

  /** GET /settings when nothing is stored. */
  const DefaultSettings := Settings([], DefaultAlertDistanceKm)

  /** The radius the nearby endpoints use: the stored one, or 10 km. */
  function AlertRadius(settings: map<string, Settings>, userId: string): (r: real)
    ensures userId !in settings ==> r == DefaultAlertDistanceKm
  {
    if userId in settings then settings[userId].alertDistanceKm else DefaultAlertDistanceKm
  }

  /** Stored settings keep the radius within 1 m to 10 km, so both nearby
      endpoints filter with a radius in that range. */
  lemma AlertRadiusBounds(settings: map<string, Settings>, userId: string)
    requires forall uid :: uid in settings ==> SettingsAccepted(settings[uid])
    ensures MinAlertDistanceKm <= AlertRadius(settings, userId) <= MaxAlertDistanceKm
  {
  }

  // ------------------------------------------------------------- emergencies

  predicate IsActive(e: Emergency) { e.isActive }

  /** No user has two active emergencies. */
  ghost predicate OneActivePerUser(es: seq<Emergency>) {
    forall i, j :: 0 <= i < j < |es| && es[i].isActive && es[j].isActive ==> es[i].userId != es[j].userId
  }

  /** The match of `{"user_id": uid, "is_active": True}`. */
  function ActiveOf(userId: string): Emergency -> bool {
    (e: Emergency) => e.userId == userId && e.isActive
  }

  /** The match of `{"id": id, "user_id": uid}`. */
  function OwnedEmergency(id: string, userId: string): Emergency -> bool {
    (e: Emergency) => e.id == id && e.userId == userId
  }

  /** The active emergencies the nearby query reads, in stored order. */
  function ActiveCandidates(es: seq<Emergency>): seq<Emergency> {
    Take(Keep(es, IsActive), ActiveEmergencyFetchCap)
  }

  /** The loop's test: not the caller's own, and within the radius. */
  function NearbyTest(callerId: string, here: Point, radius: real, dist: Distance): Emergency -> bool {
    (e: Emergency) => e.userId != callerId && dist(here, e.location) <= radius
  }

  /** Each emergency with its distance from `here`, rounded to two decimals. */
  function WithDistance(es: seq<Emergency>, here: Point, dist: Distance): (r: seq<NearbyEmergency>)
    ensures |r| == |es|
    ensures forall k :: 0 <= k < |es| ==> r[k] == NearbyEmergency(es[k], RoundHundredths(dist(here, es[k].location)))
  {
    seq(|es|, k requires 0 <= k < |es| => NearbyEmergency(es[k], RoundHundredths(dist(here, es[k].location))))
  }

  /** Appending an emergency appends its entry. */
  lemma WithDistanceSnoc(es: seq<Emergency>, e: Emergency, here: Point, dist: Distance)
    ensures WithDistance(es + [e], here, dist) == WithDistance(es, here, dist) + [NearbyEmergency(e, RoundHundredths(dist(here, e.location)))]
  {
    assert forall k :: 0 <= k < |es| ==> (es + [e])[k] == es[k];
  }

  /** The answer of GET /emergencies/nearby. */
  function NearbyEmergencies(es: seq<Emergency>, callerId: string, here: Point, radius: real, dist: Distance): seq<NearbyEmergency> {
    WithDistance(Keep(ActiveCandidates(es), NearbyTest(callerId, here, radius, dist)), here, dist)
  }

  /** Every nearby emergency is stored, active, someone else's, within the
      radius, and carries its distance rounded to two decimals. */
  lemma NearbyEmergenciesSound(es: seq<Emergency>, callerId: string, here: Point, radius: real, dist: Distance)
    ensures forall r :: r in NearbyEmergencies(es, callerId, here, radius, dist) ==>
      && r.emergency in es && r.emergency.isActive && r.emergency.userId != callerId
      && dist(here, r.emergency.location) <= radius
      && r.distanceKm == RoundHundredths(dist(here, r.emergency.location)) && r.distanceKm <= radius + 0.005
  {
    var active := Keep(es, IsActive);
    var kept := Keep(ActiveCandidates(es), NearbyTest(callerId, here, radius, dist));
    forall r | r in NearbyEmergencies(es, callerId, here, radius, dist)
      ensures r.emergency in es && r.emergency.isActive
    {
      var k :| 0 <= k < |kept| && r == NearbyEmergency(kept[k], RoundHundredths(dist(here, kept[k].location)));
      assert kept[k] in active;
      KeepMember(es, IsActive, kept[k]);
    }
  }

  /** While no more than 1000 emergencies are active, every active emergency
      of another user within the radius is reported, with its rounded distance. */
  lemma NearbyEmergenciesComplete(es: seq<Emergency>, callerId: string, here: Point, radius: real, dist: Distance, e: Emergency)
    requires |Keep(es, IsActive)| <= ActiveEmergencyFetchCap
    requires e in es && e.isActive && e.userId != callerId && dist(here, e.location) <= radius
    ensures NearbyEmergency(e, RoundHundredths(dist(here, e.location))) in NearbyEmergencies(es, callerId, here, radius, dist)
  {
    KeepMember(es, IsActive, e);
    var kept := Keep(ActiveCandidates(es), NearbyTest(callerId, here, radius, dist));
    KeepMember(ActiveCandidates(es), NearbyTest(callerId, here, radius, dist), e);
    var k :| 0 <= k < |kept| && kept[k] == e;
    assert NearbyEmergencies(es, callerId, here, radius, dist)[k] == NearbyEmergency(e, RoundHundredths(dist(here, e.location)));
  }

  // -------------------------------------------------------------------- chat

  function ChatTime(m: ChatMessage): int { m.createdAt }

  /** `{"created_at": {"$gte": now - 24h}}`. */
  function IsRecent(now: nat): ChatMessage -> bool {
    (m: ChatMessage) => m.createdAt + DayMs >= now
  }

  /** The match of `{"id": id, "user_id": uid}`. */
  function OwnedMessage(id: string, userId: string): ChatMessage -> bool {
    (m: ChatMessage) => m.id == id && m.userId == userId
  }

  /** The messages of the last 24 hours sorted newest first: the table is
      stored in sending order, so this is the table read backwards. */
  function RecentNewestFirst(chats: seq<ChatMessage>, now: nat): seq<ChatMessage> {
    Keep(Reverse(chats), IsRecent(now))
  }

  /** The query's `.limit(limit * 3)`. */
  function ChatCandidates(chats: seq<ChatMessage>, now: nat, limit: nat): seq<ChatMessage> {
    Take(RecentNewestFirst(chats, now), 3 * limit)
  }

  function WithinRadius(here: Point, radius: real, dist: Distance): ChatMessage -> bool {
    (m: ChatMessage) => dist(here, m.location) <= radius
  }

  /** Each message with its distance from `here`, rounded to two decimals. */
  function MessagesWithDistance(ms: seq<ChatMessage>, here: Point, dist: Distance): (r: seq<NearbyMessage>)
    ensures |r| == |ms|
    ensures forall k :: 0 <= k < |ms| ==> r[k] == NearbyMessage(ms[k], RoundHundredths(dist(here, ms[k].location)))
  {
    seq(|ms|, k requires 0 <= k < |ms| => NearbyMessage(ms[k], RoundHundredths(dist(here, ms[k].location))))
  }

  /** Appending a message appends its entry. */
  lemma MessagesWithDistanceSnoc(ms: seq<ChatMessage>, m: ChatMessage, here: Point, dist: Distance)
    ensures MessagesWithDistance(ms + [m], here, dist) == MessagesWithDistance(ms, here, dist) + [NearbyMessage(m, RoundHundredths(dist(here, m.location)))]
  {
    assert forall k :: 0 <= k < |ms| ==> (ms + [m])[k] == ms[k];
  }

  /** The list the loop of GET /chat/nearby builds, before the final slice. */
  function NearbyChatUnsliced(chats: seq<ChatMessage>, now: nat, limit: nat, here: Point, radius: real, dist: Distance): seq<NearbyMessage> {
    MessagesWithDistance(Keep(ChatCandidates(chats, now, limit), WithinRadius(here, radius, dist)), here, dist)
  }

  /** The answer of GET /chat/nearby. The caller is not a parameter: their
      own messages are not excluded. */
  function NearbyChat(chats: seq<ChatMessage>, now: nat, limit: nat, here: Point, radius: real, dist: Distance): seq<NearbyMessage> {
    Take(NearbyChatUnsliced(chats, now, limit, here, radius, dist), limit)
  }

  /** At most `limit` messages, each stored, from the last 24 hours, within
      the radius and carrying its distance rounded to two decimals. */
  lemma NearbyChatSound(chats: seq<ChatMessage>, now: nat, limit: nat, here: Point, radius: real, dist: Distance)
    ensures |NearbyChat(chats, now, limit, here, radius, dist)| <= limit
    ensures forall r :: r in NearbyChat(chats, now, limit, here, radius, dist) ==>
      && r.message in chats && r.message.createdAt + DayMs >= now
      && dist(here, r.message.location) <= radius
      && r.distanceKm == RoundHundredths(dist(here, r.message.location)) && r.distanceKm <= radius + 0.005
  {
    var cands := ChatCandidates(chats, now, limit);
    var kept := Keep(cands, WithinRadius(here, radius, dist));
    var result := NearbyChat(chats, now, limit, here, radius, dist);
    assert result == MessagesWithDistance(kept, here, dist)[..|result|];
    forall r | r in result
      ensures r.message in chats && r.message.createdAt + DayMs >= now
    {
      var k :| 0 <= k < |result| && result[k] == r;
      assert kept[k] in cands;
      assert kept[k] in RecentNewestFirst(chats, now);
      KeepMember(Reverse(chats), IsRecent(now), kept[k]);
      var m :| 0 <= m < |chats| && Reverse(chats)[m] == kept[k];
    }
  }

  /** When the table is in sending order, the answer is newest first. */
  lemma NearbyChatNewestFirst(chats: seq<ChatMessage>, now: nat, limit: nat, here: Point, radius: real, dist: Distance)
    requires Ascending(chats, ChatTime)
    ensures Descending(NearbyChat(chats, now, limit, here, radius, dist), (r: NearbyMessage) => r.message.createdAt)
  {
    var cands := ChatCandidates(chats, now, limit);
    var kept := Keep(cands, WithinRadius(here, radius, dist));
    var result := NearbyChat(chats, now, limit, here, radius, dist);
    assert Descending(Reverse(chats), ChatTime);
    KeepDescending(Reverse(chats), IsRecent(now), ChatTime);
    KeepDescending(cands, WithinRadius(here, radius, dist), ChatTime);
    assert result == MessagesWithDistance(kept, here, dist)[..|result|];
    forall i, j | 0 <= i < j < |result|
      ensures result[i].message.createdAt >= result[j].message.createdAt
    {
      assert result[i].message == kept[i] && result[j].message == kept[j];
    }
  }

  /** A message within the radius among the candidates is reported whenever
      fewer than `limit` candidates pass the distance test. */
  lemma NearbyChatComplete(chats: seq<ChatMessage>, now: nat, limit: nat, here: Point, radius: real, dist: Distance, m: ChatMessage)
    requires m in ChatCandidates(chats, now, limit) && dist(here, m.location) <= radius
    requires |Keep(ChatCandidates(chats, now, limit), WithinRadius(here, radius, dist))| <= limit
    ensures NearbyMessage(m, RoundHundredths(dist(here, m.location))) in NearbyChat(chats, now, limit, here, radius, dist)
  {
    var kept := Keep(ChatCandidates(chats, now, limit), WithinRadius(here, radius, dist));
    KeepMember(ChatCandidates(chats, now, limit), WithinRadius(here, radius, dist), m);
    var k :| 0 <= k < |kept| && kept[k] == m;
    assert NearbyChat(chats, now, limit, here, radius, dist)[k] == NearbyMessage(m, RoundHundredths(dist(here, m.location)));
  }

  // ----------------------------------------------------------- reset tokens

  /** `{"token": t, "used": False, "expires_at": {"$gt": now}}`. */
  function UsableToken(token: string, now: nat): ResetRecord -> bool {
    (r: ResetRecord) => r.token == token && !r.used && r.expiresAt > now
  }

  function HasToken(token: string): ResetRecord -> bool {
    (r: ResetRecord) => r.token == token
  }

  /** No token is stored twice. */
  ghost predicate DistinctTokens(rs: seq<ResetRecord>) {
    forall i, j :: 0 <= i < j < |rs| ==> rs[i].token != rs[j].token
  }

  /** With distinct tokens, the record found by the validity query is the one
      `update_one({"token": t})` marks as used. */
  lemma UsableIsFirstWithToken(rs: seq<ResetRecord>, token: string, now: nat)
    requires DistinctTokens(rs)
    requires IndexOf(rs, UsableToken(token, now)).Some?
    ensures IndexOf(rs, HasToken(token)) == IndexOf(rs, UsableToken(token, now))
  {
    var i := IndexOf(rs, UsableToken(token, now)).value;
    assert HasToken(token)(rs[i]);
    var j := IndexOf(rs, HasToken(token)).value;
    assert rs[j].token == rs[i].token;
  }
}
