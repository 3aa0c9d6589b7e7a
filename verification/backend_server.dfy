/** The SafeRide server's endpoints as guarded updates of its tables. Each
    endpoint either answers with an error and changes nothing, or makes one
    specific change; the `modifies` frame names the only tables it may touch.
    The caller is the already authenticated user (token decoding is not part
    of this model); identifiers, the reset token, the password hash and the
    clock are parameters. */
module Backend {
  import opened Seqs
  import opened Geo
  import opened BackendRules

  const ResetRequestMessage := "If the email exists, a reset link will be sent"
  const InvalidResetToken := HttpError(400, "Invalid or expired reset token")
  const UserNotFound := HttpError(404, "User not found")
  const EmailTaken := HttpError(400, "Email already registered")
  const BadCredentials := HttpError(401, "Incorrect email or password")
  const AlreadyActive := HttpError(400, "You already have an active emergency")
  const NoActiveEmergency := HttpError(404, "No active emergency found")
  const EmergencyNotFound := HttpError(404, "Emergency not found")
  const MessageNotFound := HttpError(404, "Message not found or not authorized")
  const DeviceNotFound := HttpError(404, "No subscription found for this device")

  /** The 409 answer naming the device that already holds the subscription. */
  function BindingConflictError(existing: DeviceBinding): HttpError {
    HttpError(409, "Esta assinatura já está ativa no dispositivo: " + existing.deviceName
      + " (" + existing.deviceBrand + "). Cancele a assinatura no outro dispositivo primeiro.")
  }

  /** The user already holds a binding for the same subscription type on
      another device. */
  predicate BindingConflict(bindings: map<string, DeviceBinding>, userId: string, req: SubscriptionUpdate) {
    userId in bindings
    && bindings[userId].subscriptionType == req.subscriptionType
    && bindings[userId].deviceId != req.deviceId
  }

  class Server {
    /** Users by email. */
    var users: map<string, StoredUser>
    /** Settings by user id. */
    var settings: map<string, Settings>
    /** Emergencies in insertion order. */
    var emergencies: seq<Emergency>
    /** Chat messages in sending order. */
    var chats: seq<ChatMessage>
    /** Device bindings by user id (the upsert is keyed by user id only). */
    var bindings: map<string, DeviceBinding>
    /** Subscriptions by user id. */
    var subscriptions: map<string, UserSubscription>
    /** Password-reset records in insertion order. */
    var resets: seq<ResetRecord>

    ghost predicate Valid()
      reads this
    {
      && (forall email :: email in users ==> users[email].user.email == email)
      && (forall uid :: uid in settings ==> SettingsAccepted(settings[uid]))
      && OneActivePerUser(emergencies)
      && Ascending(chats, ChatTime)
      && (forall uid :: uid in bindings ==> bindings[uid].userId == uid)
      && DistinctTokens(resets)
    }

    constructor ()
      ensures Valid()
      ensures users == map[] && settings == map[] && emergencies == [] && chats == []
      ensures bindings == map[] && subscriptions == map[] && resets == []
    {
      users, settings, emergencies, chats := map[], map[], [], [];
      bindings, subscriptions, resets := map[], map[], [];
    }

    /** POST /register: an email registers once. */
    method Register(email: string, name: string, vehiclePlate: string, newId: string, passwordHash: string, now: nat)
      returns (r: Result<User>)
      requires Valid()
      modifies this`users
      ensures Valid()
      ensures email in old(users) ==> r == Err(EmailTaken) && users == old(users)
      ensures email !in old(users) ==>
        && r == Ok(User(newId, email, name, vehiclePlate, now))
        && users == old(users)[email := StoredUser(r.value, passwordHash)]
    {
      if email in users {
        return Err(EmailTaken);
      }
      var user := User(newId, email, name, vehiclePlate, now);
      users := users[email := StoredUser(user, passwordHash)];
      return Ok(user);
    }

    /** POST /login; `verify` stands for the bcrypt check. */
    method Login(email: string, password: string, verify: (string, string) -> bool) returns (r: Result<User>)
      requires Valid()
      ensures r.Ok? <==> email in users && verify(password, users[email].passwordHash)
      ensures r.Ok? ==> r.value == users[email].user && r.value.email == email
      ensures r.Err? ==> r.error == BadCredentials
    {
      if email !in users || !verify(password, users[email].passwordHash) {
        return Err(BadCredentials);
      }
      return Ok(users[email].user);
    }

    /** POST /forgot-password: stores a 15-minute token for a known email and
        answers the same message whether or not the email is known. */
    method ForgotPassword(email: string, token: string, now: nat) returns (message: string)
      requires Valid()
      requires forall i :: 0 <= i < |resets| ==> resets[i].token != token
      modifies this`resets
      ensures Valid()
      ensures message == ResetRequestMessage
      ensures email in users ==> resets == old(resets) + [ResetRecord(email, token, now + ResetTokenLifetimeMs, false, now)]
      ensures email !in users ==> resets == old(resets)
    {
      if email in users {
        resets := resets + [ResetRecord(email, token, now + ResetTokenLifetimeMs, false, now)];
      }
      return ResetRequestMessage;
    }

    /** POST /reset-password: a token works once, before it expires, and only
        for an email that is still registered. */
    method ResetPassword(token: string, newPasswordHash: string, now: nat) returns (r: Result<string>)
      requires Valid()
      modifies this`users, this`resets
      ensures Valid()
      ensures IndexOf(old(resets), UsableToken(token, now)).None? ==>
        r == Err(InvalidResetToken) && users == old(users) && resets == old(resets)
      ensures IndexOf(old(resets), UsableToken(token, now)).Some? ==>
        var i := IndexOf(old(resets), UsableToken(token, now)).value;
        var email := old(resets)[i].email;
        && (email !in old(users) ==> r == Err(UserNotFound) && users == old(users) && resets == old(resets))
        && (email in old(users) ==>
              && r == Ok("Password reset successfully")
              && users == old(users)[email := old(users)[email].(passwordHash := newPasswordHash)]
              && resets == old(resets)[i := old(resets)[i].(used := true)])
      ensures r.Ok? ==> forall t: nat :: IndexOf(resets, UsableToken(token, t)).None?
    {
      var found := IndexOf(resets, UsableToken(token, now));
      if found.None? {
        return Err(InvalidResetToken);
      }
      var email := resets[found.value].email;
      if email !in users {
        return Err(UserNotFound);
      }
      users := users[email := users[email].(passwordHash := newPasswordHash)];
      UsableIsFirstWithToken(resets, token, now);
      var j := IndexOf(resets, HasToken(token)).value;
      resets := resets[j := resets[j].(used := true)];
      return Ok("Password reset successfully");
    }

    /** POST /emergency: refused while the caller has an active emergency;
        otherwise appends exactly one active record for the caller. */
    method CreateEmergency(caller: User, location: Point, newId: string, now: nat) returns (r: Result<Emergency>)
      requires Valid()
      modifies this`emergencies
      ensures Valid()
      ensures IndexOf(old(emergencies), ActiveOf(caller.id)).Some? ==>
        r == Err(AlreadyActive) && emergencies == old(emergencies)
      ensures IndexOf(old(emergencies), ActiveOf(caller.id)).None? ==>
        && r == Ok(Emergency(newId, caller.id, caller.name, caller.vehiclePlate, location, now, true))
        && emergencies == old(emergencies) + [r.value]
    {
      if IndexOf(emergencies, ActiveOf(caller.id)).Some? {
        return Err(AlreadyActive);
      }
      var e := Emergency(newId, caller.id, caller.name, caller.vehiclePlate, location, now, true);
      emergencies := emergencies + [e];
      return Ok(e);
    }

    /** GET /user/active-emergency: the caller's one active emergency. */
    method GetActiveEmergency(caller: User) returns (r: Result<Emergency>)
      requires Valid()
      ensures r.Ok? <==> exists i :: 0 <= i < |emergencies| && emergencies[i].userId == caller.id && emergencies[i].isActive
      ensures r.Ok? ==> r.value in emergencies && r.value.userId == caller.id && r.value.isActive
      ensures r.Ok? ==> forall i :: 0 <= i < |emergencies| && emergencies[i].userId == caller.id && emergencies[i].isActive ==> emergencies[i] == r.value
      ensures r.Err? ==> r.error == NoActiveEmergency
    {
      var found := IndexOf(emergencies, ActiveOf(caller.id));
      if found.None? {
        assert forall i :: 0 <= i < |emergencies| ==> !ActiveOf(caller.id)(emergencies[i]);
        return Err(NoActiveEmergency);
      }
      return Ok(emergencies[found.value]);
    }

    /** POST /emergency/cancel: the caller's active emergency becomes
        inactive; afterwards the caller has none. */
    method CancelEmergency(caller: User) returns (r: Result<string>)
      requires Valid()
      modifies this`emergencies
      ensures Valid()
      ensures IndexOf(old(emergencies), ActiveOf(caller.id)).None? ==>
        r == Err(NoActiveEmergency) && emergencies == old(emergencies)
      ensures IndexOf(old(emergencies), ActiveOf(caller.id)).Some? ==>
        var i := IndexOf(old(emergencies), ActiveOf(caller.id)).value;
        r == Ok("Emergency canceled successfully") && emergencies == old(emergencies)[i := old(emergencies)[i].(isActive := false)]
      ensures forall i :: 0 <= i < |emergencies| ==> !(emergencies[i].userId == caller.id && emergencies[i].isActive)
    {
      var found := IndexOf(emergencies, ActiveOf(caller.id));
      if found.None? {
        assert forall i :: 0 <= i < |emergencies| ==> !ActiveOf(caller.id)(emergencies[i]);
        return Err(NoActiveEmergency);
      }
      var i := found.value;
      emergencies := emergencies[i := emergencies[i].(isActive := false)];
      return Ok("Emergency canceled successfully");
    }

    /** DELETE /emergency/{id}: only a record whose id and owner both match is
        set inactive; one that is already inactive still matches. */
    method DeactivateEmergency(caller: User, emergencyId: string) returns (r: Result<string>)
      requires Valid()
      modifies this`emergencies
      ensures Valid()
      ensures IndexOf(old(emergencies), OwnedEmergency(emergencyId, caller.id)).None? ==>
        r == Err(EmergencyNotFound) && emergencies == old(emergencies)
      ensures IndexOf(old(emergencies), OwnedEmergency(emergencyId, caller.id)).Some? ==>
        var i := IndexOf(old(emergencies), OwnedEmergency(emergencyId, caller.id)).value;
        && r == Ok("Emergency deactivated")
        && old(emergencies)[i].id == emergencyId && old(emergencies)[i].userId == caller.id
        && emergencies == old(emergencies)[i := old(emergencies)[i].(isActive := false)]
    {
      var found := IndexOf(emergencies, OwnedEmergency(emergencyId, caller.id));
      if found.None? {
        return Err(EmergencyNotFound);
      }
      var i := found.value;
      emergencies := emergencies[i := emergencies[i].(isActive := false)];
      return Ok("Emergency deactivated");
    }

    /** GET /emergencies/nearby: the active emergencies of other users within
        the caller's radius, in stored order, each with its distance rounded
        to two decimals (the radius test uses the unrounded distance). */
    method GetNearbyEmergencies(caller: User, here: Point, dist: Distance) returns (result: seq<NearbyEmergency>)
      ensures result == NearbyEmergencies(emergencies, caller.id, here, AlertRadius(settings, caller.id), dist)
      ensures forall r :: r in result ==>
        && r.emergency in emergencies && r.emergency.isActive && r.emergency.userId != caller.id
        && dist(here, r.emergency.location) <= AlertRadius(settings, caller.id)
        && r.distanceKm == RoundHundredths(dist(here, r.emergency.location))
    {
      var radius := AlertRadius(settings, caller.id);
      var candidates := ActiveCandidates(emergencies);
      ghost var test := NearbyTest(caller.id, here, radius, dist);
      ghost var kept: seq<Emergency> := [];
      result := [];
      for i := 0 to |candidates|
        invariant kept == Keep(candidates[..i], test)
        invariant result == WithDistance(kept, here, dist)
      {
        var e := candidates[i];
        KeepSnoc(candidates, i, test);
        if e.userId != caller.id {
          var d := dist(here, e.location);
          if d <= radius {
            WithDistanceSnoc(kept, e, here, dist);
            result := result + [NearbyEmergency(e, RoundHundredths(d))];
            kept := kept + [e];
          }
        }
      }
      assert candidates[..|candidates|] == candidates;
      NearbyEmergenciesSound(emergencies, caller.id, here, radius, dist);
    }

    /** GET /settings: the stored settings, or no contacts and 10 km. */
    method GetSettings(caller: User) returns (s: Settings)
      requires Valid()
      ensures caller.id in settings ==> s == settings[caller.id] && SettingsAccepted(s)
      ensures caller.id !in settings ==> s.emergencyContacts == [] && s.alertDistanceKm == DefaultAlertDistanceKm
    {
      if caller.id in settings {
        return settings[caller.id];
      }
      return DefaultSettings;
    }

    /** POST /settings: validates, then stores and echoes exactly the
        submitted settings. */
    method UpdateSettings(caller: User, u: Settings) returns (r: Result<Settings>)
      requires Valid()
      modifies this`settings
      ensures Valid()
      ensures r.Ok? <==> SettingsAccepted(u)
      ensures r.Err? ==> Some(r.error) == SettingsError(u) && settings == old(settings)
      ensures r.Ok? ==> r.value == u && settings == old(settings)[caller.id := u]
    {
      var err := ValidateSettingsUpdate(u);
      if err.Some? {
        return Err(err.value);
      }
      settings := settings[caller.id := u];
      return Ok(u);
    }

    /** POST /subscription/bind-device: refused (409) when the caller's binding
        for the same subscription type names another device; otherwise the
        caller's single binding and subscription are replaced. */
    method BindDevice(caller: User, req: SubscriptionUpdate, now: nat) returns (r: Result<string>)
      requires Valid()
      modifies this`bindings, this`subscriptions
      ensures Valid()
      ensures BindingConflict(old(bindings), caller.id, req) ==>
        && r == Err(BindingConflictError(old(bindings)[caller.id]))
        && bindings == old(bindings) && subscriptions == old(subscriptions)
      ensures !BindingConflict(old(bindings), caller.id, req) ==>
        && r == Ok("Device bound to subscription successfully")
        && bindings == old(bindings)[caller.id := DeviceBinding(caller.id, req.deviceId, req.deviceName, req.deviceBrand, req.subscriptionType, now)]
        && subscriptions == old(subscriptions)[caller.id := UserSubscription(req.subscriptionType, req.expiresAt, req.deviceId, now)]
    {
      if BindingConflict(bindings, caller.id, req) {
        return Err(BindingConflictError(bindings[caller.id]));
      }
      bindings := bindings[caller.id := DeviceBinding(caller.id, req.deviceId, req.deviceName, req.deviceBrand, req.subscriptionType, now)];
      subscriptions := subscriptions[caller.id := UserSubscription(req.subscriptionType, req.expiresAt, req.deviceId, now)];
      return Ok("Device bound to subscription successfully");
    }

    /** GET /subscription/check-device: 404 unless the caller's binding names
        this device. */
    method CheckDevice(caller: User, deviceId: string) returns (r: Result<DeviceStatus>)
      requires Valid()
      ensures r.Ok? <==> caller.id in bindings && bindings[caller.id].deviceId == deviceId
      ensures r.Ok? ==>
        && r.value.deviceName == bindings[caller.id].deviceName
        && r.value.subscriptionType == bindings[caller.id].subscriptionType
        && r.value.expiresAt == (if caller.id in subscriptions then Some(subscriptions[caller.id].expiresAt) else None)
      ensures r.Err? ==> r.error == DeviceNotFound
    {
      if caller.id !in bindings || bindings[caller.id].deviceId != deviceId {
        return Err(DeviceNotFound);
      }
      var b := bindings[caller.id];
      var expiresAt := if caller.id in subscriptions then Some(subscriptions[caller.id].expiresAt) else None;
      return Ok(DeviceStatus(b.deviceName, b.subscriptionType, expiresAt));
    }

    /** POST /chat/send: appends the message, stamped with the current time,
        which is not earlier than any stored message. */
    method SendChatMessage(caller: User, text: string, location: Point, messageType: string, newId: string, now: nat)
      returns (m: ChatMessage)
      requires Valid()
      requires forall i :: 0 <= i < |chats| ==> chats[i].createdAt <= now
      modifies this`chats
      ensures Valid()
      ensures m == ChatMessage(newId, caller.id, caller.name, text, location, now, messageType)
      ensures chats == old(chats) + [m]
    {
      m := ChatMessage(newId, caller.id, caller.name, text, location, now, messageType);
      chats := chats + [m];
    }

    /** GET /chat/nearby: of the 3 * limit newest messages of the last 24
        hours, those within the caller's radius, newest first, cut to `limit`. */
    method GetNearbyChatMessages(caller: User, here: Point, limit: nat, now: nat, dist: Distance)
      returns (result: seq<NearbyMessage>)
      requires Valid()
      ensures result == NearbyChat(chats, now, limit, here, AlertRadius(settings, caller.id), dist)
      ensures |result| <= limit
      ensures forall r :: r in result ==>
        && r.message in chats && r.message.createdAt + DayMs >= now
        && dist(here, r.message.location) <= AlertRadius(settings, caller.id)
        && r.distanceKm == RoundHundredths(dist(here, r.message.location))
      ensures Descending(result, (r: NearbyMessage) => r.message.createdAt)
    {
      var radius := AlertRadius(settings, caller.id);
      var candidates := ChatCandidates(chats, now, limit);
      ghost var test := WithinRadius(here, radius, dist);
      ghost var kept: seq<ChatMessage> := [];
      var nearby: seq<NearbyMessage> := [];
      for i := 0 to |candidates|
        invariant kept == Keep(candidates[..i], test)
        invariant nearby == MessagesWithDistance(kept, here, dist)
      {
        var m := candidates[i];
        KeepSnoc(candidates, i, test);
        var d := dist(here, m.location);
        if d <= radius {
          MessagesWithDistanceSnoc(kept, m, here, dist);
          nearby := nearby + [NearbyMessage(m, RoundHundredths(d))];
          kept := kept + [m];
        }
      }
      assert candidates[..|candidates|] == candidates;
      result := Take(nearby, limit);
      NearbyChatSound(chats, now, limit, here, radius, dist);
      NearbyChatNewestFirst(chats, now, limit, here, radius, dist);
    }

    /** DELETE /chat/{id}: removes the first message with this id sent by the
        caller; 404 when there is none. */
    method DeleteChatMessage(caller: User, messageId: string) returns (r: Result<string>)
      requires Valid()
      modifies this`chats
      ensures Valid()
      ensures IndexOf(old(chats), OwnedMessage(messageId, caller.id)).None? ==>
        r == Err(MessageNotFound) && chats == old(chats)
      ensures IndexOf(old(chats), OwnedMessage(messageId, caller.id)).Some? ==>
        var i := IndexOf(old(chats), OwnedMessage(messageId, caller.id)).value;
        && r == Ok("Chat message deleted")
        && old(chats)[i].id == messageId && old(chats)[i].userId == caller.id
        && chats == RemoveAt(old(chats), i)
    {
      var found := IndexOf(chats, OwnedMessage(messageId, caller.id));
      if found.None? {
        return Err(MessageNotFound);
      }
      var before := chats;
      chats := RemoveAt(chats, found.value);
      forall a, b | 0 <= a < b < |chats| ensures ChatTime(chats[a]) <= ChatTime(chats[b]) {
        var a' := if a < found.value then a else a + 1;
        var b' := if b < found.value then b else b + 1;
        assert chats[a] == before[a'] && chats[b] == before[b'];
      }
      return Ok("Chat message deleted");
    }
  }
}
