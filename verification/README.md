# SafeRide in Dafny

SafeRide is an emergency app for drivers. A driver in trouble presses one button:
- the server records an active emergency at the driver's position;
- the app opens a WhatsApp message with a map link for each emergency contact;
- other drivers nearby see the emergency and can talk in a location-based chat.

Access is gated by a subscription: a 7-day trial, then a monthly premium plan.

This project models the core of the system:
- the FastAPI server (`backend/server.py`): users, password resets, emergencies, settings, device bindings and the chat;
- the app screens that drive it: the emergency button, settings, chat, subscription page, subscription guard, sign-in, "forgot password" and the shared auth context.

## How the model is built

Each endpoint of the server is a method of `Backend.Server`:
- the server's collections are fields (`seq` and `map`);
- each method either answers an `HttpError` and changes nothing, or makes one stated change;
- a `modifies` frame names the only collections it may touch.

`Server.Valid()` is the set of table invariants that every endpoint preserves, with requests handled one at a time:
- emails are unique keys;
- stored settings pass validation;
- a user has at most one active emergency;
- chat messages are in time order;
- reset tokens are distinct.

The pure rules behind the endpoints live in `BackendRules`, with lemmas about them:
- the settings and phone validators;
- the "nearby" queries;
- the reset-token lookup.

Each screen is a module. State the component keeps in React state or device storage becomes a class. Pure decisions become functions with lemmas:
- whether to post;
- which label to show;
- how to normalise a phone number.

Several things are parameters, each described in its doc comment:
- the clock, generated identifiers and tokens, the bcrypt check;
- the distance function (the haversine formula);
- the answers of HTTP calls and of platform APIs (storage, location, `Linking.canOpenURL`).

Shared helpers:
- `Text`: JavaScript's and Python's whitespace, trim, lower-casing;
- `Seqs`: the order-preserving filter `Keep`, `Take`, `IndexOf`, `RemoveAt`, `Reverse`;
- `Geo`: points and distances.

## Model

| member | source | states |
|---|---|---|
| BackendRules.PhoneAcceptedIff | backend/server.py:550-553 | a non-blank contact passes the phone check exactly when it contains only digits, '+', spaces, dashes and parentheses, has at least one digit, and has at least 8 digits and plus signs together (both directions) |
| BackendRules.PhoneCharsAccepted | backend/server.py:550-553 | a contact made only of digits, '+', spaces, dashes and parentheses passes exactly when it has a digit and at least 8 digits and plus signs together |
| BackendRules.OtherCharRejected | backend/server.py:550-553 | a contact holding any other character is rejected |
| BackendRules.FirstContactErrorSpec | backend/server.py:546-553 | the contact loop raises nothing exactly when every contact passes; otherwise it raises the error of the first contact that fails |
| BackendRules.SettingsErrorSpec | backend/server.py:75-77 | a settings body is rejected exactly when it is not acceptable; every rejection is a 422 (pydantic bounds: 1-5 contacts, radius 0.001-10 km) or a 400 (a contact), and out-of-bounds fields give the 422 |
| BackendRules.ValidateSettingsUpdate | backend/server.py:546-553 | the loop that stops at the first bad contact returns no error exactly for accepted settings, and the error it returns is the one the validation rules prescribe |
| BackendRules.AlertRadiusBounds | backend/server.py:75-77 | when every stored setting passed validation, the radius a nearby query uses lies between 1 m and 10 km |
| BackendRules.NearbyEmergenciesSound | backend/server.py:341-369 | every reported emergency is stored, active, belongs to someone other than the caller, lies within the caller's radius by its unrounded distance, and carries that distance rounded to two decimals (so at most half a hundredth beyond the radius) |
| BackendRules.NearbyEmergenciesComplete | backend/server.py:341-369 | while at most 1000 emergencies are active, every active emergency of another user within the radius is reported with its distance rounded to two decimals |
| BackendRules.NearbyChatSound | backend/server.py:489-522 | at most `limit` messages are reported; each is stored, is from the last 24 hours, lies within the radius by its unrounded distance and carries that distance rounded to two decimals |
| BackendRules.NearbyChatNewestFirst | backend/server.py:503-505 | when the table is in sending order, the answer is newest first |
| BackendRules.NearbyChatComplete | backend/server.py:489-522 | a candidate message within the radius is reported, with its distance rounded to two decimals, whenever no more than `limit` candidates pass the distance test |
| BackendRules.UsableIsFirstWithToken | backend/server.py:238-258 | with distinct tokens, the record that the validity query finds is the one the `used` update marks |
| Backend.Server.constructor | backend/server.py:25-26 | the tables start empty and satisfy the invariants |
| Backend.Server.Register | backend/server.py:264-286 | a known email gets 400 and nothing changes; otherwise exactly one user is added under that email, with the given hash, and is returned |
| Backend.Server.Login | backend/server.py:288-304 | a user is returned exactly when the email is known and the password verifies against the stored hash; otherwise 401 |
| Backend.Server.ForgotPassword | backend/server.py:205-232 | the answer is the same whether or not the email is known; only for a known email is a 15-minute, unused token record appended; tokens stay distinct |
| Backend.Server.ResetPassword | backend/server.py:234-260 | an unknown, used or expired token gives 400 and a vanished user 404, both changing nothing; otherwise only that user's hash changes and only that record is marked used, and afterwards the token is usable at no time |
| Backend.Server.CreateEmergency | backend/server.py:306-327 | refused with 400 while the caller has an active emergency; otherwise exactly one active record for the caller is appended; at most one active emergency per user is preserved |
| Backend.Server.GetActiveEmergency | backend/server.py:568-579 | found exactly when the caller has an active emergency, and it is the only one; 404 otherwise |
| Backend.Server.CancelEmergency | backend/server.py:581-602 | 404 when there is no active emergency; otherwise only that record becomes inactive; afterwards the caller has no active emergency |
| Backend.Server.DeactivateEmergency | backend/server.py:627-641 | only a record whose id and owner both match is set inactive (an inactive one still matches); 404 and no change otherwise |
| Backend.Server.GetNearbyEmergencies | backend/server.py:341-369 | the loop computes the nearby-emergency query: active, someone else's, within the caller's radius by the unrounded distance, in stored order, each with its distance rounded to two decimals |
| Backend.Server.GetSettings | backend/server.py:372-381 | the stored settings, which pass validation, or no contacts and 10 km |
| Backend.Server.UpdateSettings | backend/server.py:540-566 | stores and echoes exactly the body iff it passes validation; otherwise returns the prescribed error and keeps the table |
| Backend.Server.BindDevice | backend/server.py:384-428 | 409 naming the other device, with no change, when the caller's binding of the same subscription type names another device; otherwise the caller's single binding and subscription are replaced |
| Backend.Server.CheckDevice | backend/server.py:430-451 | answers exactly when the caller's binding names this device, with its name, type and the subscription's expiry if any; 404 otherwise |
| Backend.Server.SendChatMessage | backend/server.py:453-487 | appends exactly the message stamped with the caller's identity and the current time, keeping the table in time order |
| Backend.Server.GetNearbyChatMessages | backend/server.py:489-522 | the loop computes the nearby-chat query; at most `limit` messages, all recent, within radius, newest first, each with its distance rounded to two decimals |
| Backend.Server.DeleteChatMessage | backend/server.py:524-538 | removes exactly the first message with this id that the caller sent, keeping time order; 404 and no change when there is none |
| EmergencyScreen.StripLeadingZeros | frontend/src/screens/EmergencyScreen.tsx:108 | the result is a suffix of the input, everything removed is '0', and it does not start with '0' |
| EmergencyScreen.DialCharsSpec | frontend/src/screens/EmergencyScreen.tsx:105 | the dial characters of a contact are exactly its digits and plus signs, with their multiplicities, in order (they distribute over concatenation) |
| EmergencyScreen.CountryPrefix | frontend/src/screens/EmergencyScreen.tsx:109-113 | the prefix is "", "55" or "559", and a prefixed number has 13 characters and starts with '5' |
| EmergencyScreen.NormalizeShape | frontend/src/screens/EmergencyScreen.tsx:105-113 | a '+' number is kept as dialled; any other becomes its zero-stripped form behind "", "55" or "559"; at most 3 characters are added |
| EmergencyScreen.NormalizeDialChars | frontend/src/screens/EmergencyScreen.tsx:105-113 | a normalised number holds only digits and plus signs |
| EmergencyScreen.CleanContactNumber | frontend/src/screens/EmergencyScreen.tsx:105-114 | the step-by-step reassignments of the loop body produce the normalised number |
| EmergencyScreen.NormalizeIdempotent | frontend/src/screens/EmergencyScreen.tsx:105-113 | normalising a normalised number changes nothing |
| EmergencyScreen.SendWhatsAppAlerts | frontend/src/screens/EmergencyScreen.tsx:99-134 | one link per contact, in order, built from its normalised number; the links launched are exactly those the platform can open, in order |
| EmergencyScreen.OnPressSpec | frontend/src/screens/EmergencyScreen.tsx:136-160 | the whole decision table, each outcome iff its condition: ignored exactly while loading; otherwise a cancel prompt exactly when the flag is set, a refusal exactly when the position or the user is missing, and the emergency prompt exactly when both are there |
| EmergencyScreen.EmergencyButton.constructor | frontend/src/screens/EmergencyScreen.tsx:25-26 | the button starts inactive and enabled over the stored values |
| EmergencyScreen.EmergencyButton.CheckEmergencyState | frontend/src/screens/EmergencyScreen.tsx:61-72 | the flag becomes set when storage holds "true" and is otherwise unchanged |
| EmergencyScreen.EmergencyButton.ActivateEmergency | frontend/src/screens/EmergencyScreen.tsx:162-223 | with a token and a created emergency the flag is set and stored as "true", and the contacts get their links; otherwise neither the flag nor storage changes and no link is opened; the button is re-enabled |
| EmergencyScreen.EmergencyButton.CancelEmergency | frontend/src/screens/EmergencyScreen.tsx:225-263 | a successful cancel clears the flag and removes only that key from storage; otherwise nothing changes |
| SettingsScreen.FilledIffNotBlank | frontend/app/settings.tsx:74 | a field counts as filled exactly when it is not all whitespace |
| SettingsScreen.FilledFields | frontend/app/settings.tsx:74 | the kept fields are empty exactly when every field is blank; none is blank; each non-blank entry is kept as often as entered |
| SettingsScreen.SaveOutcomeSpec | frontend/app/settings.tsx:69-113 | an all-blank list is refused (iff); with no token nothing is sent (iff); otherwise the body holds exactly the non-blank contacts, untrimmed, in order and with multiplicity, and the radius |
| SettingsScreen.SavedSettingsAccepted | frontend/app/settings.tsx:69-113 | with at most five fields, a radius from the slider and valid filled numbers, the server accepts the body sent |
| SettingsScreen.FormatDistanceSpec | frontend/app/settings.tsx:151-157 | over the slider range a sub-kilometre radius shows as the nearest whole number of metres, from 1 to 1000; kilometres otherwise |
| SettingsScreen.SettingsForm.constructor | frontend/app/settings.tsx:28-33 | one empty field and 10 km, loading |
| SettingsScreen.SettingsForm.LoadSettings | frontend/app/settings.tsx:39-67 | a successful load shows the stored contacts (one empty field for none) and radius; a failure keeps the form; the form always keeps at least one field |
| SettingsScreen.SettingsForm.AddContact | frontend/app/settings.tsx:115-124 | a blank field is appended only below five; at least one and at most five fields are preserved |
| SettingsScreen.SettingsForm.RemoveContact | frontend/app/settings.tsx:126-133 | removes exactly the field at the index unless it is the last one; the same bounds are preserved |
| SettingsScreen.SettingsForm.UpdateContact | frontend/app/settings.tsx:135-142 | only the field at the index changes, to the typed text |
| SettingsScreen.SettingsForm.UpdateDistance | frontend/app/settings.tsx:144-149 | the radius becomes the chosen value within the slider range |
| Geo.RoundHundredths | frontend/app/chat.tsx:144 | a whole number of hundredths within half a hundredth of the distance; the server's `round(distance, 2)` (backend/server.py:366 and :518) uses the same function |
| ChatScreen.EventsNeverOwn | frontend/app/chat.tsx:147 | a message that arrives over the socket is never drawn as the user's own, even when the user sent it |
| ChatScreen.AlertDistanceFrom | frontend/app/chat.tsx:117 | a stored zero radius falls back to 10 km; any other is used as stored |
| ChatScreen.FormatTimeSpec | frontend/app/chat.tsx:274-287 | under an hour whole minutes, under a day whole hours (1-23), otherwise the date; each count is the elapsed time rounded down |
| ChatScreen.ChatView.constructor | frontend/app/chat.tsx:43-50 | an empty list, no user or position, 10 km radius, no socket yet |
| ChatScreen.ChatView.InitializeChat | frontend/app/chat.tsx:63-102 | without a user nothing loads; with user and position the socket is installed and, with a token, the list becomes the server's nearby messages and the radius the stored one; the handler keeps the state the call started from |
| ChatScreen.ChatView.OnNewChatMessage | frontend/app/chat.tsx:128-153 | as written: a message is added on top only when the handler's captured position exists and is within the captured radius; in any reachable state the list does not change |
| ChatScreen.ChatView.OnNewChatMessageCurrent | frontend/app/chat.tsx:128-153 | with the current position and radius, a message within the radius goes on top with its rounded distance; otherwise the list is kept |
| ChatScreen.ChatView.OnMessageDeleted | frontend/app/chat.tsx:155-157 | every entry with that id is gone and the others stay, in order |
| ChatScreen.ChatView.SendMessage | frontend/app/chat.tsx:195-248 | a request goes out iff the trimmed text is non-empty and there are a position, a user and a token; it carries the trimmed text; on success the message goes on top as the user's own and the box clears; otherwise nothing changes |
| ChatScreen.ChatView.DeleteMessage | frontend/app/chat.tsx:250-272 | a successful delete removes exactly the entries with that id; otherwise nothing changes |
| ChatScreen.StaleHandlerExample | frontend/app/chat.tsx:124-153 | after a full initialisation, a message posted at the user's own position leaves the list unchanged |
| ChatScreen.CurrentHandlerExample | frontend/app/chat.tsx:124-153 | with the corrected handler the same message is shown on top at distance 0, not as the user's own |
| SubscriptionScreen.StatusTitleSpec | frontend/app/subscription.tsx:176-177 | the status card reads "Premium Ativo" exactly for a live premium record; a trial shows "Premium Expirado" |
| SubscriptionScreen.PlanButtonSpec | frontend/app/subscription.tsx:264-277 | each plan's button shows one of its own two labels; loading aside, a button is locked exactly when it reads "Plano Atual"; the trial button is never locked |
| SubscriptionScreen.ExpiredPremiumLocked | frontend/app/subscription.tsx:264 | as written, an expired premium record shows "Premium Expirado" and a locked "Plano Atual" button: it cannot be renewed |
| SubscriptionScreen.PremiumLockFollowsSubscription | frontend/app/subscription.tsx:176-177 | with the lock following `isSubscribed`, the premium button is locked exactly while premium is live, so an expired plan can be renewed |
| SubscriptionScreen.SubscriptionPage.constructor | frontend/app/subscription.tsx:31-32 | nothing is shown and the buttons are enabled |
| SubscriptionScreen.SubscriptionPage.LoadUserSubscription | frontend/app/subscription.tsx:74-83 | a readable stored record is shown; nothing stored, or text that does not parse, leaves the page unchanged |
| SubscriptionScreen.SubscriptionPage.UpdateSubscription | frontend/app/subscription.tsx:140-166 | the new record, activated now, is both stored and shown |
| SubscriptionScreen.SubscriptionPage.PressPlan | frontend/app/subscription.tsx:85-138 | with the lock as written (any premium record locks the premium button), a locked button changes nothing; otherwise the trial plan stores a 7-day trial, the other plan 30 days of premium, which then counts as subscribed |
| SubscriptionScreen.SubscriptionPage.PressPlanFixed | frontend/app/subscription.tsx:85-138 | the same press with the lock following `isSubscribed`: a locked button changes nothing, and pressing premium while not subscribed (an expired plan included) leaves the user subscribed |
| SubscriptionGuard.CeilDiv | frontend/components/SubscriptionGuard.tsx:70 | the quotient rounded up |
| SubscriptionGuard.DaysLeftSpec | frontend/components/SubscriptionGuard.tsx:59-72 | days are left exactly while the subscription is active, and then they are the remaining time in days rounded up |
| SubscriptionGuard.BannerFor | frontend/components/SubscriptionGuard.tsx:87-104 | only a trial gets a banner; its count is positive exactly while the trial is active, and is then the remaining time in days rounded up; it warns exactly when the expiry is missing, has passed or is at most two days away |
| SubscriptionGuard.ExpiredModalOffersNextPlan | frontend/components/SubscriptionGuard.tsx:119-152 | the modal offers premium exactly to a user whose record is a trial, and then its title says the trial expired |
| SubscriptionGuard.Guard.constructor | frontend/components/SubscriptionGuard.tsx:20-22 | no record, no modal, loading |
| SubscriptionGuard.Guard.CheckSubscriptionStatus | frontend/components/SubscriptionGuard.tsx:28-52 | a missing or unreadable record raises the modal; a readable one is kept and raises it when its expiry has passed |
| SubscriptionGuard.Guard.HandleSubscribeNow | frontend/components/SubscriptionGuard.tsx:54-57 | the modal closes |
| SubscriptionGuard.ModalIffInactive | frontend/components/SubscriptionGuard.tsx:28-63 | after a check the modal is up exactly when the subscription is not active, except for a readable record without an expiry, which is let through |
| SubscriptionGuard.TrialLifecycle | frontend/components/SubscriptionGuard.tsx:59-72 | a trial started on the subscription page shows 7 days, is active for seven days, warns from day five on and not before, then expires, and never counts as subscribed |
| AuthContext.SessionRoundTrip | frontend/contexts/AuthContext.tsx:30-48 | a session stored by login or register is restored as the same user after a restart |
| AuthContext.LogoutForgets | frontend/contexts/AuthContext.tsx:149-163 | after logout nothing is restored, the emergency flag and floating mode are gone, and every other key is kept |
| AuthContext.AuthSession.constructor | frontend/contexts/AuthContext.tsx:27-28 | nobody is signed in and the context is loading |
| AuthContext.AuthSession.CheckAuthStatus | frontend/contexts/AuthContext.tsx:30-48 | the stored user is restored when both keys are set and the record is readable; otherwise the user is kept |
| AuthContext.AuthSession.Accept | frontend/contexts/AuthContext.tsx:72-90 | succeeds exactly when the answer carries a non-empty token and a user, which are then stored and signed in; otherwise nothing changes |
| AuthContext.AuthSession.Login | frontend/contexts/AuthContext.tsx:54-97 | succeeds exactly when the server grants a session for the credentials, which is then stored and signed in; otherwise nothing changes |
| AuthContext.AuthSession.Register | frontend/contexts/AuthContext.tsx:99-147 | the same for the new account's fields |
| AuthContext.AuthSession.Logout | frontend/contexts/AuthContext.tsx:149-163 | exactly the session keys are removed and nobody is signed in |
| ForgotPassword.ValidEmailMatches | frontend/app/forgot-password.tsx:31-32 | an address that passes the check matches the pattern |
| ForgotPassword.MatchingEmailValid | frontend/app/forgot-password.tsx:31-32 | an address that matches the pattern passes the check |
| ForgotPassword.IsValidEmailMatchesPattern | frontend/app/forgot-password.tsx:31-32 | the address check accepts exactly the strings that the pattern `^[^\s@]+@[^\s@]+\.[^\s@]+$` matches (both directions) |
| ForgotPassword.HandleForgotPasswordSpec | frontend/app/forgot-password.tsx:24-77 | a blank field asks for an address (iff); a request goes out exactly for addresses the pattern matches, carrying the address lower-cased; whitespace anywhere gets a non-blank address rejected |
| AuthScreen.HandleAuthStepSpec | frontend/app/auth.tsx:29-66 | a request goes out exactly when email and password are filled and, to register, name and plate too; it carries the fields as typed; the mode picks the request |
| AuthScreen.HandleAuth | frontend/app/auth.tsx:29-67 | a missing field gives its alert and leaves the session alone; otherwise the screen goes home exactly when the server grants a session, and then the user is signed in; a failure gives the mode's alert |

## Left out

- Distances: the haversine formula and floating-point arithmetic are not modelled. The distance function is a parameter, and radii are `real`.
- Geo.RoundHundredths: a tie goes up, as `Math.round` does. Python's `round(d, 2)` sends a tie to the even hundredth, and works on the binary value of `d`. On such ties the server's reported distance can differ from the model by one hundredth.
- Time: the clock is a parameter (milliseconds).
- Generated values: uuid identifiers, `secrets.token_urlsafe` tokens and bcrypt hashes are parameters.
- Password check: it is the `verify` parameter of `Backend.Server.Login`.
- Tokens: JWT creation and decoding are not modelled. Every endpoint receives the already authenticated caller.
- Database: MongoDB is modelled as in-memory tables. The `updated_at` stamp of stored settings is not kept; the device subscription keeps its own.
- Concurrency: requests are modelled one at a time. `register` and `create_emergency` await between their `find_one` check and their `insert_one`, and no unique index is created, so interleaved requests on the real server can store two users with one email or two active emergencies for one user. `Server.Valid()` holds only for sequential execution.
- Socket.IO: the server's emits, the `connect`, `disconnect` and `join_location_updates` handlers, and `POST /location` are not modelled. They only forward data.
- Reset email: `send_reset_email` and the 500 answer when sending fails are not modelled, because they are external I/O.
- Backend.Server.ForgotPassword: requires the fresh token to be new. A 256-bit random token is assumed not to collide with one already stored.
- Backend.Server.SendChatMessage: requires the clock not to run backwards. That assumption makes "newest first" equal to the table read backwards, up to ties. Two messages may share a `created_at`. MongoDB's `sort("created_at", -1)` leaves the order of such ties unspecified, while the model puts the later-inserted one first.
- Cancel route: `POST /emergency/cancel` is declared twice with the same body. It is modelled once.
- Backend.Server.GetNearbyChatMessages: `limit` is a `nat`. A negative limit, where Python's slicing behaves differently, is not modelled.
- Digits: a digit means an ASCII digit. Python's `isdigit` also accepts other Unicode digits (Arabic-Indic digits, superscripts and so on), which the phone check therefore rejects in the model. Whitespace is modelled as each language defines it: `Text.IsPySpace` for Python's `strip`, `Text.IsSpace` for JavaScript's `trim` and `\s`.
- ForgotPassword.HandleForgotPasswordSpec: the address sent is lower-cased only for the letters of the Basic Latin and Latin-1 blocks. JavaScript's `toLowerCase` also folds every other cased letter (Greek, Cyrillic, Latin Extended and so on), and a few letters to more than one character. Those are left unchanged in the model.
- Email normalisation: pydantic `EmailStr` normalisation is not modelled.
- App I/O: `fetch`, AsyncStorage, `expo-location`, Haptics and `Linking` are not modelled. What they return (a response, the stored values, a position, whether a link can be opened) is a parameter. Network failures are `None` or `false`.
- Waits and visuals: the 2-second pause between WhatsApp links, the animations, Toasts and navigation are not modelled.
- EmergencyScreen.SendWhatsAppAlerts: the alert text and `encodeURIComponent` are not modelled. The encoded message is a parameter.
- Confirmation dialogs: only the confirmed path is modelled. Dismissing a dialog changes nothing.
- AuthContext.AuthSession.CheckAuthStatus: a stored user record is either a serialised user or text that does not parse. `JSON.parse` of arbitrary text is not modelled.
- SubscriptionScreen.SubscriptionPage.PressPlan: the `POST /api/subscription` the page sends is not modelled. `backend/server.py` has no such route and the page ignores the answer. It uses the lock as written; `PressPlanFixed` is the same press with the corrected lock (see Findings).
- ChatScreen.FormatTime: `toLocaleDateString('pt-BR')` and the floating-point division are not modelled. Time is kept in whole milliseconds.
- SettingsScreen.FormatDistance: `toFixed(1)` is not modelled. The kilometre label keeps the radius itself.
- Form limits: the plate field's `maxLength` of 8 is an input constraint and is not checked.

## Findings

| source | as written | input that shows it | evidently intended | confidence | as-written member | corrected member |
|---|---|---|---|---|---|---|
| frontend/app/chat.tsx:124-153 | The `new_chat_message` handler is installed once, during the first render. It reads the `location` and `alertDistance` of that render: `null` and 10 km. `setupWebSocket` never reinstalls it. | The chat has loaded the user's position. Someone posts from the same spot. The `if (location)` test sees the captured `null`, so the message is dropped. | Incoming messages within the current radius of the current position appear at the top of the list. | high, not executed | ChatScreen.StaleHandlerExample | ChatScreen.CurrentHandlerExample |
| frontend/app/subscription.tsx:264-277 | The premium button's lock and its "Plano Atual" label test only `type === 'premium'`. The expiry is ignored, although `isSubscribed` (lines 176-177) checks it. | A premium record whose `expiresAt` has passed. The card reads "Premium Expirado", but the premium button is disabled and labelled "Plano Atual". The guard's modal sends the user to this page, and the page offers no way to renew. | The button locks only while the premium plan is live. | high, not executed | SubscriptionScreen.ExpiredPremiumLocked | SubscriptionScreen.PremiumLockFollowsSubscription |
