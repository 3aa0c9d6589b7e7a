/** The chat screen: the list of nearby messages, newest first, kept up to
    date by the socket events `new_chat_message` and `chat_message_deleted`,
    the message box, and the labels shown on each message. Times are
    milliseconds since the epoch. */
module ChatScreen {
  import opened Text
  import opened Seqs
  import opened Geo
  import BackendRules

  /** The author id given to every message that arrives over the socket. */
  const SocketAuthorId := "other"
  const DefaultAlertDistanceKm: real := 10.0
  /** The `limit` query parameter of GET /chat/nearby. */
  const NearbyLimit: nat := 50
  const MinuteMs: int := 60 * 1000
  const HourMs: int := 60 * 60 * 1000

  /** The signed-in user as the screen reads it from storage. */
  datatype Account = Account(id: string, name: string)

  /** A message as the list holds it. */
  datatype Message = Message(
    id: string, userName: string, message: string, location: Point,
    distanceKm: real, createdAt: int, messageType: string, userId: string)

  /** The payload of the `new_chat_message` socket event. */
  datatype ChatEvent = ChatEvent(
    messageId: string, userName: string, message: string, location: Point,
    createdAt: int, messageType: string)

  /** The body of POST /chat/send. */
  datatype ChatRequest = ChatRequest(message: string, location: Point, messageType: string)

  /** An entry of the answer of GET /chat/nearby. */
  function FromNearby(n: BackendRules.NearbyMessage): Message {
    Message(n.message.id, n.message.userName, n.message.message, n.message.location,
      n.distanceKm, n.message.createdAt, n.message.messageType, n.message.userId)
  }

  /** The list entry built from a socket event at the given distance. */
  function FromEvent(data: ChatEvent, distanceKm: real): Message {
    Message(data.messageId, data.userName, data.message, data.location,
      RoundHundredths(distanceKm), data.createdAt, data.messageType, SocketAuthorId)
  }

  /** `item.user_id === user?.id`: the message is drawn as the user's own. */
  predicate IsOwn(m: Message, user: Option<Account>) {
    user.Some? && m.userId == user.value.id
  }

  /** A message that came over the socket is never drawn as the user's own
      (unless the user's id is literally "other"), even when the user sent it. */
  lemma EventsNeverOwn(data: ChatEvent, distanceKm: real, user: Option<Account>)
    requires user.Some? ==> user.value.id != SocketAuthorId
    ensures !IsOwn(FromEvent(data, distanceKm), user)
  {
  }

  /** `settings.alert_distance_km || 10.0`: a zero radius means the default. */
  function AlertDistanceFrom(stored: real): (r: real)
    ensures r != 0.0
    ensures stored != 0.0 ==> r == stored
  {
    if stored == 0.0 then DefaultAlertDistanceKm else stored
  }

  /** How formatTime labels a message. */
  datatype TimeLabel =
    | MinutesAgo(minutes: int)
    | HoursAgo(hours: int)
    | OnDate(createdAt: int)   // toLocaleDateString('pt-BR') of the creation time

  function FormatTime(createdAt: int, now: int): TimeLabel {
    var diff := now - createdAt;
    if diff < HourMs then MinutesAgo(diff / MinuteMs)
    else if diff < 24 * HourMs then HoursAgo(diff / HourMs)
    else OnDate(createdAt)
  }

  /** Under an hour the label counts whole minutes, under a day whole hours
      (1 to 23), and older messages show their date; each count is the
      elapsed time rounded down. */
  lemma FormatTimeSpec(createdAt: int, now: int)
    ensures var diff := now - createdAt; var r := FormatTime(createdAt, now);
      && (r.MinutesAgo? <==> diff < HourMs)
      && (r.HoursAgo? <==> HourMs <= diff < 24 * HourMs)
      && (r.OnDate? <==> diff >= 24 * HourMs)
      && (r.MinutesAgo? ==> r.minutes < 60 && r.minutes * MinuteMs <= diff < (r.minutes + 1) * MinuteMs)
      && (r.MinutesAgo? && diff >= 0 ==> r.minutes >= 0)
      && (r.HoursAgo? ==> 1 <= r.hours < 24 && r.hours * HourMs <= diff < (r.hours + 1) * HourMs)
  {
    var diff := now - createdAt;
    if diff < HourMs {
      var m := diff / MinuteMs;
      assert m * MinuteMs <= diff < (m + 1) * MinuteMs;
    } else if diff < 24 * HourMs {
      var h := diff / HourMs;
      assert h * HourMs <= diff < (h + 1) * HourMs;
    }
  }

  /** The screen's state. `handlerLocation` and `handlerAlertDistanceKm` are
      the values the `new_chat_message` handler reads: the ones of the render
      in which the socket was set up. */
  class ChatView {
    var messages: seq<Message>
    var draft: string
    var user: Option<Account>
    var location: Option<Point>
    var alertDistanceKm: real
    var loading: bool
    var socketReady: bool
    var handlerLocation: Option<Point>
    var handlerAlertDistanceKm: real

    /** The handler is installed during the first render, before any
        position is known, and never reinstalled. */
    ghost predicate Valid()
      reads this
    {
      && handlerLocation.None?
      && (!socketReady ==> location.None?)
    }

    constructor ()
      ensures messages == [] && draft == "" && user.None? && location.None?
      ensures alertDistanceKm == DefaultAlertDistanceKm && loading && !socketReady
      ensures Valid()
    {
      messages := [];
      draft := "";
      user := None;
      location := None;
      alertDistanceKm := DefaultAlertDistanceKm;
      loading := true;
      socketReady := false;
      handlerLocation := None;
      handlerAlertDistanceKm := DefaultAlertDistanceKm;
    }

    /** initializeChat: the stored user (None sends the app back to the
        start), the position (None when permission is refused), then the
        socket, the nearby messages (the answer of GET /chat/nearby, None
        when it failed) and the radius from GET /settings (None when it
        failed). The socket handler keeps the state this call started from. */
    method InitializeChat(storedUser: Option<Account>, position: Option<Point>, hasToken: bool,
                          nearby: Option<seq<BackendRules.NearbyMessage>>, storedRadius: Option<real>)
      requires Valid()
      modifies this
      ensures Valid() && !loading
      ensures draft == old(draft)
      ensures user == (if storedUser.Some? then storedUser else old(user))
      ensures location == (if storedUser.Some? && position.Some? then position else old(location))
      ensures storedUser.Some? && position.Some? ==> socketReady
      ensures messages ==
        if storedUser.Some? && position.Some? && hasToken && nearby.Some?
        then seq(|nearby.value|, i requires 0 <= i < |nearby.value| => FromNearby(nearby.value[i]))
        else old(messages)
      ensures alertDistanceKm ==
        if storedUser.Some? && position.Some? && hasToken && storedRadius.Some?
        then AlertDistanceFrom(storedRadius.value)
        else old(alertDistanceKm)
    {
      var renderLocation, renderAlertDistanceKm := location, alertDistanceKm;
      if storedUser.Some? {
        user := storedUser;
        if position.Some? {
          location := position;
          if !socketReady {
            socketReady := true;
            handlerLocation, handlerAlertDistanceKm := renderLocation, renderAlertDistanceKm;
          }
          if hasToken && nearby.Some? {
            var data := nearby.value;
            messages := seq(|data|, i requires 0 <= i < |data| => FromNearby(data[i]));
          }
          if hasToken && storedRadius.Some? {
            alertDistanceKm := AlertDistanceFrom(storedRadius.value);
          }
        }
      }
      loading := false;
    }

    /** The `new_chat_message` handler as written: it reads the position and
        radius of the render that installed it. */
    method OnNewChatMessage(data: ChatEvent, dist: Distance)
      modifies this`messages
      ensures handlerLocation.Some? && dist(handlerLocation.value, data.location) <= handlerAlertDistanceKm ==>
        messages == [FromEvent(data, dist(handlerLocation.value, data.location))] + old(messages)
      ensures !(handlerLocation.Some? && dist(handlerLocation.value, data.location) <= handlerAlertDistanceKm) ==>
        messages == old(messages)
      ensures Valid() ==> messages == old(messages)
    {
      if handlerLocation.Some? {
        var distance := dist(handlerLocation.value, data.location);
        if distance <= handlerAlertDistanceKm {
          messages := [FromEvent(data, distance)] + messages;
        }
      }
    }

    /** The handler reading the current position and radius: a message from
        within the radius goes on top of the list. */
    method OnNewChatMessageCurrent(data: ChatEvent, dist: Distance)
      modifies this`messages
      ensures location.Some? && dist(location.value, data.location) <= alertDistanceKm ==>
        messages == [FromEvent(data, dist(location.value, data.location))] + old(messages)
      ensures !(location.Some? && dist(location.value, data.location) <= alertDistanceKm) ==>
        messages == old(messages)
    {
      if location.Some? {
        var distance := dist(location.value, data.location);
        if distance <= alertDistanceKm {
          messages := [FromEvent(data, distance)] + messages;
        }
      }
    }

    /** The `chat_message_deleted` handler: every entry with that id goes. */
    method OnMessageDeleted(messageId: string)
      modifies this`messages
      ensures messages == Keep(old(messages), (m: Message) => m.id != messageId)
      ensures forall i :: 0 <= i < |messages| ==> messages[i].id != messageId
    {
      messages := Keep(messages, (m: Message) => m.id != messageId);
    }

    /** sendMessage. Blank text, no position or no user: nothing happens.
        Otherwise, with a token, the trimmed text is posted; `response` is
        the stored message the server answers with (None on failure). On
        success the message goes on top, as the user's own at distance 0,
        and the box is cleared. */
    method SendMessage(hasToken: bool, response: Option<BackendRules.ChatMessage>)
      returns (request: Option<ChatRequest>)
      modifies this`messages, this`draft
      ensures request.Some? <==> Trim(old(draft)) != "" && location.Some? && user.Some? && hasToken
      ensures request.Some? ==> request.value == ChatRequest(Trim(old(draft)), location.value, "text")
      ensures request.Some? && response.Some? ==>
        var sent := response.value;
        && messages == [Message(sent.id, user.value.name, sent.message, sent.location, 0.0,
                                sent.createdAt, sent.messageType, user.value.id)] + old(messages)
        && IsOwn(messages[0], user)
        && draft == ""
      ensures !(request.Some? && response.Some?) ==> messages == old(messages) && draft == old(draft)
    {
      request := None;
      if Trim(draft) == "" || location.None? || user.None? {
        return;
      }
      if !hasToken {
        return;
      }
      request := Some(ChatRequest(Trim(draft), location.value, "text"));
      if response.Some? {
        var sent := response.value;
        var localMessage := Message(sent.id, user.value.name, sent.message, sent.location, 0.0,
                                    sent.createdAt, sent.messageType, user.value.id);
        messages := [localMessage] + messages;
        draft := "";
      }
    }

    /** deleteMessage: when DELETE /chat/{id} succeeds the entry goes. */
    method DeleteMessage(messageId: string, hasToken: bool, deleted: bool)
      modifies this`messages
      ensures hasToken && deleted ==> messages == Keep(old(messages), (m: Message) => m.id != messageId)
      ensures !(hasToken && deleted) ==> messages == old(messages)
    {
      if hasToken && deleted {
        messages := Keep(messages, (m: Message) => m.id != messageId);
      }
    }
  }

  /** As written, a message posted from the user's own spot, right after the
      screen has found its position, is not shown: the handler still sees the
      empty position of the first render. */
  method StaleHandlerExample(here: Point, dist: Distance, data: ChatEvent)
    returns (before: seq<Message>, after: seq<Message>)
    requires data.location == here && dist(here, here) == 0.0
    ensures after == before
  {
    var view := new ChatView();
    view.InitializeChat(Some(Account("u1", "Ana")), Some(here), true, Some([]), Some(5.0));
    before := view.messages;
    view.OnNewChatMessage(data, dist);
    after := view.messages;
  }

  /** With the handler reading the current state the same message is shown
      on top, marked as another user's, at distance 0. */
  method CurrentHandlerExample(here: Point, dist: Distance, data: ChatEvent)
    returns (before: seq<Message>, after: seq<Message>)
    requires data.location == here && dist(here, here) == 0.0
    ensures after == [FromEvent(data, 0.0)] + before
    ensures !IsOwn(after[0], Some(Account("u1", "Ana")))
  {
    var view := new ChatView();
    view.InitializeChat(Some(Account("u1", "Ana")), Some(here), true, Some([]), Some(5.0));
    before := view.messages;
    view.OnNewChatMessageCurrent(data, dist);
    after := view.messages;
  }
}
