/** The public emergency profile page: how the profile load is classified, the
    geolocation update, the SOS alert state machine with its two timers, and the
    chat transcript with its one remote answer per message. */
module Profile {
  import opened Common
  import opened Text
  import opened Session

  const UserNotFoundMsg := "User not found"
  const ServerErrorMsg := "Server error"
  const LoadFailedMsg := "Failed to load information"
  const InvalidFormatMsg := "Invalid data format"

  const WaitingLocationMsg := "Waiting for location data..."
  const AuthFailedMsg := "Authentication failed"
  const TooManyMsg := "Too many SOS requests"
  const SosRequestFailedMsg := "SOS request failed"
  const SosFailedMsg := "SOS failed"
  const AlertsFailedMsg := "Failed to send alerts"
  const NotifiedMsg := "Emergency contacts notified"
  /** What the engine reports when `userData._id` is read while `userData` is `null`. */
  const NoProfileError := NullRead("_id")
  /** The local-storage key the SOS request takes its bearer token from. */
  const SosTokenKey := "emergencyToken"

  const GreetingText := "Hello! I'm your Emergency AI Assistant. How can I help you today?"
  const NotUnderstoodMsg := "I couldn't understand that. Please try again."
  const ConnectionApology := "Sorry, I'm having trouble connecting. Please try again later."

  // ---------------------------------------------------------------------------
  // Loading the public profile
  // ---------------------------------------------------------------------------

  /** The decoded body of `GET /auth/me/:id`, by JavaScript type (`null` is the
      `JsonNull` body). */
  datatype ProfileBody = ObjectBody(user: User) | ArrayBody | PrimitiveBody

  /** `data && typeof data === "object"`: arrays pass, primitives do not. */
  predicate IsObject(b: ProfileBody) {
    b.ObjectBody? || b.ArrayBody?
  }

  /** `userData._id`, absent unless the body is a user document. */
  function IdOf(b: ProfileBody): Option<string> {
    if b.ObjectBody? then Some(b.user.id) else None
  }

  /** `userData?.location`, absent unless the body is a user document that has one. */
  function LocationOf(b: ProfileBody): Option<Location> {
    if b.ObjectBody? then b.user.location else None
  }

  /** The error `fetchUserData` ends with, or `None` when the profile is accepted. The
      status is examined before the body: 404, then 500, then any other non-ok status;
      then a body that fails to decode, then one that is `null` or not an object. */
  function LoadFailure(resp: Response<ProfileBody>): (r: Option<string>)
    ensures r.None? <==> resp.Reply? && IsOk(resp.status) && resp.body.Parsed? && IsObject(resp.body.data)
    ensures r.Some? ==> r.value != ""
    ensures resp.Reply? && resp.status == 404 ==> r == Some(UserNotFoundMsg)
    ensures resp.Reply? && resp.status == 500 ==> r == Some(ServerErrorMsg)
    ensures resp.Reply? && !IsOk(resp.status) && resp.status != 404 && resp.status != 500 ==>
              r == Some(LoadFailedMsg)
    ensures resp.Reply? && IsOk(resp.status) && resp.body.Parsed? && !IsObject(resp.body.data) ==>
              r == Some(InvalidFormatMsg)
    ensures resp.Reply? && IsOk(resp.status) && resp.body.JsonNull? ==> r == Some(InvalidFormatMsg)
  {
    match resp
    case NetworkError(e) => Some(OrElse(e, LoadFailedMsg))
    case Reply(status, body) =>
      if status == 404 then Some(UserNotFoundMsg)
      else if status == 500 then Some(ServerErrorMsg)
      else if !IsOk(status) then Some(LoadFailedMsg)
      else match body
        case Malformed(e) => Some(OrElse(e, LoadFailedMsg))
        case JsonNull => Some(InvalidFormatMsg)
        case Parsed(data) => if IsObject(data) then None else Some(InvalidFormatMsg)
  }

  // ---------------------------------------------------------------------------
  // SOS
  // ---------------------------------------------------------------------------

  /** The fields of the SOS reply the page reads. */
  datatype SosData = SosData(success: bool, message: Option<string>)

  /** The body of `POST /sos/trigger` with the token of its `Authorization` header. */
  datatype SosRequest = SosRequest(id: Option<string>, lat: Coord, long: Coord, token: Option<string>)

  /** The message `handleSOS` ends with on failure, or `None` when the alert went out.
      401, then 429, then any other non-ok status; only then is the body decoded, and a
      body without `success` fails with the server's message or "SOS failed", and a
      `null` body with the error raised by reading `success` of it. */
  function SosFailure(resp: Response<SosData>): (r: Option<string>)
    ensures r.None? <==> resp.Reply? && IsOk(resp.status) && resp.body.Parsed? && resp.body.data.success
    ensures r.Some? ==> r.value != ""
    ensures resp.Reply? && resp.status == 401 ==> r == Some(AuthFailedMsg)
    ensures resp.Reply? && resp.status == 429 ==> r == Some(TooManyMsg)
    ensures resp.Reply? && !IsOk(resp.status) && resp.status != 401 && resp.status != 429 ==>
              r == Some(SosRequestFailedMsg)
    ensures resp.Reply? && IsOk(resp.status) && resp.body.Parsed? && !resp.body.data.success ==>
              r == Some(if Truthy(resp.body.data.message) then resp.body.data.message.value else SosFailedMsg)
    ensures resp.Reply? && IsOk(resp.status) && resp.body.JsonNull? ==> r == Some(NullRead("success"))
  {
    match resp
    case NetworkError(e) => Some(OrElse(e, AlertsFailedMsg))
    case Reply(status, body) =>
      if status == 401 then Some(AuthFailedMsg)
      else if status == 429 then Some(TooManyMsg)
      else if !IsOk(status) then Some(SosRequestFailedMsg)
      else match body
        case Malformed(e) => Some(OrElse(e, AlertsFailedMsg))
        case JsonNull => Some(NullRead("success"))
        case Parsed(data) =>
          if !data.success then Some(OrElse(FieldOr(data.message, SosFailedMsg), AlertsFailedMsg))
          else None
  }

  // ---------------------------------------------------------------------------
  // Chat
  // ---------------------------------------------------------------------------

  datatype Author = FromBot | FromUser

  datatype ChatMessage = ChatMessage(author: Author, text: string)

  /** The field of the chatbot reply the page reads. */
  datatype ChatData = ChatData(message: Option<string>)

  /** The body of `POST /chatbot/ask`: the message as typed and the profile id of the route. */
  datatype ChatRequest = ChatRequest(message: string, id: string)

  /** The bot's answer: the server's message when the reply is ok, decodes and has one;
      the "couldn't understand" text when it has none; the apology on any failure,
      including a `null` body, whose `message` cannot be read. */
  function BotReply(resp: Response<ChatData>): (r: string)
    ensures r != ""
    ensures resp.Reply? && IsOk(resp.status) && resp.body.Parsed? ==>
              r == if Truthy(resp.body.data.message) then resp.body.data.message.value else NotUnderstoodMsg
    ensures !(resp.Reply? && IsOk(resp.status) && resp.body.Parsed?) ==> r == ConnectionApology
  {
    match resp
    case NetworkError(_) => ConnectionApology
    case Reply(status, body) =>
      if !IsOk(status) then ConnectionApology
      else match body
        case Malformed(_) => ConnectionApology
        case JsonNull => ConnectionApology
        case Parsed(data) => FieldOr(data.message, NotUnderstoodMsg)
  }

  /** The transcript alternates, starting with the bot's greeting: bot at even
      positions, user at odd ones. */
  predicate Alternates(ms: seq<ChatMessage>) {
    forall i :: 0 <= i < |ms| ==> ms[i].author == (if i % 2 == 0 then FromBot else FromUser)
  }

  /** Appending the next speaker's message keeps the transcript alternating. */
  lemma {:induction false} AlternatesAppend(ms: seq<ChatMessage>, m: ChatMessage)
    requires Alternates(ms)
    requires m.author == (if |ms| % 2 == 0 then FromBot else FromUser)
    ensures Alternates(ms + [m])
  {
    forall i | 0 <= i < |ms| + 1
      ensures (ms + [m])[i].author == (if i % 2 == 0 then FromBot else FromUser)
    {
      if i < |ms| {
        assert (ms + [m])[i] == ms[i];
      }
    }
  }

  /** In an alternating transcript every user message is answered by the message right
      after it, which is the bot's. */
  lemma {:induction false} EveryQuestionAnswered(ms: seq<ChatMessage>, i: int)
    requires Alternates(ms) && |ms| % 2 == 1
    requires 0 <= i < |ms| && ms[i].author == FromUser
    ensures i + 1 < |ms| && ms[i + 1].author == FromBot
  {
    assert ms[i].author == (if i % 2 == 0 then FromBot else FromUser);
  }

  // ---------------------------------------------------------------------------
  // The page
  // ---------------------------------------------------------------------------

  /** Where `fetchUserData` is: awaiting the reply, waiting on its 1-second timer with
      the accepted body, or finished. */
  datatype LoadStage = Fetching | DisplayDelayed(data: ProfileBody) | LoadDone

  /** Where `handleSOS` is: not running, awaiting the reply, waiting on the 2-second
      send delay, or activated and waiting on the 10-second cooldown. */
  datatype SosStage = SosIdle | AwaitingSosReply | AwaitingSendDelay | CoolingDown

  /** Where `processMessage` is: not running, awaiting the reply, or waiting on its
      half-second timer with the answer to append. */
  datatype ChatStage = ChatIdle | AwaitingAnswer | AnswerDelayed(text: string)

  /** The `EmergencyDetailsPage` component's state. */
  class EmergencyDetailsPage {
    var loading: bool
    var error: string
    var userData: Option<ProfileBody>
    var loadStage: LoadStage
    var userLocation: Location
    var sosActivated: bool
    var sosLoading: bool
    var sosMessage: string
    var sosStage: SosStage
    var messages: seq<ChatMessage>
    var inputMessage: string
    var isBotTyping: bool
    var chatStage: ChatStage
    /** The `:id` of the route. */
    const routeId: string
    const storage: LocalStorage

    /** The flags the page renders agree with where each handler is suspended, only an
        object body is ever shown, and the transcript alternates between bot and user
        with the user's turn open exactly while the bot is typing. */
    predicate Valid()
      reads this
    {
      (loading <==> !loadStage.LoadDone?) &&
      (loadStage.DisplayDelayed? ==> IsObject(loadStage.data)) &&
      (userData.Some? ==> IsObject(userData.value)) &&
      (sosLoading <==> sosStage == AwaitingSosReply || sosStage == AwaitingSendDelay) &&
      (sosActivated <==> sosStage == CoolingDown) &&
      (isBotTyping <==> !chatStage.ChatIdle?) &&
      Alternates(messages) &&
      (|messages| % 2 == 1 <==> chatStage.ChatIdle?)
    }

    /** `disabled={sosLoading || sosActivated}`. */
    predicate SosButtonDisabled()
      reads this
    {
      sosLoading || sosActivated
    }

    /** `disabled={isBotTyping || inputMessage.trim() === ""}`. */
    predicate SendDisabled()
      reads this
    {
      isBotTyping || IsBlank(inputMessage)
    }

    function LoadState(): (bool, string, Option<ProfileBody>, LoadStage)
      reads this
    {
      (loading, error, userData, loadStage)
    }

    function SosState(): (bool, bool, string, SosStage)
      reads this
    {
      (sosLoading, sosActivated, sosMessage, sosStage)
    }

    function ChatState(): (seq<ChatMessage>, string, bool, ChatStage)
      reads this
    {
      (messages, inputMessage, isBotTyping, chatStage)
    }

    /** The SOS button is disabled exactly while an alert is being sent or is active. */
    lemma SosButtonDisabledWhileBusy()
      requires Valid()
      ensures SosButtonDisabled() <==> !sosStage.SosIdle?
    {
    }

    /** The page as mounted: loading, no location yet, the greeting alone in the chat. */
    constructor (routeId: string, storage: LocalStorage)
      ensures Valid() && this.routeId == routeId && this.storage == storage
      ensures loading && error == "" && userData == None && loadStage == Fetching
      ensures userLocation == Location(NoFix, NoFix)
      ensures !sosActivated && !sosLoading && sosMessage == "" && sosStage == SosIdle
      ensures messages == [ChatMessage(FromBot, GreetingText)] && inputMessage == ""
      ensures !isBotTyping && chatStage == ChatIdle
    {
      this.routeId := routeId;
      this.storage := storage;
      loading := true;
      error := "";
      userData := None;
      loadStage := Fetching;
      userLocation := Location(NoFix, NoFix);
      sosActivated := false;
      sosLoading := false;
      sosMessage := "";
      sosStage := SosIdle;
      messages := [ChatMessage(FromBot, GreetingText)];
      inputMessage := "";
      isBotTyping := false;
      chatStage := ChatIdle;
    }

    /** `fetchUserData` once the reply is in: a failure ends loading with its message;
        an accepted body waits for the display timer. */
    method ProfileResponded(resp: Response<ProfileBody>)
      requires Valid() && loadStage == Fetching
      modifies this
      ensures Valid()
      ensures LoadFailure(resp).Some? ==>
                error == LoadFailure(resp).value && !loading && loadStage == LoadDone && userData == old(userData)
      ensures LoadFailure(resp).None? ==>
                loadStage == DisplayDelayed(resp.body.data) && loading && error == old(error) &&
                userData == old(userData)
      ensures SosState() == old(SosState()) && ChatState() == old(ChatState())
      ensures userLocation == old(userLocation)
    {
      var failure := LoadFailure(resp);
      if failure.Some? {
        error := failure.value;
        loading := false;
        loadStage := LoadDone;
      } else {
        loadStage := DisplayDelayed(resp.body.data);
      }
    }

    /** The 1-second callback: show the accepted profile and stop loading. */
    method DisplayTimerFired()
      requires Valid() && loadStage.DisplayDelayed?
      modifies this
      ensures Valid() && userData == Some(old(loadStage).data) && !loading && loadStage == LoadDone
      ensures error == old(error)
      ensures SosState() == old(SosState()) && ChatState() == old(ChatState())
      ensures userLocation == old(userLocation)
    {
      userData := Some(loadStage.data);
      loading := false;
      loadStage := LoadDone;
    }

    /** One tick of a location poller. A fix replaces the location; a failed fix falls
        back to the location of the profile the poller's closure holds (`captured`: the
        poller started at mount holds none, the one started once the profile arrived
        holds it), and otherwise keeps the old one. */
    method LocationPolled(fix: Option<Location>, captured: Option<ProfileBody>)
      requires Valid() && (captured.None? || captured == userData)
      modifies this
      ensures Valid()
      ensures fix.Some? ==> userLocation == fix.value
      ensures fix.None? && captured.Some? && LocationOf(captured.value).Some? ==>
                userLocation == LocationOf(captured.value).value
      ensures fix.None? && (captured.None? || LocationOf(captured.value).None?) ==>
                userLocation == old(userLocation)
      ensures LoadState() == old(LoadState()) && SosState() == old(SosState()) && ChatState() == old(ChatState())
    {
      if fix.Some? {
        userLocation := fix.value;
      } else if captured.Some? && LocationOf(captured.value).Some? {
        userLocation := LocationOf(captured.value).value;
      }
    }

    /** `handleSOS` up to its request. Without a truthy latitude and longitude only the
        waiting message changes. Otherwise the page starts sending and posts the profile
        id with the coordinates; with no profile loaded, reading its id throws before
        anything is sent. */
    method PressSos() returns (request: Option<SosRequest>)
      requires Valid() && !loading && !SosButtonDisabled()
      modifies this
      ensures Valid() && sosActivated == old(sosActivated)
      ensures Falsy(userLocation.lat) || Falsy(userLocation.lon) ==>
                request.None? && sosMessage == WaitingLocationMsg && sosLoading == old(sosLoading) &&
                sosStage == SosIdle
      ensures !Falsy(userLocation.lat) && !Falsy(userLocation.lon) && userData.None? ==>
                request.None? && sosMessage == NoProfileError && !sosLoading && sosStage == SosIdle
      ensures !Falsy(userLocation.lat) && !Falsy(userLocation.lon) && userData.Some? ==>
                request == Some(SosRequest(IdOf(userData.value), userLocation.lat, userLocation.lon,
                                           storage.GetItem(SosTokenKey))) &&
                sosMessage == "" && sosLoading && sosStage == AwaitingSosReply
      ensures LoadState() == old(LoadState()) && ChatState() == old(ChatState())
      ensures userLocation == old(userLocation)
    {
      if Falsy(userLocation.lat) || Falsy(userLocation.lon) {
        sosMessage := WaitingLocationMsg;
        return None;
      }
      sosLoading := true;
      sosMessage := "";
      if userData.None? {
        sosMessage := NoProfileError;
        sosLoading := false;
        return None;
      }
      sosStage := AwaitingSosReply;
      request := Some(SosRequest(IdOf(userData.value), userLocation.lat, userLocation.lon,
                                 storage.GetItem(SosTokenKey)));
    }

    /** The SOS reply: a failure ends sending with its message and leaves the alert
        inactive; a success waits for the send delay with nothing visible changed. */
    method SosResponded(resp: Response<SosData>)
      requires Valid() && sosStage == AwaitingSosReply
      modifies this
      ensures Valid() && sosActivated == old(sosActivated)
      ensures SosFailure(resp).Some? ==>
                sosMessage == SosFailure(resp).value && !sosLoading && sosStage == SosIdle
      ensures SosFailure(resp).None? ==>
                sosMessage == old(sosMessage) && sosLoading && sosStage == AwaitingSendDelay
      ensures LoadState() == old(LoadState()) && ChatState() == old(ChatState())
      ensures userLocation == old(userLocation)
    {
      var failure := SosFailure(resp);
      if failure.Some? {
        sosMessage := failure.value;
        sosLoading := false;
        sosStage := SosIdle;
      } else {
        sosStage := AwaitingSendDelay;
      }
    }

    /** The 2-second callback: the alert is active, confirmed, and no longer sending;
        the cooldown is scheduled. */
    method SendDelayFired()
      requires Valid() && sosStage == AwaitingSendDelay
      modifies this
      ensures Valid() && sosActivated && sosMessage == NotifiedMsg && !sosLoading && sosStage == CoolingDown
      ensures SosButtonDisabled()
      ensures LoadState() == old(LoadState()) && ChatState() == old(ChatState())
      ensures userLocation == old(userLocation)
    {
      sosActivated := true;
      sosMessage := NotifiedMsg;
      sosLoading := false;
      sosStage := CoolingDown;
    }

    /** The 10-second callback: back to idle with the message cleared, so the button is
        enabled again without any user action. */
    method CooldownFired()
      requires Valid() && sosStage == CoolingDown
      modifies this
      ensures Valid() && !sosActivated && sosMessage == "" && sosLoading == old(sosLoading)
      ensures sosStage == SosIdle && !SosButtonDisabled()
      ensures LoadState() == old(LoadState()) && ChatState() == old(ChatState())
      ensures userLocation == old(userLocation)
    {
      sosActivated := false;
      sosMessage := "";
      sosStage := SosIdle;
    }

    /** The text field's `onChange`. */
    method TypeInput(text: string)
      requires Valid()
      modifies this
      ensures Valid() && inputMessage == text
      ensures messages == old(messages) && isBotTyping == old(isBotTyping) && chatStage == old(chatStage)
      ensures LoadState() == old(LoadState()) && SosState() == old(SosState())
      ensures userLocation == old(userLocation)
    {
      inputMessage := text;
    }

    /** `handleSendMessage` and `processMessage` up to the request: blank input changes
        nothing; otherwise the message as typed is appended for the user, the field is
        cleared, the bot is typing, and the message goes to the chatbot. */
    method SendMessage() returns (request: Option<ChatRequest>)
      requires Valid() && !isBotTyping
      modifies this
      ensures Valid()
      ensures request.Some? <==> !old(SendDisabled())
      ensures IsBlank(old(inputMessage)) ==> request.None? && ChatState() == old(ChatState())
      ensures !IsBlank(old(inputMessage)) ==>
                request == Some(ChatRequest(old(inputMessage), routeId)) &&
                messages == old(messages) + [ChatMessage(FromUser, old(inputMessage))] &&
                inputMessage == "" && isBotTyping && chatStage == AwaitingAnswer
      ensures LoadState() == old(LoadState()) && SosState() == old(SosState())
      ensures userLocation == old(userLocation)
    {
      if IsBlank(inputMessage) {
        return None;
      }
      var text := inputMessage;
      AlternatesAppend(messages, ChatMessage(FromUser, text));
      messages := messages + [ChatMessage(FromUser, text)];
      inputMessage := "";
      isBotTyping := true;
      chatStage := AwaitingAnswer;
      request := Some(ChatRequest(text, routeId));
    }

    /** The chatbot reply: the answer is fixed now and appended by the timer. */
    method ChatResponded(resp: Response<ChatData>)
      requires Valid() && chatStage == AwaitingAnswer
      modifies this
      ensures Valid() && chatStage == AnswerDelayed(BotReply(resp))
      ensures messages == old(messages) && inputMessage == old(inputMessage) && isBotTyping
      ensures LoadState() == old(LoadState()) && SosState() == old(SosState())
      ensures userLocation == old(userLocation)
    {
      chatStage := AnswerDelayed(BotReply(resp));
    }

    /** The half-second callback: exactly one bot message is appended and the bot stops
        typing. */
    method AnswerTimerFired()
      requires Valid() && chatStage.AnswerDelayed?
      modifies this
      ensures Valid()
      ensures messages == old(messages) + [ChatMessage(FromBot, old(chatStage).text)]
      ensures !isBotTyping && chatStage == ChatIdle && inputMessage == old(inputMessage)
      ensures LoadState() == old(LoadState()) && SosState() == old(SosState())
      ensures userLocation == old(userLocation)
    {
      AlternatesAppend(messages, ChatMessage(FromBot, chatStage.text));
      messages := messages + [ChatMessage(FromBot, chatStage.text)];
      isBotTyping := false;
      chatStage := ChatIdle;
    }
  }
}
