/**
  The chat API of the messaging app: the conversation and message view
  sets. Each `create` answers with an HTTP status and either an error text
  or the created row; the querysets decide which rows a user sees.

  The participant list of a request is the value of `participants`, with an
  absent (or null) value given as the empty list. The requester is the
  authenticated user of the request.
 */
module ChatViews {
  import opened Tables
  import opened ChatData

  datatype Body =
    | Error(error: string)
    | NotFound(model: string)
    | ConversationCreated(key: string, participants: set<string>)
    | MessageCreated(key: string, msg: ChatMessage)

  datatype Response = Response(status: int, body: Body)

  /** `MessageViewSet.get_queryset`: the union of the sender filter and the recipient filter. */
  function MessageQueryset(messages: map<string, ChatMessage>, user: string): (r: set<string>)
    ensures forall m :: m in r <==> m in messages && SentOrReceived(messages[m], user)
  {
    (set m | m in messages && messages[m].sender == user) + (set m | m in messages && messages[m].recipient == user)
  }

  /** The response `ConversationViewSet.create` gives for a participant check. */
  function ConversationResponse(check: ParticipantsCheck, key: string): (r: Response)
    ensures r.status == 201 <==> check.Participants?
    ensures check.NoParticipants? ==> r == Response(400, Error("Participants list is required."))
    ensures check.NoValidParticipants? ==> r == Response(400, Error("No valid participants found."))
    ensures check.Participants? ==> r.body == ConversationCreated(key, check.members)
  {
    match check
    case NoParticipants => Response(400, Error("Participants list is required."))
    case NoValidParticipants => Response(400, Error("No valid participants found."))
    case Participants(members) => Response(201, ConversationCreated(key, members))
  }

  /**
    `ConversationViewSet.create`: 400 and no change for an empty list or one
    naming no user; otherwise a conversation under the new `key` whose
    participants are the users named plus the requester, and 201.
   */
  method CreateConversation(store: ChatStore, requester: string, ids: seq<string>, key: string) returns (resp: Response)
    requires store.Valid() && requester in store.users && key !in store.conversations
    modifies store
    ensures store.Valid()
    ensures resp == ConversationResponse(CheckParticipants(old(store.users), ids, requester), key)
    ensures store.users == old(store.users) && store.messages == old(store.messages)
    ensures store.conversations == match CheckParticipants(old(store.users), ids, requester)
      case Participants(members) => old(store.conversations)[key := members]
      case _ => old(store.conversations)
  {
    var check := CheckParticipants(store.users, ids, requester);
    if check.Participants? {
      store.InsertConversation(key, check.members);
    }
    resp := ConversationResponse(check, key);
  }

  /** The response `MessageViewSet.create` gives for a message check. */
  function MessageResponse(check: MessageCheck, key: string): (r: Response)
    ensures r.status == 201 <==> check.Checked?
    ensures r.status == 400 <==> check.MissingField?
    ensures r.status == 404 <==> check.UnknownSender? || check.UnknownRecipient? || check.UnknownConversation?
    ensures r.status == 403 <==> check.NotYourself?
    ensures check.MissingField? ==> r.body == Error("All fields are required.")
    ensures check.NotYourself? ==> r.body == Error("You can only send messages as yourself.")
    ensures check.Checked? ==> r.body == MessageCreated(key, check.msg)
  {
    match check
    case MissingField => Response(400, Error("All fields are required."))
    case UnknownSender => Response(404, NotFound("User"))
    case UnknownRecipient => Response(404, NotFound("User"))
    case UnknownConversation => Response(404, NotFound("Conversation"))
    case NotYourself => Response(403, Error("You can only send messages as yourself."))
    case Checked(msg) => Response(201, MessageCreated(key, msg))
  }

  /**
    `MessageViewSet.create`: one new message with exactly the given fields
    and 201 when the check passes; otherwise its 400, 404 or 403 and no change.
   */
  method CreateMessage(
    store: ChatStore, requester: string,
    sender: Option<string>, recipient: Option<string>, conversation: Option<string>, body: Option<string>,
    key: string) returns (resp: Response)
    requires store.Valid() && key !in store.messages
    modifies store
    ensures store.Valid()
    ensures resp == MessageResponse(
      CheckMessage(old(store.users), old(store.conversations.Keys), requester, sender, recipient, conversation, body), key)
    ensures store.users == old(store.users) && store.conversations == old(store.conversations)
    ensures store.messages == match CheckMessage(old(store.users), old(store.conversations.Keys), requester, sender, recipient, conversation, body)
      case Checked(msg) => old(store.messages)[key := msg]
      case _ => old(store.messages)
  {
    var check := CheckMessage(store.users, store.conversations.Keys, requester, sender, recipient, conversation, body);
    if check.Checked? {
      store.InsertMessage(key, check.msg);
    }
    resp := MessageResponse(check, key);
  }

  /** A message request with a foreign sender and an unknown recipient gets 404, not 403: lookups come first. */
  lemma LookupsBeforeIdentity(
    users: set<string>, conversations: set<string>, requester: string,
    sender: Option<string>, recipient: Option<string>, conversation: Option<string>, body: Option<string>, key: string)
    requires AllTruthy(sender, recipient, conversation, body)
    requires sender.value != requester && recipient.value !in users
    ensures MessageResponse(CheckMessage(users, conversations, requester, sender, recipient, conversation, body), key).status == 404
  {
  }

  /** A created conversation is in the requester's conversation list afterwards. */
  lemma CreatedConversationVisible(store: map<string, set<string>>, users: set<string>, requester: string, ids: seq<string>, key: string)
    requires CheckParticipants(users, ids, requester).Participants?
    ensures key in ConversationsOf(store[key := CheckParticipants(users, ids, requester).members], requester)
  {
  }

  /** A created message is in both its sender's and its recipient's message list afterwards. */
  lemma CreatedMessageVisible(messages: map<string, ChatMessage>, key: string, msg: ChatMessage)
    ensures key in MessageQueryset(messages[key := msg], msg.sender)
    ensures key in MessageQueryset(messages[key := msg], msg.recipient)
  {
  }
}
