/**
  The chat API of the middleware project: the same rules as the messaging
  app's API, written as `perform_create` hooks that raise instead of
  answering with a status, and a message queryset built with one `Q`
  disjunction instead of a union of two querysets. The conversation
  queryset is the same filter in both apps: `ChatData.ConversationsOf`.
 */
module MiddlewareViews {
  import opened Tables
  import opened ChatData
  import ChatViews

  datatype Raised =
    | ValueError(message: string)
    | DoesNotExist(model: string)
    | PermissionError(message: string)

  /** `MessageViewSet.get_queryset`: one filter on `Q(sender=user) | Q(recipient=user)`. */
  function MessageQueryset(messages: map<string, ChatMessage>, user: string): (r: set<string>)
    ensures forall m :: m in r <==> m in messages && SentOrReceived(messages[m], user)
  {
    set m | m in messages && (messages[m].sender == user || messages[m].recipient == user)
  }

  /** The `Q` disjunction selects the same messages as the messaging app's union of two querysets. */
  lemma MessageQuerysetsAgree(messages: map<string, ChatMessage>, user: string)
    ensures MessageQueryset(messages, user) == ChatViews.MessageQueryset(messages, user)
  {
  }

  /** The exception `perform_create` raises for a participant check, if any. */
  function ConversationError(check: ParticipantsCheck): (e: Option<Raised>)
    ensures e.None? <==> check.Participants?
    ensures check.NoParticipants? ==> e == Some(ValueError("Participants list is required."))
    ensures check.NoValidParticipants? ==> e == Some(ValueError("No valid participants found."))
  {
    match check
    case NoParticipants => Some(ValueError("Participants list is required."))
    case NoValidParticipants => Some(ValueError("No valid participants found."))
    case Participants(_) => None
  }

  /**
    `ConversationViewSet.perform_create`: ValueError before anything is saved
    for an empty list or one naming no user; otherwise the saved
    conversation's participants are the users named plus the requester.
   */
  method PerformCreateConversation(store: ChatStore, requester: string, ids: seq<string>, key: string)
    returns (raised: Option<Raised>)
    requires store.Valid() && requester in store.users && key !in store.conversations
    modifies store
    ensures store.Valid()
    ensures raised == ConversationError(CheckParticipants(old(store.users), ids, requester))
    ensures store.users == old(store.users) && store.messages == old(store.messages)
    ensures store.conversations == match CheckParticipants(old(store.users), ids, requester)
      case Participants(members) => old(store.conversations)[key := members]
      case _ => old(store.conversations)
  {
    var check := CheckParticipants(store.users, ids, requester);
    raised := ConversationError(check);
    if check.Participants? {
      store.InsertConversation(key, check.members);
    }
  }

  /** The exception `perform_create` raises for a message check, if any. */
  function MessageError(check: MessageCheck): (e: Option<Raised>)
    ensures e.None? <==> check.Checked?
    ensures check.MissingField? ==> e == Some(ValueError("All fields are required."))
    ensures check.UnknownSender? || check.UnknownRecipient? ==> e == Some(DoesNotExist("User"))
    ensures check.UnknownConversation? ==> e == Some(DoesNotExist("Conversation"))
    ensures check.NotYourself? ==> e == Some(PermissionError("You can only send messages as yourself."))
  {
    match check
    case MissingField => Some(ValueError("All fields are required."))
    case UnknownSender => Some(DoesNotExist("User"))
    case UnknownRecipient => Some(DoesNotExist("User"))
    case UnknownConversation => Some(DoesNotExist("Conversation"))
    case NotYourself => Some(PermissionError("You can only send messages as yourself."))
    case Checked(_) => None
  }

  /**
    `MessageViewSet.perform_create`: the save receives exactly the validated
    sender, recipient, conversation and body; a missing field raises
    ValueError, an unknown key DoesNotExist, a foreign sender
    PermissionError, and then nothing is saved.
   */
  method PerformCreateMessage(
    store: ChatStore, requester: string,
    sender: Option<string>, recipient: Option<string>, conversation: Option<string>, body: Option<string>,
    key: string) returns (raised: Option<Raised>)
    requires store.Valid() && key !in store.messages
    modifies store
    ensures store.Valid()
    ensures raised == MessageError(
      CheckMessage(old(store.users), old(store.conversations.Keys), requester, sender, recipient, conversation, body))
    ensures store.users == old(store.users) && store.conversations == old(store.conversations)
    ensures store.messages == match CheckMessage(old(store.users), old(store.conversations.Keys), requester, sender, recipient, conversation, body)
      case Checked(msg) => old(store.messages)[key := msg]
      case _ => old(store.messages)
  {
    var check := CheckMessage(store.users, store.conversations.Keys, requester, sender, recipient, conversation, body);
    raised := MessageError(check);
    if check.Checked? {
      store.InsertMessage(key, check.msg);
    }
  }

  /** A saved message always has the requester as its sender. */
  lemma SavedMessageIsOwn(
    users: set<string>, conversations: set<string>, requester: string,
    sender: Option<string>, recipient: Option<string>, conversation: Option<string>, body: Option<string>)
    requires MessageError(CheckMessage(users, conversations, requester, sender, recipient, conversation, body)).None?
    ensures sender == Some(requester) && requester in users
    ensures CheckMessage(users, conversations, requester, sender, recipient, conversation, body).msg
         == ChatMessage(requester, recipient.value, conversation.value, body.value)
  {
  }

  /** The two API versions refuse the same requests: 400 is ValueError, 404 DoesNotExist, 403 PermissionError. */
  lemma ErrorsMatchStatuses(check: MessageCheck, key: string)
    ensures ChatViews.MessageResponse(check, key).status == 201 <==> MessageError(check).None?
    ensures ChatViews.MessageResponse(check, key).status == 400 <==> MessageError(check) == Some(ValueError("All fields are required."))
    ensures ChatViews.MessageResponse(check, key).status == 404 <==> MessageError(check).Some? && MessageError(check).value.DoesNotExist?
    ensures ChatViews.MessageResponse(check, key).status == 403 <==> MessageError(check).Some? && MessageError(check).value.PermissionError?
  {
  }
}
