/**
  The chat store behind both chat APIs (users, conversations with their
  participants, messages), and the request checks the two API versions
  share: the participant list of a new conversation and the four fields of
  a new message, with Python truthiness for absent or empty values.

  Primary keys are UUID strings; a new key comes from the uuid4 generator
  as a parameter and is taken to be unused.
 */
module ChatData {
  import opened Tables

  datatype ChatMessage = ChatMessage(sender: string, recipient: string, conversation: string, body: string)

  /** A request field is truthy when present and not the empty string. */
  predicate Truthy(field: Option<string>)
  {
    field.Some? && field.value != ""
  }

  class ChatStore {
    var users: set<string>
    /** Each conversation's participants. */
    var conversations: map<string, set<string>>
    var messages: map<string, ChatMessage>

    ghost predicate Valid()
      reads this
    {
      && (forall c :: c in conversations ==> conversations[c] <= users)
      && (forall m :: m in messages ==>
            && messages[m].sender in users
            && messages[m].recipient in users
            && messages[m].conversation in conversations)
    }

    constructor (users: set<string>)
      ensures Valid()
      ensures this.users == users && conversations == map[] && messages == map[]
    {
      this.users := users;
      conversations, messages := map[], map[];
    }

    /** `Conversation.objects.create()` followed by `participants.set(...)`. */
    method InsertConversation(key: string, participants: set<string>)
      requires Valid() && key !in conversations && participants <= users
      modifies this`conversations
      ensures Valid()
      ensures conversations == old(conversations)[key := participants]
    {
      conversations := conversations[key := participants];
    }

    /** `Message.objects.create(...)` (or `serializer.save(...)`) with resolved keys. */
    method InsertMessage(key: string, msg: ChatMessage)
      requires Valid() && key !in messages
      requires msg.sender in users && msg.recipient in users && msg.conversation in conversations
      modifies this`messages
      ensures Valid()
      ensures messages == old(messages)[key := msg]
    {
      messages := messages[key := msg];
    }
  }

  /** The outcome of checking the participant list of a new conversation. */
  datatype ParticipantsCheck = NoParticipants | NoValidParticipants | Participants(members: set<string>)

  /**
    The participant rule: an absent or empty list is refused; a list naming
    no existing user is refused; otherwise the members are the existing
    users named plus the requester.
   */
  function CheckParticipants(users: set<string>, ids: seq<string>, requester: string): (c: ParticipantsCheck)
    ensures c.NoParticipants? <==> |ids| == 0
    ensures c.NoValidParticipants? <==> |ids| > 0 && forall i :: 0 <= i < |ids| ==> ids[i] !in users
    ensures c.Participants? ==> requester in c.members
    ensures c.Participants? ==> forall u :: u in c.members <==> u == requester || (u in users && u in ids)
  {
    if |ids| == 0 then NoParticipants
    else if forall i :: 0 <= i < |ids| ==> ids[i] !in users then NoValidParticipants
    else Participants((set u | u in ids && u in users) + {requester})
  }

  /** The outcome of checking the fields of a new message, in the order the views check them. */
  datatype MessageCheck =
    | MissingField
    | UnknownSender
    | UnknownRecipient
    | UnknownConversation
    | NotYourself
    | Checked(msg: ChatMessage)

  predicate AllTruthy(sender: Option<string>, recipient: Option<string>, conversation: Option<string>, body: Option<string>)
  {
    Truthy(sender) && Truthy(recipient) && Truthy(conversation) && Truthy(body)
  }

  /**
    The message rule: every field must be truthy; then sender, recipient and
    conversation are looked up in that order; only then is the sender
    compared with the requester.
   */
  function CheckMessage(
    users: set<string>, conversations: set<string>, requester: string,
    sender: Option<string>, recipient: Option<string>, conversation: Option<string>, body: Option<string>): (c: MessageCheck)
    ensures c.MissingField? <==> !AllTruthy(sender, recipient, conversation, body)
    ensures c.UnknownSender? <==> AllTruthy(sender, recipient, conversation, body) && sender.value !in users
    ensures c.UnknownRecipient? <==> (
      && AllTruthy(sender, recipient, conversation, body)
      && sender.value in users && recipient.value !in users)
    ensures c.UnknownConversation? <==> (
      && AllTruthy(sender, recipient, conversation, body)
      && sender.value in users && recipient.value in users && conversation.value !in conversations)
    ensures c.NotYourself? <==> (
      && AllTruthy(sender, recipient, conversation, body)
      && sender.value in users && recipient.value in users && conversation.value in conversations
      && sender.value != requester)
    ensures c.Checked? ==> (
      && c.msg == ChatMessage(sender.value, recipient.value, conversation.value, body.value)
      && c.msg.sender == requester
      && c.msg.sender in users && c.msg.recipient in users && c.msg.conversation in conversations)
  {
    if !AllTruthy(sender, recipient, conversation, body) then MissingField
    else if sender.value !in users then UnknownSender
    else if recipient.value !in users then UnknownRecipient
    else if conversation.value !in conversations then UnknownConversation
    else if sender.value != requester then NotYourself
    else Checked(ChatMessage(sender.value, recipient.value, conversation.value, body.value))
  }

  /** A message is accepted exactly when all fields are given, all keys resolve and the sender is the requester. */
  lemma CheckMessageAccepts(
    users: set<string>, conversations: set<string>, requester: string,
    sender: Option<string>, recipient: Option<string>, conversation: Option<string>, body: Option<string>)
    ensures CheckMessage(users, conversations, requester, sender, recipient, conversation, body).Checked? <==> (
      && AllTruthy(sender, recipient, conversation, body)
      && sender.value == requester && requester in users
      && recipient.value in users && conversation.value in conversations)
  {
  }

  /**
    The conversation list of both apps' `ConversationViewSet.get_queryset`:
    the conversations in which the user is a participant.
   */
  function ConversationsOf(conversations: map<string, set<string>>, user: string): (r: set<string>)
    ensures forall c :: c in r <==> c in conversations && user in conversations[c]
  {
    set c | c in conversations && user in conversations[c]
  }

  /** The messages a user sent or received. */
  ghost predicate SentOrReceived(msg: ChatMessage, user: string)
  {
    msg.sender == user || msg.recipient == user
  }
}
