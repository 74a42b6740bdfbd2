/**
  The REST framework permissions of the chat API: `IsParticipantOfConversation`
  and `IsOwner`. Each has a view-level check (an authenticated user must be
  present) and an object-level check.

  An object is described by the attributes the checks look at: its
  participants (a conversation), the participants of its conversation (a
  message), and its owner; an attribute the object lacks is None.
 */
module Permissions {
  import opened Tables

  /** `request.user`: absent, the anonymous user, or a signed-in user. */
  datatype RequestUser = NoUser | AnonymousUser | SignedIn(id: string)

  datatype Target = Target(
    participants: Option<set<string>>,
    conversationParticipants: Option<set<string>>,
    owner: Option<string>)

  /** What an object-level check does: allow, deny, or raise AttributeError on a missing `owner`. */
  datatype Verdict = Allow | Deny | AttributeError

  /** `request.user in <participants>`: only a signed-in user can be among them. */
  predicate Member(user: RequestUser, members: set<string>)
  {
    user.SignedIn? && user.id in members
  }

  /**
    `has_permission`, identical in both classes: `request.user and
    request.user.is_authenticated`.
   */
  function HasPermission(user: RequestUser): (granted: bool)
    ensures granted <==> user.SignedIn?
  {
    match user
    case NoUser => false
    case AnonymousUser => false
    case SignedIn(_) => true
  }

  /**
    `IsParticipantOfConversation.has_object_permission`: an object with
    participants is checked against them; otherwise an object with a
    conversation is checked against the conversation's participants;
    anything else is denied.
   */
  function ParticipantObjectPermission(user: RequestUser, obj: Target): (granted: bool)
    ensures obj.participants.Some? ==> (granted <==> Member(user, obj.participants.value))
    ensures obj.participants.None? && obj.conversationParticipants.Some? ==>
      (granted <==> Member(user, obj.conversationParticipants.value))
    ensures obj.participants.None? && obj.conversationParticipants.None? ==> !granted
  {
    if obj.participants.Some? then Member(user, obj.participants.value)
    else if obj.conversationParticipants.Some? then Member(user, obj.conversationParticipants.value)
    else false
  }

  /** DRF's SAFE_METHODS: the read-only methods of section 9.2.1 of RFC 9110. */
  const SafeMethods: set<string> := {"GET", "HEAD", "OPTIONS"}

  /**
    `IsOwner.has_object_permission`: a safe method is allowed whatever the
    object; any other method is allowed iff the object's owner is the
    requesting user, and raises AttributeError when there is no owner.
   */
  function OwnerObjectPermission(user: RequestUser, method_: string, obj: Target): (v: Verdict)
    ensures method_ in SafeMethods ==> v == Allow
    ensures method_ !in SafeMethods && obj.owner.None? ==> v == AttributeError
    ensures method_ !in SafeMethods && obj.owner.Some? ==> (v == Allow <==> user == SignedIn(obj.owner.value))
    ensures v != AttributeError ==> method_ in SafeMethods || obj.owner.Some?
  {
    if method_ in SafeMethods then Allow
    else if obj.owner.None? then AttributeError
    else if user == SignedIn(obj.owner.value) then Allow
    else Deny
  }

  /** The participants attribute wins: an object's conversation is not consulted when it has participants. */
  lemma ParticipantsTriedFirst(user: RequestUser, obj: Target, other: Option<set<string>>)
    requires obj.participants.Some?
    ensures ParticipantObjectPermission(user, obj) == ParticipantObjectPermission(user, obj.(conversationParticipants := other))
  {
  }

  /** Whoever passes either object-level check as a participant or as owner of a write also passes the view-level check. */
  lemma ObjectGrantImpliesViewGrant(user: RequestUser, method_: string, obj: Target)
    requires ParticipantObjectPermission(user, obj) || (method_ !in SafeMethods && OwnerObjectPermission(user, method_, obj) == Allow)
    ensures HasPermission(user)
  {
  }

  /** A safe method is allowed by `IsOwner` whoever asks and whatever the object is. */
  lemma SafeMethodsIgnoreOwner(u1: RequestUser, u2: RequestUser, method_: string, o1: Target, o2: Target)
    requires method_ in SafeMethods
    ensures OwnerObjectPermission(u1, method_, o1) == OwnerObjectPermission(u2, method_, o2) == Allow
  {
  }
}
