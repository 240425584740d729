/**
 * The record shapes of the chat-session collection: a session owns an ordered
 * list of embedded messages, each tagged with one of two roles.
 */
module ChatSchema {
  import opened Wrappers

  /** The authenticated caller; sessions refer to their owner by this id. */
  type UserId = nat

  /** The document id of a stored session. */
  type SessionId = nat

  /** The `role` enum: a message was written either by the user or by the model. */
  datatype Role = User | Model

  /** The string a role is stored as. */
  function RoleName(r: Role): string
  {
    match r
    case User => "user"
    case Model => "model"
  }

  /** The enum check applied to a stored role string: only the two names are accepted. */
  function ParseRole(s: string): (r: Option<Role>)
    ensures r.Some? <==> s == "user" || s == "model"
    ensures r.Some? ==> RoleName(r.value) == s
  {
    if s == "user" then Some(User)
    else if s == "model" then Some(Model)
    else None
  }

  /** Every role survives being written out and read back. */
  lemma ParseRoleName(r: Role)
    ensures ParseRole(RoleName(r)) == Some(r)
  {
  }

  /** An embedded message; it has no id of its own and lives only inside its session. */
  datatype Message = Message(role: Role, content: string)

  /**
   * `content` is a required String: the required check on a string rejects the
   * empty string as well as a missing one.
   */
  predicate HasContent(m: Message)
  {
    m.content != ""
  }

  /** The title a session gets when none is supplied. */
  const DefaultTitle: string := "New Chat"

  /**
   * A stored session. `owner` is required; `createdAt` and `updatedAt` are the
   * automatic timestamps, here readings of a logical clock.
   */
  datatype Session = Session(
    owner: UserId,
    title: string,
    messages: seq<Message>,
    isActive: bool,
    createdAt: nat,
    updatedAt: nat)

  /** JavaScript falsiness of an optional title: absent or the empty string. */
  predicate Falsy(t: Option<string>)
  {
    t.None? || t.value == ""
  }

  /** `title || 'New Chat'`: the supplied title unless it is falsy. */
  function TitleOrDefault(t: Option<string>): (r: string)
    ensures r != ""
    ensures Falsy(t) ==> r == DefaultTitle
    ensures !Falsy(t) ==> r == t.value
  {
    if Falsy(t) then DefaultTitle else t.value
  }

  /**
   * A session document as first saved at time `now`: the given owner and title,
   * no messages, active, both timestamps set to `now`.
   */
  function NewSession(owner: UserId, title: string, now: nat): Session
  {
    Session(owner, title, [], true, now, now)
  }

  /** What saving a session validates: every embedded message carries content. */
  predicate Savable(s: Session)
  {
    forall i :: 0 <= i < |s.messages| ==> HasContent(s.messages[i])
  }

  /**
   * What holds of every session in the store: it passed validation, its title is
   * not empty, and it was not updated before it was created.
   */
  predicate WellFormed(s: Session)
  {
    Savable(s) && s.title != "" && s.createdAt <= s.updatedAt
  }
}
