/**
 * The pure parts of the chat controller: the 50-character preview, the session
 * summary, the provider history, what one conversational turn does to a
 * session, a retitle, and the message total of the statistics.
 */
module ChatViews {
  import opened Wrappers
  import opened ChatSchema

  /** The number of characters kept by previews and by titles taken from a message. */
  const PreviewLength: nat := 50

  /** `s.substring(0, 50)`: the first 50 characters of `s`, or all of it when shorter. */
  function Prefix50(s: string): (r: string)
    ensures r <= s
    ensures |r| <= PreviewLength
    ensures |s| <= PreviewLength ==> r == s
    ensures |s| >= PreviewLength ==> |r| == PreviewLength
    ensures r == "" <==> s == ""
  {
    s[..if |s| < PreviewLength then |s| else PreviewLength]
  }

  // ---------------------------------------------------------------- summaries

  /** One entry of the session list: the session without its messages. */
  datatype Summary = Summary(
    id: SessionId,
    title: string,
    messageCount: nat,
    isActive: bool,
    createdAt: nat,
    updatedAt: nat,
    lastMessage: Option<string>)

  /** The summary projection of one session. */
  function Summarize(id: SessionId, s: Session): (r: Summary)
    ensures r.id == id && r.title == s.title && r.isActive == s.isActive
    ensures r.createdAt == s.createdAt && r.updatedAt == s.updatedAt
    ensures r.messageCount == |s.messages|
    ensures r.lastMessage.None? <==> s.messages == []
    ensures r.lastMessage.Some? ==>
              |r.lastMessage.value| <= PreviewLength &&
              r.lastMessage.value <= s.messages[|s.messages| - 1].content
    ensures r.lastMessage.Some? ==>
              var c := s.messages[|s.messages| - 1].content;
              |r.lastMessage.value| == if |c| < PreviewLength then |c| else PreviewLength
  {
    Summary(id, s.title, |s.messages|, s.isActive, s.createdAt, s.updatedAt,
            if |s.messages| > 0 then Some(Prefix50(s.messages[|s.messages| - 1].content)) else None)
  }

  /** A preview loses nothing when the last message is short enough. */
  lemma ShortLastMessageShownWhole(id: SessionId, s: Session)
    requires s.messages != [] && |s.messages[|s.messages| - 1].content| <= PreviewLength
    ensures Summarize(id, s).lastMessage == Some(s.messages[|s.messages| - 1].content)
  {
  }

  /** Sessions listed most recently updated first; the order is strict. */
  predicate NewestFirst(ids: seq<SessionId>, sessions: map<SessionId, Session>)
  {
    && (forall i :: 0 <= i < |ids| ==> ids[i] in sessions)
    && (forall i, j :: 0 <= i < j < |ids| ==> sessions[ids[i]].updatedAt > sessions[ids[j]].updatedAt)
  }

  /** The summaries of the listed sessions, in the listed order. */
  function SummariesOf(ids: seq<SessionId>, sessions: map<SessionId, Session>): (r: seq<Summary>)
    requires forall i :: 0 <= i < |ids| ==> ids[i] in sessions
    ensures |r| == |ids|
    ensures forall i :: 0 <= i < |ids| ==> r[i] == Summarize(ids[i], sessions[ids[i]])
  {
    seq(|ids|, i requires 0 <= i < |ids| => Summarize(ids[i], sessions[ids[i]]))
  }

  // ---------------------------------------------------------------- provider history

  /** One entry of the history handed to the model provider. */
  datatype HistoryEntry = HistoryEntry(role: string, text: string)

  /** The provider role of a stored message: `user` stays `user`, anything else is `model`. */
  function ProviderRole(r: Role): string
  {
    if r == User then "user" else "model"
  }

  /** Roles are preserved: the provider role is the stored role's own name. */
  lemma ProviderRoleIsRoleName(r: Role)
    ensures ProviderRole(r) == RoleName(r)
    ensures ParseRole(ProviderRole(r)) == Some(r)
  {
  }

  /** The history entry of one stored message. */
  function Entry(m: Message): HistoryEntry
  {
    HistoryEntry(ProviderRole(m.role), m.content)
  }

  /** The history built from a list of stored messages: one entry per message, in order. */
  function ToHistory(msgs: seq<Message>): (h: seq<HistoryEntry>)
    ensures |h| == |msgs|
    ensures forall i :: 0 <= i < |msgs| ==> h[i].role == RoleName(msgs[i].role) && h[i].text == msgs[i].content
  {
    if msgs == [] then []
    else ToHistory(msgs[..|msgs| - 1]) + [Entry(msgs[|msgs| - 1])]
  }

  /** The history of a longer conversation extends the history of its beginning. */
  lemma ToHistoryAppend(a: seq<Message>, b: seq<Message>)
    ensures ToHistory(a + b) == ToHistory(a) + ToHistory(b)
  {
  }

  // ---------------------------------------------------------------- one turn

  /** What the provider does with a history and a new message: a reply or a failure. */
  datatype ProviderResult = Replied(text: string) | Failed(reason: string)

  /** The external model provider, as an opaque function of its inputs. */
  type Provider = (seq<HistoryEntry>, string) -> ProviderResult

  /** The title a session created by its first message starts with. */
  function ProvisionalTitle(message: string): (r: string)
    ensures message != "" ==> r == Prefix50(message)
    ensures message == "" ==> r == DefaultTitle
  {
    TitleOrDefault(Some(Prefix50(message)))
  }

  /** `session.messages.push({ role, content })`: one message appended to the session. */
  function Push(s: Session, role: Role, content: string): Session
  {
    s.(messages := s.messages + [Message(role, content)])
  }

  /** The auto-title step: a session holding exactly two messages and still titled `New Chat` is titled by the message. */
  function AutoTitle(s: Session, message: string): Session
  {
    if |s.messages| == 2 && s.title == DefaultTitle then s.(title := Prefix50(message)) else s
  }

  /**
   * The session after one turn has been answered: the user message and the reply
   * appended in that order, then, if these are the first two messages and the
   * title is still exactly the default, the title replaced by the message's prefix.
   */
  function AfterReply(base: Session, message: string, reply: string): Session
  {
    AutoTitle(Push(Push(base, User, message), Model, reply), message)
  }

  /** A turn appends exactly the two messages and touches nothing but the title. */
  lemma AfterReplyAppends(base: Session, message: string, reply: string)
    ensures AfterReply(base, message, reply).messages == base.messages + [Message(User, message), Message(Model, reply)]
    ensures var s := AfterReply(base, message, reply);
      s.owner == base.owner && s.isActive == base.isActive &&
      s.createdAt == base.createdAt && s.updatedAt == base.updatedAt
  {
  }

  /** The auto-title rule: only the first answered turn of a default-titled session retitles it. */
  lemma AutoTitleRule(base: Session, message: string, reply: string)
    ensures AfterReply(base, message, reply).title ==
      if base.messages == [] && base.title == DefaultTitle then Prefix50(message) else base.title
  {
  }

  /** A second answered turn never changes the title again. */
  lemma LaterTurnKeepsTitle(base: Session, m1: string, r1: string, m2: string, r2: string)
    ensures AfterReply(AfterReply(base, m1, r1), m2, r2).title == AfterReply(base, m1, r1).title
  {
    AutoTitleRule(base, m1, r1);
    AutoTitleRule(AfterReply(base, m1, r1), m2, r2);
  }

  /** A turn can be saved exactly when neither the message nor the reply is empty. */
  lemma AfterReplySavable(base: Session, message: string, reply: string)
    requires Savable(base)
    ensures Savable(AfterReply(base, message, reply)) <==> message != "" && reply != ""
  {
    var s := AfterReply(base, message, reply);
    AfterReplyAppends(base, message, reply);
    if Savable(s) {
      assert s.messages[|base.messages|] == Message(User, message);
      assert s.messages[|base.messages| + 1] == Message(Model, reply);
    }
  }

  /** After a saved turn the session still has a non-empty title. */
  lemma AfterReplyKeepsTitle(base: Session, message: string, reply: string)
    requires base.title != "" && message != ""
    ensures AfterReply(base, message, reply).title != ""
  {
    AutoTitleRule(base, message, reply);
  }

  // ---------------------------------------------------------------- retitle

  /**
   * The session after an update request with an optional title at time `now`:
   * a falsy title leaves it as it was; otherwise the title is replaced and, when
   * that changes the document, `updatedAt` becomes `now`.
   */
  function Retitled(s: Session, title: Option<string>, now: nat): Session
  {
    if Falsy(title) || title.value == s.title then s
    else s.(title := title.value, updatedAt := now)
  }

  /** Retitling sets exactly the supplied non-empty title, keeps it otherwise, and changes nothing else. */
  lemma RetitledTitle(s: Session, title: Option<string>, now: nat)
    ensures Falsy(title) ==> Retitled(s, title, now) == s
    ensures !Falsy(title) ==> Retitled(s, title, now).title == title.value
    ensures var r := Retitled(s, title, now);
      r.owner == s.owner && r.messages == s.messages && r.isActive == s.isActive && r.createdAt == s.createdAt
  {
  }

  // ---------------------------------------------------------------- statistics

  /** `sessions.reduce((sum, s) => sum + s.messages.length, 0)`. */
  function MessageTotal(ss: seq<Session>): nat
  {
    if ss == [] then 0
    else MessageTotal(ss[..|ss| - 1]) + |ss[|ss| - 1].messages|
  }

  /** The total of a concatenation is the sum of the totals. */
  lemma {:induction false} MessageTotalAppend(a: seq<Session>, b: seq<Session>)
    ensures MessageTotal(a + b) == MessageTotal(a) + MessageTotal(b)
    decreases |b|
  {
    if b == [] {
      assert a + b == a;
    } else {
      var b' := b[..|b| - 1];
      assert (a + b)[..|a + b| - 1] == a + b';
      MessageTotalAppend(a, b');
    }
  }

  /** The sessions stored under the listed ids, in the listed order. */
  function SessionsAt(ids: seq<SessionId>, sessions: map<SessionId, Session>): (r: seq<Session>)
    requires forall i :: 0 <= i < |ids| ==> ids[i] in sessions
    ensures |r| == |ids|
    ensures forall i :: 0 <= i < |ids| ==> r[i] == sessions[ids[i]]
  {
    seq(|ids|, i requires 0 <= i < |ids| => sessions[ids[i]])
  }

  /** The number of messages held by the sessions with the given ids, in no particular order. */
  ghost function MessageSum(ids: set<SessionId>, sessions: map<SessionId, Session>): nat
    requires ids <= sessions.Keys
    decreases ids
  {
    if ids == {} then 0
    else
      var x :| x in ids;
      |sessions[x].messages| + MessageSum(ids - {x}, sessions)
  }

  /** Any one session can be taken out of the sum first. */
  lemma {:induction false} MessageSumRemove(ids: set<SessionId>, sessions: map<SessionId, Session>, y: SessionId)
    requires ids <= sessions.Keys && y in ids
    ensures MessageSum(ids, sessions) == |sessions[y].messages| + MessageSum(ids - {y}, sessions)
    decreases ids
  {
    var x :| x in ids && MessageSum(ids, sessions) == |sessions[x].messages| + MessageSum(ids - {x}, sessions);
    if x != y {
      MessageSumRemove(ids - {x}, sessions, y);
      MessageSumRemove(ids - {y}, sessions, x);
      assert ids - {x} - {y} == ids - {y} - {x};
    }
  }

  /**
   * Reducing over any listing of the ids, each once, gives the order-free sum:
   * the total does not depend on the order the sessions are loaded in.
   */
  lemma {:induction false} MessageTotalOfListing(ids: seq<SessionId>, owned: set<SessionId>, sessions: map<SessionId, Session>)
    requires owned <= sessions.Keys
    requires forall i :: 0 <= i < |ids| ==> ids[i] in owned
    requires forall x :: x in owned ==> x in ids
    requires forall i, j :: 0 <= i < j < |ids| ==> ids[i] != ids[j]
    ensures MessageTotal(SessionsAt(ids, sessions)) == MessageSum(owned, sessions)
    decreases |ids|
  {
    if ids == [] {
      assert owned == {};
    } else {
      var n := |ids| - 1;
      var x := ids[n];
      var rest := ids[..n];
      assert forall y :: y in owned - {x} ==> y in rest by {
        forall y | y in owned - {x} ensures y in rest {
          var k :| 0 <= k < |ids| && ids[k] == y;
          assert k != n;
        }
      }
      MessageTotalOfListing(rest, owned - {x}, sessions);
      assert SessionsAt(ids, sessions)[..n] == SessionsAt(rest, sessions);
      MessageSumRemove(owned, sessions, x);
    }
  }
}
