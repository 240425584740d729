/**
 * The chat-session store and the controller operations on it. Every operation
 * is scoped to the calling owner: a session owned by someone else behaves
 * exactly like a missing one. Timestamps come from a logical clock that ticks
 * once per write, and a fresh session gets the next unused id.
 */
module SessionStores {
  import opened Wrappers
  import opened ChatSchema
  import opened ChatViews

  /** Why a request failed: not found (404), or an internal error (500) from the provider or from validation. */
  datatype Error = NotFound | ProviderError(reason: string) | ValidationError

  /** The answer to a sent message: the reply, the saved session and its id. */
  datatype Exchange = Exchange(reply: string, session: Session, sessionId: SessionId)

  /** The per-owner usage figures. */
  datatype Stats = Stats(totalSessions: nat, activeSessions: nat, totalMessages: nat)

  /** The session a turn works on, before its messages are appended. */
  datatype Target = Target(id: SessionId, base: Session)

  /**
   * The store invariant: ids in use are below `nextId`; every session is well
   * formed and was last written before the current clock; no two sessions were
   * written at the same tick.
   */
  ghost predicate ValidStore(sessions: map<SessionId, Session>, nextId: SessionId, clock: nat)
  {
    && (forall id :: id in sessions ==> id < nextId)
    && (forall id :: id in sessions ==> WellFormed(sessions[id]) && sessions[id].updatedAt < clock)
    && (forall a, b :: a in sessions && b in sessions && a != b ==> sessions[a].updatedAt != sessions[b].updatedAt)
  }

  /** Saving a well-formed session at the current tick, under its own id or the next one, keeps the invariant. */
  lemma WriteKeepsValid(sessions: map<SessionId, Session>, nextId: SessionId, clock: nat, id: SessionId, s: Session)
    requires ValidStore(sessions, nextId, clock)
    requires id in sessions || id == nextId
    requires WellFormed(s) && s.updatedAt == clock
    ensures ValidStore(sessions[id := s], if id in sessions then nextId else nextId + 1, clock + 1)
  {
  }

  /**
   * How a turn on target `t` ends once the provider has answered: a provider
   * failure, a reply that cannot be saved, or the saved session stamped `now`.
   */
  function Answer(t: Target, message: string, answer: ProviderResult, now: nat): Result<Exchange, Error>
  {
    match answer
    case Failed(reason) => Err(ProviderError(reason))
    case Replied(text) =>
      var after := AfterReply(t.base, message, text);
      if !Savable(after) then Err(ValidationError)
      else Ok(Exchange(text, after.(updatedAt := now), t.id))
  }

  /**
   * A turn succeeds exactly when the provider replies and neither the message nor
   * the reply is empty; the saved session then holds the earlier messages followed
   * by the user message and the reply, keeps its owner, and is stamped `now`.
   */
  lemma AnswerOutcome(t: Target, message: string, answer: ProviderResult, now: nat)
    requires Savable(t.base)
    ensures answer.Failed? ==> Answer(t, message, answer, now) == Err(ProviderError(answer.reason))
    ensures Answer(t, message, answer, now).Ok? <==> answer.Replied? && message != "" && answer.text != ""
    ensures answer.Replied? && !Answer(t, message, answer, now).Ok? ==> Answer(t, message, answer, now) == Err(ValidationError)
    ensures Answer(t, message, answer, now).Ok? ==>
      var e := Answer(t, message, answer, now).value;
      && e.reply == answer.text && e.sessionId == t.id
      && e.session.messages == t.base.messages + [Message(User, message), Message(Model, answer.text)]
      && e.session.owner == t.base.owner && e.session.isActive == t.base.isActive
      && e.session.createdAt == t.base.createdAt && e.session.updatedAt == now
      && e.session.title == if t.base.messages == [] && t.base.title == DefaultTitle then Prefix50(message) else t.base.title
  {
    if answer.Replied? {
      AfterReplySavable(t.base, message, answer.text);
      AfterReplyAppends(t.base, message, answer.text);
      AutoTitleRule(t.base, message, answer.text);
    }
  }

  class SessionStore {
    var sessions: map<SessionId, Session>
    var nextId: SessionId
    var clock: nat

    /** The store invariant, `ValidStore`, of this store's fields. */
    ghost predicate Valid()
      reads this
    {
      ValidStore(sessions, nextId, clock)
    }

    constructor ()
      ensures Valid()
      ensures sessions == map[] && nextId == 0 && clock == 0
    {
      sessions, nextId, clock := map[], 0, 0;
    }

    /** The `{ _id: sessionId, userId }` filter: the session exists and belongs to `owner`. */
    predicate Owns(owner: UserId, id: SessionId)
      reads this
    {
      id in sessions && sessions[id].owner == owner
    }

    /** The ids matched by `{ userId }`. */
    function OwnedIds(owner: UserId): (ids: set<SessionId>)
      reads this
      ensures forall id :: id in ids <==> Owns(owner, id)
    {
      set id | id in sessions && sessions[id].owner == owner
    }

    /** The ids matched by `{ userId, isActive: true }`. */
    function ActiveIds(owner: UserId): (ids: set<SessionId>)
      reads this
      ensures ids <= OwnedIds(owner)
      ensures forall id :: id in ids <==> Owns(owner, id) && sessions[id].isActive
    {
      set id | id in sessions && sessions[id].owner == owner && sessions[id].isActive
    }

    /**
     * The session a turn works on: the caller's session `sessionId` when one is
     * given (none when it is missing or owned by another user), otherwise a new
     * session under the next id, titled by the message.
     */
    function Resolve(owner: UserId, sessionId: Option<SessionId>, message: string): (t: Option<Target>)
      reads this
      ensures sessionId.Some? ==> (t.Some? <==> Owns(owner, sessionId.value))
      ensures t.Some? && sessionId.Some? ==> t.value == Target(sessionId.value, sessions[sessionId.value])
      ensures sessionId.None? ==> t == Some(Target(nextId, NewSession(owner, ProvisionalTitle(message), clock)))
      ensures t.Some? ==> t.value.base.owner == owner
      ensures sessionId.None? ==>
                t.Some? && t.value.base.messages == [] && t.value.base.isActive && t.value.base.title != ""
    {
      if sessionId.Some? then
        if Owns(owner, sessionId.value) then Some(Target(sessionId.value, sessions[sessionId.value])) else None
      else
        Some(Target(nextId, NewSession(owner, ProvisionalTitle(message), clock)))
    }

    /** createChatSession: a new, empty, active session owned by the caller. */
    method Create(owner: UserId, title: Option<string>) returns (id: SessionId, s: Session)
      requires Valid()
      modifies this
      ensures Valid()
      ensures id !in old(sessions)
      ensures s == NewSession(owner, TitleOrDefault(title), old(clock))
      ensures s.owner == owner && s.messages == [] && s.isActive
      ensures Falsy(title) ==> s.title == DefaultTitle
      ensures !Falsy(title) ==> s.title == title.value
      ensures sessions == old(sessions)[id := s]
      ensures nextId == old(nextId) + 1 && clock == old(clock) + 1
    {
      id := nextId;
      s := NewSession(owner, TitleOrDefault(title), clock);
      sessions := sessions[id := s];
      nextId := nextId + 1;
      clock := clock + 1;
    }

    /** getChatSession: the caller's session, or NotFound. */
    method Get(owner: UserId, id: SessionId) returns (r: Result<Session, Error>)
      ensures r.Ok? <==> Owns(owner, id)
      ensures r.Ok? ==> r.value == sessions[id]
      ensures r.Err? ==> r.error == NotFound
    {
      if Owns(owner, id) {
        r := Ok(sessions[id]);
      } else {
        r := Err(NotFound);
      }
    }

    /** updateChatSession: set the title when the supplied one is truthy, then save. */
    method UpdateTitle(owner: UserId, id: SessionId, title: Option<string>) returns (r: Result<Session, Error>)
      requires Valid()
      modifies this
      ensures Valid()
      ensures !old(Owns(owner, id)) ==>
                r == Err(NotFound) && sessions == old(sessions) && clock == old(clock)
      ensures old(Owns(owner, id)) ==>
                && r == Ok(Retitled(old(sessions[id]), title, old(clock)))
                && sessions == old(sessions)[id := r.value]
                && clock == old(clock) + (if r.value == old(sessions[id]) then 0 else 1)
      ensures nextId == old(nextId)
    {
      if !Owns(owner, id) {
        return Err(NotFound);
      }
      var session := sessions[id];
      if !Falsy(title) && title.value != session.title {
        session := session.(title := title.value, updatedAt := clock);
        sessions := sessions[id := session];
        clock := clock + 1;
      }
      r := Ok(session);
    }

    /** deleteChatSession: remove the caller's session, or report NotFound. */
    method Delete(owner: UserId, id: SessionId) returns (r: Result<(), Error>)
      requires Valid()
      modifies this
      ensures Valid()
      ensures r.Ok? <==> old(Owns(owner, id))
      ensures r.Err? ==> r.error == NotFound && sessions == old(sessions)
      ensures r.Ok? ==> sessions == old(sessions) - {id}
      ensures id !in sessions || sessions[id].owner != owner
      ensures forall other :: other in old(sessions) && other != id ==> other in sessions && sessions[other] == old(sessions[other])
      ensures nextId == old(nextId) && clock == old(clock)
    {
      if !Owns(owner, id) {
        return Err(NotFound);
      }
      sessions := sessions - {id};
      r := Ok(());
    }

    /**
     * `find({ userId }).sort({ updatedAt: -1 })`: every session of the caller,
     * each once, most recently updated first.
     */
    method FindOwned(owner: UserId) returns (found: seq<SessionId>)
      requires Valid()
      ensures NewestFirst(found, sessions)
      ensures forall id :: id in found <==> Owns(owner, id)
      ensures forall i, j :: 0 <= i < j < |found| ==> found[i] != found[j]
    {
      var pending := OwnedIds(owner);
      found := [];
      while pending != {}
        invariant pending <= OwnedIds(owner)
        invariant forall id :: id in found <==> id in OwnedIds(owner) && id !in pending
        invariant NewestFirst(found, sessions)
        decreases |pending|
      {
        var id :| id in pending;
        var k := 0;
        while k < |found| && sessions[found[k]].updatedAt > sessions[id].updatedAt
          invariant 0 <= k <= |found|
          invariant forall j :: 0 <= j < k ==> sessions[found[j]].updatedAt > sessions[id].updatedAt
        {
          k := k + 1;
        }
        InsertNewestFirst(found, k, id);
        found := found[..k] + [id] + found[k..];
        pending := pending - {id};
      }
    }

    /** Putting `id` at position `k` keeps the listing newest first. */
    lemma InsertNewestFirst(found: seq<SessionId>, k: nat, id: SessionId)
      requires Valid()
      requires NewestFirst(found, sessions) && id in sessions && id !in found
      requires k <= |found|
      requires forall j :: 0 <= j < k ==> sessions[found[j]].updatedAt > sessions[id].updatedAt
      requires k < |found| ==> sessions[found[k]].updatedAt <= sessions[id].updatedAt
      ensures NewestFirst(found[..k] + [id] + found[k..], sessions)
    {
      var t := found[..k] + [id] + found[k..];
      if k < |found| {
        assert found[k] != id;
        assert sessions[found[k]].updatedAt < sessions[id].updatedAt;
      }
      forall i | 0 <= i < |t| ensures t[i] in sessions {
        if i > k { assert t[i] == found[i - 1]; }
      }
      forall i, j | 0 <= i < j < |t| ensures sessions[t[i]].updatedAt > sessions[t[j]].updatedAt {
        if j < k {
          assert t[i] == found[i] && t[j] == found[j];
        } else if j == k {
          assert t[i] == found[i];
        } else if i < k {
          assert t[i] == found[i] && t[j] == found[j - 1];
        } else if i == k {
          assert t[j] == found[j - 1];
        } else {
          assert t[i] == found[i - 1] && t[j] == found[j - 1];
        }
      }
    }

    /**
     * getAllChatSessions: the summary of every session of the caller and of no
     * other, most recently updated first.
     */
    method ListSummaries(owner: UserId) returns (list: seq<Summary>)
      requires Valid()
      ensures forall i :: 0 <= i < |list| ==> Owns(owner, list[i].id) && list[i] == Summarize(list[i].id, sessions[list[i].id])
      ensures forall id :: Owns(owner, id) ==> exists i :: 0 <= i < |list| && list[i].id == id
      ensures forall i, j :: 0 <= i < j < |list| ==> list[i].updatedAt > list[j].updatedAt
    {
      var found := FindOwned(owner);
      list := SummariesOf(found, sessions);
      forall id | Owns(owner, id) ensures exists i :: 0 <= i < |list| && list[i].id == id {
        var i :| 0 <= i < |found| && found[i] == id;
        assert list[i].id == id;
      }
    }

    /**
     * sendMessage: resolve or create the session, append the user message, ask
     * the provider with the history of every earlier message, append the reply,
     * apply the auto-title rule, and save once at the end.
     */
    method SendMessage(owner: UserId, sessionId: Option<SessionId>, message: string, provider: Provider)
      returns (r: Result<Exchange, Error>)
      requires Valid()
      modifies this
      ensures Valid()
      ensures old(Resolve(owner, sessionId, message)).None? ==> r == Err(NotFound)
      ensures old(Resolve(owner, sessionId, message)).Some? ==>
        var t := old(Resolve(owner, sessionId, message)).value;
        r == Answer(t, message, provider(ToHistory(t.base.messages), message), old(clock))
      ensures r.Err? ==> sessions == old(sessions) && nextId == old(nextId) && clock == old(clock)
      ensures r.Ok? ==>
        && sessions == old(sessions)[r.value.sessionId := r.value.session]
        && clock == old(clock) + 1
        && nextId == old(nextId) + (if sessionId.None? then 1 else 0)
    {
      var target := Resolve(owner, sessionId, message);
      if target.None? {
        return Err(NotFound);
      }
      var id, base := target.value.id, target.value.base;
      TargetWellFormed(owner, sessionId, message);
      var session := Push(base, User, message);
      assert session.messages[..|session.messages| - 1] == base.messages;
      var history := ToHistory(session.messages[..|session.messages| - 1]);
      var answer := provider(history, message);
      if answer.Failed? {
        return Err(ProviderError(answer.reason));
      }
      session := Push(session, Model, answer.text);
      session := AutoTitle(session, message);
      if !Savable(session) {
        r := Err(ValidationError);
        assert r == Answer(target.value, message, answer, clock);
        return;
      }
      AfterReplySavable(base, message, answer.text);
      AfterReplyKeepsTitle(base, message, answer.text);
      AfterReplyAppends(base, message, answer.text);
      session := session.(updatedAt := clock);
      r := Ok(Exchange(answer.text, session, id));
      assert r == Answer(target.value, message, answer, clock);
      assert WellFormed(session);
      WriteKeepsValid(sessions, nextId, clock, id, session);
      sessions := sessions[id := session];
      clock := clock + 1;
      if sessionId.None? {
        nextId := nextId + 1;
      }
    }

    /** The session a turn works on passed validation and may be saved at the current tick under its id. */
    lemma TargetWellFormed(owner: UserId, sessionId: Option<SessionId>, message: string)
      requires Valid() && Resolve(owner, sessionId, message).Some?
      ensures var t := Resolve(owner, sessionId, message).value;
        && Savable(t.base) && t.base.title != "" && t.base.createdAt <= clock
        && (t.id in sessions <==> sessionId.Some?)
        && (sessionId.None? ==> t.id == nextId)
    {
    }

    /**
     * getUserStats: how many sessions the caller owns, how many of them are
     * active, and how many messages they hold in all.
     */
    method UserStats(owner: UserId) returns (st: Stats)
      requires Valid()
      ensures st.totalSessions == |OwnedIds(owner)|
      ensures st.activeSessions == |ActiveIds(owner)|
      ensures st.activeSessions <= st.totalSessions
      ensures st.totalMessages == MessageSum(OwnedIds(owner), sessions)
    {
      var totalSessions := |OwnedIds(owner)|;
      var activeSessions := |ActiveIds(owner)|;
      var found := FindOwned(owner);
      var totalMessages := MessageTotal(SessionsAt(found, sessions));
      MessageTotalOfListing(found, OwnedIds(owner), sessions);
      SubsetCardinality(ActiveIds(owner), OwnedIds(owner));
      st := Stats(totalSessions, activeSessions, totalMessages);
    }
  }

  /** A subset has no more elements than its superset. */
  lemma {:induction false} SubsetCardinality(a: set<SessionId>, b: set<SessionId>)
    requires a <= b
    ensures |a| <= |b|
    decreases b
  {
    if a != {} {
      var x :| x in a;
      SubsetCardinality(a - {x}, b - {x});
    }
  }
}
