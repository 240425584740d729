/**
 * Clients of the store that walk through concrete request sequences and check,
 * from the operations' contracts alone, what each response must be.
 */
module Scenarios {
  import opened Wrappers
  import opened ChatSchema
  import opened ChatViews
  import opened SessionStores

  /** A provider that always answers with the same text. */
  function Echo(text: string): Provider
  {
    (h: seq<HistoryEntry>, m: string) => Replied(text)
  }

  /** Create with an empty title, then fetch: the default title and no messages. */
  method CreateThenGet(alice: UserId)
  {
    var store := new SessionStore();
    var id, s := store.Create(alice, Some(""));
    assert s.title == "New Chat";
    var got := store.Get(alice, id);
    assert got == Ok(s) && got.value.messages == [];
  }

  /** Two turns on a default-titled session: the first reply retitles it, the second does not. */
  method FirstReplyRetitles(alice: UserId)
  {
    var store := new SessionStore();
    var id, s := store.Create(alice, Some(""));
    var hello := "Hello, how are you?";
    assert Prefix50(hello) == hello;

    var first := store.SendMessage(alice, Some(id), hello, Echo("Fine, thanks."));
    AnswerOutcome(Target(id, s), hello, Replied("Fine, thanks."), 1);
    assert first.Ok?;
    var afterFirst := first.value.session;
    assert afterFirst.title == hello && |afterFirst.messages| == 2;

    var second := store.SendMessage(alice, Some(id), "What's the weather?", Echo("Sunny."));
    AnswerOutcome(Target(id, afterFirst), "What's the weather?", Replied("Sunny."), 2);
    assert second.Ok? && second.value.session.title == hello;
    assert |second.value.session.messages| == 4;
  }

  /** A session of another user is reported exactly like a missing one, and is left alone. */
  method OtherOwnersSessionIsNotFound(alice: UserId, bob: UserId)
    requires alice != bob
  {
    var store := new SessionStore();
    var id, s := store.Create(alice, Some("Plans"));
    var got := store.Get(bob, id);
    assert got == Err(NotFound);
    var renamed := store.UpdateTitle(bob, id, Some("Mine now"));
    assert renamed == Err(NotFound);
    var deleted := store.Delete(bob, id);
    assert deleted == Err(NotFound);
    var sent := store.SendMessage(bob, Some(id), "hi", Echo("hello"));
    assert sent == Err(NotFound);
    assert store.sessions[id] == s;
  }

  /** After a delete the session can no longer be fetched and is not listed. */
  method DeleteThenGet(alice: UserId)
  {
    var store := new SessionStore();
    var id, s := store.Create(alice, None);
    var deleted := store.Delete(alice, id);
    assert deleted.Ok?;
    var got := store.Get(alice, id);
    assert got == Err(NotFound);
    var list := store.ListSummaries(alice);
    assert forall i :: 0 <= i < |list| ==> list[i].id != id;
  }

  /** A failed provider call saves nothing, not even a new session. */
  method ProviderFailureSavesNothing(alice: UserId)
  {
    var store := new SessionStore();
    var failing: Provider := (h: seq<HistoryEntry>, m: string) => Failed("quota exceeded");
    var sent := store.SendMessage(alice, None, "Hello", failing);
    assert sent == Err(ProviderError("quota exceeded"));
    assert store.sessions == map[];
  }

  /** Two sessions, one answered turn: two sessions, two messages in all. */
  method StatsCountEverySession(alice: UserId)
  {
    var store := new SessionStore();
    var a, sa := store.Create(alice, Some("First"));
    var sent := store.SendMessage(alice, None, "Hi there", Echo("Hello!"));
    AnswerOutcome(Target(1, NewSession(alice, ProvisionalTitle("Hi there"), 1)), "Hi there", Replied("Hello!"), 1);
    assert sent.Ok?;
    var b := sent.value.sessionId;
    assert b == 1 && a == 0;
    assert store.OwnedIds(alice) == {0, 1};
    var st := store.UserStats(alice);
    MessageSumRemove({0, 1}, store.sessions, 0);
    MessageSumRemove({1}, store.sessions, 1);
    assert st.totalSessions == 2;
    assert st.totalMessages == 2;
  }
}
