/** The local message wall (components/wedding/message-wall.tsx): seed messages, messages
    restored from local storage, submitting a message, the once-per-guest like and the
    relative-time label.

    Local storage is the object `LocalStore`, with one field per key the wall uses; a
    stored list that is absent or cannot be parsed is `None`. The clock and the random
    guest-id suffix are parameters. `handleSubmit` awaits 300 ms between its guard and its
    update, and the update uses the list of the render the handler came from; the model
    splits it into `BeginSubmit` and `FinishSubmit` with that list kept in `Draft.base`. */
module MessageWall {
  import opened Wrappers
  import opened TextUtil

  /** The wall's own message record. */
  datatype WallMessage = WallMessage(
    id: string, guestId: string, guestName: string, content: string,
    likes: int, likedBy: seq<string>, createdAt: int)

  const SystemGuest := "system"

  /** The five seed messages, timestamped relative to the time the module loaded. */
  function Seeds(loadTime: int): (r: seq<WallMessage>)
    ensures |r| == 5
    ensures forall k :: 0 <= k < |r| ==> r[k].guestId == SystemGuest && r[k].likedBy == [] && r[k].createdAt < loadTime
  {
    [ WallMessage("1", SystemGuest, "王阿姨", "祝福你们百年好合，早生贵子！洛阳的牡丹见证你们的爱情 💐", 12, [], loadTime - 120000),
      WallMessage("2", SystemGuest, "李叔叔", "看着你们从小长大，今天终于成家了，叔叔很欣慰！🎉", 8, [], loadTime - 300000),
      WallMessage("3", SystemGuest, "大学室友", "还记得当年你说要找一个温柔的人，现在梦想成真了！永远幸福！❤️", 15, [], loadTime - 600000),
      WallMessage("4", SystemGuest, "表姐", "终于等到这一天！祝你们琴瑟和鸣，白头偕老！🌹", 10, [], loadTime - 900000),
      WallMessage("5", SystemGuest, "同事小刘", "老板今天最帅！新娘最美！祝福你们！🎊", 6, [], loadTime - 1200000) ]
  }

  // ---------------------------------------------------------------- persistence filter

  /** `saveMessages`' filter: the messages not written by the system, in order. */
  function UserMessages(ms: seq<WallMessage>): (r: seq<WallMessage>)
    ensures |r| <= |ms|
    ensures forall k :: 0 <= k < |r| ==> r[k] in ms && r[k].guestId != SystemGuest
  {
    if ms == [] then []
    else if ms[0].guestId == SystemGuest then UserMessages(ms[1..])
    else [ms[0]] + UserMessages(ms[1..])
  }

  /** The filter keeps a list's order: it distributes over concatenation. */
  lemma {:induction false} UserMessagesAppend(a: seq<WallMessage>, b: seq<WallMessage>)
    ensures UserMessages(a + b) == UserMessages(a) + UserMessages(b)
  {
    if a == [] {
      assert a + b == b;
    } else {
      assert (a + b)[0] == a[0] && (a + b)[1..] == a[1..] + b;
      UserMessagesAppend(a[1..], b);
    }
  }

  /** A user message is kept, a system message dropped. */
  lemma UserMessagesSingle(m: WallMessage)
    ensures UserMessages([m]) == if m.guestId == SystemGuest then [] else [m]
  {
    assert [m][1..] == [];
  }

  /** Every message not written by the system is kept. */
  lemma {:induction false} UserMessagesKeepsUsers(ms: seq<WallMessage>)
    ensures forall m :: m in ms && m.guestId != SystemGuest ==> m in UserMessages(ms)
  {
    if ms != [] {
      UserMessagesKeepsUsers(ms[1..]);
      assert forall m :: m in ms ==> m == ms[0] || m in ms[1..];
    }
  }

  /** Filtering a filtered list changes nothing. */
  lemma {:induction false} UserMessagesIdempotent(ms: seq<WallMessage>)
    ensures UserMessages(UserMessages(ms)) == UserMessages(ms)
  {
    if ms != [] {
      UserMessagesIdempotent(ms[1..]);
      if ms[0].guestId != SystemGuest {
        assert ([ms[0]] + UserMessages(ms[1..]))[1..] == UserMessages(ms[1..]);
      }
    }
  }

  /** Saving a list and loading it again gives back its user messages followed by the seeds,
      so the seeds are never duplicated; a list without system messages comes back whole. */
  lemma SaveThenLoad(ms: seq<WallMessage>, loadTime: int)
    ensures UserMessages(LoadedMessages(UserMessages(ms), loadTime)) == UserMessages(ms)
    ensures (forall k :: 0 <= k < |ms| ==> ms[k].guestId != SystemGuest) ==> UserMessages(ms) == ms
  {
    UserMessagesAppend(UserMessages(ms), Seeds(loadTime));
    UserMessagesIdempotent(ms);
    UserMessagesOfSystem(Seeds(loadTime));
    UserMessagesOfUsers(ms);
  }

  lemma {:induction false} UserMessagesOfUsers(ms: seq<WallMessage>)
    ensures (forall k :: 0 <= k < |ms| ==> ms[k].guestId != SystemGuest) ==> UserMessages(ms) == ms
  {
    if ms != [] {
      UserMessagesOfUsers(ms[1..]);
      if forall k :: 0 <= k < |ms| ==> ms[k].guestId != SystemGuest {
        assert forall k :: 0 <= k < |ms[1..]| ==> ms[1..][k].guestId != SystemGuest by {
          forall k | 0 <= k < |ms[1..]| ensures ms[1..][k].guestId != SystemGuest {
            assert ms[1..][k] == ms[k + 1];
          }
        }
        assert [ms[0]] + ms[1..] == ms;
      }
    }
  }

  /** A list of system messages is not saved at all; the seeds are such a list. */
  lemma {:induction false} UserMessagesOfSystem(ms: seq<WallMessage>)
    requires forall k :: 0 <= k < |ms| ==> ms[k].guestId == SystemGuest
    ensures UserMessages(ms) == []
  {
    if ms != [] {
      assert forall k :: 0 <= k < |ms[1..]| ==> ms[1..][k] == ms[k + 1];
      UserMessagesOfSystem(ms[1..]);
    }
  }

  /** The list the wall shows after restoring a stored list: stored messages first, then the seeds. */
  function LoadedMessages(saved: seq<WallMessage>, loadTime: int): (r: seq<WallMessage>)
    ensures |r| == |saved| + 5 && r[..|saved|] == saved && r[|saved|..] == Seeds(loadTime)
  {
    saved + Seeds(loadTime)
  }

  // ---------------------------------------------------------------- likes

  /** `handleLike`'s update of one message. */
  function LikeOne(m: WallMessage, messageId: string, guestId: string): WallMessage {
    if m.id == messageId && guestId !in m.likedBy
    then m.(likes := m.likes + 1, likedBy := m.likedBy + [guestId])
    else m
  }

  /** `handleLike`: the like is applied to every message with the id; the list keeps its
      length and its ids in order, and messages with other ids are untouched. */
  function LikeAll(ms: seq<WallMessage>, messageId: string, guestId: string): (r: seq<WallMessage>)
    ensures |r| == |ms|
    ensures forall k :: 0 <= k < |ms| ==> r[k].id == ms[k].id && r[k].guestId == ms[k].guestId
    ensures forall k :: 0 <= k < |ms| && ms[k].id != messageId ==> r[k] == ms[k]
  {
    seq(|ms|, (k: int) requires 0 <= k < |ms| => LikeOne(ms[k], messageId, guestId))
  }

  /** A guest's first like of a message adds one like and appends the guest; a repeat like
      changes nothing. */
  lemma LikeOnce(ms: seq<WallMessage>, messageId: string, guestId: string, k: nat)
    requires k < |ms| && ms[k].id == messageId
    ensures var r := LikeAll(ms, messageId, guestId);
            && (guestId !in ms[k].likedBy ==>
                  r[k].likes == ms[k].likes + 1 && r[k].likedBy == ms[k].likedBy + [guestId]
                  && r[k].content == ms[k].content && r[k].createdAt == ms[k].createdAt)
            && (guestId in ms[k].likedBy ==> r[k] == ms[k])
  {
  }

  /** Liking twice has the effect of liking once. */
  lemma LikeIdempotent(ms: seq<WallMessage>, messageId: string, guestId: string)
    ensures LikeAll(LikeAll(ms, messageId, guestId), messageId, guestId) == LikeAll(ms, messageId, guestId)
  {
    var r := LikeAll(ms, messageId, guestId);
    assert forall k :: 0 <= k < |ms| ==> LikeOne(r[k], messageId, guestId) == r[k];
  }

  /** A like keeps `likes - |likedBy|` of every message, and keeps `likedBy` free of repeats. */
  lemma LikeKeepsBalance(ms: seq<WallMessage>, messageId: string, guestId: string)
    ensures var r := LikeAll(ms, messageId, guestId);
            forall k :: 0 <= k < |ms| ==>
              && r[k].likes - |r[k].likedBy| == ms[k].likes - |ms[k].likedBy|
              && (NoRepeats(ms[k].likedBy) ==> NoRepeats(r[k].likedBy))
  {
  }

  predicate NoRepeats(s: seq<string>) {
    forall i, j :: 0 <= i < j < |s| ==> s[i] != s[j]
  }

  // ---------------------------------------------------------------- submitting

  /** The form's fields and author at the time the handler ran, and the list of that render. */
  datatype Draft = Draft(name: string, content: string, guestId: string, base: seq<WallMessage>)

  /** The message `handleSubmit` builds once its delay is over. */
  function NewMessage(d: Draft, now: nat): (m: WallMessage)
    ensures m.likes == 0 && m.likedBy == [] && m.guestId == d.guestId
    ensures m.guestName == d.name && m.content == d.content && m.createdAt == now
    ensures m.id == "msg_" + NatToString(now)
  {
    WallMessage("msg_" + NatToString(now), d.guestId, d.name, d.content, 0, [], now)
  }

  /** The relative-time label; `localeDate` stands for `toLocaleDateString("zh-CN")`. */
  function FormatTime(now: int, timestamp: int, localeDate: string): (r: string)
    ensures now - timestamp < 60000 ==> r == "刚刚"
    ensures 60000 <= now - timestamp < 3600000 ==>
              exists n: nat :: 1 <= n <= 59 && n == (now - timestamp) / 60000 && r == NatToString(n) + "分钟前"
    ensures 3600000 <= now - timestamp < 86400000 ==>
              exists n: nat :: 1 <= n <= 23 && n == (now - timestamp) / 3600000 && r == NatToString(n) + "小时前"
    ensures 86400000 <= now - timestamp ==> r == localeDate
  {
    var diff := now - timestamp;
    if diff < 60000 then "刚刚"
    else if diff < 3600000 then NatToString(diff / 60000) + "分钟前"
    else if diff < 86400000 then NatToString(diff / 3600000) + "小时前"
    else localeDate
  }

  // ---------------------------------------------------------------- the component

  /** The two local-storage keys the wall uses: `wedding_guest_id` ("" when absent, which
      the source treats like a missing key) and `wedding_messages`. */
  class LocalStore {
    var guestId: string
    var messages: Option<seq<WallMessage>>

    constructor(guestId: string, messages: Option<seq<WallMessage>>)
      ensures this.guestId == guestId && this.messages == messages
    {
      this.guestId := guestId;
      this.messages := messages;
    }
  }

  /** The component's state cells, with the storage it writes. */
  class Wall {
    const store: LocalStore
    const loadTime: int
    var guestId: string
    var messages: seq<WallMessage>
    var draftName: string
    var draftContent: string
    var isSending: bool
    /** The submission waiting out its delay, if any. */
    var inFlight: Option<Draft>

    ghost predicate Valid()
      reads this
    {
      isSending <==> inFlight.Some?
    }

    /** The first render: the seeds, no author yet, an empty form. */
    constructor(store: LocalStore, loadTime: int)
      ensures Valid()
      ensures this.store == store && this.loadTime == loadTime
      ensures guestId == "" && messages == Seeds(loadTime)
      ensures draftName == "" && draftContent == "" && !isSending && inFlight == None
    {
      this.store := store;
      this.loadTime := loadTime;
      guestId := "";
      messages := Seeds(loadTime);
      draftName := "";
      draftContent := "";
      isSending := false;
      inFlight := None;
    }

    /** `getGuestId`: the stored id, or a new one built from the clock and a random suffix,
        which is then stored. */
    method GetGuestId(now: nat, suffix: string) returns (id: string)
      modifies store
      ensures old(store.guestId) != "" ==> id == old(store.guestId) && store.guestId == old(store.guestId)
      ensures old(store.guestId) == "" ==> id == "guest_" + NatToString(now) + "_" + suffix && store.guestId == id
      ensures store.messages == old(store.messages)
    {
      id := store.guestId;
      if id == "" {
        id := "guest_" + NatToString(now) + "_" + suffix;
        store.guestId := id;
      }
    }

    /** The mount effect: learn the author's id, then restore a stored list in front of the seeds. */
    method Mount(now: nat, suffix: string)
      requires Valid()
      modifies this, store
      ensures Valid()
      ensures store.guestId != "" && guestId == store.guestId
      ensures old(store.guestId) != "" ==> guestId == old(store.guestId)
      ensures store.messages == old(store.messages)
      ensures old(store.messages).Some? ==> messages == LoadedMessages(old(store.messages).value, loadTime)
      ensures old(store.messages).None? ==> messages == old(messages)
      ensures draftName == old(draftName) && draftContent == old(draftContent)
      ensures isSending == old(isSending) && inFlight == old(inFlight)
    {
      var id := GetGuestId(now, suffix);
      guestId := id;
      if store.messages.Some? {
        messages := LoadedMessages(store.messages.value, loadTime);
      }
    }

    /** Typing into the form. */
    method EditDraft(name: string, content: string)
      requires Valid()
      modifies this
      ensures Valid()
      ensures draftName == name && draftContent == content
      ensures guestId == old(guestId) && messages == old(messages)
      ensures isSending == old(isSending) && inFlight == old(inFlight)
    {
      draftName := name;
      draftContent := content;
    }

    /** `saveMessages`. */
    method Save(ms: seq<WallMessage>)
      modifies store
      ensures store.messages == Some(UserMessages(ms)) && store.guestId == old(store.guestId)
    {
      store.messages := Some(UserMessages(ms));
    }

    /** `handleSubmit` up to its delay: an empty name, empty content or a send in progress
        changes nothing; otherwise the form and the current list are captured. */
    method BeginSubmit()
      requires Valid()
      modifies this
      ensures Valid()
      ensures old(draftName) == "" || old(draftContent) == "" || old(isSending) ==>
                isSending == old(isSending) && inFlight == old(inFlight)
      ensures !(old(draftName) == "" || old(draftContent) == "" || old(isSending)) ==>
                isSending && inFlight == Some(Draft(draftName, draftContent, guestId, messages))
      ensures guestId == old(guestId) && messages == old(messages)
      ensures draftName == old(draftName) && draftContent == old(draftContent)
    {
      if draftName != "" && draftContent != "" && !isSending {
        isSending := true;
        inFlight := Some(Draft(draftName, draftContent, guestId, messages));
      }
    }

    /** `handleSubmit` after its delay: the new message goes in front of the captured list,
        which is shown and saved, and the form is cleared. */
    method FinishSubmit(now: nat)
      requires Valid() && inFlight.Some?
      modifies this, store
      ensures Valid()
      ensures messages == [NewMessage(old(inFlight).value, now)] + old(inFlight).value.base
      ensures store.messages == Some(UserMessages(messages)) && store.guestId == old(store.guestId)
      ensures draftName == "" && draftContent == "" && !isSending && inFlight == None
      ensures guestId == old(guestId)
    {
      var d := inFlight.value;
      messages := [NewMessage(d, now)] + d.base;
      Save(messages);
      draftName := "";
      draftContent := "";
      isSending := false;
      inFlight := None;
    }

    /** `handleLike` by the current author; the updated list is saved. */
    method Like(messageId: string)
      requires Valid()
      modifies this, store
      ensures Valid()
      ensures messages == LikeAll(old(messages), messageId, guestId)
      ensures store.messages == Some(UserMessages(messages)) && store.guestId == old(store.guestId)
      ensures draftName == old(draftName) && draftContent == old(draftContent)
      ensures guestId == old(guestId) && isSending == old(isSending) && inFlight == old(inFlight)
    {
      messages := LikeAll(messages, messageId, guestId);
      Save(messages);
    }
  }

  /** A submitted message is a user message when its author is known: saving keeps it, in
      front of the user messages of the captured list. */
  lemma SubmittedIsSaved(d: Draft, now: nat)
    requires d.guestId != SystemGuest
    ensures UserMessages([NewMessage(d, now)] + d.base) == [NewMessage(d, now)] + UserMessages(d.base)
  {
    UserMessagesAppend([NewMessage(d, now)], d.base);
    UserMessagesSingle(NewMessage(d, now));
  }

  /** A like given while a submission waits out its delay is lost when the submission lands,
      because the new list is built from the list captured before the like. */
  lemma LikeDuringSubmitIsLost(d: Draft, now: nat, messageId: string, guestId: string, k: nat)
    requires k < |d.base| && d.base[k].id == messageId && guestId !in d.base[k].likedBy
    ensures LikeAll(d.base, messageId, guestId) != d.base
    ensures ([NewMessage(d, now)] + d.base)[k + 1] == d.base[k]
  {
    LikeOnce(d.base, messageId, guestId, k);
  }
}
