/** The music player card (components/wedding/music-player.tsx): playlist selection by
    category, previous/next with wrap-around, the placeholder track, guest voting and the
    m:ss clock. The fade-out that delays each track change is left out; a change takes
    effect when its callback runs, which the model does at once. Vote keys live in the
    browser's local storage, modelled as the key set of `VoteStore`. */
module MusicPlayer {
  import opened Wrappers
  import opened TextUtil
  import opened Arith

  datatype Category = Entrance | Tea | Dinner | Farewell

  datatype Track = Track(id: string, name: string, artist: string, duration: string, url: string)

  /** Shown when the index points past the playlist. */
  const Placeholder := Track("", "暂无曲目", "", "0:00", "")

  const AlreadyVoted := "您已投过票"

  /** `currentPlaylist[currentTrackIndex] || placeholder`: any track object is truthy. */
  function CurrentTrack(playlist: seq<Track>, index: int): (t: Track)
    ensures 0 <= index < |playlist| ==> t == playlist[index]
    ensures !(0 <= index < |playlist|) ==> t == Placeholder && t.id == ""
  {
    if 0 <= index < |playlist| then playlist[index] else Placeholder
  }

  /** The index updaters of `handleNext` and `handlePrev`. */
  function NextIndex(i: int, len: int): int {
    if i == len - 1 then 0 else i + 1
  }

  function PrevIndex(i: int, len: int): int {
    if i == 0 then len - 1 else i - 1
  }

  /** Inside a non-empty playlist both updaters stay inside it, wrap at the ends, agree with
      the modular forms `(i + 1) % len` and `(i - 1 + len) % len`, and undo each other. */
  lemma IndexWraps(i: int, len: int)
    requires 0 <= i < len
    ensures 0 <= NextIndex(i, len) < len && 0 <= PrevIndex(i, len) < len
    ensures NextIndex(i, len) == (i + 1) % len && PrevIndex(i, len) == (i - 1 + len) % len
    ensures NextIndex(len - 1, len) == 0 && PrevIndex(0, len) == len - 1
    ensures PrevIndex(NextIndex(i, len), len) == i && NextIndex(PrevIndex(i, len), len) == i
  {
    if i == len - 1 {
      assert (i + 1) % len == 0;
    } else {
      assert (i + 1) % len == i + 1;
    }
    if i == 0 {
      assert (i - 1 + len) % len == len - 1;
    } else {
      assert (i - 1 + len) % len == i - 1;
    }
  }

  /** `k` presses of "next". */
  function NextTimes(i: int, len: int, k: nat): int {
    if k == 0 then i else NextIndex(NextTimes(i, len, k - 1), len)
  }

  /** `k` presses of "next" go `k` places round the playlist, so `len` presses come back. */
  lemma {:induction false} NextTimesIsRotation(i: int, len: int, k: nat)
    requires 0 <= i < len
    ensures NextTimes(i, len, k) == (i + k) % len
    ensures k == len ==> NextTimes(i, len, k) == i
  {
    if k == 0 {
      DivModUnique(i, len, 0, i);
    } else {
      NextTimesIsRotation(i, len, k - 1);
      IndexWraps((i + k - 1) % len, len);
      ModStep(i + k - 1, len);
    }
    if k == len {
      DivModUnique(i + len, len, 1, i);
    }
  }

  /** One more step after a remainder is the remainder of one more. */
  lemma ModStep(x: int, len: int)
    requires x >= 0 && len > 0
    ensures ((x % len) + 1) % len == (x + 1) % len
  {
    var q, r := x / len, x % len;
    assert x == q * len + r;
    if r + 1 == len {
      assert x + 1 == (q + 1) * len + 0;
      DivModUnique(x + 1, len, q + 1, 0);
      DivModUnique(r + 1, len, 1, 0);
    } else {
      DivModUnique(x + 1, len, q, r + 1);
      DivModUnique(r + 1, len, 0, r + 1);
    }
  }

  /** `formatTime` on whole seconds: minutes, a colon, and the seconds zero-padded to two. */
  function FormatTime(seconds: nat): (r: string)
    ensures |r| >= 4 && r[|r| - 3] == ':'
    ensures forall i :: 0 <= i < |r| && i != |r| - 3 ==> IsAsciiDigit(r[i])
  {
    NatToString(seconds / 60) + ":" + PadTwo(seconds % 60)
  }

  /** Below a hundred, `padStart(2, "0")` gives exactly the tens and the units digit. */
  lemma PadTwoDigits(n: nat)
    requires n < 100
    ensures PadTwo(n) == [DigitChar(n / 10), DigitChar(n % 10)]
  {
    if n >= 10 {
      assert NatToString(n) == NatToString(n / 10) + [DigitChar(n % 10)];
    }
  }

  /** A clock string splits uniquely at the colon three places from the end. */
  lemma ClockFields(m1: string, x1: char, y1: char, m2: string, x2: char, y2: char)
    requires m1 + ":" + [x1, y1] == m2 + ":" + [x2, y2]
    ensures m1 == m2 && x1 == x2 && y1 == y2
  {
    var r1, r2 := m1 + ":" + [x1, y1], m2 + ":" + [x2, y2];
    assert |m1| == |r1| - 3 == |r2| - 3 == |m2|;
    assert m1 == r1[..|m1|] && m2 == r2[..|m2|];
    assert x1 == r1[|r1| - 2] && y1 == r1[|r1| - 1];
    assert x2 == r2[|r2| - 2] && y2 == r2[|r2| - 1];
  }

  /** The clock tells whole seconds apart: the minutes are the part before the colon and the
      two digits after it are the remaining seconds. */
  lemma FormatTimeInjective(a: nat, b: nat)
    requires FormatTime(a) == FormatTime(b)
    ensures a == b
  {
    FormatTimeParts(a);
    FormatTimeParts(b);
    var ta, ua, tb, ub := (a % 60) / 10, (a % 60) % 10, (b % 60) / 10, (b % 60) % 10;
    ClockFields(NatToString(a / 60), DigitChar(ta), DigitChar(ua), NatToString(b / 60), DigitChar(tb), DigitChar(ub));
    assert a / 60 == DecimalValue(NatToString(a / 60)) == DecimalValue(NatToString(b / 60)) == b / 60;
    assert ta == tb && ua == ub;
    assert a % 60 == ta * 10 + ua && b % 60 == tb * 10 + ub;
  }

  /** The clock is the whole minutes in decimal, a colon and the remaining seconds as
      exactly two digits, so 65 seconds read "1:05". */
  lemma FormatTimeParts(seconds: nat)
    ensures FormatTime(seconds) == NatToString(seconds / 60) + ":"
                                   + [DigitChar((seconds % 60) / 10), DigitChar((seconds % 60) % 10)]
    ensures FormatTime(65) == "1:05"
  {
    PadTwoDigits(seconds % 60);
    PadTwoDigits(5);
    assert NatToString(1) == "1";
  }

  /** `votes[trackId] || 0`. */
  function Count(votes: map<string, int>, trackId: string): int {
    if trackId in votes then votes[trackId] else 0
  }

  /** The local-storage key of a vote. */
  function VoteKey(trackId: string, visitorId: string): string {
    "vote-" + trackId + "-" + visitorId
  }

  datatype VoteResult = VoteResult(success: bool, trackId: string, voteCount: int, message: Option<string>)

  /** What a vote does: the new key set, the new counts, and the answer. */
  datatype VoteOutcome = VoteOutcome(keys: set<string>, votes: map<string, int>, result: VoteResult)

  /** The vote-once rule shared by this card and hooks/use-music-player.ts, which differ only
      in the storage key and the refusal text: a stored key refuses the vote with the
      current count; otherwise the key is stored and the track's count goes up by one. */
  function VoteWith(keys: set<string>, votes: map<string, int>, key: string, trackId: string, refusal: string): VoteOutcome {
    if key in keys then
      VoteOutcome(keys, votes, VoteResult(false, trackId, Count(votes, trackId), Some(refusal)))
    else
      var n := Count(votes, trackId) + 1;
      VoteOutcome(keys + {key}, votes[trackId := n], VoteResult(true, trackId, n, None))
  }

  /** `voteTrack` of this card. */
  function Vote(keys: set<string>, votes: map<string, int>, trackId: string, visitorId: string): VoteOutcome {
    VoteWith(keys, votes, VoteKey(trackId, visitorId), trackId, AlreadyVoted)
  }

  /** A first vote counts one more for its track and no other; a repeat with the same key
      fails with the unchanged count and changes nothing. */
  lemma VoteOnce(keys: set<string>, votes: map<string, int>, key: string, trackId: string, refusal: string)
    ensures var o := VoteWith(keys, votes, key, trackId, refusal);
            && (key !in keys ==>
                  && o.result.success && o.result.voteCount == Count(votes, trackId) + 1
                  && Count(o.votes, trackId) == o.result.voteCount && o.keys == keys + {key})
            && (key in keys ==>
                  o == VoteOutcome(keys, votes, VoteResult(false, trackId, Count(votes, trackId), Some(refusal))))
            && (forall t :: t != trackId ==> Count(o.votes, t) == Count(votes, t))
            && o.result.trackId == trackId
  {
  }

  /** Voting twice is voting once: the second vote is refused and leaves the state of the
      first. */
  lemma SecondVoteRefused(keys: set<string>, votes: map<string, int>, key: string, trackId: string, refusal: string)
    ensures var o1 := VoteWith(keys, votes, key, trackId, refusal);
            var o2 := VoteWith(o1.keys, o1.votes, key, trackId, refusal);
            && !o2.result.success && o2.result.message == Some(refusal)
            && o2.keys == o1.keys && o2.votes == o1.votes
            && o2.result.voteCount == Count(o1.votes, trackId)
  {
  }

  /** The `vote-…` keys written to local storage. */
  class VoteStore {
    var keys: set<string>

    constructor(keys: set<string>)
      ensures this.keys == keys
    {
      this.keys := keys;
    }
  }

  class Player {
    const library: map<Category, seq<Track>>
    const store: VoteStore
    /** `guest-<time of mount>`. */
    const guestId: string
    var category: Category
    var trackIndex: int
    var progress: real
    var votes: map<string, int>

    /** `musicLibrary[currentCategory] || []`. */
    function Playlist(): seq<Track>
      reads this
    {
      if category in library then library[category] else []
    }

    function Current(): Track
      reads this
    {
      CurrentTrack(Playlist(), trackIndex)
    }

    /** The index points into the playlist, or is 0 when the playlist is empty. */
    ghost predicate Valid()
      reads this
    {
      0 <= trackIndex && (trackIndex < |Playlist()| || trackIndex == 0)
    }

    constructor(library: map<Category, seq<Track>>, store: VoteStore, guestId: string)
      ensures Valid()
      ensures this.library == library && this.store == store && this.guestId == guestId
      ensures category == Entrance && trackIndex == 0 && progress == 0.0 && votes == map[]
    {
      this.library := library;
      this.store := store;
      this.guestId := guestId;
      category := Entrance;
      trackIndex := 0;
      progress := 0.0;
      votes := map[];
    }

    /** `handlePrev`. */
    method Prev()
      requires Valid()
      modifies this
      ensures Valid()
      ensures category == old(category) && votes == old(votes)
      ensures |Playlist()| == 0 ==> trackIndex == old(trackIndex) && progress == old(progress)
      ensures |Playlist()| > 0 ==> trackIndex == PrevIndex(old(trackIndex), |Playlist()|) && progress == 0.0
    {
      var len := |Playlist()|;
      if len == 0 {
        return;
      }
      IndexWraps(trackIndex, len);
      trackIndex := PrevIndex(trackIndex, len);
      progress := 0.0;
    }

    /** `handleNext`. */
    method Next()
      requires Valid()
      modifies this
      ensures Valid()
      ensures category == old(category) && votes == old(votes)
      ensures |Playlist()| == 0 ==> trackIndex == old(trackIndex) && progress == old(progress)
      ensures |Playlist()| > 0 ==> trackIndex == NextIndex(old(trackIndex), |Playlist()|) && progress == 0.0
    {
      var len := |Playlist()|;
      if len == 0 {
        return;
      }
      IndexWraps(trackIndex, len);
      trackIndex := NextIndex(trackIndex, len);
      progress := 0.0;
    }

    /** `handleCategoryChange`. */
    method ChangeCategory(c: Category)
      requires Valid()
      modifies this
      ensures Valid()
      ensures category == c && trackIndex == 0 && progress == 0.0 && votes == old(votes)
    {
      category := c;
      trackIndex := 0;
      progress := 0.0;
    }

    /** `voteTrack`. */
    method VoteTrack(trackId: string, visitorId: string) returns (r: VoteResult)
      requires Valid()
      modifies this, store
      ensures Valid()
      ensures var o := Vote(old(store.keys), old(votes), trackId, visitorId);
              store.keys == o.keys && votes == o.votes && r == o.result
      ensures category == old(category) && trackIndex == old(trackIndex) && progress == old(progress)
    {
      var key := VoteKey(trackId, visitorId);
      if key in store.keys {
        r := VoteResult(false, trackId, Count(votes, trackId), Some(AlreadyVoted));
        return;
      }
      store.keys := store.keys + {key};
      var n := Count(votes, trackId) + 1;
      votes := votes[trackId := n];
      r := VoteResult(true, trackId, n, None);
    }

    /** `handleVote`: the placeholder track, with its empty id, takes no vote. */
    method HandleVote()
      requires Valid()
      modifies this, store
      ensures Valid()
      ensures old(Current()).id == "" ==> store.keys == old(store.keys) && votes == old(votes)
      ensures old(Current()).id != "" ==>
                var o := Vote(old(store.keys), old(votes), old(Current()).id, guestId);
                store.keys == o.keys && votes == o.votes
      ensures category == old(category) && trackIndex == old(trackIndex) && progress == old(progress)
    {
      var t := Current();
      if t.id == "" {
        return;
      }
      var _ := VoteTrack(t.id, guestId);
    }
  }
}
