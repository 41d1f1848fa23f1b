/** The reusable player hook (hooks/use-music-player.ts): category and index with modular
    wrap-around, mute, volume with its remembered value, the playlist lookup and vote-once.
    Its index updaters use JavaScript's `%`, which truncates toward zero and gives `NaN`
    for a zero divisor; `Index.NaN` stands for that value. Audio playback, fades, seeking
    and position sync are left out. */
module MusicPlayerHook {
  import opened Wrappers
  import MusicPlayer
  import Arith

  type Category = MusicPlayer.Category

  /** lib/music-player-types.ts `Track`. */
  datatype Track = Track(
    id: string, name: string, artist: string, duration: string, durationSeconds: int,
    url: Option<string>, coverUrl: Option<string>)

  /** lib/music-player-types.ts `PlayerState`; times and volume are JavaScript numbers. */
  datatype PlayerState = PlayerState(
    isPlaying: bool, currentTime: real, duration: real, volume: real, isMuted: bool,
    isLoading: bool, error: Option<string>)

  /** A JavaScript number as the index updaters can produce it. */
  datatype Index = At(n: int) | NaN

  const DefaultVolume: real := 0.7
  const AlreadyVoted := "您已经投过票了"

  /** JavaScript's `a % n` for a non-zero divisor: the sign follows the dividend. */
  function JsRem(a: int, n: int): (r: int)
    requires n != 0
    ensures a >= 0 && n > 0 ==> r == a % n
    ensures a < 0 && n > 0 ==> -n < r <= 0 && r == -((-a) % n)
  {
    if a >= 0 then a % n else -((-a) % n)
  }

  /** JavaScript's remainder agrees with the Euclidean one exactly when the dividend is not
      negative or is a multiple of the divisor; otherwise it is the Euclidean one less the
      divisor, as `-1 % 5` is -1 and not 4. */
  lemma JsRemOfNegative(a: int, n: int)
    requires n > 0
    ensures JsRem(a, n) == a % n <==> a >= 0 || a % n == 0
    ensures a < 0 && a % n != 0 ==> JsRem(a, n) == a % n - n
  {
    if a < 0 {
      var q, r := (-a) / n, (-a) % n;
      assert -a == q * n + r;
      if r == 0 {
        Arith.DivModUnique(a, n, -q, 0);
      } else {
        Arith.DivModUnique(a, n, -q - 1, n - r);
      }
    }
  }

  /** `next`'s updater `(i + 1) % len`. */
  function NextOf(i: Index, len: nat): Index {
    match i
    case NaN => NaN
    case At(n) => if len == 0 then NaN else At(JsRem(n + 1, len))
  }

  /** `prev`'s updater `(i - 1 + len) % len`. */
  function PrevOf(i: Index, len: nat): Index {
    match i
    case NaN => NaN
    case At(n) => if len == 0 then NaN else At(JsRem(n - 1 + len, len))
  }

  /** In a non-empty playlist both updaters keep the index inside it, undo each other, and
      step exactly as the card's `handleNext`/`handlePrev` do. */
  lemma HookIndexWraps(i: int, len: nat)
    requires 0 <= i < len
    ensures NextOf(At(i), len) == At(MusicPlayer.NextIndex(i, len))
    ensures PrevOf(At(i), len) == At(MusicPlayer.PrevIndex(i, len))
    ensures 0 <= NextOf(At(i), len).n < len && 0 <= PrevOf(At(i), len).n < len
    ensures PrevOf(NextOf(At(i), len), len) == At(i) && NextOf(PrevOf(At(i), len), len) == At(i)
  {
    MusicPlayer.IndexWraps(i, len);
    MusicPlayer.IndexWraps(MusicPlayer.NextIndex(i, len), len);
    MusicPlayer.IndexWraps(MusicPlayer.PrevIndex(i, len), len);
  }

  /** With an empty playlist a step turns the index into `NaN`, and later steps keep it
      there until a category change sets it back to 0. */
  lemma EmptyPlaylistLosesIndex(i: Index, len: nat)
    ensures NextOf(i, 0) == NaN && PrevOf(i, 0) == NaN
    ensures NextOf(NaN, len) == NaN && PrevOf(NaN, len) == NaN
  {
  }

  /** `toggleMute`'s updater. */
  function ToggleMute(s: PlayerState): (r: PlayerState)
    ensures r.isMuted == !s.isMuted
    ensures r.(isMuted := s.isMuted) == s
  {
    s.(isMuted := !s.isMuted)
  }

  /** Muting twice restores the player state. */
  lemma ToggleMuteTwice(s: PlayerState)
    ensures ToggleMute(ToggleMute(s)) == s
  {
    var t := ToggleMute(s);
    assert t.(isMuted := s.isMuted) == s;
  }

  /** `updateVolume`'s updater. */
  function WithVolume(s: PlayerState, v: real): (r: PlayerState)
    ensures r.volume == v
    ensures r.(volume := s.volume) == s
  {
    s.(volume := v)
  }

  /** The storage key of a vote: `${trackId}-${guestId}`, without the card's `vote-` prefix. */
  function HookVoteKey(trackId: string, guestId: string): string {
    trackId + "-" + guestId
  }

  /** The two vote keys never coincide for the same pair, so a vote in the card and a vote
      in the hook are counted separately. */
  lemma VoteKeysDiffer(trackId: string, guestId: string)
    ensures HookVoteKey(trackId, guestId) != MusicPlayer.VoteKey(trackId, guestId)
  {
    assert |MusicPlayer.VoteKey(trackId, guestId)| == |HookVoteKey(trackId, guestId)| + 5;
  }

  /** `voteTrack` of the hook. */
  function Vote(keys: set<string>, votes: map<string, int>, trackId: string, guestId: string): (o: MusicPlayer.VoteOutcome)
    ensures HookVoteKey(trackId, guestId) in keys ==>
              o.keys == keys && o.votes == votes && !o.result.success
              && o.result.voteCount == MusicPlayer.Count(votes, trackId) && o.result.message == Some(AlreadyVoted)
    ensures HookVoteKey(trackId, guestId) !in keys ==>
              o.keys == keys + {HookVoteKey(trackId, guestId)} && o.result.success
              && o.result.voteCount == MusicPlayer.Count(votes, trackId) + 1
              && o.votes == votes[trackId := o.result.voteCount]
  {
    MusicPlayer.VoteWith(keys, votes, HookVoteKey(trackId, guestId), trackId, AlreadyVoted)
  }

  /** The `wedding-music-volume` key; `Number.parseFloat` of the stored text is taken as
      already done. */
  class VolumeStore {
    var saved: Option<real>

    constructor(saved: Option<real>)
      ensures this.saved == saved
    {
      this.saved := saved;
    }
  }

  class Hook {
    const playlists: map<Category, seq<Track>>
    const votesStore: MusicPlayer.VoteStore
    const volumeStore: VolumeStore
    /** `useVolumeMemory`'s state. */
    var volume: real
    var category: Category
    var currentIndex: Index
    var playerState: PlayerState
    var votes: map<string, int>

    /** `getPlaylist`: a category without a list yields the empty list. */
    function GetPlaylist(cat: Category): (r: seq<Track>)
      reads this
      ensures cat in playlists ==> r == playlists[cat]
      ensures cat !in playlists ==> r == []
    {
      if cat in playlists then playlists[cat] else []
    }

    /** The index is 0, or inside the current playlist, or `NaN`. */
    ghost predicate Valid()
      reads this
    {
      currentIndex.At? ==> 0 <= currentIndex.n && (currentIndex.n < |GetPlaylist(category)| || currentIndex.n == 0)
    }

    constructor(playlists: map<Category, seq<Track>>, votesStore: MusicPlayer.VoteStore, volumeStore: VolumeStore)
      ensures Valid()
      ensures this.playlists == playlists && this.votesStore == votesStore && this.volumeStore == volumeStore
      ensures volume == DefaultVolume && category == MusicPlayer.Entrance && currentIndex == At(0) && votes == map[]
      ensures playerState == PlayerState(false, 0.0, 0.0, DefaultVolume, false, false, None)
    {
      this.playlists := playlists;
      this.votesStore := votesStore;
      this.volumeStore := volumeStore;
      volume := DefaultVolume;
      category := MusicPlayer.Entrance;
      currentIndex := At(0);
      playerState := PlayerState(false, 0.0, 0.0, DefaultVolume, false, false, None);
      votes := map[];
    }

    /** The volume memory's mount effect. `playerState.volume` keeps the value it was
        created with. */
    method RestoreVolume()
      requires Valid()
      modifies this
      ensures Valid()
      ensures volume == if volumeStore.saved.Some? then volumeStore.saved.value else old(volume)
      ensures playerState == old(playerState) && category == old(category) && currentIndex == old(currentIndex)
      ensures votes == old(votes)
    {
      if volumeStore.saved.Some? {
        volume := volumeStore.saved.value;
      }
    }

    /** `next`, once its fade-out has finished. */
    method Next()
      requires Valid()
      modifies this
      ensures Valid()
      ensures currentIndex == NextOf(old(currentIndex), |GetPlaylist(category)|)
      ensures category == old(category) && playerState == old(playerState) && volume == old(volume)
      ensures votes == old(votes)
    {
      var len := |GetPlaylist(category)|;
      if currentIndex.At? && len > 0 {
        HookIndexWraps(currentIndex.n, len);
      }
      currentIndex := NextOf(currentIndex, len);
    }

    /** `prev`, once its fade-out has finished. */
    method Prev()
      requires Valid()
      modifies this
      ensures Valid()
      ensures currentIndex == PrevOf(old(currentIndex), |GetPlaylist(category)|)
      ensures category == old(category) && playerState == old(playerState) && volume == old(volume)
      ensures votes == old(votes)
    {
      var len := |GetPlaylist(category)|;
      if currentIndex.At? && len > 0 {
        HookIndexWraps(currentIndex.n, len);
      }
      currentIndex := PrevOf(currentIndex, len);
    }

    /** `changeCategory`, once its fade-out has finished. */
    method ChangeCategory(c: Category)
      requires Valid()
      modifies this
      ensures Valid()
      ensures category == c && currentIndex == At(0)
      ensures playerState == old(playerState) && volume == old(volume) && votes == old(votes)
    {
      category := c;
      currentIndex := At(0);
    }

    method ToggleMuted()
      requires Valid()
      modifies this
      ensures Valid()
      ensures playerState == ToggleMute(old(playerState))
      ensures category == old(category) && currentIndex == old(currentIndex) && volume == old(volume)
      ensures votes == old(votes)
    {
      playerState := ToggleMute(playerState);
    }

    /** `updateVolume`: the remembered volume, its stored copy and the player state's volume
        all become `v`. */
    method UpdateVolume(v: real)
      requires Valid()
      modifies this, volumeStore
      ensures Valid()
      ensures volume == v && volumeStore.saved == Some(v) && playerState == WithVolume(old(playerState), v)
      ensures category == old(category) && currentIndex == old(currentIndex) && votes == old(votes)
    {
      volume := v;
      volumeStore.saved := Some(v);
      playerState := WithVolume(playerState, v);
    }

    method VoteTrack(trackId: string, guestId: string) returns (r: MusicPlayer.VoteResult)
      requires Valid()
      modifies this, votesStore
      ensures Valid()
      ensures var o := Vote(old(votesStore.keys), old(votes), trackId, guestId);
              votesStore.keys == o.keys && votes == o.votes && r == o.result
      ensures category == old(category) && currentIndex == old(currentIndex)
      ensures playerState == old(playerState) && volume == old(volume)
    {
      var key := HookVoteKey(trackId, guestId);
      if key in votesStore.keys {
        r := MusicPlayer.VoteResult(false, trackId, MusicPlayer.Count(votes, trackId), Some(AlreadyVoted));
        return;
      }
      votesStore.keys := votesStore.keys + {key};
      var n := MusicPlayer.Count(votes, trackId) + 1;
      votes := votes[trackId := n];
      r := MusicPlayer.VoteResult(true, trackId, n, None);
    }
  }
}
