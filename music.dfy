/**
 * The music player section: the fixed track table, the playlist view of it,
 * the next/previous index arithmetic, the simulated playback counter and the
 * "M:SS" time display. Playback itself is simulated by a counter; there is
 * no audio.
 */
module MusicPlayer {
  import opened Optional
  import opened Text
  import opened Seqs
  import opened State
  import opened Reducer
  import opened Provider

  datatype Track = Track(id: string, title: string, artist: string, duration: nat, category: Playlist)

  const LofiTracks: seq<Track> := [
    Track("lofi-1", "Midnight Study", "Lo-Fi Beats", 180, Lofi),
    Track("lofi-2", "Coffee Shop Vibes", "Chill Hip Hop", 165, Lofi),
    Track("lofi-3", "Rainy Day Focus", "Study Beats", 200, Lofi),
    Track("lofi-4", "Peaceful Moments", "Ambient Lofi", 190, Lofi)
  ]

  const NatureTracks: seq<Track> := [
    Track("nature-1", "Forest Rain", "Nature Sounds", 300, Nature),
    Track("nature-2", "Ocean Waves", "Ambient Nature", 280, Nature),
    Track("nature-3", "Mountain Stream", "Water Sounds", 320, Nature),
    Track("nature-4", "Thunderstorm", "Rain Sounds", 240, Nature)
  ]

  /** The whole track table, in its declared order. */
  const Tracks: seq<Track> := LofiTracks + NatureTracks

  function InPlaylist(p: Playlist): Track -> bool {
    (t: Track) => t.category == p
  }

  /** `tracks.filter(track => track.category === playlist)` */
  function PlaylistTracks(p: Playlist): seq<Track> {
    Filter(Tracks, InPlaylist(p))
  }

  /** The table's entries for one playlist, as declared. */
  function Declared(p: Playlist): seq<Track> {
    if p == Lofi then LofiTracks else NatureTracks
  }

  lemma KeepsDeclared(p: Playlist)
    ensures Filter(Declared(p), InPlaylist(p)) == Declared(p)
  {
    FilterKeepsAll(Declared(p), InPlaylist(p));
  }

  lemma DropsOther(p: Playlist)
    ensures Filter(Declared(if p == Lofi then Nature else Lofi), InPlaylist(p)) == []
  {
    FilterDropsAll(Declared(if p == Lofi then Nature else Lofi), InPlaylist(p));
  }

  /** Filtering the table by playlist gives exactly that playlist's declared tracks. */
  lemma PlaylistContents(p: Playlist)
    ensures PlaylistTracks(p) == Declared(p)
  {
    FilterConcat(LofiTracks, NatureTracks, InPlaylist(p));
    KeepsDeclared(p);
    DropsOther(p);
    if p == Lofi {
      assert LofiTracks + [] == LofiTracks;
    } else {
      assert [] + NatureTracks == NatureTracks;
    }
  }

  /** Every playlist holds four tracks. */
  lemma PlaylistSize(p: Playlist)
    ensures |PlaylistTracks(p)| == 4
  {
    PlaylistContents(p);
  }

  /** No two tracks of a list share an id. */
  predicate DistinctIds(list: seq<Track>) {
    forall i, j :: 0 <= i < j < |list| ==> list[i].id != list[j].id
  }

  /** The k-th declared id of a playlist ends in the digit k + 1. */
  lemma IdEndsInPosition(p: Playlist, k: nat)
    requires k < 4
    ensures var id := Declared(p)[k].id; |id| > 0 && id[|id| - 1] == DigitChar(k + 1)
  {
    if k == 0 {
    } else if k == 1 {
    } else if k == 2 {
    } else {
    }
  }

  /** Within a playlist the ids differ in their last character, so they are distinct. */
  lemma PlaylistIdsDistinct(p: Playlist)
    ensures DistinctIds(PlaylistTracks(p))
  {
    PlaylistContents(p);
    forall i, j | 0 <= i < j < |Declared(p)|
      ensures Declared(p)[i].id != Declared(p)[j].id
    {
      IdEndsInPosition(p, i);
      IdEndsInPosition(p, j);
    }
  }

  /** `list.findIndex(track => track.id === id)`: the first position with the id, or -1. */
  function FindIndex(list: seq<Track>, id: string): (i: int)
    ensures -1 <= i < |list|
    ensures i == -1 <==> forall k :: 0 <= k < |list| ==> list[k].id != id
    ensures i >= 0 ==> list[i].id == id && forall k :: 0 <= k < i ==> list[k].id != id
  {
    if list == [] then -1
    else if list[0].id == id then 0
    else
      var j := FindIndex(list[1..], id);
      if j == -1 then -1 else j + 1
  }

  /** `tracks.find(track => track.id === id)` */
  function FindTrack(id: string): Option<Track> {
    var i := FindIndex(Tracks, id);
    if i >= 0 then Some(Tracks[i]) else None
  }

  /**
   * The position handleNext moves to in a list of `n` tracks: a random one
   * with shuffle on, otherwise the following one, from the last back to the
   * first, and the first when the current track is not in the list.
   */
  function NextIndex(i: int, n: nat, shuffle: bool, roll: real): (r: nat)
    requires -1 <= i < n && n > 0 && 0.0 <= roll < 1.0
    ensures r < n
    ensures !shuffle ==> r == if i == n - 1 then 0 else i + 1
  {
    if shuffle then ShuffleIndex(n, roll) else (i + 1) % n
  }

  /** `Math.floor(Math.random() * n)` for a roll in [0, 1). */
  function ShuffleIndex(n: nat, roll: real): (r: nat)
    requires n > 0 && 0.0 <= roll < 1.0
    ensures r < n
  {
    var x := roll * n as real;
    assert n as real - x == (1.0 - roll) * n as real;
    assert (1.0 - roll) * n as real > 0.0;
    assert x.Floor as real <= x < n as real;
    x.Floor
  }

  /** The position handlePrevious moves to: the preceding one, from the first to the last. */
  function PreviousIndex(i: int, n: nat): int
    requires n > 0
  {
    if i == 0 then n - 1 else i - 1
  }

  /** Previous and next (without shuffle) undo each other on the positions of a list. */
  lemma PreviousNextInverse(i: nat, n: nat, roll: real)
    requires i < n && 0.0 <= roll < 1.0
    ensures 0 <= PreviousIndex(i, n) < n
    ensures NextIndex(PreviousIndex(i, n), n, false, roll) == i
    ensures PreviousIndex(NextIndex(i, n, false, roll), n) == i
  {
  }

  /** The track handleNext selects. */
  function NextTrackId(m: Music, shuffle: bool, roll: real): string
    requires 0.0 <= roll < 1.0
  {
    var list := PlaylistTracks(m.playlist);
    PlaylistSize(m.playlist);
    list[NextIndex(FindIndex(list, m.currentTrack), |list|, shuffle, roll)].id
  }

  /** The track handlePrevious selects; None where the lookup of position -2 throws. */
  function PreviousTrackId(m: Music): Option<string> {
    var list := PlaylistTracks(m.playlist);
    PlaylistSize(m.playlist);
    var i := FindIndex(list, m.currentTrack);
    if i == -1 then None else Some(list[PreviousIndex(i, |list|)].id)
  }

  /** The current track belongs to the current playlist. */
  predicate Consistent(m: Music) {
    FindIndex(PlaylistTracks(m.playlist), m.currentTrack) >= 0
  }

  lemma InitialMusicConsistent()
    ensures Consistent(InitialState.music)
  {
    PlaylistContents(Lofi);
    assert Declared(Lofi)[0].id == "lofi-1";
  }

  /** Previous only throws when the current track is not in the playlist. */
  lemma PreviousFailsOnlyOffPlaylist(m: Music)
    ensures PreviousTrackId(m).None? <==> !Consistent(m)
  {
  }

  /** Next without shuffle takes the last track of a playlist to its first. */
  lemma NextWrapsAround(m: Music, roll: real)
    requires 0.0 <= roll < 1.0
    requires var list := PlaylistTracks(m.playlist); |list| > 0 && m.currentTrack == list[|list| - 1].id
    ensures NextTrackId(m, false, roll) == PlaylistTracks(m.playlist)[0].id
  {
    PlaylistSize(m.playlist);
    PlaylistIdsDistinct(m.playlist);
  }

  /** Next and then previous (without shuffle) come back to the same track. */
  lemma NextThenPrevious(m: Music, roll: real)
    requires 0.0 <= roll < 1.0 && Consistent(m)
    ensures PreviousTrackId(m.(currentTrack := NextTrackId(m, false, roll))) == Some(m.currentTrack)
  {
    var list := PlaylistTracks(m.playlist);
    PlaylistSize(m.playlist);
    PlaylistIdsDistinct(m.playlist);
    var i := FindIndex(list, m.currentTrack);
    var j := NextIndex(i, |list|, false, roll);
    assert FindIndex(list, list[j].id) == j;
    PreviousNextInverse(i, |list|, roll);
  }

  function NextPatch(m: Music, shuffle: bool, roll: real): MusicPatch
    requires 0.0 <= roll < 1.0
  {
    NoMusicChanges.(currentTrack := Some(NextTrackId(m, shuffle, roll)))
  }

  /** handlePlaylistChange: the new playlist, stopped, on its first track. */
  function PlaylistPatch(p: Playlist): MusicPatch {
    PlaylistSize(p);
    MusicPatch(Some(false), Some(PlaylistTracks(p)[0].id), None, Some(p))
  }

  /** handleTrackSelect: the chosen track, playing. */
  function SelectPatch(id: string): MusicPatch {
    NoMusicChanges.(currentTrack := Some(id), isPlaying := Some(true))
  }

  /** handlePlayPause */
  function PlayPausePatch(m: Music): MusicPatch {
    NoMusicChanges.(isPlaying := Some(!m.isPlaying))
  }

  /** handleVolumeChange: the slider's 0 to 100 as 0 to 1. */
  function VolumePatch(percent: real): MusicPatch {
    NoMusicChanges.(volume := Some(percent / 100.0))
  }

  /** Next keeps the current track in the playlist, with or without shuffle. */
  lemma NextKeepsConsistent(m: Music, shuffle: bool, roll: real)
    requires 0.0 <= roll < 1.0
    ensures Consistent(MergeMusic(m, NextPatch(m, shuffle, roll)))
  {
    var list := PlaylistTracks(m.playlist);
    PlaylistSize(m.playlist);
    var j := NextIndex(FindIndex(list, m.currentTrack), |list|, shuffle, roll);
    assert list[j].id == NextTrackId(m, shuffle, roll);
  }

  /** Previous, where it does not throw, keeps the current track in the playlist. */
  lemma PreviousKeepsConsistent(m: Music)
    requires PreviousTrackId(m).Some?
    ensures Consistent(MergeMusic(m, NoMusicChanges.(currentTrack := PreviousTrackId(m))))
  {
    var list := PlaylistTracks(m.playlist);
    PlaylistSize(m.playlist);
    var j := PreviousIndex(FindIndex(list, m.currentTrack), |list|);
    assert list[j].id == PreviousTrackId(m).value;
  }

  /** Changing playlist selects its first track, stopped, and the result is consistent. */
  lemma PlaylistChangeSelectsFirst(m: Music, p: Playlist)
    ensures var r := MergeMusic(m, PlaylistPatch(p));
      && r.playlist == p && !r.isPlaying && r.volume == m.volume
      && |PlaylistTracks(p)| == 4 && r.currentTrack == PlaylistTracks(p)[0].id && Consistent(r)
  {
    PlaylistSize(p);
  }

  /** Selecting a track of the current playlist plays it and keeps the music consistent. */
  lemma SelectKeepsConsistent(m: Music, k: nat)
    requires k < |PlaylistTracks(m.playlist)|
    ensures var r := MergeMusic(m, SelectPatch(PlaylistTracks(m.playlist)[k].id));
      r.isPlaying && r.currentTrack == PlaylistTracks(m.playlist)[k].id && Consistent(r)
  {
  }

  /**
   * One second of simulated playback: the counter advances by one below the
   * track's length; at or past it, the counter returns to zero and the player
   * moves to the next track.
   */
  function Advance(time: int, duration: nat): (r: (int, bool))
    ensures r.1 <==> time >= duration
    ensures r.1 ==> r.0 == 0
    ensures !r.1 ==> r.0 == time + 1
  {
    if time >= duration then (0, true) else (time + 1, false)
  }

  /** The counter never passes the track's length once it starts within it. */
  lemma AdvanceStaysWithin(time: int, duration: nat)
    requires 0 <= time <= duration
    ensures 0 <= Advance(time, duration).0 <= duration
  {
  }

  /** formatTime: whole minutes unpadded, seconds padded to two digits. */
  function FormatTrackTime(seconds: int): string {
    IntToString(seconds / 60) + ":" + PadStart2(IntToString(JsRem(seconds, 60)))
  }

  /** A non-negative time reads back as the same number of seconds. */
  lemma FormatTrackTimeReadsBack(seconds: nat)
    ensures ParseClock(FormatTrackTime(seconds)) == Some(seconds)
  {
    FormatTrackTimeParts(seconds);
    ClockOfSeconds(seconds);
  }

  /** A non-negative time shows its whole minutes unpadded, then a colon and two digits of seconds. */
  lemma FormatTrackTimeLayout(seconds: nat)
    ensures var text := FormatTrackTime(seconds);
      && |text| == |Decimal(seconds / 60)| + 3
      && text[..|Decimal(seconds / 60)|] == Decimal(seconds / 60)
      && text[|Decimal(seconds / 60)|] == ':'
  {
    var mm, ss := Decimal(seconds / 60), PadStart2(Decimal(seconds % 60));
    FormatTrackTimeParts(seconds);
    SecondsNumeral(seconds % 60);
    assert (mm + ":" + ss)[..|mm|] == mm;
  }

  lemma ClockOfSeconds(seconds: nat)
    ensures ParseClock(Decimal(seconds / 60) + ":" + PadStart2(Decimal(seconds % 60))) == Some(seconds)
  {
    TrackClockParses(seconds / 60, seconds % 60);
  }

  /** Unpadded minutes, a colon and padded seconds read back as the seconds they stand for. */
  lemma TrackClockParses(m: nat, s: nat)
    requires s < 60
    ensures |PadStart2(Decimal(s))| == 2
    ensures ParseClock(Decimal(m) + ":" + PadStart2(Decimal(s))) == Some(m * 60 + s)
  {
    ParseDecimalOfDecimal(m);
    SecondsNumeral(s);
    ParseClockOf(Decimal(m), PadStart2(Decimal(s)));
  }

  lemma FormatTrackTimeParts(seconds: nat)
    ensures FormatTrackTime(seconds) == Decimal(seconds / 60) + ":" + PadStart2(Decimal(seconds % 60))
  {
  }

  /** The padded numeral of a seconds count below a minute: two digits that read back. */
  lemma SecondsNumeral(s: nat)
    requires s < 60
    ensures |PadStart2(Decimal(s))| == 2
    ensures AllDigits(PadStart2(Decimal(s))) && ParseDecimal(PadStart2(Decimal(s))) == s
  {
    DecimalBelow100(s);
    PadStart2Value(Decimal(s));
    ParseDecimalOfDecimal(s);
  }

  /** Every track of the table plays for a positive number of seconds. */
  lemma DurationsPositive(k: nat)
    requires k < |Tracks|
    ensures Tracks[k].duration > 0
  {
  }

  /** A current track that belongs to its playlist is found in the table. */
  lemma ConsistentTrackIsKnown(m: Music)
    requires Consistent(m)
    ensures FindTrack(m.currentTrack).Some?
    ensures FindTrack(m.currentTrack).value.duration > 0
  {
    var list := PlaylistTracks(m.playlist);
    var t := list[FindIndex(list, m.currentTrack)];
    assert t in Tracks;
    var k :| 0 <= k < |Tracks| && Tracks[k] == t;
    assert FindIndex(Tracks, m.currentTrack) != -1 by {
      assert Tracks[k].id == m.currentTrack;
    }
    DurationsPositive(FindIndex(Tracks, m.currentTrack));
  }

  /** The progress bar's width in percent; 0 without a known track. */
  function Progress(time: int, track: Option<Track>): real
    requires track.Some? ==> track.value.duration > 0
  {
    if track.Some? then time as real / track.value.duration as real * 100.0 else 0.0
  }

  /** Within a track, the progress bar stays between empty and full. */
  lemma ProgressBounded(time: int, track: Track)
    requires track.duration > 0 && 0 <= time <= track.duration
    ensures 0.0 <= Progress(time, Some(track)) <= 100.0
    ensures Progress(time, Some(track)) == 100.0 <==> time == track.duration
  {
    var d := track.duration as real;
    var q := time as real / d;
    assert q * d == time as real;
    assert 0.0 <= q <= 1.0;
  }

  /** The seek handler: the clicked fraction of the bar, as whole seconds of the track. */
  function SeekTime(fraction: real, duration: nat): (r: int)
    requires 0.0 <= fraction <= 1.0
    ensures 0 <= r <= duration
    ensures r as real <= fraction * duration as real < r as real + 1.0
  {
    var x := fraction * duration as real;
    assert 0.0 <= x <= duration as real by {
      assert duration as real - x == (1.0 - fraction) * duration as real;
      assert (1.0 - fraction) * duration as real >= 0.0;
    }
    assert x.Floor as real <= duration as real;
    x.Floor
  }

  /** The volume slider reads back the percentage it was set to. */
  lemma VolumeReadsBack(m: Music, percent: real)
    ensures MergeMusic(m, VolumePatch(percent)).volume * 100.0 == percent
    ensures MergeMusic(m, VolumePatch(percent)) == m.(volume := percent / 100.0)
  {
  }

  /** The music player section with its own playback state. */
  class Player {
    const store: Store
    /** Seconds played of the current track. */
    var currentTime: int
    var isShuffleOn: bool
    var isRepeatOn: bool

    constructor (store: Store)
      ensures this.store == store && currentTime == 0 && !isShuffleOn && !isRepeatOn
    {
      this.store := store;
      currentTime, isShuffleOn, isRepeatOn := 0, false, false;
    }

    method PlayPause(now: nat)
      requires store.Synced()
      modifies store
      ensures store.state == Apply(old(store.state), SetMusic(PlayPausePatch(old(store.state.music))), now)
      ensures store.Synced()
    {
      store.Dispatch(SetMusic(PlayPausePatch(store.state.music)), now);
    }

    /** handleNext; `roll` is the value of Math.random(). */
    method Next(roll: real, now: nat)
      requires 0.0 <= roll < 1.0 && store.Synced()
      modifies this`currentTime, store
      ensures store.state == Apply(old(store.state), SetMusic(NextPatch(old(store.state.music), isShuffleOn, roll)), now)
      ensures currentTime == 0
      ensures store.Synced()
    {
      store.Dispatch(SetMusic(NextPatch(store.state.music, isShuffleOn, roll)), now);
      currentTime := 0;
    }

    /** handlePrevious; `ok` is false where the handler throws and nothing changes. */
    method Previous(now: nat) returns (ok: bool)
      requires store.Synced()
      modifies this`currentTime, store
      ensures ok <==> PreviousTrackId(old(store.state.music)).Some?
      ensures ok ==> store.state == Apply(old(store.state), SetMusic(NoMusicChanges.(currentTrack := PreviousTrackId(old(store.state.music)))), now)
      ensures ok ==> currentTime == 0
      ensures !ok ==> store.state == old(store.state) && currentTime == old(currentTime)
      ensures store.Synced()
    {
      var id := PreviousTrackId(store.state.music);
      ok := id.Some?;
      if ok {
        store.Dispatch(SetMusic(NoMusicChanges.(currentTrack := id)), now);
        currentTime := 0;
      }
    }

    method VolumeChange(percent: real, now: nat)
      requires store.Synced()
      modifies store
      ensures store.state == Apply(old(store.state), SetMusic(VolumePatch(percent)), now)
      ensures store.Synced()
    {
      store.Dispatch(SetMusic(VolumePatch(percent)), now);
    }

    method PlaylistChange(p: Playlist, now: nat)
      requires store.Synced()
      modifies this`currentTime, store
      ensures store.state == Apply(old(store.state), SetMusic(PlaylistPatch(p)), now)
      ensures currentTime == 0
      ensures store.Synced()
    {
      store.Dispatch(SetMusic(PlaylistPatch(p)), now);
      currentTime := 0;
    }

    method TrackSelect(id: string, now: nat)
      requires store.Synced()
      modifies this`currentTime, store
      ensures store.state == Apply(old(store.state), SetMusic(SelectPatch(id)), now)
      ensures currentTime == 0
      ensures store.Synced()
    {
      store.Dispatch(SetMusic(SelectPatch(id)), now);
      currentTime := 0;
    }

    /** A click on the progress bar at `fraction` of its width, over a known track. */
    method Seek(fraction: real)
      requires 0.0 <= fraction <= 1.0 && FindTrack(store.state.music.currentTrack).Some?
      modifies this`currentTime
      ensures currentTime == SeekTime(fraction, FindTrack(store.state.music.currentTrack).value.duration)
    {
      currentTime := SeekTime(fraction, FindTrack(store.state.music.currentTrack).value.duration);
    }

    method ToggleShuffle()
      modifies this`isShuffleOn
      ensures isShuffleOn == !old(isShuffleOn)
    {
      isShuffleOn := !isShuffleOn;
    }

    method ToggleRepeat()
      modifies this`isRepeatOn
      ensures isRepeatOn == !old(isRepeatOn)
    {
      isRepeatOn := !isRepeatOn;
    }

    /** One firing of the playback interval, which runs while the player plays a known track. */
    method Second(roll: real, now: nat)
      requires 0.0 <= roll < 1.0 && store.Synced()
      requires store.state.music.isPlaying && FindTrack(store.state.music.currentTrack).Some?
      modifies this`currentTime, store
      ensures var step := Advance(old(currentTime), FindTrack(old(store.state.music.currentTrack)).value.duration);
        && currentTime == step.0
        && store.state == if step.1 then Apply(old(store.state), SetMusic(NextPatch(old(store.state.music), isShuffleOn, roll)), now)
                          else old(store.state)
      ensures store.Synced()
    {
      var step := Advance(currentTime, FindTrack(store.state.music.currentTrack).value.duration);
      if step.1 {
        Next(roll, now);
      }
      currentTime := step.0;
    }
  }
}
