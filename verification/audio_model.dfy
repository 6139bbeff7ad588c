/**
 * The decision rules of the audio playback core (src/frontend/components/helpers/audio.ts),
 * stated as values and functions: the registry entry, the display name of a new entry, the
 * volume scalars and their rounding, the playlist advance, the crossfade trigger and the
 * policy for a finished track. The class in audio_engine.dfy performs the updates in place
 * and is specified by these functions.
 */
module AudioModel {
  import opened Wrappers

  // ---------------------------------------------------------------------------------------
  // Data model
  // ---------------------------------------------------------------------------------------

  /** The playable media element of an entry, reduced to what the core reads and writes. */
  datatype Media = Media(currentTime: real, duration: real, volume: real, paused: bool)

  /** The analyser built for an entry; `gainNode` holds the gain value when it has a gain node. */
  datatype Analyser = Analyser(gainNode: Option<real>)

  /** One value of the `playingAudio` registry. */
  datatype Entry = Entry(name: string, paused: bool, mic: bool, analyser: Analyser, media: Media)

  /** Per-media settings: an optional volume override and the loop flag. */
  datatype MediaOptions = MediaOptions(volume: Option<real>, loop: bool)

  /** What the volume rule reads: the two global scalars (hundredths) and the per-media options. */
  datatype Mix = Mix(volume: int, gain: int, options: map<string, MediaOptions>)

  /** A saved audio playlist. */
  datatype Playlist = Playlist(songs: seq<string>, mode: string, crossfade: real)

  /**
   * The `activePlaylist` store. `active == ""` stands for an unset active track (the code only
   * ever stores a non-empty song there); `songs` is the song list of the current session.
   */
  datatype ActivePlaylist = ActivePlaylist(id: string, active: string, songs: Option<seq<string>>)

  /** The part of the engine state that playback, playlist advance and finish handling change. */
  datatype PlayState = PlayState(entries: map<string, Entry>, activePlaylist: Option<ActivePlaylist>, isCrossfading: bool)

  // ---------------------------------------------------------------------------------------
  // Display name of a new entry
  // ---------------------------------------------------------------------------------------

  /** `s.lastIndexOf(c)`: the last index holding `c`, or -1. */
  function LastIndexOf(s: string, c: char): (i: int)
    ensures -1 <= i < |s|
    ensures i >= 0 ==> s[i] == c
    ensures forall k :: i < k < |s| ==> s[k] != c
    ensures i == -1 <==> c !in s
  {
    if |s| == 0 then -1
    else if s[|s| - 1] == c then |s| - 1
    else LastIndexOf(s[..|s| - 1], c)
  }

  /** The name stored for a new entry: everything from the last '.' on is dropped. */
  function DisplayName(name: string): (r: string)
    ensures '.' !in name ==> r == name
    ensures '.' in name ==> |r| < |name| && name[..|r|] == r && name[|r|] == '.' && '.' !in name[|r| + 1..]
  {
    if '.' in name then
      name[..LastIndexOf(name, '.')]
    else name
  }

  // ---------------------------------------------------------------------------------------
  // Volume, gain and mute
  // ---------------------------------------------------------------------------------------

  /**
   * `Number(x.toFixed(2))` as a count of hundredths: the nearest integer to 100 * x, halves
   * rounded away from zero.
   */
  function Round2(x: real): (k: int)
    ensures x >= 0.0 ==> (k as real) - 0.5 <= x * 100.0 < (k as real) + 0.5
    ensures x < 0.0 ==> (k as real) - 0.5 < x * 100.0 <= (k as real) + 0.5
  {
    if x >= 0.0 then (x * 100.0 + 0.5).Floor else -((-x) * 100.0 + 0.5).Floor
  }

  /** A value that already is a whole number of hundredths is kept as it is. */
  lemma RoundHundredths(k: int)
    ensures Round2(k as real / 100.0) == k
  {
    var x := k as real / 100.0;
    assert x * 100.0 == k as real;
  }

  /** The argument of `updateVolume`: a number, `undefined` (mute toggle) or `"local"`. */
  datatype VolumeArg = SetTo(value: real) | ToggleMute | LocalOnly

  /** The volume and gain stores and the remembered unmuted volume, all in hundredths. */
  datatype Scalars = Scalars(volume: int, gain: int, unmuted: int)

  /**
   * The value `updateVolume` is about to write, before rounding: the number given, or for the
   * mute toggle 0 exactly when the volume is currently non-zero.
   */
  function RequestedValue(arg: VolumeArg, s: Scalars): (r: real)
    requires !arg.LocalOnly?
    ensures arg.SetTo? ==> r == arg.value
    ensures arg.ToggleMute? && s.unmuted != 0 ==> (r == 0.0 <==> s.volume != 0)
  {
    match arg
    case SetTo(v) => v
    case ToggleMute => if s.volume != 0 then 0.0 else s.unmuted as real / 100.0
  }

  /**
   * The scalars after `updateVolume(arg, changeGain)`: `"local"` writes nothing; otherwise
   * exactly one of gain or volume is written, with the requested value rounded to hundredths,
   * and only the mute toggle can change the remembered volume.
   */
  function UpdateScalars(arg: VolumeArg, changeGain: bool, s: Scalars): (r: Scalars)
    ensures arg.LocalOnly? ==> r == s
    ensures !arg.LocalOnly? && changeGain ==> r.volume == s.volume && r.gain == Round2(RequestedValue(arg, s))
    ensures !arg.LocalOnly? && !changeGain ==> r.gain == s.gain && r.volume == Round2(RequestedValue(arg, s))
    ensures !arg.ToggleMute? ==> r.unmuted == s.unmuted
  {
    if arg.LocalOnly? then s
    else
      var value := RequestedValue(arg, s);
      var unmuted := if arg.ToggleMute? && value == 0.0 then s.volume else s.unmuted;
      if changeGain then Scalars(s.volume, Round2(value), unmuted)
      else Scalars(Round2(value), s.gain, unmuted)
  }

  /** The remembered volume is never zero, so unmuting always restores something audible. */
  lemma UnmutedStaysNonZero(arg: VolumeArg, changeGain: bool, s: Scalars)
    requires s.unmuted != 0
    ensures UpdateScalars(arg, changeGain, s).unmuted != 0
  {
  }

  /** Muting a non-zero volume and then unmuting gives the same volume back. */
  lemma MuteThenUnmute(s: Scalars)
    requires s.volume != 0
    ensures var muted := UpdateScalars(ToggleMute, false, s);
      && muted == Scalars(0, s.gain, s.volume)
      && UpdateScalars(ToggleMute, false, muted) == Scalars(s.volume, s.gain, s.volume)
  {
    RoundHundredths(0);
    RoundHundredths(s.volume);
  }

  /** `x || 1` for a number. */
  function OrOne(x: real): real
  {
    if x == 0.0 then 1.0 else x
  }

  /** `media[path]?.volume || 1`. */
  function MediaVolumeFactor(options: map<string, MediaOptions>, path: string): real
  {
    if path in options && options[path].volume.Some? then OrOne(options[path].volume.value) else 1.0
  }

  /** `volume * (media[path]?.volume || 1)`. */
  function LocalVolume(m: Mix, path: string): real
  {
    (m.volume as real / 100.0) * MediaVolumeFactor(m.options, path)
  }

  /** `gain || 1`. */
  function GainFactor(gain: int): real
  {
    if gain == 0 then 1.0 else gain as real / 100.0
  }

  /** The level an entry is heard at: its gain value when it has a gain node, else its media volume. */
  function HeardVolume(e: Entry): real
  {
    match e.analyser.gainNode
    case Some(g) => g
    case None => e.media.volume
  }

  /**
   * The volume rule applied to one entry. It writes one target only: an entry with a gain
   * node gets `LocalVolume * GainFactor` as its gain value and keeps its media untouched; any
   * other entry gets `LocalVolume` as its media volume. Name, flags and play position are kept.
   */
  function ApplyVolume(e: Entry, m: Mix, path: string): (r: Entry)
    ensures r.name == e.name && r.paused == e.paused && r.mic == e.mic
    ensures r.analyser.gainNode.Some? == e.analyser.gainNode.Some?
    ensures e.analyser.gainNode.Some? ==>
              r.media == e.media
              && HeardVolume(r) == (m.volume as real / 100.0) * MediaVolumeFactor(m.options, path) * GainFactor(m.gain)
    ensures e.analyser.gainNode.None? ==>
              r.media == e.media.(volume := HeardVolume(r))
              && HeardVolume(r) == (m.volume as real / 100.0) * MediaVolumeFactor(m.options, path)
  {
    if e.analyser.gainNode.Some? then e.(analyser := Analyser(Some(LocalVolume(m, path) * GainFactor(m.gain))))
    else e.(media := e.media.(volume := LocalVolume(m, path)))
  }

  /** Scalars and overrides in [0, 1] give a heard volume in [0, 1]. */
  predicate InUnitRange(m: Mix)
  {
    && 0 <= m.volume <= 100 && 0 <= m.gain <= 100
    && forall p :: p in m.options && m.options[p].volume.Some? ==> 0.0 <= m.options[p].volume.value <= 1.0
  }

  lemma UnitProduct(a: real, b: real)
    requires 0.0 <= a <= 1.0 && 0.0 <= b <= 1.0
    ensures 0.0 <= a * b <= 1.0
  {
    MulNonNegative(a, b);
    MulNonNegative(a, 1.0 - b);
    assert a * b == a - a * (1.0 - b);
  }

  lemma MulNonNegative(a: real, b: real)
    requires 0.0 <= a && 0.0 <= b
    ensures 0.0 <= a * b
  {
  }

  lemma HeardVolumeInUnitRange(e: Entry, m: Mix, path: string)
    requires InUnitRange(m)
    ensures 0.0 <= HeardVolume(ApplyVolume(e, m, path)) <= 1.0
  {
    var v := m.volume as real / 100.0;
    var f := MediaVolumeFactor(m.options, path);
    assert 0.0 <= f <= 1.0;
    UnitProduct(v, f);
    UnitProduct(v * f, GainFactor(m.gain));
  }

  // ---------------------------------------------------------------------------------------
  // Starting or toggling an entry (playAudio)
  // ---------------------------------------------------------------------------------------

  /** An existing entry restarted without pausing: only the play position goes back to 0. */
  function Rewound(e: Entry): (r: Entry)
    ensures r.media.currentTime == 0.0
    ensures r.name == e.name && r.paused == e.paused && r.mic == e.mic && r.analyser == e.analyser
    ensures r.media.paused == e.media.paused && r.media.volume == e.media.volume
    ensures r.media.duration == e.media.duration
  {
    e.(media := e.media.(currentTime := 0.0))
  }

  /** An existing entry toggled: the flag flips and the media is paused or played to match. */
  function Toggled(e: Entry): (r: Entry)
    ensures r.paused == !e.paused && r.media.paused == r.paused
    ensures r.name == e.name && r.mic == e.mic && r.analyser == e.analyser
    ensures r.media.currentTime == e.media.currentTime && r.media.volume == e.media.volume
  {
    e.(paused := !e.paused, media := e.media.(paused := !e.paused))
  }

  /**
   * The entry `playAudio` inserts for a new key, after volume, crossfade, seek and play: it is
   * playing, named by DisplayName, a microphone exactly when a stream was given, and its gain
   * node (or, without one, its media) carries the volume rule's value unless a crossfade
   * starts it silent.
   */
  function Started(path: string, name: string, media: Media, stream: bool, analyser: Analyser,
                   startAt: real, crossfade: real, m: Mix): (r: Entry)
    ensures r.name == DisplayName(name) && !r.paused && !r.media.paused && r.mic == stream
    ensures r.media.currentTime == (if startAt > 0.0 then startAt else media.currentTime)
    ensures r.media.duration == media.duration
    ensures crossfade != 0.0 ==> r.media.volume == 0.0
    ensures analyser.gainNode.Some? ==>
              r.analyser.gainNode.Some? && r.analyser.gainNode.value == LocalVolume(m, path) * GainFactor(m.gain)
    ensures analyser.gainNode.Some? && crossfade == 0.0 ==> r.media.volume == media.volume
    ensures analyser.gainNode.None? ==> r.analyser == analyser
    ensures analyser.gainNode.None? && crossfade == 0.0 ==> r.media.volume == LocalVolume(m, path)
  {
    var e := ApplyVolume(Entry(DisplayName(name), false, stream, analyser, media), m, path);
    var silent := if crossfade != 0.0 then e.media.(volume := 0.0) else e.media;
    var seeked := if startAt > 0.0 then silent.(currentTime := startAt) else silent;
    e.(media := seeked.(paused := false))
  }

  /**
   * The part of `playAudio` that runs before it awaits the analyser: an existing key is
   * rewound or toggled; a new key is not in the registry yet.
   */
  function PlayNow(entries: map<string, Entry>, path: string, pauseIfPlaying: bool): (r: map<string, Entry>)
    ensures r.Keys == entries.Keys
    ensures forall k :: k in entries && k != path ==> r[k] == entries[k]
    ensures path in entries && !pauseIfPlaying ==> r[path] == Rewound(entries[path])
    ensures path in entries && pauseIfPlaying ==> r[path] == Toggled(entries[path])
  {
    if path !in entries then entries
    else if !pauseIfPlaying then entries[path := Rewound(entries[path])]
    else entries[path := Toggled(entries[path])]
  }

  /**
   * The part of `playAudio` that runs once the analyser is there: without one nothing
   * changes; with one the new entry is stored under the key, whatever the registry holds now.
   */
  function AddEntry(entries: map<string, Entry>, path: string, name: string, media: Media, stream: bool,
                    analyser: Option<Analyser>, startAt: real, crossfade: real, m: Mix): (r: map<string, Entry>)
    ensures analyser.None? ==> r == entries
    ensures analyser.Some? ==> r.Keys == entries.Keys + {path}
                               && r[path] == Started(path, name, media, stream, analyser.value, startAt, crossfade, m)
    ensures forall k :: k in entries && k != path ==> k in r && r[k] == entries[k]
  {
    if analyser.None? then entries
    else entries[path := Started(path, name, media, stream, analyser.value, startAt, crossfade, m)]
  }

  /** The registry after a whole `playAudio` call, when nothing else runs while it awaits. */
  function AfterPlay(entries: map<string, Entry>, path: string, name: string, media: Media, stream: bool,
                     analyser: Option<Analyser>, pauseIfPlaying: bool, startAt: real, crossfade: real,
                     m: Mix): (r: map<string, Entry>)
    ensures r.Keys <= entries.Keys + {path}
    ensures forall k :: k in entries && k != path ==> k in r && r[k] == entries[k]
  {
    if path in entries then PlayNow(entries, path, pauseIfPlaying)
    else AddEntry(entries, path, name, media, stream, analyser, startAt, crossfade, m)
  }

  /**
   * An existing key never gets a second entry: without `pauseIfPlaying` only its play position
   * is reset; with it the paused flag flips and the media follows the new flag.
   */
  lemma PlayExistingKey(entries: map<string, Entry>, path: string, name: string, media: Media, stream: bool,
                        analyser: Option<Analyser>, pauseIfPlaying: bool, startAt: real, crossfade: real, m: Mix)
    requires path in entries
    ensures var r := AfterPlay(entries, path, name, media, stream, analyser, pauseIfPlaying, startAt, crossfade, m);
      var e, e' := entries[path], r[path];
      && r.Keys == entries.Keys
      && (forall k :: k in entries && k != path ==> r[k] == entries[k])
      && e'.name == e.name && e'.mic == e.mic && e'.analyser == e.analyser
      && e'.media.duration == e.media.duration && e'.media.volume == e.media.volume
      && (!pauseIfPlaying ==> e'.paused == e.paused && e'.media.paused == e.media.paused && e'.media.currentTime == 0.0)
      && (pauseIfPlaying ==> e'.paused == !e.paused && e'.media.paused == e'.paused && e'.media.currentTime == e.media.currentTime)
  {
  }

  /**
   * A new key is inserted only when an analyser was obtained; the new entry is playing, named
   * by `DisplayName`, is a microphone exactly when a stream was given, and carries the volume
   * rule's gain value.
   */
  lemma PlayNewKey(entries: map<string, Entry>, path: string, name: string, media: Media, stream: bool,
                   analyser: Option<Analyser>, pauseIfPlaying: bool, startAt: real, crossfade: real, m: Mix)
    requires path !in entries
    ensures var r := AfterPlay(entries, path, name, media, stream, analyser, pauseIfPlaying, startAt, crossfade, m);
      && (analyser.None? ==> r == entries)
      && (analyser.Some? ==>
            && r.Keys == entries.Keys + {path}
            && (forall k :: k in entries ==> r[k] == entries[k])
            && r[path].name == DisplayName(name) && !r[path].paused && !r[path].media.paused
            && r[path].mic == stream
            && r[path].media.currentTime == (if startAt > 0.0 then startAt else media.currentTime)
            && (crossfade != 0.0 ==> r[path].media.volume == 0.0)
            && (analyser.value.gainNode.Some? ==>
                  r[path].analyser.gainNode.Some?
                  && r[path].analyser.gainNode.value == LocalVolume(m, path) * GainFactor(m.gain))
            && (crossfade == 0.0 && analyser.value.gainNode.None? ==> r[path].media.volume == LocalVolume(m, path)))
  {
    if analyser.Some? {
      assert AfterPlay(entries, path, name, media, stream, analyser, pauseIfPlaying, startAt, crossfade, m)[path]
          == Started(path, name, media, stream, analyser.value, startAt, crossfade, m);
    }
  }

  // ---------------------------------------------------------------------------------------
  // Playlist advance (playlistNext / getSongs)
  // ---------------------------------------------------------------------------------------

  /** `songs.findIndex((a) => a === key)`. */
  function FindIndex(songs: seq<string>, key: string): (i: int)
    ensures -1 <= i < |songs|
    ensures i >= 0 ==> songs[i] == key && key !in songs[..i]
    ensures i == -1 <==> key !in songs
  {
    if |songs| == 0 then -1
    else if songs[0] == key then 0
    else
      var j := FindIndex(songs[1..], key);
      assert songs == [songs[0]] + songs[1..];
      if j == -1 then -1
      else
        assert songs[..j + 1] == [songs[0]] + songs[1..][..j];
        j + 1
  }

  /**
   * The song `playlistNext` chooses from the session list: `songs[i + 1]` after `previous`, or
   * `songs[i]` for a `specific` song, falling back to `songs[0]`; None when nothing (or the
   * empty string) would be chosen.
   */
  function NextSong(songs: seq<string>, previous: string, specific: string): (r: Option<string>)
    ensures r.Some? ==> r.value in songs && r.value != ""
    ensures |songs| > 0 && songs[0] != "" ==> r.Some?
  {
    if |songs| == 0 then None
    else
      var key := if specific != "" then specific else previous;
      var j := FindIndex(songs, key) + (if specific != "" then 0 else 1);
      var pick := if 0 <= j < |songs| && songs[j] != "" then songs[j] else songs[0];
      if pick == "" then None else Some(pick)
  }

  /** After the first occurrence of `previous` comes the next song in the list. */
  lemma NextAfterPrevious(songs: seq<string>, previous: string, i: nat)
    requires i + 1 < |songs| && songs[i] == previous && previous !in songs[..i] && songs[i + 1] != ""
    ensures NextSong(songs, previous, "") == Some(songs[i + 1])
  {
  }

  /** The last song, or a song that is not in the list, is followed by the first one. */
  lemma NextWrapsToFirst(songs: seq<string>, previous: string)
    requires |songs| > 0 && songs[0] != ""
    requires previous !in songs[..|songs| - 1]
    ensures NextSong(songs, previous, "") == Some(songs[0])
  {
  }

  /** A specific song that is in the list is chosen itself; one that is not falls back to the first. */
  lemma NextSpecific(songs: seq<string>, previous: string, specific: string)
    requires |songs| > 0 && specific != "" && songs[0] != ""
    ensures specific in songs ==> NextSong(songs, previous, specific) == Some(specific)
    ensures specific !in songs ==> NextSong(songs, previous, specific) == Some(songs[0])
  {
  }

  /** The three-song example: A is followed by B, C by A, and an unknown song by A. */
  lemma NextSongExample()
    ensures NextSong(["A", "B", "C"], "A", "") == Some("B")
    ensures NextSong(["A", "B", "C"], "C", "") == Some("A")
    ensures NextSong(["A", "B", "C"], "X", "") == Some("A")
  {
    NextAfterPrevious(["A", "B", "C"], "A", 0);
    NextWrapsToFirst(["A", "B", "C"], "C");
    NextWrapsToFirst(["A", "B", "C"], "X");
  }

  /** `getSongs` reuses the stored session list when a previous song is given and a list exists. */
  predicate ReusesSession(ap: ActivePlaylist, previous: string)
  {
    previous != "" && ap.songs.Some?
  }

  /** The list `getSongs` returns; `shuffle` stands for the unseen `shuffleArray`. */
  function SessionSongs(ap: ActivePlaylist, playlists: map<string, Playlist>, previous: string,
                        shuffle: seq<string> -> seq<string>): (r: seq<string>)
    ensures ReusesSession(ap, previous) ==> r == ap.songs.value
    ensures !ReusesSession(ap, previous) && ap.id !in playlists ==> r == []
  {
    if ReusesSession(ap, previous) then ap.songs.value
    else if ap.id !in playlists then []
    else if playlists[ap.id].mode == "shuffle" then shuffle(playlists[ap.id].songs)
    else playlists[ap.id].songs
  }

  /** The session list stored in `activePlaylist.songs` after `getSongs`. */
  function StoredSongs(ap: ActivePlaylist, playlists: map<string, Playlist>, previous: string,
                       shuffle: seq<string> -> seq<string>): (r: Option<seq<string>>)
    ensures ReusesSession(ap, previous) || ap.id !in playlists ==> r == ap.songs
    ensures r.Some? && (ReusesSession(ap, previous) || ap.id in playlists) ==>
              r.value == SessionSongs(ap, playlists, previous, shuffle)
  {
    if !ReusesSession(ap, previous) && ap.id in playlists then Some(SessionSongs(ap, playlists, previous, shuffle))
    else ap.songs
  }

  /** `shuffleArray` returns a permutation of its argument. */
  ghost predicate IsShuffle(shuffle: seq<string> -> seq<string>)
  {
    forall s :: multiset(shuffle(s)) == multiset(s)
  }

  /** A regenerated session list holds exactly the playlist's songs, in playlist order unless shuffled. */
  lemma RegeneratedSession(ap: ActivePlaylist, playlists: map<string, Playlist>, previous: string,
                           shuffle: seq<string> -> seq<string>)
    requires IsShuffle(shuffle)
    requires !ReusesSession(ap, previous) && ap.id in playlists
    ensures multiset(SessionSongs(ap, playlists, previous, shuffle)) == multiset(playlists[ap.id].songs)
    ensures playlists[ap.id].mode != "shuffle" ==> SessionSongs(ap, playlists, previous, shuffle) == playlists[ap.id].songs
    ensures StoredSongs(ap, playlists, previous, shuffle) == Some(SessionSongs(ap, playlists, previous, shuffle))
  {
  }

  /** The song `playlistNext` chooses, or None when it stops early. */
  function Chosen(ap: Option<ActivePlaylist>, playlists: map<string, Playlist>, previous: string, specific: string,
                  shuffle: seq<string> -> seq<string>): (r: Option<string>)
    ensures r.Some? ==> ap.Some? && ap.value.id != "" && r.value in SessionSongs(ap.value, playlists, previous, shuffle)
  {
    if ap.None? || ap.value.id == "" then None
    else NextSong(SessionSongs(ap.value, playlists, previous, shuffle), previous, specific)
  }

  /**
   * The playback state right after `playlistNext(previous, specific, crossfade)` returns, that
   * is up to the point where the `playAudio` it starts awaits the analyser. Without an active
   * playlist id nothing changes; otherwise no entry is removed or added and an existing one is
   * at most rewound, the playlist keeps its id, and `isCrossfading` becomes set exactly when
   * a song is chosen under a non-zero crossfade (or it was set already).
   */
  function Advance(s: PlayState, playlists: map<string, Playlist>, previous: string, specific: string,
                   crossfade: real, shuffle: seq<string> -> seq<string>): (r: PlayState)
    ensures s.activePlaylist.None? || s.activePlaylist.value.id == "" ==> r == s
    ensures r.entries.Keys == s.entries.Keys
    ensures forall k :: k in s.entries ==> r.entries[k] == s.entries[k] || r.entries[k] == Rewound(s.entries[k])
    ensures r.activePlaylist.Some? <==> s.activePlaylist.Some?
    ensures r.activePlaylist.Some? ==> r.activePlaylist.value.id == s.activePlaylist.value.id
    ensures r.isCrossfading <==>
              s.isCrossfading || (crossfade != 0.0 && Chosen(s.activePlaylist, playlists, previous, specific, shuffle).Some?)
  {
    if s.activePlaylist.None? || s.activePlaylist.value.id == "" then s
    else
      var ap := s.activePlaylist.value;
      var stored := ap.(songs := StoredSongs(ap, playlists, previous, shuffle));
      match Chosen(s.activePlaylist, playlists, previous, specific, shuffle)
      case None => s.(activePlaylist := Some(stored))
      case Some(next) =>
        PlayState(PlayNow(s.entries, next, false), Some(stored.(active := next)), s.isCrossfading || crossfade != 0.0)
  }

  /**
   * The chosen song whose `playAudio` call is left awaiting the analyser: the chosen song when
   * it had no entry yet, else None.
   */
  function AwaitedSong(s: PlayState, playlists: map<string, Playlist>, previous: string, specific: string,
                       shuffle: seq<string> -> seq<string>): (w: Option<string>)
    ensures w.Some? ==> w.value !in s.entries && w == Chosen(s.activePlaylist, playlists, previous, specific, shuffle)
    ensures w.None? ==> match Chosen(s.activePlaylist, playlists, previous, specific, shuffle)
                        case None => true
                        case Some(next) => next in s.entries
  {
    match Chosen(s.activePlaylist, playlists, previous, specific, shuffle)
    case None => None
    case Some(next) => if next in s.entries then None else Some(next)
  }

  /** An advance that chooses no song only stores the session list. */
  lemma AdvanceStops(s: PlayState, playlists: map<string, Playlist>, previous: string, specific: string,
                     crossfade: real, shuffle: seq<string> -> seq<string>)
    requires s.activePlaylist.Some? && s.activePlaylist.value.id != ""
    requires NextSong(SessionSongs(s.activePlaylist.value, playlists, previous, shuffle), previous, specific).None?
    ensures var ap := s.activePlaylist.value;
      && Advance(s, playlists, previous, specific, crossfade, shuffle)
         == s.(activePlaylist := Some(ap.(songs := StoredSongs(ap, playlists, previous, shuffle))))
      && AwaitedSong(s, playlists, previous, specific, shuffle).None?
  {
  }

  /** An advance that chooses `next` stores the session list, makes `next` active and starts it. */
  lemma AdvancePlays(s: PlayState, playlists: map<string, Playlist>, previous: string, specific: string,
                     crossfade: real, shuffle: seq<string> -> seq<string>, next: string)
    requires s.activePlaylist.Some? && s.activePlaylist.value.id != ""
    requires NextSong(SessionSongs(s.activePlaylist.value, playlists, previous, shuffle), previous, specific) == Some(next)
    ensures var ap := s.activePlaylist.value;
      && Advance(s, playlists, previous, specific, crossfade, shuffle)
         == PlayState(PlayNow(s.entries, next, false),
                      Some(ap.(songs := StoredSongs(ap, playlists, previous, shuffle), active := next)),
                      s.isCrossfading || crossfade != 0.0)
      && AwaitedSong(s, playlists, previous, specific, shuffle) == (if next in s.entries then None else Some(next))
  {
  }

  /**
   * The song an advance makes active is the one NextSong picks from the session list; a song
   * already playing is rewound at once, a new one waits for its analyser; with no song, the
   * registry and the active song are unchanged.
   */
  lemma AdvanceChoosesSessionSong(s: PlayState, playlists: map<string, Playlist>, previous: string, specific: string,
                                  crossfade: real, shuffle: seq<string> -> seq<string>)
    requires s.activePlaylist.Some? && s.activePlaylist.value.id != ""
    ensures var r := Advance(s, playlists, previous, specific, crossfade, shuffle);
      var songs := SessionSongs(s.activePlaylist.value, playlists, previous, shuffle);
      var next := NextSong(songs, previous, specific);
      var w := AwaitedSong(s, playlists, previous, specific, shuffle);
      && (next.Some? ==>
            && r.activePlaylist.value.active == next.value && next.value in songs
            && (next.value in s.entries ==> r.entries == s.entries[next.value := Rewound(s.entries[next.value])] && w.None?)
            && (next.value !in s.entries ==> r.entries == s.entries && w == next))
      && (next.None? ==> r.entries == s.entries && r.activePlaylist.value.active == s.activePlaylist.value.active && w.None?)
  {
  }

  /**
   * The advance followed by the awaited rest of its `playAudio` call gives the registry of a
   * `playAudio(next, pauseIfPlaying = false, startAt = 0, crossfade)` run to its end.
   */
  lemma AdvanceThenAddEntry(s: PlayState, playlists: map<string, Playlist>, m: Mix, previous: string, specific: string,
                            crossfade: real, shuffle: seq<string> -> seq<string>, analyser: Option<Analyser>, media: Media)
    requires Chosen(s.activePlaylist, playlists, previous, specific, shuffle).Some?
    ensures var next := Chosen(s.activePlaylist, playlists, previous, specific, shuffle).value;
      var r := Advance(s, playlists, previous, specific, crossfade, shuffle);
      var completed := if AwaitedSong(s, playlists, previous, specific, shuffle).Some?
                       then AddEntry(r.entries, next, "", media, false, analyser, 0.0, crossfade, m)
                       else r.entries;
      completed == AfterPlay(s.entries, next, "", media, false, analyser, false, 0.0, crossfade, m)
  {
  }

  // ---------------------------------------------------------------------------------------
  // Crossfade trigger (checkCrossfade)
  // ---------------------------------------------------------------------------------------

  const ExtraMargin: real := 0.1

  /** `get(activePlaylist)?.active || ""`. */
  function ActivePath(ap: Option<ActivePlaylist>): string
  {
    if ap.Some? then ap.value.active else ""
  }

  /** `Number(audioPlaylists[activePlaylist.id]?.crossfade) || 0`. */
  function PlaylistCrossfade(ap: Option<ActivePlaylist>, playlists: map<string, Playlist>): real
  {
    var id := if ap.Some? then ap.value.id else "";
    if id in playlists then playlists[id].crossfade else 0.0
  }

  /** The media of the registry entry for `path`, if any. */
  function MediaOf(entries: map<string, Entry>, path: string): Option<Media>
  {
    if path in entries then Some(entries[path].media) else None
  }

  /** The value `checkCrossfade` returns. */
  function CrossfadeDuration(crossfade: real, activePath: string, playing: Option<Media>): (r: real)
    ensures r == 0.0 || r == crossfade
    ensures r != 0.0 <==> crossfade != 0.0 && activePath != "" && playing.Some?
                          && playing.value.currentTime + crossfade + ExtraMargin >= playing.value.duration
  {
    if crossfade == 0.0 || activePath == "" then 0.0
    else if playing.None? then 0.0
    else if playing.value.currentTime + crossfade + ExtraMargin < playing.value.duration then 0.0
    else crossfade
  }

  // ---------------------------------------------------------------------------------------
  // Finished tracks (the filter of getPlayingAudio)
  // ---------------------------------------------------------------------------------------

  datatype Finish = StillPlaying | Restart | AdvancePlaylist | PauseInPlace | Remove

  /** An unpaused entry whose play position reached its duration. */
  predicate HasFinished(e: Entry)
  {
    !e.paused && e.media.currentTime >= e.media.duration
  }

  /** `get(activePlaylist)?.active === path`. */
  predicate IsActiveTrack(ap: Option<ActivePlaylist>, path: string)
  {
    ap.Some? && ap.value.active != "" && ap.value.active == path
  }

  /** `media[path]?.loop`. */
  predicate Loops(options: map<string, MediaOptions>, path: string)
  {
    path in options && options[path].loop
  }

  /**
   * What happens to an entry when the mix list is refreshed: only a finished entry is
   * handled; a looped one is restarted, whether or not it is the active track; the active
   * track of a playlist advances it; any other entry is paused in place exactly when
   * `clearMediaOnFinish` is explicitly false, and removed otherwise.
   */
  function FinishPolicy(e: Entry, loop: bool, activeTrack: bool, clearMediaOnFinish: Option<bool>): (f: Finish)
    ensures f == StillPlaying <==> !HasFinished(e)
    ensures f == Restart <==> HasFinished(e) && loop
    ensures f == AdvancePlaylist <==> HasFinished(e) && !loop && activeTrack
    ensures f == PauseInPlace <==> HasFinished(e) && !loop && !activeTrack && clearMediaOnFinish == Some(false)
  {
    if !HasFinished(e) then StillPlaying
    else if loop then Restart
    else if activeTrack then AdvancePlaylist
    else if clearMediaOnFinish == Some(false) then PauseInPlace
    else Remove
  }

  /** Kept in the mix list: not paused and with a non-zero media volume. */
  predicate Eligible(e: Entry)
  {
    !e.paused && e.media.volume != 0.0
  }

  /**
   * A looped entry restarted from the beginning: it plays from 0, and it stays in the mix list
   * exactly when it was unpaused with a non-zero volume.
   */
  function Restarted(e: Entry): (r: Entry)
    ensures r.media.currentTime == 0.0 && !r.media.paused && r.paused == e.paused
    ensures Eligible(r) <==> !e.paused && e.media.volume != 0.0
    ensures Rewound(r) == r
  {
    e.(media := e.media.(currentTime := 0.0, paused := false))
  }

  /**
   * Rewinding (what a playlist advance does to a song that already has an entry) does not
   * change whether an entry is kept, leaves an entry with a positive duration unfinished,
   * and a second rewind changes nothing more.
   */
  lemma RewoundKeepsStatus(e: Entry)
    ensures Eligible(Rewound(e)) == Eligible(e)
    ensures e.media.duration > 0.0 ==> !HasFinished(Rewound(e))
    ensures Rewound(Rewound(e)) == Rewound(e)
  {
  }

  /** No entry's media is playing any more (`stillPlaying.length == 0`). */
  predicate NothingPlaying(entries: map<string, Entry>)
  {
    forall k :: k in entries ==> entries[k].media.paused
  }
}
