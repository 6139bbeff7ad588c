/**
 * The audio playback core as the source runs it: one object whose fields are the stores and
 * module-level variables of src/frontend/components/helpers/audio.ts (the `playingAudio`
 * registry, `activePlaylist`, `isCrossfading`, the volume and gain stores, `unmutedValue`)
 * and the settings it reads. Each method updates the fields step by step and is specified
 * by the functions of AudioModel and AudioFinish. Where the source awaits the analyser of a
 * new song, the method returns at the await and a separate method is the continuation.
 */
module AudioEngine {
  import opened Wrappers
  import opened AudioModel
  import opened AudioFinish

  class Engine {
    /** The `playingAudio` store: registry key (file path or device id) to entry. */
    var entries: map<string, Entry>
    var activePlaylist: Option<ActivePlaylist>
    var isCrossfading: bool
    /** The `volume` and `gain` stores, in hundredths. */
    var volume: int
    var gain: int
    /** `unmutedValue`, in hundredths. */
    var unmuted: int
    /** Settings the core only reads: per-media options, saved playlists, `clearMediaOnFinish`. */
    var options: map<string, MediaOptions>
    var playlists: map<string, Playlist>
    var clearMediaOnFinish: Option<bool>

    ghost predicate Valid()
      reads this
    {
      unmuted != 0
    }

    function CurrentMix(): Mix
      reads this
    {
      Mix(volume, gain, options)
    }

    function State(): PlayState
      reads this
    {
      PlayState(entries, activePlaylist, isCrossfading)
    }

    constructor (volume: int, gain: int, options: map<string, MediaOptions>, playlists: map<string, Playlist>,
                 clearMediaOnFinish: Option<bool>)
      ensures Valid()
      ensures entries == map[] && activePlaylist == None && !isCrossfading
      ensures this.volume == volume && this.gain == gain && unmuted == 100
      ensures this.options == options && this.playlists == playlists && this.clearMediaOnFinish == clearMediaOnFinish
    {
      entries := map[];
      activePlaylist := None;
      isCrossfading := false;
      this.volume := volume;
      this.gain := gain;
      unmuted := 100;
      this.options := options;
      this.playlists := playlists;
      this.clearMediaOnFinish := clearMediaOnFinish;
    }

    /** The settings the filter of `getPlayingAudio` reads. */
    function Config(): Settings
      reads this
    {
      Settings(playlists, options, clearMediaOnFinish)
    }

    /**
     * `playAudio` up to its `await getAnalyser`: an existing key is restarted or toggled and
     * the call ends; for a new key nothing changes yet and `waiting` says that the call goes
     * on in CompletePlayAudio once the analyser is there.
     */
    method PlayAudio(path: string, pauseIfPlaying: bool) returns (waiting: bool)
      modifies this`entries
      ensures entries == PlayNow(old(entries), path, pauseIfPlaying)
      ensures waiting <==> path !in old(entries)
    {
      if path !in entries {
        return true;
      }
      var e := entries[path];
      if !pauseIfPlaying {
        entries := entries[path := e.(media := e.media.(currentTime := 0.0))];
        return false;
      }
      var isPaused := e.paused;
      e := e.(paused := !isPaused);
      if isPaused {
        e := e.(media := e.media.(paused := false));
      } else {
        e := e.(media := e.media.(paused := true));
      }
      assert e == Toggled(old(entries)[path]);
      entries := entries[path := e];
      return false;
    }

    /**
     * The rest of `playAudio` once `getAnalyser` resolved to `analyser`: without an analyser
     * the registry is left as it is; otherwise the entry is written, its volume set from the
     * current mix, muted for a crossfade, moved to `startAt` and played. `media` is the
     * element passed in or newly created.
     */
    method CompletePlayAudio(path: string, name: string, media: Media, stream: bool, analyser: Option<Analyser>,
                             startAt: real, crossfade: real)
      modifies this`entries
      ensures entries == AddEntry(old(entries), path, name, media, stream, analyser, startAt, crossfade, CurrentMix())
    {
      if analyser.None? {
        return;
      }
      var e := Entry(DisplayName(name), false, stream, analyser.value, media);
      entries := entries[path := e];

      e := ApplyVolume(e, CurrentMix(), path);
      if crossfade != 0.0 {
        e := e.(media := e.media.(volume := 0.0));
      }
      if startAt > 0.0 {
        e := e.(media := e.media.(currentTime := startAt));
      }
      e := e.(media := e.media.(paused := false));
      assert e == Started(path, name, media, stream, analyser.value, startAt, crossfade, CurrentMix());
      entries := entries[path := e];
    }

    /** A whole `playAudio` call with nothing else running during its await. */
    method PlayAudioToEnd(path: string, name: string, media: Media, stream: bool, analyser: Option<Analyser>,
                          pauseIfPlaying: bool, startAt: real, crossfade: real)
      modifies this`entries
      ensures entries == AfterPlay(old(entries), path, name, media, stream, analyser, pauseIfPlaying, startAt, crossfade, CurrentMix())
    {
      var waiting := PlayAudio(path, pauseIfPlaying);
      if waiting {
        CompletePlayAudio(path, name, media, stream, analyser, startAt, crossfade);
      }
    }

    /**
     * `updateVolume`: write one scalar (or toggle mute), then re-apply the volume rule to
     * every entry of the registry.
     */
    method UpdateVolume(arg: VolumeArg, changeGain: bool)
      requires Valid()
      modifies this`volume, this`gain, this`unmuted, this`entries
      ensures Valid()
      ensures Scalars(volume, gain, unmuted) == UpdateScalars(arg, changeGain, old(Scalars(volume, gain, unmuted)))
      ensures entries.Keys == old(entries).Keys
      ensures forall k :: k in entries ==> entries[k] == ApplyVolume(old(entries)[k], CurrentMix(), k)
    {
      if !arg.LocalOnly? {
        var value: real;
        if arg.ToggleMute? {
          value := if volume != 0 then 0.0 else unmuted as real / 100.0;
          if value == 0.0 {
            unmuted := volume;
          }
        } else {
          value := arg.value;
        }
        if changeGain {
          gain := Round2(value);
        } else {
          volume := Round2(value);
        }
      }

      var pending := entries.Keys;
      while pending != {}
        modifies this`entries
        invariant pending <= entries.Keys && entries.Keys == old(entries).Keys
        invariant forall k :: k in entries ==>
                    entries[k] == if k in pending then old(entries)[k] else ApplyVolume(old(entries)[k], CurrentMix(), k)
        decreases pending
      {
        var id :| id in pending;
        var e := ApplyVolume(entries[id], CurrentMix(), id);
        entries := entries[id := e];
        pending := pending - {id};
      }
    }

    /**
     * `getSongs`, the inner step of `playlistNext`: reuse the session list when a previous song
     * is given, else rebuild it from the saved playlist (shuffled in shuffle mode) and store it.
     */
    method GetSongs(previous: string, shuffle: seq<string> -> seq<string>) returns (songs: seq<string>)
      requires activePlaylist.Some?
      modifies this`activePlaylist
      ensures var ap := old(activePlaylist.value);
        && songs == SessionSongs(ap, playlists, previous, shuffle)
        && activePlaylist == Some(ap.(songs := StoredSongs(ap, playlists, previous, shuffle)))
    {
      var id := activePlaylist.value.id;
      if previous != "" && activePlaylist.value.songs.Some? {
        return activePlaylist.value.songs.value;
      }
      if id !in playlists {
        return [];
      }
      songs := playlists[id].songs;
      if playlists[id].mode == "shuffle" {
        songs := shuffle(songs);
      }
      activePlaylist := Some(activePlaylist.value.(songs := Some(songs)));
    }

    /**
     * `playlistNext` up to the await in the `playAudio` it calls: choose the next song of the
     * session list, make it the active track and start it. `shuffle` stands for
     * `shuffleArray`. A song that had no entry is returned in `awaited`; its entry is added by
     * CompletePlayAudio once its analyser is there.
     */
    method PlaylistNext(previous: string, specific: string, crossfade: real, shuffle: seq<string> -> seq<string>)
      returns (awaited: Option<string>)
      modifies this`entries, this`activePlaylist, this`isCrossfading
      ensures State() == Advance(old(State()), playlists, previous, specific, crossfade, shuffle)
      ensures awaited == AwaitedSong(old(State()), playlists, previous, specific, shuffle)
    {
      if activePlaylist.None? || activePlaylist.value.id == "" {
        return None;
      }
      var songs := GetSongs(previous, shuffle);
      if |songs| == 0 {
        AdvanceStops(old(State()), playlists, previous, specific, crossfade, shuffle);
        return None;
      }

      var currentSongIndex := FindIndex(songs, if specific != "" then specific else previous);
      var j := currentSongIndex + (if specific != "" then 0 else 1);
      var nextSong := if 0 <= j < |songs| then songs[j] else "";
      if nextSong == "" {
        nextSong := songs[0];
      }
      if nextSong == "" {
        AdvanceStops(old(State()), playlists, previous, specific, crossfade, shuffle);
        return None;
      }

      activePlaylist := Some(activePlaylist.value.(active := nextSong));
      if crossfade != 0.0 {
        isCrossfading := true;
      }
      var waiting := PlayAudio(nextSong, false);
      AdvancePlays(old(State()), playlists, previous, specific, crossfade, shuffle, nextSong);
      awaited := if waiting then Some(nextSong) else None;
    }

    /**
     * `checkCrossfade`: when the active track is within the playlist's crossfade (plus a
     * margin) of its end, advance the playlist with that crossfade and return it; else 0.
     */
    method CheckCrossfade(shuffle: seq<string> -> seq<string>) returns (r: real, awaited: Option<string>)
      modifies this`entries, this`activePlaylist, this`isCrossfading
      ensures var path := ActivePath(old(activePlaylist));
        r == CrossfadeDuration(PlaylistCrossfade(old(activePlaylist), playlists), path, MediaOf(old(entries), path))
      ensures State() == if r != 0.0
                         then Advance(old(State()), playlists, ActivePath(old(activePlaylist)), "", r, shuffle)
                         else old(State())
      ensures awaited == if r != 0.0
                         then AwaitedSong(old(State()), playlists, ActivePath(old(activePlaylist)), "", shuffle)
                         else None
    {
      var playlistId := if activePlaylist.Some? then activePlaylist.value.id else "";
      var crossfade := if playlistId in playlists then playlists[playlistId].crossfade else 0.0;
      var activePath := if activePlaylist.Some? then activePlaylist.value.active else "";
      if crossfade == 0.0 || activePath == "" {
        return 0.0, None;
      }
      if activePath !in entries {
        return 0.0, None;
      }
      var playing := entries[activePath].media;
      var reachedEnding := playing.currentTime + crossfade + ExtraMargin >= playing.duration;
      if !reachedEnding {
        return 0.0, None;
      }
      awaited := PlaylistNext(activePath, "", crossfade, shuffle);
      r := crossfade;
    }

    /**
     * One step of the filter in `getPlayingAudio`: handle the entry `path` if it has finished
     * and say whether it stays in the mix list (`keep`), whether the host is told that
     * playback ended (`notify`, the call to `checkNextAfterMedia`) and which song a playlist
     * advance left waiting for its analyser.
     */
    method FinishStep(path: string, shuffle: seq<string> -> seq<string>)
      returns (keep: bool, notify: bool, awaited: Option<string>)
      requires path in entries
      modifies this`entries, this`activePlaylist, this`isCrossfading
      ensures StepOutcome(State(), keep, notify, awaited) == FinishOutcome(old(State()), path, Config(), shuffle)
    {
      var e := entries[path];
      if !e.paused && e.media.currentTime >= e.media.duration {
        if path in options && options[path].loop {
          entries := entries[path := e.(media := e.media.(currentTime := 0.0, paused := false))];
        } else if activePlaylist.Some? && activePlaylist.value.active != "" && activePlaylist.value.active == path {
          entries := entries - {path};
          awaited := PlaylistNext(path, "", 0.0, shuffle);
          return false, false, awaited;
        } else {
          if clearMediaOnFinish == Some(false) {
            entries := entries[path := e.(paused := true)];
          } else {
            entries := entries - {path};
          }
          notify := NothingPlaying(entries);
          return false, notify, None;
        }
      }
      keep := !e.paused && entries[path].media.volume != 0.0;
      notify := false;
      awaited := None;
    }

    /**
     * The filter of `getPlayingAudio`: every key of the registry, in the order `Object.entries`
     * lists them (`order`), is handled once by FinishStep if it is still there; `kept` lists
     * those that stay in the mix list, `notified` those for which the host was told that
     * playback ended, `awaited` the songs whose entries are added after the filter.
     */
    method GetPlayingAudio(order: seq<string>, shuffle: seq<string> -> seq<string>)
      returns (kept: seq<string>, notified: seq<string>, awaited: seq<string>)
      requires Distinct(order) && forall k :: k in order <==> k in entries
      modifies this`entries, this`activePlaylist, this`isCrossfading
      ensures FilterOutcome(State(), kept, notified, awaited) == FilterPlaying(old(State()), order, Config(), shuffle)
    {
      kept, notified, awaited := [], [], [];
      for i := 0 to |order|
        invariant FilterOutcome(State(), kept, notified, awaited) == FilterPlaying(old(State()), order[..i], Config(), shuffle)
      {
        assert order[..i + 1][..i] == order[..i];
        var path := order[i];
        if path in entries {
          var keep, notify, waiting := FinishStep(path, shuffle);
          if keep {
            kept := kept + [path];
          }
          if notify {
            notified := notified + [path];
          }
          if waiting.Some? {
            awaited := awaited + [waiting.value];
          }
        }
      }
      assert order[..|order|] == order;
    }
  }
}
