/**
 * The filter of `getPlayingAudio` in src/frontend/components/helpers/audio.ts as a fold over
 * the registry keys: each key present when the filter starts is handled once by the finish
 * policy, in the order `Object.entries` lists them. A playlist advance started inside the
 * filter runs only up to its analyser await, so the song it starts is reported as awaited
 * and gets its entry only after the filter is done.
 */
module AudioFinish {
  import opened Wrappers
  import opened AudioModel

  /** The settings the filter reads: saved playlists, per-media options, `clearMediaOnFinish`. */
  datatype Settings = Settings(playlists: map<string, Playlist>, options: map<string, MediaOptions>,
                               clearMediaOnFinish: Option<bool>)

  /**
   * One step of the filter: the new state, whether the entry stays in the mix list, whether
   * the host is told that playback ended (`checkNextAfterMedia`), and the song a playlist
   * advance left waiting for its analyser.
   */
  datatype StepOutcome = StepOutcome(state: PlayState, keep: bool, notify: bool, awaited: Option<string>)

  /**
   * The step for `path`. Only the entry at `path` is restarted, paused or removed; every other
   * entry is kept or, through the playlist advance, rewound. The entry stays in the mix list
   * exactly when it is still there and eligible afterwards, and it loses its place only when
   * it was not eligible or it finished without a loop that restarts it audibly. The host is
   * told exactly when a finished entry outside the playlist was paused or removed and nothing
   * is playing any more. Case by case: an unfinished entry leaves the state as it is; a
   * finished looped one is restarted; a finished active playlist track is deleted and the
   * playlist advances; any other finished entry is paused in place when `clearMediaOnFinish`
   * is explicitly false and deleted otherwise.
   */
  function FinishOutcome(s: PlayState, path: string, cfg: Settings, shuffle: seq<string> -> seq<string>): (r: StepOutcome)
    requires path in s.entries
    ensures r.state.entries.Keys <= s.entries.Keys
    ensures forall k :: k in s.entries && k != path ==>
              k in r.state.entries && (r.state.entries[k] == s.entries[k] || r.state.entries[k] == Rewound(s.entries[k]))
    ensures path in r.state.entries ==>
              var e, e' := s.entries[path], r.state.entries[path];
              e' == e || e' == Restarted(e) || e' == e.(paused := true)
    ensures r.keep <==> path in r.state.entries && Eligible(r.state.entries[path])
    ensures !r.keep ==>
              var e := s.entries[path];
              !Eligible(e) || (HasFinished(e) && !(Loops(cfg.options, path) && Eligible(Restarted(e))))
    ensures r.notify <==>
              var e := s.entries[path];
              && HasFinished(e) && !Loops(cfg.options, path) && !IsActiveTrack(s.activePlaylist, path)
              && NothingPlaying(r.state.entries)
    ensures r.notify ==> path !in r.state.entries || r.state.entries[path].paused
    ensures r.awaited.Some? ==> r.awaited.value !in r.state.entries
    ensures r.state.activePlaylist.Some? <==> s.activePlaylist.Some?
    // the finish rule, case by case
    ensures !HasFinished(s.entries[path]) ==> r.state == s
    ensures HasFinished(s.entries[path]) && Loops(cfg.options, path) ==>
              r.state == s.(entries := s.entries[path := Restarted(s.entries[path])])
    ensures HasFinished(s.entries[path]) && !Loops(cfg.options, path) && IsActiveTrack(s.activePlaylist, path) ==>
              r.state == Advance(s.(entries := s.entries - {path}), cfg.playlists, path, "", 0.0, shuffle)
    ensures HasFinished(s.entries[path]) && !Loops(cfg.options, path) && !IsActiveTrack(s.activePlaylist, path)
              && cfg.clearMediaOnFinish == Some(false) ==>
              r.state == s.(entries := s.entries[path := s.entries[path].(paused := true)])
    ensures HasFinished(s.entries[path]) && !Loops(cfg.options, path) && !IsActiveTrack(s.activePlaylist, path)
              && cfg.clearMediaOnFinish != Some(false) ==>
              r.state == s.(entries := s.entries - {path})
    ensures r.awaited.Some? <==> HasFinished(s.entries[path]) && !Loops(cfg.options, path) && IsActiveTrack(s.activePlaylist, path)
                                 && AwaitedSong(s.(entries := s.entries - {path}), cfg.playlists, path, "", shuffle).Some?
  {
    var e := s.entries[path];
    match FinishPolicy(e, Loops(cfg.options, path), IsActiveTrack(s.activePlaylist, path), cfg.clearMediaOnFinish)
    case StillPlaying => StepOutcome(s, Eligible(e), false, None)
    case Restart =>
      StepOutcome(s.(entries := s.entries[path := Restarted(e)]), Eligible(Restarted(e)), false, None)
    case AdvancePlaylist =>
      var removed := s.(entries := s.entries - {path});
      StepOutcome(Advance(removed, cfg.playlists, path, "", 0.0, shuffle), false, false,
                  AwaitedSong(removed, cfg.playlists, path, "", shuffle))
    case PauseInPlace =>
      var entries := s.entries[path := e.(paused := true)];
      StepOutcome(s.(entries := entries), false, NothingPlaying(entries), None)
    case Remove =>
      var entries := s.entries - {path};
      StepOutcome(s.(entries := entries), false, NothingPlaying(entries), None)
  }

  /** What the whole filter leaves behind. */
  datatype FilterOutcome = FilterOutcome(state: PlayState, kept: seq<string>, notified: seq<string>, awaited: seq<string>)

  /**
   * The filter over the keys in `order` (the key order of `Object.entries`): `kept` lists the
   * keys that stay in the mix list, `notified` those for which the host was told, `awaited`
   * the songs whose entries are added once their analysers are there.
   */
  function FilterPlaying(s: PlayState, order: seq<string>, cfg: Settings, shuffle: seq<string> -> seq<string>): FilterOutcome
  {
    if |order| == 0 then FilterOutcome(s, [], [], [])
    else
      var r := FilterPlaying(s, order[..|order| - 1], cfg, shuffle);
      var path := order[|order| - 1];
      if path !in r.state.entries then r
      else
        Visited(r, path, FinishOutcome(r.state, path, cfg, shuffle))
  }

  predicate Distinct(xs: seq<string>)
  {
    forall i, j :: 0 <= i < j < |xs| ==> xs[i] != xs[j]
  }

  /**
   * An entry that may lose its place in the mix list when its turn comes, possibly after a
   * playlist advance rewound it: it is not eligible, or it finished and no loop restarts it
   * audibly.
   */
  predicate MayDrop(e: Entry, loop: bool)
  {
    !Eligible(e) || ((HasFinished(e) || HasFinished(Rewound(e))) && !(loop && Eligible(Restarted(e))))
  }

  /** No entry is added while the filter runs. */
  ghost predicate NoneAdded(s: PlayState, r: FilterOutcome)
  {
    r.state.entries.Keys <= s.entries.Keys && (r.state.activePlaylist.Some? <==> s.activePlaylist.Some?)
  }

  /** A key not visited yet is still there, at most rewound. */
  ghost predicate UnvisitedRewound(s: PlayState, order: seq<string>, r: FilterOutcome)
  {
    forall k :: k in s.entries && k !in order ==>
      k in r.state.entries && (r.state.entries[k] == s.entries[k] || r.state.entries[k] == Rewound(s.entries[k]))
  }

  /** `kept` lists, once each, exactly the visited keys that are present and eligible. */
  ghost predicate KeptExactly(order: seq<string>, r: FilterOutcome)
  {
    && (forall k :: k in r.kept <==> k in order && k in r.state.entries && Eligible(r.state.entries[k]))
    && Distinct(r.kept)
  }

  /** A visited key that is not kept could be dropped when its turn came. */
  ghost predicate DroppedOnlyIfMay(s: PlayState, order: seq<string>, cfg: Settings, r: FilterOutcome)
  {
    forall k :: k in order && k in s.entries && k !in r.kept ==> MayDrop(s.entries[k], Loops(cfg.options, k))
  }

  /** A notified key was visited and is paused or gone; an awaited song has no entry yet. */
  ghost predicate NotifiedAndAwaited(s: PlayState, order: seq<string>, r: FilterOutcome)
  {
    && (forall k :: k in r.notified ==> k in order && k in s.entries && (k !in r.state.entries || r.state.entries[k].paused))
    && (forall w :: w in r.awaited ==> w !in r.state.entries)
  }

  /** The filter outcome after visiting `path` with outcome `o`, given the outcome `r` so far. */
  function Visited(r: FilterOutcome, path: string, o: StepOutcome): FilterOutcome
  {
    FilterOutcome(o.state,
                  r.kept + (if o.keep then [path] else []),
                  r.notified + (if o.notify then [path] else []),
                  r.awaited + (if o.awaited.Some? then [o.awaited.value] else []))
  }

  lemma StepKeepsUnvisited(s: PlayState, prefix: seq<string>, path: string, r: FilterOutcome, o: StepOutcome,
                           cfg: Settings, shuffle: seq<string> -> seq<string>)
    requires path in r.state.entries && o == FinishOutcome(r.state, path, cfg, shuffle)
    requires NoneAdded(s, r) && UnvisitedRewound(s, prefix, r)
    ensures NoneAdded(s, Visited(r, path, o)) && UnvisitedRewound(s, prefix + [path], Visited(r, path, o))
  {
    forall k | k in s.entries && k !in prefix + [path]
      ensures k in o.state.entries && (o.state.entries[k] == s.entries[k] || o.state.entries[k] == Rewound(s.entries[k]))
    {
      assert k !in prefix;
      RewoundKeepsStatus(s.entries[k]);
    }
  }

  lemma StepKeepsKept(s: PlayState, prefix: seq<string>, path: string, r: FilterOutcome, o: StepOutcome,
                      cfg: Settings, shuffle: seq<string> -> seq<string>)
    requires path in r.state.entries && o == FinishOutcome(r.state, path, cfg, shuffle) && path !in prefix
    requires KeptExactly(prefix, r)
    ensures KeptExactly(prefix + [path], Visited(r, path, o))
  {
    var r' := Visited(r, path, o);
    forall k | k in r.kept
      ensures k in o.state.entries && Eligible(o.state.entries[k])
    {
      RewoundKeepsStatus(r.state.entries[k]);
    }
    forall k | k in prefix + [path] && k in o.state.entries && Eligible(o.state.entries[k])
      ensures k in r'.kept
    {
      if k != path {
        RewoundKeepsStatus(r.state.entries[k]);
      }
    }
  }

  lemma StepKeepsDropped(s: PlayState, prefix: seq<string>, path: string, r: FilterOutcome, o: StepOutcome,
                         cfg: Settings, shuffle: seq<string> -> seq<string>)
    requires path in r.state.entries && o == FinishOutcome(r.state, path, cfg, shuffle) && path !in prefix
    requires UnvisitedRewound(s, prefix, r) && KeptExactly(prefix, r) && DroppedOnlyIfMay(s, prefix, cfg, r)
    ensures DroppedOnlyIfMay(s, prefix + [path], cfg, Visited(r, path, o))
  {
    var r' := Visited(r, path, o);
    forall k | k in prefix + [path] && k in s.entries && k !in r'.kept
      ensures MayDrop(s.entries[k], Loops(cfg.options, k))
    {
      if k == path {
        var e := s.entries[path];
        RewoundKeepsStatus(e);
        assert r.state.entries[path] == e || r.state.entries[path] == Rewound(e);
        assert Restarted(Rewound(e)) == Restarted(e);
      }
    }
  }

  lemma StepKeepsNotified(s: PlayState, prefix: seq<string>, path: string, r: FilterOutcome, o: StepOutcome,
                          cfg: Settings, shuffle: seq<string> -> seq<string>)
    requires path in r.state.entries && o == FinishOutcome(r.state, path, cfg, shuffle)
    requires NoneAdded(s, r) && NotifiedAndAwaited(s, prefix, r)
    ensures NotifiedAndAwaited(s, prefix + [path], Visited(r, path, o))
  {
    forall k | k in r.notified
      ensures k !in o.state.entries || o.state.entries[k].paused
    {
    }
  }

  /**
   * What the filter guarantees for every visiting order without repeated keys: no entry is
   * added while it runs; a key not visited is at most rewound; `kept` holds exactly the
   * visited keys that are still present and eligible at the end, each once; a visited key
   * that is not kept could be dropped; a notified key is paused or gone; and an awaited song
   * has no entry yet.
   */
  lemma {:induction false} FilterPlayingFacts(s: PlayState, order: seq<string>, cfg: Settings,
                                              shuffle: seq<string> -> seq<string>)
    requires Distinct(order)
    ensures var r := FilterPlaying(s, order, cfg, shuffle);
      && NoneAdded(s, r) && UnvisitedRewound(s, order, r) && KeptExactly(order, r)
      && DroppedOnlyIfMay(s, order, cfg, r) && NotifiedAndAwaited(s, order, r)
  {
    if |order| == 0 {
      return;
    }
    var prefix := order[..|order| - 1];
    var path := order[|order| - 1];
    assert order == prefix + [path];
    assert Distinct(prefix);
    assert path !in prefix;
    FilterPlayingFacts(s, prefix, cfg, shuffle);
    var r := FilterPlaying(s, prefix, cfg, shuffle);
    if path !in r.state.entries {
      return;
    }
    var o := FinishOutcome(r.state, path, cfg, shuffle);
    assert FilterPlaying(s, order, cfg, shuffle) == Visited(r, path, o);
    StepKeepsUnvisited(s, prefix, path, r, o, cfg, shuffle);
    StepKeepsKept(s, prefix, path, r, o, cfg, shuffle);
    StepKeepsDropped(s, prefix, path, r, o, cfg, shuffle);
    StepKeepsNotified(s, prefix, path, r, o, cfg, shuffle);
  }

  /**
   * Every visited entry that is playing audibly and has not reached its end stays in the mix
   * list, and so does every visited looped entry that finished while playing audibly: it is
   * restarted, or was already rewound by a playlist advance.
   */
  lemma FilterKeepsPlaying(s: PlayState, order: seq<string>, cfg: Settings, shuffle: seq<string> -> seq<string>)
    requires Distinct(order)
    ensures var r := FilterPlaying(s, order, cfg, shuffle);
      && (forall k :: (k in order && k in s.entries && Eligible(s.entries[k])
                       && 0.0 <= s.entries[k].media.currentTime < s.entries[k].media.duration) ==> k in r.kept)
      && (forall k :: (k in order && k in s.entries && HasFinished(s.entries[k]) && Loops(cfg.options, k)
                       && s.entries[k].media.volume != 0.0) ==> k in r.kept)
      && (forall k :: k in r.notified ==> k !in r.kept)
  {
    FilterPlayingFacts(s, order, cfg, shuffle);
    forall k | k in s.entries
      ensures 0.0 <= s.entries[k].media.currentTime < s.entries[k].media.duration ==> !HasFinished(Rewound(s.entries[k]))
    {
      RewoundKeepsStatus(s.entries[k]);
    }
  }

  /**
   * Without an active playlist, each key present at the start is handled by the finish rule
   * at most once and on the entry it started with: an unfinished or unvisited entry is left as
   * it is, a finished looped one is restarted, and any other finished one is paused in place
   * when `clearMediaOnFinish` is explicitly false and removed otherwise.
   */
  ghost predicate HandledWithoutPlaylist(s: PlayState, order: seq<string>, cfg: Settings, r: FilterOutcome)
  {
    && r.state.activePlaylist == s.activePlaylist && r.state.isCrossfading == s.isCrossfading
    && r.state.entries.Keys <= s.entries.Keys
    && forall k :: k in s.entries ==>
         var e := s.entries[k];
         && ((k !in order || !HasFinished(e)) ==> k in r.state.entries && r.state.entries[k] == e)
         && (k in order && HasFinished(e) && Loops(cfg.options, k) ==>
               k in r.state.entries && r.state.entries[k] == Restarted(e))
         && (k in order && HasFinished(e) && !Loops(cfg.options, k) && cfg.clearMediaOnFinish == Some(false) ==>
               k in r.state.entries && r.state.entries[k] == e.(paused := true))
         && (k in order && HasFinished(e) && !Loops(cfg.options, k) && cfg.clearMediaOnFinish != Some(false) ==>
               k !in r.state.entries)
  }

  lemma StepKeepsHandled(s: PlayState, prefix: seq<string>, path: string, r: FilterOutcome, o: StepOutcome,
                         cfg: Settings, shuffle: seq<string> -> seq<string>)
    requires s.activePlaylist.None?
    requires path in r.state.entries && o == FinishOutcome(r.state, path, cfg, shuffle) && path !in prefix
    requires HandledWithoutPlaylist(s, prefix, cfg, r)
    ensures HandledWithoutPlaylist(s, prefix + [path], cfg, Visited(r, path, o))
  {
    assert !IsActiveTrack(r.state.activePlaylist, path);
    forall k | k in s.entries
      ensures k in prefix + [path] <==> k in prefix || k == path
    {
    }
  }

  /**
   * The finish rule over the whole filter when no playlist is active: every key visited is
   * handled on its original entry (restarted, paused in place or removed as
   * `clearMediaOnFinish` says), unvisited and unfinished entries are untouched, nothing else
   * in the state changes, and nothing is left awaited.
   */
  lemma {:induction false} FilterWithoutPlaylist(s: PlayState, order: seq<string>, cfg: Settings,
                                                 shuffle: seq<string> -> seq<string>)
    requires Distinct(order) && s.activePlaylist.None?
    ensures HandledWithoutPlaylist(s, order, cfg, FilterPlaying(s, order, cfg, shuffle))
    ensures FilterPlaying(s, order, cfg, shuffle).awaited == []
  {
    if |order| == 0 {
      return;
    }
    var prefix := order[..|order| - 1];
    var path := order[|order| - 1];
    assert order == prefix + [path];
    assert Distinct(prefix);
    assert path !in prefix;
    FilterWithoutPlaylist(s, prefix, cfg, shuffle);
    var r := FilterPlaying(s, prefix, cfg, shuffle);
    if path !in r.state.entries {
      return;
    }
    var o := FinishOutcome(r.state, path, cfg, shuffle);
    assert FilterPlaying(s, order, cfg, shuffle) == Visited(r, path, o);
    StepKeepsHandled(s, prefix, path, r, o, cfg, shuffle);
  }
}
