/**
 * The level meters of src/frontend/components/helpers/audio.ts: `mergeAudio` takes the
 * per-channel maximum over the audible sources, and `getPlayingOutputVideos` merges the
 * videos playing in the output window into the list of sources by id and location.
 */
module AudioLevels {
  import opened Wrappers

  /** A left/right level reading. */
  datatype Level = Level(left: real, right: real)

  /**
   * One source of the mix list: an audio entry or a video. `channels` is the level a video
   * reports itself; `sampled` stands for what the analyser of an audio entry reads.
   */
  datatype Source = Source(id: string, location: string, paused: bool, channels: Option<Level>, sampled: Level)

  /** `a.channels` when it is defined, else the analyser's reading. */
  function Channels(s: Source): Level
  {
    if s.channels.Some? then s.channels.value else s.sampled
  }

  /** A source takes part in the merge when one of its channels is above zero. */
  predicate Audible(l: Level)
  {
    l.left > 0.0 || l.right > 0.0
  }

  // ---------------------------------------------------------------------------------------
  // Level merge (mergeAudio / getHighestNumber)
  // ---------------------------------------------------------------------------------------

  /** `Math.max(...numbers)` over a non-empty list. */
  function Highest(nums: seq<real>): (r: real)
    requires |nums| > 0
    ensures r in nums
    ensures forall x :: x in nums ==> x <= r
  {
    if |nums| == 1 then nums[0]
    else
      var rest := Highest(nums[1..]);
      assert nums == [nums[0]] + nums[1..];
      if nums[0] >= rest then nums[0] else rest
  }

  /** `allLefts` after the sources have been visited in order. */
  function Lefts(sources: seq<Source>): (r: seq<real>)
    ensures |r| == |Rights(sources)|
  {
    if |sources| == 0 then []
    else
      var l := Channels(sources[|sources| - 1]);
      Lefts(sources[..|sources| - 1]) + (if Audible(l) then [l.left] else [])
  }

  /** `allRights` after the sources have been visited in order: at most one reading per source. */
  function Rights(sources: seq<Source>): (r: seq<real>)
    ensures |r| <= |sources|
  {
    if |sources| == 0 then []
    else
      var l := Channels(sources[|sources| - 1]);
      Rights(sources[..|sources| - 1]) + (if Audible(l) then [l.right] else [])
  }

  /**
   * The merged level: the maximum of each channel over the collected readings, `{0, 0}` when
   * nothing was collected.
   */
  function MergedLevel(sources: seq<Source>): (r: Level)
    ensures |Lefts(sources)| == 0 ==> r == Level(0.0, 0.0)
    ensures |Lefts(sources)| > 0 ==> r.left in Lefts(sources) && r.right in Rights(sources)
    ensures forall x :: x in Lefts(sources) ==> x <= r.left
    ensures forall x :: x in Rights(sources) ==> x <= r.right
  {
    if |Lefts(sources)| > 0 then Level(Highest(Lefts(sources)), Highest(Rights(sources)))
    else Level(0.0, 0.0)
  }

  /** `mergeAudio`: collect the channels of the audible sources and take each channel's maximum. */
  method MergeAudio(sources: seq<Source>) returns (merged: Level)
    ensures merged == MergedLevel(sources)
  {
    var allLefts: seq<real> := [];
    var allRights: seq<real> := [];
    for i := 0 to |sources|
      invariant allLefts == Lefts(sources[..i])
      invariant allRights == Rights(sources[..i])
    {
      assert sources[..i + 1][..i] == sources[..i];
      var channels := if sources[i].channels.Some? then sources[i].channels.value else sources[i].sampled;
      if channels.left > 0.0 || channels.right > 0.0 {
        allLefts := allLefts + [channels.left];
        allRights := allRights + [channels.right];
      }
    }
    assert sources[..|sources|] == sources;
    merged := Level(0.0, 0.0);
    if |allLefts| > 0 || |allRights| > 0 {
      merged := Level(Highest(allLefts), Highest(allRights));
    }
  }

  /** The channel lists hold exactly the levels of the audible sources. */
  lemma LeftsRightsMembers(sources: seq<Source>)
    ensures forall x :: x in Lefts(sources) <==> exists s :: s in sources && Audible(Channels(s)) && Channels(s).left == x
    ensures forall x :: x in Rights(sources) <==> exists s :: s in sources && Audible(Channels(s)) && Channels(s).right == x
  {
    if |sources| > 0 {
      var init := sources[..|sources| - 1];
      LeftsRightsMembers(init);
      assert sources == init + [sources[|sources| - 1]];
    }
  }

  /**
   * The merged level bounds every audible source's channels, each channel is reached by an
   * audible source, it is `{0, 0}` when no source is audible, and it is audible exactly when
   * some source is.
   */
  lemma MergedLevelIsMaximum(sources: seq<Source>)
    ensures forall s :: s in sources && Audible(Channels(s)) ==>
      Channels(s).left <= MergedLevel(sources).left && Channels(s).right <= MergedLevel(sources).right
    ensures (exists s :: s in sources && Audible(Channels(s))) ==>
      (exists s :: s in sources && Audible(Channels(s)) && Channels(s).left == MergedLevel(sources).left)
      && (exists s :: s in sources && Audible(Channels(s)) && Channels(s).right == MergedLevel(sources).right)
    ensures (forall s :: s in sources ==> !Audible(Channels(s))) ==> MergedLevel(sources) == Level(0.0, 0.0)
    ensures Audible(MergedLevel(sources)) <==> exists s :: s in sources && Audible(Channels(s))
  {
    LeftsRightsMembers(sources);
    forall s | s in sources && Audible(Channels(s))
      ensures Channels(s).left <= MergedLevel(sources).left && Channels(s).right <= MergedLevel(sources).right
    {
      assert Channels(s).left in Lefts(sources);
      assert Channels(s).right in Rights(sources);
    }
    if exists s :: s in sources && Audible(Channels(s)) {
      var s :| s in sources && Audible(Channels(s));
      assert Channels(s).left in Lefts(sources);
    } else if |Lefts(sources)| > 0 {
      assert Lefts(sources)[0] in Lefts(sources);
    }
  }

  /** Two sources at {0.2, 0.1} and {0.5, 0.05} merge to {0.5, 0.1}. */
  lemma MergedLevelExample()
    ensures MergedLevel([Source("a", "", false, Some(Level(0.2, 0.1)), Level(0.0, 0.0)),
                         Source("b", "", false, Some(Level(0.5, 0.05)), Level(0.0, 0.0))]) == Level(0.5, 0.1)
  {
    var a := Source("a", "", false, Some(Level(0.2, 0.1)), Level(0.0, 0.0));
    var b := Source("b", "", false, Some(Level(0.5, 0.05)), Level(0.0, 0.0));
    assert [a, b][..1] == [a];
    assert [a][..0] == [];
    assert Lefts([a, b]) == [0.2, 0.5];
    assert Rights([a, b]) == [0.1, 0.05];
  }

  // ---------------------------------------------------------------------------------------
  // Output-video merge (getPlayingOutputVideos)
  // ---------------------------------------------------------------------------------------

  /** A list element is the output-window counterpart of the video `id`. */
  predicate IsOutputOf(a: Source, id: string)
  {
    a.id == id && a.location == "output"
  }

  /** `allAudio.findIndex((a) => a.id === id && a.location === "output")`. */
  function MatchIndex(all: seq<Source>, id: string): (i: int)
    ensures -1 <= i < |all|
    ensures i >= 0 ==> IsOutputOf(all[i], id) && forall k :: 0 <= k < i ==> !IsOutputOf(all[k], id)
    ensures i == -1 <==> forall k :: 0 <= k < |all| ==> !IsOutputOf(all[k], id)
  {
    if |all| == 0 then -1
    else if IsOutputOf(all[0], id) then 0
    else
      var j := MatchIndex(all[1..], id);
      if j == -1 then -1 else j + 1
  }

  /**
   * One video merged into the list: splice it out, overwrite its channels, append it, or
   * ignore it. The list changes by at most one element.
   */
  function MergeVideo(all: seq<Source>, v: Source): (r: seq<Source>)
    ensures |all| - 1 <= |r| <= |all| + 1
  {
    var existing := MatchIndex(all, v.id);
    if existing > -1 then
      if v.paused then all[..existing] + all[existing + 1..]
      else all[existing := all[existing].(channels := v.channels)]
    else if v.paused then all
    else all + [v]
  }

  /** The videos playing in the output window, in their order. */
  function OutputVideos(videos: seq<Source>): (r: seq<Source>)
    ensures forall v :: v in r <==> v in videos && v.location == "output"
  {
    if |videos| == 0 then []
    else OutputVideos(videos[..|videos| - 1])
         + (if videos[|videos| - 1].location == "output" then [videos[|videos| - 1]] else [])
  }

  /** The list after the output videos `vs` have been merged in order: each changes its length by at most one. */
  function MergeVideos(all: seq<Source>, vs: seq<Source>): (r: seq<Source>)
    ensures |all| - |vs| <= |r| <= |all| + |vs|
  {
    if |vs| == 0 then all
    else MergeVideo(MergeVideos(all, vs[..|vs| - 1]), vs[|vs| - 1])
  }

  /** The callback of `outputVideos.map`: merge one output video into the list. */
  method MergeOutputVideo(all: seq<Source>, v: Source) returns (r: seq<Source>)
    ensures r == MergeVideo(all, v)
  {
    r := all;
    var existing := MatchIndex(r, v.id);
    if existing > -1 {
      if v.paused {
        r := r[..existing] + r[existing + 1..];
        return;
      }
      r := r[existing := r[existing].(channels := v.channels)];
      return;
    }
    if v.paused {
      return;
    }
    r := r + [v];
  }

  /** `getPlayingOutputVideos`: merge each output video into the list, in order. */
  method GetPlayingOutputVideos(allAudio: seq<Source>, playingVideos: seq<Source>) returns (r: seq<Source>)
    ensures r == MergeVideos(allAudio, OutputVideos(playingVideos))
  {
    var outputVideos: seq<Source> := [];
    for i := 0 to |playingVideos|
      invariant outputVideos == OutputVideos(playingVideos[..i])
    {
      assert playingVideos[..i + 1][..i] == playingVideos[..i];
      if playingVideos[i].location == "output" {
        outputVideos := outputVideos + [playingVideos[i]];
      }
    }
    assert playingVideos[..|playingVideos|] == playingVideos;
    r := allAudio;
    if |outputVideos| == 0 {
      return;
    }
    for i := 0 to |outputVideos|
      invariant r == MergeVideos(allAudio, outputVideos[..i])
    {
      assert outputVideos[..i + 1][..i] == outputVideos[..i];
      r := MergeOutputVideo(r, outputVideos[i]);
    }
    assert outputVideos[..|outputVideos|] == outputVideos;
  }

  /** The list elements that are not the output counterpart of the video `id`, in order. */
  function Others(all: seq<Source>, id: string): (r: seq<Source>)
    ensures |r| <= |all|
    ensures forall x :: x in r <==> x in all && !IsOutputOf(x, id)
  {
    if |all| == 0 then []
    else
      assert all == [all[0]] + all[1..];
      (if IsOutputOf(all[0], id) then [] else [all[0]]) + Others(all[1..], id)
  }

  lemma {:induction false} OthersAppend(a: seq<Source>, b: seq<Source>, id: string)
    ensures Others(a + b, id) == Others(a, id) + Others(b, id)
  {
    if |a| > 0 {
      assert (a + b)[1..] == a[1..] + b;
      OthersAppend(a[1..], b, id);
    } else {
      assert a + b == b;
    }
  }

  lemma OthersSplit(all: seq<Source>, i: nat, id: string)
    requires i < |all| && IsOutputOf(all[i], id)
    ensures Others(all, id) == Others(all[..i], id) + Others(all[i + 1..], id)
  {
    assert all == all[..i] + ([all[i]] + all[i + 1..]);
    OthersAppend(all[..i], [all[i]] + all[i + 1..], id);
    OthersAppend([all[i]], all[i + 1..], id);
  }

  /**
   * Merging an output video never touches the other elements: the elements that are not its
   * output counterpart stay, in order. In the four cases, a present counterpart is removed
   * (paused) or gets the video's channels (playing); an absent one is appended (playing) or
   * nothing happens (paused).
   */
  lemma MergeVideoEffect(all: seq<Source>, v: Source)
    requires v.location == "output"
    ensures Others(MergeVideo(all, v), v.id) == Others(all, v.id)
    ensures var i := MatchIndex(all, v.id);
      && (i >= 0 && v.paused ==> |MergeVideo(all, v)| == |all| - 1)
      && (i >= 0 && !v.paused ==>
            |MergeVideo(all, v)| == |all| && MergeVideo(all, v)[i] == all[i].(channels := v.channels))
      && (i == -1 && !v.paused ==> MergeVideo(all, v) == all + [v])
      && (i == -1 && v.paused ==> MergeVideo(all, v) == all)
      && (i >= 0 ==> all[..i] <= MergeVideo(all, v))
  {
    var i := MatchIndex(all, v.id);
    var r := MergeVideo(all, v);
    if i >= 0 {
      OthersSplit(all, i, v.id);
      if v.paused {
        OthersAppend(all[..i], all[i + 1..], v.id);
      } else {
        OthersSplit(r, i, v.id);
        assert r[..i] == all[..i];
        assert r[i + 1..] == all[i + 1..];
      }
    } else if !v.paused {
      OthersAppend(all, [v], v.id);
      assert Others([v], v.id) == [];
    }
  }

  /** Merging the same playing output video twice is the same as merging it once. */
  lemma MergeVideoIdempotent(all: seq<Source>, v: Source)
    requires v.location == "output" && !v.paused
    ensures MergeVideo(MergeVideo(all, v), v) == MergeVideo(all, v)
  {
    var r := MergeVideo(all, v);
    var i := MatchIndex(all, v.id);
    if i >= 0 {
      assert forall k :: 0 <= k < i ==> r[k] == all[k];
      assert IsOutputOf(r[i], v.id);
      assert MatchIndex(r, v.id) == i;
    } else {
      assert r[|all|] == v;
      assert forall k :: 0 <= k < |all| ==> r[k] == all[k];
      assert MatchIndex(r, v.id) == |all|;
    }
  }

  /** After a playing output video is merged, the list holds its counterpart with the video's channels. */
  lemma MergedVideoPresent(all: seq<Source>, v: Source)
    requires v.location == "output" && !v.paused
    ensures MatchIndex(MergeVideo(all, v), v.id) >= 0
    ensures MergeVideo(all, v)[MatchIndex(MergeVideo(all, v), v.id)].channels == v.channels
  {
    MergeVideoIdempotent(all, v);
    var r := MergeVideo(all, v);
    var i := MatchIndex(all, v.id);
    if i >= 0 {
      assert forall k :: 0 <= k < i ==> r[k] == all[k];
      assert IsOutputOf(r[i], v.id);
      assert MatchIndex(r, v.id) == i;
    } else {
      assert r[|all|] == v;
      assert forall k :: 0 <= k < |all| ==> r[k] == all[k];
      assert MatchIndex(r, v.id) == |all|;
    }
  }
}
