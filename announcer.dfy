/**
  The background worker of the announcer. Its one piece of lasting state is the
  artist key it last announced; the device's volume is changed only through
  commands, which are recorded in order in `volumeLog`.
*/
module Announcer {
  import opened Wrappers
  import opened Volume
  import opened Playback

  /** What one loop iteration did: the text it spoke to the end, if any, and how long it then slept. */
  datatype Outcome = Outcome(spoken: Option<string>, sleepMs: int)

  /**
    The sleep after the status line. Formatting it reads the item's `name` key and
    the artist key; both come from the loop's local variables, which keep the
    values of an earlier iteration when this one did not bind them. A missing key
    or an unbound variable raises, and the handler sleeps 10 s instead of 1 s.
  */
  function StatusSleep(track: Option<Item>, artist: Option<string>): (ms: int)
    ensures ms == ListenSleepMs <==> track.Some? && track.value.name.Some? && artist.Some?
    ensures ms == ListenSleepMs || ms == ErrorSleepMs
  {
    if track.Some? && track.value.name.Some? && artist.Some? then ListenSleepMs else ErrorSleepMs
  }

  /** The volume commands one iteration sends. */
  function IssuedCommands(d: Decision, reply: Reply, playOk: bool): (r: seq<int>)
    ensures !d.Announce? ==> r == []
    ensures forall i :: 0 <= i < |r| ==> 1 <= r[i] <= 100
    ensures Completes(d, reply, playOk) ==>
      |r| == 2 * (FadeSteps + 1) && r[|r| - 1] == reply.snapshot.volumePercent.value
  {
    if d.Announce? && reply.Current? && reply.snapshot.volumePercent.Some? then
      var v := reply.snapshot.volumePercent.value;
      var played := Completes(d, reply, playOk);
      assert forall i :: 0 <= i < |AnnouncementCommands(v, played)| ==> 1 <= AnnouncementCommands(v, played)[i] <= 100 by {
        AnnouncementRestoresVolume(v, played);
      }
      AnnouncementCommands(v, played)
    else []
  }

  /** The volume commands a sequence of polls sends, in order. */
  function IssuedAll(cfg: Config, previous: Option<string>, polls: seq<Observation>): (r: seq<int>)
    ensures forall i :: 0 <= i < |r| ==> 1 <= r[i] <= 100
    ensures (forall i :: 0 <= i < |polls| ==> !PlayingTrack(polls[i].reply)) ==> r == []
    decreases |polls|
  {
    if polls == [] then []
    else
      assert forall i :: 0 <= i < |polls[1..]| ==> polls[1..][i] == polls[i + 1];
      IssuedCommands(Decide(cfg, previous, polls[0].reply), polls[0].reply, polls[0].playOk)
      + IssuedAll(cfg, PreviousAfter(cfg, previous, polls[0]), polls[1..])
  }

  /** The loop's `track` after one poll: rebound to the item whenever an item is playing. */
  function TrackAfter(track: Option<Item>, reply: Reply): (next: Option<Item>)
    ensures next != track ==> reply.Current? && reply.snapshot.isPlaying && next == reply.snapshot.item && next.Some?
    ensures reply.Current? && reply.snapshot.isPlaying && reply.snapshot.item.Some? ==> next == reply.snapshot.item
  {
    if reply.Current? && reply.snapshot.item.Some? && reply.snapshot.isPlaying then reply.snapshot.item else track
  }

  /** The loop's `artist` after one poll: rebound to the artist key whenever a track is playing. */
  function ArtistAfter(artist: Option<string>, reply: Reply): (next: Option<string>)
    ensures next != artist ==> PlayingTrack(reply)
    ensures PlayingTrack(reply) ==> next == Some(ArtistKey(reply.snapshot.item.value.artists))
  {
    if PlayingTrack(reply) then Some(ArtistKey(reply.snapshot.item.value.artists)) else artist
  }

  /** `track` after a sequence of polls. */
  function TrackAfterAll(track: Option<Item>, polls: seq<Observation>): (last: Option<Item>)
    ensures track.Some? ==> last.Some?
  {
    if polls == [] then track
    else TrackAfter(TrackAfterAll(track, polls[..|polls| - 1]), polls[|polls| - 1].reply)
  }

  /** `artist` after a sequence of polls. */
  function ArtistAfterAll(artist: Option<string>, polls: seq<Observation>): (last: Option<string>)
    ensures artist.Some? ==> last.Some?
  {
    if polls == [] then artist
    else ArtistAfter(ArtistAfterAll(artist, polls[..|polls| - 1]), polls[|polls| - 1].reply)
  }

  /**
    The sleep that ends an iteration: 10 s after an error, 5 s without playback
    or for a non-track, the end-mode wait, and otherwise the status line's sleep,
    read with the `track` and `artist` the iteration leaves behind.
  */
  function SleepAfter(d: Decision, completes: bool, track: Option<Item>, artist: Option<string>): (ms: int)
    ensures d.NotYet? ==> ms == d.sleepMs
    ensures !d.NotYet? ==> ms == ListenSleepMs || ms == IdleSleepMs || ms == ErrorSleepMs
    ensures ms == IdleSleepMs <==> d.NoPlayback? || d.NotATrack? || (d.NotYet? && d.sleepMs == IdleSleepMs)
  {
    match d
    case ServiceFailure => ErrorSleepMs
    case NoPlayback => IdleSleepMs
    case NotATrack => IdleSleepMs
    case NotYet(ms) => ms
    case NotPlaying => StatusSleep(track, artist)
    case SameArtist(_) => StatusSleep(track, artist)
    case Announce(_, _) => if completes then StatusSleep(track, artist) else ErrorSleepMs
  }

  /**
    What an iteration that decided `d` reports: it speaks exactly when the
    announcement completes, only a member of the option list, and then sleeps
    as SleepAfter says.
  */
  predicate OutcomeMatches(d: Decision, obs: Observation, track: Option<Item>, artist: Option<string>, out: Outcome)
  {
    && (out.spoken.Some? <==> Completes(d, obs.reply, obs.playOk))
    && (out.spoken.Some? ==> d.Announce? && out.spoken.value in d.options)
    && out.sleepMs == SleepAfter(d, Completes(d, obs.reply, obs.playOk), track, artist)
  }

  /** A playing track that is not waiting for the end window is either announced or recognised as the same artist. */
  lemma ReadyDecision(cfg: Config, previous: Option<string>, reply: Reply)
    requires PlayingTrack(reply) && (cfg.announceAtStart || RemainingMs(reply.snapshot) <= EndWindowMs)
    ensures var item := reply.snapshot.item.value; var key := ArtistKey(item.artists);
      Decide(cfg, previous, reply)
      == if previous == Some(key) then SameArtist(key) else Announce(key, Phrasings(cfg, key, AlbumTitle(item.album), SongTitle(item.name)))
  {
  }

  /**
    Below volume 10 the announcement volume is not a real number, so speaking
    always fails after the fade-out: the artist stays unannounced and the device
    is left at the reduced volume, strictly lower than before from volume 2 up.
  */
  lemma QuietDeviceNeverAnnounces(cfg: Config, previous: Option<string>, reply: Reply, playOk: bool)
    requires reply.Current? && reply.snapshot.volumePercent.Some? && reply.snapshot.volumePercent.value < 10
    requires Decide(cfg, previous, reply).Announce?
    ensures PreviousAfter(cfg, previous, Observation(reply, playOk)) == previous
    ensures var v := reply.snapshot.volumePercent.value;
      var r := IssuedCommands(Decide(cfg, previous, reply), reply, playOk);
      r == FadeCommands(v, ReducedVolume(v)) && r[|r| - 1] == ReducedVolume(v) && (v >= 2 ==> r[|r| - 1] < v)
  {
    var v := reply.snapshot.volumePercent.value;
    assert AnnouncementCommands(v, false) == FadeCommands(v, ReducedVolume(v));
  }

  class AnnouncementThread {
    const config: Config
    /** The artist key last announced (`previous_artist`). */
    var previousArtist: Option<string>
    /** Every volume command sent to the device, oldest first. */
    var volumeLog: seq<int>
    /** The loop's locals `track` and `artist`, which outlive the iteration that bound them. */
    var track: Option<Item>
    var artist: Option<string>

    constructor (includeSongTitles: bool, includeAlbumTitles: bool, announceAtStart: bool)
      ensures config == Config(includeSongTitles, includeAlbumTitles, announceAtStart)
      ensures previousArtist == None && volumeLog == []
      ensures track == None && artist == None
    {
      config := Config(includeSongTitles, includeAlbumTitles, announceAtStart);
      previousArtist := None;
      volumeLog := [];
      track := None;
      artist := None;
    }

    /** Fades the device from `spotifyVolume` to `targetVolume` in FadeSteps clamped steps and a final command. */
    method SmoothVolumeChange(spotifyVolume: Percent, targetVolume: Percent)
      modifies this
      ensures volumeLog == old(volumeLog) + FadeCommands(spotifyVolume, targetVolume)
      ensures previousArtist == old(previousArtist) && track == old(track) && artist == old(artist)
    {
      var ramp := seq(FadeSteps, i requires 0 <= i < FadeSteps => Clamp(StepVolume(spotifyVolume, targetVolume, i)));
      for step := 0 to FadeSteps
        invariant volumeLog == old(volumeLog) + ramp[..step]
        invariant previousArtist == old(previousArtist) && track == old(track) && artist == old(artist)
      {
        var newVolume := StepVolume(spotifyVolume, targetVolume, step);
        volumeLog := volumeLog + [Clamp(newVolume)];
        assert ramp[..step + 1] == ramp[..step] + [ramp[step]];
      }
      assert ramp[..FadeSteps] == ramp;
      volumeLog := volumeLog + [Clamp(targetVolume)];
    }

    /**
      Lowers the volume, speaks `announcement` and restores the volume. Speaking
      fails when synthesis or playback fails (`playOk` false) or when the
      announcement volume is not a real number; the fade back is then skipped.
    */
    method PlayAnnouncement(announcement: string, spotifyVolume: Percent, playOk: bool) returns (played: bool)
      modifies this
      ensures played == (playOk && AnnouncementVolumeIsReal(spotifyVolume))
      ensures volumeLog == old(volumeLog) + AnnouncementCommands(spotifyVolume, played)
      ensures previousArtist == old(previousArtist) && track == old(track) && artist == old(artist)
    {
      var reducedVolume := ReducedVolume(spotifyVolume);
      SmoothVolumeChange(spotifyVolume, reducedVolume);
      played := playOk && AnnouncementVolumeIsReal(spotifyVolume);
      if played {
        SmoothVolumeChange(reducedVolume, spotifyVolume);
      }
    }

    /** Builds the list the announcement is drawn from, by appending as the loop does. */
    method BuildOptions(artist: string, album: string, song: string) returns (options: seq<string>)
      ensures options == Phrasings(config, artist, album, song)
    {
      options := [];
      if config.includeAlbumTitles {
        options := options + [AlbumPhrase(artist, album)];
      }
      if config.includeSongTitles {
        options := options + [SongPhrase(artist, song)];
      }
      if options == [] {
        options := options + [BarePhrase(artist)];
      }
    }

    /** One iteration of the announcement loop, given the query's reply. */
    method Poll(reply: Reply, playOk: bool) returns (out: Outcome)
      modifies this
      ensures OutcomeMatches(Decide(config, old(previousArtist), reply), Observation(reply, playOk), track, artist, out)
      ensures previousArtist == PreviousAfter(config, old(previousArtist), Observation(reply, playOk))
      ensures volumeLog == old(volumeLog) + IssuedCommands(Decide(config, old(previousArtist), reply), reply, playOk)
      ensures track == TrackAfter(old(track), reply) && artist == ArtistAfter(old(artist), reply)
    {
      ghost var d := Decide(config, previousArtist, reply);
      if reply.Raised? {
        assert d == ServiceFailure;
        return Outcome(None, ErrorSleepMs);
      }
      if reply.Nothing? || reply.snapshot.item.None? {
        assert d == NoPlayback;
        return Outcome(None, IdleSleepMs);
      }
      if !reply.snapshot.isPlaying {
        assert d == NotPlaying;
        return Outcome(None, StatusSleep(track, artist));
      }
      out := PollPlaying(reply, playOk);
    }

    /** The part of an iteration after the reply showed an item playing. */
    method PollPlaying(reply: Reply, playOk: bool) returns (out: Outcome)
      requires reply.Current? && reply.snapshot.item.Some? && reply.snapshot.isPlaying
      modifies this
      ensures OutcomeMatches(Decide(config, old(previousArtist), reply), Observation(reply, playOk), track, artist, out)
      ensures previousArtist == PreviousAfter(config, old(previousArtist), Observation(reply, playOk))
      ensures volumeLog == old(volumeLog) + IssuedCommands(Decide(config, old(previousArtist), reply), reply, playOk)
      ensures track == TrackAfter(old(track), reply) && artist == ArtistAfter(old(artist), reply)
    {
      ghost var d := Decide(config, previousArtist, reply);
      var playback := reply.snapshot;
      var item := playback.item.value;
      track := Some(item);
      if item.kind != TrackKind {
        assert d == NotATrack;
        return Outcome(None, IdleSleepMs);
      }
      var key := ArtistKey(item.artists);
      artist := Some(key);
      var album := AlbumTitle(item.album);
      var song := SongTitle(item.name);
      var remainingMs := item.durationMs - playback.progressMs;
      if !config.announceAtStart && remainingMs > EndWindowMs {
        assert d == NotYet(EndModeSleep(remainingMs));
        return Outcome(None, EndModeSleep(remainingMs));
      }
      ReadyDecision(config, previousArtist, reply);
      var spoken, raised := AnnounceIfNew(playback.volumePercent, playOk, key, album, song);
      if raised {
        return Outcome(None, ErrorSleepMs);
      }
      out := Outcome(spoken, StatusSleep(track, artist));
    }

    /**
      The announcement branch of an iteration that reached the artist
      comparison: when the artist key differs from the remembered one, it picks
      a phrasing, speaks it with the fades around it, and remembers the key.
      `raised` reports the exception that a null volume or a failed playback
      raises before the key is remembered.
    */
    method AnnounceIfNew(spotifyVolume: Option<Percent>, playOk: bool, key: string, album: string, song: string)
      returns (spoken: Option<string>, raised: bool)
      modifies this
      ensures var isNew := old(previousArtist) != Some(key);
        && (spoken.Some? <==> isNew && spotifyVolume.Some? && playOk && AnnouncementVolumeIsReal(spotifyVolume.value))
        && (spoken.Some? ==> spoken.value in Phrasings(config, key, album, song))
        && (raised <==> isNew && spoken.None?)
        && volumeLog == old(volumeLog) + (if isNew && spotifyVolume.Some? then AnnouncementCommands(spotifyVolume.value, spoken.Some?) else [])
      ensures previousArtist == if spoken.Some? then Some(key) else old(previousArtist)
      ensures track == old(track) && artist == old(artist)
    {
      spoken, raised := None, false;
      if previousArtist.None? || key != previousArtist.value {
        var options := BuildOptions(key, album, song);
        spoken, raised := Speak(options, spotifyVolume, playOk);
        if spoken.Some? {
          previousArtist := Some(key);
        }
      }
    }

    /**
      Picks one of `options` and plays it between the two fades. A null device
      volume raises before any command is sent, and a playback that does not
      complete raises after the fade-out; either way nothing is spoken.
    */
    method Speak(options: seq<string>, spotifyVolume: Option<Percent>, playOk: bool) returns (spoken: Option<string>, raised: bool)
      requires options != []
      modifies this
      ensures spoken.Some? <==> spotifyVolume.Some? && playOk && AnnouncementVolumeIsReal(spotifyVolume.value)
      ensures spoken.Some? ==> spoken.value in options
      ensures raised <==> spoken.None?
      ensures spotifyVolume.None? ==> volumeLog == old(volumeLog)
      ensures spotifyVolume.Some? ==> volumeLog == old(volumeLog) + AnnouncementCommands(spotifyVolume.value, spoken.Some?)
      ensures previousArtist == old(previousArtist) && track == old(track) && artist == old(artist)
    {
      assert options[0] in options;
      var announcement :| announcement in options;
      if spotifyVolume.None? {
        // the volume arithmetic raises on a null volume
        return None, true;
      }
      var played := PlayAnnouncement(announcement, spotifyVolume.value, playOk);
      if played {
        spoken, raised := Some(announcement), false;
      } else {
        spoken, raised := None, true;
      }
    }

    /** The loop `while running`, fed one observation per iteration. */
    method Run(polls: seq<Observation>) returns (outcomes: seq<Outcome>)
      modifies this
      ensures |outcomes| == |polls|
      ensures previousArtist == PreviousAfterAll(config, old(previousArtist), polls)
      ensures volumeLog == old(volumeLog) + IssuedAll(config, old(previousArtist), polls)
      ensures track == TrackAfterAll(old(track), polls) && artist == ArtistAfterAll(old(artist), polls)
      ensures SpokenCount(outcomes) == Announcements(config, old(previousArtist), polls)
      ensures forall i :: 0 <= i < |polls| ==>
        OutcomeMatches(Decide(config, PreviousAfterAll(config, old(previousArtist), polls[..i]), polls[i].reply), polls[i],
                       TrackAfterAll(old(track), polls[..i + 1]), ArtistAfterAll(old(artist), polls[..i + 1]), outcomes[i])
    {
      ghost var start := RunState(previousArtist, track, artist, volumeLog);
      outcomes := [];
      assert polls[0..] == polls;
      for i := 0 to |polls|
        invariant FieldsAfter(config, start, polls, i, RunState(previousArtist, track, artist, volumeLog))
        invariant SpokenAfter(config, start, polls, RunState(previousArtist, track, artist, volumeLog), outcomes)
        invariant LogAfter(config, start, polls, i, RunState(previousArtist, track, artist, volumeLog))
        invariant OutcomesAfter(config, start, polls, outcomes)
        invariant |outcomes| == i
      {
        ghost var before := RunState(previousArtist, track, artist, volumeLog);
        var out := Poll(polls[i].reply, polls[i].playOk);
        ghost var after := RunState(previousArtist, track, artist, volumeLog);
        FieldsStep(config, start, polls, i, before, after);
        SpokenStep(config, start, polls, before, outcomes, after, out);
        LogStep(config, start, polls, i, before, after);
        OutcomesStep(config, start, polls, before, outcomes, after, out);
        outcomes := outcomes + [out];
      }
      assert polls[..|polls|] == polls;
      assert polls[|polls|..] == [];
      OutcomesAfterEach(config, start, polls, outcomes);
    }
  }

  /** The fields of the thread that polling changes. */
  datatype RunState = RunState(previousArtist: Option<string>, track: Option<Item>, artist: Option<string>, volumeLog: seq<int>)

  /** The remembered artist and the loop locals after the first `i` polls of a run that started in `start`. */
  ghost predicate FieldsAfter(cfg: Config, start: RunState, polls: seq<Observation>, i: nat, now: RunState)
  {
    && i <= |polls|
    && now.previousArtist == PreviousAfterAll(cfg, start.previousArtist, polls[..i])
    && now.track == TrackAfterAll(start.track, polls[..i])
    && now.artist == ArtistAfterAll(start.artist, polls[..i])
  }

  /** What is spoken so far, plus what the remaining polls speak, is the run's total. */
  ghost predicate SpokenAfter(cfg: Config, start: RunState, polls: seq<Observation>, now: RunState, outcomes: seq<Outcome>)
  {
    && |outcomes| <= |polls|
    && SpokenCount(outcomes) + Announcements(cfg, now.previousArtist, polls[|outcomes|..])
       == Announcements(cfg, start.previousArtist, polls)
  }

  /** What is commanded so far, followed by what the remaining polls command, is the run's whole log. */
  ghost predicate LogAfter(cfg: Config, start: RunState, polls: seq<Observation>, i: nat, now: RunState)
  {
    && i <= |polls|
    && now.volumeLog + IssuedAll(cfg, now.previousArtist, polls[i..])
       == start.volumeLog + IssuedAll(cfg, start.previousArtist, polls)
  }

  /** Outcome `out` is the one poll `k` of the run calls for. */
  ghost predicate MatchesAt(cfg: Config, start: RunState, polls: seq<Observation>, k: nat, out: Outcome)
    requires k < |polls|
  {
    OutcomeMatches(Decide(cfg, PreviousAfterAll(cfg, start.previousArtist, polls[..k]), polls[k].reply), polls[k],
                   TrackAfterAll(start.track, polls[..k + 1]), ArtistAfterAll(start.artist, polls[..k + 1]), out)
  }

  /** Every outcome so far is the one its poll calls for. */
  ghost predicate OutcomesAfter(cfg: Config, start: RunState, polls: seq<Observation>, outcomes: seq<Outcome>)
  {
    && |outcomes| <= |polls|
    && (outcomes != [] ==>
          && OutcomesAfter(cfg, start, polls, outcomes[..|outcomes| - 1])
          && MatchesAt(cfg, start, polls, |outcomes| - 1, outcomes[|outcomes| - 1]))
  }

  /** `OutcomesAfter` holds outcome by outcome. */
  lemma {:induction false} OutcomesAfterEach(cfg: Config, start: RunState, polls: seq<Observation>, outcomes: seq<Outcome>)
    requires OutcomesAfter(cfg, start, polls, outcomes)
    ensures forall k :: 0 <= k < |outcomes| ==> MatchesAt(cfg, start, polls, k, outcomes[k])
  {
    if outcomes != [] {
      var front := outcomes[..|outcomes| - 1];
      OutcomesAfterEach(cfg, start, polls, front);
      assert forall k :: 0 <= k < |front| ==> front[k] == outcomes[k];
    }
  }

  lemma FieldsStep(cfg: Config, start: RunState, polls: seq<Observation>, i: nat, before: RunState, after: RunState)
    requires FieldsAfter(cfg, start, polls, i, before) && i < |polls|
    requires after.previousArtist == PreviousAfter(cfg, before.previousArtist, polls[i])
    requires after.track == TrackAfter(before.track, polls[i].reply) && after.artist == ArtistAfter(before.artist, polls[i].reply)
    ensures FieldsAfter(cfg, start, polls, i + 1, after)
  {
    PreviousAfterAllAppend(cfg, start.previousArtist, polls[..i], polls[i]);
    assert polls[..i + 1] == polls[..i] + [polls[i]];
    LocalsStep(polls, i, start.track, start.artist);
  }

  lemma SpokenStep(cfg: Config, start: RunState, polls: seq<Observation>, before: RunState, outcomes: seq<Outcome>,
                   after: RunState, out: Outcome)
    requires SpokenAfter(cfg, start, polls, before, outcomes) && |outcomes| < |polls|
    requires var obs := polls[|outcomes|];
      && (out.spoken.Some? <==> Completes(Decide(cfg, before.previousArtist, obs.reply), obs.reply, obs.playOk))
      && after.previousArtist == PreviousAfter(cfg, before.previousArtist, obs)
    ensures SpokenAfter(cfg, start, polls, after, outcomes + [out])
  {
    AnnouncementsStep(cfg, before.previousArtist, polls, |outcomes|);
    SpokenCountAppend(outcomes, out);
  }

  lemma LogStep(cfg: Config, start: RunState, polls: seq<Observation>, i: nat, before: RunState, after: RunState)
    requires LogAfter(cfg, start, polls, i, before) && i < |polls|
    requires after.previousArtist == PreviousAfter(cfg, before.previousArtist, polls[i])
    requires after.volumeLog
             == before.volumeLog + IssuedCommands(Decide(cfg, before.previousArtist, polls[i].reply), polls[i].reply, polls[i].playOk)
    ensures LogAfter(cfg, start, polls, i + 1, after)
  {
    var issued := IssuedCommands(Decide(cfg, before.previousArtist, polls[i].reply), polls[i].reply, polls[i].playOk);
    var rest := IssuedAll(cfg, after.previousArtist, polls[i + 1..]);
    IssuedAllStep(cfg, before.previousArtist, polls, i);
    Reassociate(before.volumeLog, issued, rest);
  }

  lemma Reassociate(a: seq<int>, b: seq<int>, c: seq<int>)
    ensures (a + b) + c == a + (b + c)
  {
  }

  lemma OutcomesStep(cfg: Config, start: RunState, polls: seq<Observation>, before: RunState, outcomes: seq<Outcome>,
                     after: RunState, out: Outcome)
    requires OutcomesAfter(cfg, start, polls, outcomes) && |outcomes| < |polls|
    requires FieldsAfter(cfg, start, polls, |outcomes|, before) && FieldsAfter(cfg, start, polls, |outcomes| + 1, after)
    requires OutcomeMatches(Decide(cfg, before.previousArtist, polls[|outcomes|].reply), polls[|outcomes|],
                            after.track, after.artist, out)
    ensures OutcomesAfter(cfg, start, polls, outcomes + [out])
  {
    assert (outcomes + [out])[..|outcomes|] == outcomes;
  }

  /** `IssuedAll` of the polls from `i` on, unfolded by one poll. */
  lemma IssuedAllStep(cfg: Config, previous: Option<string>, polls: seq<Observation>, i: nat)
    requires i < |polls|
    ensures IssuedAll(cfg, previous, polls[i..])
            == IssuedCommands(Decide(cfg, previous, polls[i].reply), polls[i].reply, polls[i].playOk)
               + IssuedAll(cfg, PreviousAfter(cfg, previous, polls[i]), polls[i + 1..])
  {
    assert polls[i..][1..] == polls[i + 1..];
  }

  /** `Announcements` of the polls from `i` on, unfolded by one poll. */
  lemma AnnouncementsStep(cfg: Config, previous: Option<string>, polls: seq<Observation>, i: nat)
    requires i < |polls|
    ensures Announcements(cfg, previous, polls[i..])
            == (if Completes(Decide(cfg, previous, polls[i].reply), polls[i].reply, polls[i].playOk) then 1 else 0)
               + Announcements(cfg, PreviousAfter(cfg, previous, polls[i]), polls[i + 1..])
  {
    assert polls[i..][1..] == polls[i + 1..];
  }

  /** `TrackAfterAll` and `ArtistAfterAll` of the first `i + 1` polls, unfolded by the last one. */
  lemma LocalsStep(polls: seq<Observation>, i: nat, track: Option<Item>, artist: Option<string>)
    requires i < |polls|
    ensures TrackAfterAll(track, polls[..i + 1]) == TrackAfter(TrackAfterAll(track, polls[..i]), polls[i].reply)
    ensures ArtistAfterAll(artist, polls[..i + 1]) == ArtistAfter(ArtistAfterAll(artist, polls[..i]), polls[i].reply)
  {
    assert polls[..i + 1][..i] == polls[..i];
  }

  /** How many outcomes spoke an announcement. */
  function SpokenCount(outcomes: seq<Outcome>): nat
  {
    if outcomes == [] then 0
    else SpokenCount(outcomes[..|outcomes| - 1]) + (if outcomes[|outcomes| - 1].spoken.Some? then 1 else 0)
  }

  lemma SpokenCountAppend(outcomes: seq<Outcome>, out: Outcome)
    ensures SpokenCount(outcomes + [out]) == SpokenCount(outcomes) + (if out.spoken.Some? then 1 else 0)
  {
    assert (outcomes + [out])[..|outcomes|] == outcomes;
  }
}
