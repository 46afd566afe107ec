/**
  What one poll of the streaming service returns, and the pure part of the
  announcement loop: the artist key, the album and song defaults, the list of
  phrasings, the classification of a poll and the effect of a sequence of polls
  on the remembered artist.
*/
module Playback {
  import opened Wrappers
  import opened Volume

  /** Which of the three options the user ticked when starting the loop. */
  datatype Config = Config(includeSongTitles: bool, includeAlbumTitles: bool, announceAtStart: bool)

  /** The `album` object of an item: null or empty, present without a `name` key, or named. */
  datatype Album = NoAlbum | Unnamed | Named(name: string)

  /**
    The `item` of a playback reply. `kind` is its `type` tag; `name` is None when
    the item has no `name` key.
  */
  datatype Item = Item(kind: string, artists: seq<string>, album: Album, name: Option<string>, durationMs: int)

  /** A reply that has content. `volumePercent` is the device's volume, or None when the service gives null. */
  datatype Snapshot = Snapshot(volumePercent: Option<Percent>, isPlaying: bool, item: Option<Item>, progressMs: int)

  /** One call of the current-playback query: it raised, returned nothing, or returned a snapshot. */
  datatype Reply = Raised | Nothing | Current(snapshot: Snapshot)

  /** One loop iteration's inputs: the reply and whether speech synthesis and playback go through. */
  datatype Observation = Observation(reply: Reply, playOk: bool)

  /** The outcome of classifying one poll. */
  datatype Decision =
    | ServiceFailure                                // the query raised
    | NoPlayback                                    // no reply or no item
    | NotPlaying                                    // an item, but paused
    | NotATrack                                     // an advertisement, an episode, ...
    | NotYet(sleepMs: int)                          // end mode, more than 10 s left
    | SameArtist(artistKey: string)                 // already announced
    | Announce(artistKey: string, options: seq<string>)

  const TrackKind := "track"
  const UnknownAlbum := "Unknown album"
  const UnknownSong := "Unknown song"

  /** Sleeps of the loop, in milliseconds. */
  const IdleSleepMs := 5000
  const ErrorSleepMs := 10000
  const ListenSleepMs := 1000
  /** End mode waits until at most this much of the track is left, and never sleeps longer than MaxWaitMs. */
  const EndWindowMs := 10000
  const MaxWaitMs := 5000

  /** The artist key: the artist names joined with ", ". */
  function ArtistKey(names: seq<string>): (key: string)
    ensures |names| == 1 ==> key == names[0]
    ensures |names| > 0 ==> names[0] <= key
  {
    if |names| == 0 then ""
    else if |names| == 1 then names[0]
    else names[0] + ", " + ArtistKey(names[1..])
  }

  /** The key ends with the last-listed artist's name. */
  lemma {:induction false} ArtistKeyEndsWithLast(names: seq<string>)
    requires names != []
    ensures var last := names[|names| - 1]; var key := ArtistKey(names);
      |last| <= |key| && key[|key| - |last|..] == last
  {
    if |names| > 1 {
      ArtistKeyEndsWithLast(names[1..]);
    }
  }

  /** Joining two non-empty lists of names puts one separator between their keys. */
  lemma {:induction false} ArtistKeyAppend(a: seq<string>, b: seq<string>)
    requires a != [] && b != []
    ensures ArtistKey(a + b) == ArtistKey(a) + ", " + ArtistKey(b)
  {
    if |a| == 1 {
      assert (a + b)[1..] == b;
    } else {
      assert (a + b)[1..] == a[1..] + b;
      ArtistKeyAppend(a[1..], b);
    }
  }

  /** The key does not tell one artist whose name has a comma from two artists. */
  lemma ArtistKeyIsNotInjective()
    ensures ArtistKey(["A, B"]) == ArtistKey(["A", "B"])
  {
    var two := ["A", "B"];
    assert two[1..] == ["B"];
    assert ArtistKey(two) == "A" + ", " + "B";
  }

  /** The album text: the album's name whenever it has a `name` key, otherwise "Unknown album". */
  function AlbumTitle(album: Album): (title: string)
    ensures album.Named? ==> title == album.name
    ensures title != UnknownAlbum ==> album.Named?
  {
    match album
    case Named(n) => n
    case _ => UnknownAlbum
  }

  /** The song text: the item's name unless it is missing or empty, so never empty. */
  function SongTitle(name: Option<string>): (title: string)
    ensures title != ""
    ensures title != UnknownSong ==> name == Some(title)
    ensures name.None? || name == Some("") ==> title == UnknownSong
  {
    if name.Some? && name.value != "" then name.value else UnknownSong
  }

  /** "{artist}, from the album {album}." */
  function AlbumPhrase(artist: string, album: string): (phrase: string)
    ensures |phrase| == |artist| + |album| + 18
    ensures artist <= phrase && phrase[|artist|] == ',' && phrase[|phrase| - 1] == '.'
  {
    artist + ", from the album " + album + "."
  }

  /** "{artist}. {song}." */
  function SongPhrase(artist: string, song: string): (phrase: string)
    ensures |phrase| == |artist| + |song| + 3
    ensures artist <= phrase && phrase[|artist|] == '.' && phrase[|phrase| - 1] == '.'
  {
    artist + ". " + song + "."
  }

  /** "{artist}." */
  function BarePhrase(artist: string): (phrase: string)
    ensures artist <= phrase && |phrase| == |artist| + 1 && phrase[|artist|] == '.'
  {
    artist + "."
  }

  /** The three phrasings of one artist are always distinct. */
  lemma PhrasesDiffer(artist: string, album: string, song: string)
    ensures AlbumPhrase(artist, album) != SongPhrase(artist, song)
    ensures AlbumPhrase(artist, album) != BarePhrase(artist)
    ensures SongPhrase(artist, song) != BarePhrase(artist)
  {
    assert AlbumPhrase(artist, album)[|artist|] == ',';
    assert SongPhrase(artist, song)[|artist|] == '.';
    assert BarePhrase(artist)[|artist|] == '.';
  }

  /**
    The list the announcement is drawn from: the album phrasing when album
    titles are on, then the song phrasing when song titles are on, and the bare
    artist phrasing when neither is.
  */
  function Phrasings(cfg: Config, artist: string, album: string, song: string): (options: seq<string>)
    ensures options != [] && |options| <= 2
    ensures AlbumPhrase(artist, album) in options <==> cfg.includeAlbumTitles
    ensures SongPhrase(artist, song) in options <==> cfg.includeSongTitles
    ensures options == [BarePhrase(artist)] <==> !cfg.includeAlbumTitles && !cfg.includeSongTitles
    ensures BarePhrase(artist) in options <==> !cfg.includeAlbumTitles && !cfg.includeSongTitles
    ensures forall s :: s in options ==> s in [AlbumPhrase(artist, album), SongPhrase(artist, song), BarePhrase(artist)]
  {
    PhrasesDiffer(artist, album, song);
    var withAlbum := if cfg.includeAlbumTitles then [AlbumPhrase(artist, album)] else [];
    var withSong := withAlbum + (if cfg.includeSongTitles then [SongPhrase(artist, song)] else []);
    if withSong == [] then [BarePhrase(artist)] else withSong
  }

  /** Milliseconds of the current item still to play. */
  function RemainingMs(s: Snapshot): (ms: int)
    requires s.item.Some?
  {
    s.item.value.durationMs - s.progressMs
  }

  /**
    The integer comparison with the 10000 ms window decides the same as the
    comparison of the seconds `remaining_time` with 10.
  */
  lemma RemainingBeyondWindow(s: Snapshot)
    requires s.item.Some?
    ensures RemainingMs(s) > EndWindowMs <==> ((s.item.value.durationMs - s.progressMs) as real) / 1000.0 > 10.0
  {
  }

  /** End mode's wait: `min(remaining - 10 s, 5 s)`. */
  function EndModeSleep(remainingMs: int): (ms: int)
    requires remainingMs > EndWindowMs
    ensures 0 < ms <= MaxWaitMs
    ensures ms <= remainingMs - EndWindowMs
    ensures ms == MaxWaitMs || remainingMs - ms == EndWindowMs
  {
    if remainingMs - EndWindowMs < MaxWaitMs then remainingMs - EndWindowMs else MaxWaitMs
  }

  /** A reply that holds a playing item of type "track". */
  predicate PlayingTrack(reply: Reply)
  {
    reply.Current? && reply.snapshot.item.Some? && reply.snapshot.isPlaying && reply.snapshot.item.value.kind == TrackKind
  }

  /**
    Classifies one poll, given the remembered artist key: the branches of one
    iteration of the announcement loop up to the point where it speaks.
  */
  function Decide(cfg: Config, previous: Option<string>, reply: Reply): (d: Decision)
    ensures d.Announce? || d.SameArtist? || d.NotYet? <==> PlayingTrack(reply)
    ensures (d.Announce? || d.SameArtist?) ==> d.artistKey == ArtistKey(reply.snapshot.item.value.artists)
    ensures d.Announce? ==> previous != Some(d.artistKey)
    ensures d.SameArtist? ==> previous == Some(d.artistKey)
    ensures d.Announce? ==> d.options != []
    ensures d.NotYet? ==> !cfg.announceAtStart && 0 < d.sleepMs <= MaxWaitMs
    ensures d.NotYet? ==> RemainingMs(reply.snapshot) > EndWindowMs
    ensures d.NotYet? ==> d.sleepMs <= RemainingMs(reply.snapshot) - EndWindowMs
  {
    match reply
    case Raised => ServiceFailure
    case Nothing => NoPlayback
    case Current(s) =>
      if s.item.None? then NoPlayback
      else if !s.isPlaying then NotPlaying
      else if s.item.value.kind != TrackKind then NotATrack
      else
        var track := s.item.value;
        var key := ArtistKey(track.artists);
        if !cfg.announceAtStart && RemainingMs(s) > EndWindowMs then NotYet(EndModeSleep(RemainingMs(s)))
        else if previous.Some? && key == previous.value then SameArtist(key)
        else Announce(key, Phrasings(cfg, key, AlbumTitle(track.album), SongTitle(track.name)))
  }

  /**
    Speaking to the end completes: the decision was to announce, the device
    reported a volume (a null one makes the volume arithmetic raise), synthesis
    and playback went through, and the announcement volume is a real number,
    which `((v / 100) - 0.1) ** 2.5` is only from v = 10 up.
  */
  predicate Completes(d: Decision, reply: Reply, playOk: bool)
    ensures Completes(d, reply, playOk) ==>
      d.Announce? && playOk && reply.Current? && reply.snapshot.volumePercent.Some? && reply.snapshot.volumePercent.value >= 10
    ensures (d.Announce? && playOk && reply.Current? && reply.snapshot.volumePercent.Some? &&
             reply.snapshot.volumePercent.value >= 10) ==> Completes(d, reply, playOk)
  {
    d.Announce? && reply.Current? && reply.snapshot.volumePercent.Some? &&
    playOk && AnnouncementVolumeIsReal(reply.snapshot.volumePercent.value)
  }

  /**
    The announcement volume `((v / 100) - 0.1) ** 2.5` is a real number exactly
    when its base is not negative; a negative base gives Python a complex number.
  */
  predicate AnnouncementVolumeIsReal(v: Percent)
    ensures AnnouncementVolumeIsReal(v) <==> v >= 10
  {
    (v as real) / 100.0 - 0.1 >= 0.0
  }

  /** The remembered artist after one poll: the announced key, and nothing else, replaces it. */
  function PreviousAfter(cfg: Config, previous: Option<string>, obs: Observation): (next: Option<string>)
    ensures next != previous ==> Completes(Decide(cfg, previous, obs.reply), obs.reply, obs.playOk)
    ensures next != previous ==> next == Some(ArtistKey(obs.reply.snapshot.item.value.artists))
    ensures !PlayingTrack(obs.reply) ==> next == previous
  {
    var d := Decide(cfg, previous, obs.reply);
    if Completes(d, obs.reply, obs.playOk) then Some(d.artistKey) else previous
  }

  /** The remembered artist after a sequence of polls. */
  function PreviousAfterAll(cfg: Config, previous: Option<string>, polls: seq<Observation>): (last: Option<string>)
    ensures previous.Some? ==> last.Some?
    ensures (forall i :: 0 <= i < |polls| ==> !PlayingTrack(polls[i].reply)) ==> last == previous
    decreases |polls|
  {
    if polls == [] then previous
    else PreviousAfterAll(cfg, PreviousAfter(cfg, previous, polls[0]), polls[1..])
  }

  /** One more poll after a sequence moves the remembered artist one step further. */
  lemma {:induction false} PreviousAfterAllAppend(cfg: Config, previous: Option<string>, polls: seq<Observation>, obs: Observation)
    ensures PreviousAfterAll(cfg, previous, polls + [obs]) == PreviousAfter(cfg, PreviousAfterAll(cfg, previous, polls), obs)
    decreases |polls|
  {
    if polls == [] {
      assert ([] + [obs])[1..] == [];
    } else {
      assert (polls + [obs])[1..] == polls[1..] + [obs];
      PreviousAfterAllAppend(cfg, PreviousAfter(cfg, previous, polls[0]), polls[1..], obs);
    }
  }

  /** How many announcements a sequence of polls speaks to the end. */
  function Announcements(cfg: Config, previous: Option<string>, polls: seq<Observation>): (n: nat)
    ensures n <= |polls|
    ensures n == 0 ==> PreviousAfterAll(cfg, previous, polls) == previous
    decreases |polls|
  {
    if polls == [] then 0
    else
      (if Completes(Decide(cfg, previous, polls[0].reply), polls[0].reply, polls[0].playOk) then 1 else 0)
      + Announcements(cfg, PreviousAfter(cfg, previous, polls[0]), polls[1..])
  }

  /** Every playing track in the reply, if any, has artist key `key`. */
  predicate ByArtist(obs: Observation, key: string)
  {
    PlayingTrack(obs.reply) ==> ArtistKey(obs.reply.snapshot.item.value.artists) == key
  }

  /** Once an artist is remembered, polls of that artist never announce it again and keep it remembered. */
  lemma {:induction false} NoRepeatAnnouncement(cfg: Config, key: string, polls: seq<Observation>)
    requires forall i :: 0 <= i < |polls| ==> ByArtist(polls[i], key)
    ensures Announcements(cfg, Some(key), polls) == 0
    ensures PreviousAfterAll(cfg, Some(key), polls) == Some(key)
    decreases |polls|
  {
    if polls != [] {
      assert ByArtist(polls[0], key);
      assert PreviousAfter(cfg, Some(key), polls[0]) == Some(key);
      NoRepeatAnnouncement(cfg, key, polls[1..]);
    }
  }

  /**
    Whatever was remembered before, a run of polls of one artist announces at
    most once, and afterwards that artist is remembered if it was announced.
  */
  lemma {:induction false} AtMostOneAnnouncementPerArtist(cfg: Config, previous: Option<string>, key: string, polls: seq<Observation>)
    requires forall i :: 0 <= i < |polls| ==> ByArtist(polls[i], key)
    ensures Announcements(cfg, previous, polls) <= 1
    ensures Announcements(cfg, previous, polls) == 1 ==> PreviousAfterAll(cfg, previous, polls) == Some(key)
    ensures Announcements(cfg, previous, polls) == 0 ==> PreviousAfterAll(cfg, previous, polls) == previous
    decreases |polls|
  {
    if polls != [] {
      assert ByArtist(polls[0], key);
      var next := PreviousAfter(cfg, previous, polls[0]);
      if next != previous {
        assert next == Some(key);
        NoRepeatAnnouncement(cfg, key, polls[1..]);
      } else {
        AtMostOneAnnouncementPerArtist(cfg, previous, key, polls[1..]);
      }
    }
  }

  /** In start mode the decision does not depend on the track's progress or duration. */
  lemma StartModeIgnoresTiming(cfg: Config, previous: Option<string>, s: Snapshot, progressMs: int, durationMs: int)
    requires cfg.announceAtStart && s.item.Some?
    ensures Decide(cfg, previous, Current(s)) ==
            Decide(cfg, previous, Current(s.(progressMs := progressMs, item := Some(s.item.value.(durationMs := durationMs)))))
  {
  }

  /**
    In end mode a playing track with more than 10 s left waits
    `min(remaining - 10 s, 5 s)`; with at most 10 s left a changed artist is announced.
  */
  lemma EndModeTiming(cfg: Config, previous: Option<string>, reply: Reply)
    requires !cfg.announceAtStart && PlayingTrack(reply)
    ensures RemainingMs(reply.snapshot) > EndWindowMs ==>
              Decide(cfg, previous, reply) == NotYet(EndModeSleep(RemainingMs(reply.snapshot)))
    ensures RemainingMs(reply.snapshot) <= EndWindowMs && previous != Some(ArtistKey(reply.snapshot.item.value.artists)) ==>
              Decide(cfg, previous, reply).Announce?
  {
  }
}
