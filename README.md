# Spotify announcer: announcement loop and volume fade

This project models the core of the Spotify announcer: the background thread
`AnnouncementThread` of `spotify_announcer_60.py`. The thread polls the
current playback. When a track by a new artist plays, it fades the device
volume down, speaks a short announcement, and fades the volume back up. It
then remembers that artist, so repeated polls of the same artist stay
silent.

The model has four modules:

- `Wrappers` holds the `Option` datatype.
- `Volume` holds the pure volume arithmetic. `FadeCommands` is the list of
  clamped commands one fade sends. `ReducedVolume` is the volume used while
  the announcement plays. `AnnouncementCommands` is the fade-out followed by
  the fade-in. Lemmas prove the command count, the range, monotonicity, no
  overshoot, and restoration of the original volume.
- `Playback` holds the playback reply as datatypes and the pure parts of one
  loop iteration. These are the artist key, the album and song defaults, the
  list of phrasings, and `Decide`, which classifies a poll. The module also
  says how a sequence of polls changes the remembered artist
  (`PreviousAfterAll`, `Announcements`) and proves that polls of one artist
  announce at most once.
- `Announcer` holds the class `AnnouncementThread`. Its fields are the
  remembered artist, the three options fixed at construction, and a log of
  the volume commands sent to the device. The loop's locals `track` and
  `artist` are fields too, because they outlive an iteration and decide how
  long the status line sleeps. The methods are:
  - `SmoothVolumeChange`, the fade loop;
  - `PlayAnnouncement`;
  - `BuildOptions`, the building of the option list;
  - `Speak`, the random choice of a phrasing and its playback;
  - `AnnounceIfNew`, the branch that announces a new artist;
  - `Poll` and `PollPlaying`, one iteration of `run` and its part for a playing item;
  - `Run`, the loop fed a sequence of replies.

  Each method is proved against the specification functions of `Playback` and
  `Volume`.

Arithmetic is exact integer arithmetic:
- `int(v + step * ((t - v) / 8))` is `(8v + step(t - v)) / 8`. Its operand is
  non-negative and a multiple of 1/8, so it is exact.
- `max(1, int(v * 0.9))` is `max(1, (9v) / 10)`.
- "more than 10 s remaining" is `durationMs - progressMs > 10000`.
- The end-mode sleep `min(remaining - 10, 5)` s is `min(remaining - 10000, 5000)` ms.

The model follows the code on these points, where the intent may have been otherwise:
- The reduced volume truncates `v * 0.9`. It does not round, so volume 5 drops
  to 4, not 5 (`ReducedVolumeExamples`).
- The announcement volume `((v / 100) - 0.1) ** 2.5` is not clamped. For v < 10
  Python makes it a complex number, and the audio player's `set_volume`
  rejects it. The exception is caught by the loop's handler. So below volume 10
  an announcement never plays: the device is left at the reduced volume, and
  the artist is not remembered (`QuietDeviceNeverAnnounces`).
- When the thread is not playing, the status line uses the `track` and
  `artist` of an earlier iteration. When they were never bound, it raises, and
  the loop sleeps 10 s instead of 1 s.
- A null device volume makes `spotify_volume * 0.9` raise before any command
  is sent. The loop then sleeps 10 s and remembers nothing.

## Model

| member | source | states |
|---|---|---|
| `Volume.Clamp` | spotify_announcer_60.py:60-63 | every commanded volume lies in [1, 100]; values already in range pass unchanged, lower ones become 1, higher ones 100 |
| `Volume.StepVolume` | spotify_announcer_60.py:55-59 | the volume of fade step `step` stays in [0, 100]; step 0 is the start volume and step 8 would be the target exactly |
| `Volume.FadeCommands` | spotify_announcer_60.py:54-63 | one fade sends exactly `fade_steps + 1` = 9 commands, all in [1, 100]; the first is the clamped start volume and the last the clamped target |
| `Volume.StepVolumeBetween` | spotify_announcer_60.py:55-59 | each interpolated step volume lies between the start and target volumes |
| `Volume.StepVolumeMonotone` | spotify_announcer_60.py:55-59 | a later step is never further from the target than an earlier one |
| `Volume.FadeIsMonotone` | spotify_announcer_60.py:54-63 | a fade-out's commands are non-increasing and a fade-in's non-decreasing, all between the clamped start and the clamped target (no overshoot) |
| `Volume.ReducedVolume` | spotify_announcer_60.py:66 | the reduced volume is the floor of 9v/10 raised to at least 1: 1 <= reduced <= 90, reduced <= v for v >= 1, strictly lower for v >= 2, and 1 for v <= 1 |
| `Volume.ReducedVolumeExamples` | spotify_announcer_60.py:66 | 100 becomes 90, 10 becomes 9, 5 becomes 4, and 1 and 0 become 1 |
| `Volume.AnnouncementCommands` | spotify_announcer_60.py:65-88 | an announcement sends 18 commands when playback went through and 9 otherwise; it starts at the clamped volume, the fade-out ends at the reduced volume, and a completed one ends at the clamped volume again |
| `Volume.AnnouncementRestoresVolume` | spotify_announcer_60.py:65-88 | a completed announcement sends 18 commands and ends at the clamped original volume: v for v in 1..100, and 1 for a muted device; a failed one sends 9 commands and ends at the reduced volume; every command lies between the reduced and the clamped original volume |
| `Playback.ArtistKey` | spotify_announcer_60.py:108 | the artist key of a single artist is that artist's name, and any key starts with the first-listed artist's name |
| `Playback.ArtistKeyEndsWithLast` | spotify_announcer_60.py:108 | the artist key ends with the last-listed artist's name |
| `Playback.ArtistKeyAppend` | spotify_announcer_60.py:108 | the key of two concatenated non-empty artist lists is the two keys joined by ", " |
| `Playback.ArtistKeyIsNotInjective` | spotify_announcer_60.py:108-119 | one artist named "A, B" and the two artists "A" and "B" have the same key, so a change between them is not announced |
| `Playback.AlbumTitle` | spotify_announcer_60.py:109 | the album's name is used whenever the album has a `name` key, even an empty one; "Unknown album" appears only for a missing album or one without a name, or an album literally named so |
| `Playback.SongTitle` | spotify_announcer_60.py:110 | the song text is never empty; it is "Unknown song" when the name is missing or empty, and otherwise the item's name |
| `Playback.AlbumPhrase` | spotify_announcer_60.py:123 | the album phrasing is the artist key, then ", from the album ", the album and a full stop: it starts with the key, has a comma right after it, ends with '.', and is 18 characters longer than key and album together |
| `Playback.SongPhrase` | spotify_announcer_60.py:126 | the song phrasing starts with the artist key, has '.' right after it, ends with '.', and is 3 characters longer than key and song together |
| `Playback.BarePhrase` | spotify_announcer_60.py:129 | the fallback phrasing is the artist key followed by a single '.' |
| `Playback.PhrasesDiffer` | spotify_announcer_60.py:123-129 | the album, song and bare-artist phrasings of one artist are pairwise distinct |
| `Playback.Phrasings` | spotify_announcer_60.py:120-131 | the option list is never empty and has at most two entries; it holds the album phrasing iff album titles are on, and the song phrasing iff song titles are on; it holds the bare phrasing iff neither is on, and is then exactly that phrasing; it holds nothing else |
| `Playback.RemainingBeyondWindow` | spotify_announcer_60.py:113-136 | the integer remaining time exceeds the 10000 ms window exactly when `(duration_ms - progress_ms) / 1000` seconds exceed 10 |
| `Playback.EndModeSleep` | spotify_announcer_60.py:136-137 | with more than 10 s left, end mode sleeps a time in (0, 5000] ms that never runs past the 10 s mark, either 5000 ms or exactly until 10 s remain |
| `Playback.Decide` | spotify_announcer_60.py:93-140 | only a playing item of type "track" can lead to an announcement, a same-artist result or a wait. An announcement needs the remembered artist to be absent or different from the ", "-joined key. A same-artist result means it is equal. The options are never empty. A wait happens only in end mode with more than 10 s left, lasts (0, 5] s, and ends no later than 10 s before the end |
| `Playback.Completes` | spotify_announcer_60.py:72-85 | an announcement plays to the end exactly when the decision was to announce, the device reported a volume, synthesis and playback went through, and the volume is at least 10 |
| `Playback.AnnouncementVolumeIsReal` | spotify_announcer_60.py:77-80 | the announcement volume `((v / 100) - 0.1) ** 2.5` has a non-negative base, and so is a real number `set_volume` accepts, exactly when v >= 10 |
| `Playback.PreviousAfter` | spotify_announcer_60.py:94-154 | the remembered artist changes only when an announcement completes, and then becomes the key of the announced track; replies that are not a playing track leave it unchanged |
| `Playback.PreviousAfterAll` | spotify_announcer_60.py:91-154 | over a sequence of polls a remembered artist is never forgotten, and polls with no playing track leave it unchanged |
| `Playback.PreviousAfterAllAppend` | spotify_announcer_60.py:91-154 | one more poll moves the remembered artist of a sequence one `PreviousAfter` step further |
| `Playback.Announcements` | spotify_announcer_60.py:91-154 | a sequence of polls announces at most once per poll, and when it announces nothing the remembered artist is unchanged |
| `Playback.NoRepeatAnnouncement` | spotify_announcer_60.py:91-161 | once an artist is remembered, any sequence of polls whose playing tracks are all by that artist announces nothing and keeps it remembered |
| `Playback.AtMostOneAnnouncementPerArtist` | spotify_announcer_60.py:91-161 | from any remembered artist, a sequence of polls of one artist announces at most once; after one announcement that artist is remembered, and after none the remembered artist is unchanged |
| `Playback.StartModeIgnoresTiming` | spotify_announcer_60.py:113-133 | in start mode, changing the progress or the duration of the track does not change the decision |
| `Playback.EndModeTiming` | spotify_announcer_60.py:134-154 | in end mode a playing track with more than 10 s left waits `min(remaining - 10 s, 5 s)`; with at most 10 s left and a changed artist it announces |
| `Announcer.StatusSleep` | spotify_announcer_60.py:156-161 | after the status line the loop sleeps 1 s exactly when `track` with a `name` key and `artist` are bound, and 10 s (the error handler) otherwise |
| `Announcer.IssuedCommands` | spotify_announcer_60.py:93-154 | one iteration sends volume commands only when it decides to announce, every command is in [1, 100], and a completed announcement sends 18 and ends at the device's volume |
| `Announcer.IssuedAll` | spotify_announcer_60.py:91-154 | every command a sequence of polls sends is in [1, 100], and polls with no playing track send none |
| `Announcer.TrackAfter` | spotify_announcer_60.py:102-103 | the loop's `track` is rebound to the item whenever an item is playing, and otherwise keeps its earlier value |
| `Announcer.ArtistAfter` | spotify_announcer_60.py:102-108 | the loop's `artist` becomes the artist key whenever a track is playing, and otherwise keeps its earlier value |
| `Announcer.TrackAfterAll` | spotify_announcer_60.py:91-103 | once bound, `track` stays bound for the rest of the run |
| `Announcer.ArtistAfterAll` | spotify_announcer_60.py:91-108 | once bound, `artist` stays bound for the rest of the run |
| `Announcer.SleepAfter` | spotify_announcer_60.py:93-161 | an iteration ends with the end-mode wait if it waits, and otherwise with 1 s, 5 s or 10 s; it sleeps 5 s exactly without playback, for a non-track, or for a 5 s end-mode wait |
| `Announcer.ReadyDecision` | spotify_announcer_60.py:117-154 | once a playing track is past the end-mode wait, the decision is the same-artist result when the key equals the remembered one, and otherwise an announcement drawn from `Phrasings` of the key, album title and song title |
| `Announcer.QuietDeviceNeverAnnounces` | spotify_announcer_60.py:66-80 | below volume 10 an announcement never completes: the artist stays unannounced and only the fade-out is sent, so the device ends at the reduced volume, lower than before from volume 2 up |
| `Announcer.AnnouncementThread.constructor` | spotify_announcer_60.py:43-52 | the options are fixed at construction, and nothing is remembered or commanded yet |
| `Announcer.AnnouncementThread.SmoothVolumeChange` | spotify_announcer_60.py:54-63 | the fade loop appends exactly the commands `FadeCommands` of its two volumes to the device log and changes nothing else |
| `Announcer.AnnouncementThread.PlayAnnouncement` | spotify_announcer_60.py:65-88 | fade-out to the reduced volume, then the fade-in only when playback went through (it fails on a synthesis or playback failure and below volume 10); the log grows by exactly `AnnouncementCommands` |
| `Announcer.AnnouncementThread.BuildOptions` | spotify_announcer_60.py:120-129 | appending the album phrasing, the song phrasing, and the bare phrasing only when the list is still empty builds exactly `Phrasings` |
| `Announcer.AnnouncementThread.Speak` | spotify_announcer_60.py:131-132 | the spoken text is one of the options. It is spoken exactly when the device reported a volume, playback went through and the volume is at least 10; otherwise the iteration raises. A null volume sends no command, and otherwise the log grows by exactly `AnnouncementCommands` |
| `Announcer.AnnouncementThread.AnnounceIfNew` | spotify_announcer_60.py:119-133 | nothing happens when the key equals the remembered artist. Otherwise one of `Phrasings` is spoken under the conditions of `Speak`, with its commands logged. The key is remembered exactly when it was spoken, and the iteration raises exactly when a new artist was not spoken |
| `Announcer.AnnouncementThread.Poll` | spotify_announcer_60.py:92-161 | one iteration speaks a member of the option list exactly when `Decide` says announce and playback completes. The remembered artist becomes `PreviousAfter`. The device log grows by exactly `IssuedCommands`. `track` and `artist` move on as `TrackAfter` and `ArtistAfter` say. The sleep is `SleepAfter`: 10 s on errors, 5 s without playback or for non-tracks, the end-mode wait, or the status sleep read with the new `track` and `artist` |
| `Announcer.AnnouncementThread.PollPlaying` | spotify_announcer_60.py:102-157 | for a reply with an item playing, the same four facts as `Poll`: the outcome matches `Decide`, and the remembered artist, the log, `track` and `artist` move on as `PreviousAfter`, `IssuedCommands`, `TrackAfter` and `ArtistAfter` say |
| `Announcer.AnnouncementThread.Run` | spotify_announcer_60.py:90-161 | polling a sequence of replies gives one outcome per poll. Each outcome is the one `Poll` states for the remembered artist and the `track` and `artist` reached at that poll, so any spoken text is in that poll's option list. The remembered artist ends at `PreviousAfterAll`, `track` and `artist` at their last bound values, and the log grows by exactly `IssuedAll`. The number of spoken outcomes is `Announcements` |

## Left out

- The Spotify client, OAuth and credential setup (lines 14-34) are network and file I/O. A poll's result is an input `Reply`, and `sp.volume` appends to `volumeLog`. A failing `sp.volume` command is not modelled: every command is assumed to be accepted.
- Speech synthesis (gTTS) and playback (pygame), with the busy-wait on the player (lines 72-85), are foreign libraries and audio I/O. Their success is the input `playOk`. The model adds the one failure the code itself causes: the complex announcement volume below volume 10.
- The announcement-volume value `((v / 100) - 0.1) ** 2.5` is floating-point exponentiation. Only whether it is a real number (v >= 10) is modelled.
- `QThread`, `stop()`/`wait()` and the `running` flag (lines 40, 91, 163-165) exist for concurrency and cooperative cancellation. `Run` takes a finite sequence of replies instead.
- Real sleeps, including the 25 ms delay between fade steps, are not performed. An iteration returns its final sleep as `Outcome.sleepMs`; the fade delays are not reported.
- The text of the status strings (lines 95, 156, 160) is not modelled. Only whether formatting line 156 raises, and so which sleep follows, is modelled.
- An item whose `name` key is present but null is not distinguished from a missing key. A reply without a `device` object and a missing `progress_ms` are not modelled either.
- Malformed items are not modelled. A missing `album`, `type`, `artists` or `duration_ms` key raises `KeyError`, and the loop then sleeps 10 s. An artist whose `name` is null makes the `", ".join` raise. An album whose `name` is null is spoken as "None". The model's items always carry these keys, artist names are strings, and an album name is a string.
- The probability distribution of `random.choice` is left out. The pick is any member of the option list.
- The `SpotifyAnnouncerApp` GUI (lines 168-226) is presentation only.
