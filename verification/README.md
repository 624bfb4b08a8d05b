# TuneTerminal player core in Dafny

A model of the playback core of TuneTerminal, a terminal music player
(`src/TuneTerminal/utils/player.py`). It covers the three classes of that file:

- `Music` (module `Tracks`): a file path and its tag metadata, with the `title`
  fallback to the file's basename up to its first dot.
- `PlayList` (module `Playlists`): the audio files found by walking a directory,
  filtered on the lower-cased `splitext` extension (`.mp3`, `.wav`, `.flac`),
  and the cursor `current` on the playing track.
- `MusicPlayer` (module `Player`): the transport state `isPlaying`,
  `currentTime` and `volume`, changed by `play`, `stop`, `reset`, `seek`,
  `set_volume`, `next` and `prev`, and `get_duration`'s minutes/seconds split.

The `os.path` and `str` operations the file relies on (`basename`, `join`,
`splitext`, `lower`, `split(".")[0]`) are in module `Paths`, and the `02d`
formatting is in module `TimeFormat`.

The foreign calls are inputs. The directory walk is a given sequence of
`WalkStep(root, dirs, files)`, as `os.walk` yields it. The tag reader is a
given function from path to metadata. The decoder's duration for each loaded
file is a parameter of the operations that load one. The stream's elapsed time
is a parameter of `stop` and `seek`. What the player asks of the audio device
(start a file at an offset, stop, set the volume) is appended to the ghost log
`MusicPlayer.device`. This lets the contracts say when the device is touched.

`Paths.Join`, `Paths.Extension` and `Paths.Lower` carry no contract of their
own. What they promise is stated by the lemmas about them: `BasenameOfJoin`
for `join`, `ExtensionShape` for `splitext`, and `IsAudioFileIff` for the
lower-cased extension test.

Layout: `wrappers.dfy` (Option), `paths.dfy`, `tracks.dfy`, `playlists.dfy`,
`timeformat.dfy`, `player.dfy`.

## Model

| member | source | states |
|---|---|---|
| Paths.Basename | src/TuneTerminal/utils/player.py:29 | the result holds no separator, is a suffix of the path, and is preceded by a separator unless it is the whole path |
| Paths.BasenameOfJoin | src/TuneTerminal/utils/player.py:61 | a file name without separator joined under any directory is that path's basename again |
| Paths.BeforeFirstDot | src/TuneTerminal/utils/player.py:29 | `split(".")[0]`: a dot-free prefix of the input, followed by a dot unless it is the whole input |
| Paths.LastIndexOfIsLast | src/TuneTerminal/utils/player.py:59 | no occurrence of the character follows the index found, and -1 is returned exactly when the character is absent |
| Paths.ExtensionShape | src/TuneTerminal/utils/player.py:59 | a non-empty `splitext` extension is a dot followed by no further dot and ends the name after a stem that is not only dots |
| Tracks.Music.Title | src/TuneTerminal/utils/player.py:26-30 | the stored title when the tag has one; `""` when the key is absent; otherwise a dot-free, separator-free prefix of the basename that stops at its first dot |
| Tracks.TitleOfUntaggedFile | src/TuneTerminal/utils/player.py:28-29 | an untagged file found under any directory is titled by its own file name up to the first dot |
| Playlists.IsAudioFileIff | src/TuneTerminal/utils/player.py:53-60 | the filter keeps a file if and only if its name ends, ignoring case, in `.mp3`, `.wav` or `.flac` after a stem that is not only dots |
| Playlists.CollectTracks | src/TuneTerminal/utils/player.py:57-61 | the nested loop over directories and their files appends exactly the tracks of the files the filter accepts, in walk order |
| Playlists.Scan | src/TuneTerminal/utils/player.py:52-63 | the scan yields exactly the audio tracks of the walk, in walk order |
| Playlists.AudioTracksMembers | src/TuneTerminal/utils/player.py:57-61 | a track is in the playlist if and only if some visited directory lists an audio file whose joined path and tags make that track |
| Playlists.NextIndex | src/TuneTerminal/utils/player.py:82-84 | the next cursor stays in range and equals `(i + 1) mod n`, so the last track wraps to the first |
| Playlists.PrevIndex | src/TuneTerminal/utils/player.py:90-92 | the previous cursor stays in range, equals `(i - 1) mod n`, so the first wraps to the last, and `next` from it returns to `i` |
| Playlists.PrevUndoesNext | src/TuneTerminal/utils/player.py:80-94 | `prev` after `next` puts the cursor back where it was |
| Playlists.PlayList.constructor | src/TuneTerminal/utils/player.py:43-46 | the playlist holds the walk's audio tracks and the cursor starts at 0 |
| Playlists.PlayList.CurrentSong | src/TuneTerminal/utils/player.py:48-50 | on a non-empty playlist, the current song is one of its tracks |
| Player.MusicPlayer.constructor | src/TuneTerminal/utils/player.py:66-72 | a new player is on the first track, playing it from 0 at volume 1.0, with one start request sent to the device |
| Player.MusicPlayer.LoadSong | src/TuneTerminal/utils/player.py:74-78 | loading records the current track's path and decoded duration and leaves the player playing |
| Player.MusicPlayer.Play | src/TuneTerminal/utils/player.py:96-100 | a no-op while playing; otherwise it starts the file at `currentTime` and sets `isPlaying`, leaving the time alone |
| Player.MusicPlayer.Stop | src/TuneTerminal/utils/player.py:102-106 | while playing, it adds the elapsed stream time, stops the device and clears `isPlaying`; otherwise nothing changes |
| Player.MusicPlayer.Reset | src/TuneTerminal/utils/player.py:108-111 | always stops the device and leaves the player stopped at time 0 |
| Player.MusicPlayer.Seek | src/TuneTerminal/utils/player.py:113-116 | whatever the state before, the player ends up playing from the requested position |
| Player.MusicPlayer.SetVolume | src/TuneTerminal/utils/player.py:119-122 | the volume is always stored; the device hears of it only while playing; nothing else changes |
| Player.MusicPlayer.Next | src/TuneTerminal/utils/player.py:80-86 | the cursor moves to the next index with wrap-around, stays valid, and the new track plays from time 0 at the same volume |
| Player.MusicPlayer.Prev | src/TuneTerminal/utils/player.py:88-94 | the cursor moves to the previous index with wrap-around, stays valid, and the new track plays from time 0 at the same volume |
| Player.MusicPlayer.GetDuration | src/TuneTerminal/utils/player.py:140-146 | two digit strings, seconds exactly two digits and below 60, minutes at least two digits with a leading zero only below ten minutes, reading back as minutes * 60 + seconds = the duration |
| TimeFormat.Pad2 | src/TuneTerminal/utils/player.py:146 | `02d`: at least two digits reading back as the number, exactly two below 100, a leading zero only for a single digit |
| TimeFormat.DigitsRoundTrip | src/TuneTerminal/utils/player.py:146 | reading the decimal digits of `n` back gives `n` |

## Left out

- Audio decoding and output (`librosa.load`, `librosa.get_duration`, `sd.play`, `sd.stop`, `sd.get_stream`, `sd.set_volume`) are foreign calls. The decoded duration and the stream's elapsed time are parameters. Device calls are entries of a ghost log. The decoded samples `y` and the sample rate `sr` are not modelled.
- The sample offset `int(current_time * sr)` that `play` starts from is float arithmetic. The model records the start position in seconds instead.
- Player.MusicPlayer.GetDuration: the duration is whole seconds, so the truncation of a fractional float duration is not modelled. `current_time` is likewise whole seconds.
- `Music.extract_metadata` reads tags with TinyTag, a foreign call. The metadata map is taken as given, through a function from path to metadata.
- The `duration` property of `Music` returns a float tag value, and no player operation uses it. It is not modelled. `artist` and `album` are modelled as plain lookups with no contract.
- `os.walk` is I/O. Its output is a given sequence of directory steps. The `dir_path` field is therefore not kept.
- Paths.Extension: modelled for a bare file name, which is what `os.walk` lists. A name that contains a separator is not split at it, as POSIX `splitext` would do.
- `str.lower` is modelled for ASCII letters only. Paths use the POSIX separator `/`; Windows separators are not modelled.
- An empty playlist: `current_song` fails on it, so the player's constructor requires the walk to contain an audio file, and `CurrentSong` requires a non-empty playlist.
- `display_current_time` reads the live device clock and prints. It overwrites `current_time` instead of adding to it.
- The module-level demo script at the end of the file sleeps and prints.
