/**
 * `MusicPlayer`: the transport state around one playlist. Decoding and the
 * audio device are foreign code, so the decoder's duration for a loaded file
 * and the stream's elapsed time on `stop` are inputs, and what the player
 * asks of the device is recorded, in order, in the ghost log `device`.
 * Times are whole seconds.
 */
module Player {
  import opened Tracks
  import opened Playlists
  import opened TimeFormat

  /** A request to the audio device: start a file at an offset, stop, or change the volume. */
  datatype DeviceEvent = Start(path: string, from: int) | Halt | Level(volume: real)

  class MusicPlayer {
    const playlist: PlayList
    var currentSong: Music
    var filePath: string
    var duration: nat
    var isPlaying: bool
    var currentTime: int
    var volume: real
    ghost var device: seq<DeviceEvent>

    /** The cursor is on a track, `currentSong` is that track and it is the file loaded. */
    ghost predicate Valid()
      reads this, playlist
    {
      playlist.Valid() && playlist.files != [] &&
      currentSong == playlist.CurrentSong() && filePath == currentSong.filePath
    }

    /**
     * Build the playlist from the walk, load its first track and start it.
     * `current_song` raises on an empty playlist, so one audio file is required.
     */
    constructor (walk: seq<WalkStep>, tags: TagReader, decodedDuration: nat)
      requires AudioTracks(walk, tags) != []
      ensures Valid() && fresh(playlist)
      ensures playlist.files == AudioTracks(walk, tags) && playlist.current == 0
      ensures isPlaying && currentTime == 0 && volume == 1.0 && duration == decodedDuration
      ensures device == [Start(filePath, 0)]
    {
      var list := new PlayList(walk, tags);
      playlist := list;
      currentSong := list.CurrentSong();
      filePath := "";
      duration := 0;
      isPlaying := false;
      currentTime := 0;
      volume := 1.0;
      device := [];
      new;
      LoadSong(decodedDuration);
    }

    /** `load_song`: load the current track, take the decoder's duration, then `play`. */
    method LoadSong(decodedDuration: nat)
      requires playlist.Valid() && playlist.files != [] && currentSong == playlist.CurrentSong()
      modifies this`filePath, this`duration, this`isPlaying, this`device
      ensures Valid()
      ensures filePath == currentSong.filePath && duration == decodedDuration && isPlaying
      ensures device == old(device) + if old(isPlaying) then [] else [Start(filePath, currentTime)]
    {
      filePath := currentSong.filePath;
      duration := decodedDuration;
      Play();
    }

    /** `play`: a no-op while playing; otherwise start the loaded file from `currentTime`. */
    method Play()
      modifies this`isPlaying, this`device
      ensures isPlaying
      ensures device == old(device) + if old(isPlaying) then [] else [Start(filePath, currentTime)]
    {
      if !isPlaying {
        device := device + [Start(filePath, currentTime)];
        isPlaying := true;
      }
    }

    /**
     * `stop`: a no-op unless playing; otherwise add the time the stream has
     * played, `elapsed`, to `currentTime` and stop the device.
     */
    method Stop(elapsed: nat)
      modifies this`isPlaying, this`currentTime, this`device
      ensures !isPlaying
      ensures currentTime == old(currentTime) + if old(isPlaying) then elapsed else 0
      ensures device == old(device) + if old(isPlaying) then [Halt] else []
    {
      if isPlaying {
        currentTime := currentTime + elapsed;
        device := device + [Halt];
        isPlaying := false;
      }
    }

    /** `reset`: stop the device whatever the state and rewind to the start. */
    method Reset()
      modifies this`isPlaying, this`currentTime, this`device
      ensures !isPlaying && currentTime == 0
      ensures device == old(device) + [Halt]
    {
      device := device + [Halt];
      currentTime := 0;
      isPlaying := false;
    }

    /** `seek`: whatever the state before, play from `position` afterwards. */
    method Seek(position: int, elapsed: nat)
      modifies this`isPlaying, this`currentTime, this`device
      ensures isPlaying && currentTime == position
      ensures device == old(device) + (if old(isPlaying) then [Halt] else []) + [Start(filePath, position)]
    {
      Stop(elapsed);
      currentTime := position;
      Play();
    }

    /** `set_volume`: always stored, passed to the device only while playing. */
    method SetVolume(level: real)
      modifies this`volume, this`device
      ensures volume == level
      ensures device == old(device) + if isPlaying then [Level(level)] else []
    {
      volume := level;
      if isPlaying {
        device := device + [Level(level)];
      }
    }

    /**
     * `next`: rewind, move the cursor one track on (from the last back to the
     * first), load that track and play it from the start.
     */
    method Next(decodedDuration: nat)
      requires Valid()
      modifies this, playlist`current
      ensures Valid() && playlist.files == old(playlist.files)
      ensures playlist.current == NextIndex(old(playlist.current), |playlist.files|)
      ensures isPlaying && currentTime == 0 && duration == decodedDuration && volume == old(volume)
      ensures device == old(device) + [Halt, Start(filePath, 0)]
    {
      Reset();
      playlist.current := playlist.current + 1;
      if playlist.current >= |playlist.files| {
        playlist.current := 0;
      }
      currentSong := playlist.CurrentSong();
      LoadSong(decodedDuration);
    }

    /**
     * `prev`: rewind, move the cursor one track back (from the first round to
     * the last), load that track and play it from the start.
     */
    method Prev(decodedDuration: nat)
      requires Valid()
      modifies this, playlist`current
      ensures Valid() && playlist.files == old(playlist.files)
      ensures playlist.current == PrevIndex(old(playlist.current), |playlist.files|)
      ensures isPlaying && currentTime == 0 && duration == decodedDuration && volume == old(volume)
      ensures device == old(device) + [Halt, Start(filePath, 0)]
    {
      Reset();
      playlist.current := playlist.current - 1;
      if playlist.current < 0 {
        playlist.current := |playlist.files| - 1;
      }
      currentSong := playlist.CurrentSong();
      LoadSong(decodedDuration);
    }

    /**
     * `get_duration`: the loaded track's length as zero-padded minutes and
     * seconds, which read back as that many seconds.
     */
    function GetDuration(): (r: (string, string))
      reads this
      ensures |r.0| >= 2 && |r.1| == 2 && AllDigits(r.0) && AllDigits(r.1)
      ensures r.0[0] == '0' ==> duration < 600
      ensures DecimalValue(r.1) < 60
      ensures DecimalValue(r.0) * 60 + DecimalValue(r.1) == duration
    {
      (Pad2(duration / 60), Pad2(duration % 60))
    }
  }
}
