/**
 * `PlayList`: the tracks found by walking a directory, in the order the walk
 * yields them, with a cursor on the track being played. The walk itself is
 * I/O, so its result is taken as given (one step per directory visited, as
 * `os.walk` reports it) and so is the tag reader applied to each file.
 */
module Playlists {
  import opened Paths
  import opened Tracks

  /** The extensions, lower-cased, of the files a playlist picks up. */
  const AudioExtensions: seq<string> := [".mp3", ".wav", ".flac"]

  /** The scan's filter: the lower-cased `splitext` extension is a known audio extension. */
  predicate IsAudioFile(name: string)
  {
    Lower(Extension(name)) in AudioExtensions
  }

  /** `name` ends, ignoring case, in `e`, and has something other than dots in front of it. */
  predicate HasAudioSuffix(name: string, e: string)
  {
    |e| < |name| && Lower(name[|name| - |e|..]) == e && !AllDots(name[..|name| - |e|])
  }

  /** The extension of a name ending, ignoring case, in a one-dot extension `x` is that ending. */
  lemma ExtensionOfSuffix(name: string, x: string)
    requires |x| > 0 && x[0] == '.' && '.' !in x[1..]
    requires HasAudioSuffix(name, x)
    ensures Extension(name) == name[|name| - |x|..]
  {
    var k := |name| - |x|;
    var s := name[k..];
    assert LowerChar(s[0]) == x[0];
    assert name[k] == '.';
    forall j | k < j < |name|
      ensures name[j] != '.'
    {
      assert LowerChar(s[j - k]) == x[j - k] == x[1..][j - k - 1];
    }
    LastIndexOfIsLast(name, '.');
    assert LastIndexOf(name, '.') == k;
  }

  lemma SuffixMakesAudioFile(name: string, i: nat)
    requires i < |AudioExtensions| && HasAudioSuffix(name, AudioExtensions[i])
    ensures IsAudioFile(name)
  {
    var x := AudioExtensions[i];
    assert x[0] == '.' && '.' !in x[1..];
    ExtensionOfSuffix(name, x);
  }

  /**
   * The filter in plain terms: a file is picked up exactly when its name ends
   * in one of the audio extensions, in any case, after a stem that is not
   * made of dots only (`.mp3` and `..wav` are hidden files, not audio files).
   */
  lemma IsAudioFileIff(name: string)
    ensures IsAudioFile(name) <==>
      exists i :: 0 <= i < |AudioExtensions| && HasAudioSuffix(name, AudioExtensions[i])
  {
    if IsAudioFile(name) {
      var e := Extension(name);
      var i :| 0 <= i < |AudioExtensions| && Lower(e) == AudioExtensions[i];
      ExtensionShape(name);
      assert HasAudioSuffix(name, AudioExtensions[i]);
    }
    if i :| 0 <= i < |AudioExtensions| && HasAudioSuffix(name, AudioExtensions[i]) {
      SuffixMakesAudioFile(name, i);
    }
  }

  datatype WalkStep = WalkStep(root: string, dirs: seq<string>, files: seq<string>)

  type TagReader = string -> Metadata

  /** `Music(os.path.join(root, name))`: the file's path and the tags read from it. */
  function Track(root: string, name: string, tags: TagReader): Music
  {
    var path := Join(root, name);
    Music(path, tags(path))
  }

  /**
   * The tracks of `files` under `root` that the filter `keep` accepts, in
   * order. The scan uses `IsAudioFile` as the filter; the lemmas below about
   * the order and membership of the result hold for any filter.
   */
  function TracksIn(root: string, files: seq<string>, tags: TagReader, keep: string -> bool): seq<Music>
  {
    if files == [] then []
    else
      var name := files[|files| - 1];
      TracksIn(root, files[..|files| - 1], tags, keep) +
      (if keep(name) then [Track(root, name, tags)] else [])
  }

  /** The tracks of a whole walk that `keep` accepts, directory after directory. */
  function WalkTracks(walk: seq<WalkStep>, tags: TagReader, keep: string -> bool): seq<Music>
  {
    if walk == [] then []
    else
      var step := walk[|walk| - 1];
      WalkTracks(walk[..|walk| - 1], tags, keep) + TracksIn(step.root, step.files, tags, keep)
  }

  /** The playlist a scan of `walk` produces: its audio files, in walk order. */
  function AudioTracks(walk: seq<WalkStep>, tags: TagReader): seq<Music>
  {
    WalkTracks(walk, tags, IsAudioFile)
  }

  /** Extending the file list by one file extends the tracks by that file's, if it is kept. */
  lemma TracksInSnoc(root: string, files: seq<string>, tags: TagReader, keep: string -> bool, j: nat)
    requires j < |files|
    ensures TracksIn(root, files[..j + 1], tags, keep) ==
      TracksIn(root, files[..j], tags, keep) + if keep(files[j]) then [Track(root, files[j], tags)] else []
  {
    assert files[..j + 1][..j] == files[..j];
  }

  /** The `j`-th of `files` is kept by the filter and makes track `m`. */
  predicate ListedAt(root: string, files: seq<string>, tags: TagReader, keep: string -> bool, j: int, m: Music)
  {
    0 <= j < |files| && keep(files[j]) && m == Track(root, files[j], tags)
  }

  lemma {:induction false} ListedInTracks(root: string, files: seq<string>, tags: TagReader, keep: string -> bool, j: int, m: Music)
    requires ListedAt(root, files, tags, keep, j, m)
    ensures m in TracksIn(root, files, tags, keep)
  {
    var init := files[..|files| - 1];
    if j < |init| {
      assert init[j] == files[j];
      assert ListedAt(root, init, tags, keep, j, m);
      ListedInTracks(root, init, tags, keep, j, m);
    }
  }

  lemma {:induction false} TrackListed(root: string, files: seq<string>, tags: TagReader, keep: string -> bool, m: Music)
    requires m in TracksIn(root, files, tags, keep)
    ensures exists j :: ListedAt(root, files, tags, keep, j, m)
  {
    var init := files[..|files| - 1];
    if m in TracksIn(root, init, tags, keep) {
      TrackListed(root, init, tags, keep, m);
      var j :| ListedAt(root, init, tags, keep, j, m);
      assert files[j] == init[j];
      assert ListedAt(root, files, tags, keep, j, m);
    } else {
      assert ListedAt(root, files, tags, keep, |files| - 1, m);
    }
  }

  /** Directory `i` of the walk lists, as its `j`-th file, a file kept by the filter that makes track `m`. */
  predicate FoundAt(walk: seq<WalkStep>, tags: TagReader, keep: string -> bool, i: int, j: int, m: Music)
  {
    0 <= i < |walk| && ListedAt(walk[i].root, walk[i].files, tags, keep, j, m)
  }

  lemma {:induction false} FoundInWalkTracks(walk: seq<WalkStep>, tags: TagReader, keep: string -> bool, i: int, j: int, m: Music)
    requires FoundAt(walk, tags, keep, i, j, m)
    ensures m in WalkTracks(walk, tags, keep)
  {
    var init := walk[..|walk| - 1];
    var last := walk[|walk| - 1];
    if i < |init| {
      assert init[i] == walk[i];
      assert FoundAt(init, tags, keep, i, j, m);
      FoundInWalkTracks(init, tags, keep, i, j, m);
    } else {
      ListedInTracks(last.root, last.files, tags, keep, j, m);
    }
  }

  lemma {:induction false} WalkTrackFound(walk: seq<WalkStep>, tags: TagReader, keep: string -> bool, m: Music)
    requires m in WalkTracks(walk, tags, keep)
    ensures exists i, j :: FoundAt(walk, tags, keep, i, j, m)
  {
    var init := walk[..|walk| - 1];
    var last := walk[|walk| - 1];
    if m in WalkTracks(init, tags, keep) {
      WalkTrackFound(init, tags, keep, m);
      var i, j :| FoundAt(init, tags, keep, i, j, m);
      assert walk[i] == init[i];
      assert FoundAt(walk, tags, keep, i, j, m);
    } else {
      TrackListed(last.root, last.files, tags, keep, m);
      var j :| ListedAt(last.root, last.files, tags, keep, j, m);
      assert FoundAt(walk, tags, keep, |walk| - 1, j, m);
    }
  }

  /**
   * The playlist holds exactly the audio files of the walk: a track is in it
   * if and only if some directory visited lists a file with an audio
   * extension whose joined path and tags make that track.
   */
  lemma AudioTracksMembers(walk: seq<WalkStep>, tags: TagReader, m: Music)
    ensures m in AudioTracks(walk, tags) <==>
      exists i, j :: 0 <= i < |walk| && 0 <= j < |walk[i].files| &&
        IsAudioFile(walk[i].files[j]) && m == Track(walk[i].root, walk[i].files[j], tags)
  {
    if i, j :| (0 <= i < |walk| && 0 <= j < |walk[i].files| &&
                IsAudioFile(walk[i].files[j]) && m == Track(walk[i].root, walk[i].files[j], tags)) {
      assert FoundAt(walk, tags, IsAudioFile, i, j, m);
      FoundInWalkTracks(walk, tags, IsAudioFile, i, j, m);
    }
    if m in AudioTracks(walk, tags) {
      WalkTrackFound(walk, tags, IsAudioFile, m);
    }
  }

  /**
   * The loop of `PlayList.playlist`: for each directory of the walk, for each
   * file in it, append the file's track when the filter accepts the name.
   */
  method CollectTracks(walk: seq<WalkStep>, tags: TagReader, keep: string -> bool) returns (found: seq<Music>)
    ensures found == WalkTracks(walk, tags, keep)
  {
    found := [];
    for i := 0 to |walk|
      invariant found == WalkTracks(walk[..i], tags, keep)
    {
      var step := walk[i];
      for j := 0 to |step.files|
        invariant found == WalkTracks(walk[..i], tags, keep) + TracksIn(step.root, step.files[..j], tags, keep)
      {
        var file := step.files[j];
        TracksInSnoc(step.root, step.files, tags, keep, j);
        if keep(file) {
          found := found + [Track(step.root, file, tags)];
        }
      }
      assert walk[..i + 1][..i] == walk[..i];
      assert step.files[..|step.files|] == step.files;
    }
    assert walk[..|walk|] == walk;
  }

  /** `PlayList.playlist`: the walk's files whose extension is an audio extension, in walk order. */
  method Scan(walk: seq<WalkStep>, tags: TagReader) returns (audioFiles: seq<Music>)
    ensures audioFiles == AudioTracks(walk, tags)
  {
    audioFiles := CollectTracks(walk, tags, IsAudioFile);
  }

  /** The cursor after `next`: one further on, wrapping from the last track to the first. */
  function NextIndex(i: int, n: nat): (j: int)
    requires 0 <= i < n
    ensures 0 <= j < n
    ensures j == (i + 1) % n
  {
    if i + 1 >= n then 0 else i + 1
  }

  /** The cursor after `prev`: one back, wrapping from the first track to the last. */
  function PrevIndex(i: int, n: nat): (j: int)
    requires 0 <= i < n
    ensures 0 <= j < n
    ensures j == (i - 1) % n
    ensures NextIndex(j, n) == i
  {
    if i - 1 < 0 then n - 1 else i - 1
  }

  /** `prev` undoes `next`. */
  lemma PrevUndoesNext(i: int, n: nat)
    requires 0 <= i < n
    ensures PrevIndex(NextIndex(i, n), n) == i
  {
  }

  class PlayList {
    var files: seq<Music>
    var current: int

    ghost predicate Valid()
      reads this
    {
      0 <= current && (files == [] || current < |files|)
    }

    constructor (walk: seq<WalkStep>, tags: TagReader)
      ensures Valid()
      ensures files == AudioTracks(walk, tags) && current == 0
    {
      var audioFiles := Scan(walk, tags);
      files := audioFiles;
      current := 0;
    }

    /** `current_song`; indexing an empty playlist fails, so callers must have a track. */
    function CurrentSong(): (m: Music)
      reads this
      requires Valid() && files != []
      ensures m in files
    {
      files[current]
    }
  }
}
