/**
 * `Music`: one audio file and the tag metadata read from it. Reading the
 * tags is a foreign call, so the metadata dictionary is taken as given: a
 * map from "artist", "title", "album" to the tag's text, or `None` when the
 * file carries no such tag.
 */
module Tracks {
  import opened Wrappers
  import opened Paths

  type Metadata = map<string, Option<string>>

  datatype Music = Music(filePath: string, metadata: Metadata)
  {
    /** `metadata.get(key, "")`: the tag value, `Some("")` when the key is absent. */
    function Lookup(key: string): Option<string>
    {
      if key in metadata then metadata[key] else Some("")
    }

    function Artist(): Option<string>
    {
      Lookup("artist")
    }

    function Album(): Option<string>
    {
      Lookup("album")
    }

    /**
     * The `title` property: the stored title unless the tag reader reported
     * `None`, in which case the file's basename up to its first dot.
     */
    function Title(): (t: string)
      ensures "title" !in metadata ==> t == ""
      ensures "title" in metadata && metadata["title"].Some? ==> t == metadata["title"].value
      ensures "title" in metadata && metadata["title"].None? ==>
        var b := Basename(filePath);
        '.' !in t && '/' !in t && |t| <= |b| && b[..|t|] == t &&
        (|t| < |b| ==> b[|t|] == '.')
    {
      match Lookup("title")
      case None => BeforeFirstDot(Basename(filePath))
      case Some(s) => s
    }
  }

  /**
   * A file found under `root` whose title tag is missing is titled by its own
   * name up to the first dot, whatever directory it sits in.
   */
  lemma TitleOfUntaggedFile(root: string, name: string, metadata: Metadata)
    requires '/' !in name
    requires "title" in metadata && metadata["title"] == None
    ensures Music(Join(root, name), metadata).Title() == BeforeFirstDot(name)
  {
    BasenameOfJoin(root, name);
  }
}
