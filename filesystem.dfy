/**
 The files the scripts read and rewrite: a mutable map from path to text.
 A path is present exactly when the file exists.
 */
module FileSystem {
  import opened Targets

  class Disk {
    var files: map<Path, string>

    /** Opening a path for writing and writing `text` replaces its contents. */
    method Write(p: Path, text: string)
      modifies this
      ensures files == old(files)[p := text]
    {
      files := files[p := text];
    }
  }
}
