/**
 * The file system as the runner sees it: a map from a file's path to its
 * bytes. Directories are not modelled; creating a file creates whatever
 * folders it needs.
 */
module Files {

  newtype Byte = b: int | 0 <= b < 256

  class FileSystem {
    var files: map<string, seq<Byte>>

    constructor (initial: map<string, seq<Byte>>)
      ensures files == initial
    {
      files := initial;
    }

    /** `mkdirs` followed by `File.createNewFile`, or a fresh FileOutputStream: the file exists and is empty. */
    method CreateEmpty(path: string)
      modifies this
      ensures files == old(files)[path := []]
    {
      files := files[path := []];
    }

    /** `OutputStream.write(b)` on a stream opened on `path`. */
    method Append(path: string, b: Byte)
      requires path in files
      modifies this
      ensures files == old(files)[path := old(files)[path] + [b]]
    {
      files := files[path := files[path] + [b]];
    }
  }
}
