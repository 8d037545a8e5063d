/**
 * The plugin's file accessor (the FS interface the registry entry consumes).
 * Its implementation is not part of this model: an accessor is the root
 * directory it serves, the contents of the files it can open or read, keyed by
 * the path exactly as a caller passes it, and the absolute path it reports for
 * each name that exists.
 */
module Files {
  import opened Wrappers
  import opened Bytes

  datatype FS = FS(base: string, contents: map<string, seq<byte>>, fullPaths: map<string, string>) {

    /** The root directory of the plugin's files. */
    function Base(): string
    {
      base
    }

    predicate Exists(path: string)
    {
      path in contents
    }

    function Read(path: string): seq<byte>
      requires Exists(path)
    {
      contents[path]
    }

    /** Opening and reading a whole file; None where opening or reading fails. */
    function Open(name: string): Option<seq<byte>>
    {
      if name in contents then Some(contents[name]) else None
    }

    /** The absolute path of name, and whether such a file exists. */
    function FullPath(name: string): (string, bool)
    {
      if name in fullPaths then (fullPaths[name], true) else ("", false)
    }
  }
}
