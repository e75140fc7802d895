/**
 * A project tree as `os.walk` sees it, and `os.path.join` for relative names.
 */
module Files {
  /** A directory: its file names and its sub-directories, in listing order. */
  datatype Dir = Dir(files: seq<string>, subdirs: seq<Sub>)
  datatype Sub = Sub(name: string, dir: Dir)

  /** `os.path.join(root, name)` for a relative name. */
  function JoinPath(root: string, name: string): string
  {
    if root == "" || root[|root| - 1] == '/' then root + name else root + "/" + name
  }
}
