/**
  Storage file paths: `Path.Combine(<database folder>, <name> + <extension>)`.
 */
module Paths {

  /** The directory separator `Path.Combine` inserts. */
  const Separator: char := '/'

  /** The folder part `Path.Combine` puts before a relative file name. */
  function FolderPrefix(folder: string): string
  {
    if folder == [] || folder[|folder| - 1] == Separator then folder else folder + [Separator]
  }

  /**
    `CombinePath(fileName)`: the file `fileName + extension` inside `folder`.
    The path starts with the folder and ends with the file name and extension.
   */
  function CombinePath(folder: string, fileName: string, extension: string): (path: string)
    ensures |path| >= |folder| + |fileName| + |extension|
    ensures path[..|folder|] == folder
    ensures path[|path| - |extension|..] == extension
    ensures path[|path| - |extension| - |fileName|..|path| - |extension|] == fileName
  {
    FolderPrefix(folder) + (fileName + extension)
  }

  /** Different names in one folder, with one extension, never share a file. */
  lemma CombinePathInjective(folder: string, name1: string, name2: string, extension: string)
    ensures CombinePath(folder, name1, extension) == CombinePath(folder, name2, extension) <==> name1 == name2
  {
  }
}
