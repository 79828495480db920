/**
 * The libraries linked into the open blend file, and the three loops of the
 * promote operator that visit them: the consistency check
 * (`check_linked_libraries`), the relocation into the production folder
 * (`update_linked_libraries`) and the restore loop that follows the save.
 *
 * `bpy.path.basename` and `bpy.path.relpath` are host functions whose
 * definitions are not part of this model; they are passed in as functions.
 */
module LinkedLibraries {
  import opened FolderSearch

  /** A library datablock: its display name and the file path it links to. */
  class Library {
    const nameFull: string
    var filepath: string

    constructor (nameFull: string, filepath: string)
      ensures this.nameFull == nameFull && this.filepath == filepath
    {
      this.nameFull := nameFull;
      this.filepath := filepath;
    }
  }

  /** The session holds each library datablock once. */
  predicate Distinct(libs: seq<Library>)
  {
    forall i, j :: 0 <= i < j < |libs| ==> libs[i] != libs[j]
  }

  /** `os.path.isfile(os.path.join(prod_path, bpy.path.basename(lib.filepath)))`. */
  predicate InProduction(lib: Library, prodPath: Path, regularFiles: set<Path>, basename: string -> string)
    reads lib
  {
    Join(prodPath, basename(lib.filepath)) in regularFiles
  }

  /** The names of the libraries whose production counterpart is missing, in library order. */
  function MissingLibraries(libs: seq<Library>, prodPath: Path, regularFiles: set<Path>, basename: string -> string): seq<string>
    reads libs
  {
    if libs == [] then []
    else
      var last := libs[|libs| - 1];
      MissingLibraries(libs[..|libs| - 1], prodPath, regularFiles, basename) +
      (if InProduction(last, prodPath, regularFiles, basename) then [] else [last.nameFull])
  }

  /** The missing names of a concatenation are those of each part, in order. */
  lemma {:induction false} MissingLibrariesAppend(a: seq<Library>, b: seq<Library>, prodPath: Path, regularFiles: set<Path>, basename: string -> string)
    ensures MissingLibraries(a + b, prodPath, regularFiles, basename) ==
            MissingLibraries(a, prodPath, regularFiles, basename) + MissingLibraries(b, prodPath, regularFiles, basename)
    decreases |b|
  {
    if b == [] {
      assert a + b == a;
    } else {
      var b' := b[..|b| - 1];
      assert (a + b)[..|a + b| - 1] == a + b';
      MissingLibrariesAppend(a, b', prodPath, regularFiles, basename);
    }
  }

  /** Splitting the libraries anywhere splits the report there: the check keeps library order. */
  lemma MissingLibrariesKeepOrder(libs: seq<Library>, k: nat, prodPath: Path, regularFiles: set<Path>, basename: string -> string)
    requires k <= |libs|
    ensures MissingLibraries(libs, prodPath, regularFiles, basename) ==
            MissingLibraries(libs[..k], prodPath, regularFiles, basename) + MissingLibraries(libs[k..], prodPath, regularFiles, basename)
  {
    assert libs == libs[..k] + libs[k..];
    MissingLibrariesAppend(libs[..k], libs[k..], prodPath, regularFiles, basename);
  }

  /** A name is reported exactly when some library of that name is missing from production. */
  lemma {:induction false} MissingLibrariesExact(libs: seq<Library>, prodPath: Path, regularFiles: set<Path>, basename: string -> string, name: string)
    ensures name in MissingLibraries(libs, prodPath, regularFiles, basename) <==>
            exists i :: 0 <= i < |libs| && libs[i].nameFull == name && !InProduction(libs[i], prodPath, regularFiles, basename)
  {
    if libs != [] {
      var init := libs[..|libs| - 1];
      MissingLibrariesExact(init, prodPath, regularFiles, basename, name);
      assert forall i :: 0 <= i < |init| ==> init[i] == libs[i];
      if exists i :: 0 <= i < |libs| && libs[i].nameFull == name && !InProduction(libs[i], prodPath, regularFiles, basename) {
        var i :| 0 <= i < |libs| && libs[i].nameFull == name && !InProduction(libs[i], prodPath, regularFiles, basename);
        if i < |init| {
          assert init[i] == libs[i];
        }
      }
    }
  }

  /** Nothing is reported exactly when every library is present in production (in particular when there are none). */
  lemma {:induction false} MissingLibrariesEmpty(libs: seq<Library>, prodPath: Path, regularFiles: set<Path>, basename: string -> string)
    ensures MissingLibraries(libs, prodPath, regularFiles, basename) == [] <==>
            forall i :: 0 <= i < |libs| ==> InProduction(libs[i], prodPath, regularFiles, basename)
  {
    if libs != [] {
      var init := libs[..|libs| - 1];
      MissingLibrariesEmpty(init, prodPath, regularFiles, basename);
      assert forall i :: 0 <= i < |init| ==> init[i] == libs[i];
    }
  }

  /** `check_linked_libraries`: collect the names of the libraries missing from production. */
  method CheckLinkedLibraries(libs: seq<Library>, prodPath: Path, regularFiles: set<Path>, basename: string -> string)
    returns (broken: seq<string>)
    ensures broken == MissingLibraries(libs, prodPath, regularFiles, basename)
  {
    broken := [];
    for i := 0 to |libs|
      invariant broken == MissingLibraries(libs[..i], prodPath, regularFiles, basename)
    {
      assert libs[..i + 1][..i] == libs[..i];
      var link := libs[i];
      if Join(prodPath, basename(link.filepath)) !in regularFiles {
        broken := broken + [link.nameFull];
      }
    }
    assert libs[..|libs|] == libs;
  }

  /** The path a library is pointed at in production: relative to the blend file, `prod_path/basename(path)`. */
  function Relocated(path: string, prodPath: Path, basename: string -> string, relpath: Path -> string): string
  {
    relpath(Join(prodPath, basename(path)))
  }

  /**
   * `update_linked_libraries`: point every library at its production
   * counterpart, recording its previous path in a map keyed by the library.
   */
  method UpdateLinkedLibraries(libs: seq<Library>, prodPath: Path, basename: string -> string, relpath: Path -> string)
    returns (original: map<Library, string>)
    requires Distinct(libs)
    modifies libs
    ensures original.Keys == set l | l in libs
    ensures forall i :: 0 <= i < |libs| ==> original[libs[i]] == old(libs[i].filepath)
    ensures forall i :: 0 <= i < |libs| ==> libs[i].filepath == Relocated(old(libs[i].filepath), prodPath, basename, relpath)
  {
    original := map[];
    for i := 0 to |libs|
      invariant original.Keys == set l | l in libs[..i]
      invariant forall j :: 0 <= j < i ==> original[libs[j]] == old(libs[j].filepath)
      invariant forall j :: 0 <= j < i ==> libs[j].filepath == Relocated(old(libs[j].filepath), prodPath, basename, relpath)
      invariant forall j :: i <= j < |libs| ==> libs[j].filepath == old(libs[j].filepath)
    {
      var link := libs[i];
      assert forall j :: 0 <= j < |libs| && j != i ==> libs[j] != link;
      var newLink := Join(prodPath, basename(link.filepath));
      original := original[link := link.filepath];
      link.filepath := relpath(newLink);
      assert libs[..i + 1] == libs[..i] + [link];
    }
    assert libs[..|libs|] == libs;
  }

  /** The restore loop: every library found in the map gets its recorded path back. */
  method RestoreLinkedLibraries(libs: seq<Library>, original: map<Library, string>)
    requires Distinct(libs)
    modifies libs
    ensures forall i :: 0 <= i < |libs| ==>
              libs[i].filepath == if libs[i] in original then original[libs[i]] else old(libs[i].filepath)
  {
    for i := 0 to |libs|
      invariant forall j :: 0 <= j < i ==>
                  libs[j].filepath == if libs[j] in original then original[libs[j]] else old(libs[j].filepath)
      invariant forall j :: i <= j < |libs| ==> libs[j].filepath == old(libs[j].filepath)
    {
      var link := libs[i];
      if link in original {
        link.filepath := original[link];
      }
    }
  }
}
