/**
 * The promote operator (`VIEW3D_OT_rowdy_promote.execute`): check that the
 * open file sits under an edit folder, find the production folder, check that
 * every linked library already exists there, point the libraries at it, save
 * a copy of the file into it, and point the libraries back.
 */
module Promotion {
  import opened Wrappers
  import opened FolderSearch
  import opened LinkedLibraries

  /** The add-on preferences the operators read. */
  datatype Preferences = Preferences(
    prodFolderName: string,
    editFolderName: string,
    searchDepth: int,
    backupPostfix: string)

  /** The preference defaults. */
  const DefaultPreferences := Preferences("assets", "edit", 3, "_b")

  /** How the operator ends: `FINISHED` with the reported path, or one of the `CANCELLED` exits. */
  datatype Outcome =
    | Finished(promotedTo: Path)
    | NotInEditFolder
    | NoProductionFolder
    | BrokenLinks(names: seq<string>)

  /** A `save_as_mainfile(copy=True)` request: where the copy goes and the session's library paths when it is issued. */
  datatype SaveCopy = SaveCopy(target: Path, linkPaths: seq<string>)

  /** The current file path of every library, in library order. */
  function LinkPaths(libs: seq<Library>): (paths: seq<string>)
    reads libs
    ensures |paths| == |libs|
    ensures forall i :: 0 <= i < |libs| ==> paths[i] == libs[i].filepath
  {
    if libs == [] then [] else LinkPaths(libs[..|libs| - 1]) + [libs[|libs| - 1].filepath]
  }

  /** Every path of `paths` pointed at its production counterpart. */
  function RelocatedAll(paths: seq<string>, prodPath: Path, basename: string -> string, relpath: Path -> string): seq<string>
  {
    seq(|paths|, i requires 0 <= i < |paths| => Relocated(paths[i], prodPath, basename, relpath))
  }

  /**
   * The promote operator.  The file lives in directory `dir` under the name
   * `filename`; `existing` is the set of paths that exist and `regularFiles`
   * the set of regular files.  The save is a step outside the model that
   * leaves the libraries alone; its request is returned as `saved`.
   */
  method Promote(prefs: Preferences, dir: Path, filename: string, existing: set<Path>, regularFiles: set<Path>,
                 libs: seq<Library>, basename: string -> string, relpath: Path -> string)
    returns (outcome: Outcome, saved: Option<SaveCopy>)
    requires Distinct(libs)
    modifies libs
    // the live session gets its library paths back on every exit
    ensures forall i :: 0 <= i < |libs| ==> libs[i].filepath == old(libs[i].filepath)
    ensures !IsInEditFolder(prefs.editFolderName, dir, prefs.searchDepth) ==>
              outcome == NotInEditFolder && saved == None
    ensures IsInEditFolder(prefs.editFolderName, dir, prefs.searchDepth) &&
            FindProductionFolder(prefs.prodFolderName, dir, prefs.searchDepth, existing).None? ==>
              outcome == NoProductionFolder && saved == None
    ensures IsInEditFolder(prefs.editFolderName, dir, prefs.searchDepth) &&
            FindProductionFolder(prefs.prodFolderName, dir, prefs.searchDepth, existing).Some? ==>
              var prodPath := FindProductionFolder(prefs.prodFolderName, dir, prefs.searchDepth, existing).value;
              var missing := old(MissingLibraries(libs, prodPath, regularFiles, basename));
              if missing != [] then
                outcome == BrokenLinks(missing) && saved == None
              else
                && outcome == Finished(Join(prodPath, filename))
                && saved == Some(SaveCopy(Join(prodPath, filename), RelocatedAll(old(LinkPaths(libs)), prodPath, basename, relpath)))
                && forall i :: 0 <= i < |libs| ==> Join(prodPath, basename(old(libs[i].filepath))) in regularFiles
  {
    var isEditFile := IsInEditFolder(prefs.editFolderName, dir, prefs.searchDepth);
    if !isEditFile {
      return NotInEditFolder, None;
    }
    var found := FindProductionFolder(prefs.prodFolderName, dir, prefs.searchDepth, existing);
    if found.None? {
      return NoProductionFolder, None;
    }
    var prodPath := found.value;
    var newPath := Join(prodPath, filename);
    var broken := CheckLinkedLibraries(libs, prodPath, regularFiles, basename);
    if broken != [] {
      return BrokenLinks(broken), None;
    }
    MissingLibrariesEmpty(libs, prodPath, regularFiles, basename);
    ghost var before := LinkPaths(libs);
    var original := UpdateLinkedLibraries(libs, prodPath, basename, relpath);
    var copy := SaveCopy(newPath, LinkPaths(libs));
    assert copy.linkPaths == RelocatedAll(before, prodPath, basename, relpath);
    RestoreLinkedLibraries(libs, original);
    outcome, saved := Finished(newPath), Some(copy);
  }

  /**
   * `shot010.blend` in `/proj/shots/edit` with the default preferences, and
   * `assets` two levels up holding both linked libraries: the copy goes to
   * `/proj/assets/shot010.blend` and both libraries keep their paths.
   */
  method PromoteScenarioFinished()
  {
    var basename := (p: string) => p;
    var relpath := (p: Path) => "//" + Basename(p);
    var rock := new Library("rock", "rock.blend");
    var tree := new Library("tree", "tree.blend");
    var prodPath: Path := ["proj", "assets"];
    var both: set<Path> := {["proj", "assets", "rock.blend"], ["proj", "assets", "tree.blend"]};
    ScenarioLayout();
    assert Join(prodPath, basename(rock.filepath)) == ["proj", "assets", "rock.blend"];
    assert Join(prodPath, basename(tree.filepath)) == ["proj", "assets", "tree.blend"];
    MissingLibrariesEmpty([rock, tree], prodPath, both, basename);
    var outcome, saved := Promote(DefaultPreferences, ["proj", "shots", "edit"], "shot010.blend",
                                  {prodPath}, both, [rock, tree], basename, relpath);
    assert outcome == Finished(["proj", "assets", "shot010.blend"]);
    assert rock.filepath == "rock.blend" && tree.filepath == "tree.blend";
  }

  /** The same layout with `tree.blend` missing from `assets`: the operator stops and names `tree`. */
  method PromoteScenarioBrokenLink()
  {
    var basename := (p: string) => p;
    var relpath := (p: Path) => "//" + Basename(p);
    var rock := new Library("rock", "rock.blend");
    var tree := new Library("tree", "tree.blend");
    var prodPath: Path := ["proj", "assets"];
    var onlyRock: set<Path> := {["proj", "assets", "rock.blend"]};
    ScenarioLayout();
    assert Join(prodPath, basename(rock.filepath)) == ["proj", "assets", "rock.blend"];
    assert Join(prodPath, basename(tree.filepath)) == ["proj", "assets", "tree.blend"];
    assert [rock, tree][..1] == [rock] && [rock][..0] == [];
    assert MissingLibraries([rock], prodPath, onlyRock, basename) == [];
    assert MissingLibraries([rock, tree], prodPath, onlyRock, basename) == ["tree"];
    var outcome, saved := Promote(DefaultPreferences, ["proj", "shots", "edit"], "shot010.blend",
                                  {prodPath}, onlyRock, [rock, tree], basename, relpath);
    assert outcome == BrokenLinks(["tree"]) && saved == None;
    assert rock.filepath == "rock.blend" && tree.filepath == "tree.blend";
  }

  /**
   * A file in `/proj/shots/work`, with no `edit` folder among the start
   * directory and its two nearest ancestors, is refused.
   */
  method PromoteScenarioNotInEditFolder()
  {
    var rock := new Library("rock", "rock.blend");
    ScenarioLayout();
    var outcome, saved := Promote(DefaultPreferences, ["proj", "shots", "work"], "shot010.blend",
                                  {["proj", "assets"]}, {}, [rock], (p: string) => p, (p: Path) => "");
    assert outcome == NotInEditFolder && saved == None;
  }
}
