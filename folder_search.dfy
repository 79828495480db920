/**
 * Bounded upward searches over a directory's ancestor chain
 * (`is_in_edit_folder` and `find_production_folder` of the promote operator).
 *
 * An absolute path is the sequence of its components; the root is the empty
 * sequence.  As with `pathlib.Path.parent`, the parent of the root is the root.
 * The filesystem is the set of paths that exist.
 */
module FolderSearch {
  import opened Wrappers

  type Path = seq<string>

  /** `path.parent`: drop the last component; the root is its own parent. */
  function Parent(p: Path): Path
  {
    if p == [] then [] else p[..|p| - 1]
  }

  /** `os.path.basename`: the last component; the root's is empty. */
  function Basename(p: Path): string
  {
    if p == [] then "" else p[|p| - 1]
  }

  /** `os.path.join(p, name)` for a single component `name`. */
  function Join(p: Path, name: string): Path
  {
    p + [name]
  }

  /** The k-th ancestor: 0 is the directory itself, 1 its parent, and so on. */
  function Ancestor(p: Path, k: nat): Path
  {
    if k == 0 then p else Ancestor(Parent(p), k - 1)
  }

  /** Number of directories a search with budget `depth` examines: max(depth, 1). */
  function Budget(depth: int): nat
  {
    if depth < 1 then 1 else depth
  }

  /**
   * `is_in_edit_folder`: decrement the budget, test the basename, and recurse
   * to the parent only while the decremented budget is still positive.
   */
  function IsInEditFolder(editFolderName: string, path: Path, depth: int): bool
    decreases depth
  {
    var remaining := depth - 1;
    if Basename(path) == editFolderName then true
    else if remaining > 0 then IsInEditFolder(editFolderName, Parent(path), remaining)
    else false
  }

  /**
   * `find_production_folder`: decrement the budget, test whether
   * `path/prodFolderName` exists, and recurse to the parent only while the
   * decremented budget is still positive; `None` when the budget runs out.
   */
  function FindProductionFolder(prodFolderName: string, path: Path, depth: int, existing: set<Path>): Option<Path>
    decreases depth
  {
    var remaining := depth - 1;
    var candidate := Join(path, prodFolderName);
    if candidate in existing then Some(candidate)
    else if remaining > 0 then FindProductionFolder(prodFolderName, Parent(path), remaining, existing)
    else None
  }

  lemma AncestorOfParent(p: Path, k: nat)
    ensures Ancestor(Parent(p), k) == Ancestor(p, k + 1)
  {
  }

  /**
   * The edit-folder check holds exactly when one of the first max(depth, 1)
   * directories of the ancestor chain (the start directory included) carries
   * the edit folder's name.
   */
  lemma {:induction false} IsInEditFolderExamines(editFolderName: string, path: Path, depth: int)
    ensures IsInEditFolder(editFolderName, path, depth) <==>
            exists k :: 0 <= k < Budget(depth) && Basename(Ancestor(path, k)) == editFolderName
    decreases depth
  {
    if Basename(path) == editFolderName {
      assert Basename(Ancestor(path, 0)) == editFolderName && 0 < Budget(depth);
      assert exists k :: 0 <= k < Budget(depth) && Basename(Ancestor(path, k)) == editFolderName;
    } else if depth - 1 > 0 {
      IsInEditFolderExamines(editFolderName, Parent(path), depth - 1);
      if IsInEditFolder(editFolderName, path, depth) {
        var k :| 0 <= k < Budget(depth - 1) && Basename(Ancestor(Parent(path), k)) == editFolderName;
        AncestorOfParent(path, k);
        assert Basename(Ancestor(path, k + 1)) == editFolderName;
      } else {
        forall k | 0 <= k < Budget(depth)
          ensures Basename(Ancestor(path, k)) != editFolderName
        {
          if k > 0 {
            AncestorOfParent(path, k - 1);
          }
        }
      }
    } else {
      forall k | 0 <= k < Budget(depth)
        ensures Basename(Ancestor(path, k)) != editFolderName
      {
        assert k == 0;
      }
    }
  }

  /** Ancestor `k` is the nearest one holding an entry named `name`. */
  predicate NearestEntryAt(name: string, path: Path, k: nat, existing: set<Path>)
  {
    && Join(Ancestor(path, k), name) in existing
    && forall j :: 0 <= j < k ==> Join(Ancestor(path, j), name) !in existing
  }

  /**
   * The production search finds nothing exactly when none of the first
   * max(depth, 1) ancestors holds an entry named `prodFolderName`; when it
   * finds something, it is that entry of the nearest such ancestor, so a
   * farther match is never preferred to a nearer one.
   */
  lemma {:induction false} FindProductionFolderNearest(prodFolderName: string, path: Path, depth: int, existing: set<Path>)
    ensures FindProductionFolder(prodFolderName, path, depth, existing).None? <==>
            forall k :: 0 <= k < Budget(depth) ==> Join(Ancestor(path, k), prodFolderName) !in existing
    ensures FindProductionFolder(prodFolderName, path, depth, existing).Some? ==>
            exists k :: 0 <= k < Budget(depth) && NearestEntryAt(prodFolderName, path, k, existing) &&
              FindProductionFolder(prodFolderName, path, depth, existing).value == Join(Ancestor(path, k), prodFolderName)
    decreases depth
  {
    var r := FindProductionFolder(prodFolderName, path, depth, existing);
    if Join(path, prodFolderName) in existing {
      assert Ancestor(path, 0) == path;
      assert Join(Ancestor(path, 0), prodFolderName) in existing;
      assert NearestEntryAt(prodFolderName, path, 0, existing);
    } else if depth - 1 > 0 {
      FindProductionFolderNearest(prodFolderName, Parent(path), depth - 1, existing);
      assert r == FindProductionFolder(prodFolderName, Parent(path), depth - 1, existing);
      if r.Some? {
        var k :| 0 <= k < Budget(depth - 1) && NearestEntryAt(prodFolderName, Parent(path), k, existing) &&
          r.value == Join(Ancestor(Parent(path), k), prodFolderName);
        AncestorOfParent(path, k);
        forall j | 0 <= j < k + 1
          ensures Join(Ancestor(path, j), prodFolderName) !in existing
        {
          if j > 0 {
            AncestorOfParent(path, j - 1);
          }
        }
        assert NearestEntryAt(prodFolderName, path, k + 1, existing);
      } else {
        forall k | 0 <= k < Budget(depth)
          ensures Join(Ancestor(path, k), prodFolderName) !in existing
        {
          if k > 0 {
            AncestorOfParent(path, k - 1);
          }
        }
      }
    } else {
      forall k | 0 <= k < Budget(depth)
        ensures Join(Ancestor(path, k), prodFolderName) !in existing
      {
        assert k == 0;
      }
    }
  }

  /**
   * A budget of zero or less still examines the start directory in both
   * searches, and nothing beyond it.
   */
  lemma NonPositiveDepthExaminesStartOnly(editFolderName: string, prodFolderName: string, path: Path, depth: int, existing: set<Path>)
    requires depth <= 0
    ensures IsInEditFolder(editFolderName, path, depth) <==> Basename(path) == editFolderName
    ensures FindProductionFolder(prodFolderName, path, depth, existing) ==
            if Join(path, prodFolderName) in existing then Some(Join(path, prodFolderName)) else None
  {
  }

  /**
   * The layout `/proj/shots/edit` with `/proj/assets`: the default budget of 3
   * reaches the grandparent's `assets`, a budget of 2 does not, and
   * `/proj/shots/work` is under no `edit` folder.
   */
  lemma ScenarioLayout()
    ensures IsInEditFolder("edit", ["proj", "shots", "edit"], 3)
    ensures FindProductionFolder("assets", ["proj", "shots", "edit"], 3, {["proj", "assets"]}) == Some(["proj", "assets"])
    ensures FindProductionFolder("assets", ["proj", "shots", "edit"], 2, {["proj", "assets"]}) == None
    ensures !IsInEditFolder("edit", ["proj", "shots", "work"], 3)
  {
    var existing: set<Path> := {["proj", "assets"]};
    assert Parent(["proj", "shots", "edit"]) == ["proj", "shots"];
    assert Parent(["proj", "shots", "work"]) == ["proj", "shots"];
    assert Parent(["proj", "shots"]) == ["proj"];
    assert Join(["proj"], "assets") == ["proj", "assets"];
    assert ["proj", "shots", "edit", "assets"] !in existing && ["proj", "shots", "assets"] !in existing;
    assert FindProductionFolder("assets", ["proj"], 1, existing) == Some(["proj", "assets"]);
    assert FindProductionFolder("assets", ["proj", "shots"], 1, existing) == None;
    assert !IsInEditFolder("edit", ["proj"], 1);
    assert !IsInEditFolder("edit", ["proj", "shots"], 2);
  }
}
