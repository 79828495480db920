# Rowdy Tools: backup numbering and file promotion, in Dafny

Rowdy Tools is a Blender add-on with two operators.

- **Backup** saves a copy of the open blend file next to it as
  `<base><postfix><N>.blend`. `N` is meant to be one more than the largest
  version already present in the folder. The code takes the largest version
  in the last directory `os.walk` yields, with each name's extension stripped
  twice; see "## Findings".
- **Promote** applies only to a file that lies under an *edit* folder. It looks
  up the ancestor chain for a *production* folder (`assets` by default). It
  checks that every linked library already exists in that folder. Then it
  points the libraries at their production copies, saves a copy of the file
  into the production folder, and points the libraries back.

The model has five modules:

- `Wrappers` (`wrappers.dfy`): `Option`.
- `FolderSearch` (`folder_search.dfy`): paths and the two bounded upward
  searches.
  - An absolute path is a sequence of components, and the root is `[]`.
  - The parent of a path drops its last component. The root is its own parent.
  - The filesystem is the set of paths that exist.
  - Both searches examine exactly `max(depth, 1)` directories: the start
    directory, then its parent, and so on (`Budget`).
- `BackupNaming` (`backup_naming.dfy`): the backup operator.
  - `os.path.splitext`.
  - The version match, read as the literal prefix `base + postfix` followed by
    a maximal run of ASCII digits.
  - The numbering loop, the name it builds, and the `os.walk` loop.
- `LinkedLibraries` (`linked_libraries.dfy`): the library loops.
  - A `Library` class with a mutable `filepath`.
  - The consistency check, the relocation (which returns the map of old paths)
    and the restore loop, each a method with a loop over the session's
    libraries.
- `Promotion` (`promotion.dfy`): the promote operator as a method.
  - It ends in `Finished(path)` or in one of the three cancelled outcomes.
  - It returns the save-copy request it issues: the target path and the
    session's library paths when the save is issued.
  - It also holds three client methods that run the operator on a concrete
    layout: success, a broken link, and a file outside any edit folder.

Host and filesystem calls are inputs.

- `bpy.path.abspath("//")` is the directory argument.
- The `os.walk` listing, `os.path.exists` and `os.path.isfile` are given as a
  sequence of listings and as sets of paths.
- `bpy.path.basename` and `bpy.path.relpath` are function parameters.

Two points of the code are worth stating outright.

- A search depth of 0 or less still tests the start directory, in both
  searches (`NonPositiveDepthExaminesStartOnly`).
- Lines 137-141 have no `try`/`finally`, so an exception from the save skips
  the restore loop. The model treats the save as returning.

## Model

| member | source | states |
|---|---|---|
| FolderSearch.IsInEditFolderExamines | rowdy_tools.py:161-170 | the edit-folder check holds iff one of the first max(depth,1) directories of the ancestor chain (start included, even for depth <= 0) has the edit folder's name |
| FolderSearch.FindProductionFolderNearest | rowdy_tools.py:149-158 | the production search returns None iff no entry `prod_folder_name` exists in the first max(depth,1) ancestors; otherwise it returns that entry of the nearest such ancestor, never a farther one |
| FolderSearch.NonPositiveDepthExaminesStartOnly | rowdy_tools.py:149-170 | with depth <= 0 both searches still test the start directory and nothing else |
| FolderSearch.ScenarioLayout | rowdy_tools.py:149-170 | for `/proj/shots/edit` with `/proj/assets`: depth 3 finds `/proj/assets`, depth 2 does not, and `/proj/shots/work` is under no edit folder |
| BackupNaming.StripExtDropsExtension | rowdy_tools.py:71-79 | `splitext(stem + "." + ext)[0] == stem` when `ext` has no dot and `stem` is not all dots |
| BackupNaming.StripExtNoDot | rowdy_tools.py:75-79 | a name without a dot is left unchanged by `splitext(...)[0]` |
| BackupNaming.DigitRun | rowdy_tools.py:80 | the captured group `(\d+)` is the longest run of digits after the prefix: all digits, and the next character is not a digit |
| BackupNaming.DecimalRoundTrip | rowdy_tools.py:82-86 | `int(str(n)) == n` for every natural `n` |
| BackupNaming.HighestIsMax | rowdy_tools.py:77-85 | the running maximum of the loop bounds every version it meets and is one of them unless it is 0 |
| BackupNaming.HighestVersionIsMax | rowdy_tools.py:77-85 | the tracked highest version bounds the version of every matching name and equals one of them unless it is 0 |
| BackupNaming.HighestVersionNoMatch | rowdy_tools.py:77-85 | when no listed name matches, the highest version stays 0 |
| BackupNaming.NextVersion | rowdy_tools.py:77-86 | the loop yields 1 + the largest version among the names (extension stripped), 1 when none matches |
| BackupNaming.BackupNameVersion | rowdy_tools.py:80-86 | the name `base + postfix + str(v) + ".blend"`, stripped once, matches with exactly version `v` |
| BackupNaming.LastWalkedListing | rowdy_tools.py:73-75 | the walk loop leaves the stripped names of the last directory walked, and `[]` if nothing was walked |
| BackupNaming.BackupAsWritten | rowdy_tools.py:69-89 | as written: the target is the directory + `base + postfix + str(max+1) + ".blend"`, the max taken over the last walked listing stripped twice, and the reported name is that file name |
| BackupNaming.Backup | rowdy_tools.py:69-89 | corrected: numbering over the blend file's own folder, stripped once; the target is the directory + the reported name, and that name is not already in the folder |
| BackupNaming.StripKeepsVersion | rowdy_tools.py:75-80 | with a dot-free prefix, stripping one more extension does not change the version a name carries |
| BackupNaming.HighestVersionOfStems | rowdy_tools.py:75-84 | with a dot-free prefix, stripping the listing first leaves the highest version unchanged |
| BackupNaming.AsWrittenAgreesWithoutDotsOrSubfolders | rowdy_tools.py:73-84 | with one directory walked and no dot in `base + postfix`, the as-written numbering equals the corrected one |
| BackupNaming.DottedBaseOverwritesBackup | rowdy_tools.py:71-86 | for `shot.v2.blend` beside `shot.v2_b1.blend` the as-written operator picks `shot.v2_b1.blend` again |
| BackupNaming.SubfolderHidesBackups | rowdy_tools.py:73-86 | with `shot_b1.blend` beside `shot.blend` and a subfolder, the as-written operator picks `shot_b1.blend` again |
| LinkedLibraries.MissingLibrariesExact | rowdy_tools.py:173-181 | a name is reported iff some library of that name has no regular file `prod_path/basename(filepath)` |
| LinkedLibraries.MissingLibrariesEmpty | rowdy_tools.py:173-181 | the report is empty iff every library is present in production, in particular when there are no libraries |
| LinkedLibraries.MissingLibrariesAppend | rowdy_tools.py:173-181 | the report for two concatenated library lists is the first list's report followed by the second's |
| LinkedLibraries.MissingLibrariesKeepOrder | rowdy_tools.py:173-181 | splitting the libraries at any point splits the report at the same point, so library order is kept |
| LinkedLibraries.CheckLinkedLibraries | rowdy_tools.py:173-181 | the loop returns exactly the names of the missing libraries, in library order |
| LinkedLibraries.UpdateLinkedLibraries | rowdy_tools.py:184-192 | every library's `filepath` becomes `relpath(prod_path/basename(old filepath))`; the returned map has one key per library, holding its `filepath` from before the call |
| LinkedLibraries.RestoreLinkedLibraries | rowdy_tools.py:139-141 | every library that is a key of the map gets its recorded path back; the others keep theirs |
| Promotion.Promote | rowdy_tools.py:109-145 | not under an edit folder, no production folder, or missing libraries each cancel with no save and no change to any library; otherwise the copy is saved to `prod_path/filename` while the session holds the relocated library paths, that path is reported, and every library's `filepath` is back to its value before the call |

## Findings

| source | as written | input that shows it | evidently intended | confidence | as-written member | corrected member |
|---|---|---|---|---|---|---|
| rowdy_tools.py:79 | each listed name has its extension stripped again, although line 75 already stripped it | blend file `shot.v2.blend` with `shot.v2_b1.blend` beside it. Stripped twice, the names become `shot`, which never matches `shot.v2_b`, so the version is 1 and `shot.v2_b1.blend` is overwritten | strip once; `shot.v2_b1` matches and the backup is `shot.v2_b2.blend` | high; not executed | BackupNaming.DottedBaseOverwritesBackup | BackupNaming.Backup |
| rowdy_tools.py:74-75 | `files` is reassigned for every directory `os.walk` yields, so the last directory walked wins | `shot.blend` and `shot_b1.blend` in a folder that has a subfolder holding `wood.png`. The listing used is `["wood"]`, so the version is 1 and `shot_b1.blend` is overwritten | number against the blend file's own folder, the first listing `os.walk` yields | high; not executed | BackupNaming.SubfolderHidesBackups | BackupNaming.Backup |

`BackupNaming.BackupAsWritten` is the backup operator as written. Both
counterexample lemmas are about the functions its contract names.
`BackupNaming.AsWrittenAgreesWithoutDotsOrSubfolders` shows where it agrees
with the corrected `BackupNaming.Backup`.

## Left out

- Panel drawing, operator `poll`/`invoke`, the preferences panel and `register`/`unregister` are host UI plumbing. Only the preference defaults (`assets`, `edit`, 3, `_b`) are kept, as `Promotion.DefaultPreferences`.
- `bpy.ops.wm.save_as_mainfile`: the save is a step outside the model. It returns normally and does not touch the libraries. The promote operator returns the request it would issue, with the session's library paths at that moment. The save is called with its default `relative_remap=True`, which remaps `//`-relative library paths for the copy's new folder; that remapping is not modelled, so the paths the saved file records are not stated. A save that raises, which in the code would skip the restore loop, is not modelled. The backup operator returns the target path and the reported name.
- `os.walk`, `os.path.exists`, `os.path.isfile` and `bpy.path.abspath` are filesystem and host calls. They are inputs: a sequence of listings with the blend file's folder first, two sets of paths, and the directory argument.
- `bpy.path.basename` and `bpy.path.relpath` are host functions whose definitions are not part of this model. They are function parameters.
- Python `re` semantics: the pattern is read as a literal prefix plus ASCII digits. Regular-expression metacharacters in the file name or the postfix are not interpreted, and Unicode digits matched by `\d` are not accepted.
- `os.path.splitext` is modelled for names without path separators, which is what the listing and `bpy.path.basename` give.
- FolderSearch.IsInEditFolder and FolderSearch.FindProductionFolder: the source recurses once per budget step, and keeps recursing at the root, whose parent is the root. `search_depth` has no maximum, so with a depth near Python's recursion limit (1000 by default) and no match, the source raises `RecursionError`. The model returns `false` / `None` instead; the recursion-limit exception is not modelled.
- Paths are component sequences. `os.path.join` with a folder name that is empty or contains a separator, and path normalisation, are not modelled.
- Library identity: the session is taken to hold each library datablock once (`Distinct`). The host guarantees this, and the relocation map relies on it.
- Message formatting in `self.report`: an outcome carries only the reported path or the list of missing library names.
- Overlapping invocations of the operators are not modelled. Blender runs them one at a time on its main thread.
