/** The styles and modules of a frontend entry, found by a search over the import graph of the build manifest,
    which can have cycles (dashboard/frontend_manifest.py, dashboard/frontend_tags.py). */
module Manifest {
  import opened Wrappers

  datatype Entry = Entry(file: Option<string>, css: seq<string>, imports: seq<string>)

  type Manifest = map<string, Entry>

  datatype BuildError = EntryMissing | ImportMissing(key: string) | NotAString | UnsafeAsset(name: string)

  datatype Assets = Assets(styles: seq<string>, modules: seq<string>)

  const ENTRY_MODULE := "src/main.ts"

  // ----- Asset names -----

  function Split(text: string): (parts: seq<string>)
    ensures parts != []
  {
    if text == [] then [""]
    else
      var rest := Split(text[1..]);
      if text[0] == '/' then [""] + rest else [[text[0]] + rest[0]] + rest[1..]
  }

  /** The parts of a relative path, without empty and `.` parts. */
  function Kept(parts: seq<string>): seq<string> {
    if parts == [] then []
    else (if parts[0] == "" || parts[0] == "." then [] else [parts[0]]) + Kept(parts[1..])
  }

  function Parts(name: string): seq<string> {
    Kept(Split(name))
  }

  predicate IsAbsolute(name: string) {
    name != [] && name[0] == '/'
  }

  /** A relative name below `assets` that never steps out of its directory. */
  predicate IsSafe(name: string) {
    !IsAbsolute(name) && ".." !in Parts(name) && Parts(name) != [] && Parts(name)[0] == "assets"
  }

  function AssetName(name: Option<string>): (checked: Result<string, BuildError>)
    ensures checked.Success? <==> name.Some? && IsSafe(name.value)
    ensures checked.Success? ==> checked.value == name.value
  {
    match name
    case None => Failure(NotAString)
    case Some(text) => if IsSafe(text) then Success(text) else Failure(UnsafeAsset(text))
  }

  // ----- The graph -----

  function Imports(manifest: Manifest, key: string): seq<string> {
    if key in manifest then manifest[key].imports else []
  }

  ghost predicate IsPath(manifest: Manifest, path: seq<string>) {
    path != [] && forall i :: 0 <= i < |path| - 1 ==> path[i + 1] in Imports(manifest, path[i])
  }

  ghost predicate Connects(manifest: Manifest, path: seq<string>, start: string, end: string) {
    IsPath(manifest, path) && path[0] == start && path[|path| - 1] == end
  }

  ghost predicate Reachable(manifest: Manifest, start: string, end: string) {
    exists path :: Connects(manifest, path, start, end)
  }

  /** By one or more import steps. */
  ghost predicate Imported(manifest: Manifest, start: string, end: string) {
    exists key :: Reachable(manifest, start, key) && end in Imports(manifest, key)
  }

  predicate FileSafe(manifest: Manifest, key: string) {
    key in manifest && manifest[key].file.Some? && IsSafe(manifest[key].file.value)
  }

  /** The entry is there, its styles are safe, and so are the files that it imports. */
  predicate Sound(manifest: Manifest, key: string) {
    && key in manifest
    && (forall name <- manifest[key].css :: IsSafe(name))
    && (forall imported <- manifest[key].imports :: FileSafe(manifest, imported))
  }

  ghost predicate Buildable(manifest: Manifest, start: string) {
    forall key :: Reachable(manifest, start, key) ==> Sound(manifest, key)
  }

  lemma {:induction false} ReachesItself(manifest: Manifest, key: string)
    ensures Reachable(manifest, key, key)
  {
    assert Connects(manifest, [key], key, key);
  }

  lemma {:induction false} ReachesThrough(manifest: Manifest, start: string, first: string, end: string)
    requires first in Imports(manifest, start) && Reachable(manifest, first, end)
    ensures Reachable(manifest, start, end)
  {
    var path :| Connects(manifest, path, first, end);
    assert Connects(manifest, [start] + path, start, end);
  }

  /** A set that holds the start and is closed under imports holds everything reachable. */
  lemma {:induction false} ClosedHoldsReachable(manifest: Manifest, keys: set<string>, path: seq<string>, start: string, end: string)
    requires start in keys && Connects(manifest, path, start, end)
    requires forall key <- keys, imported <- Imports(manifest, key) :: imported in keys
    ensures end in keys
    decreases |path|
  {
    if |path| > 1 {
      assert path[1] in Imports(manifest, path[0]);
      assert forall i :: 0 <= i < |path[1..]| - 1 ==> path[1..][i + 1] in Imports(manifest, path[1..][i]) by {
        assert forall i :: 0 <= i < |path| - 1 ==> path[i + 1] in Imports(manifest, path[i]);
      }
      ClosedHoldsReachable(manifest, keys, path[1..], path[1], end);
    }
  }

  // ----- The search -----

  /** The styles of the keys that the manifest has, one after another. */
  function Styles(manifest: Manifest, keys: seq<string>): seq<string> {
    if keys == [] then []
    else (if keys[0] in manifest then manifest[keys[0]].css else []) + Styles(manifest, keys[1..])
  }

  lemma {:induction false} StylesAppend(manifest: Manifest, first: seq<string>, second: seq<string>)
    ensures Styles(manifest, first + second) == Styles(manifest, first) + Styles(manifest, second)
  {
    if first == [] {
      assert first + second == second;
    } else {
      assert (first + second)[1..] == first[1..] + second;
      StylesAppend(manifest, first[1..], second);
    }
  }

  predicate Distinct(keys: seq<string>) {
    forall i, j :: 0 <= i < j < |keys| ==> keys[i] != keys[j]
  }

  function Members(keys: seq<string>): set<string> {
    set key | key in keys
  }

  // ----- The order of the search -----

  /** The keys of a search in the order of their first visit: a key, and then what each of its imports still adds. */
  function Preorder(manifest: Manifest, key: string, visited: set<string>): seq<string>
    decreases manifest.Keys - visited, 0
  {
    if key in visited || key !in manifest then []
    else [key] + PreorderAll(manifest, manifest[key].imports, visited + {key})
  }

  function PreorderAll(manifest: Manifest, imports: seq<string>, visited: set<string>): seq<string>
    decreases manifest.Keys - visited, |imports|
  {
    if imports == [] then []
    else
      var first := Preorder(manifest, imports[0], visited);
      VisitedGrows(manifest.Keys, visited, Members(first));
      first + PreorderAll(manifest, imports[1..], visited + Members(first))
  }

  /** The keys whose files are added: for each import what its own search adds, and then the import itself. */
  function ModuleKeys(manifest: Manifest, key: string, visited: set<string>): seq<string>
    decreases manifest.Keys - visited, 0
  {
    if key in visited || key !in manifest then []
    else ModuleKeysAll(manifest, manifest[key].imports, visited + {key})
  }

  function ModuleKeysAll(manifest: Manifest, imports: seq<string>, visited: set<string>): seq<string>
    decreases manifest.Keys - visited, |imports|
  {
    if imports == [] then []
    else
      var first := Preorder(manifest, imports[0], visited);
      VisitedGrows(manifest.Keys, visited, Members(first));
      ModuleKeys(manifest, imports[0], visited) + [imports[0]]
      + ModuleKeysAll(manifest, imports[1..], visited + Members(first))
  }

  lemma {:induction false} VisitedGrows(keys: set<string>, visited: set<string>, more: set<string>)
    ensures keys - (visited + more) <= keys - visited
    ensures keys - (visited + more) == keys - visited || keys - (visited + more) < keys - visited
  {
  }

  /** The files of the keys, one after another. */
  function Files(manifest: Manifest, keys: seq<string>): seq<string> {
    if keys == [] then []
    else
      (if keys[0] in manifest && manifest[keys[0]].file.Some? then [manifest[keys[0]].file.value] else [])
      + Files(manifest, keys[1..])
  }

  lemma {:induction false} FilesAppend(manifest: Manifest, first: seq<string>, second: seq<string>)
    ensures Files(manifest, first + second) == Files(manifest, first) + Files(manifest, second)
  {
    if first == [] {
      assert first + second == second;
    } else {
      assert (first + second)[1..] == first[1..] + second;
      FilesAppend(manifest, first[1..], second);
    }
  }

  /** What the search of an import adds, and its own file. */
  lemma {:induction false} FilesOfImport(manifest: Manifest, below: seq<string>, imported: string)
    requires FileSafe(manifest, imported)
    ensures Files(manifest, below + [imported]) == Files(manifest, below) + [manifest[imported].file.value]
  {
    FilesAppend(manifest, below, [imported]);
    assert [imported][1..] == [];
  }

  predicate IsImported(manifest: Manifest, before: seq<string>, key: string) {
    exists earlier <- before :: key in Imports(manifest, earlier)
  }

  /** Each key is imported by a known one or by a key before it. */
  predicate ImportedBefore(manifest: Manifest, known: seq<string>, keys: seq<string>) {
    forall i :: 0 <= i < |keys| ==> IsImported(manifest, known + keys[..i], keys[i])
  }

  lemma {:induction false} ImportedBeforeGrows(manifest: Manifest, known: seq<string>, first: seq<string>, second: seq<string>)
    requires ImportedBefore(manifest, known, first) && ImportedBefore(manifest, known + first, second)
    ensures ImportedBefore(manifest, known, first + second)
  {
    var keys := first + second;
    forall i | 0 <= i < |keys| ensures IsImported(manifest, known + keys[..i], keys[i]) {
      PrefixOfBoth(known, first, second, i);
      if i < |first| {
        assert IsImported(manifest, known + first[..i], first[i]);
      } else {
        assert IsImported(manifest, known + first + second[..i - |first|], second[i - |first|]);
      }
    }
  }

  lemma {:induction false} PrefixOfBoth(known: seq<string>, first: seq<string>, second: seq<string>, i: nat)
    requires i < |first + second|
    ensures known + (first + second)[..i] == if i < |first| then known + first[..i] else known + first + second[..i - |first|]
    ensures (first + second)[i] == if i < |first| then first[i] else second[i - |first|]
  {
  }

  lemma {:induction false} ImportedFirst(manifest: Manifest, known: seq<string>, importer: string, key: string)
    requires importer in known && key in Imports(manifest, importer)
    ensures ImportedBefore(manifest, known, [key])
  {
    assert known + [key][..0] == known;
  }

  lemma {:induction false} PreorderImported(manifest: Manifest, known: seq<string>, importer: string, key: string, visited: set<string>)
    requires importer in known && key in Imports(manifest, importer)
    ensures ImportedBefore(manifest, known, Preorder(manifest, key, visited))
    decreases manifest.Keys - visited, 0
  {
    if key !in visited && key in manifest {
      var rest := PreorderAll(manifest, manifest[key].imports, visited + {key});
      ImportedFirst(manifest, known, importer, key);
      PreorderAllImported(manifest, known + [key], key, manifest[key].imports, visited + {key});
      ImportedBeforeGrows(manifest, known, [key], rest);
    }
  }

  lemma {:induction false} PreorderAllImported(
      manifest: Manifest, known: seq<string>, importer: string, imports: seq<string>, visited: set<string>)
    requires importer in known && forall key <- imports :: key in Imports(manifest, importer)
    ensures ImportedBefore(manifest, known, PreorderAll(manifest, imports, visited))
    decreases manifest.Keys - visited, |imports|
  {
    if imports != [] {
      var first := Preorder(manifest, imports[0], visited);
      VisitedGrows(manifest.Keys, visited, Members(first));
      PreorderImported(manifest, known, importer, imports[0], visited);
      PreorderAllImported(manifest, known + first, importer, imports[1..], visited + Members(first));
      ImportedBeforeGrows(manifest, known, first, PreorderAll(manifest, imports[1..], visited + Members(first)));
    }
  }

  /** The search starts with its key, and each later key is imported by an earlier one. */
  lemma {:induction false} PreorderFollowsImports(manifest: Manifest, start: string)
    requires start in manifest
    ensures var trail := Preorder(manifest, start, {});
            trail != [] && trail[0] == start && ImportedBefore(manifest, [start], trail[1..])
  {
    PreorderAllImported(manifest, [start], start, manifest[start].imports, {} + {start});
    var rest := PreorderAll(manifest, manifest[start].imports, {} + {start});
    assert Preorder(manifest, start, {}) == [start] + rest && ([start] + rest)[1..] == rest;
  }

  /** What one call of the search adds: the keys it visits for the first time, in that order. */
  ghost predicate Visits(manifest: Manifest, key: string, before: set<string>, after: set<string>, trail: seq<string>) {
    && after == before + (set visited | visited in trail)
    && key in after
    && Distinct(trail)
    && (forall visited <- trail :: visited !in before && Sound(manifest, visited) && Reachable(manifest, key, visited))
    && (forall visited <- trail, imported <- Imports(manifest, visited) :: imported in after)
  }

  predicate IsFile(manifest: Manifest, key: string, name: string) {
    key in manifest && manifest[key].file == Some(name)
  }

  predicate ImportsFile(manifest: Manifest, imports: seq<string>, name: string) {
    exists imported <- imports :: IsFile(manifest, imported, name)
  }

  predicate AnyImportsFile(manifest: Manifest, keys: seq<string>, name: string) {
    exists key <- keys :: ImportsFile(manifest, Imports(manifest, key), name)
  }

  /** The modules are exactly the files that the keys import. */
  ghost predicate ModulesOf(manifest: Manifest, keys: seq<string>, modules: seq<string>) {
    forall name :: name in modules <==> AnyImportsFile(manifest, keys, name)
  }

  ghost predicate Broken(manifest: Manifest, start: string) {
    exists key :: Reachable(manifest, start, key) && !Sound(manifest, key)
  }

  lemma {:induction false} BrokenThrough(manifest: Manifest, start: string, first: string)
    requires first in Imports(manifest, start) && Broken(manifest, first)
    ensures Broken(manifest, start)
  {
    var key :| Reachable(manifest, first, key) && !Sound(manifest, key);
    ReachesThrough(manifest, start, first, key);
  }

  lemma {:induction false} BrokenHere(manifest: Manifest, key: string)
    requires !Sound(manifest, key)
    ensures Broken(manifest, key)
  {
    ReachesItself(manifest, key);
  }

  /** What the calls for the imports of `key` have visited so far. */
  ghost predicate Below(manifest: Manifest, key: string, before: set<string>, after: set<string>, below: seq<string>) {
    && key !in before && key !in below
    && after == before + {key} + (set visited | visited in below)
    && Distinct(below)
    && (forall visited <- below :: visited !in before && Sound(manifest, visited) && Reachable(manifest, key, visited))
    && (forall visited <- below, imported <- Imports(manifest, visited) :: imported in after)
  }

  lemma {:induction false} BelowGrows(
      manifest: Manifest, key: string, before: set<string>, middle: set<string>, after: set<string>,
      below: seq<string>, imported: string, more: seq<string>)
    requires Below(manifest, key, before, middle, below) && imported in Imports(manifest, key)
    requires Visits(manifest, imported, middle, after, more)
    ensures Below(manifest, key, before, after, below + more)
  {
    var all := below + more;
    assert forall visited :: visited in all <==> visited in below || visited in more;
    forall visited <- more ensures Reachable(manifest, key, visited) {
      ReachesThrough(manifest, key, imported, visited);
    }
    forall i, j | 0 <= i < j < |all| ensures all[i] != all[j] {
      if i < |below| <= j {
        assert below[i] in middle && more[j - |below|] !in middle;
      }
    }
  }

  lemma {:induction false} VisitsEntry(
      manifest: Manifest, key: string, before: set<string>, after: set<string>, below: seq<string>)
    requires Below(manifest, key, before, after, below) && Sound(manifest, key)
    requires forall imported <- Imports(manifest, key) :: imported in after
    ensures Visits(manifest, key, before, after, [key] + below)
    ensures Styles(manifest, [key] + below) == manifest[key].css + Styles(manifest, below)
  {
    ReachesItself(manifest, key);
    assert ([key] + below)[1..] == below;
  }

  /** The files of the imports handled so far, and of everything below them. */
  ghost predicate ModulesSoFar(manifest: Manifest, below: seq<string>, imports: seq<string>, modules: seq<string>) {
    forall name :: name in modules <==> AnyImportsFile(manifest, below, name) || ImportsFile(manifest, imports, name)
  }

  lemma {:induction false} ModulesGrow(
      manifest: Manifest, below: seq<string>, more: seq<string>, imports: seq<string>, imported: string,
      modules: seq<string>, added: seq<string>)
    requires ModulesSoFar(manifest, below, imports, modules)
    requires forall name :: name in added <==> AnyImportsFile(manifest, more, name) || IsFile(manifest, imported, name)
    ensures ModulesSoFar(manifest, below + more, imports + [imported], modules + added)
  {
    forall name
      ensures AnyImportsFile(manifest, below + more, name) <==>
              AnyImportsFile(manifest, below, name) || AnyImportsFile(manifest, more, name)
    {
      assert forall key :: key in below + more <==> key in below || key in more;
    }
    forall name
      ensures ImportsFile(manifest, imports + [imported], name) <==>
              ImportsFile(manifest, imports, name) || IsFile(manifest, imported, name)
    {
      assert forall key :: key in imports + [imported] <==> key in imports || key == imported;
    }
  }

  lemma {:induction false} ModulesOfEntry(manifest: Manifest, key: string, below: seq<string>, modules: seq<string>)
    requires ModulesSoFar(manifest, below, Imports(manifest, key), modules)
    ensures ModulesOf(manifest, [key] + below, modules)
  {
    assert forall other :: other in [key] + below <==> other == key || other in below;
  }

  /** What one import adds: the styles of the keys found for the first time, and the files of those and its own. */
  ghost predicate Adds(manifest: Manifest, imported: string, more: seq<string>, added: Assets) {
    && added.styles == Styles(manifest, more)
    && forall name :: name in added.modules <==> AnyImportsFile(manifest, more, name) || IsFile(manifest, imported, name)
  }

  predicate AllVisited(manifest: Manifest, imports: seq<string>, visited: set<string>) {
    forall imported <- imports :: imported in visited && FileSafe(manifest, imported)
  }

  lemma {:induction false} OneMoreVisited(
      manifest: Manifest, imports: seq<string>, imported: string, middle: set<string>, after: set<string>)
    requires AllVisited(manifest, imports, middle) && middle <= after && imported in after && FileSafe(manifest, imported)
    ensures AllVisited(manifest, imports + [imported], after)
  {
  }

  /** What the search has found for the first imports of an entry. */
  ghost predicate Searched(
      manifest: Manifest, key: string, before: set<string>, after: set<string>,
      below: seq<string>, imports: seq<string>, assets: Assets)
  {
    && Below(manifest, key, before, after, below)
    && AllVisited(manifest, imports, after)
    && assets.styles == Styles(manifest, below)
    && ModulesSoFar(manifest, below, imports, assets.modules)
  }

  lemma {:induction false} SearchedNext(
      manifest: Manifest, key: string, before: set<string>, middle: set<string>, after: set<string>,
      below: seq<string>, imports: seq<string>, imported: string, assets: Assets, more: seq<string>, added: Assets)
    requires imported in Imports(manifest, key) && middle <= after
    requires Searched(manifest, key, before, middle, below, imports, assets)
    requires Visits(manifest, imported, middle, after, more) && FileSafe(manifest, imported)
    requires Adds(manifest, imported, more, added)
    ensures Searched(manifest, key, before, after, below + more, imports + [imported],
              Assets(assets.styles + added.styles, assets.modules + added.modules))
  {
    StylesAppend(manifest, below, more);
    OneMoreVisited(manifest, imports, imported, middle, after);
    BelowGrows(manifest, key, before, middle, after, below, imported, more);
    ModulesGrow(manifest, below, more, imports, imported, assets.modules, added.modules);
  }

  /** The visited keys and the modules stand in the order of the search. */
  predicate InOrder(manifest: Manifest, key: string, visited: set<string>, trail: seq<string>, modules: seq<string>) {
    trail == Preorder(manifest, key, visited) && modules == Files(manifest, ModuleKeys(manifest, key, visited))
  }

  predicate AllInOrder(
      manifest: Manifest, imports: seq<string>, visited: set<string>, below: seq<string>, modules: seq<string>)
  {
    && below == PreorderAll(manifest, imports, visited)
    && modules == Files(manifest, ModuleKeysAll(manifest, imports, visited))
  }

  predicate ImportInOrder(
      manifest: Manifest, imported: string, visited: set<string>, more: seq<string>, modules: seq<string>)
  {
    && more == Preorder(manifest, imported, visited)
    && modules == Files(manifest, ModuleKeys(manifest, imported, visited) + [imported])
  }

  /** What was found for the first imports, and what the others add, is what all imports add. */
  predicate OrderGoesOn(
      manifest: Manifest, imports: seq<string>, start: set<string>, i: nat, visited: set<string>,
      below: seq<string>, modules: seq<string>)
  {
    && i <= |imports|
    && below + PreorderAll(manifest, imports[i..], visited) == PreorderAll(manifest, imports, start)
    && modules + Files(manifest, ModuleKeysAll(manifest, imports[i..], visited))
       == Files(manifest, ModuleKeysAll(manifest, imports, start))
  }

  lemma {:induction false} OrderNext(
      manifest: Manifest, imports: seq<string>, start: set<string>, i: nat, visited: set<string>,
      below: seq<string>, modules: seq<string>, more: seq<string>, added: seq<string>)
    requires i < |imports| && OrderGoesOn(manifest, imports, start, i, visited, below, modules)
    requires ImportInOrder(manifest, imports[i], visited, more, added)
    ensures OrderGoesOn(manifest, imports, start, i + 1, visited + Members(more), below + more, modules + added)
  {
    var rest := imports[i..];
    assert rest[1..] == imports[i + 1..];
    FilesAppend(manifest, ModuleKeys(manifest, imports[i], visited) + [imports[i]],
                ModuleKeysAll(manifest, rest[1..], visited + Members(more)));
  }

  lemma {:induction false} OrderEnds(
      manifest: Manifest, imports: seq<string>, start: set<string>, visited: set<string>,
      below: seq<string>, modules: seq<string>)
    requires OrderGoesOn(manifest, imports, start, |imports|, visited, below, modules)
    ensures AllInOrder(manifest, imports, start, below, modules)
  {
    assert imports[|imports|..] == [] && below + [] == below && modules + [] == modules;
  }

  lemma {:induction false} TakeNext(items: seq<string>, i: nat)
    requires i < |items|
    ensures items[..i + 1] == items[..i] + [items[i]]
  {
  }

  class EntrySearch {
    const manifest: Manifest
    var visited: set<string>

    constructor (manifest: Manifest)
      ensures this.manifest == manifest && visited == {}
    {
      this.manifest := manifest;
      visited := {};
    }

    /** The checked style names of one entry. */
    method EntryStyles(css: seq<string>) returns (styles: Result<seq<string>, BuildError>)
      ensures styles.Success? <==> forall name <- css :: IsSafe(name)
      ensures styles.Success? ==> styles.value == css
    {
      var names: seq<string> := [];
      for i := 0 to |css|
        invariant names == css[..i]
        invariant forall k :: 0 <= k < i ==> IsSafe(css[k])
      {
        var checked := AssetName(Some(css[i]));
        if checked.Failure? {
          return Failure(checked.error);
        }
        names := names + [checked.value];
        TakeNext(css, i);
      }
      assert css[..|css|] == css;
      return Success(names);
    }

    /** Search from one key. The search ends because each call that goes on has visited one more manifest key;
        `trail` has the keys it visited for the first time. */
    method Search(key: string) returns (found: Result<Assets, BuildError>, ghost trail: seq<string>)
      requires visited <= manifest.Keys
      modifies this
      ensures found.Success? ==> visited <= manifest.Keys && Visits(manifest, key, old(visited), visited, trail)
      ensures found.Success? ==> found.value.styles == Styles(manifest, trail) && ModulesOf(manifest, trail, found.value.modules)
      ensures found.Success? ==> InOrder(manifest, key, old(visited), trail, found.value.modules)
      ensures found.Failure? ==> Broken(manifest, key)
      decreases manifest.Keys - visited, 0
    {
      trail := [];
      if key in visited {
        return Success(Assets([], [])), [];
      }
      visited := visited + {key};
      if key !in manifest {
        BrokenHere(manifest, key);
        return Failure(ImportMissing(key)), [];
      }
      var entry := manifest[key];
      var checked := EntryStyles(entry.css);
      if checked.Failure? {
        BrokenHere(manifest, key);
        return Failure(checked.error), [];
      }
      var sub, below := SearchImports(key, entry.imports, old(visited));
      if sub.Failure? {
        return Failure(sub.error), [];
      }
      trail := [key] + below;
      VisitsEntry(manifest, key, old(visited), visited, below);
      ModulesOfEntry(manifest, key, below, sub.value.modules);
      return Success(Assets(checked.value + sub.value.styles, sub.value.modules)), trail;
    }

    /** Search from each import of a visited entry; each import also adds its own file. */
    method SearchImports(key: string, imports: seq<string>, ghost before: set<string>)
      returns (found: Result<Assets, BuildError>, ghost below: seq<string>)
      requires visited <= manifest.Keys && visited == before + {key} && key !in before
      requires imports == Imports(manifest, key)
      modifies this
      ensures found.Success? ==> visited <= manifest.Keys
      ensures found.Success? ==> Searched(manifest, key, before, visited, below, imports, found.value)
      ensures found.Success? ==> AllInOrder(manifest, imports, old(visited), below, found.value.modules)
      ensures found.Failure? ==> Broken(manifest, key)
      decreases manifest.Keys - visited, 2
    {
      var assets := Assets([], []);
      below := [];
      for i := 0 to |imports|
        invariant old(visited) <= visited <= manifest.Keys
        invariant Searched(manifest, key, before, visited, below, imports[..i], assets)
        invariant OrderGoesOn(manifest, imports, old(visited), i, visited, below, assets.modules)
      {
        ghost var middle := visited;
        var sub, more := SearchImport(key, imports[i]);
        if sub.Failure? {
          return Failure(sub.error), below;
        }
        TakeNext(imports, i);
        OrderNext(manifest, imports, old(visited), i, middle, below, assets.modules, more, sub.value.modules);
        SearchedNext(manifest, key, before, middle, visited, below, imports[..i], imports[i], assets, more, sub.value);
        assets := Assets(assets.styles + sub.value.styles, assets.modules + sub.value.modules);
        below := below + more;
      }
      assert imports[..|imports|] == imports;
      OrderEnds(manifest, imports, old(visited), visited, below, assets.modules);
      return Success(assets), below;
    }

    /** Search from one import and add its file. */
    method SearchImport(key: string, imported: string) returns (found: Result<Assets, BuildError>, ghost more: seq<string>)
      requires visited <= manifest.Keys && imported in Imports(manifest, key)
      modifies this
      ensures found.Success? ==> visited <= manifest.Keys && Visits(manifest, imported, old(visited), visited, more)
      ensures found.Success? ==> FileSafe(manifest, imported) && Adds(manifest, imported, more, found.value)
      ensures found.Success? ==> ImportInOrder(manifest, imported, old(visited), more, found.value.modules)
      ensures found.Failure? ==> Broken(manifest, key)
      decreases manifest.Keys - visited, 1
    {
      var sub, trail := Search(imported);
      more := trail;
      if sub.Failure? {
        BrokenThrough(manifest, key, imported);
        return Failure(sub.error), more;
      }
      var file := AssetName(manifest[imported].file);
      if file.Failure? {
        assert imported in manifest[key].imports && !FileSafe(manifest, imported);
        BrokenHere(manifest, key);
        return Failure(file.error), more;
      }
      FilesOfImport(manifest, ModuleKeys(manifest, imported, old(visited)), imported);
      return Success(Assets(sub.value.styles, sub.value.modules + [file.value])), more;
    }
  }

  // ----- The whole search -----

  /** The keys of a search from nothing are exactly the reachable ones, and all of them are sound. */
  lemma {:induction false} VisitsTheReachable(manifest: Manifest, start: string, after: set<string>, trail: seq<string>)
    requires Visits(manifest, start, {}, after, trail)
    ensures forall key :: key in trail <==> Reachable(manifest, start, key)
    ensures Buildable(manifest, start)
  {
    forall key ensures key in trail <==> Reachable(manifest, start, key) {
      if Reachable(manifest, start, key) {
        var path :| Connects(manifest, path, start, key);
        ClosedHoldsReachable(manifest, after, path, start, key);
      }
    }
  }

  lemma {:induction false} ImportedFiles(manifest: Manifest, start: string, trail: seq<string>, name: string)
    requires forall key :: key in trail <==> Reachable(manifest, start, key)
    ensures AnyImportsFile(manifest, trail, name) <==>
            exists key :: Imported(manifest, start, key) && IsFile(manifest, key, name)
  {
    if AnyImportsFile(manifest, trail, name) {
      var key :| key in trail && ImportsFile(manifest, Imports(manifest, key), name);
      var imported :| imported in Imports(manifest, key) && IsFile(manifest, imported, name);
      assert Imported(manifest, start, imported);
    }
    if imported :| Imported(manifest, start, imported) && IsFile(manifest, imported, name) {
      var key :| Reachable(manifest, start, key) && imported in Imports(manifest, key);
      assert key in trail && ImportsFile(manifest, Imports(manifest, key), name);
    }
  }

  /** Search the import graph from one entry. It succeeds exactly when everything reachable is there and safe; the
      styles are those of each reachable key once, in the order of the first visit, and the modules are exactly the
      files of the keys that one or more import steps reach, each import's finds before its own file. */
  method EntryAssets(manifest: Manifest, start: string) returns (found: Result<Assets, BuildError>, ghost trail: seq<string>)
    ensures found.Success? <==> Buildable(manifest, start)
    ensures found.Success? ==> Distinct(trail) && (forall key :: key in trail <==> Reachable(manifest, start, key))
    ensures found.Success? ==> trail == Preorder(manifest, start, {})
    ensures found.Success? ==> found.value.styles == Styles(manifest, trail)
    ensures found.Success? ==> found.value.modules == Files(manifest, ModuleKeys(manifest, start, {}))
    ensures found.Success? ==> forall name :: name in found.value.modules <==>
        exists key :: Imported(manifest, start, key) && IsFile(manifest, key, name)
  {
    var search := new EntrySearch(manifest);
    found, trail := search.Search(start);
    if found.Success? {
      VisitsTheReachable(manifest, start, search.visited, trail);
      forall name {
        ImportedFiles(manifest, start, trail, name);
      }
    }
  }

  // ----- The tags -----

  /** The first occurrence of each name, in order. */
  function FirstOccurrences(names: seq<string>): (firsts: seq<string>)
    ensures forall name :: name in firsts <==> name in names
    ensures Distinct(firsts)
  {
    if names == [] then []
    else
      var rest := FirstOccurrences(names[..|names| - 1]);
      var last := names[|names| - 1];
      assert names == names[..|names| - 1] + [last];
      if last in names[..|names| - 1] then rest else rest + [last]
  }

  function FirstIndex(names: seq<string>, name: string): (i: nat)
    requires name in names
    ensures i < |names| && names[i] == name && name !in names[..i]
  {
    if names[0] == name then 0
    else
      var i := FirstIndex(names[1..], name);
      assert names[..i + 1] == [names[0]] + names[1..][..i];
      i + 1
  }

  lemma {:induction false} FirstIndexUnique(names: seq<string>, name: string, i: nat)
    requires i < |names| && names[i] == name && name !in names[..i]
    ensures FirstIndex(names, name) == i
  {
    var j := FirstIndex(names, name);
    assert forall k :: 0 <= k < i ==> names[..i][k] == names[k];
    assert forall k :: 0 <= k < j ==> names[..j][k] == names[k];
  }

  /** Removing repetitions keeps the order of the first occurrences. */
  lemma {:induction false} UniqueKeepsOrder(names: seq<string>, i: nat, j: nat)
    requires i < j < |FirstOccurrences(names)|
    ensures FirstIndex(names, FirstOccurrences(names)[i]) < FirstIndex(names, FirstOccurrences(names)[j])
  {
    var before, last := names[..|names| - 1], names[|names| - 1];
    assert names == before + [last];
    var rest := FirstOccurrences(before);
    forall name | name in before ensures FirstIndex(names, name) == FirstIndex(before, name) {
      var k := FirstIndex(before, name);
      assert names[..k] == before[..k];
      FirstIndexUnique(names, name, k);
    }
    if j < |rest| {
      UniqueKeepsOrder(before, i, j);
      assert rest[i] in before && rest[j] in before;
    } else {
      assert rest[i] in before;
      assert names[..|names| - 1] == before;
      FirstIndexUnique(names, last, |names| - 1);
    }
  }

  method Unique(names: seq<string>) returns (firsts: seq<string>)
    ensures firsts == FirstOccurrences(names)
  {
    var seen: set<string> := {};
    firsts := [];
    for i := 0 to |names|
      invariant seen == set name | name in names[..i]
      invariant firsts == FirstOccurrences(names[..i])
    {
      assert names[..i + 1][..i] == names[..i];
      assert names[..i + 1] == names[..i] + [names[i]];
      if names[i] !in seen {
        seen := seen + {names[i]};
        firsts := firsts + [names[i]];
      }
    }
    assert names[..|names|] == names;
  }

  datatype Tags = Tags(styles: seq<string>, modules: seq<string>, script: string)

  /** What the shell page links to. It is there exactly when the build is complete and safe; no name is linked
      twice as a style or twice as a module, and the links stand in the order in which the search first meets them. */
  method ManifestTags(manifest: Manifest) returns (tags: Result<Tags, BuildError>)
    ensures tags.Success? <==> Buildable(manifest, "src/main.ts") && FileSafe(manifest, "src/main.ts")
    ensures tags.Success? ==> Distinct(tags.value.styles) && Distinct(tags.value.modules)
    ensures tags.Success? ==> forall name :: name in tags.value.styles ==>
        exists key :: Reachable(manifest, ENTRY_MODULE, key) && HasStyle(manifest, key, name)
    ensures tags.Success? ==> forall key, name :: Reachable(manifest, ENTRY_MODULE, key) && HasStyle(manifest, key, name) ==>
        name in tags.value.styles
    ensures tags.Success? ==> forall name :: name in tags.value.modules <==>
        exists key :: Imported(manifest, ENTRY_MODULE, key) && IsFile(manifest, key, name)
    ensures tags.Success? ==> IsFile(manifest, ENTRY_MODULE, tags.value.script)
    ensures tags.Success? ==>
      && tags.value.styles == FirstOccurrences(Styles(manifest, Preorder(manifest, ENTRY_MODULE, {})))
      && tags.value.modules == FirstOccurrences(Files(manifest, ModuleKeys(manifest, ENTRY_MODULE, {})))
  {
    if ENTRY_MODULE !in manifest {
      ReachesItself(manifest, ENTRY_MODULE);
      return Failure(EntryMissing);
    }
    var found, trail := EntryAssets(manifest, ENTRY_MODULE);
    if found.Failure? {
      return Failure(found.error);
    }
    var script := AssetName(manifest[ENTRY_MODULE].file);
    if script.Failure? {
      return Failure(script.error);
    }
    var styles := Unique(found.value.styles);
    var modules := Unique(found.value.modules);
    StylesMembers(manifest, trail);
    return Success(Tags(styles, modules, script.value));
  }

  predicate HasStyle(manifest: Manifest, key: string, name: string) {
    key in manifest && name in manifest[key].css
  }

  lemma {:induction false} StylesMembers(manifest: Manifest, keys: seq<string>)
    ensures forall name :: name in Styles(manifest, keys) <==> exists key <- keys :: HasStyle(manifest, key, name)
  {
    if keys != [] {
      StylesMembers(manifest, keys[1..]);
      forall name ensures name in Styles(manifest, keys) <==> exists key <- keys :: HasStyle(manifest, key, name) {
        if key :| key in keys && HasStyle(manifest, key, name) {
          assert key == keys[0] || key in keys[1..];
        } else {
          assert !HasStyle(manifest, keys[0], name);
          assert forall key <- keys[1..] :: key in keys;
        }
      }
    }
  }
}
