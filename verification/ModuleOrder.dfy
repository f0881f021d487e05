/** In which order the modules of a frontend entry are loaded, and which asset names are safe, by their characters
    (dashboard/frontend_manifest.py). */
module ModuleOrder {
  import opened Wrappers
  import opened Manifest

  // ----- Modules behind their imports -----

  /** A key that some chain of imports leads from itself back to itself. */
  ghost predicate InCycle(manifest: Manifest, key: string) {
    Imported(manifest, key, key)
  }

  /** Before a key's first place stand all keys that it imports; for keys that are new to the search and in no cycle. */
  ghost predicate BehindImports(manifest: Manifest, visited: set<string>, keys: seq<string>) {
    forall p :: 0 <= p < |keys| && IsFirst(keys, p) && keys[p] !in visited && !InCycle(manifest, keys[p]) ==>
      AllIn(Imports(manifest, keys[p]), keys[..p])
  }

  predicate IsFirst(keys: seq<string>, p: nat)
    requires p < |keys|
  {
    keys[p] !in keys[..p]
  }

  predicate AllIn(part: seq<string>, whole: seq<string>) {
    forall key <- part :: key in whole
  }

  lemma {:induction false} ImportsAreModules(manifest: Manifest, imports: seq<string>, visited: set<string>)
    ensures AllIn(imports, ModuleKeysAll(manifest, imports, visited))
    decreases |imports|
  {
    if imports != [] {
      var first := Preorder(manifest, imports[0], visited);
      ImportsAreModules(manifest, imports[1..], visited + Members(first));
      forall key | key in imports
        ensures key in ModuleKeysAll(manifest, imports, visited)
      {
        assert key == imports[0] || key in imports[1..];
      }
    }
  }

  /** Every key that a search visits, but its own, is one of its modules. */
  lemma {:induction false} VisitedAreModules(manifest: Manifest, key: string, visited: set<string>)
    ensures forall found <- Preorder(manifest, key, visited) :: found == key || found in ModuleKeys(manifest, key, visited)
    decreases manifest.Keys - visited, 0
  {
    if key !in visited && key in manifest {
      AllVisitedAreModules(manifest, manifest[key].imports, visited + {key});
    }
  }

  lemma {:induction false} AllVisitedAreModules(manifest: Manifest, imports: seq<string>, visited: set<string>)
    ensures AllIn(PreorderAll(manifest, imports, visited), ModuleKeysAll(manifest, imports, visited))
    decreases manifest.Keys - visited, |imports|
  {
    if imports != [] {
      var first := Preorder(manifest, imports[0], visited);
      VisitedGrows(manifest.Keys, visited, Members(first));
      VisitedAreModules(manifest, imports[0], visited);
      AllVisitedAreModules(manifest, imports[1..], visited + Members(first));
    }
  }

  /** The modules of a search are imported from its key. */
  lemma {:induction false} ModulesAreImported(manifest: Manifest, key: string, visited: set<string>)
    ensures forall added <- ModuleKeys(manifest, key, visited) :: Imported(manifest, key, added)
    decreases manifest.Keys - visited, 0
  {
    if key !in visited && key in manifest {
      AllModulesAreImported(manifest, key, manifest[key].imports, visited + {key});
    }
  }

  lemma {:induction false} AllModulesAreImported(
      manifest: Manifest, importer: string, imports: seq<string>, visited: set<string>)
    requires forall key <- imports :: key in Imports(manifest, importer)
    ensures forall added <- ModuleKeysAll(manifest, imports, visited) :: Imported(manifest, importer, added)
    decreases manifest.Keys - visited, |imports|
  {
    if imports != [] {
      var first := Preorder(manifest, imports[0], visited);
      VisitedGrows(manifest.Keys, visited, Members(first));
      ModulesAreImported(manifest, imports[0], visited);
      AllModulesAreImported(manifest, importer, imports[1..], visited + Members(first));
      ReachesItself(manifest, importer);
      forall added | added in ModuleKeys(manifest, imports[0], visited)
        ensures Imported(manifest, importer, added)
      {
        ImportedThrough(manifest, importer, imports[0], added);
      }
    }
  }

  lemma {:induction false} ImportedThrough(manifest: Manifest, importer: string, first: string, end: string)
    requires first in Imports(manifest, importer) && Imported(manifest, first, end)
    ensures Imported(manifest, importer, end)
  {
    var key :| Reachable(manifest, first, key) && end in Imports(manifest, key);
    ReachesThrough(manifest, importer, first, key);
  }

  lemma {:induction false} SearchBehindImports(manifest: Manifest, key: string, visited: set<string>)
    ensures BehindImports(manifest, visited + {key}, ModuleKeys(manifest, key, visited))
    decreases manifest.Keys - visited, 0
  {
    if key !in visited && key in manifest {
      ImportsBehindImports(manifest, manifest[key].imports, visited + {key});
    }
  }

  /** The first import's modules, itself, and the modules of the other imports. */
  lemma {:induction false} ThreeParts(
      manifest: Manifest, visited: set<string>, after: set<string>, first: seq<string>, key: string, later: seq<string>,
      visits: seq<string>)
    requires BehindImports(manifest, visited + {key}, first) && BehindImports(manifest, after, later)
    requires after == visited + Members(visits)
    requires key !in visited ==> AllIn(Imports(manifest, key), first)
    requires key in first ==> InCycle(manifest, key) || key in visited
    requires forall found <- visits :: found == key || found in first
    ensures BehindImports(manifest, visited, first + [key] + later)
  {
    var keys := first + [key] + later;
    forall p | 0 <= p < |keys| && IsFirst(keys, p) && keys[p] !in visited && !InCycle(manifest, keys[p])
      ensures AllIn(Imports(manifest, keys[p]), keys[..p])
    {
      if p < |first| {
        assert keys[..p] == first[..p] && keys[p] in first;
        assert IsFirst(first, p);
      } else if p == |first| {
        assert keys[..p] == first;
      } else {
        var q := p - |first| - 1;
        assert keys[..p] == first + [key] + later[..q];
        assert keys[p] == later[q] && IsFirst(later, q) && later[q] !in after;
      }
    }
  }

  lemma {:induction false} ImportsBehindImports(manifest: Manifest, imports: seq<string>, visited: set<string>)
    ensures BehindImports(manifest, visited, ModuleKeysAll(manifest, imports, visited))
    decreases manifest.Keys - visited, |imports|
  {
    if imports != [] {
      var key := imports[0];
      var visits := Preorder(manifest, key, visited);
      VisitedGrows(manifest.Keys, visited, Members(visits));
      SearchBehindImports(manifest, key, visited);
      ImportsBehindImports(manifest, imports[1..], visited + Members(visits));
      VisitedAreModules(manifest, key, visited);
      ModulesAreImported(manifest, key, visited);
      if key !in visited && key in manifest {
        ImportsAreModules(manifest, manifest[key].imports, visited + {key});
      }
      ThreeParts(manifest, visited, visited + Members(visits), ModuleKeys(manifest, key, visited), key,
                 ModuleKeysAll(manifest, imports[1..], visited + Members(visits)), visits);
    }
  }

  /** For every graph: a module stands behind all modules that it imports, unless it is in a cycle of imports. */
  lemma {:induction false} ModulesStandBehindTheirImports(manifest: Manifest, start: string, p: nat)
    requires p < |ModuleKeys(manifest, start, {})|
    requires var keys := ModuleKeys(manifest, start, {}); keys[p] !in keys[..p] && !Imported(manifest, keys[p], keys[p])
    ensures var keys := ModuleKeys(manifest, start, {});
            forall key <- Imports(manifest, keys[p]) :: key in keys[..p]
  {
    var keys := ModuleKeys(manifest, start, {});
    SearchBehindImports(manifest, start, {});
    ModulesAreImported(manifest, start, {});
    assert IsFirst(keys, p) && keys[p] in keys;
    assert AllIn(Imports(manifest, keys[p]), keys[..p]);
  }

  // ----- Safe names -----

  /** The parts with a slash between them. */
  function WithSlashes(parts: seq<string>): string
    requires parts != []
  {
    if |parts| == 1 then parts[0] else parts[0] + "/" + WithSlashes(parts[1..])
  }

  /** Splitting gives the parts between the slashes. */
  lemma {:induction false} SplitIsExact(text: string)
    ensures WithSlashes(Split(text)) == text
    ensures forall i :: 0 <= i < |Split(text)| ==> '/' !in Split(text)[i]
  {
    if text != [] {
      var rest := Split(text[1..]);
      SplitIsExact(text[1..]);
      if text[0] == '/' {
        assert ([""] + rest)[1..] == rest;
        assert "" + "/" == [text[0]];
      } else {
        var parts := [[text[0]] + rest[0]] + rest[1..];
        assert parts[1..] == rest[1..];
        FirstLonger(text[0], rest);
      }
      assert text == [text[0]] + text[1..];
    }
  }

  lemma {:induction false} FirstLonger(c: char, rest: seq<string>)
    requires rest != []
    ensures WithSlashes([[c] + rest[0]] + rest[1..]) == [c] + WithSlashes(rest)
  {
    var parts := [[c] + rest[0]] + rest[1..];
    assert parts[1..] == rest[1..];
    if |rest| > 1 {
      assert [c] + rest[0] + "/" + WithSlashes(rest[1..]) == [c] + (rest[0] + "/" + WithSlashes(rest[1..]));
    }
  }

  lemma {:induction false} KeptParts(parts: seq<string>)
    ensures forall part :: part in Kept(parts) <==> part in parts && part != "" && part != "."
  {
    if parts != [] {
      KeptParts(parts[1..]);
      assert forall part :: part in parts <==> part == parts[0] || part in parts[1..];
    }
  }

  /** The part is the first one that is not empty and not a single dot. */
  predicate IsFirstPart(parts: seq<string>, i: nat) {
    && i < |parts| && parts[i] != "" && parts[i] != "."
    && forall k :: 0 <= k < i ==> parts[k] == "" || parts[k] == "."
  }

  lemma {:induction false} FirstKept(parts: seq<string>, i: nat)
    requires IsFirstPart(parts, i)
    ensures Kept(parts) != [] && Kept(parts)[0] == parts[i]
  {
    if i > 0 {
      assert parts[0] == "" || parts[0] == ".";
      FirstKept(parts[1..], i - 1);
    }
  }

  lemma {:induction false} SomeFirst(parts: seq<string>) returns (i: nat)
    requires Kept(parts) != []
    ensures IsFirstPart(parts, i)
  {
    if parts[0] != "" && parts[0] != "." {
      i := 0;
    } else {
      var k := SomeFirst(parts[1..]);
      i := k + 1;
      assert forall j :: 0 < j < i ==> parts[j] == parts[1..][j - 1];
    }
  }

  /** A name is accepted exactly when it does not begin with a slash, no part between its slashes is two dots, and the first
      part that counts is `assets`. */
  lemma {:induction false} SafeIff(name: string, parts: seq<string>)
    requires parts == Split(name)
    ensures WithSlashes(parts) == name && (forall i :: 0 <= i < |parts| ==> '/' !in parts[i])
    ensures AssetName(Some(name)).Success? <==>
            && (name == [] || name[0] != '/')
            && (forall i :: 0 <= i < |parts| ==> parts[i] != "..")
            && (exists i: nat :: IsFirstPart(parts, i) && parts[i] == "assets")
  {
    SplitIsExact(name);
    KeptParts(parts);
    assert ".." in Kept(parts) <==> ".." in parts;
    FirstPartIs(parts);
  }

  lemma {:induction false} FirstPartIs(parts: seq<string>)
    ensures (Kept(parts) != [] && Kept(parts)[0] == "assets") <==>
            exists i: nat :: IsFirstPart(parts, i) && parts[i] == "assets"
  {
    if Kept(parts) != [] {
      var i := SomeFirst(parts);
      FirstKept(parts, i);
    }
    forall i: nat | IsFirstPart(parts, i)
      ensures Kept(parts) != [] && Kept(parts)[0] == parts[i]
    {
      FirstKept(parts, i);
    }
  }
}
