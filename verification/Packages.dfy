/**
 The package loop of docgen.go: one output file a package, in whatever order the map of packages
 is walked, test packages left out.
 */
module Packages {
  import opened Options
  import opened Document
  import opened Markdown
  import opened DocumentReading
  import opened Catalogue
  import opened Recovery

  /** A parsed package with its documentation, and whether its output file can be created. */
  datatype Input = Input(name: string, doc: Package, creatable: bool)

  datatype Error =
    | PathDoesNotExist(path: string)
    | ParseFailed
    | NoPackages(path: string)
    | CannotCreate(name: string)

  datatype Parsed = ParseError | Parsed(pkgs: seq<Input>)

  const TEST_SUFFIX := "_test"

  /** strings.HasSuffix(name, "_test") */
  predicate IsTest(name: string) {
    |TEST_SUFFIX| <= |name| && name[|name| - |TEST_SUFFIX|..] == TEST_SUFFIX
  }

  function FileName(name: string): string {
    name + ".md"
  }

  /** The test packages are those with a name that ends in _test. */
  lemma TestNames(name: string)
    ensures IsTest(name) <==> exists stem :: name == stem + "_test"
    ensures IsTest(name) <==> |name| >= 5 && name[|name| - 5..] == "_test"
  {
    if IsTest(name) {
      assert name == name[..|name| - 5] + "_test";
    }
  }

  lemma FileNameInjective(a: string, b: string)
    requires FileName(a) == FileName(b)
    ensures a == b
  {
    assert FileName(a)[..|FileName(a)| - 3] == a;
    assert FileName(b)[..|FileName(b)| - 3] == b;
  }

  type Files = map<string, string>

  /** The files after the loop, and the package it stopped at, if any. */
  function Run(pkgs: seq<Input>, path: string, files: Files): (Files, Option<string>) {
    if pkgs == [] then (files, None)
    else
      var p := pkgs[0];
      if IsTest(p.name) then Run(pkgs[1..], path, files)
      else if !p.creatable then (files, Some(p.name))
      else Run(pkgs[1..], path, files[FileName(p.name) := PackageText(p.doc, p.name, path)])
  }

  /** The working directory. */
  class Directory {
    var files: Files

    constructor (initial: Files)
      ensures files == initial
    {
      files := initial;
    }

    /** generatePackageDocs: nothing is written when the file cannot be created. */
    method GeneratePackageDocs(p: Package, name: string, path: string, creatable: bool)
      returns (err: Option<Error>)
      modifies this
      ensures !creatable ==> err == Some(CannotCreate(name)) && files == old(files)
      ensures creatable ==> err == None && files == old(files)[name + ".md" := PackageText(p, name, path)]
    {
      var filename := FileName(name);
      if !creatable {
        return Some(CannotCreate(name));
      }
      var file := new OutFile();
      WritePackage(file, p, name, path);
      assert "" + PackageText(p, name, path) == PackageText(p, name, path);
      files := files[filename := file.content];
      return None;
    }

    method GenerateDocs(path: string, pathExists: bool, parsed: Parsed) returns (err: Option<Error>)
      modifies this
      ensures !pathExists ==> err == Some(PathDoesNotExist(path)) && files == old(files)
      ensures pathExists && parsed.ParseError? ==> err == Some(ParseFailed) && files == old(files)
      ensures pathExists && parsed.Parsed? && parsed.pkgs == [] ==> err == Some(NoPackages(path)) && files == old(files)
      ensures pathExists && parsed.Parsed? && parsed.pkgs != [] ==>
                var (result, stop) := Run(parsed.pkgs, path, old(files));
                files == result && err == if stop.Some? then Some(CannotCreate(stop.value)) else None
      ensures err == None <==>
                && pathExists && parsed.Parsed? && parsed.pkgs != []
                && forall p :: p in parsed.pkgs ==> p.creatable || (|p.name| >= 5 && p.name[|p.name| - 5..] == "_test")
    {
      if parsed.Parsed? {
        RunSucceedsIff(parsed.pkgs, path, files);
      }
      if !pathExists {
        return Some(PathDoesNotExist(path));
      }
      if parsed.ParseError? {
        return Some(ParseFailed);
      }
      var pkgs := parsed.pkgs;
      if |pkgs| == 0 {
        return Some(NoPackages(path));
      }
      for i := 0 to |pkgs|
        invariant Run(pkgs, path, old(files)) == Run(pkgs[i..], path, files)
      {
        var p := pkgs[i];
        assert pkgs[i..][0] == p && pkgs[i..][1..] == pkgs[i + 1..];
        if IsTest(p.name) {
          continue;
        }
        err := GeneratePackageDocs(p.doc, p.name, path, p.creatable);
        if err.Some? {
          return err;
        }
      }
      return None;
    }
  }

  /** A map of packages in some order: no name comes twice. */
  predicate Distinct(pkgs: seq<Input>) {
    forall i, j :: 0 <= i < j < |pkgs| ==> pkgs[i].name != pkgs[j].name
  }

  predicate Failing(p: Input) {
    !IsTest(p.name) && !p.creatable
  }

  /** The run fails when and only when some package outside the tests cannot get its file. */
  lemma {:induction false} RunFailsIff(pkgs: seq<Input>, path: string, files: Files)
    ensures Run(pkgs, path, files).1.Some? <==> exists p :: p in pkgs && Failing(p)
    decreases |pkgs|
  {
    if pkgs != [] {
      var p, rest := pkgs[0], pkgs[1..];
      assert pkgs == [p] + rest;
      RunFailsIff(rest, path, files);
      RunFailsIff(rest, path, files[FileName(p.name) := PackageText(p.doc, p.name, path)]);
      if Failing(p) {
        assert p in pkgs;
      }
    }
  }

  /** No package writes a file that is not its own. */
  lemma {:induction false} RunKeeps(pkgs: seq<Input>, path: string, files: Files, k: string)
    requires forall p :: p in pkgs && !IsTest(p.name) ==> FileName(p.name) != k
    ensures var out := Run(pkgs, path, files).0;
            (k in out <==> k in files) && (k in files ==> out[k] == files[k])
    decreases |pkgs|
  {
    if pkgs != [] {
      var p := pkgs[0];
      assert p in pkgs;
      RunKeeps(pkgs[1..], path, files, k);
      RunKeeps(pkgs[1..], path, files[FileName(p.name) := PackageText(p.doc, p.name, path)], k);
    }
  }

  /** A successful run leaves each package's document in the package's file. */
  lemma {:induction false} RunWrites(pkgs: seq<Input>, path: string, files: Files, p: Input)
    requires Distinct(pkgs) && p in pkgs && !IsTest(p.name)
    requires Run(pkgs, path, files).1 == None
    ensures var out := Run(pkgs, path, files).0;
            FileName(p.name) in out && out[FileName(p.name)] == PackageText(p.doc, p.name, path)
    decreases |pkgs|
  {
    var q, rest := pkgs[0], pkgs[1..];
    if q == p {
      forall x | x in rest && !IsTest(x.name)
        ensures FileName(x.name) != FileName(p.name)
      {
        if FileName(x.name) == FileName(p.name) {
          FileNameInjective(x.name, p.name);
        }
      }
      RunKeeps(rest, path, files[FileName(p.name) := PackageText(p.doc, p.name, path)], FileName(p.name));
    } else {
      assert p in rest;
      if IsTest(q.name) {
        RunWrites(rest, path, files, p);
      } else {
        RunWrites(rest, path, files[FileName(q.name) := PackageText(q.doc, q.name, path)], p);
      }
    }
  }

  /**
   The files after a successful run, file by file: those there were before, and for every package
   with a name that does not end in _test the file of that name and the ending .md, with the
   package's document in it.
   */
  lemma SuccessfulRun(pkgs: seq<Input>, path: string, files: Files, k: string)
    requires Distinct(pkgs) && Run(pkgs, path, files).1 == None
    ensures var out := Run(pkgs, path, files).0;
            && (forall p :: p in pkgs && !(|p.name| >= 5 && p.name[|p.name| - 5..] == "_test") && p.name + ".md" == k ==>
                  k in out && out[k] == PackageText(p.doc, p.name, path))
            && ((forall p :: p in pkgs && p.name + ".md" == k ==> |p.name| >= 5 && p.name[|p.name| - 5..] == "_test") ==>
                  (k in out <==> k in files) && (k in files ==> out[k] == files[k]))
  {
    forall p | p in pkgs
      ensures IsTest(p.name) <==> |p.name| >= 5 && p.name[|p.name| - 5..] == "_test"
      ensures FileName(p.name) == p.name + ".md"
    {
      TestNames(p.name);
    }
    if p :| p in pkgs && !IsTest(p.name) && FileName(p.name) == k {
      RunWrites(pkgs, path, files, p);
      forall q | q in pkgs && q.name + ".md" == k
        ensures q == p
      {
        FileNameInjective(q.name, p.name);
      }
    } else {
      RunKeeps(pkgs, path, files, k);
    }
  }

  /** The loop gets through exactly when every package whose name does not end in _test gets its file. */
  lemma RunSucceedsIff(pkgs: seq<Input>, path: string, files: Files)
    ensures Run(pkgs, path, files).1 == None
       <==> forall p :: p in pkgs ==> p.creatable || (|p.name| >= 5 && p.name[|p.name| - 5..] == "_test")
  {
    RunFailsIff(pkgs, path, files);
    forall p | p in pkgs
      ensures IsTest(p.name) <==> |p.name| >= 5 && p.name[|p.name| - 5..] == "_test"
    {
      TestNames(p.name);
    }
  }

  /** Walking the packages in another order gives the same files, and fails when the first order fails. */
  lemma {:induction false} OrderDoesNotMatter(a: seq<Input>, b: seq<Input>, path: string, files: Files)
    requires Distinct(a) && Distinct(b)
    requires forall p :: p in a <==> p in b
    ensures Run(a, path, files).1 == None <==> Run(b, path, files).1 == None
    ensures Run(a, path, files).1 == None ==> Run(a, path, files) == Run(b, path, files)
  {
    RunFailsIff(a, path, files);
    RunFailsIff(b, path, files);
    if Run(a, path, files).1 == None {
      var x, y := Run(a, path, files).0, Run(b, path, files).0;
      forall k
        ensures (k in x <==> k in y) && (k in x ==> x[k] == y[k])
      {
        if p :| p in a && !IsTest(p.name) && FileName(p.name) == k {
          RunWrites(a, path, files, p);
          RunWrites(b, path, files, p);
        } else {
          RunKeeps(a, path, files, k);
          RunKeeps(b, path, files, k);
        }
      }
      assert x == y;
    }
  }

  /** A failing run has done what the packages before the failing one ask for, and no more. */
  lemma {:induction false} FailedRun(pkgs: seq<Input>, path: string, files: Files) returns (i: nat)
    requires Run(pkgs, path, files).1.Some?
    ensures i < |pkgs| && Failing(pkgs[i]) && (forall p :: p in pkgs[..i] ==> !Failing(p))
    ensures Run(pkgs, path, files) == (Run(pkgs[..i], path, files).0, Some(pkgs[i].name))
    ensures Run(pkgs[..i], path, files).1 == None
    decreases |pkgs|
  {
    var p, rest := pkgs[0], pkgs[1..];
    if Failing(p) {
      i := 0;
      assert pkgs[..0] == [];
    } else {
      var next := if IsTest(p.name) then files else files[FileName(p.name) := PackageText(p.doc, p.name, path)];
      var j := FailedRun(rest, path, next);
      i := j + 1;
      RunFirst(p, rest[..j], path, files);
      assert pkgs[..i] == [p] + rest[..j];
    }
  }

  lemma RunFirst(p: Input, rest: seq<Input>, path: string, files: Files)
    requires !Failing(p)
    ensures Run([p] + rest, path, files)
         == Run(rest, path, if IsTest(p.name) then files else files[FileName(p.name) := PackageText(p.doc, p.name, path)])
  {
    assert ([p] + rest)[1..] == rest;
  }

  /**
   The whole run: after a success, the file of every package outside the tests gives back, on its
   own, the listing of that package, exactly when the package can be rebuilt at all.
   */
  lemma {:induction false} FilesListPackages(pkgs: seq<Input>, path: string, files: Files, p: Input)
    requires Distinct(pkgs) && p in pkgs && !IsTest(p.name)
    requires Run(pkgs, path, files).1 == None
    requires SafePackage(p.doc, p.name, path)
    ensures var out := Run(pkgs, path, files).0;
            FileName(p.name) in out
            && (ReadListing(ReadText(out[FileName(p.name)]).blocks) == Some(ListingOf(p.doc, p.name)) <==> Recoverable(p.doc, path))
  {
    RunWrites(pkgs, path, files, p);
    DocumentListsPackage(p.doc, p.name, path);
  }
}
