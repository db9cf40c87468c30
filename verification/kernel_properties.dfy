/**
 Properties of kernel inference, each stated for all inputs, followed by
 the concrete cases that pin down its edges.
 */
module KernelProperties {
  import opened Strings
  import opened KernelResolver

  // ---------------------------------------------------------------------
  // File name and extension

  /** A name without `/` is its own file name, and appending it to any
      directory (whatever that directory contains) gives it back. */
  lemma FileNameOfJoin(dir: string, name: string)
    requires '/' !in name && name != []
    ensures FileName(name) == name
    ensures FileName(dir + "/" + name) == name
  {
    assert name[|name| - 1] in name;
    assert StripTrailingSlashes(name) == name;
    LastIndexOfSpec(name, '/');
    var path := dir + "/" + name;
    assert path[|path| - 1] == name[|name| - 1];
    assert StripTrailingSlashes(path) == path;
    LastIndexOfSpec(path, '/');
    var k := LastIndexOf(path, '/');
    assert path[|dir|] == '/';
    assert k == |dir|;
    assert path[k + 1..] == name;
  }

  /** The extension is exactly what follows the LAST `.`: for any stem
      (which may contain dots) and any dot-free `ext`, the extension of
      `stem.ext` is `ext`. */
  lemma ExtensionOfJoin(stem: string, ext: string)
    requires '.' !in ext
    ensures Extension(stem + "." + ext) == ext
  {
    var name := stem + "." + ext;
    assert name[|stem|] == '.';
    assert '.' in name;
    ExtensionSpec(name);
    var r := Extension(name);
    assert |r| == |ext|;
    assert r == name[|name| - |ext|..] == ext;
  }

  // ---------------------------------------------------------------------
  // Table lookup

  /** A file name with no `.` resolves to "unknown" whatever the code. */
  lemma NoDotIsUnknown(path: string, code: string)
    requires '.' !in FileName(path)
    ensures Resolve(path, code) == Unknown
  {
    ExtensionSpec(FileName(path));
    assert ExtensionOf(path) == NoExtension;
    assert TableKernel(path) == Unknown;
  }

  /** Dots in the directory part never make an extension: a dot-free
      file name under any directory resolves to "unknown". */
  lemma DirectoryDotsIgnored(dir: string, name: string, code: string)
    requires '/' !in name && '.' !in name && name != []
    ensures Resolve(dir + "/" + name, code) == Unknown
  {
    FileNameOfJoin(dir, name);
    NoDotIsUnknown(dir + "/" + name, code);
  }

  /** For every extension other than `py` the result is the table's
      entry for it (`Unknown` when there is none), whatever the code. */
  lemma NonPythonIsTableValue(path: string, code: string)
    requires ExtensionOf(path) != "py"
    ensures Resolve(path, code) == LookupKernel(ExtensionOf(path))
    ensures ExtensionOf(path) in TableExtensions <==> Resolve(path, code) != Unknown
  {
    assert TableKernel(path) != Python3;
  }

  /** Only the code of a `py` file matters: for any other extension two
      scripts with the same path resolve alike. */
  lemma CodeIgnoredUnlessPython(path: string, code: string, other: string)
    requires ExtensionOf(path) != "py"
    ensures Resolve(path, code) == Resolve(path, other)
  {
    NonPythonIsTableValue(path, code);
    NonPythonIsTableValue(path, other);
  }

  /** An extension with no table entry resolves to "unknown". */
  lemma MissingExtensionIsUnknown(path: string, code: string)
    requires ExtensionOf(path) !in TableExtensions
    ensures Resolve(path, code) == Unknown
  {
    assert TableKernel(path) == Unknown;
  }

  // ---------------------------------------------------------------------
  // The Python keyword upgrade

  /** Rules are tried front to back: the head rule decides when it
      fires, otherwise the remaining rules do. */
  lemma FirstFiringCons(code: string, rule: Rule, rest: seq<Rule>, fallback: Kernel)
    ensures FirstFiring(code, [rule] + rest, fallback) ==
              if Fires(code, rule.keyword) then rule.kernel else FirstFiring(code, rest, fallback)
  {
    assert ([rule] + rest)[1..] == rest;
  }

  /** The rule table, tried front to back, is the source's if/else chain
      over the four keywords, with `python3` when none fires. */
  lemma PythonRulesAreTheChain(code: string)
    ensures FirstFiring(code, PythonRules, Python3) ==
              if Fires(code, "tensorflow") then TensorflowGpu
              else if Fires(code, "keras") then TensorflowGpu
              else if Fires(code, "theano") then PythonTheano
              else if Fires(code, "caffe") then PythonCaffe
              else Python3
  {
    var r0 := Rule("tensorflow", TensorflowGpu);
    var r1 := Rule("keras", TensorflowGpu);
    var r2 := Rule("theano", PythonTheano);
    var r3 := Rule("caffe", PythonCaffe);
    assert PythonRules == [r0] + ([r1] + ([r2] + ([r3] + [])));
    FirstFiringCons(code, r0, [r1] + ([r2] + ([r3] + [])), Python3);
    FirstFiringCons(code, r1, [r2] + ([r3] + []), Python3);
    FirstFiringCons(code, r2, [r3] + [], Python3);
    FirstFiringCons(code, r3, [], Python3);
  }

  /** For `py` files the keywords are checked in priority order
      (tensorflow, keras, theano, caffe) and the first that fires decides;
      with none firing the result stays `python3`. */
  lemma PythonKeywordPriority(path: string, code: string)
    requires ExtensionOf(path) == "py"
    ensures Resolve(path, code) ==
              if Fires(code, "tensorflow") then TensorflowGpu
              else if Fires(code, "keras") then TensorflowGpu
              else if Fires(code, "theano") then PythonTheano
              else if Fires(code, "caffe") then PythonCaffe
              else Python3
  {
    assert TableKernel(path) == Python3;
    PythonRulesAreTheChain(code);
  }

  /** A `py` file whose code fires no keyword stays `python3`. */
  lemma PythonWithoutKeywordsStaysPython3(path: string, code: string)
    requires ExtensionOf(path) == "py"
    requires forall k :: 0 <= k < |PythonRules| ==> !Fires(code, PythonRules[k].keyword)
    ensures Resolve(path, code) == Python3
  {
    assert TableKernel(path) == Python3;
  }

  /** The highest-priority keyword that fires decides, even when a
      lower-priority keyword occurs earlier in the text. */
  lemma TensorflowWinsOverEarlierKeras(path: string, code: string)
    requires ExtensionOf(path) == "py"
    requires Fires(code, "tensorflow")
    ensures Resolve(path, code) == TensorflowGpu
  {
    PythonKeywordPriority(path, code);
  }

  /** Code that starts with a keyword does not fire that keyword. */
  lemma LeadingKeywordDoesNotFire(code: string, keyword: string)
    requires StartsWith(code, keyword)
    ensures !Fires(code, keyword)
  {
    IndexOfPositive(code, keyword);
  }

  /** A keyword that occurs at a positive offset fires, provided the code
      does not begin with the keyword's first character. */
  lemma FiresAt(code: string, keyword: string, i: int)
    requires 0 < i && OccursAt(code, keyword, i)
    requires |keyword| > 0 && |code| > 0 && code[0] != keyword[0]
    ensures Fires(code, keyword)
  {
    IndexOfPositive(code, keyword);
  }

  /** A keyword holding a character the code lacks never fires. */
  lemma MissingCharDoesNotFire(code: string, keyword: string, j: int)
    requires 0 <= j < |keyword| && keyword[j] !in code
    ensures !Fires(code, keyword)
  {
    IndexOfSpec(code, keyword);
  }

  /** Empty code fires no keyword, so a `py` file with empty code is
      `python3`. */
  lemma EmptyCodeStaysPython3(path: string, code: string)
    requires ExtensionOf(path) == "py" && code == []
    ensures Resolve(path, code) == Python3
  {
    PythonKeywordPriority(path, code);
  }

  /** Only a `py` file can be upgraded, and it is never "unknown". */
  lemma PythonFamilyIffPy(path: string, code: string)
    ensures Resolve(path, code) in {Python3, TensorflowGpu, PythonTheano, PythonCaffe}
            <==> ExtensionOf(path) == "py"
  {
    if ExtensionOf(path) == "py" {
      assert TableKernel(path) == Python3;
    } else {
      NonPythonIsTableValue(path, code);
    }
  }

  // ---------------------------------------------------------------------
  // Kernel names

  /** Every kernel name is non-empty and one of the eleven inferred
      names; distinct kernels have distinct names, so comparing kernels
      is comparing their names by value. */
  lemma KernelNamesDistinct(k: Kernel, k': Kernel)
    ensures k.Name() in KernelNames
    ensures |k.Name()| > 0
    ensures k.Name() == k'.Name() ==> k == k'
  {
  }

  // ---------------------------------------------------------------------
  // Concrete cases
  //
  // The examples take their literal inputs as parameters fixed by
  // `requires`, which keeps the verifier from unfolding the recursive
  // definitions on constant strings.

  /** A dot-free path component `stem.ext` has extension `ext`. */
  lemma ExtensionOfPlainName(stem: string, ext: string)
    requires '/' !in stem && '/' !in ext && '.' !in ext
    ensures ExtensionOf(stem + "." + ext) == ext
  {
    var name := stem + "." + ext;
    assert '/' !in name by {
      assert forall i :: 0 <= i < |name| ==> name[i] == '.' || name[i] in stem || name[i] in ext;
    }
    FileNameOfJoin("", name);
    ExtensionOfJoin(stem, ext);
  }

  /** Under any directory, a last component `stem.ext` has extension
      `ext`. */
  lemma ExtensionOfPath(dir: string, stem: string, ext: string)
    requires '/' !in stem && '/' !in ext && '.' !in ext
    ensures ExtensionOf(dir + "/" + (stem + "." + ext)) == ext
  {
    var name := stem + "." + ext;
    assert '/' !in name by {
      assert forall i :: 0 <= i < |name| ==> name[i] == '.' || name[i] in stem || name[i] in ext;
    }
    FileNameOfJoin(dir, name);
    ExtensionOfJoin(stem, ext);
  }

  lemma ExampleLastDotWinsExtension(path: string)
    requires path == "a.b.py"
    ensures ExtensionOf(path) == "py"
  {
    ExtensionOfPlainName("a.b", "py");
    assert "a.b" + "." + "py" == path;
  }

  lemma ExampleLastDotWins(path: string, code: string)
    requires path == "a.b.py" && code == ""
    ensures Resolve(path, code) == Python3
  {
    ExampleLastDotWinsExtension(path);
    EmptyCodeStaysPython3(path, code);
  }

  lemma ExampleTrailingDotExtension(path: string)
    requires path == "x."
    ensures ExtensionOf(path) == ""
  {
    ExtensionOfPlainName("x", "");
    assert "x" + "." + "" == path;
  }

  lemma ExampleTrailingDot(path: string, code: string)
    requires path == "x." && code == ""
    ensures Resolve(path, code) == Unknown
  {
    ExampleTrailingDotExtension(path);
    MissingExtensionIsUnknown(path, code);
  }

  lemma ExampleCaseSensitive(path: string, code: string)
    requires path == "X.PY" && code == ""
    ensures Resolve(path, code) == Unknown
  {
    ExtensionOfPlainName("X", "PY");
    assert "X" + "." + "PY" == path;
    MissingExtensionIsUnknown(path, code);
  }

  lemma ExampleNoExtensionName(path: string)
    requires path == "noext"
    ensures FileName(path) == path && '.' !in path
  {
    FileNameOfJoin("", path);
  }

  lemma ExampleNoExtension(path: string, code: string)
    requires path == "noext" && code == "anything"
    ensures Resolve(path, code) == Unknown
  {
    ExampleNoExtensionName(path);
    NoDotIsUnknown(path, code);
  }

  lemma ExampleUnlistedExtension(path: string, code: string)
    requires path == "x.zzz" && code == "anything"
    ensures Resolve(path, code) == Unknown
  {
    ExtensionOfPlainName("x", "zzz");
    assert "x" + "." + "zzz" == path;
    MissingExtensionIsUnknown(path, code);
  }

  lemma ExampleDottedDirectory(dir: string, name: string, code: string)
    requires dir == "my.dir" && name == "script" && code == "x"
    ensures Resolve(dir + "/" + name, code) == Unknown
  {
    DirectoryDotsIgnored(dir, name, code);
  }

  lemma ExampleNonPythonIgnoresCode(dir: string, stem: string, ext: string, code: string)
    requires dir == "dir" && stem == "run" && ext == "js" && code == "import tensorflow"
    ensures Resolve(dir + "/" + (stem + "." + ext), code) == NodeJs4
  {
    ExtensionOfPath(dir, stem, ext);
    NonPythonIsTableValue(dir + "/" + (stem + "." + ext), code);
  }

  lemma ExampleTensorflowImportFires(code: string)
    requires code == "import tensorflow as tf"
    ensures Fires(code, "tensorflow")
  {
    assert code[7..17] == "tensorflow";
    FiresAt(code, "tensorflow", 7);
  }

  lemma ExampleTensorflowImport(path: string, code: string)
    requires path == "x.py" && code == "import tensorflow as tf"
    ensures Resolve(path, code) == TensorflowGpu
  {
    ExtensionOfPlainName("x", "py");
    assert "x" + "." + "py" == path;
    ExampleTensorflowImportFires(code);
    TensorflowWinsOverEarlierKeras(path, code);
  }

  lemma ExampleLeadingKeywordFiresNothing(code: string)
    requires code == "tensorflow"
    ensures !Fires(code, "tensorflow") && !Fires(code, "keras")
    ensures !Fires(code, "theano") && !Fires(code, "caffe")
  {
    assert StartsWith(code, code);
    LeadingKeywordDoesNotFire(code, code);
    assert 'k' !in code;
    MissingCharDoesNotFire(code, "keras", 0);
    assert 'h' !in code;
    MissingCharDoesNotFire(code, "theano", 1);
    assert 'c' !in code;
    MissingCharDoesNotFire(code, "caffe", 0);
  }

  lemma ExampleKeywordAtOffsetZero(path: string, code: string)
    requires path == "x.py" && code == "tensorflow"
    ensures Resolve(path, code) == Python3
  {
    ExtensionOfPlainName("x", "py");
    assert "x" + "." + "py" == path;
    ExampleLeadingKeywordFiresNothing(code);
    PythonKeywordPriority(path, code);
  }

  lemma ExampleLateTensorflowFires(code: string)
    requires code == "import keras; import tensorflow"
    ensures Fires(code, "tensorflow")
  {
    assert code[21..31] == "tensorflow";
    FiresAt(code, "tensorflow", 21);
  }

  lemma ExamplePriorityNotPosition(path: string, code: string)
    requires path == "x.py" && code == "import keras; import tensorflow"
    ensures Resolve(path, code) == TensorflowGpu
  {
    ExtensionOfPlainName("x", "py");
    assert "x" + "." + "py" == path;
    ExampleLateTensorflowFires(code);
    TensorflowWinsOverEarlierKeras(path, code);
  }

  lemma ExampleTheanoFires(code: string)
    requires code == "import theano"
    ensures !Fires(code, "tensorflow") && !Fires(code, "keras") && Fires(code, "theano")
  {
    assert 'f' !in code;
    MissingCharDoesNotFire(code, "tensorflow", 6);
    assert 'k' !in code;
    MissingCharDoesNotFire(code, "keras", 0);
    assert code[7..13] == "theano";
    FiresAt(code, "theano", 7);
  }

  lemma ExampleTheano(path: string, code: string)
    requires path == "x.py" && code == "import theano"
    ensures Resolve(path, code) == PythonTheano
  {
    ExtensionOfPlainName("x", "py");
    assert "x" + "." + "py" == path;
    ExampleTheanoFires(code);
    PythonKeywordPriority(path, code);
  }
}
