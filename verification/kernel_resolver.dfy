/**
 Kernel inference for a script: from the script's path and its source
 text to the name of the remote execution kernel that should run it.

 Three steps, in order:
   1. the file name is the last component of the path;
   2. the extension is whatever follows the last `.` of the file name, or
      the sentinel "unknown" when the name has no `.`;
   3. the extension is looked up in a fixed seven-entry table (falling
      back to "unknown"); a `python3` result may then be upgraded by
      library keywords found in the source text.
 */
module KernelResolver {
  import opened Strings

  /** The kernels inference can produce, each with the name the remote
      service knows it by. */
  datatype Kernel =
    | Python3 | Php7 | R3 | Lua | NodeJs4 | Haskell | Octave4
    | TensorflowGpu | PythonTheano | PythonCaffe
    | Unknown
  {
    function Name(): (s: string)
      ensures s != []
    {
      match this
      case Python3 => "python3"
      case Php7 => "php7"
      case R3 => "r3"
      case Lua => "lua"
      case NodeJs4 => "nodejs4"
      case Haskell => "haskell"
      case Octave4 => "octave4"
      case TensorflowGpu => "tensorflow-python3-gpu"
      case PythonTheano => "python3-theano"
      case PythonCaffe => "python3-caffe"
      case Unknown => "unknown"
    }
  }

  /** The names of all kernels inference can produce. */
  const KernelNames: set<string> := {
    "python3", "php7", "r3", "lua", "nodejs4", "haskell", "octave4",
    "unknown", "tensorflow-python3-gpu", "python3-theano", "python3-caffe"
  }

  /** The sentinel extension of a file name without a `.`; it is also the
      name of the fallback kernel. */
  const NoExtension: string := "unknown"

  /** The extensions that have an entry in the extension table. */
  const TableExtensions: set<string> := {"py", "php", "r", "lua", "js", "hs", "m"}

  /** A library keyword and the kernel it selects for Python code. */
  datatype Rule = Rule(keyword: string, kernel: Kernel)

  /** The keyword checks for Python code, highest priority first. */
  const PythonRules: seq<Rule> := [
    Rule("tensorflow", TensorflowGpu),
    Rule("keras", TensorflowGpu),
    Rule("theano", PythonTheano),
    Rule("caffe", PythonCaffe)
  ]

  // ---------------------------------------------------------------------
  // Step 1: the file name

  /** `path` without its trailing `/` characters, as `java.io.File`
      normalises a path before naming it. */
  function StripTrailingSlashes(path: string): string
  {
    if |path| > 0 && path[|path| - 1] == '/' then StripTrailingSlashes(path[..|path| - 1])
    else path
  }

  /** Stripping keeps a prefix of `path` that does not end in `/`, and
      everything it drops is `/`. */
  lemma {:induction false} StripTrailingSlashesSpec(path: string)
    ensures var r := StripTrailingSlashes(path);
            && |r| <= |path| && path[..|r|] == r
            && (r == [] || r[|r| - 1] != '/')
            && forall j :: |r| <= j < |path| ==> path[j] == '/'
  {
    if |path| > 0 && path[|path| - 1] == '/' {
      var prefix := path[..|path| - 1];
      StripTrailingSlashesSpec(prefix);
      var r := StripTrailingSlashes(prefix);
      assert path[..|r|] == prefix[..|r|];
      forall j | |r| <= j < |path|
        ensures path[j] == '/'
      {
        if j < |prefix| {
          assert path[j] == prefix[j];
        }
      }
    }
  }

  /** The last component of `path` (`new File(path).getName()` with the
      Unix separator). */
  function FileName(path: string): (r: string)
    ensures '/' !in r
    ensures |r| <= |path|
  {
    var p := StripTrailingSlashes(path);
    StripTrailingSlashesSpec(path);
    AfterLastIndexOf(p, '/');
    p[LastIndexOf(p, '/') + 1..]
  }

  /** The file name is the longest `/`-free suffix of the stripped path. */
  lemma FileNameSpec(path: string)
    ensures var p, r := StripTrailingSlashes(path), FileName(path);
            && '/' !in r
            && |r| <= |p| && p[|p| - |r|..] == r
            && (|r| == |p| || p[|p| - |r| - 1] == '/')
  {
    var p := StripTrailingSlashes(path);
    LastIndexOfSpec(p, '/');
    var k := LastIndexOf(p, '/');
    var r := FileName(path);
    assert r == p[k + 1..];
    assert forall i :: 0 <= i < |r| ==> r[i] == p[k + 1 + i];
  }

  // ---------------------------------------------------------------------
  // Step 2: the extension

  /** The text after the last `.` of `name`, or "unknown" when `name`
      has no `.`. */
  function Extension(name: string): (r: string)
    ensures '.' !in r
    ensures '.' !in name ==> r == NoExtension
    ensures '.' in name ==> |r| < |name|
  {
    var dot := LastIndexOf(name, '.');
    LastIndexOfSpec(name, '.');
    AfterLastIndexOf(name, '.');
    if dot != -1 then name[dot + 1..] else NoExtension
  }

  /** The extension of the file name of `path`. */
  function ExtensionOf(path: string): string
  {
    Extension(FileName(path))
  }

  /** Without a `.` the extension is the sentinel; otherwise it is the
      `.`-free suffix that directly follows a `.` of `name`. */
  lemma ExtensionSpec(name: string)
    ensures '.' !in name ==> Extension(name) == NoExtension
    ensures '.' in name ==>
              var r := Extension(name);
              && '.' !in r && |r| < |name| && name[|name| - |r|..] == r
              && name[|name| - |r| - 1] == '.'
  {
    LastIndexOfSpec(name, '.');
    if '.' in name {
      var k := LastIndexOf(name, '.');
      var r := Extension(name);
      assert r == name[k + 1..];
      assert forall i :: 0 <= i < |r| ==> r[i] == name[k + 1 + i];
    }
  }

  // ---------------------------------------------------------------------
  // Step 3: table lookup and the Python keyword upgrade

  /** The fixed extension table: the kernel for `ext`, or `Unknown` when
      `ext` has no entry. Keys are compared case-sensitively. */
  function LookupKernel(ext: string): (r: Kernel)
    ensures r != Unknown <==> ext in TableExtensions
    ensures r != Python3 <==> ext != "py"
  {
    match ext
    case "py" => Python3
    case "php" => Php7
    case "r" => R3
    case "lua" => Lua
    case "js" => NodeJs4
    case "hs" => Haskell
    case "m" => Octave4
    case _ => Unknown
  }

  /** The keyword check of the source: the first occurrence of `keyword`
      is at an offset greater than 0. */
  predicate Fires(code: string, keyword: string)
  {
    IndexOf(code, keyword) > 0
  }

  /** Rule `k` is the first rule of `rules` that fires on `code`. */
  ghost predicate DecidedBy(code: string, rules: seq<Rule>, k: int)
  {
    && 0 <= k < |rules|
    && Fires(code, rules[k].keyword)
    && forall j :: 0 <= j < k ==> !Fires(code, rules[j].keyword)
  }

  /** The kernel of the first rule that fires on `code`, or `fallback`
      when none does. */
  function FirstFiring(code: string, rules: seq<Rule>, fallback: Kernel): (r: Kernel)
    ensures forall k :: DecidedBy(code, rules, k) ==> r == rules[k].kernel
    ensures (forall k :: 0 <= k < |rules| ==> !Fires(code, rules[k].keyword)) ==> r == fallback
    ensures r == fallback || exists k :: 0 <= k < |rules| && r == rules[k].kernel
  {
    if |rules| == 0 then fallback
    else if Fires(code, rules[0].keyword) then rules[0].kernel
    else
      var r := FirstFiring(code, rules[1..], fallback);
      assert forall k :: DecidedBy(code, rules, k) ==> k > 0 && DecidedBy(code, rules[1..], k - 1);
      r
  }

  /** The kernel the extension table gives the script at `path`. */
  function TableKernel(path: string): Kernel
  {
    LookupKernel(ExtensionOf(path))
  }

  /** The Python keyword upgrade: only a `python3` kernel is examined,
      every other kernel is kept. */
  function Upgrade(kernel: Kernel, code: string): (r: Kernel)
    ensures kernel != Python3 ==> r == kernel
    ensures kernel == Python3 ==> r in {Python3, TensorflowGpu, PythonTheano, PythonCaffe}
  {
    if kernel == Python3 then FirstFiring(code, PythonRules, Python3) else kernel
  }

  /** The kernel inferred for the script at `path` whose text is `code`. */
  function Resolve(path: string, code: string): (r: Kernel)
    ensures ExtensionOf(path) != "py" ==> r == LookupKernel(ExtensionOf(path))
    ensures r != Unknown <==> ExtensionOf(path) in TableExtensions
    ensures r in {Python3, TensorflowGpu, PythonTheano, PythonCaffe} <==> ExtensionOf(path) == "py"
  {
    Upgrade(TableKernel(path), code)
  }
}
