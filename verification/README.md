# Kernel inference for the Backend.AI live code runner

The IntelliJ run configuration of this plugin sends a script to a remote
Backend.AI *kernel* (a managed execution environment such as `python3` or
`tensorflow-python3-gpu`). The user either names the kernel or sets the
kernel type to the literal `"auto"`, and the plugin then infers the kernel
from the script's path and text (`BARunProfileState.findKernelFromPathAndCode`):

1. the file name is the last component of the path;
2. the extension is the text after the last `.` of the file name, or the
   sentinel `"unknown"` when the name has no `.`;
3. the extension is looked up in a fixed seven-entry table
   (`py→python3, php→php7, r→r3, lua→lua, js→nodejs4, hs→haskell, m→octave4`),
   falling back to `"unknown"`; a `python3` result is then upgraded when
   the code mentions `tensorflow`, `keras` (both `tensorflow-python3-gpu`),
   `theano` (`python3-theano`) or `caffe` (`python3-caffe`), checked in that
   order, where "mentions" means `code.indexOf(keyword) > 0`.

The Dafny project models that function and the `"auto"` guard of
`startProcess` that decides whether it runs.

- `strings.dfy`, module `Strings`: Java's `lastIndexOf(char)` and
  `indexOf(String)` (first occurrence, or -1) as pure functions, with lemmas
  stating what their results mean in terms of an independent `OccursAt`
  predicate.
- `kernel_resolver.dfy`, module `KernelResolver`: the `Kernel` datatype (the
  eleven kernels inference can produce, each with its service name),
  `FileName`, `Extension`, the extension table `LookupKernel`, the keyword
  rules `PythonRules` tried by `FirstFiring`, and `Resolve`.
- `kernel_properties.dfy`, module `KernelProperties`: the properties of
  `Resolve` for all inputs, and concrete cases for the edges.
- `run_profile_state.dfy`, module `RunProfileState`: the run configuration,
  the outcome of reading the script, and `StartProcess`, which builds the
  arguments of the remote process handler.

Modelling decisions:

- `new File(path).getName()` is modelled for the Unix separator. Java
  normalises the path first, and that drops trailing `/` characters, so
  `FileName` strips them and then takes the text after the last `/`.
- The source compares the looked-up kernel with `"python3"` using `==`, which
  is reference equality on Java strings. The table's values are interned
  literals, so this behaves as value equality, and the model compares kernels
  by value. `KernelNamesDistinct` shows that comparing kernels is the same
  as comparing their names.
- The keyword test is kept exactly as written: `indexOf(keyword) > 0`, so a
  keyword whose first occurrence is at offset 0 does not fire, even when it
  occurs again later.
- `startProcess` catches only an `IOException` from reading the script
  (lines 71-75): it prints the exception and goes on with empty code
  (`ScriptRead.Unreadable`). `Paths.get` (line 72) can instead throw the
  unchecked `InvalidPathException`, for a path holding a NUL character or
  characters the platform cannot encode. Nothing catches it, so no process
  handler is built (`ScriptRead.PathRejected` gives `NotStarted`). The
  `UnsupportedEncodingException` branch (lines 79-81) cannot be taken,
  because every Java platform supports UTF-8.

## Model

| member | source | states |
|---|---|---|
| Strings.LastIndexOfSpec | src/main/java/net/zzid/backendai/BARunProfileState.java:105-106 | `lastIndexOf` gives -1 exactly when the character is absent; otherwise it gives an index holding the character, with no occurrence after it |
| Strings.IndexOfSpec | src/main/java/net/zzid/backendai/BARunProfileState.java:118-124 | `indexOf` gives the first occurrence: a non-negative result is an occurrence with none before it, and -1 means the keyword occurs nowhere |
| Strings.IndexOfPositive | src/main/java/net/zzid/backendai/BARunProfileState.java:118-124 | the test `indexOf(kw) > 0` holds exactly when the keyword occurs at some positive offset and the code does not start with it |
| Strings.AfterLastIndexOf | src/main/java/net/zzid/backendai/BARunProfileState.java:105-106 | the text after the last occurrence of a character (all of it when there is none) holds no occurrence of that character |
| KernelResolver.StripTrailingSlashesSpec | src/main/java/net/zzid/backendai/BARunProfileState.java:92-93 | the path normalisation done by `File` keeps a prefix that does not end in `/` and drops only `/` characters |
| KernelResolver.FileNameSpec | src/main/java/net/zzid/backendai/BARunProfileState.java:92-93 | `getName()` is the longest `/`-free suffix of the normalised path |
| KernelResolver.FileName | src/main/java/net/zzid/backendai/BARunProfileState.java:92-93 | `getName()` holds no `/` and is no longer than the path; `FileNameSpec` states which suffix it is |
| KernelResolver.ExtensionSpec | src/main/java/net/zzid/backendai/BARunProfileState.java:105-109 | without a `.` the extension is the sentinel `"unknown"`; otherwise it is the `.`-free suffix that directly follows a `.` |
| KernelResolver.Extension | src/main/java/net/zzid/backendai/BARunProfileState.java:105-109 | the extension holds no `.`; it is the sentinel `"unknown"` when the file name has no `.`, and is shorter than the file name when it has one |
| KernelResolver.LookupKernel | src/main/java/net/zzid/backendai/BARunProfileState.java:96-114 | the table gives a kernel other than `unknown` exactly for the seven listed extensions, and gives `python3` exactly for `py` |
| KernelResolver.FirstFiring | src/main/java/net/zzid/backendai/BARunProfileState.java:117-127 | the first rule whose keyword fires decides the kernel; when no rule fires the kernel is left as it was |
| KernelResolver.Upgrade | src/main/java/net/zzid/backendai/BARunProfileState.java:116-127 | the keyword checks only touch a `python3` kernel, and they can only turn it into a Python-family kernel |
| KernelResolver.Resolve | src/main/java/net/zzid/backendai/BARunProfileState.java:91-130 | the inferred kernel. For a non-`py` extension it is the table's entry, and it is `unknown` exactly when the extension has no entry. It is a Python-family kernel exactly when the extension is `py`. `PythonKeywordPriority` gives the `py` case in full: the first of tensorflow, keras, theano, caffe that fires decides, else `python3` |
| KernelProperties.FileNameOfJoin | src/main/java/net/zzid/backendai/BARunProfileState.java:92-93 | a `/`-free name is its own file name, and so is the same name under any directory |
| KernelProperties.ExtensionOfJoin | src/main/java/net/zzid/backendai/BARunProfileState.java:105-106 | the extension of `stem.ext` is `ext` for every dot-free `ext`, even when the stem contains dots (the last `.` wins) |
| KernelProperties.ExtensionOfPath | src/main/java/net/zzid/backendai/BARunProfileState.java:92-106 | the extension of `dir/stem.ext` is `ext`, whatever the directory contains |
| KernelProperties.NoDotIsUnknown | src/main/java/net/zzid/backendai/BARunProfileState.java:105-114 | a file name without `.` resolves to `unknown`, whatever the code |
| KernelProperties.DirectoryDotsIgnored | src/main/java/net/zzid/backendai/BARunProfileState.java:92-114 | dots in parent directories never give an extension: a dot-free file name resolves to `unknown` under any directory |
| KernelProperties.NonPythonIsTableValue | src/main/java/net/zzid/backendai/BARunProfileState.java:96-117 | for every extension other than `py`, the result is the table's entry, and it is not `unknown` exactly when the extension is in the table |
| KernelProperties.CodeIgnoredUnlessPython | src/main/java/net/zzid/backendai/BARunProfileState.java:111-127 | for every extension other than `py`, two scripts with the same path resolve to the same kernel, whatever their code |
| KernelProperties.MissingExtensionIsUnknown | src/main/java/net/zzid/backendai/BARunProfileState.java:111-114 | an extension with no table entry resolves to `unknown` |
| KernelProperties.PythonRulesAreTheChain | src/main/java/net/zzid/backendai/BARunProfileState.java:117-127 | trying the rule table in order is the source's if/else chain over tensorflow, keras, theano, caffe |
| KernelProperties.PythonKeywordPriority | src/main/java/net/zzid/backendai/BARunProfileState.java:111-129 | for `py`, the result is decided by the highest-priority keyword that fires, and is `python3` when none fires |
| KernelProperties.PythonWithoutKeywordsStaysPython3 | src/main/java/net/zzid/backendai/BARunProfileState.java:111-127 | a `py` file whose code fires none of the four keywords stays `python3` |
| KernelProperties.TensorflowWinsOverEarlierKeras | src/main/java/net/zzid/backendai/BARunProfileState.java:118-119 | when `tensorflow` fires, a `py` file gets `tensorflow-python3-gpu`, even if a lower-priority keyword appears earlier in the text |
| KernelProperties.LeadingKeywordDoesNotFire | src/main/java/net/zzid/backendai/BARunProfileState.java:118-124 | code that starts with a keyword never fires that keyword |
| KernelProperties.FiresAt | src/main/java/net/zzid/backendai/BARunProfileState.java:118-124 | a keyword that occurs at a positive offset fires, provided the code does not begin with the keyword's first character |
| KernelProperties.MissingCharDoesNotFire | src/main/java/net/zzid/backendai/BARunProfileState.java:118-124 | a keyword that holds a character the code lacks never fires |
| KernelProperties.EmptyCodeStaysPython3 | src/main/java/net/zzid/backendai/BARunProfileState.java:117-127 | a `py` file with empty code resolves to `python3` |
| KernelProperties.PythonFamilyIffPy | src/main/java/net/zzid/backendai/BARunProfileState.java:111-129 | the result is one of `python3`, `tensorflow-python3-gpu`, `python3-theano`, `python3-caffe` if and only if the extension is `py` |
| KernelProperties.KernelNamesDistinct | src/main/java/net/zzid/backendai/BARunProfileState.java:111-129 | every result name is non-empty and one of the eleven kernel names, and distinct kernels have distinct names, so the `==` at line 117 is value equality |
| KernelProperties.ExampleLastDotWinsExtension | src/main/java/net/zzid/backendai/BARunProfileState.java:105-106 | `a.b.py` has extension `py` |
| KernelProperties.ExampleLastDotWins | src/main/java/net/zzid/backendai/BARunProfileState.java:105-127 | `a.b.py` with empty code resolves to `python3` |
| KernelProperties.ExampleTrailingDotExtension | src/main/java/net/zzid/backendai/BARunProfileState.java:105-106 | `x.` has the empty extension |
| KernelProperties.ExampleTrailingDot | src/main/java/net/zzid/backendai/BARunProfileState.java:105-114 | `x.` resolves to `unknown` |
| KernelProperties.ExampleCaseSensitive | src/main/java/net/zzid/backendai/BARunProfileState.java:111-114 | `X.PY` resolves to `unknown`, because matching is case-sensitive |
| KernelProperties.ExampleNoExtension | src/main/java/net/zzid/backendai/BARunProfileState.java:105-114 | `noext` resolves to `unknown` |
| KernelProperties.ExampleUnlistedExtension | src/main/java/net/zzid/backendai/BARunProfileState.java:111-114 | `x.zzz` resolves to `unknown` |
| KernelProperties.ExampleDottedDirectory | src/main/java/net/zzid/backendai/BARunProfileState.java:92-114 | `my.dir/script` resolves to `unknown` |
| KernelProperties.ExampleNonPythonIgnoresCode | src/main/java/net/zzid/backendai/BARunProfileState.java:96-117 | `dir/run.js` resolves to `nodejs4` even when its code imports tensorflow |
| KernelProperties.ExampleTensorflowImport | src/main/java/net/zzid/backendai/BARunProfileState.java:118-119 | `x.py` with `import tensorflow as tf` resolves to `tensorflow-python3-gpu` |
| KernelProperties.ExampleKeywordAtOffsetZero | src/main/java/net/zzid/backendai/BARunProfileState.java:117-127 | `x.py` whose code is exactly `tensorflow` stays `python3`, because the only occurrence is at offset 0 |
| KernelProperties.ExamplePriorityNotPosition | src/main/java/net/zzid/backendai/BARunProfileState.java:118-121 | `x.py` with `import keras; import tensorflow` resolves to `tensorflow-python3-gpu` |
| KernelProperties.ExampleTheano | src/main/java/net/zzid/backendai/BARunProfileState.java:118-123 | `x.py` with `import theano` resolves to `python3-theano` |
| RunProfileState.SelectKernel | src/main/java/net/zzid/backendai/BARunProfileState.java:83-85 | a configured kernel type other than `"auto"` is used unchanged; `"auto"` is replaced by one of the eleven inferred names, and never by `"auto"` itself |
| RunProfileState.StartProcess | src/main/java/net/zzid/backendai/BARunProfileState.java:62-88 | a handler is built exactly when `Paths.get` accepts the path. It gets the credentials unchanged, the script text (empty after a caught `IOException`), and the configured kernel, or the inferred one when the configured kernel is `"auto"` |
| RunProfileState.ExplicitKernelPassesThrough | src/main/java/net/zzid/backendai/BARunProfileState.java:83-85 | once a handler is built, an explicitly configured kernel does not depend on the script's path, its text, or whether it could be read |
| RunProfileState.UnreadableScriptIsNotUpgraded | src/main/java/net/zzid/backendai/BARunProfileState.java:68-85 | with `"auto"` and an unreadable script, the kernel is the table's kernel for the extension, never a keyword upgrade |

## Left out

- Reading the script file and decoding it as UTF-8 (`startProcess`, lines 68-81) are I/O. Their outcome is the `ScriptRead` input.
- RunProfileState.StartProcess: models only the caught `IOException` and the uncaught `InvalidPathException` as ways a read can fail. Other unchecked failures, such as a `SecurityException` from a security manager or an `OutOfMemoryError` on a huge file, are runtime-environment conditions and are not modelled.
- `BAProcessHandler`, the remote session it runs and its output stream (lines 51-59 and 87) are not part of this model, because they involve network calls and concurrency. The session state machine (pausing, buffering, termination) is therefore not modelled.
- `execute`, console creation, `createActions` and `PauseOutputAction` (lines 48-60 and 132-197) are IntelliJ UI and threading glue.
- The constructor's search-scope and console-builder setup (lines 40-46) calls into the framework.
- KernelResolver.FileName: models only the Unix separator `/`. On Windows `java.io.File` also splits at `\`.
- Strings.IndexOfSpec: offsets count Dafny characters, while Java counts UTF-16 code units. For characters outside the Basic Multilingual Plane the positive offsets differ, but the `> 0` test gives the same answer either way.
