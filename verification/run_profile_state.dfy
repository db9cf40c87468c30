/**
 The part of starting a run that decides which kernel the remote process
 is created with: the configured kernel type is used as it is, unless it
 is the literal "auto", in which case it is inferred from the script's
 path and text.

 Reading the script is I/O and is not modelled; its outcome is an input.
 An `IOException` while reading is caught and the run goes ahead with
 empty code. A path that `Paths.get` rejects raises an unchecked
 exception that nothing catches, and then no process is started.
 */
module RunProfileState {
  import opened KernelResolver
  import KernelProperties

  /** The configured kernel type that asks for inference. */
  const Auto: string := "auto"

  /** What the user configured for a run. */
  datatype RunConfiguration = RunConfiguration(
    scriptPath: string,
    accessKey: string,
    secretKey: string,
    kernelType: string)

  /** The outcome of reading and decoding the script file:
      - `Read`: the bytes were read and decoded as UTF-8;
      - `Unreadable`: reading raised an `IOException`, which is caught;
      - `PathRejected`: `Paths.get` raised `InvalidPathException` (the
        path holds a NUL character or characters the platform cannot
        encode); it is unchecked and leaves `startProcess`. */
  datatype ScriptRead = Read(text: string) | Unreadable | PathRejected

  /** The arguments the remote process handler is created with. */
  datatype ProcessRequest = ProcessRequest(
    code: string,
    accessKey: string,
    secretKey: string,
    kernelType: string)

  /** Whether `startProcess` returned a process handler, and with which
      arguments, or ended with an exception. */
  datatype StartResult = Started(request: ProcessRequest) | NotStarted

  /** The script text the run uses: the decoded text, or empty code when
      reading failed. */
  function ScriptCode(read: ScriptRead): string
  {
    match read
    case Read(text) => text
    case _ => ""
  }

  /** The kernel the process is created with: the configured one unless
      it is "auto", otherwise an inferred kernel name (never "auto"
      itself, so inference is never asked for twice). */
  function SelectKernel(kernelType: string, scriptPath: string, code: string): (r: string)
    ensures kernelType != Auto ==> r == kernelType
    ensures kernelType == Auto ==> r in KernelNames && r != Auto
  {
    if kernelType == Auto then
      var k := Resolve(scriptPath, code);
      KernelProperties.KernelNamesDistinct(k, k);
      assert Auto !in KernelNames;
      k.Name()
    else kernelType
  }

  /** Starting a run: no process when the path is rejected; otherwise a
      request whose credentials pass through untouched, whose code is the
      script text (empty when unreadable), and whose kernel is the
      configured one unless that is "auto". */
  function StartProcess(config: RunConfiguration, read: ScriptRead): (r: StartResult)
    ensures r.NotStarted? <==> read.PathRejected?
    ensures r.Started? ==> r.request.accessKey == config.accessKey
                           && r.request.secretKey == config.secretKey
    ensures read.Read? ==> r.Started? && r.request.code == read.text
    ensures read.Unreadable? ==> r.Started? && r.request.code == []
    ensures r.Started? && config.kernelType != Auto ==> r.request.kernelType == config.kernelType
    ensures r.Started? && config.kernelType == Auto ==>
              r.request.kernelType == Resolve(config.scriptPath, r.request.code).Name()
  {
    if read.PathRejected? then NotStarted
    else
      var code := ScriptCode(read);
      Started(ProcessRequest(code, config.accessKey, config.secretKey,
                             SelectKernel(config.kernelType, config.scriptPath, code)))
  }

  /** An explicitly configured kernel is used whatever the script's path
      and text, and whether or not it could be read. */
  lemma ExplicitKernelPassesThrough(config: RunConfiguration, read: ScriptRead, config': RunConfiguration, read': ScriptRead)
    requires config.kernelType != Auto && config'.kernelType == config.kernelType
    requires !read.PathRejected? && !read'.PathRejected?
    ensures StartProcess(config, read).request.kernelType
            == StartProcess(config', read').request.kernelType == config.kernelType
  {
  }

  /** With "auto" and an unreadable script the keyword upgrade never
      happens: the kernel is the extension table's. */
  lemma UnreadableScriptIsNotUpgraded(config: RunConfiguration)
    requires config.kernelType == Auto
    ensures StartProcess(config, Unreadable).request.kernelType == TableKernel(config.scriptPath).Name()
  {
    var code := ScriptCode(Unreadable);
    if TableKernel(config.scriptPath) == Python3 {
      Strings.IndexOfSpec(code, "tensorflow");
      Strings.IndexOfSpec(code, "keras");
      Strings.IndexOfSpec(code, "theano");
      Strings.IndexOfSpec(code, "caffe");
      KernelProperties.PythonRulesAreTheChain(code);
    }
  }
}
