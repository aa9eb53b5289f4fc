/** Assembling the `typst compile` command (internal/typst/typst.go).

    Running the binary, creating and writing files and reading the clock are
    foreign: the clock reading enters as `nowMillis`, and the outcome of each
    file operation and of the run as a parameter. */
module Typst {
  import opened Wrappers
  import opened Text
  import opened GoFilepath

  /** `CompileOpts`. */
  datatype CompileOpts = CompileOpts(
    inputFile: string,
    outputFile: string,
    fontDirs: seq<string>,
    extraArgs: seq<string>)

  /** The `CompileOptsBuilder` closures, one constructor per `With*` builder. */
  datatype CompileOption =
    | WithInputFile(inputFile: string)
    | WithOutputFile(outputFile: string)
    | WithFontDirs(fontDirs: seq<string>)
    | WithExtraArgs(extraArgs: seq<string>)

  /** Running one builder: it replaces its own field and no other. */
  function Apply(opt: CompileOption, c: CompileOpts): (r: CompileOpts)
    ensures opt.WithInputFile? ==> r == c.(inputFile := opt.inputFile)
    ensures opt.WithOutputFile? ==> r == c.(outputFile := opt.outputFile)
    ensures opt.WithFontDirs? ==> r == c.(fontDirs := opt.fontDirs)
    ensures opt.WithExtraArgs? ==> r == c.(extraArgs := opt.extraArgs)
  {
    match opt
    case WithInputFile(f) => c.(inputFile := f)
    case WithOutputFile(f) => c.(outputFile := f)
    case WithFontDirs(ds) => c.(fontDirs := ds)
    case WithExtraArgs(extra) => c.(extraArgs := extra)
  }

  /** The options run in order over `c`. */
  function ApplyAll(opts: seq<CompileOption>, c: CompileOpts): CompileOpts {
    if opts == [] then c else Apply(opts[|opts| - 1], ApplyAll(opts[..|opts| - 1], c))
  }

  /** The value the last builder of each kind sets, if any. */
  function LastInputFile(opts: seq<CompileOption>): Option<string> {
    if opts == [] then None
    else if opts[|opts| - 1].WithInputFile? then Some(opts[|opts| - 1].inputFile)
    else LastInputFile(opts[..|opts| - 1])
  }

  function LastOutputFile(opts: seq<CompileOption>): Option<string> {
    if opts == [] then None
    else if opts[|opts| - 1].WithOutputFile? then Some(opts[|opts| - 1].outputFile)
    else LastOutputFile(opts[..|opts| - 1])
  }

  function LastFontDirs(opts: seq<CompileOption>): Option<seq<string>> {
    if opts == [] then None
    else if opts[|opts| - 1].WithFontDirs? then Some(opts[|opts| - 1].fontDirs)
    else LastFontDirs(opts[..|opts| - 1])
  }

  function LastExtraArgs(opts: seq<CompileOption>): Option<seq<string>> {
    if opts == [] then None
    else if opts[|opts| - 1].WithExtraArgs? then Some(opts[|opts| - 1].extraArgs)
    else LastExtraArgs(opts[..|opts| - 1])
  }

  /** The last builder of each kind wins; a field no builder sets keeps its
      default. */
  lemma {:induction false} LastOptionWins(opts: seq<CompileOption>, c: CompileOpts)
    ensures ApplyAll(opts, c).inputFile == LastInputFile(opts).GetOr(c.inputFile)
    ensures ApplyAll(opts, c).outputFile == LastOutputFile(opts).GetOr(c.outputFile)
    ensures ApplyAll(opts, c).fontDirs == LastFontDirs(opts).GetOr(c.fontDirs)
    ensures ApplyAll(opts, c).extraArgs == LastExtraArgs(opts).GetOr(c.extraArgs)
  {
    if opts != [] {
      LastOptionWins(opts[..|opts| - 1], c);
    }
  }

  /** Options apply in sequence: running `a` and then `b` is running `a + b`. */
  lemma {:induction false} ApplyAllAppend(a: seq<CompileOption>, b: seq<CompileOption>, c: CompileOpts)
    ensures ApplyAll(a + b, c) == ApplyAll(b, ApplyAll(a, c))
    decreases |b|
  {
    if b == [] {
      assert a + b == a;
    } else {
      assert (a + b)[..|a + b| - 1] == a + b[..|b| - 1];
      ApplyAllAppend(a, b[..|b| - 1], c);
    }
  }

  /** `compiler`: its settings never change after construction. */
  datatype Compiler = Compiler(binaryPath: string, fontDir: string, templateDir: string, outputDir: string)

  /** `DefaultCompiler`, given the system's temporary directory. */
  function DefaultCompiler(tempDir: string): (r: Compiler)
    ensures r.binaryPath == "typst" && r.fontDir == "assets/fonts"
    ensures r.templateDir == "assets/typst-templates" && r.outputDir == tempDir
  {
    Compiler("typst", "assets/fonts", "assets/typst-templates", tempDir)
  }

  /** The font directories passed to Typst: the compiler's own first, when
      set, then the options' in order. */
  function FontDirs(c: Compiler, opts: CompileOpts): seq<string> {
    (if c.fontDir != "" then [c.fontDir] else []) + opts.fontDirs
  }

  /** `"--font-path", dir` for each directory. */
  function FontArgs(dirs: seq<string>): (r: seq<string>)
    ensures |r| == 2 * |dirs|
    ensures forall i :: 0 <= i < |dirs| ==> r[2 * i] == "--font-path" && r[2 * i + 1] == dirs[i]
  {
    if dirs == [] then []
    else
      var r := FontArgs(dirs[..|dirs| - 1]) + ["--font-path", dirs[|dirs| - 1]];
      assert forall i :: 0 <= i < |dirs| - 1 ==> r[2 * i] == "--font-path" && r[2 * i + 1] == dirs[i];
      r
  }

  /** Reference: the argument vector for `typst`. */
  function Argv(c: Compiler, opts: CompileOpts, outputFile: string): seq<string> {
    ["compile", "--root", "/"] + FontArgs(FontDirs(c, opts)) + opts.extraArgs + [opts.inputFile, outputFile]
  }

  /** The vector has 5 + 2·|font dirs| + |extra args| entries: the fixed
      prefix, a flag and a directory per font directory, the extra arguments
      unchanged, then the input and the output file. */
  lemma ArgvShape(c: Compiler, opts: CompileOpts, outputFile: string)
    ensures var args := Argv(c, opts, outputFile);
      var fd := FontDirs(c, opts);
      && |args| == 5 + 2 * |fd| + |opts.extraArgs|
      && args[..3] == ["compile", "--root", "/"]
      && (forall i :: 0 <= i < |fd| ==> args[3 + 2 * i] == "--font-path" && args[4 + 2 * i] == fd[i])
      && args[3 + 2 * |fd|..3 + 2 * |fd| + |opts.extraArgs|] == opts.extraArgs
      && args[|args| - 2] == opts.inputFile
      && args[|args| - 1] == outputFile
  {
    var fd := FontDirs(c, opts);
    var args := Argv(c, opts, outputFile);
    var fa := FontArgs(fd);
    assert args == ["compile", "--root", "/"] + fa + opts.extraArgs + [opts.inputFile, outputFile];
    assert forall i :: 0 <= i < |fd| ==> args[3 + 2 * i] == fa[2 * i] && args[4 + 2 * i] == fa[2 * i + 1];
  }

  /** The compiler's font directory is searched first whenever it is set. */
  lemma CompilerFontDirFirst(c: Compiler, opts: CompileOpts, outputFile: string)
    requires c.fontDir != ""
    ensures Argv(c, opts, outputFile)[3..5] == ["--font-path", c.fontDir]
  {
    ArgvShape(c, opts, outputFile);
    var args := Argv(c, opts, outputFile);
    assert FontDirs(c, opts)[0] == c.fontDir;
    assert args[3..5] == [args[3], args[4]];
  }

  /** The argument-vector assembly of `Compile`. */
  method BuildArgs(c: Compiler, opts: CompileOpts, outputFile: string) returns (args: seq<string>)
    ensures args == Argv(c, opts, outputFile)
  {
    var fontDirs: seq<string> := [];
    if c.fontDir != "" {
      fontDirs := fontDirs + [c.fontDir];
    }
    fontDirs := fontDirs + opts.fontDirs;
    assert fontDirs == FontDirs(c, opts);

    args := AppendFontArgs(["compile", "--root", "/"], fontDirs);
    args := args + opts.extraArgs;
    args := args + [opts.inputFile, outputFile];
  }

  /** The loop of `Compile` over the font directories. */
  method AppendFontArgs(prefix: seq<string>, dirs: seq<string>) returns (args: seq<string>)
    ensures args == prefix + FontArgs(dirs)
  {
    args := prefix;
    var i := 0;
    while i < |dirs|
      invariant 0 <= i <= |dirs|
      invariant args == prefix + FontArgs(dirs[..i])
    {
      FontArgsSnoc(dirs, i);
      args := args + ["--font-path", dirs[i]];
      i := i + 1;
    }
    assert dirs[..|dirs|] == dirs;
  }

  lemma FontArgsSnoc(dirs: seq<string>, i: nat)
    requires i < |dirs|
    ensures FontArgs(dirs[..i + 1]) == FontArgs(dirs[..i]) + ["--font-path", dirs[i]]
  {
    assert dirs[..i + 1][..i] == dirs[..i];
  }

  /** The name of the temporary output file made at `nowMillis`. */
  function TempPdfName(nowMillis: int): string {
    "typst-" + IntToString(nowMillis) + ".pdf"
  }

  /** The name of the temporary data file made at `nowMillis`. */
  function TempJsonName(nowMillis: int): string {
    "typst-" + IntToString(nowMillis) + ".json"
  }

  /** Where `Compile` writes the PDF: the named output file under the output
      directory, or a fresh temporary file there. */
  function OutputPath(c: Compiler, opts: CompileOpts, nowMillis: int): string {
    if opts.outputFile == "" then Join2(c.outputDir, TempPdfName(nowMillis))
    else Join2(c.outputDir, opts.outputFile)
  }

  datatype TypstError =
    | TempFileFailed       // "failed to create temporary output file"
    | CompilationFailed    // "typst compilation failed"
    | TemplateNotFound(path: string)
    | JsonFileFailed       // "failed to create temporary json file"
    | JsonWriteFailed      // "failed to write data to json file"

  /** `Compile`: the output path on success. `tempCreated` is whether the
      temporary output file could be created, `runs` whether the command
      exits successfully. */
  method Compile(c: Compiler, opts: CompileOpts, nowMillis: int, tempCreated: bool,
                 runs: (string, seq<string>) -> bool)
    returns (r: Result<string, TypstError>, argv: Option<seq<string>>)
    ensures opts.outputFile == "" && !tempCreated ==> r == Err(TempFileFailed) && argv.None?
    ensures opts.outputFile != "" || tempCreated ==>
      && argv == Some(Argv(c, opts, OutputPath(c, opts, nowMillis)))
      && r == (if runs(c.binaryPath, argv.value) then Ok(OutputPath(c, opts, nowMillis)) else Err(CompilationFailed))
  {
    var outputFile := Join2(c.outputDir, opts.outputFile);
    if opts.outputFile == "" {
      var tmpFilePath := Join2(c.outputDir, TempPdfName(nowMillis));
      if !tempCreated {
        return Err(TempFileFailed), None;
      }
      outputFile := tmpFilePath;
    }
    var args := BuildArgs(c, opts, outputFile);
    argv := Some(args);
    if !runs(c.binaryPath, args) {
      return Err(CompilationFailed), argv;
    }
    return Ok(outputFile), argv;
  }

  /** The template file for `name`: only the base name of `name` is looked up
      in the template directory. */
  function TemplatePath(c: Compiler, name: string): string {
    Join2(c.templateDir, Base(name))
  }

  /** A template name with directory components is reduced to its last
      element, which lands directly inside the cleaned template directory. */
  lemma TemplatePathInsideDir(c: Compiler, dir: string, file: string)
    requires file != "" && file != "." && file != ".." && NoSlash(file)
    ensures TemplatePath(c, dir + "/" + file) ==
      if Clean(c.templateDir) == "." then file
      else if Clean(c.templateDir) == "/" then "/" + file
      else Clean(c.templateDir) + "/" + file
  {
    BaseOfPlainTail(dir, file);
    JoinPlainName(c.templateDir, file);
  }

  /** Base names do not stop "..": a template name whose last element is ".."
      resolves to the parent of the template directory. */
  lemma TemplatePathDotDot(c: Compiler, dir: string)
    requires c.templateDir != ""
    requires Resolved(c.templateDir) != [] && Resolved(c.templateDir)[|Resolved(c.templateDir)| - 1] != ".."
    ensures TemplatePath(c, dir + "/..") ==
      Render(Resolved(c.templateDir)[..|Resolved(c.templateDir)| - 1], Rooted(c.templateDir))
  {
    BaseOfDotDot(dir);
    JoinDotDot(c.templateDir);
  }

  lemma BaseOfDotDot(dir: string)
    ensures Base(dir + "/..") == ".."
  {
    assert dir + "/.." == dir + "/" + "..";
    BaseOfPlainTail(dir, "..");
  }

  /** The lookup the "prevent path traversal" comment intends: a name whose
      base is ".", ".." or "/" names no file in the template directory and is
      refused; any other name lands one level inside the cleaned directory. */
  function SafeTemplatePath(c: Compiler, name: string): (r: Option<string>)
    ensures r.None? <==> Base(name) == "." || Base(name) == ".." || Base(name) == "/"
    ensures r.Some? ==>
              r.value == (if Clean(c.templateDir) == "." then Base(name)
                          else if Clean(c.templateDir) == "/" then "/" + Base(name)
                          else Clean(c.templateDir) + "/" + Base(name))
  {
    var b := Base(name);
    if b == "." || b == ".." || b == "/" then None
    else
      JoinPlainName(c.templateDir, b);
      Some(Join2(c.templateDir, b))
  }

  /** The options `CompileTemplate` starts from: the template as input and
      the data file passed as the `path` input. */
  function TemplateDefaults(templatePath: string, jsonPath: string): CompileOpts {
    CompileOpts(templatePath, "", [], ["--input", "path=" + jsonPath])
  }

  /** `CompileTemplate` up to the options it hands to `CompileToBytes`.
      `templateExists` is false exactly when `os.Stat` reports that the path
      does not exist; any other `Stat` error counts as true, because the
      source goes on and leaves that failure to the compiler. `jsonCreated`
      and `jsonWritten` are the outcome of creating and writing the data
      file. */
  method CompileTemplate(c: Compiler, templateName: string, opts: seq<CompileOption>, nowMillis: int,
                         templateExists: bool, jsonCreated: bool, jsonWritten: bool)
    returns (r: Result<CompileOpts, TypstError>)
    ensures !templateExists ==> r == Err(TemplateNotFound(TemplatePath(c, templateName)))
    ensures templateExists && !jsonCreated ==> r == Err(JsonFileFailed)
    ensures templateExists && jsonCreated && !jsonWritten ==> r == Err(JsonWriteFailed)
    ensures templateExists && jsonCreated && jsonWritten ==>
      r == Ok(ApplyAll(opts, TemplateDefaults(TemplatePath(c, templateName), Join2(c.outputDir, TempJsonName(nowMillis)))))
  {
    var templatePath := Join2(c.templateDir, Base(templateName));
    if !templateExists {
      return Err(TemplateNotFound(templatePath));
    }
    var jsonPath := Join2(c.outputDir, TempJsonName(nowMillis));
    if !jsonCreated {
      return Err(JsonFileFailed);
    }
    if !jsonWritten {
      return Err(JsonWriteFailed);
    }
    var compileOpts := CompileOpts(templatePath, "", [], ["--input", "path=" + jsonPath]);
    compileOpts := RunOptions(opts, compileOpts);
    return Ok(compileOpts);
  }

  /** The loop that runs each builder over the options in turn. */
  method RunOptions(opts: seq<CompileOption>, start: CompileOpts) returns (compileOpts: CompileOpts)
    ensures compileOpts == ApplyAll(opts, start)
  {
    compileOpts := start;
    var i := 0;
    while i < |opts|
      invariant 0 <= i <= |opts|
      invariant compileOpts == ApplyAll(opts[..i], start)
    {
      assert opts[..i + 1][..i] == opts[..i];
      compileOpts := Apply(opts[i], compileOpts);
      i := i + 1;
    }
    assert opts[..|opts|] == opts;
  }

  /** With no `WithExtraArgs`, the template's data file reaches Typst as the
      `path` input; any `WithExtraArgs` replaces that argument entirely. */
  lemma TemplateDataInput(templatePath: string, jsonPath: string, opts: seq<CompileOption>)
    ensures LastExtraArgs(opts).None? ==>
      ApplyAll(opts, TemplateDefaults(templatePath, jsonPath)).extraArgs == ["--input", "path=" + jsonPath]
    ensures LastExtraArgs(opts).Some? ==>
      ApplyAll(opts, TemplateDefaults(templatePath, jsonPath)).extraArgs == LastExtraArgs(opts).value
  {
    LastOptionWins(opts, TemplateDefaults(templatePath, jsonPath));
  }
}
