/**
 * The closed command vocabulary of a BuildKit `Project` and its textual
 * encoding: the `rawValue` of each enum, as the Swift package manager expects
 * it on the command line. Every encoder is total; payloads are interpolated
 * verbatim, without quoting or escaping.
 */
module Encoding {

  /** `Project.BuildConfig`, a `String`-backed enum. */
  datatype BuildConfig = Debug | Release

  /** `Project.Command.Subcommand.PackageType`, a `String`-backed enum. */
  datatype PackageType = Empty | Library | Executable | SystemModule

  /** `Project.Command.Subcommand`: the `swift package` subcommands. */
  datatype Subcommand =
    | Initialize(packageType: PackageType)
    | Update
    | GenerateXcodeProject
    | Clean
    | CompletionTool
    | Describe
    | DumpPackage
    | Edit(name: string)
    | Reset
    | Resolve
    | ShowDependencies
    | ToolsVersion
    | Unedit(name: string)

  /** `Project.Command`. */
  datatype Command = Build | Run | Test | Package(sub: Subcommand)

  /** `Project.Flag`. */
  datatype Flag =
    | Help
    | Config(config: BuildConfig)
    | C(value: string)
    | Cxx(value: string)
    | Linker(value: string)
    | Swift(value: string)
    | Macro(value: string)
    | Target(value: string)
    | Stdlib(linkStatically: bool)
    | BuildPath(value: string)
    | ShowBinaryPath
    | Verbose
    | Filter(value: string)
    | Parallel
    | ListTests
    | GenerateLinuxMain
    | EnableCodeCoverage
    | DisablePrefetching
    | DisableSandbox
    | EnableBuildManifestCaching
    | PackagePath(value: string)
    | Sanitize
    | SkipBuild
    | SkipUpdate
    | Raw(value: string)

  function EncodeBuildConfig(c: BuildConfig): string
  {
    match c
    case Debug => "debug"
    case Release => "release"
  }

  /** The raw values are the case names, except `systemModule`. */
  function EncodePackageType(t: PackageType): string
  {
    match t
    case Empty => "empty"
    case Library => "library"
    case Executable => "executable"
    case SystemModule => "system-module"
  }

  function EncodeSubcommand(s: Subcommand): string
  {
    match s
    case Initialize(t) => "init --type " + EncodePackageType(t)
    case Update => "update"
    case GenerateXcodeProject => "generate-xcodeproj"
    case Clean => "clean"
    case CompletionTool => "completion-tool"
    case Describe => "describe"
    case DumpPackage => "dump-package"
    case Edit(n) => "edit " + n
    case Reset => "reset"
    case Resolve => "resolve"
    case ShowDependencies => "show-dependencies"
    case ToolsVersion => "tools-version"
    case Unedit(n) => "unedit " + n
  }

  function EncodeCommand(c: Command): string
  {
    match c
    case Run => "run"
    case Build => "build"
    case Test => "test"
    case Package(s) => "package " + EncodeSubcommand(s)
  }

  function EncodeFlag(f: Flag): string
  {
    match f
    case Help => "--help"
    case Config(c) => "-c " + EncodeBuildConfig(c)
    case C(v) => "-Xcc " + v
    case Cxx(v) => "-Xcxx " + v
    case Linker(v) => "-Xlinker " + v
    case Swift(v) => "-Xswiftc " + v
    case Macro(v) => "-Xswiftc \"-D\" -Xswiftc " + v
    case Target(v) => "-Xswiftc \"-target\" -Xswiftc " + v
    case Stdlib(b) => "--" + (if b then "" else "no-") + "static-swift-stdlib"
    case BuildPath(v) => "--build-path " + v
    case ShowBinaryPath => "--show-bin-path"
    case Verbose => "-v"
    case Filter(v) => "--filter " + v
    case Parallel => "-parallel"
    case ListTests => "--list-tests"
    case GenerateLinuxMain => "--generate-linuxmain"
    case EnableCodeCoverage => "--enable-code-coverage"
    case DisablePrefetching => "--disable-prefetching"
    case DisableSandbox => "--disable-sandbox"
    case EnableBuildManifestCaching => "--enable-build-manifest-caching"
    case PackagePath(v) => "--package-path " + v
    case Sanitize => "--sanitize"
    case SkipBuild => "--skip-build"
    case SkipUpdate => "--skip-update"
    case Raw(v) => v
  }

  /** The flags that pass a free-form string after a fixed option text. */
  predicate IsValued(f: Flag)
  {
    f.C? || f.Cxx? || f.Linker? || f.Swift? || f.Macro? || f.Target?
    || f.BuildPath? || f.Filter? || f.PackagePath?
  }

  /** The flags whose whole encoding is fixed by the variant and a closed payload. */
  predicate IsSimple(f: Flag)
  {
    !IsValued(f) && !f.Raw?
  }

  /** `package(initialize(_))`, the one command that may create its directory. */
  predicate IsInitialize(c: Command)
  {
    c.Package? && c.sub.Initialize?
  }

  /**
   * A command encodes as `package ...` exactly when it is a `package`
   * command; the other three are shorter than that prefix.
   */
  lemma {:induction false} PackagePrefixExactly(c: Command)
    ensures |EncodeCommand(c)| >= 8 && EncodeCommand(c)[..8] == "package " <==> c.Package?
  {
    match c
    case Package(s) =>
      assert EncodeCommand(c)[..8] == "package ";
    case _ =>
  }

  /** No command encodes as one of the shell tokens placed before `swift`. */
  lemma {:induction false} CommandIsNotDirectoryToken(c: Command)
    ensures EncodeCommand(c) !in {"mkdir", "-p", "&&", "cd"}
  {
    var e := EncodeCommand(c);
    match c
    case Package(_) => assert e[0] == 'p';
    case _ =>
  }

  /** Every `init` subcommand names one of the four `--type` keywords. */
  lemma {:induction false} InitTypeKeyword(t: PackageType)
    ensures EncodeSubcommand(Initialize(t)) in
      {"init --type empty", "init --type library", "init --type executable", "init --type system-module"}
    ensures EncodePackageType(t) == "system-module" <==> t == SystemModule
  {
    match t
    case Empty => assert EncodeSubcommand(Initialize(t)) == "init --type empty";
    case Library => assert EncodeSubcommand(Initialize(t)) == "init --type library";
    case Executable => assert EncodeSubcommand(Initialize(t)) == "init --type executable";
    case SystemModule => assert EncodeSubcommand(Initialize(t)) == "init --type system-module";
  }

  /** `stdlib` chooses between the two spellings of the static-linking switch. */
  lemma {:induction false} StaticStdlibSpelling()
    ensures EncodeFlag(Stdlib(true)) == "--static-swift-stdlib"
  {
  }

  lemma {:induction false} NoStaticStdlibSpelling()
    ensures EncodeFlag(Stdlib(false)) == "--no-static-swift-stdlib"
  {
  }

  /** Every flag other than `raw` encodes as a command-line option: it starts with `-`. */
  lemma {:induction false} NonRawFlagIsOption(f: Flag)
    requires !f.Raw?
    ensures |EncodeFlag(f)| > 0 && EncodeFlag(f)[0] == '-'
  {
  }

  /** `raw` passes its text through unchanged. */
  lemma {:induction false} RawIsVerbatim(v: string)
    ensures EncodeFlag(Raw(v)) == v
  {
  }

  /**
   * A valued flag encodes as an option text that does not depend on the
   * value, then one space, then the value verbatim: replacing the value
   * replaces exactly that suffix.
   */
  lemma {:induction false} ValuedFlagLayout(f: Flag, v: string)
    requires IsValued(f)
    ensures var e := EncodeFlag(f); var n := |e| - |f.value|;
      0 < n && e[0] == '-' && e[n - 1] == ' ' && e[n..] == f.value
      && EncodeFlag(f.(value := v)) == e[..n] + v
  {
    var e := EncodeFlag(f);
    var n := |e| - |f.value|;
    assert e == e[..n] + f.value;
  }

  /**
   * Because nothing is escaped, the flag encoding is not injective: a `swift`
   * flag can spell out a `macro` or a `target` flag (and, by `RawIsVerbatim`,
   * `raw` can spell out any flag).
   */
  lemma {:induction false} SwiftFlagSpellsMacro(v: string)
    ensures EncodeFlag(Swift("\"-D\" -Xswiftc " + v)) == EncodeFlag(Macro(v))
  {
    assert "-Xswiftc " + ("\"-D\" -Xswiftc " + v) == "-Xswiftc \"-D\" -Xswiftc " + v;
  }

  lemma {:induction false} SwiftFlagSpellsTarget(v: string)
    ensures EncodeFlag(Swift("\"-target\" -Xswiftc " + v)) == EncodeFlag(Target(v))
  {
    assert "-Xswiftc " + ("\"-target\" -Xswiftc " + v) == "-Xswiftc \"-target\" -Xswiftc " + v;
  }
}
