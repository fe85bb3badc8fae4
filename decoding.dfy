/**
 * Readers for the encodings of `Encoding`: each accepts exactly the strings
 * its encoder produces, and reads back the variant that produced them. They
 * are the partners that show the command encoders lose no information.
 */
module Decoding {
  import opened Wrappers
  import opened Text
  import opened Encoding

  function ParseBuildConfig(s: string): (r: Option<BuildConfig>)
    ensures r.Some? ==> EncodeBuildConfig(r.value) == s
  {
    if s == "debug" then Some(Debug)
    else if s == "release" then Some(Release)
    else None
  }

  function ParsePackageType(s: string): (r: Option<PackageType>)
    ensures r.Some? ==> EncodePackageType(r.value) == s
  {
    if s == "empty" then Some(Empty)
    else if s == "library" then Some(Library)
    else if s == "executable" then Some(Executable)
    else if s == "system-module" then Some(SystemModule)
    else None
  }

  /** The payload-free subcommands, by keyword. */
  function ParseSubcommandKeyword(s: string): (r: Option<Subcommand>)
    ensures r.Some? ==> EncodeSubcommand(r.value) == s
    ensures r.Some? ==> !r.value.Initialize? && !r.value.Edit? && !r.value.Unedit?
  {
    if s == "update" then Some(Update)
    else if s == "generate-xcodeproj" then Some(GenerateXcodeProject)
    else if s == "clean" then Some(Clean)
    else if s == "completion-tool" then Some(CompletionTool)
    else if s == "describe" then Some(Describe)
    else if s == "dump-package" then Some(DumpPackage)
    else if s == "reset" then Some(Reset)
    else if s == "resolve" then Some(Resolve)
    else if s == "show-dependencies" then Some(ShowDependencies)
    else if s == "tools-version" then Some(ToolsVersion)
    else None
  }

  function ParseSubcommand(s: string): (r: Option<Subcommand>)
    ensures r.Some? ==> EncodeSubcommand(r.value) == s
  {
    if HasPrefix(s, "init --type ") then
      match ParsePackageType(s[12..])
      case Some(t) =>
        assert s == "init --type " + s[12..];
        Some(Initialize(t))
      case None => None
    else if HasPrefix(s, "edit ") then
      assert s == "edit " + s[5..];
      Some(Edit(s[5..]))
    else if HasPrefix(s, "unedit ") then
      assert s == "unedit " + s[7..];
      Some(Unedit(s[7..]))
    else ParseSubcommandKeyword(s)
  }

  function ParseCommand(s: string): (r: Option<Command>)
    ensures r.Some? ==> EncodeCommand(r.value) == s
  {
    if s == "run" then Some(Run)
    else if s == "build" then Some(Build)
    else if s == "test" then Some(Test)
    else if HasPrefix(s, "package ") then
      match ParseSubcommand(s[8..])
      case Some(sub) =>
        assert s == "package " + s[8..];
        Some(Package(sub))
      case None => None
    else None
  }

  /**
   * The flags of `Encoding.IsSimple`, by their one spelling each: the
   * single-dash options, then the long options told apart by their first
   * letter.
   */
  function ParseSimpleFlag(s: string): (r: Option<Flag>)
    ensures r.Some? ==> IsSimple(r.value) && EncodeFlag(r.value) == s
  {
    if |s| < 2 || s[0] != '-' then None
    else if s[1] == '-' then ParseLongFlag(s)
    else
      if s == EncodeFlag(Config(Debug)) then Some(Config(Debug))
      else if s == EncodeFlag(Config(Release)) then Some(Config(Release))
      else if s == EncodeFlag(Verbose) then Some(Verbose)
      else if s == EncodeFlag(Parallel) then Some(Parallel)
      else None
  }

  function ParseLongFlag(s: string): (r: Option<Flag>)
    ensures r.Some? ==> IsSimple(r.value) && EncodeFlag(r.value) == s
  {
    if |s| < 3 then None
    else
      match s[2]
      case 'h' =>
        if s == EncodeFlag(Help) then Some(Help)
        else None
      case 'n' =>
        if s == EncodeFlag(Stdlib(false)) then Some(Stdlib(false))
        else None
      case 'l' =>
        if s == EncodeFlag(ListTests) then Some(ListTests)
        else None
      case 'g' =>
        if s == EncodeFlag(GenerateLinuxMain) then Some(GenerateLinuxMain)
        else None
      case 'e' =>
        if s == EncodeFlag(EnableCodeCoverage) then Some(EnableCodeCoverage)
        else if s == EncodeFlag(EnableBuildManifestCaching) then Some(EnableBuildManifestCaching)
        else None
      case 'd' =>
        if s == EncodeFlag(DisablePrefetching) then Some(DisablePrefetching)
        else if s == EncodeFlag(DisableSandbox) then Some(DisableSandbox)
        else None
      case 's' => ParseSFlag(s)
      case _ => None
  }

  /** The long options whose name starts with `s`. */
  function ParseSFlag(s: string): (r: Option<Flag>)
    ensures r.Some? ==> IsSimple(r.value) && EncodeFlag(r.value) == s
  {
    if s == EncodeFlag(Stdlib(true)) then Some(Stdlib(true))
    else if s == EncodeFlag(ShowBinaryPath) then Some(ShowBinaryPath)
    else if s == EncodeFlag(Sanitize) then Some(Sanitize)
    else if s == EncodeFlag(SkipBuild) then Some(SkipBuild)
    else if s == EncodeFlag(SkipUpdate) then Some(SkipUpdate)
    else None
  }

  lemma {:induction false} BuildConfigRoundTrip(c: BuildConfig)
    ensures ParseBuildConfig(EncodeBuildConfig(c)) == Some(c)
  {
  }

  lemma {:induction false} PackageTypeRoundTrip(t: PackageType)
    ensures ParsePackageType(EncodePackageType(t)) == Some(t)
  {
  }

  lemma {:induction false} SubcommandRoundTrip(sub: Subcommand)
    ensures ParseSubcommand(EncodeSubcommand(sub)) == Some(sub)
  {
    var s := EncodeSubcommand(sub);
    match sub
    case Initialize(t) =>
      assert s[..12] == "init --type ";
      assert s[12..] == EncodePackageType(t);
      PackageTypeRoundTrip(t);
    case Edit(n) =>
      assert s[..5] == "edit ";
      assert s[0] != "init --type "[0];
      assert s[5..] == n;
    case Unedit(n) =>
      assert s[..7] == "unedit ";
      assert s[0] != "init --type "[0] && s[0] != "edit "[0];
      assert s[7..] == n;
    case Update => KeywordIsNotPrefixed(s);
    case GenerateXcodeProject => KeywordIsNotPrefixed(s);
    case Clean => KeywordIsNotPrefixed(s);
    case CompletionTool => KeywordIsNotPrefixed(s);
    case Describe => KeywordIsNotPrefixed(s);
    case DumpPackage => KeywordIsNotPrefixed(s);
    case Reset => KeywordIsNotPrefixed(s);
    case Resolve => KeywordIsNotPrefixed(s);
    case ShowDependencies => KeywordIsNotPrefixed(s);
    case ToolsVersion => KeywordIsNotPrefixed(s);
  }

  /** A keyword that starts with none of `i`, `e`, `u`+`n` is read as a keyword. */
  lemma {:induction false} KeywordIsNotPrefixed(s: string)
    requires |s| > 1 && s[0] != 'i' && s[0] != 'e' && (s[0] == 'u' ==> s[1] != 'n')
    ensures !HasPrefix(s, "init --type ") && !HasPrefix(s, "edit ") && !HasPrefix(s, "unedit ")
  {
  }

  lemma {:induction false} CommandRoundTrip(c: Command)
    ensures ParseCommand(EncodeCommand(c)) == Some(c)
  {
    match c
    case Package(sub) =>
      var s := EncodeCommand(c);
      assert s[..8] == "package ";
      assert s[8..] == EncodeSubcommand(sub);
      SubcommandRoundTrip(sub);
    case _ =>
  }

  /** Two commands with the same command-line text are the same command. */
  lemma {:induction false} EncodeCommandInjective(c: Command, d: Command)
    ensures EncodeCommand(c) == EncodeCommand(d) <==> c == d
  {
    if EncodeCommand(c) == EncodeCommand(d) {
      CommandRoundTrip(c);
      CommandRoundTrip(d);
    }
  }

  lemma {:induction false} SimpleFlagRoundTrip(f: Flag)
    requires IsSimple(f)
    ensures ParseSimpleFlag(EncodeFlag(f)) == Some(f)
  {
    var s := EncodeFlag(f);
    if f.Config? || f.Verbose? || f.Parallel? {
      assert s[0] == '-' && s[1] != '-';
    } else {
      LongFlagRoundTrip(f);
      assert s[0] == '-' && s[1] == '-';
    }
  }

  lemma {:induction false} LongFlagRoundTrip(f: Flag)
    requires IsSimple(f) && !(f.Config? || f.Verbose? || f.Parallel?)
    ensures ParseLongFlag(EncodeFlag(f)) == Some(f)
  {
    var s := EncodeFlag(f);
    if f == Stdlib(false) {
      NoStaticStdlibSpelling();
    } else if f == Stdlib(true) || f.ShowBinaryPath? || f.Sanitize? || f.SkipBuild? || f.SkipUpdate? {
      SFlagRoundTrip(f);
      assert s[2] == 's';
    }
  }

  lemma {:induction false} SFlagRoundTrip(f: Flag)
    requires f == Stdlib(true) || f.ShowBinaryPath? || f.Sanitize? || f.SkipBuild? || f.SkipUpdate?
    ensures var s := EncodeFlag(f); |s| > 2 && s[2] == 's' && ParseSFlag(s) == Some(f)
  {
    StaticStdlibSpelling();
  }
}
