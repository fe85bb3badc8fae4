/**
 * Assembling the shell line of a BuildKit `Project`: an optional working
 * directory (created first when a package is being initialised), then
 * `swift`, the encoded command and the encoded flags in the caller's order,
 * joined by single spaces.
 */
module BuildProject {
  import opened Wrappers
  import opened Text
  import opened Encoding

  /** The flags' encodings, in order (`flags.map { $0.rawValue }`). */
  function EncodeFlags(flags: seq<Flag>): (r: seq<string>)
    ensures |r| == |flags|
    ensures forall i :: 0 <= i < |flags| ==> r[i] == EncodeFlag(flags[i])
  {
    if flags == [] then [] else [EncodeFlag(flags[0])] + EncodeFlags(flags[1..])
  }

  lemma {:induction false} EncodeFlagsSnoc(flags: seq<Flag>, f: Flag)
    ensures EncodeFlags(flags + [f]) == EncodeFlags(flags) + [EncodeFlag(f)]
  {
    if flags == [] {
      assert flags + [f] == [f];
    } else {
      assert (flags + [f])[1..] == flags[1..] + [f];
      EncodeFlagsSnoc(flags[1..], f);
    }
  }

  /** The `mkdir -p <path> &&` and `cd <path> &&` tokens that precede `swift`. */
  function DirectoryTokens(path: Option<string>, command: Command): seq<string>
  {
    match path
    case None => []
    case Some(p) =>
      (if IsInitialize(command) then ["mkdir", "-p", p, "&&"] else []) + ["cd", p, "&&"]
  }

  /** The tokens up to and including the command. */
  function HeadTokens(path: Option<string>, command: Command): seq<string>
  {
    DirectoryTokens(path, command) + ["swift", EncodeCommand(command)]
  }

  /** The token list that `rawCommand` builds before joining it. */
  function CommandTokens(path: Option<string>, command: Command, flags: seq<Flag>): seq<string>
  {
    HeadTokens(path, command) + EncodeFlags(flags)
  }

  /** The directory part holds no token, `cd <path> &&`, or `mkdir -p <path> && cd <path> &&`. */
  lemma {:induction false} DirectoryTokenCount(path: Option<string>, command: Command)
    ensures |DirectoryTokens(path, command)| == if path.None? then 0 else if IsInitialize(command) then 7 else 3
  {
  }

  /**
   * The layout of the token list: 0, 3 or 7 directory tokens, then `swift`
   * and the command, then exactly one token per flag, in the caller's order.
   */
  lemma {:induction false} TokenLayout(path: Option<string>, command: Command, flags: seq<Flag>)
    ensures var t := CommandTokens(path, command, flags);
      var k := if path.None? then 0 else if IsInitialize(command) then 7 else 3;
      |t| == k + 2 + |flags|
      && t[k] == "swift" && t[k + 1] == EncodeCommand(command)
      && forall i :: 0 <= i < |flags| ==> t[k + 2 + i] == EncodeFlag(flags[i])
  {
    var h := HeadTokens(path, command);
    var ts := EncodeFlags(flags);
    var k := if path.None? then 0 else if IsInitialize(command) then 7 else 3;
    DirectoryTokenCount(path, command);
    assert |h| == k + 2 && h[k] == "swift" && h[k + 1] == EncodeCommand(command);
    assert CommandTokens(path, command, flags) == h + ts;
    TailAt(h, ts);
  }

  /** Indexing past a head indexes the tail. */
  lemma {:induction false} TailAt(head: seq<string>, tail: seq<string>)
    ensures forall i :: 0 <= i < |tail| ==> (head + tail)[|head| + i] == tail[i]
  {
  }

  /** Without a working directory the list starts with `swift` and the command. */
  lemma {:induction false} NoPathStartsWithSwift(command: Command, flags: seq<Flag>)
    ensures var t := CommandTokens(None, command, flags);
      |t| >= 2 && t[0] == "swift" && t[1] == EncodeCommand(command)
  {
    TokenLayout(None, command, flags);
  }

  /**
   * Without a working directory and without `raw` flags, no token of the
   * list is `cd` or `mkdir`.
   */
  lemma {:induction false} NoPathNoDirectoryChange(command: Command, flags: seq<Flag>)
    requires forall i :: 0 <= i < |flags| ==> !flags[i].Raw?
    ensures var t := CommandTokens(None, command, flags);
      "cd" !in t && "mkdir" !in t
  {
    var t := CommandTokens(None, command, flags);
    TokenLayout(None, command, flags);
    CommandIsNotDirectoryToken(command);
    forall j | 0 <= j < |t|
      ensures t[j] != "cd" && t[j] != "mkdir"
    {
      if j >= 2 {
        NonRawFlagIsOption(flags[j - 2]);
        assert t[j] == EncodeFlag(flags[j - 2]);
      }
    }
  }

  /** `package init` in a working directory first creates that directory. */
  lemma {:induction false} InitializeCreatesDirectory(p: string, t: PackageType, flags: seq<Flag>)
    ensures var tokens := CommandTokens(Some(p), Package(Initialize(t)), flags);
      |tokens| >= 8 && tokens[..8] == ["mkdir", "-p", p, "&&", "cd", p, "&&", "swift"]
  {
  }

  /** Every other command only changes into the working directory. */
  lemma {:induction false} OtherCommandsOnlyChangeDirectory(p: string, command: Command, flags: seq<Flag>)
    requires !IsInitialize(command)
    ensures var tokens := CommandTokens(Some(p), command, flags);
      |tokens| == 5 + |flags| && tokens[..5] == ["cd", p, "&&", "swift", EncodeCommand(command)]
  {
  }

  /** The directory part of the line, as text. */
  function DirectoryPrefix(path: Option<string>, command: Command): string
  {
    match path
    case None => ""
    case Some(p) =>
      (if IsInitialize(command) then "mkdir -p " + p + " && " else "") + "cd " + p + " && "
  }

  lemma {:induction false} DirectoryTokensJoin(path: Option<string>, command: Command)
    requires path.Some?
    ensures Join(DirectoryTokens(path, command), " ") + " " == DirectoryPrefix(path, command)
  {
    var p := path.value;
    var cd := ["cd", p, "&&"];
    assert Join(cd[1..], " ") == p + " " + "&&";
    assert Join(cd, " ") == "cd " + p + " &&";
    if !IsInitialize(command) {
      assert DirectoryTokens(path, command) == cd;
    } else {
      var mk := ["mkdir", "-p", p, "&&"];
      assert Join(mk[2..], " ") == p + " " + "&&";
      assert Join(mk[1..], " ") == "-p " + p + " &&";
      assert Join(mk, " ") == "mkdir -p " + p + " &&";
      JoinAppend(mk, cd, " ");
      assert DirectoryTokens(path, command) == mk + cd;
    }
  }

  /** The line up to and including the command. */
  lemma {:induction false} HeadShape(path: Option<string>, command: Command)
    ensures Join(HeadTokens(path, command), " ")
      == DirectoryPrefix(path, command) + "swift " + EncodeCommand(command)
  {
    var d := DirectoryTokens(path, command);
    var sw := ["swift", EncodeCommand(command)];
    assert HeadTokens(path, command) == d + sw;
    assert Join(sw, " ") == "swift " + EncodeCommand(command);
    if path.Some? {
      DirectoryTokensJoin(path, command);
      JoinAppend(d, sw, " ");
    } else {
      assert d + sw == sw;
    }
  }

  /**
   * The assembled line, as text: the directory prefix, `swift `, the command,
   * then a space and the encoding of each flag in turn.
   */
  lemma {:induction false} LineShape(path: Option<string>, command: Command, flags: seq<Flag>)
    ensures Join(CommandTokens(path, command, flags), " ")
      == DirectoryPrefix(path, command) + "swift " + EncodeCommand(command) + Prefixed(EncodeFlags(flags), " ")
  {
    HeadShape(path, command);
    JoinExtend(HeadTokens(path, command), EncodeFlags(flags), " ");
  }

  /** Where the encoding of `flags[i]` starts in the assembled line. */
  function FlagOffset(path: Option<string>, command: Command, flags: seq<Flag>, i: nat): nat
    requires i < |flags|
  {
    |Join(HeadTokens(path, command), " ")| + |Prefixed(EncodeFlags(flags)[..i], " ")| + 1
  }

  /** Each flag's encoding appears verbatim, after a space, at its offset. */
  lemma {:induction false} FlagInLine(path: Option<string>, command: Command, flags: seq<Flag>, i: nat)
    requires i < |flags|
    ensures var line := Join(CommandTokens(path, command, flags), " ");
      var o := FlagOffset(path, command, flags, i);
      var e := EncodeFlag(flags[i]);
      0 < o && o + |e| <= |line| && line[o - 1..o] == " " && line[o..o + |e|] == e
  {
    var h := HeadTokens(path, command);
    var ts := EncodeFlags(flags);
    var line := Join(CommandTokens(path, command, flags), " ");
    var o := FlagOffset(path, command, flags, i);
    assert line == Join(h + ts, " ");
    assert o == |Join(h, " ")| + |Prefixed(ts[..i], " ")| + |" "|;
    assert h != [] && i < |ts|;
    JoinedTokenAt(h, ts, i, " ");
    assert ts[i] == EncodeFlag(flags[i]);
  }

  /** Flags appear in the line in the caller's order, without overlapping. */
  lemma {:induction false} FlagsInOrder(path: Option<string>, command: Command, flags: seq<Flag>, i: nat, j: nat)
    requires i < j < |flags|
    ensures FlagOffset(path, command, flags, i) + |EncodeFlag(flags[i])| < FlagOffset(path, command, flags, j)
  {
    TokensInOrder(EncodeFlags(flags), i, j, " ");
  }

  /** Payloads reach the shell unchanged: a `raw` flag can add a second command. */
  lemma {:induction false} RawFlagReachesShell()
    ensures Join(CommandTokens(None, Build, [Raw("&& cd /tmp")]), " ") == "swift build && cd /tmp"
  {
    LineShape(None, Build, [Raw("&& cd /tmp")]);
  }

  /** Bootstrapping an executable package in a directory that may not exist yet. */
  lemma {:induction false} InitExecutableTokens()
    ensures CommandTokens(Some("./demo"), Package(Initialize(Executable)), [])
      == ["mkdir", "-p", "./demo", "&&", "cd", "./demo", "&&", "swift", "package init --type executable"]
  {
    var c := Package(Initialize(Executable));
    assert EncodeCommand(c) == "package init --type executable";
    assert DirectoryTokens(Some("./demo"), c) == ["mkdir", "-p", "./demo", "&&", "cd", "./demo", "&&"];
  }

  /** The bootstrap scenario, as the shell line. */
  lemma {:induction false} InitExecutableLine()
    ensures Join(CommandTokens(Some("./demo"), Package(Initialize(Executable)), []), " ")
      == "mkdir -p ./demo && cd ./demo && swift package init --type executable"
  {
    var c := Package(Initialize(Executable));
    NoFlagsLine(Some("./demo"), c);
    var d := DirectoryPrefix(Some("./demo"), c);
    var e := EncodeCommand(c);
    assert d == "mkdir -p ./demo && cd ./demo && ";
    assert e == "package init --type executable";
    InitExecutableText();
  }

  /** Running the package in release configuration. */
  lemma {:induction false} RunReleaseTokens()
    ensures CommandTokens(Some("./demo"), Run, [Config(Release)])
      == ["cd", "./demo", "&&", "swift", "run", "-c release"]
  {
    var flags := [Config(Release)];
    assert EncodeFlag(Config(Release)) == "-c release";
    assert EncodeFlags(flags) == [EncodeFlag(Config(Release))] + EncodeFlags([]);
  }

  /** The release run scenario, as the shell line. */
  lemma {:induction false} RunReleaseLine()
    ensures Join(CommandTokens(Some("./demo"), Run, [Config(Release)]), " ")
      == "cd ./demo && swift run -c release"
  {
    var flags := [Config(Release)];
    LineShape(Some("./demo"), Run, flags);
    var d := DirectoryPrefix(Some("./demo"), Run);
    assert d == "cd ./demo && ";
    assert EncodeFlag(Config(Release)) == "-c release";
    assert EncodeFlags(flags) == [EncodeFlag(Config(Release))] + EncodeFlags([]);
    var f := Prefixed(EncodeFlags(flags), " ");
    assert f == " " + "-c release" + Prefixed([], " ");
    RunReleaseText();
  }

  /** A line with no flags is the directory prefix, `swift ` and the command. */
  lemma {:induction false} NoFlagsLine(path: Option<string>, command: Command)
    ensures Join(CommandTokens(path, command, []), " ")
      == DirectoryPrefix(path, command) + "swift " + EncodeCommand(command)
  {
    LineShape(path, command, []);
    assert Prefixed(EncodeFlags([]), " ") == "";
  }

  /** The pieces of the bootstrap line, spelled out. */
  lemma {:induction false} InitExecutableText()
    ensures "mkdir -p ./demo && cd ./demo && " + "swift " + "package init --type executable"
      == "mkdir -p ./demo && cd ./demo && swift package init --type executable"
  {
  }

  /** The pieces of the release run line, spelled out. */
  lemma {:induction false} RunReleaseText()
    ensures "cd ./demo && " + "swift " + "run" + (" " + "-c release" + "")
      == "cd ./demo && swift run -c release"
  {
  }

  /** Cleaning in the current directory. */
  lemma {:induction false} CleanLine()
    ensures Join(CommandTokens(None, Package(Clean), []), " ") == "swift package clean"
  {
    assert EncodeCommand(Package(Clean)) == "package clean";
    assert CommandTokens(None, Package(Clean), []) == ["swift", "package clean"];
    assert Join(["swift", "package clean"], " ") == "swift" + " " + "package clean";
  }

  /** `-v` comes before `-parallel` when `verbose` is passed before `parallel`. */
  lemma {:induction false} VerboseBeforeParallel(path: Option<string>, command: Command)
    ensures var flags := [Verbose, Parallel];
      FlagOffset(path, command, flags, 0) + |"-v"| < FlagOffset(path, command, flags, 1)
  {
    FlagsInOrder(path, command, [Verbose, Parallel], 0, 1);
  }

  /** A `Project` is the working directory commands run in (`nil` for the current one). */
  class Project {
    var path: Option<string>

    constructor (path: Option<string> := None)
      ensures this.path == path
    {
      this.path := path;
    }

    /** The shell line for `command` with `flags`, following `rawCommand(_:flags:)`. */
    method RawCommand(command: Command, flags: seq<Flag>) returns (line: string)
      ensures line == Join(CommandTokens(path, command, flags), " ")
      ensures line == DirectoryPrefix(path, command) + "swift " + EncodeCommand(command) + Prefixed(EncodeFlags(flags), " ")
    {
      var cmd: seq<string> := [];
      match path {
        case Some(p) =>
          if command.Package? && command.sub.Initialize? {
            cmd := cmd + ["mkdir", "-p", p, "&&"];
          }
          cmd := cmd + ["cd", p, "&&"];
        case None =>
      }
      assert cmd == DirectoryTokens(path, command);
      cmd := cmd + ["swift", EncodeCommand(command)];
      assert cmd == HeadTokens(path, command) + EncodeFlags(flags[..0]);
      var i := 0;
      while i < |flags|
        invariant 0 <= i <= |flags|
        invariant cmd == HeadTokens(path, command) + EncodeFlags(flags[..i])
      {
        ghost var done := EncodeFlags(flags[..i]);
        assert flags[..i + 1] == flags[..i] + [flags[i]];
        EncodeFlagsSnoc(flags[..i], flags[i]);
        assert EncodeFlags(flags[..i + 1]) == done + [EncodeFlag(flags[i])];
        cmd := cmd + [EncodeFlag(flags[i])];
        assert cmd == HeadTokens(path, command) + (done + [EncodeFlag(flags[i])]);
        i := i + 1;
      }
      assert flags[..i] == flags;
      assert cmd == CommandTokens(path, command, flags);
      line := Join(cmd, " ");
      LineShape(path, command, flags);
    }
  }
}
