# BuildKit command lines, in Dafny

BuildKit's `Project` (`Sources/BuildKit/Project.swift`) runs Swift package
manager commands. It describes each command with closed Swift enums
(`BuildConfig`, `Command`, `Command.Subcommand`, `Command.Subcommand.PackageType`
and `Flag`). Each enum has a `rawValue` encoder. The private `rawCommand(_:flags:)`
builds one shell line from a command, its flags and the project's optional
working directory. This project models those encoders and the line assembly,
and proves what the line looks like.

Files:

- `wrappers.dfy` (module `Wrappers`): `Option`, for Swift's `String?`.
- `text.dfy` (module `Text`): `Join`, which is Swift's `joined(separator:)`. Also
  `Prefixed`, the text that joining adds after a first part, and their lemmas.
- `encoding.dfy` (module `Encoding`): one datatype per enum, plus the encoders
  `EncodeBuildConfig`, `EncodePackageType`, `EncodeSubcommand`, `EncodeCommand`
  and `EncodeFlag`. These are total `match` functions with the source's exact
  literals. `systemModule` gives `system-module`, and `stdlib(b)` is written as
  the source's concatenation.
- `decoding.dfy` (module `Decoding`): readers for those encodings. They are not
  part of the Swift code. Each accepts only what its encoder produces and
  reads back the value that produced it. So the command encoding is proved
  injective, and the fixed spellings of the payload-free flags are distinct.
- `project.dfy` (module `BuildProject`): the token list `CommandTokens`, which
  is the specification of `rawCommand`. It also holds its textual form
  (`DirectoryPrefix`, `LineShape`), the flag offsets in the line, and the class
  `Project`. The class has the `path: Option<string>` field and the method
  `RawCommand`. That method appends to a local sequence step by step, with a
  loop over the flags, and then joins it.

The encoders themselves carry no `ensures`. What they promise is stated by the
lemmas and decoders listed below.

Where the code and its documentation disagree, the model follows the code:

- The doc comment of `Flag.parallel` (line 150) names `--parallel`. The encoder
  (line 212) emits `-parallel`. `EncodeFlag(Parallel)` is `-parallel`.
- Without a path, the assembler adds no `cd` or `mkdir` token. The line itself
  can still contain those words.
  Payloads are interpolated without escaping, so a `raw` flag or an `edit`
  name can carry those words. `RawFlagReachesShell` shows this.
  `NoPathNoDirectoryChange` states what does hold.

## Model

| member | source | states |
|---|---|---|
| Text.Join | Sources/BuildKit/Project.swift:268 | no contract: `joined(separator:)`, no separator before the first token or after the last; its promises are stated by JoinAppend, JoinExtend and JoinedTokenAt |
| Text.Prefixed | Sources/BuildKit/Project.swift:268 | no contract: the text that joining adds after a first part, one separator before each token; stated by PrefixedIsJoin and PrefixedAppend |
| Text.JoinAppend | Sources/BuildKit/Project.swift:268 | joining two non-empty lists equals joining each with one separator between them |
| Text.JoinExtend | Sources/BuildKit/Project.swift:268 | joining a head followed by more tokens appends each extra token after one separator |
| Text.PrefixedIsJoin | Sources/BuildKit/Project.swift:268 | the text a non-empty tail adds is one separator followed by the tail's own join |
| Text.PrefixedAppend | Sources/BuildKit/Project.swift:268 | the text added by a concatenated tail is the two parts' texts, one after the other |
| Text.TokenAt | Sources/BuildKit/Project.swift:268 | after any head, token i appears verbatim right after the earlier tokens and one separator |
| Text.JoinedTokenAt | Sources/BuildKit/Project.swift:268 | in a joined line, tail token i appears verbatim at a computable offset, preceded by the separator |
| Text.TokensInOrder | Sources/BuildKit/Project.swift:268 | an earlier token, with a separator after it, ends before a later token starts |
| Encoding.EncodeBuildConfig | Sources/BuildKit/Project.swift:15-20 | no contract: one source literal per case; promises stated by Decoding.BuildConfigRoundTrip |
| Encoding.EncodePackageType | Sources/BuildKit/Project.swift:29-34 | no contract: one source literal per case; promises stated by Encoding.InitTypeKeyword and Decoding.PackageTypeRoundTrip |
| Encoding.EncodeSubcommand | Sources/BuildKit/Project.swift:63-92 | no contract: one source literal or interpolation per case; promises stated by Decoding.SubcommandRoundTrip |
| Encoding.EncodeCommand | Sources/BuildKit/Project.swift:100-111 | no contract: one source literal per case, `package ` before a subcommand; promises stated by Encoding.PackagePrefixExactly, Decoding.CommandRoundTrip and Decoding.EncodeCommandInjective |
| Encoding.EncodeFlag | Sources/BuildKit/Project.swift:178-238 | no contract: one source literal or interpolation per case; promises stated by Encoding.ValuedFlagLayout, Encoding.RawIsVerbatim, Encoding.NonRawFlagIsOption and Decoding.SimpleFlagRoundTrip |
| Encoding.PackagePrefixExactly | Sources/BuildKit/Project.swift:100-111 | a command encodes with the prefix `package ` if and only if it is a `package` command |
| Encoding.CommandIsNotDirectoryToken | Sources/BuildKit/Project.swift:100-111 | no command encodes as `mkdir`, `-p`, `&&` or `cd` |
| Encoding.InitTypeKeyword | Sources/BuildKit/Project.swift:29-34 | `init --type` is followed by one of empty, library, executable or system-module, and only `systemModule` gives `system-module` |
| Encoding.StaticStdlibSpelling | Sources/BuildKit/Project.swift:199-200 | `stdlib(true)` encodes as `--static-swift-stdlib` |
| Encoding.NoStaticStdlibSpelling | Sources/BuildKit/Project.swift:199-200 | `stdlib(false)` encodes as `--no-static-swift-stdlib` |
| Encoding.NonRawFlagIsOption | Sources/BuildKit/Project.swift:178-234 | every flag except `raw` encodes as a non-empty option that starts with `-` |
| Encoding.RawIsVerbatim | Sources/BuildKit/Project.swift:235-236 | `raw(v)` encodes as exactly `v` |
| Encoding.ValuedFlagLayout | Sources/BuildKit/Project.swift:186-198 | a string-valued flag (`-Xcc`, `-Xcxx`, `-Xlinker`, `-Xswiftc`, macro, target, `--build-path`, `--filter`, `--package-path`) encodes as a value-independent option text, one space, then the value verbatim; changing the value changes only that suffix |
| Encoding.SwiftFlagSpellsMacro | Sources/BuildKit/Project.swift:192-196 | with no escaping, a `swift` flag whose value starts `"-D" -Xswiftc ` encodes exactly like a `macro` flag, so the flag encoding is not injective |
| Encoding.SwiftFlagSpellsTarget | Sources/BuildKit/Project.swift:192-198 | likewise, a `swift` flag can encode exactly like a `target` flag |
| Decoding.ParseBuildConfig | Sources/BuildKit/Project.swift:15-20 | everything it reads is the encoding of what it returns |
| Decoding.ParsePackageType | Sources/BuildKit/Project.swift:29-34 | everything it reads is the encoding of what it returns |
| Decoding.ParseSubcommandKeyword | Sources/BuildKit/Project.swift:67-88 | reads only the payload-free subcommands, from their own keywords |
| Decoding.ParseSubcommand | Sources/BuildKit/Project.swift:63-92 | everything it reads is the encoding of what it returns |
| Decoding.ParseCommand | Sources/BuildKit/Project.swift:100-111 | everything it reads is the encoding of what it returns |
| Decoding.ParseSimpleFlag | Sources/BuildKit/Project.swift:178-234 | reads only payload-free, config and stdlib flags, each from its own encoding |
| Decoding.ParseLongFlag | Sources/BuildKit/Project.swift:178-234 | the same, for the `--` options |
| Decoding.ParseSFlag | Sources/BuildKit/Project.swift:199-233 | the same, for the `--s...` options |
| Decoding.BuildConfigRoundTrip | Sources/BuildKit/Project.swift:15-20 | decoding a build configuration's raw value gives it back |
| Decoding.PackageTypeRoundTrip | Sources/BuildKit/Project.swift:29-34 | decoding a package type's raw value (`system-module` for `systemModule`) gives it back |
| Decoding.KeywordIsNotPrefixed | Sources/BuildKit/Project.swift:67-88 | a keyword whose start is not that of `init --type `, `edit ` or `unedit ` has none of those prefixes |
| Decoding.SubcommandRoundTrip | Sources/BuildKit/Project.swift:63-92 | decoding any subcommand's encoding gives it back, including the `init` type and the `edit`/`unedit` name |
| Decoding.CommandRoundTrip | Sources/BuildKit/Project.swift:100-111 | decoding any command's encoding gives it back |
| Decoding.EncodeCommandInjective | Sources/BuildKit/Project.swift:63-111 | two commands have the same encoding if and only if they are equal |
| Decoding.SimpleFlagRoundTrip | Sources/BuildKit/Project.swift:178-234 | each payload-free, config or stdlib flag is read back from its encoding, so their spellings are distinct |
| Decoding.LongFlagRoundTrip | Sources/BuildKit/Project.swift:178-234 | the same, for the `--` options |
| Decoding.SFlagRoundTrip | Sources/BuildKit/Project.swift:199-233 | the same, for the `--s...` options |
| BuildProject.EncodeFlags | Sources/BuildKit/Project.swift:266 | the mapped flags have one encoding per flag, in the same order |
| BuildProject.EncodeFlagsSnoc | Sources/BuildKit/Project.swift:266 | mapping a list with one more flag appends that flag's encoding |
| BuildProject.DirectoryTokens | Sources/BuildKit/Project.swift:257-264 | no contract: nothing without a path, `mkdir -p p &&` for `package init`, then `cd p &&`; stated by DirectoryTokenCount, InitializeCreatesDirectory and OtherCommandsOnlyChangeDirectory |
| BuildProject.HeadTokens | Sources/BuildKit/Project.swift:257-265 | no contract: the directory tokens, `swift` and the command; stated by TokenLayout and HeadShape |
| BuildProject.CommandTokens | Sources/BuildKit/Project.swift:256-267 | no contract: the token list `rawCommand` joins; stated by TokenLayout, LineShape and `Project.RawCommand` |
| BuildProject.DirectoryPrefix | Sources/BuildKit/Project.swift:258-264 | no contract: the directory part as text; tied to the tokens by DirectoryTokensJoin |
| BuildProject.FlagOffset | Sources/BuildKit/Project.swift:266-268 | no contract: where a flag's encoding starts in the line; stated by FlagInLine and FlagsInOrder |
| BuildProject.DirectoryTokenCount | Sources/BuildKit/Project.swift:258-264 | the directory part has 0 tokens without a path, 7 with a path for `package init`, and 3 with a path otherwise |
| BuildProject.TokenLayout | Sources/BuildKit/Project.swift:255-268 | the token list has (0, 3 or 7) + 2 + number-of-flags tokens: `swift`, then the command, then each flag's encoding in caller order |
| BuildProject.NoPathStartsWithSwift | Sources/BuildKit/Project.swift:258-265 | without a path, the list starts with `swift` and the command |
| BuildProject.NoPathNoDirectoryChange | Sources/BuildKit/Project.swift:258-267 | without a path and without `raw` flags, no token of the list is `cd` or `mkdir` |
| BuildProject.InitializeCreatesDirectory | Sources/BuildKit/Project.swift:258-265 | with path p and `package init` of any type, the list begins `mkdir -p p && cd p && swift` |
| BuildProject.OtherCommandsOnlyChangeDirectory | Sources/BuildKit/Project.swift:258-265 | with path p and any other command (including `edit` and `unedit`), the list is `cd p && swift <command>` followed only by the flags |
| BuildProject.DirectoryTokensJoin | Sources/BuildKit/Project.swift:258-268 | the joined directory tokens plus a space are `mkdir -p p && cd p && ` for init and `cd p && ` otherwise |
| BuildProject.HeadShape | Sources/BuildKit/Project.swift:258-268 | the line up to the command is the directory prefix, `swift `, then the command's encoding |
| BuildProject.LineShape | Sources/BuildKit/Project.swift:255-268 | the joined line is the directory prefix, `swift `, the command, then a space and each flag's encoding in turn |
| BuildProject.FlagInLine | Sources/BuildKit/Project.swift:265-268 | each flag's encoding appears verbatim in the line, right after a space, at its offset |
| BuildProject.FlagsInOrder | Sources/BuildKit/Project.swift:265-268 | an earlier flag's encoding ends before a later flag's begins: caller order is kept |
| BuildProject.RawFlagReachesShell | Sources/BuildKit/Project.swift:235-236 | the text of a `raw` flag reaches the line unchanged, even when it contains `&& cd` |
| BuildProject.InitExecutableTokens | Sources/BuildKit/Project.swift:258-266 | `package init --type executable` in `./demo` gives the nine tokens `mkdir`, `-p`, `./demo`, `&&`, `cd`, `./demo`, `&&`, `swift`, `package init --type executable` |
| BuildProject.InitExecutableLine | Sources/BuildKit/Project.swift:258-268 | that scenario's line is `mkdir -p ./demo && cd ./demo && swift package init --type executable` |
| BuildProject.RunReleaseTokens | Sources/BuildKit/Project.swift:258-267 | `run` with `config(release)` in `./demo` gives the tokens `cd`, `./demo`, `&&`, `swift`, `run`, `-c release` |
| BuildProject.RunReleaseLine | Sources/BuildKit/Project.swift:258-268 | that scenario's line is `cd ./demo && swift run -c release` |
| BuildProject.NoFlagsLine | Sources/BuildKit/Project.swift:258-268 | with no flags, the line is the directory prefix, `swift ` and the command |
| BuildProject.CleanLine | Sources/BuildKit/Project.swift:265-268 | `package clean` without a path gives the line `swift package clean` |
| BuildProject.VerboseBeforeParallel | Sources/BuildKit/Project.swift:266-268 | with flags `[verbose, parallel]`, `-v` ends before `-parallel` starts |
| BuildProject.Project.constructor | Sources/BuildKit/Project.swift:288-289 | a new project holds the given optional path, `None` when none is given |
| BuildProject.Project.RawCommand | Sources/BuildKit/Project.swift:255-269 | the result is `CommandTokens(path, command, flags)` joined by single spaces, which is the directory prefix, `swift `, the command and the spaced flag encodings |

## Left out

- `run(_:flags:)` (lines 309-311) and `run(_:flags:completion:)` (lines 323-325) are left out. They only pass the line to ShellKit's `Shell.run`. That spawns a process, captures its output and, for the second form, runs on a concurrent dispatch queue. ShellKit is not part of this model.
- `init(path:type:env:)`: the shell type, the environment and the `super.init` call are left out. They configure ShellKit's shell. Only `path` is modelled, by the constructor.
- `Shell`, the superclass, and its error type `ShellError` are not part of this model.
- Assigning the public `path` property later is plain field assignment on `Project`. No member is needed for it.
- Swift's `String` is modelled as a sequence of characters. The assembler only concatenates strings, so Unicode grapheme rules do not matter here.
