# jfCli in Dafny

A model of the core of jfCli, a Node.js command-line manager. Commands are named like
`ftp:upload`. The manager turns such a name into a search for a handler file under
`<project>/src/commands`, calls the first handler it finds and logs an error when none
answers `true`.

Around that resolver sit the pieces the model also covers:
- options written as pipe strings (`name|description|alias|type|default`) and commands
  that collect them (`src/Option.js`, `src/Command.js`);
- the sorted, short-circuiting object iterator and the object test (`src/utils`);
- the tools that extract commands from the `@command`/`@option` doc comments of source
  files and rewrite the configuration table (`src/tools`);
- the `config`, `readme` and `install` commands;
- the yargs builder;
- the directory normalisation of `src/utils/check.js`;
- the one-shot settle guard and log splitting of `src/Spawn.js`;
- two template helpers.

JavaScript values are the datatype `JsValue.Value`. Objects are maps. An exception is a
`Result.Throw`, or, when the code leaves partial changes behind, an `Outcome` carrying
the state reached together with a `Thrown` completion. Code that updates objects in place
is a class whose methods are proved against a specification function. Code that computes
values is functions and lemmas. The file system, `require`, `path`, the external
libraries (`cc2sep`, `pad-values`, babylon, yargs, git, npm) and the handlers'
results are parameters.

The modules follow the source files:

| module | source |
|---|---|
| `Text` | string helpers (`split`, `join`, `trim`, sorting) |
| `JsValue` | JavaScript values, property access, `String(v)` |
| `ObjectUtils` | `src/utils/is-object.js`, `src/utils/iterate.js` |
| `Options` | `src/Option.js` |
| `Commands` | `src/Command.js` |
| `CliModel` | `src/Cli.js` |
| `ParseCommandsTool` | `src/tools/parse-commands.js` |
| `CommentTools` | `src/tools/from-files.js` |
| `DocFiles` | `src/utils/from-files.js` |
| `ConfigCmd` | `src/commands/config.js` |
| `ReadmeCmd` | `src/commands/readme.js` |
| `InstallCmd` | `src/commands/install.js` |
| `YargsBuilder` | `src/builder/yargs.js` |
| `CheckDir` | `src/utils/check.js` |
| `SpawnModel` | `src/Spawn.js` |
| `TplHelpers` | `tpl/helpers/spaces.js`, `tpl/helpers/capitalize.js` |

The doc comment of `handler` (src/Cli.js:41-47) describes a different search from the
one the code performs. It says `a.js` is tried with method `c` and that `a/b.js` is
probed twice. The code probes each list of segments once, and the method tried with a file is the
segment popped last, so `a.js` is tried with `.b`. The model follows the code
(`CliModel.CandidatesOfThree`, `CliModel.ProbesDistinct`).

## Model

| member | source | states |
|---|---|---|
| CheckDir.Walk | src/utils/check.js:3-26 | A falsy value becomes the working directory. A non-empty string goes through the string rule. Arrays and objects are normalised element by element, keeping their length, keys and prototype. The walk throws exactly when some truthy leaf is neither a string, an array nor an object. |
| CheckDir.WalkElems | src/utils/check.js:10-13 | The element loop throws the `path` TypeError exactly when some element is rejected. Otherwise each element is replaced by its own normalised form. |
| CheckDir.AsWrittenJoinsAbsolutePaths | src/utils/check.js:20-23 | As written, the relative path `src` is kept, and the absolute `/srv/app` is joined onto the working directory (`/w` gives `/w/srv/app`). |
| CheckDir.CheckDirPath | src/utils/check.js:3-26 | The corrected normalisation keeps an absolute path and joins a relative one onto the working directory. |
| CheckDir.IntendedResolvesRelativePaths | src/utils/check.js:20-23 | Under the corrected rule, `src` is resolved against the working directory and `/srv/app` is kept. |
| CheckDir.CheckDirIdempotent | src/utils/check.js:3-26 | With an absolute working directory, normalising yields only absolute paths, and normalising again changes nothing. |
| CheckDir.NormalFixed | src/utils/check.js:3-26 | A value that holds only absolute paths is left as it is. |
| CheckDir.WalkInPlace | src/utils/check.js:3-26 | The walk as the caller sees it: arrays and objects are rewritten element by element in place, and an exception is always the `path` TypeError. |
| CheckDir.WalkElemsInPlace | src/utils/check.js:10-13 | The array keeps its length. When an element throws, the elements before it hold their normal form and the ones after it are untouched. |
| CheckDir.WalkPropsInPlace | src/utils/check.js:14-19 | The keys are rewritten in order until one throws; an exception is always the `path` TypeError. |
| CheckDir.InPlaceAgrees | src/utils/check.js:3-26 | The walk in place completes exactly when `Walk` returns, and then leaves `Walk`'s value. |
| CheckDir.PartialRewrite | src/utils/check.js:10-23 | With working directory `/w`, `['/x', 5]` has its first element rewritten to `/w/x` before the second throws. |
| CheckDir.Argv.CheckDirectory | src/utils/check.js:39-42 | With the string rule as written, `directory` sets both `argv.directory` and `argv.d` to the normalised `argv.directory`; it completes exactly when `CheckDirAsWritten` returns. When normalisation throws, `argv.d` is untouched and `argv.directory` keeps the elements rewritten before the throw. |
| CliModel.TryModule | src/Cli.js:165-184 | A non-empty method name that names a function of the loaded module wins. Otherwise the module is called if it is a function; otherwise nothing runs. A failing load, or a method read from `null`, fails. |
| CliModel.Step | src/Cli.js:162-189 | A probe of a file that does not exist changes neither the result nor the log. |
| CliModel.SearchAt | src/Cli.js:160-191 | The search from the pass over the first `k` segments: one `Step` per pass, stopping once the result is exactly `true` or no segment is left. |
| CliModel.StepHit | src/Cli.js:162-189 | One probe leaves the result exactly `true` iff its candidate calls something that returns exactly `true`. A file that fails to load, or whose call throws, is caught: the exception is logged after the call's entry, if a call was made, and the result stays as it was. |
| CliModel.SearchTrueIff | src/Cli.js:160-191 | The search ends with `true` iff some candidate still to be probed is a hit. |
| CliModel.ProbeShape | src/Cli.js:160-191 | The i-th file probed is made of the first `k - i` segments, so the paths shrink by one segment per pass. There are at most as many passes as segments. |
| CliModel.ProbeStops | src/Cli.js:160 | No probe before the last is a hit. A search that ends before the segments run out ends on a hit. |
| CliModel.ProbesDistinct | src/Cli.js:160-191 | The probed paths are pairwise different as lists of segments. |
| CliModel.CandidatesOfThree | src/Cli.js:160-191 | For `a:b:c`, the candidates are `a/b/c.js` called directly, `a/b.js` with `.c`, and `a.js` with `.b`. |
| CliModel.SearchLog | src/Cli.js:185-189 | The search only appends to the log, and never a "no handler" entry. |
| CliModel.ResolveDir | src/Cli.js:331-359 | `resolveDir` succeeds exactly on strings; anything else makes `path.isAbsolute` throw. |
| CliModel.SearchRoot | src/Cli.js:153-159 | Corrected root. An unregistered first segment searches under the project root. A registered one searches under its resolved directory, or the project root when resolution finds nothing. |
| CliModel.UnregisteredNamespaceThrows | src/Cli.js:153-156 | As written, an unregistered first segment reaches `resolveDir` as `undefined` and throws. The corrected root for it is the project root. |
| CliModel.RegisteredNamespaceAgrees | src/Cli.js:153-159 | For a registered namespace with a string directory, the as-written and corrected roots agree. |
| CliModel.HandlerWith | src/Cli.js:144-201 | `handler` once the search root of a namespaced name is known: the debug entry, then the file search under that root or the instance's own function of that name, then the final check. A root that throws ends the call with that exception. |
| CliModel.HandlerRun | src/Cli.js:144-201 | `handler` as written: `HandlerWith` with the as-written root `SearchRootAsWritten`, which throws for an unregistered namespace. |
| CliModel.HandlerRunIntended | src/Cli.js:153-156 | `handler` with the corrected root `SearchRoot`. |
| CliModel.UnregisteredNamespaceRejects | src/Cli.js:153-156 | As written, `handler` rejects a namespaced name whose namespace is not registered, having logged only the debug entry. With the corrected root it searches under the project root. |
| CliModel.FinishCount | src/Cli.js:197-200 | The final check adds exactly one "no handler" entry when the result is not exactly `true`, none otherwise, and adds it last. |
| CliModel.HandlerLogsNoHandlerOnce | src/Cli.js:144-201 | Whatever the search root, so both as written and corrected, a `handler` call that ends normally logs exactly one "no handler" error iff its result is not exactly `true`, and logs it last. |
| CliModel.PlainNameSkipsSearch | src/Cli.js:151-196 | A name without a truthy second segment reads neither the file system nor the search root. It answers with the result or exception of the same-named function of the instance, and `false` when there is none. |
| CliModel.NamespacedResult | src/Cli.js:151-191 | Once its search root is found, a namespaced name never makes `handler` throw. It ends with `true` iff one of its candidates is a hit. As written, the root itself throws for an unregistered namespace (`UnregisteredNamespaceRejects`). |
| CliModel.NamespaceLeftOut | src/Cli.js:156-159 | The first segment is left out of every probed path exactly when it names a registered namespace. |
| CliModel.ApplyConfig | src/Cli.js:301-308 | A field named in the configuration takes the configured value exactly when it held a defined, non-function value. Every other key is ignored. |
| CliModel.CopyConfigKeysField | src/Cli.js:301-308 | After the copy loop over distinct keys, each field is the configured value if it was visited and copyable, and unchanged otherwise. |
| CliModel.CopyConfigSorted | src/Cli.js:301-308 | The loop over the sorted configuration keys equals `ApplyConfig`. |
| CliModel.LoadedConfig | src/Cli.js:236-252 | `loadConfig` gives the parsed value when it is truthy, `{}` for a falsy parsed value, and `undefined` when the file is missing or unreadable. |
| CliModel.Collect | src/Cli.js:388-400 | `save` collects exactly the named properties: data fields by value, and anything else as `undefined`. |
| CliModel.Cli.constructor | src/Cli.js:62-100 | The initial fields. `rootDir` is the given root, or the main module's project root when that is empty. |
| CliModel.Cli.Start | src/Cli.js:104-109 | The constructor registers the built-in `update` command, then applies the configuration file and registers its commands. An exception from the first registration leaves the fields and log as they were. |
| CliModel.Cli.LoadConfig | src/Cli.js:236-252 | Returns `LoadedConfig` and logs a read or parse error as an exception entry. |
| CliModel.Cli.ApplyConfigKeys | src/Cli.js:301-308 | The loop leaves the fields of the copy over the sorted keys. |
| CliModel.Cli.ParseConfig | src/Cli.js:293-314 | `_parseConfig` leaves the configured fields and registers the resulting `commands` only when the configuration is truthy. It logs only an unreadable file. |
| CliModel.Cli.Save | src/Cli.js:388-400 | `save` writes to `.jfcli` in `rootDir`. A missing argument means `commands` and `directories`; a list of names gives an object of those properties; anything else is written as given. |
| CliModel.Cli.Handler | src/Cli.js:144-201 | `handler` remembers the command and appends the entries of `HandlerRun`, with the search root as written. The dispatch itself changes no other field. The handlers' own effects on the instance are not represented. |
| Commands.CommandValue | src/Command.js:24-48 | A command instance is an object with the command prototype. |
| Commands.OptionConfig | src/Command.js:71-78 | An option instance is re-read from its `toString`. A string `v` under key `k` becomes `k`, a pipe, then `v`. Anything else is passed on. |
| Commands.ParseEntry | src/Command.js:63-83 | The empty key sets the description. Any other key adds its option under the option's own name, or throws what `new Option` throws and leaves the command unchanged. An object-valued entry goes through `new Option` as written, so only its smallest key is copied. The name never changes. |
| Commands.EffectiveConfig | src/Command.js:24 | A missing configuration defaults to `{}`. |
| Commands.InitialDescription | src/Command.js:31-33 | The description is a string configuration itself, else `config['']` when truthy, else `''`. Reading from `null` throws. |
| Commands.ThrownSticks | src/Command.js:61-84 | Once an option throws, the later keys change nothing. |
| Commands.ParseKeysKeyedByName | src/Command.js:80 | Parsing keeps every option stored under its own name. |
| Commands.ParseKeysAllBuilt | src/Command.js:61-84 | A parse that ends normally built an option from every non-empty key. |
| Commands.ParseKeysNames | src/Command.js:61-84 | After a normal parse, the option names are the old ones plus the names of the options built. |
| Commands.ParseKeysProvenance | src/Command.js:61-84 | Every option after a parse is an untouched old one or the option some key built. |
| Commands.ParseKeys | src/Command.js:61-81 | The callback run on the keys in order, stopping at the first exception with the options added so far. |
| Commands.LastEntryWins | src/Command.js:80 | The option of the last key is always found under its name, overwriting an earlier one with the same name. |
| Commands.ConstructObject | src/Command.js:24-84 | A constructed command keeps its name. Its options are keyed by their names, which are the names the sorted keys build. Its description is the empty key's value, or `''`. |
| Commands.DescriptionFromEmptyKey | src/Command.js:65-68 | After a normal parse, the description is the empty key's value when there is one. |
| Commands.ConstructNonObject | src/Command.js:24-47 | A string configuration is only a description. A missing one gives an empty command. `null` throws. |
| Commands.Construct | src/Command.js:24-48 | The fields of `new Command(name, config)`: the name, the initial description, then the options of `parse`, or the exception either throws. |
| Commands.OptionInstanceEntry | src/Command.js:71-74 | An option instance given as an entry is rebuilt from its text, keeping name, description, alias, type and required flag. |
| Commands.StringEntry | src/Command.js:75-79 | A string entry `k: v` builds the option parsed from `k`, a pipe, then `v`. |
| Commands.Command.AddEntry | src/Command.js:63-83 | One call of the callback is `ParseEntry`. |
| Commands.Command.Parse | src/Command.js:57-85 | Instance `parse` leaves the state of `ParseConfig` and returns whether the configuration is an object, or the exception. |
| Commands.Create | src/Command.js:24-48 | `new Command` succeeds exactly when `Construct` does, and yields its fields. |
| Commands.QualifiedNameInjective | src/Command.js:145-147 | Different keys are registered under different names. |
| Commands.EntryConfig | src/Command.js:150-152 | A string value becomes `{'': value}`; anything else is kept. |
| Commands.StringShorthand | src/Command.js:150-152 | The string shorthand and its object form build the same command. |
| Commands.RegisterEntry | src/Command.js:143-154 | A key registers the command built from its value under `name:key` (or `key`), replacing an earlier one. A constructor exception leaves the table as it was. |
| Commands.QualifiedNamesDistinct | src/Command.js:145-147 | Distinct keys get distinct qualified names. |
| Commands.RegisterKeysBuilt | src/Command.js:139-156 | A registration that ends normally holds, for every key, the command built from its value under its qualified name. |
| Commands.RegisterKeysKeeps | src/Command.js:139-156 | A command whose name no key qualifies to is kept. |
| Commands.Registry.Parse | src/Command.js:139-156 | Static `parse` leaves the table of `RegisterConfig` and returns whether the configuration is an object, or the exception. Nested objects are read as options, not as sub-commands. |
| Commands.RegisterConfigTable | src/Command.js:139-156 | A successful static `parse` registers every key, last write winning, and keeps every unrelated command. |
| Commands.RegisterConfig | src/Command.js:139-156 | Static `parse`: one registration per top-level key in sorted order, under `name:key` or `key`, stopping at the first exception; a non-object changes nothing. |
| CommentTools.IdentName | src/tools/from-files.js:119-124 | `identifier` gives the converted name of an `Identifier` node and `''` for any other node. |
| CommentTools.CommentOptionEnd | src/tools/from-files.js:209 | A match of the `@option` pattern at `i` starts with `@option` and a blank, and is at least nine characters long. |
| CommentTools.LastNonBreak | src/tools/from-files.js:209 | The last index of a range that is not a line break. Every index after it is a line break, or none is found and all are. |
| CommentTools.CommentOptions | src/tools/from-files.js:209 | Every match of the `@option` pattern starts with `@option` and a blank. There are no matches only when no position matches. |
| CommentTools.StoreAllSpec | src/tools/from-files.js:212-218 | Storing the option lines throws iff some line's option is rejected. Otherwise the keys are the old ones plus the names of the lines, and entries no line names keep their value. |
| CommentTools.StoreAllLastWins | src/tools/from-files.js:215-216 | The entry of a name holds the option of the last line with that name. |
| CommentTools.StoreAll | src/tools/from-files.js:212-218 | The sorted `@option` lines stored in order under their names, stopping at the first line that is rejected. |
| CommentTools.CommandConfigSpec | src/tools/from-files.js:203-219 | A command's configuration throws iff there is no brief or an option is rejected. Otherwise its keys are `''` plus the option names, and `''` holds the brief unless an option is itself named `''`. |
| CommentTools.CommandConfig | src/tools/from-files.js:203-219 | A marked comment's command: its brief under `''`, then its option lines; without a brief it throws. |
| CommentTools.SortedRejects | src/tools/from-files.js:212 | Sorting the option lines neither adds nor removes a rejected one. |
| CommentTools.CommentTable | src/tools/from-files.js:195-223 | `parseComment` gives `{}` without an `@command` marker. Otherwise it gives exactly one command, keyed by the converted, trimmed text after the marker, or it throws when that command throws. |
| CommentTools.ExtractComment | src/tools/from-files.js:73-90 | `extractComment` yields nothing when the comments are not an array or the joined text of the marked block comments is empty. Otherwise it yields the parsed text. |
| CommentTools.Marked | src/tools/from-files.js:78-84 | Only block comments that mention `@command` are kept, in order. |
| CommentTools.Attach | src/tools/from-files.js:44-63 | An unnamed command is stored under the given name. A named one is merged with `Object.assign`: its keys overwrite, and other commands are kept. |
| CommentTools.HandleNode | src/tools/from-files.js:39-66 | Other statements and undocumented ones change nothing, and no command is ever removed. The only errors are the comment's own and the anonymous-function error of an expression statement. |
| CommentTools.UnnamedCommandNeedsAName | src/tools/from-files.js:48-58 | An unnamed command on an anonymous function throws an error carrying its line and column. On a named function, it is stored under the function's converted name. |
| CommentTools.HandleThrownSticks | src/tools/from-files.js:159-173 | Once a statement throws, the later statements change nothing. |
| CommentTools.QualifiedInjective | src/tools/from-files.js:181-185 | Different local names are filed under different `prefix:name` keys, none equal to the bare prefix. |
| CommentTools.MergeKeysSpec | src/tools/from-files.js:179-186 | Over distinct names, each non-empty one is filed under `prefix:name`. Other commands keep their entries, and nothing else is added. |
| CommentTools.MergeSpec | src/tools/from-files.js:174-186 | The command named like the file goes under the bare prefix. Every other non-empty local name goes under `prefix:name`. The empty name is dropped, and nothing else changes. |
| CommentTools.MergeSpecOver | src/tools/from-files.js:179-186 | The loop over all remaining local names files each non-empty one under `prefix:name` and keeps the rest. |
| CommentTools.Merge | src/tools/from-files.js:174-186 | The local commands filed into the output: the one named like the file under the bare prefix, the others under `prefix:name`, the empty name dropped. |
| CommentTools.HandleNodes | src/tools/from-files.js:158-173 | The statements of a file handled in order, up to the first exception. |
| CommentTools.Extractor.Parse | src/tools/from-files.js:141-188 | `parse` handles the statements into a local table, then merges it. An exception leaves the output unchanged. |
| CommentTools.Extractor.MergeLocal | src/tools/from-files.js:174-186 | The merge step leaves `Merge` of the old output. |
| CommentTools.Extractor.MergeInto | src/tools/from-files.js:179-186 | The loop over the sorted names leaves `MergeKeys`. |
| CommentTools.Extractor.FromFiles | src/tools/from-files.js:267-280 | A non-array file list changes nothing. Otherwise the files are processed in order; the first exception is caught and printed, and later files are not processed. |
| CommentTools.HandleMarked | src/tools/from-files.js:39-66 | Given what a statement's comments were extracted to: nothing extracted changes nothing, no command is removed, and the only errors are the comment's own and the anonymous-function error. |
| CommentTools.HandleEach | src/tools/from-files.js:159-173 | The `forEach` over the statements is `HandleNodes`. |
| CommentTools.ExtractThrownSticks | src/tools/from-files.js:272-279 | Once a file throws, the later files change nothing. |
| CommentTools.FirstErrorStops | src/tools/from-files.js:272-279 | The first file that fails to load stops the run. The output keeps what the earlier files produced, and the printed message is that file's error. |
| DocFiles.FirstDoc | src/utils/from-files.js:14-15 | The block read runs from the first `/**` to the first `*/` after it. There is none iff the text has no `/**`, or no `*/` follows the first one. |
| DocFiles.FindInPrefix | src/utils/from-files.js:14 | A match found in a text is found at the same place in any extension of it. |
| DocFiles.FirstBlockOnly | src/utils/from-files.js:14-17 | Only the first block is examined: text after a complete block does not change which block is read. |
| DocFiles.OptionMatches | src/utils/from-files.js:17-18 | The `@option` matches are empty iff no position starts an option line. Every match is an option line. |
| DocFiles.StarGroups | src/utils/from-files.js:21 | The `*` groups of the brief separator never move backwards. |
| DocFiles.SepEnd | src/utils/from-files.js:21 | A separator match is non-empty. |
| DocFiles.NextSep | src/utils/from-files.js:21 | The leftmost separator match after a position, or none anywhere after it. |
| DocFiles.Brief | src/utils/from-files.js:21-25 | The brief throws iff the block has no separator, because the second piece of the split is `undefined`. Otherwise it is trimmed. |
| DocFiles.Names | src/utils/from-files.js:29 | Every option line's second word is among the names. |
| DocFiles.OptionEntriesKeys | src/utils/from-files.js:26-32 | The entries are the existing ones plus one per option name. An entry no option names keeps its value. |
| DocFiles.OptionEntriesLastWins | src/utils/from-files.js:26-32 | An option name maps to the remaining words, joined by single spaces, of the last line with that name. |
| DocFiles.FileEntry | src/utils/from-files.js:12-34 | No block, or a block without `@option`, contributes nothing. The entry throws exactly when the block has options but no brief separator. |
| DocFiles.EntryNeedsOption | src/utils/from-files.js:17-19 | An entry is made only for a block holding an `@option` line. |
| DocFiles.EntryContents | src/utils/from-files.js:20-32 | An entry holds the brief under `?` (unless an option is named `?`) and an entry for every option line. |
| DocFiles.SortKeepsNames | src/utils/from-files.js:26 | Sorting the option lines keeps their set of names. |
| DocFiles.Output.ParseFile | src/utils/from-files.js:10-37 | A path that does not exist, or a file without documented options, changes nothing. A brief error propagates. Otherwise the entry is stored under the file's base name. |
| DocFiles.ScanFiles | src/utils/from-files.js:55-61 | The files scanned in order, stopping at the first exception. `DocFiles.ScanThrownSticks` states that later files then change nothing, and `DocFiles.MissingFilesChangeNothing` states that missing files are skipped. |
| DocFiles.OptionName | src/utils/from-files.js:29 | The second piece of an `@option` line split on whitespace, or `undefined` when there is none. |
| DocFiles.OptionDescription | src/utils/from-files.js:29-30 | The words after the name joined by single spaces, or `''`. `DocFiles.OptionEntriesLastWins` states that it is stored under `OptionName`. |
| DocFiles.Output.FromFiles | src/utils/from-files.js:55-61 | A non-array list changes nothing. Otherwise the files are scanned in order, and the first exception stops the scan and propagates. |
| DocFiles.StoreOptions | src/utils/from-files.js:26-32 | The loop over the option lines stores `OptionEntries`. |
| DocFiles.ScanThrownSticks | src/utils/from-files.js:57-60 | Once a file throws, the later files are not scanned. |
| DocFiles.MissingFilesChangeNothing | src/utils/from-files.js:12 | Files that do not exist leave the collected commands as they are. |
| ConfigCmd.LastDashCli | src/commands/config.js:59 | The `-cli` the greedy match of the project-name pattern settles on: a position holding `-cli` with none after it in range, or none in range at all. |
| ConfigCmd.NoCliKept | src/commands/config.js:59 | A name without `cli` anywhere is kept by the replacement. |
| ConfigCmd.CliFirst | src/commands/config.js:59 | `cli-rest` becomes `rest`, and `cli` becomes the empty string. |
| ConfigCmd.ProjectName | src/commands/config.js:59 | A one-line name `prefix-cli-rest`, with no later `-cli` and a prefix not starting with `cli`, loses everything up to the dash after `cli`. |
| ConfigCmd.DirKey | src/commands/config.js:59 | A directory's key is never empty: an empty result becomes `cli`. |
| ConfigCmd.DirMapKeys | src/commands/config.js:55-62 | `toObject` has one entry per key, and each entry is a listed directory filed under its own key. |
| ConfigCmd.DirMapLastWins | src/commands/config.js:58-60 | A directory whose key no later directory shares is the entry for that key, so later directories overwrite earlier ones. |
| ConfigCmd.ToObject | src/commands/config.js:55-62 | The loop leaves `DirMap` of the directories. |
| ConfigCmd.Strings | src/commands/config.js:59 | The directory list throws iff some element is not a string (`path.basename` rejects it). Otherwise it is those strings. |
| ConfigCmd.Normalise | src/commands/config.js:76-89 | A string argument becomes a one-element list, with `''` replaced by the working directory. Anything but a string, an array or an object leaves the configured directories. The configured keys are always kept. |
| ConfigCmd.ArgumentOverrides | src/commands/config.js:81-89 | An array of directories is keyed by `toObject` and laid over the configured map. Its entries win on clashes, and configured keys it does not name keep their value. |
| ConfigCmd.BuildPrefixes | src/commands/config.js:16-44 | For a directory with commands whose options all print and do not collide, `build` succeeds. Every command `k` found is merged as `prefix + k` with its options printed, and nothing else. |
| ConfigCmd.ExtractIn | src/commands/config.js:22-23 | Extracting into a fresh object gives the commands of the listed files. |
| ConfigCmd.Rewrite | src/commands/config.js:26 | `parseCommands` on the found commands is `ParseNames` over their sorted names. |
| ConfigCmd.ConfigFile.Build | src/commands/config.js:16-45 | `build` returns true iff the commands directory exists, holds commands, and they rewrite without error. Only then are they merged into the configuration. It logs a missing or empty directory, and an exception propagates. |
| ConfigCmd.ConfigFile.Visit | src/commands/config.js:108-125 | One pass of the loop is `PruneOne`. |
| ConfigCmd.ConfigFile.Prune | src/commands/config.js:107-126 | The loop over the sorted keys is `PruneAll`. |
| ConfigCmd.Visited | src/commands/config.js:108-125 | A pass throws only when `build` throws. A key is kept iff its directory exists and `build` succeeds, with its path relative to the root (`.` for the root). Other keys are untouched, commands are merged only on success, and the log gains the matching message. |
| ConfigCmd.PruneThrownSticks | src/commands/config.js:90-132 | Once a pass throws, the later keys are not visited. |
| ConfigCmd.PruneSpec | src/commands/config.js:107-126 | After a loop that ends normally, a visited key is kept iff its directory exists and `build` succeeds, with the relative path. Keys not visited are as they were. |
| ConfigCmd.StripCli | src/commands/config.js:59 | The first match of the project-name pattern is removed: `cli` at the start, or the text up to the last `-cli` on the line, each with an optional dash after it. |
| ConfigCmd.PruneOne | src/commands/config.js:108-125 | One pass for a key: a missing directory is deleted and logged, a directory whose `build` finds nothing is deleted, a built one is kept with its relative path and its commands merged, and an exception from `build` stops the loop. |
| ConfigCmd.PruneAll | src/commands/config.js:107-126 | The loop over the keys in order, stopped by the first exception. |
| ConfigCmd.Config | src/commands/config.js:74-133 | An error in the directory argument escapes and nothing is logged. Otherwise `config` never throws. When the built-in commands and every directory pass without exception, the pruned state is saved and the error lines of the loop are logged. An exception in the built-in commands logs only its message; one from `build` logs it after the loop's error lines; in both cases nothing is saved. |
| InstallCmd.ModuleParts | src/commands/install.js:25-26 | The type is the text before the first `~` and holds no `~`. With a `~`, the module is the type, `~` and the path. Without one, the module is all type and the path is `''`. |
| InstallCmd.TypedModule | src/commands/install.js:25-26 | `type~path`, with a type free of `~`, splits back into that type and that path, even when the path holds `~`. |
| InstallCmd.CloneModule | src/commands/install.js:32-66 | An existing module directory throws "ya existe" before anything runs and changes nothing. Otherwise at most the module directory is appended. |
| InstallCmd.InstallModuleAppends | src/commands/install.js:23-77 | A module adds at most one directory, after those already listed. |
| InstallCmd.FileModule | src/commands/install.js:29-31 | `file~p` appends the resolved `p`. |
| InstallCmd.RepositoryModule | src/commands/install.js:32-53 | `git~p` and `hg~p` throw when the target directory exists, before any clone. Otherwise the directory is appended iff the clone left it. |
| InstallCmd.OtherModule | src/commands/install.js:67-75 | Any other module is appended resolved when it is absolute or starts with `.`. Otherwise it throws "Formato desconocido del módulo". |
| InstallCmd.InstallThrownSticks | src/commands/install.js:23-78 | Once a module throws, the later modules are not handled. |
| InstallCmd.ExistingFirst | src/commands/install.js:22-23 | The configured directories come first, and the modules add at most one directory each after them. |
| InstallCmd.FileModules | src/commands/install.js:23-31 | A list of `file~p` modules appends the resolved paths in argument order and never throws. |
| InstallCmd.Applies | src/commands/install.js:17-20 | `install` runs only when the arguments are an object whose `_` is an array starting with `install`. |
| InstallCmd.ModuleType | src/commands/install.js:25 | The text before the first `~` of a module. `InstallCmd.ModuleParts` proves that it holds no `~`. |
| InstallCmd.ModulePath | src/commands/install.js:25-26 | The rest after the first `~`, joined back with `~`, or `''` when there is none. `InstallCmd.ModuleParts` and `InstallCmd.TypedModule` prove that type, `~` and path rebuild the module. |
| InstallCmd.InstallModule | src/commands/install.js:24-76 | One pass of the loop. A value that is not a string throws the `split` TypeError. `file` appends the resolved path, and `git`/`hg` clone. Any other module is appended resolved if it is absolute or starts with `.`, and throws otherwise. `InstallCmd.InstallModuleAppends` states that it adds at most one directory. |
| InstallCmd.InstallAll | src/commands/install.js:22-77 | The modules handled in order from a starting state, stopping at the first exception. `InstallCmd.InstallThrownSticks` and `InstallCmd.ExistingFirst` state that nothing runs after a throw and that the existing directories stay first. |
| InstallCmd.Values | src/commands/install.js:22 | One value per configured directory, each a configured value. |
| InstallCmd.Install | src/commands/install.js:15-88 | Nothing happens unless `argv._` is an array starting with `install`. Then the modules after it are handled in order, starting from the configured directories. |
| JsValue.SortedProps | src/utils/iterate.js:15 | `Object.keys(o).sort()` lists every key exactly once, in strictly ascending order. |
| ObjectUtils.IsObject | src/utils/is-object.js:8-11 | A falsy input is returned as it is. Anything else becomes a boolean. The result is truthy exactly for objects: never for arrays, strings, numbers, booleans or functions. |
| ObjectUtils.Every | src/utils/iterate.js:15 | `every` is true iff the callback is truthy on every key. |
| ObjectUtils.Calls | src/utils/iterate.js:15 | The keys the callback sees are a prefix of the keys, all answered truthily except possibly the last. A shorter prefix ends on a falsy answer, and `every` holds iff all keys were seen with truthy answers. |
| ObjectUtils.Iterate | src/utils/iterate.js:12-17 | `iterate` is false for anything that is not an object. On an object, it is true iff every callback answer is truthy. |
| ObjectUtils.IterateNonObject | src/utils/iterate.js:14-16 | Nothing that is not an object reaches the callback. |
| ObjectUtils.IterateOrder | src/utils/iterate.js:15 | The callback sees the keys in strictly ascending order, as a prefix of the sorted keys. It stops right after the first falsy answer, and an empty object gives true. |
| ObjectUtils.IterateFalsyStopsAtFirst | src/utils/iterate.js:15 | A callback that never answers truthily is called exactly once, on the smallest key. |
| Options.OptionData.AsValue | src/Option.js:24-55 | An option instance is an object with the option prototype and exactly the six fields. |
| Options.ToStringShape | src/Option.js:146-163 | `toString` joins name, description and alias with pipes. It adds the type only for a non-boolean option, and then an empty default field only when the option is not required. |
| Options.CopyFields | src/Option.js:59-71 | Corrected object branch. Every field named in the configuration whose current value is defined takes the configured value; all other fields are kept. |
| Options.CopyKeysFields | src/Option.js:63-69 | Copying distinct keys one at a time gives each named, defined field its configured value. |
| Options.CopySortedKeys | src/Option.js:59-71 | Copying every key in ascending order is `CopyFields`. |
| Options.ObjectConfigStopsAfterFirstKey | src/Option.js:59-71 | As written, `new Option({name: 'x', type: 'string'})` sets only the name and leaves the type `boolean`, because the callback returns `undefined` and `every` stops. The corrected copy makes it `string`. |
| Options.AsWrittenExample | src/Option.js:59-71 | As written, that configuration only sets the name. |
| Options.AsWrittenCopiesLeastKey | src/Option.js:59-71 | As written, a non-empty object configuration copies its smallest key only. |
| Options.Configured | src/Option.js:57-76 | A falsy configuration leaves the defaults. An object copies only its smallest key, onto a defined field, as written (an empty object changes nothing). A non-empty string is parsed. Arrays, functions, numbers and booleans are ignored. |
| Options.Option.constructor | src/Option.js:24-55 | A new instance has the default fields: empty name, alias and description, type `boolean`, default `null`, not required. |
| Options.Option.ParseString | src/Option.js:100-141 | `parseString` leaves the fields of `ParseOnto`, or throws its message and leaves the fields as they were. |
| Options.Option.AssignFields | src/Option.js:59-71 | As written, the callback runs only on the keys `iterate` reaches, which is the smallest key alone; the fields are `CopyFieldsAsWritten`. |
| Options.Option.Configure | src/Option.js:57-76 | The configuration step leaves `Configured`, or throws its message. |
| Options.New | src/Option.js:17-77 | `new Option(config)` succeeds exactly when `FromValue` does, with its fields; an object configuration copies its smallest key only, as written. |
| Options.ParseSwapsNameAndAlias | src/Option.js:102-108 | When an alias is given and the name is longer, name and alias trade places. Otherwise the first field is the name. |
| Options.ParseRejectsLongName | src/Option.js:109-113 | Parsing throws iff the name left after the swap is longer than one character. An empty name is accepted. |
| Options.ParseExamples | src/Option.js:102-113 | A two-letter name before the first pipe is rejected, and a text starting with a pipe gives an empty name. |
| Options.ParseAliasDescriptionType | src/Option.js:114-125 | The alias is stored only when non-empty and different from the name. An empty description or type leaves `''` or `boolean`. |
| Options.ParseDefaultAndRequired | src/Option.js:126-140 | Without a fifth field, a boolean defaults to `false` and is optional, and another type is required with default `null`. With a fifth field, even `''`, the default is that string and the option is optional. |
| Options.ParsedHasShape | src/Option.js:100-141 | A parsed option has string fields free of pipes, a name of at most one character, and an alias that is empty or a different, not shorter, string. |
| Options.RoundTrip | src/Option.js:100-163 | Re-parsing the `toString` of a parsed option gives back name, description, alias, type and required flag. Only the default may change. |
| Options.ShapeRoundTrip | src/Option.js:100-163 | The same round trip, for every option of the parsed shape. |
| Options.ObjectConfigSkipsNameCheck | src/Option.js:59-71 | An object configuration sets a three-letter name without the one-letter check. |
| ParseCommandsTool.DropTwo | src/tools/parse-commands.js:18 | `substr(2)` drops exactly the first two characters, or leaves `''` for a shorter text. |
| ParseCommandsTool.Stringify | src/tools/parse-commands.js:17-19 | The `''` entry keeps its value. Any other value throws iff it is `null` or `undefined`. Otherwise it becomes its `toString()` without the first two characters. |
| ParseCommandsTool.StringifiedOptions | src/tools/parse-commands.js:14-20 | A rewritten options object has the same keys, and the `''` description keeps its value. |
| ParseCommandsTool.StringifyKeysStep | src/tools/parse-commands.js:15-20 | Each pass of the inner loop rewrites one option, unless an exception was thrown. |
| ParseCommandsTool.StringifyThrownSticks | src/tools/parse-commands.js:15-20 | Once an option throws, the remaining options change nothing. |
| ParseCommandsTool.StringifyKeepsKeys | src/tools/parse-commands.js:14-20 | The options object keeps its set of keys, even when an exception stops the loop. |
| ParseCommandsTool.StringifyKeysSpec | src/tools/parse-commands.js:15-20 | The inner loop ends normally iff no visited non-empty option is `null` or `undefined`. It then rewrites the visited entries and leaves the others alone. |
| ParseCommandsTool.StringifyAllKeys | src/tools/parse-commands.js:15-20 | Over all keys of a printable options object, the loop yields the rewritten object. |
| ParseCommandsTool.StringifySorted | src/tools/parse-commands.js:15-20 | The same, in the ascending key order of the loop. |
| ParseCommandsTool.ParseNamesStep | src/tools/parse-commands.js:12-26 | Each pass of the outer loop processes one command, unless an exception was thrown. |
| ParseCommandsTool.ParseThrownSticks | src/tools/parse-commands.js:12-26 | Once a command throws, the remaining commands are not processed. |
| ParseCommandsTool.ParseNameNormal | src/tools/parse-commands.js:14-25 | A command whose options all print is rewritten, and moved under `prefix + name` when the prefix is non-empty. |
| ParseCommandsTool.ProcessedStep | src/tools/parse-commands.js:12-26 | Without collisions, processing one more command keeps the table in the processed form. |
| ParseCommandsTool.MovedKeepsOthers | src/tools/parse-commands.js:21-25 | Moving a command leaves the commands not yet processed untouched. |
| ParseCommandsTool.MovedPlacesDone | src/tools/parse-commands.js:21-25 | After a move, every processed command is under `prefix + k` with its options rewritten. |
| ParseCommandsTool.MovedAddsNothing | src/tools/parse-commands.js:21-25 | A move adds no name other than `prefix + k` for a processed `k`. |
| ParseCommandsTool.ParseAllNames | src/tools/parse-commands.js:9-27 | Without collisions and with printable options, the loop over distinct names ends normally in the processed form. |
| ParseCommandsTool.ParseCommandsRenames | src/tools/parse-commands.js:7-28 | Every command `k` ends up under `prefix + k` with its options rewritten, and nothing else is left. An empty prefix keeps every name. |
| ParseCommandsTool.StrippedOptionReparses | src/tools/parse-commands.js:17-18 | A parsed one-letter option `n` prints as `n` and a pipe followed by the rewritten text. Parsing that again gives back name, description, alias, type and required flag. |
| ParseCommandsTool.CommandTable.ParseCommands | src/tools/parse-commands.js:7-28 | `parseCommands` leaves `ParseNames` over the sorted names. An empty table is left untouched. |
| ParseCommandsTool.CommandTable.ParseEach | src/tools/parse-commands.js:12-26 | The loop over the names leaves `ParseNames`. |
| ParseCommandsTool.StringifyOptions | src/tools/parse-commands.js:15-20 | The inner loop leaves `StringifyKeys`. |
| ReadmeCmd.Cell | src/commands/readme.js:102-115 | The name is shown after `-` and the alias after `--`. Any other boolean becomes a check mark or nothing. Any other value is shown as it is. |
| ReadmeCmd.OptionRow | src/commands/readme.js:98-117 | One cell per shown property. Reading the properties of `null` or `undefined` throws. |
| ReadmeCmd.OptionInstanceRow | src/commands/readme.js:98-117 | An option instance gives `-name`, `--alias`, its description and type, and a check mark exactly when it is required. |
| ReadmeCmd.NonEmpty | src/commands/readme.js:96 | The skipped key is exactly the empty one: every kept name is a non-empty key, and every non-empty key is kept. |
| ReadmeCmd.Rows | src/commands/readme.js:94-119 | One row per non-empty key, in key order, each with one cell per column. `ReadmeCmd.RowsThrow` and `ReadmeCmd.RowsValues` state when it throws and what the rows hold. |
| ReadmeCmd.RowsThrow | src/commands/readme.js:94-119 | The rows throw exactly when the option under some non-empty key is `null` or `undefined`. |
| ReadmeCmd.RowsValues | src/commands/readme.js:94-119 | When they do not throw, there is one row per non-empty key, in order, holding the cells of the option under it. |
| ReadmeCmd.AddRow | src/commands/readme.js:99-117 | Pushing a row appends its `j`-th cell to column `j` and to no other. |
| ReadmeCmd.SplitColumns | src/commands/readme.js:91-120 | `splitOptions` appends to each column the matching cell of every option row, in order. It fails exactly when the rows do, with the same message. |
| ReadmeCmd.TitleColumns | src/commands/readme.js:46-49 | Each column starts with the title of its property. |
| ReadmeCmd.RowAcross | src/commands/readme.js:60-61 | A regrouped row takes its `j`-th cell from column `j`. |
| ReadmeCmd.Dashes | src/commands/readme.js:70 | `'-'.repeat(n)` is `n` dashes. |
| ReadmeCmd.SepRow | src/commands/readme.js:68-71 | Each separator cell is as many dashes as its title cell is wide. |
| ReadmeCmd.Columns | src/commands/readme.js:49-51 | Before alignment, each column is its title over the matching cells of the option rows. |
| ReadmeCmd.Padded | src/commands/readme.js:53 | Each column is aligned on its own and keeps its number of cells. |
| ReadmeCmd.ReadmeShape | src/commands/readme.js:42-81 | The entry carries the command's name and its `''` brief. Its headers are the aligned titles over a row of dashes. It holds one aligned row per non-empty key, in key order. It throws exactly when one of those options is `null` or `undefined`. |
| ReadmeCmd.ReadmeOf | src/commands/readme.js:42-81 | `parseCommand` over the keys in ascending order. `ReadmeCmd.ReadmeShape` states the entry and when it throws. |
| ReadmeCmd.ParseCommand | src/commands/readme.js:42-81 | `parseCommand` yields the entry specified over the ascending keys. |
| ReadmeCmd.ParseWith | src/commands/readme.js:44-80 | The column seeding, splitting, aligning and regrouping yield that entry. |
| ReadmeCmd.SeedTitles | src/commands/readme.js:49 | Each column is seeded with its property's title, in property order. |
| ReadmeCmd.PadColumns | src/commands/readme.js:53 | Each column is replaced by its aligned form. |
| ReadmeCmd.Regroup | src/commands/readme.js:57-74 | The first row across the columns and its row of dashes become the headers. Every later row, in order, becomes an option. |
| ReadmeCmd.SplitOptions | src/commands/readme.js:94-119 | The loop over the keys yields `SplitAll`. |
| ReadmeCmd.SplitThrownSticks | src/commands/readme.js:94-119 | Once an option throws, the remaining keys change nothing. |
| ReadmeCmd.PushRow | src/commands/readme.js:99-117 | The `forEach` over the properties yields `AddRow`. |
| ReadmeCmd.Across | src/commands/readme.js:61 | The `forEach` over the names yields `RowAcross`. |
| ReadmeCmd.SeparatorFor | src/commands/readme.js:70 | The `forEach` over the title cells yields `SepRow`. |
| ReadmeCmd.BuildReadme | src/commands/readme.js:13-32 | Without `src/commands` nothing is built and the error is logged. Otherwise nothing is logged and the result is `EntriesOf` over the sorted names of what the extractor found: it throws exactly when some command's `parseCommand` throws, and otherwise holds every command's entry under its name and nothing else. |
| ReadmeCmd.Entries | src/commands/readme.js:22-25 | The loop over the commands found yields `EntriesOf`: the first entry that throws ends it. |
| ReadmeCmd.EntriesThrownSticks | src/commands/readme.js:22-25 | Once an entry throws, the remaining commands change nothing. |
| ReadmeCmd.EntriesComplete | src/commands/readme.js:22-25 | A loop in which nothing throws holds an entry for each command listed, and only those, each the `parseCommand` entry of that command. |
| ReadmeCmd.EntriesThrow | src/commands/readme.js:22-25 | The loop throws exactly when some listed command's `parseCommand` throws. |
| ReadmeCmd.EntriesFor | src/commands/readme.js:20-25 | The loop over the ascending keys is `EntriesOf`. It throws exactly when some command's `parseCommand` throws; otherwise every command has its `parseCommand` entry, under its name and nothing else. |
| ReadmeCmd.ExtractFound | src/commands/readme.js:20-21 | A fresh output filled by the extractor holds the commands `FoundIn` gives for the listing. |
| SpawnModel.SettleReject | src/Spawn.js:89-97 | Rejecting a runner that has not rejected keeps the history at most one rejection, the last settle call, and marks it rejected. |
| SpawnModel.SettleResolve | src/Spawn.js:113-116 | Resolving a runner that has not rejected keeps it unrejected. |
| SpawnModel.RejectedRunnerRejects | src/Spawn.js:89-123 | A rejected runner's promise is settled. Its value is the rejection exactly when that rejection was the first settle call. |
| SpawnModel.LogEntriesShape | src/Spawn.js:65-79 | `_log` writes at most one entry per piece of output. Each entry is a non-blank line of the given level, red exactly for `error`. |
| SpawnModel.Entry | src/Spawn.js:70-77 | A piece logs nothing when blank after trimming. Otherwise it logs one entry, its trimmed text, red exactly for `error`. |
| SpawnModel.LogEntriesStep | src/Spawn.js:69-78 | Each call of the `forEach` callback adds the entries of one piece. |
| SpawnModel.OneLine | src/Spawn.js:65-79 | Output without a line break logs its trimmed text once, or nothing when it is blank. |
| SpawnModel.TrimIdempotent | src/Spawn.js:67-72 | Trimming a trimmed piece again changes nothing. |
| SpawnModel.RunArgs | src/Spawn.js:135-140 | A missing `args` is `[]`. An array is kept. Any other value becomes a one-element list. |
| SpawnModel.RunOptions | src/Spawn.js:145-152 | The caller's options override `cwd`, `stdio: 'pipe'` and `shell: false` key by key. A non-object adds nothing. |
| SpawnModel.Spawn.constructor | src/Spawn.js:17-37 | A new runner has not rejected and has no process. |
| SpawnModel.Spawn.Close | src/Spawn.js:39-55 | Detaches the running process's listeners, if there is a process, and forgets it. Nothing else changes. |
| SpawnModel.Spawn.OnError | src/Spawn.js:89-97 | The first error closes the process and rejects with it. Later errors change nothing. At most one rejection is kept. |
| SpawnModel.Spawn.OnExit | src/Spawn.js:108-123 | Ignored once rejected. Otherwise it closes the process, then resolves for code 0 or rejects with `Error: <code>`. At most one rejection is kept. |
| SpawnModel.Spawn.Log | src/Spawn.js:65-79 | Appends the entries of the output's trimmed lines and changes nothing else. |
| SpawnModel.Spawn.LogPieces | src/Spawn.js:69-78 | The `forEach` over the pieces appends `LogEntries`. |
| SpawnModel.Spawn.Run | src/Spawn.js:135-167 | Spawns with the normalised arguments and options and records the process. The output is read only with `stdio: 'pipe'`, by the caller's logger exactly when it is a function. |
| TplHelpers.Max | tpl/helpers/spaces.js:14 | `Math.max` of a non-empty list is an element of the list that bounds every element. |
| TplHelpers.Blanks | tpl/helpers/spaces.js:14 | `' '.repeat(n)` is `n` blanks. |
| TplHelpers.ItemWidths | tpl/helpers/spaces.js:14 | The widths of the items' property texts, one per item. The map throws exactly when an item is `null` or `undefined`. |
| TplHelpers.Spaces | tpl/helpers/spaces.js:9-16 | Without padding it gives the own value's text. With padding it gives blanks that make the own value exactly as wide as the widest item. It throws iff the own value is wider than every item. |
| TplHelpers.UpperCase | tpl/helpers/capitalize.js:12 | Lower-case ASCII letters map to upper case and every other character is kept. |
| TplHelpers.Capitalize | tpl/helpers/capitalize.js:8-13 | The first character is `UpperCase` of the first character of `String(value)`, and the rest is kept. An empty text throws. |
| TplHelpers.CapitalizeIdempotent | tpl/helpers/capitalize.js:8-13 | Capitalising a capitalised text changes nothing. |
| YargsBuilder.ToFlag | src/builder/yargs.js:35-41 | The flag copies alias, type and required flag, and takes the description as `desc`. A `null` default becomes `undefined` and any other default is kept. |
| YargsBuilder.ConvertVisitsEveryOption | src/builder/yargs.js:33-42 | The callback always answers a truthy object, so `iterate` hands it every key, in ascending order. |
| YargsBuilder.OptionsVisited | src/builder/yargs.js:33-42 | The keys `convertOptions` visits are exactly the option names. |
| YargsBuilder.Flags | src/builder/yargs.js:30-44 | One flag per option, under the option's key, and nothing else. |
| YargsBuilder.ConvertOptions | src/builder/yargs.js:30-44 | `convertOptions` yields the flag of every option under its key. |
| YargsBuilder.StoreFlags | src/builder/yargs.js:35-41 | Storing the flag of each visited key yields `Flags` when the keys are exactly the options. |
| YargsBuilder.ConvertCommand | src/builder/yargs.js:11-21 | The command keeps its name and description, and its builder declares the flags of its options. It has no handler exactly when the handler given is not a function. |
| YargsBuilder.HandlerReceivesCommand | src/builder/yargs.js:17-19 | A supplied function is called with the converted command, then the arguments. Otherwise nothing is called. |
| YargsBuilder.Yargs.Command | src/builder/yargs.js:57 | `yargs.command` appends one definition. |
| YargsBuilder.ConvertedShape | src/builder/yargs.js:55-58 | One converted command per key, in key order. |
| YargsBuilder.ConvertedStep | src/builder/yargs.js:55-58 | Each pass of the loop adds the conversion of one command. |
| YargsBuilder.BuilderYargs | src/builder/yargs.js:53-59 | `builderYargs` appends the conversion of every registered command, in ascending name order. |
| YargsBuilder.AddCommands | src/builder/yargs.js:55-58 | The loop appends `Converted` over the keys given. |
| YargsBuilder.OnePerCommand | src/builder/yargs.js:53-59 | Exactly as many commands as are registered reach `yargs`, and each registered command is among them. |
| YargsBuilder.OnePerKey | src/builder/yargs.js:55-58 | The same over any listing of the registry's names without repeats. |
| YargsBuilder.Configure | src/Command.js:96-99 | Builder `yargs` registers the whole registry. Any other builder name throws `Cannot find module` and registers nothing. |
| Options.Option.AssignParts | src/Option.js:103-140 | Once split into pieces, the fields become those of `ParseParts`, or the exception is thrown and the fields are unchanged. |
| Options.Option.AssignKeys | src/Option.js:61-70 | The callback run on each key in turn leaves the fields of `CopyKeys`. |
| Commands.Registry.RegisterEach | src/Command.js:143-154 | The walk over the keys leaves the table and completion of `RegisterKeys`. |
| CliModel.Search | src/Cli.js:160-191 | The probing loop ends in the state the search specification gives: segments popped one at a time, stopping at the first call that returns exactly `true`. |
| CliModel.CollectEach | src/Cli.js:393-396 | The loop over the sorted names builds exactly the object `Collect` describes for the set of those names. |
| CommentTools.Extractor.ExtractEach | src/tools/from-files.js:273 | The `forEach` over the files leaves the output and completion that `ExtractFiles` gives, stopping at the first exception. |
| CommentTools.Extractor.ExtractOne | src/tools/from-files.js:141-188 | One file is read and parsed; a file that cannot be read, or whose statements throw, leaves the output as it was. |
| Commands.Command.ParseEach | src/Command.js:60-83 | The callback run on each key in turn leaves the fields and completion of `ParseKeys`. |

## Left out

- I/O: the file system is a set of existing paths, or a map from paths to loaded modules. Reading, writing, `require`, `process.cwd()`, `path.join`, `path.resolve`, `path.relative` and `path.basename` are parameters. Nothing is read from or written to disk.
- Key order: `Object.keys` and `Object.values` list keys in ascending order here, not in insertion order. The comparison of src/tools/from-files.js:233-236 lower-cases both names and compares them with `localeCompare`; the model compares them as they are, by character code. Where a result is a map, the order shows only in the logs and in which entry wins a name clash: of the lines `@option a x` and `@option a Y`, the source keeps `Y` and the model keeps `x`. Three results are sequences, and their order differs from the source's:
  - `builderYargs` (src/builder/yargs.js:55) hands the commands to yargs in ascending name order (`YargsBuilder.BuilderYargs`, `YargsBuilder.AddCommands`). The source uses insertion order, so it registers `update` (src/Cli.js:104-108) before the configured commands.
  - `splitOptions` (src/commands/readme.js:94) lays out the option rows of a README section in ascending key order (`ReadmeCmd.Rows`, `ReadmeCmd.ReadmeShape`, `ReadmeCmd.ParseCommand`). The source follows the order in which the options were stored. For `@option a x` and `@option B y`, that order is `a` then `B`, because of the case-insensitive sort, where the model puts `-B` first.
  - `install` (src/commands/install.js:22) starts the directory list from the configured directories in ascending key order (`InstallCmd.Values`, `InstallCmd.ExistingFirst`, `InstallCmd.Install`). The source uses the order in which they were configured.
- Numbers are integers. Floating point, `NaN` and numeric object keys are not modelled.
- Text is a sequence of Unicode characters, where JavaScript strings are UTF-16 code units. For text outside the Basic Multilingual Plane, `.length`, `[0]` and `substr` differ: the widths of `TplHelpers.Spaces` and of the readme padding, the first character `capitalize` upper-cases, and the two characters `ParseCommandsTool.DropTwo` drops. `toUpperCase` upper-cases ASCII letters only. The regular expressions of the source are written as scanners over characters.
- Aliasing: `checkDir` and `parseCommands` rewrite arrays and objects in place, possibly through shared references. The model computes the new value, and for `checkDir` the partly rewritten one an exception leaves, and assigns it back to the one name the code writes. Aliasing between several names of one object is not captured: when `argv.d` shares its array with `argv.directory`, the elements rewritten before an exception show through `argv.d` in the source but not in the model.
- `Cli._run`, `Cli.update` and `Cli.logException`: an exception is logged as one entry holding its message. The stack trace and the formatting of `log` are left out.
- `Cli.resolveDir`: the search for a `package.json` above a directory is a parameter (`locate`). Only its guard, that the argument must be a string, is modelled.
- `pad-values` is a parameter assumed to keep the number of cells. The README template and its rendering and writing in `readme()` are left out.
- Babylon parsing is a parameter that maps a file to its list of statements (`SourceFile`). The extractor's `console.log` of a command without a name is modelled as the returned message.
- `install`: the `debug` logs and the final call of the `config` command are left out. The model returns the directory list that call receives. The scripts `git clone`, `hg clone` and `npm install` are a parameter that says whether the clone left the directory.
- `Spawn`: the child process, its streams, `chalk` and the promise are left out. Events are method calls, and settling is recorded in `settled`.
- `Cli.update` has no member of its own. It calls `config` with the fields `directory` and `noMerge`, which `config` never reads, so it behaves as `ConfigCmd.Config` without a directory argument.
- yargs is the list of commands registered on it. Its own parsing and dispatch are left out.
- The template helpers `cc2sep`, `sep2cc` and `chalk` only call external libraries and are left out.
- CliModel.Step: its own contract only covers a missing file. `CliModel.StepHit` states the result and the logged exception for an existing one.
- CliModel.Cli.Handler: a handler's own effects on the instance are not represented. A command file's handler receives the instance (src/Cli.js:377), and the instance's own function runs as a method of it (src/Cli.js:195). Either can log through `cli.log` or write the instance's fields; `update`, for one, runs `config`, which logs (src/commands/config.js:121, 130). The model's `Call` gives only a result or an exception. So the log entries and the field frame of `Cli.Handler` cover the dispatch alone.
- CliModel.ProbesDistinct: paths are lists of segments and are not normalised as `path.join` does. `path.join` drops empty and `.` segments and resolves `..`, so `ns:a:b:` (a trailing colon) or `ns:a:.` probes `a/b.js` twice in the source, calling it a second time when the first call does not return `true`. The model probes two different segment lists there.
- Inherited properties: objects hold their own properties only. The `in` test and `_dirs[...]` of src/Cli.js:154-156, `typeof this[_name]` at src/Cli.js:193 and the field test of src/Option.js:65 also see inherited members such as `toString` and `constructor`. So `new Option({toString: 1})` replaces the instance's `toString` in the source, where the model ignores the key, and a namespace named `toString` finds a function in `directories`.
- ConfigCmd.Config: directories are strings. A `.jfcli` can hold a directory that is not a string; `path.resolve` then throws inside the `try` at src/commands/config.js:110, and the message is logged. The model does not represent such a configuration.
- ConfigCmd.BuildOf: no contract of its own. `ConfigCmd.BuildPrefixes` and `ConfigCmd.ConfigFile.Build` state what it does.

## Findings

The operations are modelled as the code is written. Each corrected definition stands beside them, with the intended property proved about it.

| source | as written | input that shows it | evidently intended | confidence | as-written member | corrected member |
|---|---|---|---|---|---|---|
| src/Option.js:59-71 | The `iterate` callback returns `undefined`, so `every` stops after the first key in sorted order. | The configuration `{name: 'x', type: 'string'}` leaves `type` as `boolean`. | Every defined field named in the configuration takes its value. | not executed | `Options.ObjectConfigStopsAfterFirstKey` | `Options.CopySortedKeys` |
| src/Cli.js:153-156 | `resolveDir` receives `_dirs[_subdirs[0]]` before the `in` test. For an unregistered namespace that is `undefined`, and `path.isAbsolute` throws, so the `rootDir` fallback never applies. | `handler('ftp:upload')` with no `ftp` directory registered throws. | An unregistered namespace is searched under the root directory. | not executed | `CliModel.UnregisteredNamespaceRejects` | `CliModel.SearchRoot` |
| src/utils/check.js:20-23 | The test is inverted: an absolute path is joined onto the working directory, and a relative one is kept. | With working directory `/w`, `/srv/app` becomes `/w/srv/app` and `src` stays `src`. | Absolute paths are kept and relative ones are resolved against the working directory. | not executed | `CheckDir.AsWrittenJoinsAbsolutePaths` | `CheckDir.CheckDirIdempotent` |
