# Mika toolchain: a Dafny model

Mika is a toy language that is compiled by rewriting it into C. This project
models the three pieces of the toolchain that decide what gets produced:

- **mika2c**, the line-by-line translator (`mika2c.c`). Each line read with
  `fgets` first has its comment stripped in place. A line that is left empty
  becomes a blank line. Any other line goes through a first-match-wins chain
  of substring rewrites: `#include <System|Math|Time>` expansion, `print(` to
  `printf(`, the exit-code sentinel `return 993` to `return 0`, `function ` and
  `var ` to `int `, and pass-through for `input()` and `power(`. `main` checks
  the `.mk` extension, derives the output name, counts the lines and writes
  the result. The helpers `is_mika_keyword` and `extract_function_name` are
  modelled too.
- **mikac**, the build driver (`mikac.c`). `compile_mika` runs four stages in
  order: translate, compile to an object file, compile the runtime library,
  and link. Each failure removes a specific set of intermediate files, under
  the control of `-k` (keep files), `-c` (compile only), `-g` and `-v`.
- **the runtime library** (`mika_std.c`): `power`, `absolute`, `array_size`
  and the newline trim of `input_string`.

Files and modules:

| file | module | contents |
|---|---|---|
| `cstrings.dfy` | `CStrings` | `strstr`, `strrchr` and `strlen`, and the C-string view of a `char` buffer |
| `paths.dfy` | `Paths` | cutting a path at its last `.`, and the `.mk` check |
| `rewriter.dfy` | `Rewriter` | comment stripping, the rewrites and the dispatch chain, as pure functions |
| `translator.dfy` | `Translator` | in-place `process_comments`, the per-line loop, `main`, `is_mika_keyword`, `extract_function_name` |
| `output_free.dfy` | `OutputFree` | the `free` of the output name at the end of both `main`s |
| `mikac.dfy` | `Mikac` | `compile_mika` as pure stage functions, and the class `Orchestrator` with one method per stage proved equal to them |
| `mika_std.dfy` | `MikaStd` | `power`, `absolute`, `array_size` and the newline trim |

Outside effects are modelled as follows:

- The disk is a set of paths.
- `system` is an oracle in `Env.run`. Given the command line and the files
  present, it returns an exit status and the files the command created.
  A command cannot delete a file.
- `stat` is set membership, and `remove` is set removal.
- Every command run, temporary file written and `remove` call is appended to
  a log, so a lemma can say that an action never happened.
- `rand()` and the outcomes of `malloc` and `fopen` are parameters.
- The translator's input is the sequence of lines `fgets` returns. Its output
  is the text written, with the provenance header passed in as a parameter.

## Model

| member | source | states |
|---|---|---|
| CStrings.Find | mika2c.c:185 | `strstr`: the first occurrence of the pattern, none earlier; None exactly when there is no occurrence at all |
| CStrings.LastIndexOf | mikac.c:141 | `strrchr`: the last index holding the character, none after it; None exactly when the character is absent |
| CStrings.UntilNul | mika2c.c:187 | the C string a buffer holds is its longest prefix without a NUL, ended by a NUL or by the buffer's end |
| CStrings.Strlen | mika_std.c:16 | the loop stops at the first NUL and its result is the length of the C string held |
| Paths.StripExtension | mikac.c:140-142 | the path is cut at its last `.`: the result is a prefix, the cut is at the last dot, and a path without a dot is kept whole |
| Paths.HasMkExtension | mika2c.c:266-271 | the extension check `strrchr(p, '.')` then `strcmp(ext, ".mk")`, also used by mikac (mikac.c:351-352); `MkExtensionIffSuffix` states which paths it accepts |
| Paths.MkExtensionIffSuffix | mika2c.c:266-271 | the extension check `strrchr(p, '.')` followed by `strcmp(ext, ".mk")` accepts exactly the paths ending in `.mk` |
| Paths.StemOfMkPath | mika2c.c:273-285 | for an accepted path, cutting at the last dot removes exactly the trailing `.mk` |
| Rewriter.StripCommentCutsAtFirstMarker | mika2c.c:184-193 | exactly the text before the first `//` is kept; a `\n` is added only when the comment is not at column 0 and does not follow a `\n` |
| Rewriter.StripComment | mika2c.c:184-193 | `process_comments` on the C string: everything from the first `//` on is dropped, and a `\n` is added when the cut is not at the start and does not follow a `\n`; the `StripComment` lemmas below state its properties |
| Rewriter.StripCommentWithoutMarker | mika2c.c:186 | a line without `//` is left unchanged |
| Rewriter.StripCommentLeavesNoMarker | mika2c.c:184-193 | no `//` is left after stripping |
| Rewriter.StripCommentIdempotent | mika2c.c:184-193 | stripping twice gives the same result as stripping once |
| Rewriter.ReplacementIsReversible | mika2c.c:127-143 | a first-occurrence replacement can be undone by putting the marker back at the same place |
| Rewriter.ProcessIncludes | mika2c.c:108-125 | `<System>` gives the five directives and a blank line, `<Math>` gives math.h, `<Time>` gives time.h, in that priority; any other include line is copied verbatim |
| Rewriter.SystemDirectives | mika2c.c:109-115 | the `<System>` expansion is stdio.h, stdlib.h, string.h, stdbool.h and the Mika runtime header, in that order |
| Rewriter.SystemExpansionShape | mika2c.c:109-115 | the expansion has five headers, the last of them `/usr/local/include/mika/mika_std.h` |
| Rewriter.ProcessPrint | mika2c.c:127-143 | the first `print(` becomes `printf(` with everything outside the marker unchanged; the line grows by exactly one character; without the marker the line is copied |
| Rewriter.ProcessReturn | mika2c.c:163-182 | the first `return 993` becomes `return 0`, the text after the 10-character marker is kept, the line shrinks by two; without the marker the line is copied |
| Rewriter.ProcessFunctionDeclaration | mika2c.c:213-229 | the first `function ` becomes `int `, prefix and suffix kept, five characters shorter |
| Rewriter.ProcessVariables | mika2c.c:195-211 | the first `var ` becomes `int `, prefix and suffix kept, same length |
| Rewriter.ProcessInputFunction | mika2c.c:145-152 | the line is output unchanged whether or not it holds `input()` |
| Rewriter.ProcessPowerFunction | mika2c.c:154-161 | the line is output unchanged whether or not it holds `power(` |
| Rewriter.FirstRule | mika2c.c:331-354 | the index of the first rule in priority order whose marker occurs; no earlier marker occurs; None when no marker occurs |
| Rewriter.Dispatch | mika2c.c:331-354 | the else-if chain of `main` over the seven markers, with `fputs` of the line when none occurs; `DispatchIsFirstMatch` states it as first match in `RuleTable` |
| Rewriter.DispatchIsFirstMatch | mika2c.c:331-354 | the else-if chain applies exactly the rewrite of the first matching rule, in the order `#include`, `print(`, `return 993`, `function `, `var `, `input()`, `power(`, and copies a line that matches none |
| Rewriter.PassThrough | mika2c.c:346-354 | a line with no marker, or one whose first marker is `input()` or `power(`, is output verbatim |
| Rewriter.OnlyFirstRuleFires | mika2c.c:331-345 | at most one rewrite per line: on a line holding both `print(` and `var `, only `print(` is rewritten and the `var ` remains in the output |
| Rewriter.SentinelMatchesInsideLongerNumber | mika2c.c:163-182 | matching is on substrings: `return 9930;` holds the sentinel and becomes `return 00;` |
| Rewriter.VarExample | mika2c.c:343-344 | `var x = 5` becomes `int x = 5` |
| Rewriter.PrintExample | mika2c.c:334-335 | `print("hi")` becomes `printf("hi")` |
| Rewriter.FunctionExample | mika2c.c:340-341 | `function add(a, b) {` becomes `int add(a, b) {` |
| Rewriter.ReturnExample | mika2c.c:337-338 | `return 993;` becomes `return 0;` |
| Translator.ProcessComments | mika2c.c:184-193 | in place on the line buffer: afterwards the buffer holds a C string, and that string is the stripped form of the old one |
| Translator.CommentLineIsBlank | mika2c.c:324-329 | a line that starts with `//` produces exactly one `\n` |
| Translator.EmptyLinesAreBlank | mika2c.c:326-329 | an empty line and a bare `\n` each produce exactly one `\n` |
| Translator.LineOutputNonEmpty | mika2c.c:321-355 | every line read produces some output |
| Translator.PlainLineOutput | mika2c.c:324-354 | a line without NUL, `/` or `#`, not starting with `\n`, reaches the dispatch unchanged and no include rule fires |
| Translator.LineOutput | mika2c.c:324-354 | what one line read by `fgets` contributes to the output: its C string, comment-stripped, then `EmitLine`; `TranslateLine` computes it in place |
| Translator.EmitLine | mika2c.c:326-354 | a stripped line that is empty or starts with `\n` gives one `\n`, any other goes through `Dispatch` |
| Translator.VarLine | mika2c.c:321-354 | the input line `var x = 5` is written as `int x = 5` |
| Translator.PrintLine | mika2c.c:321-354 | the input line `print("hi")` is written as `printf("hi")` |
| Translator.FunctionLine | mika2c.c:321-354 | the input line `function add(a, b) {` is written as `int add(a, b) {` |
| Translator.ReturnLine | mika2c.c:321-354 | the input line `return 993;` is written as `return 0;` |
| Translator.BodyAppend | mika2c.c:321-355 | lines are translated independently: the output for two stretches of input is the output of the first followed by the output of the second |
| Translator.BodyOfOneLine | mika2c.c:321-355 | the output for a single line is that line's own output |
| Translator.TranslateLine | mika2c.c:321-354 | one iteration of the loop (buffer, in-place strip, blank-or-dispatch) computes that line's output |
| Translator.TranslateLines | mika2c.c:321-355 | the loop writes the concatenation of the per-line outputs in order, and the line counter ends equal to the number of lines read |
| Translator.DefaultOutputPath | mika2c.c:273-285 | without `-o` the output file is the input with `.mk` replaced by `.c` |
| Translator.OutputPath | mika2c.c:273-285 | the `-o` argument when given, else the input cut at its last `.` followed by `.c`; `DefaultOutputPath` states it for `.mk` inputs |
| Translator.TranslatorExitAsWritten | mika2c.c:296-298 | `main`'s ending with the `free` guard as written (also mika2c.c:306-308, 366-368): the name is freed whenever it is non-null and not `argv[optind]`, so an `optarg` name is passed to `free` |
| Translator.TranslatorOptionFreesArgv | mika2c.c:366-368 | as written, every run with `-o` and a `.mk` input ends in an invalid `free`, whether or not the files open |
| Translator.TranslatorExit | mika2c.c:273-285 | `main`'s ending when only the malloc'd default name is freed |
| Translator.TranslatorExitIsStatus | mika2c.c:264-371 | with the intended guard `main` always returns, with 0 exactly under the condition in `RunTranslator`'s contract and 1 otherwise |
| Translator.RunTranslator | mika2c.c:264-371 | `main` returns 0 exactly when the extension is `.mk`, the name could be allocated (or `-o` was given), and both files open; then it writes the header and the translated lines to the derived or given path; otherwise it returns 1 and writes nothing. This is the status with the intended `free` guard (see Findings) |
| Translator.IsMikaKeyword | mika2c.c:47-71 | the result is true exactly when the word is one of the 13 keywords |
| Translator.ExtractFunctionName | mika2c.c:73-106 | no `function` gives None; otherwise the name is the maximal run of characters that are neither white space nor `(`, after the white space that follows the first `function`; an empty run gives None |
| Mikac.DerivedPathsOfMkInput | mikac.c:140-148 | for an accepted input the C file, the object file and the default executable are the input with `.mk` replaced by `.c`, by `.o` and by nothing |
| Mikac.DerivedPathsAreDistinct | mikac.c:140-148 | the C file and the object file differ from each other, from the source and from the default executable |
| Mikac.CPath | mikac.c:140-143 | `c_file`: the input cut at its last `.`, then `.c`; `DerivedPathsOfMkInput` states it for `.mk` inputs |
| Mikac.OPath | mikac.c:145-148 | `o_file`: the input cut at its last `.`, then `.o` |
| Mikac.DefaultExecutable | mikac.c:257-259 | the executable name without `-o`: the input cut at its last `.` |
| Mikac.TempStdlibPath | mikac.c:75-80 | `/tmp/mika_std_`, then `rand() % 10000` in decimal, then `.c`; `TempStdlibPathIsSource` states what it never equals |
| Mikac.TranslateCommand | mikac.c:154-159 | `mika2c '<input>'`, with `-v` before the quoted input when verbose |
| Mikac.CompileCommand | mikac.c:175-180 | `gcc -c <c> -o <o> -I/usr/local/include`, with ` -g` before the include flag when debugging |
| Mikac.LibCommand | mikac.c:231-232 | `gcc -c <lib> -o /tmp/mika_std.o` |
| Mikac.LinkCommand | mikac.c:270-275 | `gcc <o> /tmp/mika_std.o -o '<exe>'`, with ` -g` appended when debugging |
| Mikac.TempStdlibPathIsSource | mikac.c:75-80 | the temporary runtime source is never `/tmp/mika_std.o` and never the installed library |
| Mikac.DebugOnlyAddsFlag | mikac.c:176-180 | `-g` is the only thing the debug flag changes in a command: inserted before `-I/usr/local/include` when compiling, appended when linking (mikac.c:271-275) |
| Mikac.RunCommand | mikac.c:45-58 | `execute_command`: the oracle's status is returned, the files it created are added, and the command is logged |
| Mikac.Remove | mikac.c:199 | `remove`: the path leaves the disk and the removal is logged |
| Mikac.Cleanup | mikac.c:60-69 | `cleanup_files` does nothing with keep set; otherwise it removes exactly the given paths that exist, and records only those removals |
| Mikac.TranslateStage | mikac.c:154-169 | stage 1 leaves `output_file` alone, removes nothing, and can only fail with 1 |
| Mikac.ObjectStage | mikac.c:175-202 | stage 2 continues only when the object file exists and `-c` is not given; when it ends the run it returns 0 or 1 |
| Mikac.LibStage | mikac.c:231-247 | the library compile: on failure `cleanup_files` on the C and object files, then removal of the temporary source; on success only that removal; it only fails with 1 and leaves `output_file` alone |
| Mikac.StdlibStage | mikac.c:208-247 | stage 3 can only fail with 1 and leaves `output_file` alone; which files its exits remove is in `StdlibStageCleansUp` and `StdlibStageRemovesTemp` |
| Mikac.LinkStage | mikac.c:249-286 | stage 4 returns 0 or 1, and sets `output_file` to the default executable exactly when it was unset and the allocation succeeds; which files its exits remove is in `LinkStageCleansUp` and `LinkStageRemovesStdlibObject` |
| Mikac.Compile | mikac.c:136-301 | `compile_mika` only extends the log and returns 0 or 1 |
| Mikac.Launch | mikac.c:344-362 | `main` after option parsing: `output_file` is the `-o` argument, a missing or non-`.mk` input returns 1, anything else runs `compile_mika`; `InvalidInputRunsNothing` states this |
| Mikac.MainExitAsWritten | mikac.c:364-366 | `main`'s ending with the `free` guard as written: the name is freed whenever it is non-null and not `argv[optind]`, whatever `compile_mika` returned |
| Mikac.DriverOptionFreesArgv | mikac.c:364-366 | as written, every build of an existing `.mk` input with `-o` ends in an invalid `free`, whatever `compile_mika` returned |
| Mikac.MainExit | mikac.c:249-260 | `main`'s ending when only the name the link stage allocated is freed |
| Mikac.MainExitIsLaunchStatus | mikac.c:344-368 | with the intended guard `main` always returns, and returns the status of `Launch` |
| Mikac.InvalidInputRunsNothing | mikac.c:346-355 | a missing input, or one whose last extension is not `.mk`, returns 1 with nothing executed, created or removed; a valid one runs `compile_mika` |
| Mikac.TranslateFailureRemovesNothing | mikac.c:161-169 | a failed translation, or a missing C file, returns 1 having run only the translator and removed nothing |
| Mikac.CompileFailureRemovesOnlyCFile | mikac.c:182-192 | a failed compile, or a missing object file, returns 1; the only file removed is the C file, and only without `-k` |
| Mikac.CompileOnlyStopsAfterObject | mikac.c:194-202 | with `-c` a successful compile returns 0 with exactly two commands run; the library is never looked at and the linker never runs; the C file is removed unless `-k`; the object file remains |
| Mikac.StdlibStageRemovesTemp | mikac.c:212-247 | a temporary library source is removed after its compile on success and on failure, whatever `-k` says; with the installed library present none is written |
| Mikac.LibStageEffects | mikac.c:231-247 | compiling the library writes no temporary source and removes the given one |
| Mikac.TempLibStageEffects | mikac.c:217-247 | writing the temporary source and compiling it creates no other temporary file, and removes that one |
| Mikac.TempStdlibAlwaysRemoved | mikac.c:212-247 | over the whole build, every temporary library source written is also removed |
| Mikac.LinkStageRemovesStdlibObject | mikac.c:249-284 | once the library has compiled, `/tmp/mika_std.o` is removed on the allocation-failure path, on the link-failure path and on success, whatever `-k` says |
| Mikac.SuccessfulBuildLeavesNoIntermediates | mikac.c:277-300 | a successful full build leaves no `/tmp/mika_std.o`, and without `-k` no C or object file |
| Mikac.LateStagesRemoveCAndO | mikac.c:224-286 | without `-k`, once stage 2 has succeeded, every later exit leaves neither the C file nor the object file and logs the removal of both: failing to write the temporary library (mikac.c:226), a failed library compile (mikac.c:236), a failed allocation (mikac.c:253), a failed link (mikac.c:279) and success (mikac.c:286) |
| Mikac.StdlibStageCleansUp | mikac.c:212-247 | without `-k`, both failures of stage 3 remove and log the C and object files; on success the object file is still there, and so is the C file unless it was the temporary library source, which was removed |
| Mikac.LibStageCleansUp | mikac.c:231-247 | without `-k`, a failed library compile removes and logs the C and object files; a successful one changes the disk only by what the command created and by removing the temporary source |
| Mikac.LinkStageCleansUp | mikac.c:249-286 | without `-k`, all three exits of stage 4 leave neither the C file nor the object file, and log the removal of each that was there |
| Mikac.CleanupDeletesPresent | mikac.c:60-69 | without `-k`, `cleanup_files` removes each named path that exists and logs its removal |
| Mikac.KeepFilesKeepsIntermediates | mikac.c:60-69 | with `-k` a successful full build keeps the C and object files, as long as neither coincides with one of the library's own files |
| Mikac.KeepFilesRemovesOnlyTransients | mikac.c:60-69 | with `-k` the only files ever removed are the temporary library source and `/tmp/mika_std.o` |
| Mikac.Orchestrator.ExecuteCommand | mikac.c:45-58 | runs the command through the oracle, adds the files it created, and logs it |
| Mikac.Orchestrator.RemoveFile | mikac.c:199 | removes the path from the disk and logs the removal |
| Mikac.Orchestrator.CleanupFiles | mikac.c:60-69 | the new state is `Cleanup` of the old one |
| Mikac.Orchestrator.CreateTempStdlib | mikac.c:71-134 | writes the temporary source `/tmp/mika_std_<rand() % 10000>.c` and returns its name, or changes nothing and returns None |
| Mikac.Orchestrator.Translate | mikac.c:154-169 | the new state and exit decision are those of `TranslateStage` |
| Mikac.Orchestrator.CompileObject | mikac.c:175-202 | the new state and exit decision are those of `ObjectStage` |
| Mikac.Orchestrator.CompileStdlib | mikac.c:208-247 | the new state and exit decision are those of `StdlibStage` |
| Mikac.Orchestrator.Link | mikac.c:249-300 | the new state and status are those of `LinkStage` |
| Mikac.Orchestrator.CompileMika | mikac.c:136-301 | the new state and status are those of `Compile` |
| Mikac.Orchestrator.Run | mikac.c:344-362 | the new state and status are those of `Launch`, the status `main` returns with the intended `free` guard (see Findings) |
| OutputFree.EndOfMain | mikac.c:364-366 | `main` ends in an invalid `free` exactly when the guard fires on a name that points into argv, and otherwise returns its status |
| OutputFree.AsWrittenGuardFreesArgv | mika2c.c:366-368 | the guard as written frees exactly the argv pointers other than `argv[optind]` |
| OutputFree.IntendedGuardReturnsStatus | mikac.c:364-366 | with the intended guard `main` always returns its status, and a malloc'd name is still freed |
| MikaStd.Power | mika_std.c:22-28 | returns 1 for an exponent of 0 or less, and otherwise `base` multiplied by itself `exponent` times |
| MikaStd.Pow | mika_std.c:22-28 | `base` multiplied by itself `n` times, the value the loop of `power` builds |
| MikaStd.PowAdd | mika_std.c:24-26 | exponents add: the loop can be split into two runs whose results multiply |
| MikaStd.PowOfOne | mika_std.c:22-28 | any power of 1 is 1 |
| MikaStd.PowOfZero | mika_std.c:22-28 | a positive power of 0 is 0 and the zeroth is 1 |
| MikaStd.PowSign | mika_std.c:22-28 | even exponents give a result of 0 or more, a negative base with an odd exponent a negative result, and a positive base a positive one |
| MikaStd.Absolute | mika_std.c:30-32 | the result is 0 or more and is the number or its negation |
| MikaStd.AbsoluteProperties | mika_std.c:30-32 | a number and its negation have the same absolute value; it is 0 only for 0; applying it twice changes nothing; it is the identity on non-negative numbers |
| MikaStd.ArraySize | mika_std.c:42-44 | returns the size it is given |
| MikaStd.ArraySizeIgnoresArray | mika_std.c:42-44 | the result does not depend on the array, which may be absent |
| MikaStd.ChompNewlineSpec | mika_std.c:16-19 | removing the trailing newline undoes appending one; the result is a prefix of the text and is one character shorter exactly when the text ended in `\n` |
| MikaStd.ChompNewline | mika_std.c:16-19 | the text with one trailing `\n` removed when it has one |
| MikaStd.TrimNewline | mika_std.c:16-19 | in place: the buffer's C string loses one trailing `\n` if it has one, and no other cell changes |

## Left out

- Option parsing with `getopt`, `show_help`, and the missing-argument
  checks (mika2c.c:237-262, mikac.c:311-342): these are argument plumbing.
  The models start from the parsed options.
- All `printf` progress and diagnostic output, and the file-size report
  (mikac.c:288-298, mika2c.c:287-291, 360-364). None of it affects control
  flow.
- `system`, `stat`, `fopen`, `remove`, `fgets` and `fputs` are not executed.
  They are modelled through the oracle, the path set and sequences of lines
  described above.
- The text that `create_temp_stdlib` writes (mikac.c:88-130). Only the
  file's name is modelled, and the fact that it is created.
- The provenance header of mika2c uses the build time `__TIME__`
  (mika2c.c:312-317). It is a parameter of `RunTranslator`.
- mika_std.h, `input` (`scanf`), `array_create` and `array_free` (`malloc`
  and `free`), and the `getchar` loop and `fgets` read of `input_string`
  (mika_std.c:3-15). These are foreign I/O and allocation.
- Fixed buffer sizes. `MAX_LINE_LENGTH` splits longer lines in `fgets`, and
  the unchecked `strcpy`/`strcat` into 256-byte path buffers and 512-byte
  command buffers can overflow. Lines and paths are taken to fit.
- Translator.TranslateLines: each element of the input is one line as `fgets`
  returns it. The splitting of the file into lines, including lines longer
  than the buffer, is not modelled.
- Translator.ExtractFunctionName: the line must not contain a NUL, as for
  any C string. Allocation failure of the result is not modelled.
- MikaStd.Power: the product is a mathematical integer. The model does not
  capture signed 32-bit overflow, which is undefined behaviour in C.
- MikaStd.Absolute: `INT_MIN` is excluded, because negating it overflows.
- Mikac.KeepFilesKeepsIntermediates: the C file is taken not to be the
  temporary library source, and the object file not to be `/tmp/mika_std.o`.
  Two inputs break this:
  - `/tmp/mika_std.mk` gives `/tmp/mika_std.o` as its own object file, which
    the library compile overwrites and the driver always removes.
  - `/tmp/mika_std_<n>.mk` gives a C file that a temporary library source
    can overwrite.
- Mikac: `/tmp/mika_std.o` is said to be removed on every path, but the
  code does not remove it when the library compile fails (mikac.c:234-241).
  The model follows the code. `LinkStageRemovesStdlibObject` is therefore
  stated from the point where the library has compiled.
- Translator.RunTranslator, Mikac.Orchestrator.Run: these return the status
  `main` would return if only a malloc'd name were freed. As written, with `-o`,
  both `main`s pass the `-o` argument to `free`, which is undefined behaviour,
  so those runs have no defined exit status. The as-written ending is modelled
  separately; see Findings.
- The oracle `Env.run` lets a command add files (`files + created`) but never
  delete one. For example, a failing `gcc` that deletes its partial output is not
  modelled. The `m.files <= r.m.files` parts of `TranslateStage`, `ObjectStage`
  and `TranslateFailureRemovesNothing` rest on this restriction. The statements
  about the log, which hold no `Delete`, are what say these stages remove
  nothing themselves.
- Lines, paths and commands are sequences of Unicode characters, while the C
  code works on bytes. Every marker the code searches for is ASCII, so valid
  UTF-8 gives the same results. Invalid byte sequences cannot be represented,
  and the length statements (`ProcessPrint` one longer, and so on) count
  characters, not bytes.
- Orchestrator methods and the constructor have contracts in terms of `old`
  state. `Compile`, `Launch` and the stage functions carry the properties that
  can be stated without it.

## Findings

| source | as written | input that shows it | evidently intended | confidence | as-written member | corrected member |
|---|---|---|---|---|---|---|
| mika2c.c:296-298, 306-308, 366-368 | `free` is called on `ctx.output_file` whenever it is non-null and differs from `argv[optind]`, the input path; with `-o` it is `optarg`, a pointer into argv | `mika2c -o out.c p.mk`: the run ends by freeing the `-o` argument, whether or not the files open | free only the name that was allocated with `malloc`; then `main` returns 0 or 1 | high, not executed | Translator.TranslatorExitAsWritten, with Translator.TranslatorOptionFreesArgv | Translator.TranslatorExit, with Translator.TranslatorExitIsStatus |
| mikac.c:364-366 | the same guard after `compile_mika`: with `-o`, `ctx.output_file` is `optarg` and is passed to `free` | `mikac -o prog p.mk` with `p.mk` present: whatever `compile_mika` returns, `main` then frees the `-o` argument | free only the executable name the link stage allocated (mikac.c:249-260) | high, not executed | Mikac.MainExitAsWritten, with Mikac.DriverOptionFreesArgv | Mikac.MainExit, with Mikac.MainExitIsLaunchStatus |
