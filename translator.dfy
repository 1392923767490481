/** The driver of mika2c.c: the in-place comment stripper, the per-line loop
    that reads the input with fgets, counts the lines and writes one rewritten
    chunk per line, the checks and output-name derivation of `main`, and the
    two helpers `is_mika_keyword` and `extract_function_name`. */
module Translator {
  import opened CStrings
  import opened Paths
  import opened Rewriter
  import opened OutputFree

  // ---------------------------------------------------------------------------
  // process_comments, in place on the line buffer
  // ---------------------------------------------------------------------------

  /** The buffer after process_comments has cut at the first "//" at `i`
      holds the stripped line as its C string. */
  lemma CutBufferHoldsStripped(s: string, u: seq<char>, i: nat)
    requires '\0' !in s && MatchAt(s, "//", i)
    requires forall j :: 0 <= j < i ==> !MatchAt(s, "//", j)
    requires i + 1 < |u| && u[..i] == s[..i]
    requires if i > 0 && s[i - 1] != '\n' then u[i] == '\n' && u[i + 1] == '\0' else u[i] == '\0'
    ensures '\0' in u && UntilNul(u) == StripComment(s)
  {
    StripCommentCutsAtFirstMarker(s, i);
    assert forall j :: 0 <= j < i ==> u[j] == s[j];
    if i > 0 && s[i - 1] != '\n' {
      assert u[i + 1] == '\0';
      UntilNulAt(u, i + 1);
      assert u[..i + 1] == s[..i] + "\n";
    } else {
      assert u[i] == '\0';
      UntilNulAt(u, i);
    }
  }

  /** process_comments: overwrite the first "//" of the C string in `line`
      with its terminator, and append "\n" with strcat unless the comment
      began the line or followed a '\n'. The appended "\n\0" lands on the two
      slashes, so it never writes past the old string. */
  method ProcessComments(line: array<char>)
    requires IsCString(line)
    modifies line
    ensures IsCString(line)
    ensures CStr(line) == StripComment(old(CStr(line)))
  {
    var n := Strlen(line);
    ghost var s := line[..n];
    var i := 0;
    while i + 1 < n && !(line[i] == '/' && line[i + 1] == '/')
      invariant 0 <= i <= n
      invariant forall j :: 0 <= j < i ==> !MatchAt(s, "//", j)
    {
      assert s[i..i + 2] == [line[i], line[i + 1]];
      i := i + 1;
    }
    if i + 1 < n {
      assert s[i..i + 2] == [line[i], line[i + 1]];
      line[i] := '\0';
      if i > 0 && line[i - 1] != '\n' {
        line[i] := '\n';
        line[i + 1] := '\0';
      }
      assert line[..i] == s[..i];
      CutBufferHoldsStripped(s, line[..], i);
    } else {
      StripCommentWithoutMarker(s);
    }
  }

  // ---------------------------------------------------------------------------
  // One line, and the whole stream
  // ---------------------------------------------------------------------------

  /** What the main loop writes for one line as fgets returned it: the C
      string is comment-stripped; a line left empty or starting with '\n' is
      echoed as one blank line, any other goes through the dispatch. */
  function LineOutput(line: string): string {
    EmitLine(StripComment(UntilNul(line)))
  }

  /** The main loop's choice for a comment-stripped line. */
  function EmitLine(s: string): string {
    if s == [] || s[0] == '\n' then "\n" else Dispatch(s)
  }

  /** No line is dropped: every line produces some output. */
  lemma LineOutputNonEmpty(line: string)
    ensures |LineOutput(line)| > 0
  {
    var s := StripComment(UntilNul(line));
    if s != [] && s[0] != '\n' {
      if !Contains(s, "#include") && !Contains(s, "print(") && Contains(s, "return 993") {
        var p := Find(s, "return 993").value;
        assert |s| >= 10;
      }
      if !Contains(s, "#include") && !Contains(s, "print(") && !Contains(s, "return 993") &&
         Contains(s, "function ") {
        var p := Find(s, "function ").value;
        assert |s| >= 9;
      }
    }
  }

  /** A line that starts with a comment produces exactly one '\n'. */
  lemma CommentLineIsBlank(line: string)
    requires |line| >= 2 && line[0] == '/' && line[1] == '/'
    ensures LineOutput(line) == "\n"
  {
    var c := UntilNul(line);
    assert c[..2] == line[..2];
    assert MatchAt(c, "//", 0);
    StripCommentCutsAtFirstMarker(c, 0);
  }

  /** Empty input and a bare newline are each echoed as one '\n'. */
  lemma EmptyLinesAreBlank()
    ensures LineOutput("") == "\n"
    ensures LineOutput("\n") == "\n"
  {
    AbsentWithoutFirstChar("", "//");
    AbsentWithoutFirstChar("\n", "//");
    StripCommentWithoutMarker("");
    StripCommentWithoutMarker("\n");
  }

  /** A line without NUL, '/' or '#' that does not start with a newline goes
      through the dispatch unchanged by comment stripping, and is not an
      include. */
  lemma PlainLineOutput(s: string)
    requires '\0' !in s && '/' !in s && '#' !in s
    requires s != [] && s[0] != '\n'
    ensures LineOutput(s) == Dispatch(s)
    ensures !Contains(s, "#include")
  {
    var t := s + ['\0'];
    assert t[|s|] == '\0';
    assert forall j :: 0 <= j < |s| ==> t[j] == s[j];
    UntilNulAt(t, |s|);
    assert t[..|s|] == s;
    UntilNulAppendNul(s);
    AbsentWithoutFirstChar(s, "//");
    StripCommentWithoutMarker(s);
    AbsentWithoutFirstChar(s, "#include");
  }

  /** Whole input lines through comment stripping and dispatch:
      `var x = 5` becomes `int x = 5`. */
  lemma VarLine(v: string)
    requires v == "var x = 5\n"
    ensures LineOutput(v) == "int x = 5\n"
  {
    PlainLineOutput(v);
    VarExample(v);
  }

  /** `print("hi")` becomes `printf("hi")`. */
  lemma PrintLine(p: string)
    requires p == "print(\"hi\")\n"
    ensures LineOutput(p) == "printf(\"hi\")\n"
  {
    PlainLineOutput(p);
    PrintExample(p);
  }

  /** `function add(a, b) {` becomes `int add(a, b) {`. */
  lemma FunctionLine(f: string)
    requires f == "function add(a, b) {\n"
    ensures LineOutput(f) == "int add(a, b) {\n"
  {
    PlainLineOutput(f);
    FunctionExample(f);
  }

  /** `return 993;` becomes `return 0;`. */
  lemma ReturnLine(r: string)
    requires r == "return 993;\n"
    ensures LineOutput(r) == "return 0;\n"
  {
    PlainLineOutput(r);
    ReturnExample(r);
  }

  /** The outputs of `f` on each line, concatenated in order. */
  function ConcatMap(f: string -> string, lines: seq<string>): string {
    if lines == [] then "" else ConcatMap(f, lines[..|lines| - 1]) + f(lines[|lines| - 1])
  }

  lemma {:induction false} ConcatMapAppend(f: string -> string, a: seq<string>, b: seq<string>)
    ensures ConcatMap(f, a + b) == ConcatMap(f, a) + ConcatMap(f, b)
    decreases |b|
  {
    if b == [] {
      assert a + b == a;
    } else {
      var b' := b[..|b| - 1];
      assert (a + b)[..|a + b| - 1] == a + b';
      assert (a + b)[|a + b| - 1] == b[|b| - 1];
      ConcatMapAppend(f, a, b');
    }
  }

  /** Everything written after the header: one chunk per input line. */
  function Body(lines: seq<string>): string {
    ConcatMap(LineOutput, lines)
  }

  /** Lines are translated independently: the output of two stretches of
      input is the output of the first followed by that of the second. */
  lemma BodyAppend(a: seq<string>, b: seq<string>)
    ensures Body(a + b) == Body(a) + Body(b)
  {
    ConcatMapAppend(LineOutput, a, b);
  }

  /** A single line becomes exactly its own output. */
  lemma BodyOfOneLine(line: string)
    ensures Body([line]) == LineOutput(line)
  {
    assert [line][..0] == [];
    assert ConcatMap(LineOutput, [line]) == ConcatMap(LineOutput, []) + LineOutput(line);
  }

  /** One more line extends the output by that line's chunk. */
  lemma ConcatMapExtend(f: string -> string, lines: seq<string>, i: nat)
    requires i < |lines|
    ensures ConcatMap(f, lines[..i + 1]) == ConcatMap(f, lines[..i]) + f(lines[i])
  {
    assert lines[..i + 1][..i] == lines[..i];
  }

  /** What the loop body computes from the NUL-terminated copy of a line,
      after comment stripping, is that line's output. */
  lemma ChunkOfBuffer(text: string, stripped: string, chunk: string)
    requires stripped == StripComment(UntilNul(text + ['\0']))
    requires chunk == (if stripped == [] || stripped[0] == '\n' then "\n" else Dispatch(stripped))
    ensures chunk == LineOutput(text)
  {
    UntilNulAppendNul(text);
  }

  /** The line buffer as fgets fills it: the characters of the line and a
      terminating NUL. */
  method LineBuffer(text: string) returns (buffer: array<char>)
    ensures fresh(buffer)
    ensures buffer[..] == text + ['\0'] && IsCString(buffer)
  {
    buffer := new char[|text| + 1](k requires 0 <= k <= |text| => if k < |text| then text[k] else '\0');
    assert buffer[..] == text + ['\0'];
    assert buffer[..][|text|] == '\0';
  }

  /** The body of main's loop for one line: copy it into the buffer, strip
      its comment in place, then write a blank line or the dispatched line. */
  method TranslateLine(text: string) returns (chunk: string)
    ensures chunk == LineOutput(text)
  {
    var buffer := LineBuffer(text);
    ProcessComments(buffer);
    var stripped := CStr(buffer);
    if buffer[0] == '\n' || buffer[0] == '\0' {
      chunk := "\n";
    } else {
      chunk := Dispatch(stripped);
    }
    ChunkOfBuffer(text, stripped, chunk);
  }

  /** The `while (fgets(...))` loop of main: each line is counted and
      translated, and its output appended. */
  method TranslateLines(lines: seq<string>) returns (out: string, lineNumber: nat)
    ensures out == Body(lines)
    ensures lineNumber == |lines|
  {
    out := "";
    lineNumber := 0;
    var i := 0;
    while i < |lines|
      invariant 0 <= i <= |lines| && lineNumber == i
      invariant out == ConcatMap(LineOutput, lines[..i])
    {
      lineNumber := lineNumber + 1;
      var chunk := TranslateLine(lines[i]);
      ConcatMapExtend(LineOutput, lines, i);
      out := out + chunk;
      i := i + 1;
    }
    assert lines[..i] == lines;
  }

  // ---------------------------------------------------------------------------
  // main: input check, output name, files
  // ---------------------------------------------------------------------------

  /** The output file: the -o argument, or the input cut at its last '.'
      followed by ".c". */
  function OutputPath(input: string, outputOverride: Option<string>): string {
    match outputOverride
    case Some(path) => path
    case None => StripExtension(input) + ".c"
  }

  /** For an accepted input the default output replaces ".mk" by ".c". */
  lemma DefaultOutputPath(input: string)
    requires HasMkExtension(input)
    ensures OutputPath(input, None) == input[..|input| - 3] + ".c"
  {
    StemOfMkPath(input);
  }

  datatype OutputFile = OutputFile(path: string, text: string)

  /** main after option parsing. `allocOk` is whether the malloc for the
      default output name succeeds, `source` the lines of the input file
      (None when it cannot be opened), `outputOpens` whether the output file
      can be created, and `header` the provenance comment block. */
  method RunTranslator(input: string, outputOverride: Option<string>, allocOk: bool,
                       source: Option<seq<string>>, outputOpens: bool, header: string)
    returns (status: int, written: Option<OutputFile>, lineNumber: nat)
    ensures status == 0 || status == 1
    ensures status == 0 <==>
      HasMkExtension(input) && (outputOverride.Some? || allocOk) && source.Some? && outputOpens
    ensures status == 0 ==>
      written == Some(OutputFile(OutputPath(input, outputOverride), header + Body(source.value))) &&
      lineNumber == |source.value|
    ensures status == 1 ==> written.None? && lineNumber == 0
  {
    status, written, lineNumber := 1, None, 0;
    if !HasMkExtension(input) {
      return;
    }
    var outPath: string;
    if outputOverride.None? {
      if !allocOk {
        return;
      }
      outPath := StripExtension(input) + ".c";
    } else {
      outPath := outputOverride.value;
    }
    if source.None? || !outputOpens {
      return;
    }
    var text;
    text, lineNumber := TranslateLines(source.value);
    written := Some(OutputFile(outPath, header + text));
    status := 0;
  }

  /** Where ctx.output_file points once the name is chosen: at `optarg`,
      inside argument `optarg` of argv, for -o; else at the malloc'd
      default, or NULL when that malloc failed. */
  function OutputPointer(outputOverride: Option<string>, allocOk: bool, optarg: nat): Option<Pointer> {
    if outputOverride.Some? then Some(IntoArgv(optarg))
    else if allocOk then Some(HeapBlock) else None
  }

  /** How main ends with the free guard as written. The guard is reached on
      each path after the name is chosen: the input failing to open, the
      output failing to open, and success. */
  function TranslatorExitAsWritten(input: string, outputOverride: Option<string>, allocOk: bool,
                                   sourceOpens: bool, outputOpens: bool, optarg: nat, optind: nat): Exit
  {
    if !HasMkExtension(input) || (outputOverride.None? && !allocOk) then Returns(1)
    else
      var p := OutputPointer(outputOverride, allocOk, optarg);
      EndOfMain(if sourceOpens && outputOpens then 0 else 1, p, FreesAsWritten(p, optind))
  }

  /** How main ends when only the malloc'd name is freed. */
  function TranslatorExit(input: string, outputOverride: Option<string>, allocOk: bool,
                          sourceOpens: bool, outputOpens: bool, optarg: nat): Exit
  {
    if !HasMkExtension(input) || (outputOverride.None? && !allocOk) then Returns(1)
    else
      var p := OutputPointer(outputOverride, allocOk, optarg);
      EndOfMain(if sourceOpens && outputOpens then 0 else 1, p, FreesIntended(p))
  }

  /** As written, every run with -o and an accepted input name ends in an
      invalid free, whether the files open or not: `optarg` is never
      argv[optind]. */
  lemma TranslatorOptionFreesArgv(input: string, outputOverride: Option<string>, allocOk: bool,
                                  sourceOpens: bool, outputOpens: bool, optarg: nat, optind: nat)
    requires HasMkExtension(input) && outputOverride.Some? && optarg != optind
    ensures TranslatorExitAsWritten(input, outputOverride, allocOk, sourceOpens, outputOpens, optarg, optind) == InvalidFree
  {
  }

  /** With the intended guard main always returns a status, and it is the
      status RunTranslator computes: 0 exactly when the name is accepted,
      the output name is available, and both files open. */
  lemma TranslatorExitIsStatus(input: string, outputOverride: Option<string>, allocOk: bool,
                               sourceOpens: bool, outputOpens: bool, optarg: nat)
    ensures TranslatorExit(input, outputOverride, allocOk, sourceOpens, outputOpens, optarg) ==
            Returns(if HasMkExtension(input) && (outputOverride.Some? || allocOk) && sourceOpens && outputOpens
                    then 0 else 1)
  {
  }

  // ---------------------------------------------------------------------------
  // Helpers
  // ---------------------------------------------------------------------------

  const Keywords: seq<string> := ["print", "input", "power", "return", "if", "else", "while",
                                  "for", "function", "var", "const", "true", "false"]

  /** is_mika_keyword: a linear scan of the keyword table. */
  method IsMikaKeyword(word: string) returns (r: bool)
    ensures r <==> word in Keywords
  {
    var i := 0;
    while i < |Keywords|
      invariant 0 <= i <= |Keywords|
      invariant forall j :: 0 <= j < i ==> Keywords[j] != word
    {
      if word == Keywords[i] {
        return true;
      }
      i := i + 1;
    }
    return false;
  }

  /** isspace in the C locale. */
  predicate IsSpace(c: char) {
    c == ' ' || c == '\t' || c == '\n' || c == '\U{000B}' || c == '\U{000C}' || c == '\r'
  }

  /** `name` is what follows the keyword found at `at`: after a maximal run
      of white space starting right behind the eight letters of "function",
      the maximal run of characters that are neither white space nor '('. */
  ghost predicate NameAfterKeyword(line: string, at: nat, start: nat, name: string) {
    && at + 8 <= start <= |line|
    && (forall k :: at + 8 <= k < start ==> IsSpace(line[k]))
    && (start == |line| || !IsSpace(line[start]))
    && start + |name| <= |line|
    && line[start..start + |name|] == name
    && (forall k :: 0 <= k < |name| ==> !IsSpace(name[k]) && name[k] != '(')
    && (start + |name| == |line| || IsSpace(line[start + |name|]) || line[start + |name|] == '(')
  }

  /** The text of an optional name, "" for a missing one. */
  function TextOf(name: Option<string>): string {
    if name.Some? then name.value else ""
  }

  /** extract_function_name: the identifier after the first "function", or
      None when there is no "function" or the identifier is empty. */
  method ExtractFunctionName(line: string) returns (name: Option<string>)
    requires '\0' !in line
    ensures Find(line, "function").None? ==> name.None?
    ensures name.Some? ==> name.value != ""
    ensures match Find(line, "function")
      case None => true
      case Some(at) => exists start :: NameAfterKeyword(line, at, start, TextOf(name))
  {
    var found := Find(line, "function");
    if found.None? {
      return None;
    }
    var at := found.value;
    var i := at + 8;
    while i < |line| && IsSpace(line[i])
      invariant at + 8 <= i <= |line|
      invariant forall k :: at + 8 <= k < i ==> IsSpace(line[k])
    {
      i := i + 1;
    }
    var start := i;
    while i < |line| && !IsSpace(line[i]) && line[i] != '('
      invariant start <= i <= |line|
      invariant forall k :: start <= k < i ==> !IsSpace(line[k]) && line[k] != '('
    {
      i := i + 1;
    }
    if i == start {
      name := None;
    } else {
      name := Some(line[start..i]);
    }
    assert NameAfterKeyword(line, at, start, TextOf(name));
  }
}
