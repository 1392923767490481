/** The pattern rewriter of mika2c.c: comment stripping and the line rewrites,
    each a splice of prefix, replacement and suffix around the first
    occurrence of a fixed marker, and the first-match-wins dispatch that picks
    at most one of them for a line. */
module Rewriter {
  import opened CStrings

  // ---------------------------------------------------------------------------
  // Comments
  // ---------------------------------------------------------------------------

  /** What process_comments leaves of a line: the text before the first "//",
      with a '\n' put back unless the comment began the line or followed a
      '\n'. */
  function StripComment(line: string): string {
    match Find(line, "//")
    case None => line
    case Some(k) =>
      if k > 0 && line[k - 1] != '\n' then line[..k] + "\n" else line[..k]
  }

  /** A line without a comment marker is untouched. */
  lemma StripCommentWithoutMarker(line: string)
    requires forall j :: !MatchAt(line, "//", j)
    ensures StripComment(line) == line
  {
  }

  /** Exactly the text before the first marker is kept, and a '\n' is added
      only when the marker is not at column 0 and does not follow a '\n'. */
  lemma StripCommentCutsAtFirstMarker(line: string, k: nat)
    requires MatchAt(line, "//", k)
    requires forall j :: 0 <= j < k ==> !MatchAt(line, "//", j)
    ensures StripComment(line) == line[..k] + (if k > 0 && line[k - 1] != '\n' then "\n" else "")
  {
    FindIsFirst(line, "//", k);
  }

  /** No comment marker is left after stripping. */
  lemma {:induction false} StripCommentLeavesNoMarker(line: string)
    ensures !Contains(StripComment(line), "//")
  {
    var r := StripComment(line);
    match Find(line, "//")
    case None =>
    case Some(k) =>
      var tail := if k > 0 && line[k - 1] != '\n' then "\n" else "";
      assert r == line[..k] + tail;
      forall j | 0 <= j ensures !MatchAt(r, "//", j) {
        if j + 2 <= k {
          assert r[j..j + 2] == line[j..j + 2];
          assert !MatchAt(line, "//", j);
        } else if j + 2 <= |r| {
          assert j + 1 == k && r[k] == '\n';
          assert r[j..j + 2][1] == '\n';
        }
      }
  }

  /** Stripping twice is stripping once. */
  lemma {:induction false} StripCommentIdempotent(line: string)
    ensures StripComment(StripComment(line)) == StripComment(line)
  {
    StripCommentLeavesNoMarker(line);
  }

  // ---------------------------------------------------------------------------
  // The rewrites
  // ---------------------------------------------------------------------------

  /** `r` is `s` with the first occurrence of marker `m` replaced by `n`, every
      character outside the marker kept in place; `r` is `s` when `m` does not
      occur. */
  predicate ReplacesFirst(s: string, m: string, n: string, r: string) {
    match Find(s, m)
    case None => r == s
    case Some(p) =>
      && |r| == |s| - |m| + |n|
      && r[..p] == s[..p]
      && r[p..p + |n|] == n
      && r[p + |n|..] == s[p + |m|..]
  }

  /** Putting the marker back where its replacement stands gives the line back. */
  lemma ReplacementIsReversible(s: string, m: string, n: string, r: string)
    requires ReplacesFirst(s, m, n, r) && Contains(s, m)
    ensures var p := Find(s, m).value; r[..p] + m + r[p + |n|..] == s
  {
    var p := Find(s, m).value;
    assert s == s[..p] + s[p..p + |m|] + s[p + |m|..];
  }

  const SystemHeaders: seq<string> := ["<stdio.h>", "<stdlib.h>", "<string.h>", "<stdbool.h>",
                                       "\"/usr/local/include/mika/mika_std.h\""]

  /** A C `#include` directive on a line of its own. */
  function Directive(header: string): string {
    "#include " + header + "\n"
  }

  /** One directive per header, in order. */
  function Directives(headers: seq<string>): string {
    if headers == [] then "" else Directive(headers[0]) + Directives(headers[1..])
  }

  /** A header added at the end adds its directive at the end. */
  lemma {:induction false} DirectivesAppend(headers: seq<string>, header: string)
    ensures Directives(headers + [header]) == Directives(headers) + Directive(header)
  {
    if headers != [] {
      assert (headers + [header])[1..] == headers[1..] + [header];
      DirectivesAppend(headers[1..], header);
    }
  }

  /** Five headers give their five directives, in order. */
  lemma DirectivesOfFive(h: seq<string>)
    requires |h| == 5
    ensures Directives(h) ==
      Directive(h[0]) + Directive(h[1]) + Directive(h[2]) + Directive(h[3]) + Directive(h[4])
  {
    var a, b, c, d, e := Directive(h[0]), Directive(h[1]), Directive(h[2]), Directive(h[3]), Directive(h[4]);
    assert h[4..][1..] == [];
    assert Directives(h[4..]) == e;
    assert h[3..][1..] == h[4..];
    assert Directives(h[3..]) == d + e;
    assert h[2..][1..] == h[3..];
    assert Directives(h[2..]) == c + (d + e);
    assert h[1..][1..] == h[2..];
    assert Directives(h[1..]) == b + (c + (d + e));
    assert Directives(h) == a + (b + (c + (d + e)));
  }

  /** The `<System>` expansion spelled out directive by directive. */
  lemma SystemDirectives()
    ensures Directives(SystemHeaders) ==
      Directive("<stdio.h>") + Directive("<stdlib.h>") + Directive("<string.h>") +
      Directive("<stdbool.h>") + Directive("\"/usr/local/include/mika/mika_std.h\"")
  {
    DirectivesOfFive(SystemHeaders);
  }

  /** process_includes: `<System>` becomes five directives ending with the Mika
      runtime header and a blank line, `<Math>` math.h, `<Time>` time.h (in
      this order of priority), and any other line is copied. */
  function ProcessIncludes(line: string): (r: string)
    ensures Contains(line, "#include <System>") ==> r == Directives(SystemHeaders) + "\n"
    ensures (!Contains(line, "#include <System>") && Contains(line, "#include <Math>")) ==>
      r == Directives(["<math.h>"])
    ensures (!Contains(line, "#include <System>") && !Contains(line, "#include <Math>") &&
             Contains(line, "#include <Time>")) ==>
      r == Directives(["<time.h>"])
    ensures (!Contains(line, "#include <System>") && !Contains(line, "#include <Math>") &&
             !Contains(line, "#include <Time>")) ==>
      r == line
  {
    if Contains(line, "#include <System>") then
      SystemDirectives();
      Directive("<stdio.h>") + Directive("<stdlib.h>") + Directive("<string.h>") +
      Directive("<stdbool.h>") + Directive("\"/usr/local/include/mika/mika_std.h\"") + "\n"
    else if Contains(line, "#include <Math>") then Directive("<math.h>")
    else if Contains(line, "#include <Time>") then Directive("<time.h>")
    else line
  }

  /** The `<System>` expansion is five headers, the last of them Mika's own. */
  lemma SystemExpansionShape()
    ensures |SystemHeaders| == 5
    ensures SystemHeaders[4] == "\"/usr/local/include/mika/mika_std.h\""
    ensures Directives(SystemHeaders) ==
      Directives(SystemHeaders[..4]) + Directive("\"/usr/local/include/mika/mika_std.h\"")
  {
    assert SystemHeaders == SystemHeaders[..4] + [SystemHeaders[4]];
    DirectivesAppend(SystemHeaders[..4], SystemHeaders[4]);
  }

  /** process_print: the first "print(" becomes "printf(", so the line grows by
      exactly one character. */
  function ProcessPrint(line: string): (r: string)
    ensures ReplacesFirst(line, "print(", "printf(", r)
    ensures Contains(line, "print(") ==> |r| == |line| + 1
  {
    match Find(line, "print(")
    case None => line
    case Some(pos) =>
      var r := line[..pos] + "printf" + line[pos + 5..];
      assert line[pos..pos + 6] == "print(";
      assert line[pos + 5] == '(';
      assert r[pos..pos + 7] == "printf" + [line[pos + 5]];
      assert r[pos + 7..] == line[pos + 6..];
      r
  }

  /** process_return: the first "return 993" becomes "return 0", the rest of
      the line after the ten-character sentinel kept. */
  function ProcessReturn(line: string): (r: string)
    ensures ReplacesFirst(line, "return 993", "return 0", r)
    ensures Contains(line, "return 993") ==> |r| == |line| - 2
  {
    match Find(line, "return 993")
    case None => line
    case Some(pos) =>
      var after := pos + 10;
      var r := line[..pos] + "return 0" + (if after < |line| then line[after..] else "");
      assert r[pos + 8..] == line[pos + 10..];
      r
  }

  /** process_function_declaration: the first "function " becomes "int ". */
  function ProcessFunctionDeclaration(line: string): (r: string)
    ensures ReplacesFirst(line, "function ", "int ", r)
    ensures Contains(line, "function ") ==> |r| == |line| - 5
  {
    match Find(line, "function ")
    case None => line
    case Some(pos) =>
      var r := line[..pos] + "int " + line[pos + 9..];
      assert r[pos + 4..] == line[pos + 9..];
      r
  }

  /** process_variables: the first "var " becomes "int ". */
  function ProcessVariables(line: string): (r: string)
    ensures ReplacesFirst(line, "var ", "int ", r)
    ensures |r| == |line|
  {
    match Find(line, "var ")
    case None => line
    case Some(pos) =>
      var r := line[..pos] + "int " + line[pos + 4..];
      assert r[pos + 4..] == line[pos + 4..];
      r
  }

  /** process_input_function: `input()` is the runtime's own name; the line is
      copied whether or not it holds the call. */
  function ProcessInputFunction(line: string): (r: string)
    ensures r == line
  {
    if Contains(line, "input()") then line else line
  }

  /** process_power_function: `power(` is the runtime's own name; the line is
      copied whether or not it holds the call. */
  function ProcessPowerFunction(line: string): (r: string)
    ensures r == line
  {
    if Contains(line, "power(") then line else line
  }

  // ---------------------------------------------------------------------------
  // Dispatch
  // ---------------------------------------------------------------------------

  /** The if/else-if chain of the main loop: the first marker the line
      contains picks the one rewrite applied to it. */
  function Dispatch(line: string): string {
    if Contains(line, "#include") then ProcessIncludes(line)
    else if Contains(line, "print(") then ProcessPrint(line)
    else if Contains(line, "return 993") then ProcessReturn(line)
    else if Contains(line, "function ") then ProcessFunctionDeclaration(line)
    else if Contains(line, "var ") then ProcessVariables(line)
    else if Contains(line, "input()") then ProcessInputFunction(line)
    else if Contains(line, "power(") then ProcessPowerFunction(line)
    else line
  }

  datatype Rule = IncludeRule | PrintRule | ReturnRule | FunctionRule | VarRule | InputRule | PowerRule

  /** The pattern rules in their priority order: marker and rewrite. */
  const RuleTable: seq<(string, Rule)> := [
    ("#include", IncludeRule), ("print(", PrintRule), ("return 993", ReturnRule),
    ("function ", FunctionRule), ("var ", VarRule), ("input()", InputRule), ("power(", PowerRule)]

  function Apply(rule: Rule, line: string): string {
    match rule
    case IncludeRule => ProcessIncludes(line)
    case PrintRule => ProcessPrint(line)
    case ReturnRule => ProcessReturn(line)
    case FunctionRule => ProcessFunctionDeclaration(line)
    case VarRule => ProcessVariables(line)
    case InputRule => ProcessInputFunction(line)
    case PowerRule => ProcessPowerFunction(line)
  }

  /** The position in `table` of the first rule whose marker the line contains. */
  function FirstRule(line: string, table: seq<(string, Rule)>): (r: Option<nat>)
    ensures r.Some? ==> r.value < |table| && Contains(line, table[r.value].0)
    ensures r.Some? ==> forall j :: 0 <= j < r.value ==> !Contains(line, table[j].0)
    ensures r.None? ==> forall j :: 0 <= j < |table| ==> !Contains(line, table[j].0)
  {
    if table == [] then None
    else if Contains(line, table[0].0) then Some(0)
    else match FirstRule(line, table[1..])
      case None => None
      case Some(k) => Some(k + 1)
  }

  /** The dispatch chain is the table-driven first match: the rewrite of the
      first rule whose marker occurs, or the line itself when none does. */
  lemma DispatchIsFirstMatch(line: string)
    ensures Dispatch(line) == match FirstRule(line, RuleTable)
                              case None => line
                              case Some(i) => Apply(RuleTable[i].1, line)
  {
    var t := RuleTable;
    assert t[0].0 == "#include" && t[1].0 == "print(" && t[2].0 == "return 993";
    assert t[3].0 == "function " && t[4].0 == "var " && t[5].0 == "input()" && t[6].0 == "power(";
    match FirstRule(line, t)
    case None =>
    case Some(i) =>
      assert i < 7;
  }

  /** A line holding none of the markers, or whose first marker is `input()`
      or `power(`, is output verbatim. */
  lemma PassThrough(line: string)
    requires FirstRule(line, RuleTable).None? ||
             RuleTable[FirstRule(line, RuleTable).value].1 in {InputRule, PowerRule}
    ensures Dispatch(line) == line
  {
    DispatchIsFirstMatch(line);
  }

  /** "print(" and "var " cannot share a character: no suffix of one is a
      prefix of the other. */
  lemma MarkersDoNotOverlap(line: string, p: nat, q: nat)
    requires MatchAt(line, "print(", p) && MatchAt(line, "var ", q)
    ensures q + 4 <= p || p + 6 <= q
  {
    if p <= q < p + 6 {
      MatchAtChar(line, "print(", p, q - p);
      MatchAtChar(line, "var ", q, 0);
    } else if q < p < q + 4 {
      MatchAtChar(line, "var ", q, p - q);
      MatchAtChar(line, "print(", p, 0);
    }
  }

  /** One rewrite per line: when `print(` wins, a `var ` on the same line is
      not rewritten and is still present in the output. */
  lemma {:induction false} OnlyFirstRuleFires(line: string)
    requires !Contains(line, "#include") && Contains(line, "print(") && Contains(line, "var ")
    ensures Dispatch(line) == ProcessPrint(line)
    ensures Contains(Dispatch(line), "var ")
  {
    var r := ProcessPrint(line);
    var p := Find(line, "print(").value;
    var q := Find(line, "var ").value;
    MarkersDoNotOverlap(line, p, q);
    assert r[..p] == line[..p];
    assert r[p + 7..] == line[p + 6..];
    if q + 4 <= p {
      assert r[q..q + 4] == r[..p][q..q + 4] == line[..p][q..q + 4] == line[q..q + 4];
      assert MatchAt(r, "var ", q);
    } else if q >= p + 6 {
      assert r[q + 1..q + 5] == r[p + 7..][q - p - 6..q - p - 2] == line[p + 6..][q - p - 6..q - p - 2];
      assert r[q + 1..q + 5] == line[q..q + 4];
      assert MatchAt(r, "var ", q + 1);
    }
  }

  /** A marker whose first character does not occur in the line is absent. */
  lemma AbsentWithoutFirstChar(s: string, pat: string)
    requires |pat| > 0 && pat[0] !in s
    ensures !Contains(s, pat)
  {
  }

  /** Matching is on substrings, not on tokens: a return of 9930 also holds
      the sentinel and loses its digits but the last. */
  lemma SentinelMatchesInsideLongerNumber(r: string)
    requires r == "return 9930;\n"
    ensures Dispatch(r) == "return 00;\n"
  {
    assert MatchAt(r, "return 993", 0);
    FindIsFirst(r, "return 993", 0);
    AbsentWithoutFirstChar(r, "#include");
    AbsentWithoutFirstChar(r, "print(");
  }

  /** A marker one of whose characters does not occur in the line is absent. */
  lemma AbsentWithoutChar(s: string, pat: string, i: nat)
    requires i < |pat| && pat[i] !in s
    ensures !Contains(s, pat)
  {
    if Contains(s, pat) {
      MatchAtChar(s, pat, Find(s, pat).value, i);
    }
  }

  /** `var x = 5` becomes `int x = 5`. */
  lemma VarExample(v: string)
    requires v == "var x = 5\n"
    ensures Dispatch(v) == "int x = 5\n"
  {
    AbsentWithoutFirstChar(v, "#include");
    AbsentWithoutFirstChar(v, "print(");
    AbsentWithoutChar(v, "return 993", 2);
    AbsentWithoutChar(v, "function ", 1);
    assert MatchAt(v, "var ", 0);
    FindIsFirst(v, "var ", 0);
  }

  /** `print("hi")` becomes `printf("hi")`. */
  lemma PrintExample(p: string)
    requires p == "print(\"hi\")\n"
    ensures Dispatch(p) == "printf(\"hi\")\n"
  {
    AbsentWithoutFirstChar(p, "#include");
    assert MatchAt(p, "print(", 0);
    FindIsFirst(p, "print(", 0);
  }

  /** `function add(a, b) {` becomes `int add(a, b) {`. */
  lemma FunctionExample(f: string)
    requires f == "function add(a, b) {\n"
    ensures Dispatch(f) == "int add(a, b) {\n"
  {
    AbsentWithoutFirstChar(f, "#include");
    AbsentWithoutChar(f, "print(", 1);
    AbsentWithoutChar(f, "return 993", 1);
    assert MatchAt(f, "function ", 0);
    FindIsFirst(f, "function ", 0);
  }

  /** The exit-code sentinel: `return 993;` becomes `return 0;`. */
  lemma ReturnExample(r: string)
    requires r == "return 993;\n"
    ensures Dispatch(r) == "return 0;\n"
  {
    AbsentWithoutFirstChar(r, "#include");
    AbsentWithoutChar(r, "print(", 2);
    assert MatchAt(r, "return 993", 0);
    FindIsFirst(r, "return 993", 0);
  }
}
