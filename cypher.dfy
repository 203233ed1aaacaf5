/** `parse_cypher_string`: splits a Cypher seed script into executable
    statements, line by line. Comments from `//` on are dropped, a line ending
    in `;` closes a statement, `SET` lines are glued onto a pending `MERGE`, and
    `MERGE`/`CREATE`/`MATCH` lines start new statements. */
module Cypher {
  import opened Text

  /** A piece of statement text: non-empty, trimmed, and free of `//`. */
  predicate Fragment(s: string) {
    s != "" && Trimmed(s) && NoDoubleSlash(s)
  }

  /** A line after comment removal and `rstrip()`. */
  function Cleaned(line: string): string {
    RStrip(StripComment(line))
  }

  predicate IsStatementStart(l: string) {
    StartsWithKeyword(l, "MERGE") || StartsWithKeyword(l, "CREATE") || StartsWithKeyword(l, "MATCH")
  }

  /** What the loop body makes of a line, in the order it tests: blank after
      comment removal, ending in `;` (with the trimmed text before it),
      starting with `SET`, starting a statement, or anything else. */
  datatype LineKind =
    | Blank
    | Closing(content: string)
    | SetLine(text: string)
    | StartLine(text: string)
    | PlainLine(text: string)

  /** The text a kind carries is a fragment (a closing line's may be empty). */
  predicate WellFormed(k: LineKind) {
    match k
    case Blank => true
    case Closing(content) => content == "" || Fragment(content)
    case SetLine(text) => Fragment(text)
    case StartLine(text) => Fragment(text)
    case PlainLine(text) => Fragment(text)
  }

  /** The kind of a cleaned line. */
  function KindOf(l: string): LineKind {
    if Strip(l) == "" then Blank
    else if l[|l| - 1] == ';' then Closing(Strip(l[..|l| - 1]))
    else TextKind(l, Strip(l))
  }

  /** The kind of a non-blank line not ending in `;`, carrying its stripped `text`. */
  function TextKind(l: string, text: string): LineKind {
    if StartsWithKeyword(l, "SET") then SetLine(text)
    else if IsStatementStart(l) then StartLine(text)
    else PlainLine(text)
  }

  function Classify(line: string): LineKind {
    KindOf(Cleaned(line))
  }

  /** The loop state. Each emitted statement is kept as the list of line
      fragments it was joined from; `current` is `current_statement`. */
  datatype Splitter = Splitter(done: seq<seq<string>>, current: seq<string>)

  predicate Valid(st: Splitter) {
    (forall g :: g in st.done ==> g != [] && forall p :: p in g ==> Fragment(p))
    && (forall p :: p in st.current ==> Fragment(p))
  }

  /** The pending statement starts with `MERGE`. The source tests the joined
      text; on fragments that is the same as testing the first one
      (`PendingKeyword`). */
  predicate PendingMerge(st: Splitter) {
    st.current != [] && StartsWithKeyword(st.current[0], "MERGE")
  }

  /** Emit the pending statement as a group of its own and clear it. */
  function Flush(st: Splitter): Splitter {
    if st.current == [] then st else Splitter(st.done + [st.current], [])
  }

  /** One iteration of the line loop, for a line of kind `k`. */
  function Step(st: Splitter, k: LineKind): Splitter {
    match k
    case Blank =>
      if PendingMerge(st) then st else Flush(st)
    case Closing(content) =>
      Flush(st.(current := st.current + (if content != "" then [content] else [])))
    case SetLine(text) =>
      if st.current == [] || PendingMerge(st) then st.(current := st.current + [text])
      else Splitter(st.done + [st.current], [text])
    case StartLine(text) =>
      Splitter(Flush(st).done, [text])
    case PlainLine(text) =>
      st.(current := st.current + [text])
  }

  function Run(lines: seq<string>): Splitter {
    if lines == [] then Splitter([], [])
    else Step(Run(lines[..|lines| - 1]), Classify(lines[|lines| - 1]))
  }

  /** The statement texts, as the source computes them from each group. */
  function Render(done: seq<seq<string>>): seq<string> {
    seq(|done|, i requires 0 <= i < |done| => Strip(Join(done[i], " ")))
  }

  /** The groups of fragments the emitted statements are made of. */
  function Groups(lines: seq<string>): seq<seq<string>> {
    Flush(Run(lines)).done
  }

  function ParseLines(lines: seq<string>): seq<string> {
    Render(Groups(lines))
  }

  function ParseCypher(content: string): seq<string> {
    ParseLines(Split(content, '\n'))
  }

  // ---------------------------------------------------------------------------
  // Fragments
  // ---------------------------------------------------------------------------

  lemma CleanedNoDoubleSlash(line: string)
    ensures NoDoubleSlash(Cleaned(line))
  {
    NoDoubleSlashInfix(StripComment(line), 0, |Cleaned(line)|);
  }

  lemma StripNoDoubleSlash(s: string)
    requires NoDoubleSlash(s)
    ensures NoDoubleSlash(Strip(s))
  {
    NoDoubleSlashAt(s, StripStart(s), Strip(s));
  }

  /** The kind of a `//`-free line carries fragments only. */
  lemma KindOfWellFormed(l: string)
    requires NoDoubleSlash(l)
    ensures WellFormed(KindOf(l))
  {
    var k := KindOf(l);
    if Strip(l) == "" {
      assert k == Blank;
    } else if l[|l| - 1] == ';' {
      ClosingFragment(l);
      CarriedWellFormed(k, Strip(l[..|l| - 1]));
    } else {
      var text := Strip(l);
      StrippedFragment(l);
      assert k == TextKind(l, text);
      TextKindCarries(l, text);
      CarriedWellFormed(k, text);
    }
  }

  lemma TextKindCarries(l: string, text: string)
    ensures TextKind(l, text) in {SetLine(text), StartLine(text), PlainLine(text)}
  {
  }

  /** A closing kind carrying a fragment or nothing, or another kind carrying
      a fragment, is well formed. */
  lemma CarriedWellFormed(k: LineKind, text: string)
    requires text == "" || Fragment(text)
    requires k == Closing(text) || (text != "" && k in {SetLine(text), StartLine(text), PlainLine(text)})
    ensures WellFormed(k)
  {
  }

  /** What is left of a `//`-free line before its last character, stripped, is a
      fragment or nothing. */
  lemma ClosingFragment(l: string)
    requires NoDoubleSlash(l) && l != ""
    ensures Strip(l[..|l| - 1]) == "" || Fragment(Strip(l[..|l| - 1]))
  {
    NoDoubleSlashPrefix(l, |l| - 1);
    StrippedFragment(l[..|l| - 1]);
  }

  /** Stripping a `//`-free string leaves a fragment or nothing. */
  lemma StrippedFragment(s: string)
    requires NoDoubleSlash(s)
    ensures Strip(s) == "" || Fragment(Strip(s))
  {
    StripNoDoubleSlash(s);
  }

  lemma ClassifyWellFormed(line: string)
    ensures WellFormed(Classify(line))
  {
    CleanedNoDoubleSlash(line);
    KindOfWellFormed(Cleaned(line));
  }

  /** Joining fragments with single spaces gives a fragment that begins with
      the first one, followed by a space when there are more. */
  lemma {:induction false} JoinFragments(parts: seq<string>)
    requires parts != [] && forall p :: p in parts ==> Fragment(p)
    ensures Fragment(Join(parts, " "))
    ensures |parts[0]| <= |Join(parts, " ")| && Join(parts, " ")[..|parts[0]|] == parts[0]
    ensures |parts| > 1 ==> |parts[0]| < |Join(parts, " ")| && Join(parts, " ")[|parts[0]|] == ' '
  {
    assert parts[0] in parts;
    if |parts| > 1 {
      JoinFragments(parts[1..]);
      var rest := Join(parts[1..], " ");
      NoDoubleSlashGlue(parts[0], rest);
      var j := parts[0] + " " + rest;
      assert j[..|parts[0]|] == parts[0];
      assert j[|j| - 1] == rest[|rest| - 1];
    }
  }

  /** The joined fragments are already stripped. */
  lemma JoinStripped(parts: seq<string>)
    requires parts != [] && forall p :: p in parts ==> Fragment(p)
    ensures Strip(Join(parts, " ")) == Join(parts, " ") != ""
  {
    JoinFragments(parts);
    StripTrimmed(Join(parts, " "));
  }

  /** The pending statement starts with an (upper-case) keyword exactly when
      its first fragment does. */
  lemma PendingKeyword(parts: seq<string>, kw: string)
    requires parts != [] && forall p :: p in parts ==> Fragment(p)
    requires forall i :: 0 <= i < |kw| ==> 'A' <= kw[i] <= 'Z'
    ensures StartsWithKeyword(Join(parts, " "), kw) <==> StartsWithKeyword(parts[0], kw)
  {
    JoinFragments(parts);
    var j := Join(parts, " ");
    assert LStrip(j) == j;
    assert LStrip(parts[0]) == parts[0];
    if |parts[0]| >= |kw| {
      assert j[..|kw|] == parts[0][..|kw|];
    } else if |parts| > 1 && |kw| <= |j| {
      var k := |parts[0]|;
      assert Lower(j[..|kw|])[k] == ' ';
      assert Lower(kw)[k] != ' ';
    }
  }

  lemma PendingMergeJoined(st: Splitter)
    requires Valid(st)
    ensures PendingMerge(st) <==> st.current != [] && StartsWithKeyword(Join(st.current, " "), "MERGE")
  {
    if st.current != [] {
      PendingKeyword(st.current, "MERGE");
    }
  }

  // ---------------------------------------------------------------------------
  // The loop as written
  // ---------------------------------------------------------------------------

  lemma RenderAppend(done: seq<seq<string>>, g: seq<string>)
    ensures Render(done + [g]) == Render(done) + [Strip(Join(g, " "))]
  {
  }

  lemma RunStep(lines: seq<string>, i: nat)
    requires i < |lines|
    ensures Run(lines[..i + 1]) == Step(Run(lines[..i]), Classify(lines[i]))
  {
    assert lines[..i + 1][..i] == lines[..i];
  }

  /** `statement = " ".join(current_statement).strip()`, appended when non-empty. */
  method EmitPending(statements: seq<string>, current: seq<string>, ghost done: seq<seq<string>>)
    returns (result: seq<string>)
    requires statements == Render(done)
    requires forall p :: p in current ==> Fragment(p)
    ensures result == Render(Flush(Splitter(done, current)).done)
  {
    result := statements;
    if current != [] {
      var statement := Strip(Join(current, " "));
      JoinStripped(current);
      if statement != "" {
        RenderAppend(done, current);
        result := statements + [statement];
      }
    }
  }

  /** A blank line: a pending statement that does not start with `MERGE` is emitted. */
  method ConsumeBlank(statements: seq<string>, current: seq<string>, ghost st: Splitter)
    returns (statements': seq<string>, current': seq<string>)
    requires statements == Render(st.done) && current == st.current && Valid(st)
    ensures var next := Step(st, Blank);
      statements' == Render(next.done) && current' == next.current
  {
    PendingMergeJoined(st);
    statements', current' := statements, current;
    if current != [] {
      var currentJoined := Join(current, " ");
      if !StartsWithKeyword(currentJoined, "MERGE") {
        statements' := EmitPending(statements, current, st.done);
        current' := [];
      }
    }
  }

  /** A line ending in `;`, with `lineContent` the trimmed text before it. */
  method ConsumeClosing(statements: seq<string>, current: seq<string>, lineContent: string, ghost st: Splitter)
    returns (statements': seq<string>, current': seq<string>)
    requires statements == Render(st.done) && current == st.current && Valid(st)
    requires WellFormed(Closing(lineContent))
    ensures var next := Step(st, Closing(lineContent));
      statements' == Render(next.done) && current' == next.current
  {
    ghost var pending := Splitter(st.done, st.current + (if lineContent != "" then [lineContent] else []));
    statements', current' := statements, current;
    if lineContent != "" {
      current' := current' + [lineContent];
    }
    assert current' == pending.current;
    if current' != [] {
      statements' := EmitPending(statements, current', st.done);
      current' := [];
    }
  }

  /** A `SET` line while a statement is pending. */
  method ConsumeSet(statements: seq<string>, current: seq<string>, text: string, ghost st: Splitter)
    returns (statements': seq<string>, current': seq<string>)
    requires statements == Render(st.done) && current == st.current && Valid(st) && current != []
    ensures var next := Step(st, SetLine(text));
      statements' == Render(next.done) && current' == next.current
  {
    PendingMergeJoined(st);
    statements', current' := statements, current;
    var currentJoined := Join(current, " ");
    if StartsWithKeyword(currentJoined, "MERGE") {
      current' := current + [text];
    } else {
      statements' := EmitPending(statements, current, st.done);
      current' := [text];
    }
  }

  /** The body of the line loop, once the comment and the trailing whitespace are gone. */
  method ConsumeCleaned(statements: seq<string>, current: seq<string>, line: string, ghost st: Splitter)
    returns (statements': seq<string>, current': seq<string>)
    requires statements == Render(st.done) && current == st.current && Valid(st)
    requires NoDoubleSlash(line)
    ensures var next := Step(st, KindOf(line));
      statements' == Render(next.done) && current' == next.current
  {
    KindOfWellFormed(line);
    if Strip(line) == "" {
      statements', current' := ConsumeBlank(statements, current, st);
      return;
    }
    if line[|line| - 1] == ';' {
      var lineContent := Strip(line[..|line| - 1]);
      statements', current' := ConsumeClosing(statements, current, lineContent, st);
    } else {
      var isMerge := StartsWithKeyword(line, "MERGE");
      var isSet := StartsWithKeyword(line, "SET");
      var isOther := StartsWithKeyword(line, "CREATE") || StartsWithKeyword(line, "MATCH");
      if current != [] && isSet {
        statements', current' := ConsumeSet(statements, current, Strip(line), st);
      } else if current != [] && (isMerge || isOther) {
        assert KindOf(line) == StartLine(Strip(line));
        statements' := EmitPending(statements, current, st.done);
        current' := [Strip(line)];
      } else {
        statements', current' := statements, current + [Strip(line)];
      }
    }
  }

  /** The body of the line loop: one line's effect on `statements` and `current_statement`. */
  method ConsumeLine(statements: seq<string>, current: seq<string>, rawLine: string, ghost st: Splitter)
    returns (statements': seq<string>, current': seq<string>)
    requires statements == Render(st.done) && current == st.current && Valid(st)
    ensures var next := Step(st, Classify(rawLine));
      statements' == Render(next.done) && current' == next.current
  {
    CleanedNoDoubleSlash(rawLine);
    var line := StripComment(rawLine);
    line := RStrip(line);
    statements', current' := ConsumeCleaned(statements, current, line, st);
  }

  /** The loop of `parse_cypher_string`, over the lines of the input. */
  method ParseCypherString(content: string) returns (statements: seq<string>)
    ensures statements == ParseCypher(content)
  {
    var lines := Split(content, '\n');
    statements := [];
    var current: seq<string> := [];
    for i := 0 to |lines|
      invariant Run(lines[..i]).current == current
      invariant Render(Run(lines[..i]).done) == statements
    {
      RunStep(lines, i);
      RunValid(lines[..i]);
      statements, current := ConsumeLine(statements, current, lines[i], Run(lines[..i]));
    }
    assert lines[..|lines|] == lines;
    RunValid(lines);
    if current != [] {
      statements := EmitPending(statements, current, Run(lines).done);
    }
  }

  // ---------------------------------------------------------------------------
  // What the loop keeps
  // ---------------------------------------------------------------------------

  /** The fragment a line of kind `k` contributes to the pending statement, if any. */
  function Contribution(k: LineKind): seq<string> {
    match k
    case Blank => []
    case Closing(content) => if content != "" then [content] else []
    case SetLine(text) => [text]
    case StartLine(text) => [text]
    case PlainLine(text) => [text]
  }

  /** All line fragments of the input, in order. */
  function Fragments(lines: seq<string>): seq<string> {
    if lines == [] then []
    else Fragments(lines[..|lines| - 1]) + Contribution(Classify(lines[|lines| - 1]))
  }

  /** The groups laid end to end. */
  function Flatten(done: seq<seq<string>>): seq<string> {
    if done == [] then [] else Flatten(done[..|done| - 1]) + done[|done| - 1]
  }

  lemma FlattenAppend(done: seq<seq<string>>, g: seq<string>)
    ensures Flatten(done + [g]) == Flatten(done) + g
  {
    assert (done + [g])[..|done|] == done;
  }

  /** Flushing a valid state emits the pending fragments as one group and
      loses none. */
  lemma FlushValid(st: Splitter)
    requires Valid(st)
    ensures Valid(Flush(st)) && Flush(st).current == []
    ensures Flatten(Flush(st).done) == Flatten(st.done) + st.current
  {
    if st.current != [] {
      FlattenAppend(st.done, st.current);
    } else {
      assert st.current + [] == st.current;
    }
  }

  /** The conclusion of `StepValid` for one kind. */
  predicate Conserves(st: Splitter, k: LineKind) {
    Valid(Step(st, k))
    && Flatten(Step(st, k).done) + Step(st, k).current == Flatten(st.done) + st.current + Contribution(k)
  }

  lemma StepValidClosing(st: Splitter, content: string)
    requires Valid(st) && WellFormed(Closing(content))
    ensures Conserves(st, Closing(content))
  {
    var pending := st.(current := st.current + Contribution(Closing(content)));
    FlushValid(pending);
    assert Flatten(Flush(pending).done) + [] == Flatten(Flush(pending).done);
  }

  lemma StepValidSet(st: Splitter, text: string)
    requires Valid(st) && WellFormed(SetLine(text))
    ensures Conserves(st, SetLine(text))
  {
    if !(st.current == [] || PendingMerge(st)) {
      FlattenAppend(st.done, st.current);
      assert Flatten(st.done + [st.current]) + [text] == Flatten(st.done) + st.current + [text];
    }
  }

  /** Each step keeps the state valid and loses no fragment: the groups and
      the pending fragments, laid end to end, grow by the line's fragment. */
  lemma StepValid(st: Splitter, k: LineKind)
    requires Valid(st) && WellFormed(k)
    ensures Valid(Step(st, k))
    ensures Flatten(Step(st, k).done) + Step(st, k).current == Flatten(st.done) + st.current + Contribution(k)
  {
    match k
    case Blank =>
      FlushValid(st);
    case Closing(content) =>
      StepValidClosing(st, content);
    case SetLine(text) =>
      StepValidSet(st, text);
    case StartLine(text) =>
      FlushValid(st);
    case PlainLine(text) =>
  }

  /** The loop keeps its state valid and its fragments in input order. */
  lemma {:induction false} RunValid(lines: seq<string>)
    ensures Valid(Run(lines))
    ensures Flatten(Run(lines).done) + Run(lines).current == Fragments(lines)
  {
    if lines != [] {
      RunValid(lines[..|lines| - 1]);
      ClassifyWellFormed(lines[|lines| - 1]);
      StepValid(Run(lines[..|lines| - 1]), Classify(lines[|lines| - 1]));
    }
  }

  /** What `parse_cypher_string` returns: one statement per group, each the
      group's fragments joined by single spaces; every statement non-empty,
      trimmed and free of `//`; and the groups laid end to end are exactly the
      fragments of the input lines, in order. */
  lemma ParseLinesShape(lines: seq<string>)
    ensures |ParseLines(lines)| == |Groups(lines)|
    ensures forall i :: 0 <= i < |Groups(lines)| ==>
      Groups(lines)[i] != [] && ParseLines(lines)[i] == Join(Groups(lines)[i], " ")
    ensures forall i :: 0 <= i < |ParseLines(lines)| ==> Fragment(ParseLines(lines)[i])
    ensures Flatten(Groups(lines)) == Fragments(lines)
  {
    RunValid(lines);
    FlushValid(Run(lines));
    RenderShape(Groups(lines));
  }

  /** Rendering groups of fragments joins each group into one fragment. */
  lemma RenderShape(gs: seq<seq<string>>)
    requires Valid(Splitter(gs, []))
    ensures |Render(gs)| == |gs|
    ensures forall i :: 0 <= i < |gs| ==>
      gs[i] != [] && Render(gs)[i] == Join(gs[i], " ") && Fragment(Render(gs)[i])
  {
    forall i | 0 <= i < |gs|
      ensures gs[i] != [] && Render(gs)[i] == Join(gs[i], " ") && Fragment(Render(gs)[i])
    {
      assert gs[i] in gs;
      JoinFragments(gs[i]);
      JoinStripped(gs[i]);
    }
  }

  /** The same, for the whole input text split at newlines. */
  lemma ParseCypherShape(content: string)
    ensures forall i :: 0 <= i < |ParseCypher(content)| ==> Fragment(ParseCypher(content)[i])
    ensures Flatten(Groups(Split(content, '\n'))) == Fragments(Split(content, '\n'))
  {
    ParseLinesShape(Split(content, '\n'));
  }

  /** A pending statement at the end of the input is emitted. */
  lemma EndOfInput(lines: seq<string>)
    ensures var st := Run(lines);
      Groups(lines) == st.done + (if st.current == [] then [] else [st.current])
  {
  }

  // ---------------------------------------------------------------------------
  // The individual rules
  // ---------------------------------------------------------------------------

  lemma {:induction false} CommentCut(code: string, tail: string)
    requires NoDoubleSlash(code) && (code == [] || code[|code| - 1] != '/')
    ensures StripComment(code + "//" + tail) == code
  {
    var s := code + "//" + tail;
    if code != [] {
      var rest := code[1..];
      NoDoubleSlashInfix(code, 1, |code|);
      assert s[1..] == rest + "//" + tail;
      if |code| == 1 {
        assert s[1] == '/';
      } else {
        assert !SlashPairAt(code, 0);
        assert rest[|rest| - 1] == code[|code| - 1];
      }
      assert code[1..|code|] == rest;
      CommentCut(rest, tail);
    }
  }

  /** Everything from the first `//` on is ignored, even inside a quoted
      string: the line is treated exactly as the text before it. */
  lemma CommentIgnored(code: string, tail: string)
    requires NoDoubleSlash(code) && (code == [] || code[|code| - 1] != '/')
    ensures Classify(code + "//" + tail) == Classify(code)
  {
    CommentCut(code, tail);
  }

  /** A line that is blank once the comment is gone. */
  lemma ClassifyBlank(line: string)
    requires Strip(Cleaned(line)) == ""
    ensures Classify(line) == Blank
  {
  }

  /** A blank line leaves a pending `MERGE` statement open and otherwise
      emits the pending statement. */
  lemma BlankStep(st: Splitter)
    requires Valid(st)
    ensures st.current != [] && StartsWithKeyword(Join(st.current, " "), "MERGE") ==>
      Step(st, Blank) == st
    ensures !(st.current != [] && StartsWithKeyword(Join(st.current, " "), "MERGE")) ==>
      Step(st, Blank) == Splitter(st.done + (if st.current == [] then [] else [st.current]), [])
  {
    PendingMergeJoined(st);
  }

  /** A line ending in `;` closes the statement, without the `;`. */
  lemma ClassifyClosing(line: string)
    requires var l := Cleaned(line); Strip(l) != "" && l[|l| - 1] == ';'
    ensures var l := Cleaned(line); Classify(line) == Closing(Strip(l[..|l| - 1]))
  {
  }

  /** A closing line's text joins the pending fragments, they form one
      emitted group, and nothing is pending. */
  lemma ClosingStep(st: Splitter, content: string)
    ensures Step(st, Closing(content)).current == []
    ensures var g := st.current + (if content != "" then [content] else []);
      Step(st, Closing(content)).done == st.done + (if g == [] then [] else [g])
  {
  }

  /** `SET` and the statement keywords exclude each other. */
  lemma KeywordsExclusive(l: string)
    requires StartsWithKeyword(l, "SET")
    ensures !IsStatementStart(l)
  {
    KeywordInitial(l, "SET");
    KeywordInitial(l, "MERGE");
    KeywordInitial(l, "CREATE");
    KeywordInitial(l, "MATCH");
  }

  lemma KindOfSet(l: string)
    requires Strip(l) != "" && l[|l| - 1] != ';' && StartsWithKeyword(l, "SET")
    ensures KindOf(l) == SetLine(Strip(l))
  {
  }

  /** A line starting with `SET` (any case, after whitespace). */
  lemma ClassifySet(line: string)
    requires var l := Cleaned(line);
      Strip(l) != "" && l[|l| - 1] != ';' && StartsWithKeyword(l, "SET")
    ensures Classify(line) == SetLine(Strip(Cleaned(line)))
  {
    KindOfSet(Cleaned(line));
  }

  /** A `SET` line joins a pending `MERGE` statement; after any other pending
      statement it emits that statement and starts a new one. */
  lemma SetStep(st: Splitter, text: string)
    requires Valid(st) && st.current != []
    ensures StartsWithKeyword(Join(st.current, " "), "MERGE") ==>
      Step(st, SetLine(text)) == Splitter(st.done, st.current + [text])
    ensures !StartsWithKeyword(Join(st.current, " "), "MERGE") ==>
      Step(st, SetLine(text)) == Splitter(st.done + [st.current], [text])
  {
    PendingMergeJoined(st);
  }

  /** A line starting with `MERGE`, `CREATE` or `MATCH`. */
  lemma ClassifyStart(line: string)
    requires var l := Cleaned(line);
      Strip(l) != "" && l[|l| - 1] != ';' && IsStatementStart(l)
    ensures Classify(line) == StartLine(Strip(Cleaned(line)))
  {
    var l := Cleaned(line);
    if StartsWithKeyword(l, "SET") {
      KeywordsExclusive(l);
    }
  }

  /** A statement start emits any pending statement and starts a new one. */
  lemma StartStep(st: Splitter, text: string)
    ensures Step(st, StartLine(text))
      == Splitter(st.done + (if st.current == [] then [] else [st.current]), [text])
  {
  }

  /** A string that begins with the keyword itself starts with it. */
  lemma KeywordPrefix(s: string, kw: string)
    requires |kw| <= |s| && s[..|kw|] == kw && (s == [] || !IsSpace(s[0]))
    ensures StartsWithKeyword(s, kw)
  {
    assert LStrip(s) == s;
  }

  /** A `SET` line followed by `//` and anything at all is the `SET` line
      without what follows. */
  lemma CommentedSetLine(code: string, tail: string)
    requires NoDoubleSlash(code) && Fragment(code)
    requires code[|code| - 1] != '/' && code[|code| - 1] != ';'
    requires |code| >= 3 && code[..3] == "SET"
    ensures Classify(code + "//" + tail) == SetLine(code)
  {
    CommentCut(code, tail);
    assert RStrip(code) == code;
    StripTrimmed(code);
    KeywordPrefix(code, "SET");
    KindOfSet(code);
  }

  /** The seed line for the UPS carrier loses its URL: the comment rule cuts
      the quoted `https://www.ups.com` after `https:`, and what is left is a
      `SET` line. */
  lemma UrlTruncated()
    ensures Classify("SET ups.website = 'https://www.ups.com'") == SetLine("SET ups.website = 'https:")
  {
    var code := "SET ups.website = 'https:";
    var tail := "www.ups.com'";
    assert code + "//" + tail == "SET ups.website = 'https://www.ups.com'";
    assert Fragment(code);
    CommentedSetLine(code, tail);
  }

  /** The UPS carrier's three seed lines form one statement: the two `SET`
      lines are glued onto the `MERGE`, and the website is cut after `https:`. */
  lemma UrlTruncatedStatement(merge: string, code: string, web: string)
    requires merge == "MERGE (ups:Carrier {name: \"UPS\"})" && code == "SET ups.code = \"UPS\""
    requires web == "SET ups.website = 'https://www.ups.com'"
    ensures ParseLines([merge, code, web]) == [merge + " " + code + " " + "SET ups.website = 'https:"]
  {
    UpsMergeLine(merge);
    UpsCodeLine(code);
    var cut := UpsWebLine(web);
    MergeWithTwoSets(merge, code, web, merge, code, cut);
  }

  lemma UpsWebLine(web: string) returns (cut: string)
    requires web == "SET ups.website = 'https://www.ups.com'"
    ensures cut == "SET ups.website = 'https:"
    ensures Classify(web) == SetLine(cut) && cut != "" && !IsSpace(cut[|cut| - 1])
  {
    cut := "SET ups.website = 'https:";
    UrlTruncated();
    assert cut[|cut| - 1] == ':';
  }

  lemma UpsMergeLine(merge: string)
    requires merge == "MERGE (ups:Carrier {name: \"UPS\"})"
    ensures Classify(merge) == StartLine(merge) && StartsWithKeyword(merge, "MERGE")
    ensures merge != "" && !IsSpace(merge[0])
  {
    assert Fragment(merge);
    SeedLine(merge, "MERGE");
    ClassifyStart(merge);
  }

  lemma UpsCodeLine(code: string)
    requires code == "SET ups.code = \"UPS\""
    ensures Classify(code) == SetLine(code)
  {
    assert Fragment(code);
    SeedLine(code, "SET");
    ClassifySet(code);
  }

  /** A `MERGE` line followed by two `SET` lines is one statement, the three
      texts joined by single spaces. */
  lemma MergeWithTwoSets(l0: string, l1: string, l2: string, t0: string, t1: string, t2: string)
    requires Classify(l0) == StartLine(t0) && StartsWithKeyword(t0, "MERGE")
    requires Classify(l1) == SetLine(t1) && Classify(l2) == SetLine(t2)
    requires t0 != "" && !IsSpace(t0[0]) && t2 != "" && !IsSpace(t2[|t2| - 1])
    ensures ParseLines([l0, l1, l2]) == [t0 + " " + t1 + " " + t2]
  {
    RunMergeWithTwoSets(l0, l1, l2, t0, t1, t2);
    ParseOneGroup([l0, l1, l2], t0, t1, t2);
  }

  lemma ParseOneGroup(lines: seq<string>, t0: string, t1: string, t2: string)
    requires Run(lines) == Splitter([], [t0, t1, t2])
    requires t0 != "" && !IsSpace(t0[0]) && t2 != "" && !IsSpace(t2[|t2| - 1])
    ensures ParseLines(lines) == [t0 + " " + t1 + " " + t2]
  {
    assert Groups(lines) == [[t0, t1, t2]];
    RenderThree(t0, t1, t2);
  }

  lemma RenderThree(t0: string, t1: string, t2: string)
    requires t0 != "" && !IsSpace(t0[0]) && t2 != "" && !IsSpace(t2[|t2| - 1])
    ensures Render([[t0, t1, t2]]) == [t0 + " " + t1 + " " + t2]
  {
    var s := t0 + " " + t1 + " " + t2;
    JoinThree(t0, t1, t2, " ");
    assert s[0] == t0[0] && s[|s| - 1] == t2[|t2| - 1];
    StripTrimmed(s);
  }

  lemma RunMergeWithTwoSets(l0: string, l1: string, l2: string, t0: string, t1: string, t2: string)
    requires Classify(l0) == StartLine(t0) && StartsWithKeyword(t0, "MERGE")
    requires Classify(l1) == SetLine(t1) && Classify(l2) == SetLine(t2)
    ensures Run([l0, l1, l2]) == Splitter([], [t0, t1, t2])
  {
    SnocThree(l0, l1, l2);
    RunSnoc([], l0, StartLine(t0));
    RunSnoc([l0], l1, SetLine(t1));
    RunSnoc([l0, l1], l2, SetLine(t2));
    StepsMergeWithTwoSets(t0, t1, t2);
  }

  /** The three steps a MERGE line and two SET lines take. */
  lemma StepsMergeWithTwoSets(t0: string, t1: string, t2: string)
    requires StartsWithKeyword(t0, "MERGE")
    ensures Step(Step(Step(Splitter([], []), StartLine(t0)), SetLine(t1)), SetLine(t2)) == Splitter([], [t0, t1, t2])
  {
    var st := Step(Splitter([], []), StartLine(t0));
    assert st == Splitter([], [t0]) && PendingMerge(st);
    assert Step(st, SetLine(t1)) == Splitter([], [t0, t1]);
  }

  lemma SnocThree(l0: string, l1: string, l2: string)
    ensures [] + [l0] == [l0] && [l0] + [l1] == [l0, l1] && [l0, l1] + [l2] == [l0, l1, l2]
  {
  }

  /** `Run` consumes one more line, of kind `k`, by one more step. */
  lemma RunSnoc(lines: seq<string>, l: string, k: LineKind)
    requires Classify(l) == k
    ensures Run(lines + [l]) == Step(Run(lines), k)
  {
    assert (lines + [l])[..|lines|] == lines;
  }

  lemma JoinThree(a: string, b: string, c: string, sep: string)
    ensures Join([a, b, c], sep) == a + sep + b + sep + c
  {
    assert [a, b] + [c] == [a, b, c] && [a] + [b] == [a, b];
    JoinAppend([a], b, sep);
    JoinAppend([a, b], c, sep);
  }

  /** A seed line without a comment that begins with keyword `kw`: cleaning
      leaves it unchanged, and it starts with `kw`. */
  lemma SeedLine(line: string, kw: string)
    requires Fragment(line) && line[|line| - 1] != ';'
    requires |kw| <= |line| && line[..|kw|] == kw
    ensures Cleaned(line) == line && Strip(line) == line && StartsWithKeyword(line, kw)
  {
    assert RStrip(line) == line;
    StripTrimmed(line);
    KeywordPrefix(line, kw);
  }
}
