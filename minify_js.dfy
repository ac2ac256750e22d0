/** The JavaScript minifier of the asset build (`minifyJs`): a one-pass
    character scanner that copies string literals verbatim, drops `//` and
    block comments and squeezes whitespace.

    `Run` is the scanner as a function of its state; `Minify` is the loop as
    the build script writes it, proved to compute `Run`. The lemmas after it
    say what `Run` does to each kind of segment of the input. */
module MinifyJs {
  import opened Common

  predicate IsWord(c: char) {
    ('a' <= c <= 'z') || ('A' <= c <= 'Z') || ('0' <= c <= '9') || c == '_'
  }

  /** `[\w$\)]`: a character after which a space may be needed. */
  predicate JoinsBefore(c: char) {
    IsWord(c) || c == '$' || c == ')'
  }

  /** `[\w$(\[{\-]`: a character before which a space may be needed. */
  predicate JoinsAfter(c: char) {
    IsWord(c) || c == '$' || c == '(' || c == '[' || c == '{' || c == '-'
  }

  predicate IsQuote(c: char) {
    c == '"' || c == '\'' || c == '`'
  }

  predicate EndsWith(s: string, c: char) {
    |s| > 0 && s[|s| - 1] == c
  }

  /** Which of the scanner's flags is set. */
  datatype Mode = Code | Str(quote: char, escape: bool) | LineComment | BlockComment

  /** The scanner's state between two iterations: the output so far, the
      mode, and the last character the default branch copied. */
  datatype Scan = Scan(out: string, mode: Mode, lastNonSpace: Option<char>)

  const Start := Scan("", Code, None)

  /** Whether a whitespace character at `i` leaves a single space. */
  predicate KeepsSpace(code: string, i: nat, st: Scan)
    requires i < |code|
  {
    && st.lastNonSpace.Some? && JoinsBefore(st.lastNonSpace.value)
    && i + 1 < |code| && JoinsAfter(code[i + 1])
    && !EndsWith(st.out, ' ')
  }

  /** One iteration of the scanner on `code[i]`: the new state and the index
      the loop resumes at (the two-character comment delimiters consume two). */
  function Step(code: string, i: nat, st: Scan): (r: (Scan, nat))
    requires i < |code|
    ensures i < r.1 <= |code|
    ensures |r.0.out| <= |st.out| + (r.1 - i)
  {
    var c := code[i];
    match st.mode
    case LineComment =>
      if c == '\n' then
        (st.(mode := Code, out := if EndsWith(st.out, '\n') then st.out else st.out + "\n"), i + 1)
      else (st, i + 1)
    case BlockComment =>
      if c == '*' && i + 1 < |code| && code[i + 1] == '/' then (st.(mode := Code), i + 2)
      else (st, i + 1)
    case Str(q, esc) =>
      if esc then (st.(out := st.out + [c], mode := Str(q, false)), i + 1)
      else if c == '\\' then (st.(out := st.out + [c], mode := Str(q, true)), i + 1)
      else if c == q then (st.(out := st.out + [c], mode := Code), i + 1)
      else (st.(out := st.out + [c]), i + 1)
    case Code =>
      if IsQuote(c) then (st.(out := st.out + [c], mode := Str(c, false)), i + 1)
      else if c == '/' && i + 1 < |code| && code[i + 1] == '/' then (st.(mode := LineComment), i + 2)
      else if c == '/' && i + 1 < |code| && code[i + 1] == '*' then (st.(mode := BlockComment), i + 2)
      else if IsSpace(c) then
        (if KeepsSpace(code, i, st) then st.(out := st.out + " ") else st, i + 1)
      else (st.(out := st.out + [c], lastNonSpace := Some(c)), i + 1)
  }

  /** The output of the scanner started at `i` in state `st`. */
  function Run(code: string, i: nat, st: Scan): string
    requires i <= |code|
    decreases |code| - i
  {
    if i == |code| then st.out
    else
      var next := Step(code, i, st);
      Run(code, next.1, next.0)
  }

  function MinifiedJs(code: string): string {
    Run(code, 0, Start)
  }

  /** The scanner state that the build script's separate flags stand for. */
  function Flags(result: string, isString: bool, stringChar: char, escape: bool,
                 inSingleComment: bool, inMultiComment: bool, lastNonSpace: Option<char>): Scan
  {
    var mode :=
      if inSingleComment then LineComment
      else if inMultiComment then BlockComment
      else if isString then Str(stringChar, escape)
      else Code;
    Scan(result, mode, lastNonSpace)
  }

  /** `minifyJs` as written: an index loop over the flags. */
  method Minify(code: string) returns (result: string)
    ensures result == MinifiedJs(code)
    ensures |result| <= |code|
  {
    result := "";
    var isString, stringChar, escape := false, ' ', false;
    var inSingleComment, inMultiComment := false, false;
    var lastNonSpace: Option<char> := None;
    var i := 0;
    while i < |code|
      invariant i <= |code|
      invariant |result| <= i
      invariant !isString ==> !escape
      invariant inSingleComment ==> !inMultiComment && !isString
      invariant inMultiComment ==> !isString
      invariant Run(code, i, Flags(result, isString, stringChar, escape, inSingleComment,
                                   inMultiComment, lastNonSpace)) == MinifiedJs(code)
      decreases |code| - i
    {
      var ch := code[i];
      ghost var before := Flags(result, isString, stringChar, escape, inSingleComment,
                                inMultiComment, lastNonSpace);
      ghost var step := Step(code, i, before);
      if inSingleComment {
        if ch == '\n' {
          inSingleComment := false;
          if !EndsWith(result, '\n') {
            result := result + "\n";
          }
        }
      } else if inMultiComment {
        if ch == '*' && i + 1 < |code| && code[i + 1] == '/' {
          inMultiComment := false;
          i := i + 1;
        }
      } else if isString {
        result := result + [ch];
        if escape {
          escape := false;
        } else if ch == '\\' {
          escape := true;
        } else if ch == stringChar {
          isString := false;
        }
      } else if IsQuote(ch) {
        isString := true;
        stringChar := ch;
        result := result + [ch];
      } else if ch == '/' && i + 1 < |code| && code[i + 1] == '/' {
        inSingleComment := true;
        i := i + 1;
      } else if ch == '/' && i + 1 < |code| && code[i + 1] == '*' {
        inMultiComment := true;
        i := i + 1;
      } else if IsSpace(ch) {
        if lastNonSpace.Some? && JoinsBefore(lastNonSpace.value) && i + 1 < |code|
           && JoinsAfter(code[i + 1]) && !EndsWith(result, ' ') {
          result := result + " ";
        }
      } else {
        result := result + [ch];
        lastNonSpace := Some(ch);
      }
      i := i + 1;
      assert i == step.1;
      assert Flags(result, isString, stringChar, escape, inSingleComment,
                   inMultiComment, lastNonSpace) == step.0;
    }
  }

  // ---------------------------------------------------------------------
  // What the scanner does to each kind of segment.

  /** The scanner never writes more characters than it consumes. */
  lemma {:induction false} RunLength(code: string, i: nat, st: Scan)
    requires i <= |code|
    ensures |Run(code, i, st)| <= |st.out| + (|code| - i)
    decreases |code| - i
  {
    if i < |code| {
      var next := Step(code, i, st);
      RunLength(code, next.1, next.0);
    }
  }

  lemma MinifiedJsShorter(code: string)
    ensures |MinifiedJs(code)| <= |code|
  {
    RunLength(code, 0, Start);
  }

  /** The body of a string literal closed by `q`: characters other than `q`
      and backslash, and backslash escapes of any character. */
  predicate StrBody(s: string, q: char)
    decreases |s|
  {
    || s == []
    || (s[0] == '\\' && |s| >= 2 && StrBody(s[2..], q))
    || (s[0] != '\\' && s[0] != q && StrBody(s[1..], q))
  }

  lemma AppendSlices(out: string, s: string, a: nat, b: nat, c: nat)
    requires a <= b <= c <= |s|
    ensures out + s[a..b] + s[b..c] == out + s[a..c]
  {
    assert s[a..c] == s[a..b] + s[b..c];
  }

  /** One step inside a string literal: an escape and the character after it. */
  lemma StrEscapeSteps(code: string, k: nat, q: char, out: string, last: Option<char>)
    requires k + 1 < |code| && code[k] == '\\'
    ensures Run(code, k, Scan(out, Str(q, false), last))
         == Run(code, k + 2, Scan(out + code[k..k + 2], Str(q, false), last))
  {
    assert Run(code, k, Scan(out, Str(q, false), last))
        == Run(code, k + 1, Scan(out + [code[k]], Str(q, true), last));
    assert out + [code[k]] + [code[k + 1]] == out + code[k..k + 2];
  }

  /** One step inside a string literal: a plain character. */
  lemma StrPlainStep(code: string, k: nat, q: char, out: string, last: Option<char>)
    requires k < |code| && code[k] != '\\' && code[k] != q
    ensures Run(code, k, Scan(out, Str(q, false), last))
         == Run(code, k + 1, Scan(out + code[k..k + 1], Str(q, false), last))
  {
    assert [code[k]] == code[k..k + 1];
  }

  /** One step inside a string literal: the closing quote. */
  lemma StrCloseStep(code: string, k: nat, out: string, last: Option<char>)
    requires k < |code| && IsQuote(code[k])
    ensures Run(code, k, Scan(out, Str(code[k], false), last))
         == Run(code, k + 1, Scan(out + code[k..k + 1], Code, last))
  {
    assert [code[k]] == code[k..k + 1];
  }

  lemma {:induction false} InsideString(code: string, k: nat, j: nat, out: string, last: Option<char>)
    requires k <= j < |code| && IsQuote(code[j])
    requires StrBody(code[k..j], code[j])
    ensures Run(code, k, Scan(out, Str(code[j], false), last))
         == Run(code, j + 1, Scan(out + code[k..j + 1], Code, last))
    decreases j - k
  {
    var q := code[j];
    if k == j {
      StrCloseStep(code, k, out, last);
    } else if code[k] == '\\' {
      assert code[k + 1..j][1..] == code[k + 2..j];
      StrEscapeSteps(code, k, q, out, last);
      InsideString(code, k + 2, j, out + code[k..k + 2], last);
      AppendSlices(out, code, k, k + 2, j + 1);
    } else {
      assert code[k..j][1..] == code[k + 1..j];
      StrPlainStep(code, k, q, out, last);
      InsideString(code, k + 1, j, out + code[k..k + 1], last);
      AppendSlices(out, code, k, k + 1, j + 1);
    }
  }

  /** A terminated string literal is copied verbatim, escapes included, and
      leaves `lastNonSpace` as it was (quotes are not tracked). */
  lemma CopiesStringLiteral(code: string, i: nat, j: nat, st: Scan)
    requires st.mode == Code && i < j < |code|
    requires IsQuote(code[i]) && code[j] == code[i] && StrBody(code[i + 1..j], code[i])
    ensures Run(code, i, st) == Run(code, j + 1, st.(out := st.out + code[i..j + 1]))
  {
    assert Run(code, i, st) == Run(code, i + 1, Scan(st.out + [code[i]], Str(code[i], false), st.lastNonSpace));
    InsideString(code, i + 1, j, st.out + [code[i]], st.lastNonSpace);
    assert code[i..i + 1] == [code[i]];
    AppendSlices(st.out, code, i, i + 1, j + 1);
  }

  lemma {:induction false} InsideLineComment(code: string, k: nat, j: nat, st: Scan)
    requires k <= j < |code| && st.mode == LineComment && code[j] == '\n'
    requires forall m :: k <= m < j ==> code[m] != '\n'
    ensures Run(code, k, st) == Run(code, j + 1, st.(mode := Code, out :=
              if EndsWith(st.out, '\n') then st.out else st.out + "\n"))
    decreases j - k
  {
    if k < j {
      InsideLineComment(code, k + 1, j, st);
    }
  }

  /** A `//` comment is dropped through its newline, which is kept unless
      the output already ends with one. */
  lemma DropsLineComment(code: string, i: nat, j: nat, st: Scan)
    requires st.mode == Code && i + 2 <= j < |code|
    requires code[i] == '/' && code[i + 1] == '/' && code[j] == '\n'
    requires forall m :: i + 2 <= m < j ==> code[m] != '\n'
    ensures Run(code, i, st) == Run(code, j + 1, st.(out :=
              if EndsWith(st.out, '\n') then st.out else st.out + "\n"))
  {
    InsideLineComment(code, i + 2, j, st.(mode := LineComment));
  }

  lemma {:induction false} LineCommentToEnd(code: string, k: nat, st: Scan)
    requires k <= |code| && st.mode == LineComment
    requires forall m :: k <= m < |code| ==> code[m] != '\n'
    ensures Run(code, k, st) == st.out
    decreases |code| - k
  {
    if k < |code| {
      LineCommentToEnd(code, k + 1, st);
    }
  }

  /** A `//` comment on the last line drops everything after it. */
  lemma DropsFinalLineComment(code: string, i: nat, st: Scan)
    requires st.mode == Code && i + 2 <= |code| && code[i] == '/' && code[i + 1] == '/'
    requires forall m :: i + 2 <= m < |code| ==> code[m] != '\n'
    ensures Run(code, i, st) == st.out
  {
    LineCommentToEnd(code, i + 2, st.(mode := LineComment));
  }

  predicate ClosesAt(code: string, m: nat) {
    m + 1 < |code| && code[m] == '*' && code[m + 1] == '/'
  }

  lemma {:induction false} InsideBlockComment(code: string, k: nat, j: nat, st: Scan)
    requires k <= j && ClosesAt(code, j) && st.mode == BlockComment
    requires forall m :: k <= m < j ==> !ClosesAt(code, m)
    ensures Run(code, k, st) == Run(code, j + 2, st.(mode := Code))
    decreases j - k
  {
    if k < j {
      assert !ClosesAt(code, k);
      InsideBlockComment(code, k + 1, j, st);
    }
  }

  /** A block comment is dropped, delimiters included; the star-slash that
      ends it is the first one starting after the opening slash-star. */
  lemma DropsBlockComment(code: string, i: nat, j: nat, st: Scan)
    requires st.mode == Code && i + 2 <= j && ClosesAt(code, j)
    requires code[i] == '/' && code[i + 1] == '*' && forall m :: i + 2 <= m < j ==> !ClosesAt(code, m)
    ensures Run(code, i, st) == Run(code, j + 2, st)
  {
    InsideBlockComment(code, i + 2, j, st.(mode := BlockComment));
  }

  lemma {:induction false} BlockCommentToEnd(code: string, k: nat, st: Scan)
    requires k <= |code| && st.mode == BlockComment
    requires forall m :: k <= m < |code| ==> !ClosesAt(code, m)
    ensures Run(code, k, st) == st.out
    decreases |code| - k
  {
    if k < |code| {
      assert !ClosesAt(code, k);
      BlockCommentToEnd(code, k + 1, st);
    }
  }

  /** An unterminated block comment drops the rest of the input. */
  lemma DropsUnterminatedBlockComment(code: string, i: nat, st: Scan)
    requires st.mode == Code && i + 2 <= |code| && code[i] == '/' && code[i + 1] == '*'
    requires forall m :: i + 2 <= m < |code| ==> !ClosesAt(code, m)
    ensures Run(code, i, st) == st.out
  {
    BlockCommentToEnd(code, i + 2, st.(mode := BlockComment));
  }

  /** What a maximal run of whitespace ending before `j` leaves: one space
      when the last copied character and the character after the run could
      otherwise fuse, and the output does not already end with a space. */
  function Separator(code: string, j: nat, st: Scan): string
    requires j <= |code|
  {
    if st.lastNonSpace.Some? && JoinsBefore(st.lastNonSpace.value)
       && j < |code| && JoinsAfter(code[j]) && !EndsWith(st.out, ' ')
    then " " else ""
  }

  lemma SpaceDoesNotJoin(c: char)
    requires IsSpace(c)
    ensures !JoinsAfter(c)
  {
  }

  /** A whitespace run outside strings and comments becomes at most one
      space, so it never yields two spaces in a row. */
  lemma {:induction false} SqueezesWhitespace(code: string, i: nat, j: nat, st: Scan)
    requires st.mode == Code && i < j <= |code|
    requires forall m :: i <= m < j ==> IsSpace(code[m])
    requires j == |code| || !IsSpace(code[j])
    ensures Run(code, i, st) == Run(code, j, st.(out := st.out + Separator(code, j, st)))
    decreases j - i
  {
    var c := code[i];
    assert IsSpace(c) && !IsQuote(c) && c != '/';
    if i + 1 == j {
      assert KeepsSpace(code, i, st) == (Separator(code, j, st) == " ");
      if !KeepsSpace(code, i, st) {
        assert st.(out := st.out + Separator(code, j, st)) == st;
      }
    } else {
      SpaceDoesNotJoin(code[i + 1]);
      assert !KeepsSpace(code, i, st);
      SqueezesWhitespace(code, i + 1, j, st);
    }
  }

  /** A character of no special class. */
  predicate Plain(c: char) {
    !IsQuote(c) && c != '/' && !IsSpace(c)
  }

  /** Other characters are kept in their original order: a run of plain
      characters is copied to the output, and the scan goes on after it. */
  lemma {:induction false} KeepsPlainRun(code: string, i: nat, j: nat, st: Scan)
    requires st.mode == Code && i < j <= |code|
    requires forall m :: i <= m < j ==> Plain(code[m])
    ensures Run(code, i, st) == Run(code, j, st.(out := st.out + code[i..j], lastNonSpace := Some(code[j - 1])))
    decreases j - i
  {
    var st1 := st.(out := st.out + [code[i]], lastNonSpace := Some(code[i]));
    assert code[i..i + 1] == [code[i]];
    if i + 1 < j {
      KeepsPlainRun(code, i + 1, j, st1);
      assert st1.out + code[i + 1..j] == st.out + code[i..j];
    }
  }

  /** A plain rest of the input ends up in the output as it is. */
  lemma KeepsPlainText(code: string, i: nat, st: Scan)
    requires st.mode == Code && i <= |code|
    requires forall m :: i <= m < |code| ==> Plain(code[m])
    ensures Run(code, i, st) == st.out + code[i..]
  {
    if i < |code| {
      KeepsPlainRun(code, i, |code|, st);
    }
  }

  lemma PlainTextUnchanged(code: string)
    requires forall m :: 0 <= m < |code| ==> Plain(code[m])
    ensures MinifiedJs(code) == code
  {
    KeepsPlainText(code, 0, Start);
  }
}
