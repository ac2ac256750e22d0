// The CSS minifier of the asset build (`minifyCss`): four global regular
// expression replacements and a trim. Each replacement is a function that
// scans the way a global `replace` does (leftmost match, resume after it).
//
//   StripComments   /\*[\s\S]*?\*\//g  replaced by nothing
//   Collapse        /\s+/g               replaced by one space
//   TightenPunct    /\s*([{}:;,>])\s*/g  replaced by the punctuation alone
//   DropSemicolons  /;}/g                replaced by a closing brace
//   Trim            String.prototype.trim
module MinifyCss {
  import opened Common

  predicate IsPunct(c: char) {
    c == '{' || c == '}' || c == ':' || c == ';' || c == ',' || c == '>'
  }

  /** The first index at or after `k` where a comment closer starts. */
  function CloserFrom(s: string, k: nat): (r: Option<nat>)
    decreases |s| - k
    ensures r.Some? ==> k <= r.value && r.value + 1 < |s| && s[r.value] == '*' && s[r.value + 1] == '/'
    ensures r.Some? ==> forall m :: k <= m < r.value ==> !(s[m] == '*' && s[m + 1] == '/')
    ensures r.None? ==> forall m :: k <= m && m + 1 < |s| ==> !(s[m] == '*' && s[m + 1] == '/')
  {
    if k + 1 >= |s| then None
    else if s[k] == '*' && s[k + 1] == '/' then Some(k)
    else CloserFrom(s, k + 1)
  }

  /** Removes each comment the lazy pattern matches, left to right; an opener
      with no closer after it is kept as text. */
  function StripComments(s: string): string
    decreases |s|
  {
    if |s| >= 2 && s[0] == '/' && s[1] == '*' && CloserFrom(s, 2).Some? then
      StripComments(s[CloserFrom(s, 2).value + 2..])
    else if s == [] then []
    else [s[0]] + StripComments(s[1..])
  }

  function LeadingSpaces(s: string): (n: nat)
    ensures n <= |s|
    ensures forall m :: 0 <= m < n ==> IsSpace(s[m])
    ensures n < |s| ==> !IsSpace(s[n])
  {
    if s == [] || !IsSpace(s[0]) then 0 else 1 + LeadingSpaces(s[1..])
  }

  function DropSpaces(s: string): (r: string)
    ensures r == [] || !IsSpace(r[0])
    ensures |r| <= |s|
  {
    s[LeadingSpaces(s)..]
  }

  function Collapse(s: string): string
    decreases |s|
  {
    if s == [] then []
    else if IsSpace(s[0]) then " " + Collapse(DropSpaces(s))
    else [s[0]] + Collapse(s[1..])
  }

  function TightenPunct(s: string): string
    decreases |s|
  {
    if s == [] then []
    else
      var n := LeadingSpaces(s);
      if n < |s| && IsPunct(s[n]) then [s[n]] + TightenPunct(DropSpaces(s[n + 1..]))
      else [s[0]] + TightenPunct(s[1..])
  }

  function DropSemicolons(s: string): string
    decreases |s|
  {
    if |s| >= 2 && s[0] == ';' && s[1] == '}' then "}" + DropSemicolons(s[2..])
    else if s == [] then []
    else [s[0]] + DropSemicolons(s[1..])
  }

  function TrailingSpaces(s: string): (n: nat)
    ensures n <= |s|
    ensures forall m :: |s| - n <= m < |s| ==> IsSpace(s[m])
    ensures n < |s| ==> !IsSpace(s[|s| - 1 - n])
  {
    if s == [] || !IsSpace(s[|s| - 1]) then 0 else 1 + TrailingSpaces(s[..|s| - 1])
  }

  function Trim(s: string): (r: string)
    ensures |r| <= |s|
  {
    var t := DropSpaces(s);
    t[..|t| - TrailingSpaces(t)]
  }

  function Minified(css: string): string {
    Trim(DropSemicolons(TightenPunct(Collapse(StripComments(css)))))
  }

  // ---------------------------------------------------------------------

  predicate NoDoubleSpace(s: string) {
    forall m :: 0 <= m < |s| - 1 ==> !(IsSpace(s[m]) && IsSpace(s[m + 1]))
  }

  predicate NoSpaceAtEnds(s: string) {
    s == [] || (!IsSpace(s[0]) && !IsSpace(s[|s| - 1]))
  }

  /** No whitespace right before or right after one of `{}:;,>`. */
  predicate TightAroundPunct(s: string) {
    forall m :: 0 <= m < |s| - 1 ==>
      !(IsSpace(s[m]) && IsPunct(s[m + 1])) && !(IsPunct(s[m]) && IsSpace(s[m + 1]))
  }

  /** A comment at the front of the text is removed with its delimiters. */
  lemma StripsLeadingComment(body: string, rest: string)
    requires forall m :: 0 <= m < |body| - 1 ==> !(body[m] == '*' && body[m + 1] == '/')
    ensures StripComments("/*" + body + "*/" + rest) == StripComments(rest)
  {
    var s := "/*" + body + "*/" + rest;
    var j := |body| + 2;
    assert s[j] == '*' && s[j + 1] == '/';
    forall m | 2 <= m < j
      ensures !(s[m] == '*' && s[m + 1] == '/')
    {
      if m + 1 < j {
        assert s[m] == body[m - 2] && s[m + 1] == body[m - 1];
      } else {
        assert s[m + 1] == '*';
      }
    }
    assert CloserFrom(s, 2) == Some(j);
    assert s[j + 2..] == rest;
  }

  /** The pass is a single scan: a comment whose opener shares its slash with
      the text before it survives, so the output can still hold a comment. */
  lemma StripCanLeaveComment()
    ensures StripComments("//* c */* x */") == "/* x */"
  {
    var t := "/* c */* x */";
    CloserInExample();
    assert t[7..] == "* x */";
    PlainTailInExample();
    assert StripComments(t) == "* x */";
    assert "//* c */* x */"[1..] == t;
  }

  /** The first closer after the example's inner opener ends its first comment. */
  lemma CloserInExample()
    ensures CloserFrom("/* c */* x */", 2) == Some(5)
  {
    var t := "/* c */* x */";
    assert CloserFrom(t, 5) == Some(5);
  }

  /** The example's remainder holds no opener, so the pass copies it. */
  lemma PlainTailInExample()
    ensures StripComments("* x */") == "* x */"
  {
    var u := "* x */";
    assert StripComments(u[5..]) == u[5..];
    assert StripComments(u[4..]) == u[4..];
    assert StripComments(u[3..]) == u[3..];
    assert StripComments(u[2..]) == u[2..];
    assert StripComments(u[1..]) == u[1..];
  }

  lemma {:induction false} StripShorter(s: string)
    ensures |StripComments(s)| <= |s|
    decreases |s|
  {
    if |s| >= 2 && s[0] == '/' && s[1] == '*' && CloserFrom(s, 2).Some? {
      StripShorter(s[CloserFrom(s, 2).value + 2..]);
    } else if s != [] {
      StripShorter(s[1..]);
    }
  }

  lemma ConsNoDouble(x: char, u: string)
    requires NoDoubleSpace(u)
    requires u != [] && IsSpace(x) ==> !IsSpace(u[0])
    ensures NoDoubleSpace([x] + u)
  {
    var r := [x] + u;
    assert forall m :: 1 <= m < |r| ==> r[m] == u[m - 1];
  }

  lemma ConsTight(x: char, u: string)
    requires TightAroundPunct(u)
    requires u != [] ==> !(IsSpace(x) && IsPunct(u[0])) && !(IsPunct(x) && IsSpace(u[0]))
    ensures TightAroundPunct([x] + u)
  {
    var r := [x] + u;
    assert forall m :: 1 <= m < |r| ==> r[m] == u[m - 1];
  }

  lemma SuffixKeeps(s: string, k: nat)
    requires k <= |s|
    ensures NoDoubleSpace(s) ==> NoDoubleSpace(s[k..])
    ensures TightAroundPunct(s) ==> TightAroundPunct(s[k..])
  {
    assert forall m :: 0 <= m < |s| - k ==> s[k..][m] == s[k + m];
  }

  lemma {:induction false} CollapseFacts(s: string)
    ensures |Collapse(s)| <= |s|
    ensures NoDoubleSpace(Collapse(s))
    ensures s != [] && !IsSpace(s[0]) ==> Collapse(s) != [] && Collapse(s)[0] == s[0]
    decreases |s|
  {
    if s == [] {
    } else if IsSpace(s[0]) {
      var t := DropSpaces(s);
      CollapseFacts(t);
      ConsNoDouble(' ', Collapse(t));
    } else {
      CollapseFacts(s[1..]);
      var u := Collapse(s[1..]);
      ConsNoDouble(s[0], u);
    }
  }

  /** The first character TightenPunct writes. */
  lemma TightenHead(s: string)
    requires s != []
    ensures TightenPunct(s) != []
    ensures var n := LeadingSpaces(s);
      TightenPunct(s)[0] == if n < |s| && IsPunct(s[n]) then s[n] else s[0]
  {
  }

  /** One unfolding of TightenPunct. */
  lemma TightenStep(s: string, n: nat)
    requires s != [] && n == LeadingSpaces(s)
    ensures n < |s| && IsPunct(s[n]) ==>
      TightenPunct(s) == [s[n]] + TightenPunct(DropSpaces(s[n + 1..])) && |DropSpaces(s[n + 1..])| < |s|
    ensures !(n < |s| && IsPunct(s[n])) ==> TightenPunct(s) == [s[0]] + TightenPunct(s[1..])
  {
  }

  lemma {:induction false} TightenShorter(s: string)
    ensures |TightenPunct(s)| <= |s|
    decreases |s|
  {
    if s != [] {
      var n := LeadingSpaces(s);
      TightenStep(s, n);
      if n < |s| && IsPunct(s[n]) {
        TightenShorter(DropSpaces(s[n + 1..]));
      } else {
        TightenShorter(s[1..]);
      }
    }
  }

  lemma {:induction false} TightenFacts(s: string)
    requires NoDoubleSpace(s)
    ensures NoDoubleSpace(TightenPunct(s))
    ensures TightAroundPunct(TightenPunct(s))
    decreases |s|
  {
    if s != [] {
      var n := LeadingSpaces(s);
      TightenStep(s, n);
      if n < |s| && IsPunct(s[n]) {
        var rest := s[n + 1..];
        var t := DropSpaces(rest);
        SuffixKeeps(s, n + 1);
        SuffixKeeps(rest, LeadingSpaces(rest));
        TightenFacts(t);
        var u := TightenPunct(t);
        if u != [] {
          TightenHead(t);
        }
        ConsNoDouble(s[n], u);
        ConsTight(s[n], u);
      } else {
        var t := s[1..];
        SuffixKeeps(s, 1);
        TightenFacts(t);
        var u := TightenPunct(t);
        if u != [] {
          TightenHead(t);
          if IsSpace(s[0]) {
            // the space is followed by a character that is neither a space
            // nor punctuation, which TightenPunct writes first
            assert !IsSpace(s[1]);
            assert LeadingSpaces(t) == 0;
          }
        }
        ConsNoDouble(s[0], u);
        ConsTight(s[0], u);
      }
    }
  }

  lemma {:induction false} DropSemicolonsFacts(s: string)
    requires NoDoubleSpace(s) && TightAroundPunct(s)
    ensures |DropSemicolons(s)| <= |s|
    ensures NoDoubleSpace(DropSemicolons(s))
    ensures TightAroundPunct(DropSemicolons(s))
    ensures s != [] ==> (DropSemicolons(s) != [] &&
      DropSemicolons(s)[0] == (if |s| >= 2 && s[0] == ';' && s[1] == '}' then '}' else s[0]))
    decreases |s|
  {
    if s != [] {
      if |s| >= 2 && s[0] == ';' && s[1] == '}' {
        var t := s[2..];
        SuffixKeeps(s, 2);
        DropSemicolonsFacts(t);
        var u := DropSemicolons(t);
        if u != [] {
          assert !IsSpace(s[2]);
        }
        ConsNoDouble('}', u);
        ConsTight('}', u);
      } else {
        var t := s[1..];
        SuffixKeeps(s, 1);
        DropSemicolonsFacts(t);
        var u := DropSemicolons(t);
        if u != [] {
          assert u[0] == '}' || u[0] == s[1];
        }
        ConsNoDouble(s[0], u);
        ConsTight(s[0], u);
      }
    }
  }

  lemma TrimFacts(s: string)
    ensures NoSpaceAtEnds(Trim(s))
    ensures NoDoubleSpace(s) ==> NoDoubleSpace(Trim(s))
    ensures TightAroundPunct(s) ==> TightAroundPunct(Trim(s))
  {
    var k := LeadingSpaces(s);
    var t := DropSpaces(s);
    var r := Trim(s);
    assert forall m :: 0 <= m < |r| ==> r[m] == s[k + m];
    if r != [] {
      assert !IsSpace(r[|r| - 1]);
    }
  }

  /** The minified stylesheet has no leading or trailing whitespace, no two
      whitespace characters in a row, no whitespace next to `{}:;,>`, and is
      never longer than the input. */
  lemma MinifiedShape(css: string)
    ensures NoSpaceAtEnds(Minified(css))
    ensures NoDoubleSpace(Minified(css))
    ensures TightAroundPunct(Minified(css))
    ensures |Minified(css)| <= |css|
  {
    var a := StripComments(css);
    StripShorter(css);
    CollapseFacts(a);
    var b := Collapse(a);
    TightenShorter(b);
    TightenFacts(b);
    var c := TightenPunct(b);
    DropSemicolonsFacts(c);
    TrimFacts(DropSemicolons(c));
  }
}
