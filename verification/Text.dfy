// The string operations the services rely on, with the laws their round trips need.
module Text {
  import opened Common

  // str.isspace for one character.
  predicate IsSpace(c: char) {
    var n := c as int;
    || 0x9 <= n <= 0xD || 0x1C <= n <= 0x20 || n == 0x85 || n == 0xA0 || n == 0x1680
    || 0x2000 <= n <= 0x200A || n == 0x2028 || n == 0x2029 || n == 0x202F || n == 0x205F || n == 0x3000
  }

  // The characters at which str.splitlines breaks.
  predicate IsBreak(c: char) {
    var n := c as int;
    0xA <= n <= 0xD || 0x1C <= n <= 0x1E || n == 0x85 || n == 0x2028 || n == 0x2029
  }

  predicate AllSpace(s: string) {
    forall i :: 0 <= i < |s| ==> IsSpace(s[i])
  }

  predicate NoSpace(s: string) {
    forall i :: 0 <= i < |s| ==> !IsSpace(s[i])
  }

  predicate NoBreak(s: string) {
    forall i :: 0 <= i < |s| ==> !IsBreak(s[i])
  }

  // ---------------------------------------------------------------- strip

  function LStrip(s: string): string {
    if s != "" && IsSpace(s[0]) then LStrip(s[1..]) else s
  }

  function RStrip(s: string): string {
    if s != "" && IsSpace(s[|s| - 1]) then RStrip(s[..|s| - 1]) else s
  }

  function Strip(s: string): string {
    RStrip(LStrip(s))
  }

  predicate Stripped(s: string) {
    s != "" ==> !IsSpace(s[0]) && !IsSpace(s[|s| - 1])
  }

  lemma {:induction false} LStripLaw(s: string)
    ensures var r := LStrip(s);
            && |r| <= |s| && r == s[|s| - |r|..] && AllSpace(s[..|s| - |r|])
            && (r != "" ==> !IsSpace(r[0]))
  {
    if s != "" && IsSpace(s[0]) {
      LStripLaw(s[1..]);
      var r := LStrip(s[1..]);
      assert s[..|s| - |r|] == [s[0]] + s[1..][..|s[1..]| - |r|];
      assert s[1..][|s[1..]| - |r|..] == s[|s| - |r|..];
    }
  }

  lemma {:induction false} RStripLaw(s: string)
    ensures var r := RStrip(s);
            && |r| <= |s| && r == s[..|r|] && AllSpace(s[|r|..])
            && (r != "" ==> !IsSpace(r[|r| - 1]))
  {
    if s != "" && IsSpace(s[|s| - 1]) {
      RStripLaw(s[..|s| - 1]);
      var r := RStrip(s[..|s| - 1]);
      assert s[|r|..] == s[..|s| - 1][|r|..] + [s[|s| - 1]];
      assert s[..|s| - 1][..|r|] == s[..|r|];
    }
  }

  lemma {:induction false} StripIsStripped(s: string)
    ensures Stripped(Strip(s))
  {
    var l := LStrip(s);
    var r := RStrip(l);
    LStripLaw(s);
    RStripLaw(l);
    if r != "" {
      assert r[0] == l[..|r|][0] == l[0];
    }
  }

  lemma {:induction false} StripFixed(s: string)
    requires Stripped(s)
    ensures Strip(s) == s
  {
  }

  // Strip drops white space at the two ends and nothing else.
  lemma {:induction false} StripDropsOnlySpace(s: string)
    ensures exists i, j :: 0 <= i <= j <= |s| && Strip(s) == s[i..j] && AllSpace(s[..i]) && AllSpace(s[j..])
  {
    var l := LStrip(s);
    var r := RStrip(l);
    LStripLaw(s);
    RStripLaw(l);
    var i, j := |s| - |l|, |s| - |l| + |r|;
    assert l == s[i..];
    assert Strip(s) == r == l[..|r|] == s[i..j];
    assert l[|r|..] == s[j..];
  }

  // Whatever white space is put around a stripped text, strip takes it away again. Every text is of
  // this form, by the two lemmas above.
  lemma {:induction false} StripPadded(left: string, core: string, right: string)
    requires AllSpace(left) && Stripped(core) && AllSpace(right)
    ensures Strip(left + core + right) == core
    decreases |left| + |right|
  {
    var s := left + core + right;
    if left != "" && (core != "" || right == "") {
      assert s[1..] == left[1..] + core + right;
      StripPadded(left[1..], core, right);
    } else if core == "" {
      AllSpaceVanishes(s);
    } else {
      assert s == core + right && LStrip(s) == s;
      RStripPadding(core, right);
    }
  }

  lemma {:induction false} AllSpaceVanishes(s: string)
    requires AllSpace(s)
    ensures LStrip(s) == "" && Strip(s) == ""
  {
    if s == "" {
    } else {
      AllSpaceVanishes(s[1..]);
    }
  }

  lemma {:induction false} RStripPadding(core: string, right: string)
    requires core != "" && !IsSpace(core[|core| - 1]) && AllSpace(right)
    ensures RStrip(core + right) == core
  {
    if right == "" {
      assert core + right == core;
    } else {
      assert (core + right)[..|core + right| - 1] == core + right[..|right| - 1];
      RStripPadding(core, right[..|right| - 1]);
    }
  }

  lemma {:induction false} StripKeepsNoBreak(s: string)
    requires NoBreak(s)
    ensures NoBreak(Strip(s))
  {
    StripDropsOnlySpace(s);
    var i, j :| 0 <= i <= j <= |s| && Strip(s) == s[i..j] && AllSpace(s[..i]) && AllSpace(s[j..]);
    forall k | 0 <= k < j - i ensures !IsBreak(s[i..j][k]) {
      assert s[i..j][k] == s[i + k];
    }
  }

  // (value or "").strip() or None
  function Cleaned(value: Option<string>): Option<string> {
    var s := Strip(if value.Some? then value.value else "");
    if s == "" then None else Some(s)
  }

  // Optional words lose the white space around them; nothing but white space counts as no words.
  lemma {:induction false} CleanedLaw(left: string, core: string, right: string)
    requires AllSpace(left) && Stripped(core) && AllSpace(right)
    ensures Cleaned(Some(left + core + right)) == if core == "" then None else Some(core)
    ensures Cleaned(None) == None
  {
    StripPadded(left, core, right);
  }

  // ---------------------------------------------------------------- lines

  function LineEnd(s: string): (n: nat)
    ensures n <= |s|
  {
    if s == "" || IsBreak(s[0]) then 0 else 1 + LineEnd(s[1..])
  }

  lemma {:induction false} LineEndLaw(s: string)
    ensures NoBreak(s[..LineEnd(s)]) && (LineEnd(s) < |s| ==> IsBreak(s[LineEnd(s)]))
  {
    if s != "" && !IsBreak(s[0]) {
      var n := LineEnd(s);
      LineEndLaw(s[1..]);
      assert s[..n] == [s[0]] + s[1..][..n - 1];
    }
  }

  // A carriage return and the line feed after it are one break.
  function BreakLength(s: string, n: nat): nat
    requires n <= |s|
    ensures n + BreakLength(s, n) <= |s|
  {
    if n == |s| then 0
    else if s[n] == '\r' && n + 1 < |s| && s[n + 1] == '\n' then 2
    else 1
  }

  function SplitLines(s: string): seq<string>
    decreases |s|
  {
    if s == "" then []
    else
      var n := LineEnd(s);
      if n == |s| then [s]
      else [s[..n]] + SplitLines(s[n + BreakLength(s, n)..])
  }

  function KeepLine(line: string): seq<string> {
    if Strip(line) == "" then [] else [Strip(line)]
  }

  function CleanLines(lines: seq<string>): seq<string> {
    if |lines| == 0 then [] else KeepLine(lines[0]) + CleanLines(lines[1..])
  }

  function ParseLines(s: string): seq<string> {
    CleanLines(SplitLines(s))
  }

  predicate CleanLine(s: string) {
    s != "" && Stripped(s) && NoBreak(s)
  }

  predicate EachClean(lines: seq<string>) {
    forall l :: l in lines ==> CleanLine(l)
  }

  predicate EachUnbroken(lines: seq<string>) {
    forall l :: l in lines ==> NoBreak(l)
  }

  function Join(sep: string, parts: seq<string>): string {
    if |parts| == 0 then ""
    else if |parts| == 1 then parts[0]
    else parts[0] + sep + Join(sep, parts[1..])
  }

  lemma {:induction false} SplitLinesHasNoBreaks(s: string)
    ensures EachUnbroken(SplitLines(s))
    decreases |s|
  {
    if s == "" {
    } else {
      var n := LineEnd(s);
      LineEndLaw(s);
      if n < |s| {
        SplitLinesHasNoBreaks(s[n + BreakLength(s, n)..]);
      } else {
        assert s[..n] == s;
      }
    }
  }

  lemma {:induction false} KeptLineIsClean(line: string)
    requires NoBreak(line)
    ensures EachClean(KeepLine(line))
  {
    StripIsStripped(line);
    StripKeepsNoBreak(line);
  }

  lemma {:induction false} CleanLinesAreClean(lines: seq<string>)
    requires EachUnbroken(lines)
    ensures EachClean(CleanLines(lines))
  {
    if |lines| == 0 {
    } else {
      KeptLineIsClean(lines[0]);
      CleanLinesAreClean(lines[1..]);
    }
  }

  lemma {:induction false} ParsedLinesAreClean(s: string)
    ensures EachClean(ParseLines(s))
  {
    SplitLinesHasNoBreaks(s);
    CleanLinesAreClean(SplitLines(s));
  }

  lemma {:induction false} LineEndIs(s: string, n: nat)
    requires n <= |s| && (forall i :: 0 <= i < n ==> !IsBreak(s[i])) && (n < |s| ==> IsBreak(s[n]))
    ensures LineEnd(s) == n
  {
    if n == 0 {
    } else {
      LineEndIs(s[1..], n - 1);
    }
  }

  lemma {:induction false} CleanCons(line: string, rest: seq<string>)
    ensures CleanLines([line] + rest) == KeepLine(line) + CleanLines(rest)
  {
    assert ([line] + rest)[1..] == rest;
  }

  // One unfolding of the parser: a text of one line, and a first line with what follows its break.
  lemma {:induction false} ParseOnly(s: string)
    requires s != "" && LineEnd(s) == |s|
    ensures ParseLines(s) == KeepLine(s)
  {
    assert SplitLines(s) == [s];
    assert CleanLines([s]) == KeepLine(s) + CleanLines([s][1..]) == KeepLine(s);
  }

  lemma {:induction false} ParseFirst(s: string, n: nat)
    requires n == LineEnd(s) && n < |s|
    ensures ParseLines(s) == KeepLine(s[..n]) + ParseLines(s[n + BreakLength(s, n)..])
  {
    CleanCons(s[..n], SplitLines(s[n + BreakLength(s, n)..]));
  }

  lemma {:induction false} ParseEmptyLine()
    ensures KeepLine("") == [] && ParseLines("") == []
  {
  }

  // A line loses the white space around it; nothing but white space is dropped.
  lemma {:induction false} KeepLineLaw(left: string, core: string, right: string)
    requires AllSpace(left) && Stripped(core) && AllSpace(right)
    ensures KeepLine(left + core + right) == if core == "" then [] else [core]
  {
    StripPadded(left, core, right);
  }

  // Every line boundary ends a line, whatever follows it.
  lemma {:induction false} ParseAtBreak(a: string, c: char, b: string)
    requires NoBreak(a) && c as int in {0xA, 0xB, 0xC, 0xD, 0x1C, 0x1D, 0x1E, 0x85, 0x2028, 0x2029}
    ensures ParseLines(a + [c] + b) == KeepLine(a) + ParseLines(b)
  {
    var s := a + [c] + b;
    assert s[|a|] == c && IsBreak(c) && forall i :: 0 <= i < |a| ==> s[i] == a[i];
    LineEndIs(s, |a|);
    ParseFirst(s, |a|);
    assert s[..|a|] == a && s[|a| + 1..] == b;
    if BreakLength(s, |a|) == 2 {
      assert s[|a| + 2..] == b[1..] && b[0] == '\n';
      LineEndIs(b, 0);
      ParseFirst(b, 0);
      ParseEmptyLine();
      assert ParseLines(b) == ParseLines(b[1..]);
    }
  }

  lemma {:induction false} ParseDistributesAtOneLine(a: string, b: string)
    requires LineEnd(a) == |a|
    ensures ParseLines(a + "\n" + b) == ParseLines(a) + ParseLines(b)
  {
    var s := a + "\n" + b;
    LineEndOfConcat(a, b);
    assert s[..|a|] == a && s[|a| + 1..] == b && s[|a|] == '\n';
    assert ParseLines(s) == KeepLine(a) + ParseLines(b) by { ParseFirst(s, |a|); }
    assert ParseLines(a) == KeepLine(a) by { if a == "" { ParseEmptyLine(); } else { ParseOnly(a); } }
  }

  lemma {:induction false} FirstLineOfConcat(a: string, b: string, n: nat)
    requires n == LineEnd(a) && n < |a|
    ensures var s := a + "\n" + b;
            ParseLines(s) == KeepLine(a[..n]) + ParseLines(s[n + BreakLength(s, n)..])
  {
    var s := a + "\n" + b;
    LineEndOfConcat(a, b);
    ParseFirst(s, n);
    assert s[..n] == a[..n];
  }

  lemma {:induction false} Regroup(x: seq<string>, y: seq<string>, z: seq<string>)
    ensures x + (y + z) == (x + y) + z
  {
  }

  // Parsing distributes over a line feed, also when it completes a carriage return.
  lemma {:induction false} ParseDistributes(a: string, b: string)
    ensures ParseLines(a + "\n" + b) == ParseLines(a) + ParseLines(b)
    decreases |a|
  {
    var s := a + "\n" + b;
    var n := LineEnd(a);
    if n == |a| {
      ParseDistributesAtOneLine(a, b);
    } else {
      var rest, rest' := a[n + BreakLength(a, n)..], s[n + BreakLength(s, n)..];
      RestOfConcat(a, b, n);
      assert ParseLines(rest') == ParseLines(rest) + ParseLines(b) by {
        if rest' == rest + "\n" + b { ParseDistributes(rest, b); } else { ParseEmptyLine(); }
      }
      FirstLineOfConcat(a, b, n);
      ParseFirst(a, n);
      Regroup(KeepLine(a[..n]), ParseLines(rest), ParseLines(b));
    }
  }

  // What follows the first break of a: the concatenation goes on inside a, or a ended in a
  // carriage return and the line feed belongs to that break.
  lemma {:induction false} RestOfConcat(a: string, b: string, n: nat)
    requires n < |a|
    ensures var s := a + "\n" + b;
            var rest, rest' := a[n + BreakLength(a, n)..], s[n + BreakLength(s, n)..];
            rest' == rest + "\n" + b || (rest == "" && rest' == b)
  {
    var s := a + "\n" + b;
    var k, m := n + BreakLength(a, n), n + BreakLength(s, n);
    if k == m {
      assert s[m..] == a[k..] + "\n" + b;
    } else {
      assert k == |a| && s[m..] == b;
    }
  }

  lemma {:induction false} LineEndOfConcat(a: string, b: string)
    ensures LineEnd(a + "\n" + b) == LineEnd(a)
  {
    var n := LineEnd(a);
    LineEndLaw(a);
    assert forall i :: 0 <= i < n ==> !IsBreak(a[..n][i]) && (a + "\n" + b)[i] == a[..n][i];
    LineEndIs(a + "\n" + b, n);
  }

  lemma {:induction false} ParseOneLine(line: string)
    requires CleanLine(line)
    ensures ParseLines(line) == [line]
  {
    LineEndIs(line, |line|);
    ParseOnly(line);
    StripFixed(line);
  }

  // The printer of the edit dialog is inverted by the parser.
  lemma {:induction false} ParseJoinedLines(lines: seq<string>)
    requires EachClean(lines)
    ensures ParseLines(Join("\n", lines)) == lines
  {
    if |lines| == 0 {
      ParseEmptyLine();
    } else {
      ParseOneLine(lines[0]);
      if |lines| > 1 {
        var rest := Join("\n", lines[1..]);
        ParseDistributes(lines[0], rest);
        ParseJoinedLines(lines[1..]);
        assert ParseLines(lines[0]) + ParseLines(rest) == lines;
      }
    }
  }

  // ---------------------------------------------------------------- words

  function WordEnd(s: string): (n: nat)
    ensures n <= |s|
    ensures s != "" && !IsSpace(s[0]) ==> n > 0
  {
    if s == "" || IsSpace(s[0]) then 0 else 1 + WordEnd(s[1..])
  }

  lemma {:induction false} WordEndLaw(s: string)
    ensures NoSpace(s[..WordEnd(s)]) && (WordEnd(s) < |s| ==> IsSpace(s[WordEnd(s)]))
  {
    if s != "" && !IsSpace(s[0]) {
      var n := WordEnd(s);
      WordEndLaw(s[1..]);
      assert s[..n] == [s[0]] + s[1..][..n - 1];
    }
  }

  lemma {:induction false} WordEndIs(s: string, n: nat)
    requires n <= |s| && (forall i :: 0 <= i < n ==> !IsSpace(s[i])) && (n < |s| ==> IsSpace(s[n]))
    ensures WordEnd(s) == n
  {
    if n == 0 {
    } else {
      WordEndIs(s[1..], n - 1);
    }
  }

  // str.split() without a separator.
  function SplitWords(s: string): seq<string>
    decreases |s|
  {
    LStripLaw(s);
    var t := LStrip(s);
    if t == "" then [] else [t[..WordEnd(t)]] + SplitWords(t[WordEnd(t)..])
  }

  predicate IsWord(s: string) {
    s != "" && NoSpace(s)
  }

  predicate EachWord(words: seq<string>) {
    forall w :: w in words ==> IsWord(w)
  }

  lemma {:induction false} SplitWordsAreWords(s: string)
    ensures EachWord(SplitWords(s))
    decreases |s|
  {
    LStripLaw(s);
    var t := LStrip(s);
    if t == "" {
    } else {
      WordEndLaw(t);
      SplitWordsAreWords(t[WordEnd(t)..]);
    }
  }

  lemma {:induction false} SplitLeadingSpace(s: string)
    ensures SplitWords(" " + s) == SplitWords(s)
  {
    assert (" " + s)[1..] == s;
    assert LStrip(" " + s) == LStrip(s);
  }

  lemma {:induction false} SplitFirstWord(w: string, rest: string)
    requires IsWord(w) && (rest != "" ==> IsSpace(rest[0]))
    ensures SplitWords(w + rest) == [w] + SplitWords(rest)
  {
    var s := w + rest;
    assert s[0] == w[0] && LStrip(s) == s;
    WordEndIs(s, |w|);
    assert s[..|w|] == w && s[|w|..] == rest;
  }

  // Words are what stands between white space of any kind and amount.
  lemma {:induction false} SplitAtSpace(w: string, c: char, rest: string)
    requires NoSpace(w) && IsSpace(c)
    ensures SplitWords(w + [c] + rest) == (if w == "" then [] else [w]) + SplitWords(rest)
    ensures SplitWords(w) == if w == "" then [] else [w]
  {
    assert ([c] + rest)[1..] == rest;
    assert LStrip([c] + rest) == LStrip(rest);
    if w == "" {
      assert w + [c] + rest == [c] + rest;
    } else {
      assert w + [c] + rest == w + ([c] + rest);
      SplitFirstWord(w, [c] + rest);
      SplitFirstWord(w, "");
      assert w + "" == w;
    }
  }

  lemma {:induction false} SplitJoinedWords(words: seq<string>)
    requires EachWord(words)
    ensures SplitWords(Join(" ", words)) == words
  {
    if |words| == 0 {
    } else if |words| == 1 {
      SplitFirstWord(words[0], "");
      assert words[0] + "" == words[0];
    } else {
      var more := Join(" ", words[1..]);
      SplitFirstWord(words[0], " " + more);
      SplitLeadingSpace(more);
      SplitJoinedWords(words[1..]);
      assert Join(" ", words) == words[0] + (" " + more);
      assert [words[0]] + words[1..] == words;
    }
  }

  // ---------------------------------------------------------------- dict.fromkeys

  ghost predicate NoRepeats<T(!new)>(xs: seq<T>) {
    forall i, j :: 0 <= i < j < |xs| ==> xs[i] != xs[j]
  }

  // The keys in the order of their first occurrence.
  function Dedup<T(==)>(xs: seq<T>): seq<T> {
    if |xs| == 0 then []
    else
      var before := Dedup(xs[..|xs| - 1]);
      if xs[|xs| - 1] in before then before else before + [xs[|xs| - 1]]
  }

  function FirstIndex<T(==)>(xs: seq<T>, x: T): (i: nat)
    requires x in xs
    ensures i < |xs| && xs[i] == x && forall j :: 0 <= j < i ==> xs[j] != x
  {
    if xs[0] == x then 0 else 1 + FirstIndex(xs[1..], x)
  }

  // Same elements, none twice, in the order in which they first occur.
  lemma {:induction false} DedupLaw<T(!new)>(xs: seq<T>)
    ensures NoRepeats(Dedup(xs))
    ensures forall x :: x in Dedup(xs) <==> x in xs
    ensures forall i, j :: 0 <= i < j < |Dedup(xs)| ==>
              Dedup(xs)[i] in xs && Dedup(xs)[j] in xs && FirstIndex(xs, Dedup(xs)[i]) < FirstIndex(xs, Dedup(xs)[j])
  {
    if |xs| == 0 {
    } else {
      var n := |xs| - 1;
      var pre, d := xs[..n], Dedup(xs[..n]);
      DedupLaw(pre);
      assert xs == pre + [xs[n]];
      forall x | x in pre ensures FirstIndex(xs, x) == FirstIndex(pre, x) {
        FirstIndexOfPrefix(pre, [xs[n]], x);
      }
      if xs[n] !in d {
        assert FirstIndex(xs, xs[n]) == n;
      }
      forall i, j | 0 <= i < j < |Dedup(xs)|
        ensures Dedup(xs)[i] in xs && Dedup(xs)[j] in xs
                && FirstIndex(xs, Dedup(xs)[i]) < FirstIndex(xs, Dedup(xs)[j]) {
        assert d[i] in pre;
        if j < |d| { assert d[j] in pre; }
      }
    }
  }

  lemma {:induction false} FirstIndexOfPrefix<T(!new)>(a: seq<T>, b: seq<T>, x: T)
    requires x in a
    ensures FirstIndex(a + b, x) == FirstIndex(a, x)
  {
    var i, j := FirstIndex(a, x), FirstIndex(a + b, x);
    assert (a + b)[i] == x;
  }

  lemma {:induction false} DedupFixed<T(!new)>(xs: seq<T>)
    requires NoRepeats(xs)
    ensures Dedup(xs) == xs
  {
    if |xs| == 0 {
    } else {
      DedupFixed(xs[..|xs| - 1]);
    }
  }
}
