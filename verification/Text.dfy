/** The string operations the configuration editors are built from, as Rust defines them. */
module Text {

  /** Unicode White_Space. */
  predicate IsSpace(c: char) {
    || '\U{0009}' <= c <= '\U{000D}' || c == ' ' || c == '\U{0085}' || c == '\U{00A0}' || c == '\U{1680}'
    || '\U{2000}' <= c <= '\U{200A}' || c == '\U{2028}' || c == '\U{2029}' || c == '\U{202F}' || c == '\U{205F}'
    || c == '\U{3000}'
  }

  // ----- regrouping -----

  lemma Regroup<T>(a: seq<T>, b: seq<T>, c: seq<T>)
    ensures a + (b + c) == a + b + c
  {
  }

  lemma Regroup3<T>(a: seq<T>, b: seq<T>, c: seq<T>, d: seq<T>, e: seq<T>)
    ensures a + b + c + d + e == a + b + (c + d + e)
  {
  }

  // ----- trim -----

  function TrimStart(s: string): string {
    if s != "" && IsSpace(s[0]) then TrimStart(s[1..]) else s
  }

  function TrimEnd(s: string): string {
    if s != "" && IsSpace(s[|s| - 1]) then TrimEnd(s[..|s| - 1]) else s
  }

  function Trim(s: string): string {
    TrimStart(TrimEnd(s))
  }

  predicate Trimmed(s: string) {
    s == "" || (!IsSpace(s[0]) && !IsSpace(s[|s| - 1]))
  }

  predicate Blank(s: string) {
    forall i :: 0 <= i < |s| ==> IsSpace(s[i])
  }

  lemma {:induction false} TrimStartIsSuffix(s: string)
    ensures TrimStart(s) == "" || !IsSpace(TrimStart(s)[0])
    ensures TrimStart(s) != "" ==> s != "" && TrimStart(s)[|TrimStart(s)| - 1] == s[|s| - 1]
    ensures forall c | c in TrimStart(s) :: c in s
  {
    if s != "" && IsSpace(s[0]) {
      TrimStartIsSuffix(s[1..]);
    }
  }

  lemma {:induction false} TrimEndIsPrefix(s: string)
    ensures TrimEnd(s) == "" || !IsSpace(TrimEnd(s)[|TrimEnd(s)| - 1])
    ensures forall c | c in TrimEnd(s) :: c in s
  {
    if s != "" && IsSpace(s[|s| - 1]) {
      TrimEndIsPrefix(s[..|s| - 1]);
    }
  }

  lemma TrimIsTrimmed(s: string)
    ensures Trimmed(Trim(s))
    ensures forall c | c in Trim(s) :: c in s
  {
    TrimEndIsPrefix(s);
    TrimStartIsSuffix(TrimEnd(s));
  }

  lemma TrimOfTrimmed(s: string)
    requires Trimmed(s)
    ensures Trim(s) == s
  {
  }

  lemma TrimDropsLast(s: string, c: char)
    requires IsSpace(c)
    ensures Trim(s + [c]) == Trim(s)
  {
    assert (s + [c])[..|s|] == s;
  }

  lemma {:induction false} TrimEndKeepsPrefix(p: string, s: string)
    requires s != "" && !IsSpace(s[|s| - 1])
    ensures TrimEnd(p + s) == p + s
  {
    assert (p + s)[|p + s| - 1] == s[|s| - 1];
  }

  lemma {:induction false} TrimEndDropsBlank(s: string, b: string)
    requires Blank(b)
    ensures TrimEnd(s + b) == TrimEnd(s)
  {
    if b == "" {
      assert s + b == s;
    } else {
      var b' := b[..|b| - 1];
      assert (s + b)[..|s + b| - 1] == s + b';
      TrimEndDropsBlank(s, b');
    }
  }

  lemma {:induction false} TrimStartDropsBlank(b: string, s: string)
    requires Blank(b)
    ensures TrimStart(b + s) == TrimStart(s)
  {
    if b == "" {
      assert b + s == s;
    } else {
      assert (b + s)[1..] == b[1..] + s;
      TrimStartDropsBlank(b[1..], s);
    }
  }

  /** Trimming removes exactly the blank ends around a trimmed middle. */
  lemma TrimBetween(before: string, s: string, after: string)
    requires Blank(before) && Trimmed(s) && Blank(after)
    ensures Trim(before + s + after) == s
  {
    TrimEndDropsBlank(before + s, after);
    if s == "" {
      TrimEndDropsBlank("", before);
      assert before + s == "" + before;
    } else {
      TrimEndKeepsPrefix(before, s);
      TrimStartDropsBlank(before, s);
    }
  }

  lemma {:induction false} TrimEndKeepsFront(p: string, s: string)
    requires p != "" && !IsSpace(p[|p| - 1])
    ensures TrimEnd(p + s) == p + TrimEnd(s)
  {
    if s == "" || !IsSpace(s[|s| - 1]) {
      assert p + s == p + s + "";
      if s == "" {
        assert p + s == p;
      }
    } else {
      assert (p + s)[..|p + s| - 1] == p + s[..|s| - 1];
      TrimEndKeepsFront(p, s[..|s| - 1]);
    }
  }

  // ----- find -----

  /** Index of the first `c`, or the length if there is none. */
  function IndexOf(s: string, c: char): (i: nat)
    ensures i <= |s|
    ensures i < |s| ==> s[i] == c
    ensures forall j :: 0 <= j < i ==> s[j] != c
  {
    if s == "" then 0 else if s[0] == c then 0 else 1 + IndexOf(s[1..], c)
  }

  lemma IndexOfAt(s: string, c: char, i: nat)
    requires i < |s| && s[i] == c && forall j :: 0 <= j < i ==> s[j] != c
    ensures IndexOf(s, c) == i
  {
  }

  // ----- lines -----

  function StripCR(s: string): string {
    if s != "" && s[|s| - 1] == '\r' then s[..|s| - 1] else s
  }

  /** `str::lines`: split at line feeds, dropping one carriage return before each. */
  function Lines(s: string): seq<string> {
    if s == "" then []
    else
      var i := IndexOf(s, '\n');
      if i == |s| then [s] else [StripCR(s[..i])] + Lines(s[i + 1..])
  }

  /** Every line followed by a line feed. */
  function Unlines(ls: seq<string>): string {
    if ls == [] then "" else ls[0] + "\n" + Unlines(ls[1..])
  }

  /** `join("\n")`. */
  function Joined(ls: seq<string>): string {
    if ls == [] then "" else if |ls| == 1 then ls[0] else ls[0] + "\n" + Joined(ls[1..])
  }

  lemma {:induction false} JoinedIsUnlines(ls: seq<string>)
    requires ls != []
    ensures Joined(ls) + "\n" == Unlines(ls)
  {
    if |ls| > 1 {
      JoinedIsUnlines(ls[1..]);
      assert ls[0] + "\n" + Joined(ls[1..]) + "\n" == ls[0] + "\n" + (Joined(ls[1..]) + "\n");
    } else {
      assert ls[1..] == [];
      assert ls[0] + "\n" + "" == ls[0] + "\n";
    }
  }

  function StripCRs(ls: seq<string>): (r: seq<string>)
    ensures |r| == |ls|
    ensures forall i :: 0 <= i < |ls| ==> r[i] == StripCR(ls[i])
  {
    if ls == [] then [] else [StripCR(ls[0])] + StripCRs(ls[1..])
  }

  predicate SingleLine(s: string) {
    '\n' !in s
  }

  predicate AllSingle(ls: seq<string>) {
    forall i :: 0 <= i < |ls| ==> SingleLine(ls[i])
  }

  lemma LinesCons(l: string, rest: string)
    requires SingleLine(l)
    ensures Lines(l + "\n" + rest) == [StripCR(l)] + Lines(rest)
  {
    var s := l + "\n" + rest;
    IndexOfAt(s, '\n', |l|);
    assert s[..|l|] == l && s[|l| + 1..] == rest;
  }

  lemma {:induction false} LinesUnlines(ls: seq<string>, rest: string)
    requires AllSingle(ls)
    ensures Lines(Unlines(ls) + rest) == StripCRs(ls) + Lines(rest)
  {
    if ls == [] {
      assert Unlines(ls) + rest == rest;
    } else {
      assert Unlines(ls) + rest == ls[0] + "\n" + (Unlines(ls[1..]) + rest);
      LinesCons(ls[0], Unlines(ls[1..]) + rest);
      LinesUnlines(ls[1..], rest);
      hide Lines, Unlines, StripCR;
    }
  }

  lemma {:induction false} StripCRsAppend(a: seq<string>, b: seq<string>)
    ensures StripCRs(a + b) == StripCRs(a) + StripCRs(b)
  {
    if a == [] {
      assert a + b == b;
    } else {
      assert (a + b)[1..] == a[1..] + b && (a + b)[0] == a[0];
      StripCRsAppend(a[1..], b);
      Regroup([StripCR(a[0])], StripCRs(a[1..]), StripCRs(b));
    }
  }

  lemma {:induction false} UnlinesAppend(a: seq<string>, b: seq<string>)
    ensures Unlines(a + b) == Unlines(a) + Unlines(b)
  {
    if a == [] {
      assert a + b == b;
    } else {
      assert (a + b)[1..] == a[1..] + b && (a + b)[0] == a[0];
      UnlinesAppend(a[1..], b);
      Regroup(a[0] + "\n", Unlines(a[1..]), Unlines(b));
    }
  }

  lemma {:induction false} LinesAreSingle(s: string)
    ensures AllSingle(Lines(s))
  {
    if s != "" {
      var i := IndexOf(s, '\n');
      if i < |s| {
        LinesAreSingle(s[i + 1..]);
      }
    }
  }

  lemma TrimIgnoresCR(l: string)
    ensures Trim(StripCR(l)) == Trim(l)
  {
    if l != "" && l[|l| - 1] == '\r' {
      assert l == l[..|l| - 1] + ['\r'];
      TrimDropsLast(l[..|l| - 1], '\r');
    }
  }

  // ----- split_whitespace -----

  function WordLength(s: string): (n: nat)
    ensures n <= |s|
    ensures s != "" && !IsSpace(s[0]) ==> n > 0
    ensures forall i :: 0 <= i < n ==> !IsSpace(s[i])
    ensures n < |s| ==> IsSpace(s[n])
  {
    if s == "" || IsSpace(s[0]) then 0 else 1 + WordLength(s[1..])
  }

  function Words(s: string): seq<string>
    decreases |s|
  {
    if s == "" then []
    else if IsSpace(s[0]) then Words(s[1..])
    else
      var n := WordLength(s);
      [s[..n]] + Words(s[n..])
  }

  /** Words separated by single spaces. */
  function Spaced(ws: seq<string>): string {
    if ws == [] then "" else if |ws| == 1 then ws[0] else ws[0] + " " + Spaced(ws[1..])
  }

  lemma {:induction false} WordsSkipBlank(b: string, s: string)
    requires Blank(b)
    ensures Words(b + s) == Words(s)
  {
    if b == "" {
      assert b + s == s;
    } else {
      assert (b + s)[1..] == b[1..] + s;
      WordsSkipBlank(b[1..], s);
    }
  }

  /** A first word followed by white space or by nothing. */
  lemma WordsCons(w: string, s: string)
    requires w != "" && forall i :: 0 <= i < |w| ==> !IsSpace(w[i])
    requires s != "" ==> IsSpace(s[0])
    ensures Words(w + s) == [w] + Words(s)
  {
    var n := WordLength(w + s);
    assert forall i :: 0 <= i < |w| ==> (w + s)[i] == w[i];
    assert s != "" ==> (w + s)[|w|] == s[0];
    assert (w + s)[..n] == w && (w + s)[n..] == s;
  }

  /** White space at the end adds no word. */
  lemma {:induction false} WordsDropLast(s: string, c: char)
    requires IsSpace(c)
    ensures Words(s + [c]) == Words(s)
    decreases |s|
  {
    if s == "" {
      assert s + [c] == [c] && [c][1..] == "";
    } else if IsSpace(s[0]) {
      assert (s + [c])[1..] == s[1..] + [c];
      WordsDropLast(s[1..], c);
    } else {
      var n := WordLength(s);
      var w, rest := s[..n], s[n..];
      assert s == w + rest;
      WordsCons(w, rest);
      WordsDropLast(rest, c);
      Regroup(w, rest, [c]);
      WordsCons(w, rest + [c]);
    }
  }

  lemma {:induction false} WordsTrimEnd(s: string)
    ensures Words(TrimEnd(s)) == Words(s)
  {
    if s != "" && IsSpace(s[|s| - 1]) {
      assert s == s[..|s| - 1] + [s[|s| - 1]];
      WordsDropLast(s[..|s| - 1], s[|s| - 1]);
      WordsTrimEnd(s[..|s| - 1]);
    }
  }

  lemma {:induction false} WordsTrimStart(s: string)
    ensures Words(TrimStart(s)) == Words(s)
  {
    if s != "" && IsSpace(s[0]) {
      WordsTrimStart(s[1..]);
    }
  }

  lemma WordsTrim(s: string)
    ensures Words(Trim(s)) == Words(s)
  {
    WordsTrimEnd(s);
    WordsTrimStart(TrimEnd(s));
  }

  /** Splitting at white space splits what was joined by it. */
  lemma {:induction false} WordsAppend(a: string, c: char, b: string)
    requires IsSpace(c)
    ensures Words(a + [c] + b) == Words(a) + Words(b)
    decreases |a|
  {
    if a == "" {
      assert a + [c] + b == [c] + b && ([c] + b)[1..] == b;
    } else if IsSpace(a[0]) {
      assert (a + [c] + b)[1..] == a[1..] + [c] + b;
      WordsAppend(a[1..], c, b);
    } else {
      var n := WordLength(a);
      var w, rest := a[..n], a[n..];
      hide Words, WordLength;
      assert a == w + rest;
      WordsCons(w, rest);
      WordsAppend(rest, c, b);
      assert a + [c] + b == w + (rest + [c] + b);
      WordsCons(w, rest + [c] + b);
      Regroup([w], Words(rest), Words(b));
    }
  }

  lemma {:induction false} WordsOfInked(s: string)
    requires s != "" && !IsSpace(s[|s| - 1])
    ensures Words(s) != []
    decreases |s|
  {
    if IsSpace(s[0]) {
      WordsOfInked(s[1..]);
    }
  }

  predicate AllWords(ws: seq<string>) {
    forall i :: 0 <= i < |ws| ==> ws[i] != "" && forall j :: 0 <= j < |ws[i]| ==> !IsSpace(ws[i][j])
  }

  lemma {:induction false} WordsAreWords(s: string)
    ensures AllWords(Words(s))
    decreases |s|
  {
    if s != "" {
      if IsSpace(s[0]) {
        WordsAreWords(s[1..]);
      } else {
        WordsAreWords(s[WordLength(s)..]);
      }
    }
  }

  /** More words make a longer line. */
  lemma {:induction false} SpacedLonger(a: seq<string>, b: seq<string>)
    requires b != [] && AllWords(a + b)
    ensures |Spaced(a + b)| > |Spaced(a)|
  {
    if a == [] {
      assert a + b == b;
      assert (a + b)[0] != "";
    } else {
      assert (a + b)[1..] == a[1..] + b && (a + b)[0] == a[0];
      assert AllWords(a[1..] + b) by {
        forall i | 0 <= i < |a[1..] + b| ensures (a[1..] + b)[i] == (a + b)[i + 1] {}
      }
      SpacedLonger(a[1..], b);
    }
  }
}
