/** Rewriting the time servers in chrony.conf, and reading them back. */
module Chrony {
  import opened Text

  // ----- Validation -----

  /** One entry of the request. */
  datatype Entry = Entry(kind: string, host: string, options: string)

  predicate IsAsciiAlnum(c: char) {
    '0' <= c <= '9' || 'a' <= c <= 'z' || 'A' <= c <= 'Z'
  }

  predicate IsValidNtpHost(s: string) {
    0 < |s| <= 255 && forall c | c in s :: IsAsciiAlnum(c) || c == '-' || c == '.' || c == ':'
  }

  predicate IsSafeOption(s: string) {
    0 < |s| <= 32 && forall c | c in s :: IsAsciiAlnum(c) || c == '-' || c == '_'
  }

  predicate IsKind(s: string) {
    s == "server" || s == "pool"
  }

  predicate AllSafe(words: seq<string>) {
    forall i :: 0 <= i < |words| ==> IsSafeOption(words[i])
  }

  predicate IsValidEntry(e: Entry) {
    IsKind(e.kind) && IsValidNtpHost(Trim(e.host)) && AllSafe(Words(Trim(e.options)))
  }

  function Directive(e: Entry): string {
    var host, options := Trim(e.host), Trim(e.options);
    if options == "" then e.kind + " " + host else e.kind + " " + host + " " + options
  }

  function Directives(es: seq<Entry>): seq<string> {
    if es == [] then [] else [Directive(es[0])] + Directives(es[1..])
  }

  datatype Request = Accepted(lines: seq<string>) | InvalidType | InvalidHost | InvalidOption | NoServers

  /** The first thing that is wrong, in the order the source looks, or the lines to write. */
  function Checked(es: seq<Entry>): Request {
    if es == [] then Accepted([])
    else if !IsKind(es[0].kind) then InvalidType
    else if !IsValidNtpHost(Trim(es[0].host)) then InvalidHost
    else if !AllSafe(Words(Trim(es[0].options))) then InvalidOption
    else match Checked(es[1..])
      case Accepted(ls) => Accepted([Directive(es[0])] + ls)
      case error => error
  }

  method SetServers(es: seq<Entry>) returns (r: Request)
    ensures r == if es == [] then NoServers else Checked(es)
    ensures r.Accepted? <==> es != [] && forall i :: 0 <= i < |es| ==> IsValidEntry(es[i])
    ensures r.Accepted? ==> r.lines == Directives(es)
  {
    hide Trim, Words, IsKind, IsValidNtpHost, AllSafe, Directive, Directives, IsValidEntry;
    var lines: seq<string> := [];
    CheckedIsValid(es);
    assert es[0..] == es;
    for i := 0 to |es|
      invariant Checked(es) == match Checked(es[i..]) case Accepted(ls) => Accepted(lines + ls) case error => error
      invariant i > 0 ==> lines != []
    {
      assert es[i..][1..] == es[i + 1..];
      var e := es[i];
      if !IsKind(e.kind) {
        return InvalidType;
      }
      if !IsValidNtpHost(Trim(e.host)) {
        return InvalidHost;
      }
      var safe := AllOptionsSafe(Words(Trim(e.options)));
      if !safe {
        return InvalidOption;
      }
      if Checked(es[i + 1..]).Accepted? {
        Regroup(lines, [Directive(e)], Checked(es[i + 1..]).lines);
      }
      lines := lines + [Directive(e)];
    }
    if lines == [] {
      return NoServers;
    }
    assert lines + [] == lines;
    r := Accepted(lines);
  }

  method AllOptionsSafe(words: seq<string>) returns (safe: bool)
    ensures safe <==> AllSafe(words)
  {
    for i := 0 to |words|
      invariant forall j :: 0 <= j < i ==> IsSafeOption(words[j])
    {
      if !IsSafeOption(words[i]) {
        return false;
      }
    }
    safe := true;
  }

  lemma {:induction false} CheckedIsValid(es: seq<Entry>)
    ensures Checked(es).Accepted? <==> forall i :: 0 <= i < |es| ==> IsValidEntry(es[i])
    ensures Checked(es).Accepted? ==> Checked(es).lines == Directives(es)
    ensures !Checked(es).NoServers?
  {
    hide Trim, Words;
    if es != [] {
      CheckedIsValid(es[1..]);
      assert forall i :: 0 < i < |es| ==> es[i] == es[1..][i - 1];
    }
  }

  /** What is wrong with an entry, looking at its type first, then its host, then its options. */
  ghost predicate Wrong(e: Entry, r: Request) {
    var host := Trim(e.host);
    var hostOk := 1 <= |host| <= 255 && forall c | c in host :: IsAsciiAlnum(c) || c in "-.:";
    match r
    case InvalidType => e.kind != "server" && e.kind != "pool"
    case InvalidHost => (e.kind == "server" || e.kind == "pool") && !hostOk
    case InvalidOption =>
      && (e.kind == "server" || e.kind == "pool") && hostOk
      && exists w | w in Words(e.options) :: |w| > 32 || exists c :: c in w && !IsAsciiAlnum(c) && c !in "-_"
    case _ => false
  }

  /** A refused request names what is wrong with its first invalid entry. */
  lemma {:induction false} FirstErrorReported(es: seq<Entry>)
    requires !Checked(es).Accepted?
    ensures exists i :: 0 <= i < |es| && Wrong(es[i], Checked(es)) && forall j :: 0 <= j < i ==> IsValidEntry(es[j])
  {
    hide Words, Trim, IsValidEntry, Wrong;
    var e := es[0];
    EntryErrors(e);
    if Checked([e]).Accepted? {
      FirstErrorReported(es[1..]);
      var i :| 0 <= i < |es[1..]| && Wrong(es[1..][i], Checked(es[1..])) && forall j :: 0 <= j < i ==> IsValidEntry(es[1..][j]);
      assert es[i + 1] == es[1..][i];
      assert forall j :: 0 < j < i + 1 ==> es[j] == es[1..][j - 1];
      assert Checked(es) == Checked(es[1..]);
    } else {
      assert Wrong(es[0], Checked(es));
    }
  }

  lemma HostExactly(host: string)
    ensures IsValidNtpHost(host) <==> 1 <= |host| <= 255 && forall c | c in host :: IsAsciiAlnum(c) || c in "-.:"
  {
    hide IsAsciiAlnum;
  }

  lemma OptionsExactly(options: string)
    ensures AllSafe(Words(Trim(options))) <==>
              forall w | w in Words(options) :: |w| <= 32 && forall c | c in w :: IsAsciiAlnum(c) || c in "-_"
  {
    WordsTrim(options);
    WordsAreWords(options);
    hide Words, Trim, IsAsciiAlnum;
    var ws := Words(options);
    forall i | 0 <= i < |ws| ensures IsSafeOption(ws[i]) <==> |ws[i]| <= 32 && forall c | c in ws[i] :: IsAsciiAlnum(c) || c in "-_" {
      assert ws[i] != "";
    }
    hide IsSafeOption;
  }

  lemma EntryErrors(e: Entry)
    ensures Checked([e]).Accepted? <==> IsValidEntry(e)
    ensures !Checked([e]).Accepted? ==> Wrong(e, Checked([e]))
  {
    assert [e][1..] == [];
    HostExactly(Trim(e.host));
    OptionsExactly(e.options);
    hide Words, Trim, IsValidNtpHost, AllSafe, IsAsciiAlnum;
  }

  // ----- Writing -----

  function LowerChar(c: char): char {
    if 'A' <= c <= 'Z' then c - 'A' + 'a' else c
  }

  function Lower(s: string): string {
    seq(|s|, i requires 0 <= i < |s| => LowerChar(s[i]))
  }

  /** The lower-cased first word, or nothing on a blank line. */
  function Keyword(line: string): string {
    var ws := Words(line);
    if ws == [] then "" else Lower(ws[0])
  }

  function OtherLines(lines: seq<string>): seq<string> {
    if lines == [] then []
    else if IsKind(Keyword(lines[0])) then OtherLines(lines[1..])
    else [lines[0]] + OtherLines(lines[1..])
  }

  function DropBlankEnd(lines: seq<string>): seq<string> {
    if lines != [] && Trim(lines[|lines| - 1]) == "" then DropBlankEnd(lines[..|lines| - 1]) else lines
  }

  const MARKER := "# NTP servers managed by Tenodera"

  /** What survives of the old configuration. */
  function Kept(content: string): seq<string> {
    DropBlankEnd(OtherLines(Lines(content)))
  }

  function Rewritten(content: string, directives: seq<string>): string {
    Unlines(Kept(content) + [MARKER] + directives)
  }

  method WriteServerLines(content: string, directives: seq<string>) returns (r: string)
    ensures r == Rewritten(content, directives)
  {
    hide Keyword, Lines, Trim;
    var lines := Lines(content);
    var kept: seq<string> := [];
    assert lines[0..] == lines;
    for i := 0 to |lines|
      invariant OtherLines(lines) == kept + OtherLines(lines[i..])
    {
      assert lines[i..][1..] == lines[i + 1..];
      if !IsKind(Keyword(lines[i])) {
        kept := kept + [lines[i]];
      }
    }
    assert kept + [] == kept;
    while kept != [] && Trim(kept[|kept| - 1]) == ""
      invariant DropBlankEnd(kept) == Kept(content)
      decreases |kept|
    {
      kept := kept[..|kept| - 1];
    }
    kept := kept + [MARKER];
    kept := kept + directives;
    JoinedIsUnlines(kept);
    r := Joined(kept) + "\n";
  }

  // ----- Reading -----

  datatype Server = Server(kind: string, host: string, options: string)

  function ParseLine(line: string): seq<Server> {
    var t := Trim(line);
    if t != "" && (t[0] == '#' || t[0] == '!') then []
    else
      var ws := Words(t);
      if |ws| < 2 || !IsKind(Lower(ws[0])) then []
      else [Server(Lower(ws[0]), ws[1], Spaced(ws[2..]))]
  }

  function ParseLines(lines: seq<string>): seq<Server> {
    if lines == [] then [] else ParseLine(lines[0]) + ParseLines(lines[1..])
  }

  function ParseServers(content: string): seq<Server> {
    ParseLines(Lines(content))
  }

  /** The entry as it should be read back: options separated by single spaces. */
  function Normalised(e: Entry): Server {
    Server(e.kind, Trim(e.host), Spaced(Words(e.options)))
  }

  function AllNormalised(es: seq<Entry>): seq<Server> {
    if es == [] then [] else [Normalised(es[0])] + AllNormalised(es[1..])
  }

  lemma {:induction false} ParseLinesAppend(a: seq<string>, b: seq<string>)
    ensures ParseLines(a + b) == ParseLines(a) + ParseLines(b)
  {
    hide ParseLine;
    if a == [] {
      assert a + b == b;
    } else {
      assert (a + b)[1..] == a[1..] + b && (a + b)[0] == a[0];
      ParseLinesAppend(a[1..], b);
      Regroup(ParseLine(a[0]), ParseLines(a[1..]), ParseLines(b));
    }
  }

  lemma {:induction false} ParseIgnoresCR(ls: seq<string>)
    ensures ParseLines(StripCRs(ls)) == ParseLines(ls)
  {
    if ls != [] {
      TrimIgnoresCR(ls[0]);
      ParseIgnoresCR(ls[1..]);
      assert ParseLine(StripCR(ls[0])) == ParseLine(ls[0]);
      assert StripCRs(ls)[1..] == StripCRs(ls[1..]);
      hide ParseLine;
    }
  }

  lemma OtherLineParsesToNothing(line: string)
    requires !IsKind(Keyword(line))
    ensures ParseLine(line) == []
  {
    WordsTrim(line);
  }

  predicate NoneIsServer(lines: seq<string>) {
    forall i :: 0 <= i < |lines| ==> !IsKind(Keyword(lines[i]))
  }

  lemma {:induction false} OtherLinesAreOther(lines: seq<string>)
    ensures NoneIsServer(OtherLines(lines))
    ensures AllSingle(lines) ==> AllSingle(OtherLines(lines))
  {
    hide Keyword;
    if lines != [] {
      OtherLinesAreOther(lines[1..]);
    }
  }

  lemma {:induction false} DropBlankEndIsPrefix(lines: seq<string>)
    ensures |DropBlankEnd(lines)| <= |lines| && DropBlankEnd(lines) == lines[..|DropBlankEnd(lines)|]
    ensures forall i :: |DropBlankEnd(lines)| <= i < |lines| ==> Trim(lines[i]) == ""
    ensures DropBlankEnd(lines) != [] ==> Trim(DropBlankEnd(lines)[|DropBlankEnd(lines)| - 1]) != ""
  {
    hide Trim;
    if lines != [] && Trim(lines[|lines| - 1]) == "" {
      DropBlankEndIsPrefix(lines[..|lines| - 1]);
    }
  }

  lemma KeptLines(content: string)
    ensures NoneIsServer(Kept(content)) && AllSingle(Kept(content))
  {
    hide Keyword, Lines;
    LinesAreSingle(content);
    OtherLinesAreOther(Lines(content));
    DropBlankEndIsPrefix(OtherLines(Lines(content)));
  }

  lemma {:induction false} OthersParseToNothing(lines: seq<string>)
    requires NoneIsServer(lines)
    ensures ParseLines(lines) == []
  {
    if lines != [] {
      OtherLineParsesToNothing(lines[0]);
      OthersParseToNothing(lines[1..]);
      hide ParseLine, Keyword;
    }
  }

  lemma MarkerParsesToNothing()
    ensures ParseLine(MARKER) == [] && SingleLine(MARKER) && StripCR(MARKER) == MARKER
  {
    hide ParseLine, Trim;
    assert MARKER[0] == '#' && MARKER[|MARKER| - 1] == 'a';
    TrimOfTrimmed(MARKER);
    CommentParsesToNothing(MARKER);
  }

  lemma CommentParsesToNothing(line: string)
    requires Trim(line) != "" && Trim(line)[0] == '#'
    ensures ParseLine(line) == []
  {
  }

  /** Reading the rewritten file means reading its directives: everything kept is passed over. */
  lemma ReadingRewritten(content: string, directives: seq<string>)
    ensures ParseServers(Rewritten(content, directives)) == ParseServers(Unlines(directives))
    ensures var front := StripCRs(Kept(content) + [MARKER]);
            Lines(Rewritten(content, directives)) == front + Lines(Unlines(directives))
  {
    hide Keyword, Kept, ParseLine;
    var front := Kept(content) + [MARKER];
    KeptLines(content);
    MarkerParsesToNothing();
    UnlinesAppend(front, directives);
    LinesUnlines(front, Unlines(directives));
    ParseLinesAppend(StripCRs(front), Lines(Unlines(directives)));
    ParseIgnoresCR(front);
    ParseLinesAppend(Kept(content), [MARKER]);
    OthersParseToNothing(Kept(content));
    assert ParseLines([MARKER]) == [];
    hide Lines, Unlines, ParseLines, StripCRs;
  }

  // ----- Writing, then reading -----

  lemma KindWord(kind: string)
    requires IsKind(kind)
    ensures Lower(kind) == kind && kind != "" && forall i :: 0 <= i < |kind| ==> !IsSpace(kind[i])
    ensures kind[0] != '#' && kind[0] != '!'
  {
    assert Lower(kind) == kind;
  }

  lemma HostWord(host: string)
    requires IsValidNtpHost(host)
    ensures host != "" && forall i :: 0 <= i < |host| ==> !IsSpace(host[i])
  {
    forall i | 0 <= i < |host| ensures !IsSpace(host[i]) {
      assert host[i] in host;
    }
  }

  /** A directive with any options, or any part of them, reads back as kind, host and their words. */
  lemma DirectiveParses(kind: string, host: string, tail: string)
    requires IsKind(kind) && IsValidNtpHost(host) && (tail != "" ==> IsSpace(tail[0]))
    ensures ParseLine(kind + " " + host + tail) == [Server(kind, host, Spaced(Words(tail)))]
  {
    hide Words, Trim, Lower, IsValidNtpHost, Spaced;
    KindWord(kind);
    HostWord(host);
    var line, rest := kind + (" " + (host + tail)), Words(tail);
    RegroupLine(kind, host, tail);
    WordsCons(kind, " " + (host + tail));
    WordsSkipBlank(" ", host + tail);
    WordsCons(host, tail);
    WordsTrim(line);
    TrimKeepsFirst(line);
    assert Words(Trim(line)) == [kind] + ([host] + rest);
    assert ([kind] + ([host] + rest))[0] == kind && ([kind] + ([host] + rest))[1] == host;
    assert ([kind] + ([host] + rest))[2..] == rest;
  }

  lemma RegroupLine(kind: string, host: string, tail: string)
    ensures kind + " " + host + tail == kind + (" " + (host + tail))
    ensures kind != "" ==> (kind + (" " + (host + tail)))[0] == kind[0]
  {
  }

  lemma TrimKeepsFirst(s: string)
    requires s != "" && !IsSpace(s[0])
    ensures Trim(s) != "" && Trim(s)[0] == s[0]
  {
    TrimEndKeepsFirst(s);
  }

  lemma {:induction false} TrimEndKeepsFirst(s: string)
    requires s != "" && !IsSpace(s[0])
    ensures TrimEnd(s) != "" && TrimEnd(s)[0] == s[0]
  {
    if IsSpace(s[|s| - 1]) {
      TrimEndKeepsFirst(s[..|s| - 1]);
    }
  }

  /** The part of a directive after the host. */
  function Tail(e: Entry): string {
    if Trim(e.options) == "" then "" else " " + Trim(e.options)
  }

  lemma DirectiveSplits(e: Entry)
    ensures Directive(e) == e.kind + " " + Trim(e.host) + Tail(e)
    ensures Words(Tail(e)) == Words(e.options)
  {
    var options := Trim(e.options);
    WordsTrim(e.options);
    if options == "" {
      assert e.kind + " " + Trim(e.host) + "" == e.kind + " " + Trim(e.host);
    } else {
      Regroup(e.kind + " " + Trim(e.host), " ", options);
      WordsSkipBlank(" ", options);
    }
    hide Words, Trim;
  }

  lemma SingleDirective(e: Entry)
    requires IsValidEntry(e)
    ensures SingleLine(Directive(e)) <==> SingleLine(Trim(e.options))
    ensures StripCR(Directive(e)) == Directive(e)
  {
    hide Words;
    HostWord(Trim(e.host));
    KindWord(e.kind);
    TrimIsTrimmed(e.options);
    hide Trim;
    assert IsSpace('\n') && IsSpace('\r');
    var d := Directive(e);
    assert forall c :: c in d <==> c in e.kind || c == ' ' || c in Trim(e.host) || c in Trim(e.options);
    assert !IsSpace(d[|d| - 1]);
  }

  /** Reading one written directive and whatever follows it. */
  lemma SingleDirectiveReads(e: Entry, rest: string)
    requires IsValidEntry(e) && SingleLine(Trim(e.options))
    ensures ParseServers(Directive(e) + "\n" + rest) == [Normalised(e)] + ParseServers(rest)
  {
    SingleDirective(e);
    LinesCons(Directive(e), rest);
    DirectiveSplits(e);
    DirectiveParses(e.kind, Trim(e.host), Tail(e));
    hide ParseLine, Directive, Lines, Words, Trim, IsValidEntry;
    assert ([Directive(e)] + Lines(rest))[1..] == Lines(rest);
  }

  /** A line feed between options cuts the directive in two lines. */
  lemma CutDirectiveReads(e: Entry, first: string, more: string, rest: string)
    requires IsKind(e.kind) && IsValidNtpHost(Trim(e.host))
    requires SingleLine(first) && Trim(e.options) == first + ['\n'] + more
    ensures ParseServers(Directive(e) + "\n" + rest)
         == [Server(e.kind, Trim(e.host), Spaced(Words(first)))] + ParseServers(more + "\n" + rest)
  {
    hide Words, Trim, ParseLine, Spaced, IsValidNtpHost;
    var front := e.kind + " " + Trim(e.host);
    DirectiveSplits(e);
    assert Tail(e) == " " + (first + ['\n'] + more);
    BreakDirective(front, first, more, rest);
    HeadIsSingle(e, first);
    LinesCons(front + (" " + first), more + "\n" + rest);
    ParseCR(front + (" " + first));
    DirectiveParses(e.kind, Trim(e.host), " " + first);
    WordsSkipBlank(" ", first);
    hide Lines, Directive, StripCR;
    ParseCons(StripCR(front + (" " + first)), Lines(more + "\n" + rest));
  }

  lemma ParseCons(line: string, rest: seq<string>)
    ensures ParseLines([line] + rest) == ParseLine(line) + ParseLines(rest)
  {
    assert ([line] + rest)[1..] == rest;
  }

  lemma HeadIsSingle(e: Entry, first: string)
    requires IsKind(e.kind) && IsValidNtpHost(Trim(e.host)) && SingleLine(first)
    ensures SingleLine(e.kind + " " + Trim(e.host) + (" " + first))
  {
    KindWord(e.kind);
    HostWord(Trim(e.host));
    hide Trim;
    assert IsSpace('\n');
    assert SingleLine(e.kind) && SingleLine(Trim(e.host)) && SingleLine(" ");
  }

  /** The first entry read from a cut directive has too few options. */
  lemma BrokenDirectiveReads(e: Entry, rest: string)
    requires IsValidEntry(e) && !SingleLine(Trim(e.options))
    ensures var got := ParseServers(Directive(e) + "\n" + rest);
            got != [] && got[0] != Normalised(e)
  {
    hide Words, Trim, Spaced, ParseServers, Directive, AllSafe;
    var options := Trim(e.options);
    var i := IndexOf(options, '\n');
    var first, more := options[..i], options[i + 1..];
    assert options == first + ['\n'] + more;
    CutDirectiveReads(e, first, more, rest);
    WordsAppend(first, '\n', more);
    WordsTrim(e.options);
    TrimIsTrimmed(e.options);
    assert more != "" && !IsSpace(more[|more| - 1]) by {
      assert !IsSpace(options[|options| - 1]) && IsSpace('\n');
    }
    WordsOfInked(more);
    WordsAreWords(e.options);
    SpacedLonger(Words(first), Words(more));
  }

  lemma ParseCR(line: string)
    ensures ParseLine(StripCR(line)) == ParseLine(line)
  {
    TrimIgnoresCR(line);
  }

  lemma BreakDirective(front: string, first: string, more: string, rest: string)
    ensures front + (" " + (first + ['\n'] + more)) + "\n" + rest == front + (" " + first) + "\n" + (more + "\n" + rest)
  {
  }

  predicate AllSingleOptions(es: seq<Entry>) {
    forall i :: 0 <= i < |es| ==> SingleLine(Trim(es[i].options))
  }

  predicate AllValid(es: seq<Entry>) {
    forall i :: 0 <= i < |es| ==> IsValidEntry(es[i])
  }

  lemma {:induction false} DirectivesReadBack(es: seq<Entry>)
    requires AllValid(es)
    ensures ParseServers(Unlines(Directives(es))) == AllNormalised(es) <==> AllSingleOptions(es)
  {
    hide Directive, ParseServers, Normalised, Trim, IsValidEntry;
    if es == [] {
      NothingReads();
    } else {
      var e, rest := es[0], Unlines(Directives(es[1..]));
      DirectivesReadBack(es[1..]);
      assert AllSingleOptions(es) <==> SingleLine(Trim(e.options)) && AllSingleOptions(es[1..]) by {
        assert forall i :: 0 < i < |es| ==> es[i] == es[1..][i - 1];
      }
      assert Unlines(Directives(es)) == Directive(e) + "\n" + rest;
      if SingleLine(Trim(e.options)) {
        SingleDirectiveReads(e, rest);
        assert AllNormalised(es)[1..] == AllNormalised(es[1..]);
        assert ([Normalised(e)] + ParseServers(rest))[1..] == ParseServers(rest);
      } else {
        BrokenDirectiveReads(e, rest);
      }
    }
  }

  lemma NothingReads()
    ensures ParseServers("") == []
  {
  }

  /**
   * Reading the rewritten file gives exactly the requested entries, in order and with their options
   * separated by single spaces, if and only if no options contain a line feed. Validation looks at
   * the words of the options alone, and so lets one pass.
   */
  lemma WriteThenReadExactly(content: string, es: seq<Entry>)
    requires es != [] && AllValid(es)
    ensures ParseServers(Rewritten(content, Directives(es))) == AllNormalised(es) <==> AllSingleOptions(es)
  {
    ReadingRewritten(content, Directives(es));
    DirectivesReadBack(es);
  }

  predicate IsWord(w: string) {
    w != "" && forall i :: 0 <= i < |w| ==> !IsSpace(w[i])
  }

  lemma OneWord(w: string)
    requires IsWord(w)
    ensures Words(w) == [w]
  {
    WordsCons(w, "");
    assert w + "" == w && [w] + [] == [w];
  }

  lemma ThreeWords(a: string, b: string, c: string)
    requires IsWord(a) && IsWord(b) && IsWord(c)
    ensures Words(a + ['\n'] + (b + [' '] + c)) == [a, b, c]
  {
    WordsAppend(a, '\n', b + [' '] + c);
    WordsAppend(b, ' ', c);
    OneWord(a);
    OneWord(b);
    OneWord(c);
    hide Words, IsWord;
    assert [a] + ([b] + [c]) == [a, b, c];
  }

  lemma SafeWord(w: string)
    requires IsSafeOption(w)
    ensures IsWord(w)
  {
    forall i | 0 <= i < |w| ensures !IsSpace(w[i]) {
      assert w[i] in w;
    }
  }

  lemma SecondServerReads(kind: string, host: string)
    requires IsKind(kind) && IsValidNtpHost(host)
    ensures ParseServers(kind + [' '] + host + "\n" + "") == [Server(kind, host, "")]
  {
    hide Words, Trim, ParseLine, IsValidNtpHost, IsKind;
    var line := kind + [' '] + host;
    assert line == kind + " " + host + "";
    DirectiveParses(kind, host, "");
    NoWords();
    KindWord(kind);
    HostWord(host);
    assert SingleLine(line) by {
      assert IsSpace('\n');
    }
    LinesCons(line, "");
    ParseCR(line);
    ParseCons(StripCR(line), []);
    hide StripCR, Lines;
    assert ParseLine(line) + [] == ParseLine(line);
  }

  lemma NoWords()
    ensures Words("") == [] && Spaced(Words("")) == "" && Lines("") == []
  {
  }

  /** Requests that pass validation and yet read back as two servers. */
  lemma LineFeedAddsServer(content: string, host: string, option: string, kind: string, other: string)
    requires IsValidNtpHost(host) && IsSafeOption(option)
    requires IsKind(kind) && IsSafeOption(other) && IsValidNtpHost(other)
    ensures var e := Entry("server", host, option + ['\n'] + (kind + [' '] + other));
            && IsValidEntry(e)
            && ParseServers(Rewritten(content, Directives([e])))
               == [Server("server", host, option), Server(kind, other, "")]
  {
    hide ParseServers, ParseLine, Rewritten, Words, Trim;
    var more := kind + [' '] + other;
    var e := Entry("server", host, option + ['\n'] + more);
    SafeWord(option);
    SafeWord(other);
    KindWord(kind);
    HostWord(host);
    ThreeWords(option, kind, other);
    TrimOfTrimmed(e.options);
    TrimOfTrimmed(e.host);
    assert IsSafeOption(kind);
    assert AllSafe(Words(Trim(e.options)));
    hide IsSafeOption, IsValidNtpHost, AllSafe;
    ReadingRewritten(content, [Directive(e)]);
    assert Directives([e]) == [Directive(e)] && Unlines([Directive(e)]) == Directive(e) + "\n" + "";
    assert SingleLine(option) by {
      assert IsSpace('\n');
    }
    CutDirectiveReads(e, option, more, "");
    SecondServerReads(kind, other);
    OneWord(option);
    assert Spaced([option]) == option;
  }

  // ----- What survives -----

  /** The letters are the same up to their case. */
  predicate SameLetters(w: string, k: string) {
    |w| == |k| && forall i :: 0 <= i < |w| ==> w[i] == k[i] || (w[i] as int == k[i] as int - 32 && 'a' <= k[i] <= 'z')
  }

  /** A directive is recognised by its first word alone, in upper or lower case. */
  predicate IsServerLine(line: string) {
    Words(line) != [] && (SameLetters(Words(line)[0], "server") || SameLetters(Words(line)[0], "pool"))
  }

  lemma LowerSameLetters(w: string, k: string)
    requires forall i :: 0 <= i < |k| ==> 'a' <= k[i] <= 'z'
    ensures Lower(w) == k <==> SameLetters(w, k)
  {
    if |w| == |k| {
      forall i | 0 <= i < |w|
        ensures LowerChar(w[i]) == k[i] <==> w[i] == k[i] || (w[i] as int == k[i] as int - 32 && 'a' <= k[i] <= 'z')
      {
      }
      assert forall i :: 0 <= i < |w| ==> Lower(w)[i] == LowerChar(w[i]);
      hide LowerChar;
    }
  }

  lemma KeywordIsServer(line: string)
    ensures IsKind(Keyword(line)) <==> IsServerLine(line)
  {
    if Words(line) != [] {
      LowerSameLetters(Words(line)[0], "server");
      LowerSameLetters(Words(line)[0], "pool");
    }
    hide Words, Lower, SameLetters;
  }

  lemma {:induction false} OtherLinesAppend(a: seq<string>, b: seq<string>)
    ensures OtherLines(a + b) == OtherLines(a) + OtherLines(b)
  {
    hide Keyword;
    if a == [] {
      assert a + b == b;
    } else {
      OtherLinesAppend(a[1..], b);
      assert (a + b)[1..] == a[1..] + b && (a + b)[0] == a[0];
    }
  }

  /** Of the old lines exactly the server and pool directives go, wherever they stand. */
  lemma OtherLinesExactly(a: seq<string>, line: string, b: seq<string>)
    ensures OtherLines(a + [line] + b) == OtherLines(a) + (if IsServerLine(line) then [] else [line]) + OtherLines(b)
  {
    OtherLinesAppend(a + [line], b);
    OtherLinesAppend(a, [line]);
    KeywordIsServer(line);
    hide Keyword, IsServerLine;
    assert OtherLines([line]) == if IsKind(Keyword(line)) then [] else [line];
    hide OtherLines;
  }

  /**
   * Every old line that is no server or pool directive survives in order, up to blank lines at the
   * end; the marker and the new directives follow.
   */
  lemma OtherLinesSurvive(content: string, es: seq<Entry>)
    requires AllValid(es) && AllSingleOptions(es)
    ensures Lines(Rewritten(content, Directives(es))) == StripCRs(Kept(content)) + [MARKER] + Directives(es)
    ensures var others := OtherLines(Lines(content));
            && Kept(content) <= others
            && (Kept(content) != [] ==> Trim(Kept(content)[|Kept(content)| - 1]) != "")
            && forall i :: |Kept(content)| <= i < |others| ==> Trim(others[i]) == ""
  {
    ReadingRewritten(content, Directives(es));
    DirectivesAreLines(es);
    StripCRsAppend(Kept(content), [MARKER]);
    MarkerParsesToNothing();
    assert StripCRs([MARKER]) == [MARKER];
    DropBlankEndIsPrefix(OtherLines(Lines(content)));
    hide Keyword, Trim, Unlines, Directive;
  }

  lemma {:induction false} DirectivesAreLines(es: seq<Entry>)
    requires AllValid(es) && AllSingleOptions(es)
    ensures Lines(Unlines(Directives(es))) == Directives(es)
  {
    hide Directive, Trim, IsValidEntry;
    if es != [] {
      DirectivesAreLines(es[1..]);
      SingleDirective(es[0]);
      LinesCons(Directive(es[0]), Unlines(Directives(es[1..])));
    }
  }

  lemma {:induction false} NoDirectiveSurvives(lines: seq<string>, es: seq<Entry>)
    requires AllValid(es)
    ensures OtherLines(lines + Directives(es)) == OtherLines(lines)
    decreases |lines|, |es|
  {
    hide Keyword, Directive, IsValidEntry;
    if lines == [] {
      assert lines + Directives(es) == Directives(es);
      if es != [] {
        DirectiveIsServer(es[0]);
        NoDirectiveSurvives([], es[1..]);
        assert [] + Directives(es[1..]) == Directives(es[1..]);
      }
    } else {
      assert (lines + Directives(es))[1..] == lines[1..] + Directives(es) && (lines + Directives(es))[0] == lines[0];
      NoDirectiveSurvives(lines[1..], es);
    }
  }

  lemma DirectiveIsServer(e: Entry)
    requires IsValidEntry(e)
    ensures IsKind(Keyword(Directive(e)))
  {
    KindWord(e.kind);
    DirectiveSplits(e);
    Regroup(e.kind, " " + Trim(e.host), Tail(e));
    Regroup(e.kind, " ", Trim(e.host));
    WordsCons(e.kind, " " + Trim(e.host) + Tail(e));
    hide Words, Trim, Directive;
  }

  lemma {:induction false} OthersStay(lines: seq<string>)
    requires NoneIsServer(lines)
    ensures OtherLines(lines) == lines
  {
    hide Keyword;
    if lines != [] {
      OthersStay(lines[1..]);
    }
  }

  lemma {:induction false} StrippedAreOther(lines: seq<string>)
    requires NoneIsServer(lines)
    ensures NoneIsServer(StripCRs(lines))
  {
    forall i | 0 <= i < |lines| ensures !IsKind(Keyword(StripCR(lines[i]))) {
      TrimIgnoresCR(lines[i]);
      WordsTrim(lines[i]);
      WordsTrim(StripCR(lines[i]));
      hide Words, Trim;
    }
  }

  /**
   * Writing is not idempotent: a second write keeps the marker of the first as an ordinary comment
   * and adds its own below it.
   */
  lemma MarkerAccumulates(content: string, es: seq<Entry>)
    requires es != [] && AllValid(es) && AllSingleOptions(es)
    ensures var once := Rewritten(content, Directives(es));
            && Lines(Rewritten(once, Directives(es)))
               == StripCRs(StripCRs(Kept(content))) + [MARKER, MARKER] + Directives(es)
            && Rewritten(once, Directives(es)) != once
  {
    hide Kept, Rewritten, Directives, Lines, AllValid, AllSingleOptions;
    var once := Rewritten(content, Directives(es));
    var front := StripCRs(Kept(content)) + [MARKER];
    KeptAfterWrite(content, es);
    OtherLinesSurvive(content, es);
    OtherLinesSurvive(once, es);
    StripCRsAppend(StripCRs(Kept(content)), [MARKER]);
    MarkerParsesToNothing();
    assert StripCRs([MARKER]) == [MARKER];
    assert [MARKER] + [MARKER] == [MARKER, MARKER];
    Regroup(StripCRs(StripCRs(Kept(content))), [MARKER], [MARKER]);
    hide StripCRs, OtherLines, MARKER;
    assert |Lines(Rewritten(once, Directives(es)))| == |Lines(once)| + 1;
  }

  lemma FrontIsOther(content: string)
    ensures NoneIsServer(StripCRs(Kept(content)) + [MARKER])
  {
    KeptLines(content);
    StrippedAreOther(Kept(content));
    MarkerIsOther();
    hide Kept, Keyword;
  }

  lemma KeptOf(content: string)
    ensures Kept(content) == DropBlankEnd(OtherLines(Lines(content)))
  {
  }

  /** The next write keeps what this one kept, and its marker. */
  lemma KeptAfterWrite(content: string, es: seq<Entry>)
    requires AllValid(es) && AllSingleOptions(es)
    ensures Kept(Rewritten(content, Directives(es))) == StripCRs(Kept(content)) + [MARKER]
  {
    hide Kept, Lines, Directives, Rewritten, NoneIsServer, StripCRs, OtherLines, DropBlankEnd, Trim, AllValid, AllSingleOptions, MARKER;
    var front := StripCRs(Kept(content)) + [MARKER];
    OtherLinesSurvive(content, es);
    KeptOf(Rewritten(content, Directives(es)));
    FrontIsOther(content);
    NoDirectiveSurvives(front, es);
    OthersStay(front);
    MarkerIsOther();
    assert front[|front| - 1] == MARKER;
    InkedEnd(front);
  }

  lemma InkedEnd(lines: seq<string>)
    requires lines != [] && Trim(lines[|lines| - 1]) != ""
    ensures DropBlankEnd(lines) == lines
  {
  }

  lemma MarkerIsOther()
    ensures !IsKind(Keyword(MARKER)) && Trim(MARKER) != ""
  {
    TrimOfTrimmed(MARKER);
    hide Trim, Words;
    assert MARKER == MARKER[..1] + MARKER[1..];
    assert MARKER[0] == '#' && MARKER[1] == ' ';
    WordsCons(MARKER[..1], MARKER[1..]);
    assert |Keyword(MARKER)| == 1;
  }
}
