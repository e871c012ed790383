/** Listing, adding and removing repositories in pacman.conf. */
module Pacman {
  import opened Wrappers
  import opened Text

  datatype Repo = Repo(name: string, server: string, included: string, sigLevel: string)

  // ----- Reading -----

  predicate IsBracket(c: char) {
    c == '[' || c == ']'
  }

  function TrimBracketsStart(s: string): string {
    if s != "" && IsBracket(s[0]) then TrimBracketsStart(s[1..]) else s
  }

  function TrimBracketsEnd(s: string): string {
    if s != "" && IsBracket(s[|s| - 1]) then TrimBracketsEnd(s[..|s| - 1]) else s
  }

  function TrimBrackets(s: string): string {
    TrimBracketsStart(TrimBracketsEnd(s))
  }

  /** Drops equal signs and white space in front of a value. */
  function TrimAssign(s: string): string {
    if s != "" && (s[0] == '=' || IsSpace(s[0])) then TrimAssign(s[1..]) else s
  }

  predicate StartsWith(s: string, p: string) {
    |p| <= |s| && s[..|p|] == p
  }

  /** A trimmed line that opens a section. */
  predicate IsHeader(l: string) {
    l != "" && l[0] == '[' && l[|l| - 1] == ']'
  }

  datatype Line = Blank | Header(name: string) | Server(value: string) | Include(value: string) | SigLevel(value: string) | Other

  function Classify(line: string): Line {
    var l := Trim(line);
    if l == "" || l[0] == '#' then Blank
    else if IsHeader(l) then Header(TrimBrackets(l))
    else if StartsWith(l, "Server") then Server(TrimAssign(l[6..]))
    else if StartsWith(l, "Include") then Include(TrimAssign(l[7..]))
    else if StartsWith(l, "SigLevel") then SigLevel(TrimAssign(l[8..]))
    else Other
  }

  /** The variables of the listing loop. */
  datatype Scan = Scan(name: Option<string>, server: string, included: string, sigLevel: string)

  const START := Scan(None, "", "", "")

  /** The section scanned last, unless it is the options or there was none. */
  function Flush(s: Scan): seq<Repo> {
    if s.name.Some? && s.name.value != "options" then [Repo(s.name.value, s.server, s.included, s.sigLevel)] else []
  }

  function ListFrom(lines: seq<string>, s: Scan): seq<Repo> {
    if lines == [] then Flush(s)
    else match Classify(lines[0])
      case Header(name) => Flush(s) + ListFrom(lines[1..], Scan(Some(name), "", "", ""))
      case Server(v) => ListFrom(lines[1..], s.(server := v))
      case Include(v) => ListFrom(lines[1..], s.(included := v))
      case SigLevel(v) => ListFrom(lines[1..], s.(sigLevel := v))
      case _ => ListFrom(lines[1..], s)
  }

  function Repos(content: string): seq<Repo> {
    ListFrom(Lines(content), START)
  }

  method ListRepos(content: string) returns (repos: seq<Repo>)
    ensures repos == Repos(content)
  {
    hide Classify;
    var lines := Lines(content);
    var s := START;
    repos := [];
    assert lines[0..] == lines;
    for i := 0 to |lines|
      invariant Repos(content) == repos + ListFrom(lines[i..], s)
    {
      assert lines[i..][1..] == lines[i + 1..];
      match Classify(lines[i]) {
        case Header(name) =>
          repos := repos + Flush(s);
          s := Scan(Some(name), "", "", "");
        case Server(v) => s := s.(server := v);
        case Include(v) => s := s.(included := v);
        case SigLevel(v) => s := s.(sigLevel := v);
        case _ =>
      }
    }
    repos := repos + Flush(s);
  }

  /** A section with each of the three settings, as pacman.conf has it. */
  function Section(r: Repo): string {
    "[" + r.name + "]" + "\n" + ("SigLevel = " + r.sigLevel + "\n" + ("Server = " + r.server + "\n" + ("Include = " + r.included + "\n" + "")))
  }

  /** A value that is one line and survives trimming. */
  predicate PlainValue(v: string) {
    v != "" && Trimmed(v) && SingleLine(v) && v[0] != '='
  }

  lemma TrimmedSetting(key: string, v: string)
    requires PlainValue(v) && key != "" && !IsSpace(key[0]) && SingleLine(key)
    ensures Trim(key + v) == key + v && SingleLine(key + v)
  {
    assert (key + v)[|key + v| - 1] == v[|v| - 1];
    TrimOfTrimmed(key + v);
  }

  lemma SettingTail(v: string)
    requires PlainValue(v)
    ensures TrimAssign(" = " + v) == v
  {
    assert (" = " + v)[1..] == "= " + v && ("= " + v)[1..] == " " + v && (" " + v)[1..] == v;
    assert TrimAssign(" " + v) == v;
    assert TrimAssign("= " + v) == v;
  }

  lemma ServerClassified(v: string)
    requires PlainValue(v)
    ensures Classify("Server = " + v) == Server(v) && SingleLine("Server = " + v)
  {
    TrimmedSetting("Server = ", v);
    SettingTail(v);
    hide Trim, TrimAssign, PlainValue, TrimBrackets;
    var l := "Server = " + v;
    assert l[0] == 'S' && l[..6] == "Server" && l[6..] == " = " + v;
  }

  lemma IncludeClassified(v: string)
    requires PlainValue(v)
    ensures Classify("Include = " + v) == Include(v) && SingleLine("Include = " + v)
  {
    TrimmedSetting("Include = ", v);
    SettingTail(v);
    hide Trim, TrimAssign, PlainValue, TrimBrackets;
    var l := "Include = " + v;
    assert l[0] == 'I' && l[..7] == "Include" && l[7..] == " = " + v;
    assert l[..6][0] != "Server"[0];
  }

  lemma SigLevelClassified(v: string)
    requires PlainValue(v)
    ensures Classify("SigLevel = " + v) == SigLevel(v) && SingleLine("SigLevel = " + v)
  {
    TrimmedSetting("SigLevel = ", v);
    SettingTail(v);
    hide Trim, TrimAssign, PlainValue, TrimBrackets;
    var l := "SigLevel = " + v;
    assert l[0] == 'S' && l[..8] == "SigLevel" && l[8..] == " = " + v;
    assert l[..6][1] != "Server"[1] && l[..7][0] != "Include"[0];
  }

  /** A section is listed with its server, its include and its signature level, each where it belongs. */
  lemma SectionListedAs(r: Repo)
    requires BareName(r.name) && r.name != "options"
    requires PlainValue(r.server) && PlainValue(r.included) && PlainValue(r.sigLevel)
    ensures Repos(Section(r)) == [r]
  {
    hide Classify, Lines, ListFrom, BareName, PlainValue, StripCR;
    var header := "[" + r.name + "]";
    var sig, server, included := "SigLevel = " + r.sigLevel, "Server = " + r.server, "Include = " + r.included;
    HeaderClassified(r.name);
    HeaderIsSingle(r.name);
    SigLevelClassified(r.sigLevel);
    ServerClassified(r.server);
    IncludeClassified(r.included);
    var s0 := Scan(Some(r.name), "", "", "");
    var s1 := s0.(sigLevel := r.sigLevel);
    var s2 := s1.(server := r.server);
    ReadLine(included, "", s2);
    ReadLine(server, included + "\n" + "", s1);
    ReadLine(sig, server + "\n" + (included + "\n" + ""), s0);
    ReadLine(header, sig + "\n" + (server + "\n" + (included + "\n" + "")), START);
    NoMoreLines();
    ListEnd(s2.(included := r.included));
  }

  lemma NoMoreLines()
    ensures Lines("") == []
  {
  }

  lemma HeaderIsSingle(name: string)
    requires BareName(name)
    ensures SingleLine("[" + name + "]")
  {
    assert IsSpace('\n');
  }

  /** Listing from one line on. */
  lemma ReadLine(line: string, rest: string, s: Scan)
    requires SingleLine(line)
    ensures ListFrom(Lines(line + "\n" + rest), s) ==
            if Classify(line).Header? then Flush(s) + ListFrom(Lines(rest), Scan(Some(Classify(line).name), "", "", ""))
            else ListFrom(Lines(rest), Next(Classify(line), s))
  {
    LinesCons(line, rest);
    CRIgnored(line);
    KeptLine(StripCR(line), Lines(rest), s);
    hide Classify, Lines, ListFrom, StripCR;
  }

  /** Comments, blank lines and unknown settings do not show in the listing. */
  lemma CommentsIgnored(line: string, rest: seq<string>, s: Scan)
    requires Trim(line) == "" || Trim(line)[0] == '#'
    ensures ListFrom([line] + rest, s) == ListFrom(rest, s)
  {
    KeptLine(line, rest, s);
    hide Trim, ListFrom;
  }

  // ----- Removing a repository -----

  /** A repository name that passed validation: not empty, and nothing that could end a header. */
  predicate BareName(name: string) {
    name != "" && forall c | c in name :: !IsBracket(c) && !IsSpace(c)
  }

  function RemoveFrom(lines: seq<string>, name: string, skipping: bool): seq<string> {
    if lines == [] then []
    else
      var l := Trim(lines[0]);
      if l == "[" + name + "]" then RemoveFrom(lines[1..], name, true)
      else if skipping && !IsHeader(l) then RemoveFrom(lines[1..], name, true)
      else [lines[0]] + RemoveFrom(lines[1..], name, false)
  }

  function Removed(content: string, name: string): string {
    Joined(RemoveFrom(Lines(content), name, false)) + "\n"
  }

  method RemoveRepo(content: string, name: string) returns (r: string)
    ensures r == Removed(content, name)
  {
    hide Trim;
    var lines := Lines(content);
    var kept: seq<string> := [];
    var skipping := false;
    assert lines[0..] == lines;
    for i := 0 to |lines|
      invariant RemoveFrom(lines, name, false) == kept + RemoveFrom(lines[i..], name, skipping)
    {
      assert lines[i..][1..] == lines[i + 1..];
      var l := Trim(lines[i]);
      if l == "[" + name + "]" {
        skipping := true;
        continue;
      }
      if skipping && IsHeader(l) {
        skipping := false;
      }
      if !skipping {
        kept := kept + [lines[i]];
      }
    }
    assert lines[|lines|..] == [] && kept + [] == kept;
    r := Joined(kept) + "\n";
  }

  function Except(repos: seq<Repo>, name: string): seq<Repo> {
    if repos == [] then []
    else if repos[0].name == name then Except(repos[1..], name)
    else [repos[0]] + Except(repos[1..], name)
  }

  lemma {:induction false} ExceptAppend(a: seq<Repo>, b: seq<Repo>, name: string)
    ensures Except(a + b, name) == Except(a, name) + Except(b, name)
  {
    if a == [] {
      assert a + b == b;
    } else {
      ExceptAppend(a[1..], b, name);
      assert (a + b)[1..] == a[1..] + b && (a + b)[0] == a[0];
    }
  }

  lemma {:induction false} ExceptHasNone(repos: seq<Repo>, name: string)
    ensures forall r | r in Except(repos, name) :: r.name != name
  {
    if repos != [] {
      ExceptHasNone(repos[1..], name);
    }
  }

  /** Every header that lists as this name is written plainly, so that removal will recognise it. */
  ghost predicate PlainHeaders(lines: seq<string>, name: string) {
    forall l | l in lines && Classify(l) == Header(name) :: Trim(l) == "[" + name + "]"
  }

  lemma TargetIsHeader(line: string, name: string)
    requires BareName(name) && Trim(line) == "[" + name + "]"
    ensures Classify(line) == Header(name)
  {
    var l := Trim(line);
    hide Trim;
    assert l[|l| - 1] == ']' && l[..|l| - 1] == "[" + name;
    assert name[0] in name && name[|name| - 1] in name;
    assert ("[" + name)[|name|] == name[|name| - 1];
    assert TrimBracketsEnd(l) == TrimBracketsEnd("[" + name) == "[" + name;
    assert ("[" + name)[1..] == name;
    assert TrimBracketsStart(name) == name;
  }

  lemma HeaderKind(line: string)
    ensures IsHeader(Trim(line)) <==> Classify(line).Header?
  {
  }

  /** One line of the removal loop. */
  lemma RemoveCons(line: string, rest: seq<string>, name: string, skipping: bool)
    ensures RemoveFrom([line] + rest, name, skipping) ==
            if Trim(line) == "[" + name + "]" then RemoveFrom(rest, name, true)
            else if skipping && !IsHeader(Trim(line)) then RemoveFrom(rest, name, true)
            else [line] + RemoveFrom(rest, name, false)
  {
    assert ([line] + rest)[1..] == rest;
  }

  /** The scan after any line. */
  function After(kind: Line, s: Scan): Scan {
    if kind.Header? then Scan(Some(kind.name), "", "", "") else Next(kind, s)
  }

  lemma ExceptFlush(s: Scan, name: string)
    ensures Except(Flush(s), name) == if s.name == Some(name) then [] else Flush(s)
    ensures s.name == Some("options") ==> Flush(s) == []
  {
  }

  /** What the listing sees of the lines that removal keeps, from any point of both loops on. */
  lemma {:induction false} ListAfterRemove(lines: seq<string>, name: string, skipping: bool, s: Scan, before: Scan)
    requires BareName(name) && (name == "options" || PlainHeaders(lines, name))
    requires if skipping then s.name == Some(name) else s == before
    requires before.name == Some(name) ==> name == "options"
    ensures ListFrom(RemoveFrom(lines, name, skipping), before)
         == (if skipping then Flush(before) else []) + Except(ListFrom(lines, s), name)
    decreases lines
  {
    hide Classify, Trim, IsHeader, ListFrom, RemoveFrom, Except, Flush;
    ExceptFlush(before, name);
    ExceptFlush(s, name);
    if lines == [] {
      ListNone(name, skipping, s, before);
    } else {
      var line, rest := lines[0], lines[1..];
      var kind := Classify(line);
      assert [line] + rest == lines && line in lines;
      assert PlainHeaders(lines, name) ==> PlainHeaders(rest, name);
      assert name != "options" && kind == Header(name) ==> Trim(line) == "[" + name + "]";
      hide PlainHeaders;
      RemoveCons(line, rest, name, skipping);
      HeaderKind(line);
      KeptLine(line, rest, s);
      ExceptAppend(Flush(s), ListFrom(rest, After(kind, s)), name);
      if Trim(line) == "[" + name + "]" {
        TargetIsHeader(line, name);
        ListAfterRemove(rest, name, true, After(kind, s), before);
      } else if skipping && !kind.Header? {
        ListAfterRemove(rest, name, true, After(kind, s), before);
      } else {
        ListAfterRemove(rest, name, false, After(kind, s), After(kind, before));
        KeptLine(line, RemoveFrom(rest, name, false), before);
      }
    }
  }

  lemma ListNone(name: string, skipping: bool, s: Scan, before: Scan)
    requires if skipping then s.name == Some(name) else s == before
    requires before.name == Some(name) ==> name == "options"
    ensures ListFrom(RemoveFrom([], name, skipping), before)
         == (if skipping then Flush(before) else []) + Except(ListFrom([], s), name)
  {
    assert Except(Flush(before), name) == Flush(before);
    assert Flush(before) + [] == Flush(before);
  }

  /** The scan after a line that is no header. */
  function Next(kind: Line, s: Scan): Scan {
    match kind
    case Server(v) => s.(server := v)
    case Include(v) => s.(included := v)
    case SigLevel(v) => s.(sigLevel := v)
    case _ => s
  }

  lemma KeptLine(line: string, rest: seq<string>, s: Scan)
    ensures ListFrom([line] + rest, s) ==
            if Classify(line).Header? then Flush(s) + ListFrom(rest, Scan(Some(Classify(line).name), "", "", ""))
            else ListFrom(rest, Next(Classify(line), s))
  {
    assert ([line] + rest)[1..] == rest;
  }

  lemma {:induction false} ListIgnoresCR(ls: seq<string>, s: Scan)
    ensures ListFrom(StripCRs(ls), s) == ListFrom(ls, s)
  {
    if ls != [] {
      TrimIgnoresCR(ls[0]);
      assert Classify(StripCR(ls[0])) == Classify(ls[0]);
      KeptLine(ls[0], ls[1..], s);
      KeptLine(StripCR(ls[0]), StripCRs(ls[1..]), s);
      assert [ls[0]] + ls[1..] == ls;
      hide Classify;
      match Classify(ls[0])
      case Header(name) => ListIgnoresCR(ls[1..], Scan(Some(name), "", "", ""));
      case _ => ListIgnoresCR(ls[1..], Next(Classify(ls[0]), s));
    }
  }

  /** Joining lines and reading them back lists the same. */
  lemma ListJoined(ls: seq<string>)
    requires AllSingle(ls)
    ensures Repos(Joined(ls) + "\n") == ListFrom(ls, START)
  {
    if ls == [] {
      LinesCons("", "");
      assert "" + "\n" + "" == Joined(ls) + "\n";
      KeptLine("", [], START);
      assert [StripCR("")] + Lines("") == [""] + [];
    } else {
      JoinedIsUnlines(ls);
      LinesUnlines(ls, "");
      assert Unlines(ls) + "" == Unlines(ls) && StripCRs(ls) + [] == StripCRs(ls);
      ListIgnoresCR(ls, START);
    }
  }

  lemma {:induction false} RemoveKeepsSingle(lines: seq<string>, name: string, skipping: bool)
    requires AllSingle(lines)
    ensures AllSingle(RemoveFrom(lines, name, skipping))
  {
    hide Trim;
    if lines != [] {
      RemoveKeepsSingle(lines[1..], name, true);
      RemoveKeepsSingle(lines[1..], name, false);
    }
  }

  /** Headers other than the plain one survive. */
  lemma {:induction false} RemoveKeepsOddHeaders(lines: seq<string>, name: string, skipping: bool, l: string)
    requires l in lines && IsHeader(Trim(l)) && Trim(l) != "[" + name + "]"
    ensures l in RemoveFrom(lines, name, skipping)
  {
    hide Trim, IsHeader;
    if lines[0] != l {
      RemoveKeepsOddHeaders(lines[1..], name, true, l);
      RemoveKeepsOddHeaders(lines[1..], name, false, l);
    }
  }

  lemma {:induction false} HeaderIsListed(lines: seq<string>, s: Scan, l: string, name: string)
    requires l in lines && Classify(l) == Header(name) && name != "options"
    ensures exists r :: r in ListFrom(lines, s) && r.name == name
  {
    assert [lines[0]] + lines[1..] == lines;
    KeptLine(lines[0], lines[1..], s);
    if lines[0] == l {
      SectionIsListed(lines[1..], Scan(Some(name), "", "", ""));
    } else {
      var s' := if Classify(lines[0]).Header? then Scan(Some(Classify(lines[0]).name), "", "", "") else Next(Classify(lines[0]), s);
      HeaderIsListed(lines[1..], s', l, name);
    }
    hide Classify, ListFrom;
  }

  lemma {:induction false} SectionIsListed(lines: seq<string>, s: Scan)
    requires s.name.Some? && s.name.value != "options"
    ensures exists r :: r in ListFrom(lines, s) && r.name == s.name.value
  {
    hide Classify;
    if lines == [] {
      assert Flush(s)[0] in ListFrom(lines, s);
    } else if Classify(lines[0]).Header? {
      assert Flush(s)[0] in ListFrom(lines, s);
    } else {
      SectionIsListed(lines[1..], Next(Classify(lines[0]), s));
    }
  }

  /**
   * Listing after a removal gives the old list without that repository, every other entry intact,
   * exactly when each header that lists under the name is written with single brackets.
   */
  lemma ListAfterRemoveExactly(content: string, name: string)
    requires BareName(name)
    ensures Repos(Removed(content, name)) == Except(Repos(content), name)
       <==> name == "options" || PlainHeaders(Lines(content), name)
  {
    hide Classify, ListFrom, RemoveFrom, Trim, Lines, Joined;
    var lines := Lines(content);
    var kept := RemoveFrom(lines, name, false);
    LinesAreSingle(content);
    RemoveKeepsSingle(lines, name, false);
    ListJoined(kept);
    if name == "options" || PlainHeaders(lines, name) {
      ListAfterRemove(lines, name, false, START, START);
      assert [] + Except(ListFrom(lines, START), name) == Except(ListFrom(lines, START), name);
    } else {
      var l :| l in lines && Classify(l) == Header(name) && Trim(l) != "[" + name + "]";
      HeaderKind(l);
      RemoveKeepsOddHeaders(lines, name, false, l);
      HeaderIsListed(kept, START, l, name);
      ExceptHasNone(Repos(content), name);
    }
  }

  /** Line `j` opens a section of that name, and no header of another one follows up to line `i`. */
  predicate Opens(lines: seq<string>, name: string, j: nat, i: nat)
    requires i < |lines|
  {
    && j <= i && Trim(lines[j]) == "[" + name + "]"
    && forall k :: j < k <= i ==> Trim(lines[k]) == "[" + name + "]" || !IsHeader(Trim(lines[k]))
  }

  /** Line `i` belongs to a removed section. */
  ghost predicate InRemoved(lines: seq<string>, name: string, i: nat)
    requires i < |lines|
  {
    exists j :: Opens(lines, name, j, i)
  }

  /** The loop is skipping after the first `n` lines exactly if the last of them is in such a section. */
  ghost predicate Skipping(lines: seq<string>, name: string, n: nat)
    requires n <= |lines|
  {
    n > 0 && InRemoved(lines, name, n - 1)
  }

  /** The lines from `n` on that are in no removed section. */
  ghost function Outside(lines: seq<string>, name: string, n: nat): seq<string>
    requires n <= |lines|
    decreases |lines| - n
  {
    if n == |lines| then []
    else (if InRemoved(lines, name, n) then [] else [lines[n]]) + Outside(lines, name, n + 1)
  }

  lemma SkippingNext(lines: seq<string>, name: string, n: nat)
    requires n < |lines|
    ensures InRemoved(lines, name, n) <==>
              Trim(lines[n]) == "[" + name + "]" || (Skipping(lines, name, n) && !IsHeader(Trim(lines[n])))
  {
    hide Trim, IsHeader;
    if Trim(lines[n]) == "[" + name + "]" {
      assert Opens(lines, name, n, n);
    }
    if n > 0 {
      forall j: nat | j < n
        ensures Opens(lines, name, j, n) <==>
                  Opens(lines, name, j, n - 1) && (Trim(lines[n]) == "[" + name + "]" || !IsHeader(Trim(lines[n])))
      {
      }
    }
    hide Opens;
    if j: nat :| Opens(lines, name, j, n) {
      OpensWithin(lines, name, j, n);
    }
    if Skipping(lines, name, n) {
      var j: nat :| Opens(lines, name, j, n - 1);
      OpensWithin(lines, name, j, n - 1);
      assert !IsHeader(Trim(lines[n])) ==> Opens(lines, name, j, n);
    }
  }

  lemma OpensWithin(lines: seq<string>, name: string, j: nat, i: nat)
    requires i < |lines| && Opens(lines, name, j, i)
    ensures j <= i && (j == i ==> Trim(lines[i]) == "[" + name + "]")
  {
  }

  lemma {:induction false} RemovesSections(lines: seq<string>, name: string, n: nat)
    requires n <= |lines|
    ensures RemoveFrom(lines[n..], name, Skipping(lines, name, n)) == Outside(lines, name, n)
    decreases |lines| - n
  {
    hide Trim, IsHeader, InRemoved;
    if n < |lines| {
      SkippingNext(lines, name, n);
      RemovesSections(lines, name, n + 1);
      assert lines[n..] == [lines[n]] + lines[n + 1..];
      RemoveCons(lines[n], lines[n + 1..], name, Skipping(lines, name, n));
      hide RemoveFrom;
    }
  }

  /** Removal takes out the sections of that name, with all their lines, and nothing else. */
  lemma RemovedExactly(lines: seq<string>, name: string)
    ensures RemoveFrom(lines, name, false) == Outside(lines, name, 0)
  {
    RemovesSections(lines, name, 0);
    assert lines[0..] == lines;
  }

  /** A header in double brackets is listed under the plain name, and no removal of that name finds it. */
  lemma DoubleBracketsStay(name: string)
    requires BareName(name) && name != "options"
    ensures var content := "[[" + name + "]]";
            && Repos(content) != [] && Repos(content)[0].name == name
            && Repos(Removed(content, name)) != Except(Repos(content), name)
  {
    hide Trim, Repos, Removed, Except, ListFrom, BareName;
    var content := "[[" + name + "]]";
    DoubleBracketsClassified(name);
    SingleLineIsItself(content);
    ListAfterRemoveExactly(content, name);
    assert Trim(content) != "[" + name + "]";
    assert content in Lines(content) && Classify(content) == Header(name);
    hide Classify;
    OneHeaderListed(content, name);
  }

  lemma SingleLineIsItself(l: string)
    requires SingleLine(l) && l != ""
    ensures Lines(l) == [l]
  {
  }

  lemma OneHeaderListed(l: string, name: string)
    requires Lines(l) == [l] && Classify(l) == Header(name) && name != "options"
    ensures Repos(l) == [Repo(name, "", "", "")]
  {
    hide Classify;
    KeptLine(l, [], START);
    assert [l] + [] == [l];
    ListEnd(Scan(Some(name), "", "", ""));
    hide ListFrom;
  }

  lemma DoubleBracketsClassified(name: string)
    requires BareName(name)
    ensures var l := "[[" + name + "]]"; Trim(l) == l && SingleLine(l) && Classify(l) == Header(name)
  {
    var l, single := "[[" + name + "]]", "[[" + name + "]";
    assert '\n' !in name by {
      assert IsSpace('\n');
    }
    TrimOfTrimmed(l);
    hide Trim;
    assert name[0] in name && name[|name| - 1] in name;
    assert l[|l| - 1] == ']' && l[..|l| - 1] == single;
    assert single[|single| - 1] == ']' && single[..|single| - 1] == "[[" + name;
    assert ("[[" + name)[|name| + 1] == name[|name| - 1];
    assert TrimBracketsEnd("[[" + name) == "[[" + name;
    assert TrimBracketsEnd(single) == "[[" + name;
    assert ("[[" + name)[1..] == "[" + name && ("[" + name)[1..] == name;
    assert TrimBracketsStart(name) == name;
    assert TrimBracketsStart("[" + name) == name;
  }

  // ----- Adding a repository -----

  predicate IsValidRepoUrl(url: string) {
    && (StartsWith(url, "http://") || StartsWith(url, "https://") || StartsWith(url, "ftp://") || StartsWith(url, "file://"))
    && forall c | c in url :: c !in "`$\n\r;|&"
  }

  /** What `tee -a` leaves in the file. */
  function Added(content: string, name: string, url: string): string {
    content + "\n[" + name + "]\nServer = " + url + "\n"
  }

  lemma {:induction false} ListAfterBreak(content: string, rest: string, s: Scan)
    ensures ListFrom(Lines(content + "\n" + rest), s) == ListFrom(Lines(content) + Lines(rest), s)
    decreases |content|
  {
    hide Classify, ListFrom, Trim, IndexOf;
    if '\n' !in content {
      ListAfterLastLine(content, rest, s);
    } else {
      var head, more := FirstBreak(content);
      var first := StripCR(head);
      hide Lines, StripCR;
      Regroup3(head, "\n", more, "\n", rest);
      LinesCons(head, more + "\n" + rest);
      Regroup([first], Lines(more), Lines(rest));
      KeptLine(first, Lines(more + "\n" + rest), s);
      KeptLine(first, Lines(more) + Lines(rest), s);
      ListAfterBreak(more, rest, After(Classify(first), s));
    }
  }

  lemma FirstBreak(content: string) returns (head: string, more: string)
    requires '\n' in content
    ensures content == head + "\n" + more && SingleLine(head) && |more| < |content|
    ensures Lines(content) == [StripCR(head)] + Lines(more)
  {
    var i := IndexOf(content, '\n');
    head, more := content[..i], content[i + 1..];
    assert content == head + "\n" + more;
    hide StripCR;
  }

  lemma ListAfterLastLine(line: string, rest: string, s: Scan)
    requires SingleLine(line)
    ensures ListFrom(Lines(line + "\n" + rest), s) == ListFrom(Lines(line) + Lines(rest), s)
  {
    hide Classify, ListFrom;
    LinesCons(line, rest);
    CRIgnored(line);
    KeptLine(StripCR(line), Lines(rest), s);
    if line == "" {
      assert Lines(line) + Lines(rest) == Lines(rest);
      BlankLine();
    } else {
      assert Lines(line) == [line];
      KeptLine(line, Lines(rest), s);
    }
  }

  lemma BlankLine()
    ensures Classify("") == Blank
  {
  }

  /** A section appended to any lines is listed after all of theirs. */
  lemma {:induction false} ListAppendSection(lines: seq<string>, header: string, body: seq<string>, s: Scan)
    requires Classify(header).Header?
    ensures ListFrom(lines + ([header] + body), s)
         == ListFrom(lines, s) + ListFrom(body, Scan(Some(Classify(header).name), "", "", ""))
  {
    hide Classify;
    if lines == [] {
      assert lines + ([header] + body) == [header] + body;
      KeptLine(header, body, s);
    } else {
      var line, rest := lines[0], lines[1..];
      assert lines + ([header] + body) == [line] + (rest + ([header] + body)) && lines == [line] + rest;
      KeptLine(line, rest + ([header] + body), s);
      KeptLine(line, rest, s);
      hide ListFrom;
      ListAppendSection(rest, header, body, After(Classify(line), s));
    }
  }

  lemma UrlFront(url: string)
    requires IsValidRepoUrl(url)
    ensures url != "" && (url[0] == 'h' || url[0] == 'f')
    ensures TrimEnd(url) != "" && TrimEnd(url)[0] == url[0]
  {
    assert url == [url[0]] + url[1..];
    TrimEndKeepsFront([url[0]], url[1..]);
  }

  /** Trimming `key = url` trims only the end of the address. */
  lemma AssignmentTrims(key: string, url: string)
    requires key != "" && !IsSpace(key[0])
    requires url != "" && !IsSpace(url[0])
    ensures Trim(key + " = " + url) == key + " = " + TrimEnd(url)
  {
    var head, tail := key + " = ", url[1..];
    var first := [url[0]];
    assert url == first + tail;
    TrimEndKeepsFront(first, tail);
    Regroup(head, first, tail);
    Regroup(head, first, TrimEnd(tail));
    TrimEndKeepsFront(head + first, tail);
    hide TrimEnd;
    assert (head + TrimEnd(url))[0] == key[0];
  }

  lemma ServerLine(url: string)
    requires IsValidRepoUrl(url)
    ensures Classify("Server = " + url) == Server(TrimEnd(url))
  {
    hide TrimEnd, Trim, TrimStart, TrimAssign, TrimBrackets, IsValidRepoUrl;
    UrlFront(url);
    var u := TrimEnd(url);
    AssignmentTrims("Server", url);
    assert "Server" + " = " + url == "Server = " + url;
    var l := "Server" + " = " + u;
    assert l[0] == 'S' && l[..6] == "Server" && l[6..] == " = " + u;
    AssignTrimmed(u);
  }

  lemma AssignTrimmed(u: string)
    requires u != "" && u[0] != '=' && !IsSpace(u[0])
    ensures TrimAssign(" = " + u) == u
  {
    assert (" = " + u)[1..] == "= " + u && ("= " + u)[1..] == " " + u && (" " + u)[1..] == u;
    assert TrimAssign(" " + u) == u;
    assert TrimAssign("= " + u) == u;
  }

  /**
   * Listing after an addition: the old list and the new entry after it. Only a section called
   * "options" is never listed, and only white space behind the address is lost.
   */
  lemma ListAfterAdd(content: string, name: string, url: string)
    requires BareName(name) && IsValidRepoUrl(url)
    ensures Repos(Added(content, name, url))
         == Repos(content) + if name == "options" then [] else [Repo(name, TrimEnd(url), "", "")]
  {
    hide Classify, ListFrom, Lines, Trim, TrimEnd, IsValidRepoUrl, StripCR;
    var header, server := "[" + name + "]", "Server = " + url;
    var block := header + "\n" + (server + "\n");
    assert Added(content, name, url) == content + "\n" + block;
    ListAfterBreak(content, block, START);
    LinesOfBlock(name, url);
    HeaderClassified(name);
    ServerLine(url);
    CRIgnored(server);
    CRIgnored(header);
    ListAppendSection(Lines(content), StripCR(header), [StripCR(server)], START);
    assert [StripCR(server)] == [StripCR(server)] + [];
    KeptLine(StripCR(server), [], Scan(Some(name), "", "", ""));
    ListEnd(Scan(Some(name), TrimEnd(url), "", ""));
  }

  lemma ListEnd(s: Scan)
    ensures ListFrom([], s) == Flush(s)
  {
  }

  lemma CRIgnored(line: string)
    ensures Classify(StripCR(line)) == Classify(line)
  {
    TrimIgnoresCR(line);
    hide Trim;
  }

  lemma HeaderClassified(name: string)
    requires BareName(name)
    ensures Classify("[" + name + "]") == Header(name)
  {
    TrimOfTrimmed("[" + name + "]");
    TargetIsHeader("[" + name + "]", name);
  }

  lemma LinesOfBlock(name: string, url: string)
    requires BareName(name) && IsValidRepoUrl(url)
    ensures var header, server := "[" + name + "]", "Server = " + url;
            Lines(header + "\n" + (server + "\n")) == [StripCR(header)] + [StripCR(server)]
  {
    var header, server := "[" + name + "]", "Server = " + url;
    assert '\n' !in name && '\n' !in url by {
      assert IsSpace('\n') && '\n' in "`$\n\r;|&";
    }
    LinesCons(header, server + "\n");
    assert server + "\n" == server + "\n" + "";
    LinesCons(server, "");
    assert [StripCR(server)] + Lines("") == [StripCR(server)];
  }
}
