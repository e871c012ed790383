/** Reading and editing `key = value` files with `[section]` headers (dnf's automatic.conf). */
module Ini {
  import opened Wrappers
  import opened Text

  // ----- What a document means -----

  datatype Line = Header(name: string) | Pair(key: string, value: string) | Other

  function Classify(line: string): Line {
    var l := Trim(line);
    if l != "" && l[0] == '[' && l[|l| - 1] == ']' then Header(l[1..|l| - 1])
    else
      var i := IndexOf(l, '=');
      if i < |l| then Pair(Trim(l[..i]), Trim(l[i + 1..])) else Other
  }

  datatype Binding = Binding(section: string, key: string, value: string)

  /** All bindings in order, `current` being the section the first line is in. */
  function Bindings(lines: seq<string>, current: Option<string>): seq<Binding> {
    if lines == [] then []
    else match Classify(lines[0])
      case Header(name) => Bindings(lines[1..], Some(name))
      case Pair(k, v) =>
        if current.Some? then [Binding(current.value, k, v)] + Bindings(lines[1..], current)
        else Bindings(lines[1..], current)
      case Other => Bindings(lines[1..], current)
  }

  /** The first binding of a key in a section. */
  function Lookup(bs: seq<Binding>, section: string, key: string): Option<string> {
    if bs == [] then None
    else if bs[0].section == section && bs[0].key == key then Some(bs[0].value)
    else Lookup(bs[1..], section, key)
  }

  function Meaning(content: string): seq<Binding> {
    Bindings(Lines(content), None)
  }

  // ----- The setting loop, as a function of its state -----

  type Settings = seq<(string, string)>

  predicate HasKey(kv: Settings, key: string) {
    exists p :: p in kv && p.0 == key
  }

  /** The value of the first setting with this key. */
  function ValueOf(kv: Settings, key: string): string
    requires HasKey(kv, key)
  {
    if kv[0].0 == key then kv[0].1 else ValueOf(kv[1..], key)
  }

  function Rendered(key: string, value: string): string {
    key + " = " + value
  }

  function Missing(kv: Settings, done: set<string>): seq<string> {
    if kv == [] then []
    else if kv[0].0 in done then Missing(kv[1..], done)
    else [Rendered(kv[0].0, kv[0].1)] + Missing(kv[1..], done)
  }

  /** The loop's variables: in the section, seen the section, keys replaced so far. */
  datatype Progress = Progress(inside: bool, seen: bool, done: set<string>)

  const START := Progress(false, false, {})

  function Finish(section: string, kv: Settings, p: Progress): seq<string> {
    (if p.inside then Missing(kv, p.done) else [])
    + (if !p.seen then ["[" + section + "]"] + Missing(kv, {}) else [])
  }

  function Emitted(line: string, section: string, kv: Settings, p: Progress): seq<string> {
    match Classify(line)
    case Header(_) => (if p.inside then Missing(kv, p.done) else []) + [line]
    case Pair(k, _) => if p.inside && HasKey(kv, k) then [Rendered(k, ValueOf(kv, k))] else [line]
    case Other => [line]
  }

  function Advanced(line: string, section: string, kv: Settings, p: Progress): Progress {
    match Classify(line)
    case Header(name) => Progress(name == section, p.seen || name == section, p.done)
    case Pair(k, _) => if p.inside && HasKey(kv, k) then p.(done := p.done + {k}) else p
    case Other => p
  }

  function SetFrom(lines: seq<string>, section: string, kv: Settings, p: Progress): seq<string> {
    if lines == [] then Finish(section, kv, p)
    else Emitted(lines[0], section, kv, p) + SetFrom(lines[1..], section, kv, Advanced(lines[0], section, kv, p))
  }

  function SetContent(content: string, section: string, kv: Settings): string {
    Unlines(SetFrom(Lines(content), section, kv, START))
  }

  // ----- The source's loops -----

  method IniGet(content: string, section: string, key: string) returns (r: Option<string>)
    ensures r == Lookup(Meaning(content), section, key)
  {
    hide Classify;
    var lines := Lines(content);
    var inSection := false;
    ghost var current: Option<string> := None;
    for i := 0 to |lines|
      invariant inSection <==> current == Some(section)
      invariant Lookup(Meaning(content), section, key) == Lookup(Bindings(lines[i..], current), section, key)
    {
      assert lines[i..][1..] == lines[i + 1..];
      match Classify(lines[i]) {
        case Header(name) =>
          inSection := name == section;
          current := Some(name);
        case Pair(k, v) =>
          if inSection && k == key {
            return Some(v);
          }
        case Other =>
      }
    }
    r := None;
  }

  method AppendMissing(out: seq<string>, kv: Settings, done: set<string>) returns (r: seq<string>)
    ensures r == out + Missing(kv, done)
  {
    r := out;
    for i := 0 to |kv|
      invariant out + Missing(kv, done) == r + Missing(kv[i..], done)
    {
      assert kv[i..][1..] == kv[i + 1..];
      if kv[i].0 !in done {
        r := r + [Rendered(kv[i].0, kv[i].1)];
      }
    }
  }

  method FindSetting(kv: Settings, key: string) returns (found: bool, value: string)
    ensures found <==> HasKey(kv, key)
    ensures found ==> value == ValueOf(kv, key)
  {
    found, value := false, "";
    for i := 0 to |kv|
      invariant HasKey(kv, key) <==> HasKey(kv[i..], key)
      invariant HasKey(kv, key) ==> ValueOf(kv, key) == ValueOf(kv[i..], key)
    {
      assert kv[i..][1..] == kv[i + 1..];
      if kv[i].0 == key {
        assert kv[i..][0] == kv[i];
        return true, kv[i].1;
      }
      assert forall p :: p in kv[i..] <==> p == kv[i] || p in kv[i + 1..];
    }
  }

  /** The loop body: what one line emits, and the variables after it. */
  method SetLine(line: string, section: string, kv: Settings, before: seq<string>, p: Progress)
    returns (out: seq<string>, q: Progress)
    ensures out == before + Emitted(line, section, kv, p)
    ensures q == Advanced(line, section, kv, p)
  {
    hide Classify, Missing, ValueOf, HasKey, Rendered;
    out, q := before, p;
    match Classify(line) {
      case Header(name) =>
        if p.inside {
          out := AppendMissing(out, kv, p.done);
        }
        q := q.(inside := name == section);
        if q.inside {
          q := q.(seen := true);
        }
        out := out + [line];
      case Pair(k, _) =>
        var found, value := false, "";
        if p.inside {
          found, value := FindSetting(kv, k);
        }
        if found {
          out := out + [Rendered(k, value)];
          q := q.(done := q.done + {k});
        } else {
          out := out + [line];
        }
      case Other =>
        out := out + [line];
    }
  }

  method IniSet(content: string, section: string, kv: Settings) returns (r: string)
    ensures r == SetContent(content, section, kv)
  {
    hide SetFrom, Emitted, Advanced, Lines, Missing, Unlines, Joined;
    var lines := Lines(content);
    var out: seq<string> := [];
    var p := START;
    assert lines[0..] == lines;
    for i := 0 to |lines|
      invariant SetFrom(lines, section, kv, START) == out + SetFrom(lines[i..], section, kv, p)
    {
      SetFromUnrolled(lines, i, section, kv, p);
      out, p := SetLine(lines[i], section, kv, out, p);
    }
    SetFromEnd(lines, section, kv, p);
    if p.inside {
      out := AppendMissing(out, kv, p.done);
    }
    if !p.seen {
      out := AppendMissing(out + ["[" + section + "]"], kv, {});
    }
    SetFromNonEmpty(lines, section, kv, START);
    assert out == SetFrom(lines, section, kv, START);
    JoinedIsUnlines(out);
    r := Joined(out) + "\n";
  }

  lemma SetFromUnrolled(lines: seq<string>, i: nat, section: string, kv: Settings, p: Progress)
    requires i < |lines|
    ensures SetFrom(lines[i..], section, kv, p)
         == Emitted(lines[i], section, kv, p) + SetFrom(lines[i + 1..], section, kv, Advanced(lines[i], section, kv, p))
  {
    assert lines[i..][1..] == lines[i + 1..];
  }

  lemma SetFromEnd(lines: seq<string>, section: string, kv: Settings, p: Progress)
    ensures SetFrom(lines[|lines|..], section, kv, p) == Finish(section, kv, p)
  {
  }

  lemma SetFromNonEmpty(lines: seq<string>, section: string, kv: Settings, p: Progress)
    requires !p.seen || lines != []
    ensures SetFrom(lines, section, kv, p) != []
  {
  }

  // ----- Reading after setting -----

  /** Settings that are one line each and survive trimming. */
  predicate Settable(section: string, kv: Settings) {
    && SingleLine(section)
    && forall p :: p in kv ==>
         && Trimmed(p.0) && SingleLine(p.0) && '=' !in p.0 && (p.0 != "" ==> p.0[0] != '[')
         && Trimmed(p.1) && SingleLine(p.1)
  }

  lemma ClassifyHeader(section: string)
    ensures Classify("[" + section + "]") == Header(section)
  {
    var l := "[" + section + "]";
    TrimOfTrimmed(l);
    assert l[1..|l| - 1] == section;
  }

  lemma RenderedTrims(k: string, v: string)
    requires Trimmed(k) && Trimmed(v)
    ensures Trim(Rendered(k, v)) == (if k == "" then "=" else k + " =") + (if v == "" then "" else " " + v)
  {
    var core := (if k == "" then "=" else k + " =") + (if v == "" then "" else " " + v);
    var before, after := if k == "" then " " else "", if v == "" then " " else "";
    assert Rendered(k, v) == before + core + after;
    TrimBetween(before, core, after);
  }

  lemma ClassifyRendered(k: string, v: string)
    requires Trimmed(k) && '=' !in k && (k != "" ==> k[0] != '[') && Trimmed(v)
    ensures Classify(Rendered(k, v)) == Pair(k, v)
  {
    RenderedTrims(k, v);
    var l := Trim(Rendered(k, v));
    var i := if k == "" then 0 else |k| + 1;
    IndexOfAt(l, '=', i);
    if k == "" {
      TrimBetween("", k, "");
      assert l[..i] == "";
    } else {
      assert l[..i] == "" + k + " ";
      TrimBetween("", k, " ");
    }
    if v == "" {
      assert l[i + 1..] == "";
    } else {
      assert l[i + 1..] == " " + v + "";
      TrimBetween(" ", v, "");
    }
  }

  lemma ClassifyIgnoresCR(l: string)
    ensures Classify(StripCR(l)) == Classify(l)
  {
    TrimIgnoresCR(l);
  }

  lemma {:induction false} BindingsIgnoreCR(ls: seq<string>, current: Option<string>)
    ensures Bindings(StripCRs(ls), current) == Bindings(ls, current)
  {
    if ls != [] {
      ClassifyIgnoresCR(ls[0]);
      assert StripCRs(ls)[1..] == StripCRs(ls[1..]);
      match Classify(ls[0])
      case Header(name) => BindingsIgnoreCR(ls[1..], Some(name));
      case _ => BindingsIgnoreCR(ls[1..], current);
    }
  }

  lemma {:induction false} LookupAppend(a: seq<Binding>, b: seq<Binding>, section: string, key: string)
    ensures Lookup(a + b, section, key)
         == if Lookup(a, section, key).Some? then Lookup(a, section, key) else Lookup(b, section, key)
  {
    if a == [] {
      assert a + b == b;
    } else {
      LookupAppend(a[1..], b, section, key);
      assert (a + b)[1..] == a[1..] + b;
    }
  }

  /** The bindings that the missing settings add. */
  function MissingBindings(kv: Settings, done: set<string>, section: string): seq<Binding> {
    if kv == [] then []
    else if kv[0].0 in done then MissingBindings(kv[1..], done, section)
    else [Binding(section, kv[0].0, kv[0].1)] + MissingBindings(kv[1..], done, section)
  }

  lemma BindingsPair(line: string, rest: seq<string>, section: string)
    requires Classify(line).Pair?
    ensures Bindings([line] + rest, Some(section))
         == [Binding(section, Classify(line).key, Classify(line).value)] + Bindings(rest, Some(section))
  {
    assert ([line] + rest)[1..] == rest;
  }

  lemma {:induction false} BindingsOfMissing(kv: Settings, done: set<string>, rest: seq<string>, section: string)
    requires Settable(section, kv)
    ensures Bindings(Missing(kv, done) + rest, Some(section))
         == MissingBindings(kv, done, section) + Bindings(rest, Some(section))
  {
    hide Classify, Bindings;
    if kv == [] {
      assert Missing(kv, done) + rest == rest;
    } else {
      BindingsOfMissing(kv[1..], done, rest, section);
      if kv[0].0 !in done {
        var line, more := Rendered(kv[0].0, kv[0].1), Missing(kv[1..], done);
        ClassifyRendered(kv[0].0, kv[0].1);
        BindingsPair(line, more + rest, section);
        Regroup([line], more, rest);
        Regroup([Binding(section, kv[0].0, kv[0].1)], MissingBindings(kv[1..], done, section), Bindings(rest, Some(section)));
        hide Settable;
      }
    }
  }

  lemma {:induction false} LookupMissing(kv: Settings, done: set<string>, section: string, s: string, key: string)
    ensures Lookup(MissingBindings(kv, done, section), s, key)
         == if s == section && key !in done && HasKey(kv, key) then Some(ValueOf(kv, key)) else None
  {
    if kv != [] {
      LookupMissing(kv[1..], done, section, s, key);
      assert forall p :: p in kv <==> p == kv[0] || p in kv[1..];
    }
  }

  /** The section a run of the loop is in. */
  ghost predicate InSync(p: Progress, current: Option<string>, section: string) {
    && (p.inside <==> current == Some(section))
    && (p.inside ==> p.seen)
  }

  ghost predicate IsSet(kv: Settings, section: string, s: string, key: string) {
    s == section && HasKey(kv, key)
  }

  lemma BindingsHeader(line: string, rest: seq<string>, current: Option<string>)
    requires Classify(line).Header?
    ensures Bindings([line] + rest, current) == Bindings(rest, Some(Classify(line).name))
  {
    assert ([line] + rest)[1..] == rest;
  }

  lemma LookupAfterFinish(section: string, kv: Settings, p: Progress, current: Option<string>, s: string, key: string)
    requires Settable(section, kv) && InSync(p, current, section)
    ensures var got := Lookup(Bindings(Finish(section, kv, p), current), s, key);
            && (!IsSet(kv, section, s, key) ==> got == None)
            && (IsSet(kv, section, s, key) && key !in p.done && (p.inside || !p.seen) ==> got == Some(ValueOf(kv, key)))
  {
    if p.inside {
      assert Finish(section, kv, p) == Missing(kv, p.done) + [];
      BindingsOfMissing(kv, p.done, [], section);
      assert MissingBindings(kv, p.done, section) + [] == MissingBindings(kv, p.done, section);
      LookupMissing(kv, p.done, section, s, key);
    } else if !p.seen {
      assert Finish(section, kv, p) == ["[" + section + "]"] + (Missing(kv, {}) + []);
      ClassifyHeader(section);
      BindingsHeader("[" + section + "]", Missing(kv, {}) + [], current);
      BindingsOfMissing(kv, {}, [], section);
      assert MissingBindings(kv, {}, section) + [] == MissingBindings(kv, {}, section);
      LookupMissing(kv, {}, section, s, key);
    }
  }

  /** What is emitted at a header binds the settings still missing in the section it ends. */
  lemma LookupAfterHeader(line: string, rest: seq<string>, section: string, kv: Settings, p: Progress,
                          current: Option<string>, s: string, key: string)
    requires Settable(section, kv) && InSync(p, current, section) && Classify(line).Header?
    ensures Lookup(Bindings(Emitted(line, section, kv, p) + rest, current), s, key)
         == if p.inside && IsSet(kv, section, s, key) && key !in p.done then Some(ValueOf(kv, key))
            else Lookup(Bindings(rest, Some(Classify(line).name)), s, key)
  {
    hide Classify, Lookup;
    var name := Classify(line).name;
    BindingsHeader(line, rest, current);
    if p.inside {
      BindingsHeader(line, rest, Some(section));
      assert Emitted(line, section, kv, p) + rest == Missing(kv, p.done) + ([line] + rest);
      BindingsOfMissing(kv, p.done, [line] + rest, section);
      LookupAppend(MissingBindings(kv, p.done, section), Bindings(rest, Some(name)), s, key);
      LookupMissing(kv, p.done, section, s, key);
      hide Bindings;
    } else {
      assert Emitted(line, section, kv, p) + rest == [line] + rest;
    }
  }

  /** What looking up a key finds in the edited lines, from any point of the loop on. */
  lemma {:induction false} LookupAfterSet(
      lines: seq<string>, section: string, kv: Settings, p: Progress, current: Option<string>, s: string, key: string)
    requires Settable(section, kv) && InSync(p, current, section)
    ensures var got := Lookup(Bindings(SetFrom(lines, section, kv, p), current), s, key);
            && (!IsSet(kv, section, s, key) ==> got == Lookup(Bindings(lines, current), s, key))
            && (IsSet(kv, section, s, key) && key !in p.done && (p.inside || !p.seen) ==> got == Some(ValueOf(kv, key)))
  {
    hide Classify;
    if lines == [] {
      LookupAfterFinish(section, kv, p, current, s, key);
    } else {
      var line, p' := lines[0], Advanced(lines[0], section, kv, p);
      var rest := SetFrom(lines[1..], section, kv, p');
      var out := Emitted(line, section, kv, p) + rest;
      match Classify(line)
      case Header(name) =>
        LookupAfterSet(lines[1..], section, kv, p', Some(name), s, key);
        LookupAfterHeader(line, rest, section, kv, p, current, s, key);
      case Pair(k, v) =>
        LookupAfterSet(lines[1..], section, kv, p', current, s, key);
        if p.inside && HasKey(kv, k) {
          SettableAt(section, kv, k);
          ClassifyRendered(k, ValueOf(kv, k));
        }
        assert out[1..] == rest;
      case Other =>
        LookupAfterSet(lines[1..], section, kv, p', current, s, key);
        assert out[1..] == rest;
    }
  }

  lemma {:induction false} SettableAt(section: string, kv: Settings, key: string)
    requires Settable(section, kv) && HasKey(kv, key)
    ensures (key, ValueOf(kv, key)) in kv
  {
    assert forall p :: p in kv <==> p == kv[0] || p in kv[1..];
    if kv[0].0 != key {
      SettableAt(section, kv[1..], key);
    }
  }

  lemma {:induction false} MissingIsSingle(section: string, kv: Settings, done: set<string>)
    requires Settable(section, kv)
    ensures AllSingle(Missing(kv, done))
  {
    if kv != [] {
      MissingIsSingle(section, kv[1..], done);
    }
  }

  lemma {:induction false} SetFromIsSingle(lines: seq<string>, section: string, kv: Settings, p: Progress)
    requires Settable(section, kv) && AllSingle(lines)
    ensures AllSingle(SetFrom(lines, section, kv, p))
  {
    MissingIsSingle(section, kv, p.done);
    MissingIsSingle(section, kv, {});
    if lines != [] {
      var k := Classify(lines[0]);
      if k.Pair? && p.inside && HasKey(kv, k.key) {
        SettableAt(section, kv, k.key);
      }
      SetFromIsSingle(lines[1..], section, kv, Advanced(lines[0], section, kv, p));
    }
  }

  /**
   * Reading after setting: each key set reads as its value, and every other key of this or any
   * other section reads as before. Sections and keys may repeat in the old content.
   */
  lemma GetAfterSet(content: string, section: string, kv: Settings, s: string, key: string)
    requires Settable(section, kv)
    ensures Lookup(Meaning(SetContent(content, section, kv)), s, key)
         == if IsSet(kv, section, s, key) then Some(ValueOf(kv, key)) else Lookup(Meaning(content), s, key)
  {
    var out := SetFrom(Lines(content), section, kv, START);
    LinesAreSingle(content);
    SetFromIsSingle(Lines(content), section, kv, START);
    LinesUnlines(out, "");
    assert Unlines(out) + "" == Unlines(out) && StripCRs(out) + [] == StripCRs(out);
    BindingsIgnoreCR(out, None);
    LookupAfterSet(Lines(content), section, kv, START, None, s, key);
  }

  // ----- What else stays -----

  /** A line that sets none of these keys, in any section: headers, comments, other settings. */
  predicate Unrelated(line: string, kv: Settings) {
    !(Classify(line).Pair? && HasKey(kv, Classify(line).key))
  }

  function AllUnrelated(lines: seq<string>, kv: Settings): seq<string> {
    if lines == [] then []
    else (if Unrelated(lines[0], kv) then [lines[0]] else []) + AllUnrelated(lines[1..], kv)
  }

  lemma {:induction false} UnrelatedAppend(a: seq<string>, b: seq<string>, kv: Settings)
    ensures AllUnrelated(a + b, kv) == AllUnrelated(a, kv) + AllUnrelated(b, kv)
  {
    hide Unrelated;
    if a == [] {
      assert a + b == b;
    } else {
      UnrelatedAppend(a[1..], b, kv);
      assert (a + b)[1..] == a[1..] + b && (a + b)[0] == a[0];
      Regroup(if Unrelated(a[0], kv) then [a[0]] else [], AllUnrelated(a[1..], kv), AllUnrelated(b, kv));
    }
  }

  lemma {:induction false} MissingIsRelated(section: string, all: Settings, kv: Settings, done: set<string>)
    requires Settable(section, all) && forall p | p in kv :: p in all
    ensures AllUnrelated(Missing(kv, done), all) == []
  {
    hide Classify;
    if kv != [] {
      MissingIsRelated(section, all, kv[1..], done);
      assert kv[0] in all;
      ClassifyRendered(kv[0].0, kv[0].1);
    }
  }

  lemma OneUnrelated(line: string, kv: Settings)
    ensures AllUnrelated([line], kv) == if Unrelated(line, kv) then [line] else []
  {
    assert AllUnrelated([line][1..], kv) == [];
    hide Unrelated;
  }

  lemma EmittedUnrelated(line: string, section: string, kv: Settings, p: Progress)
    requires Settable(section, kv)
    ensures AllUnrelated(Emitted(line, section, kv, p), kv) == AllUnrelated([line], kv)
  {
    MissingIsRelated(section, kv, kv, p.done);
    OneUnrelated(line, kv);
    if Classify(line).Header? && p.inside {
      UnrelatedAppend(Missing(kv, p.done), [line], kv);
      assert [] + AllUnrelated([line], kv) == AllUnrelated([line], kv);
    } else if Replaced(line, kv, p) {
      var k := Classify(line).key;
      SettableAt(section, kv, k);
      ClassifyRendered(k, ValueOf(kv, k));
      OneUnrelated(Rendered(k, ValueOf(kv, k)), kv);
    } else {
      assert Emitted(line, section, kv, p) == [line];
    }
    hide Classify, Missing, ValueOf, HasKey, Settable, Rendered;
  }

  /** The section is new: its header is the one line of another kind that appears. */
  ghost predicate HasSection(lines: seq<string>, section: string) {
    exists l :: l in lines && Classify(l) == Header(section)
  }

  lemma FinishUnrelated(section: string, kv: Settings, p: Progress)
    requires Settable(section, kv) && (p.inside ==> p.seen)
    ensures AllUnrelated(Finish(section, kv, p), kv) == if p.seen then [] else ["[" + section + "]"]
  {
    var header := "[" + section + "]";
    MissingIsRelated(section, kv, kv, p.done);
    MissingIsRelated(section, kv, kv, {});
    ClassifyHeader(section);
    OneUnrelated(header, kv);
    UnrelatedAppend([header], Missing(kv, {}), kv);
    hide Classify, Missing, Settable;
    if p.inside {
      assert Finish(section, kv, p) == Missing(kv, p.done);
    } else if !p.seen {
      assert Finish(section, kv, p) == [header] + Missing(kv, {});
      assert [header] + [] == [header];
    }
  }

  lemma {:induction false} SetFromUnrelated(lines: seq<string>, section: string, kv: Settings, p: Progress)
    requires Settable(section, kv) && (p.inside ==> p.seen)
    ensures AllUnrelated(SetFrom(lines, section, kv, p), kv)
         == AllUnrelated(lines, kv) + if p.seen || HasSection(lines, section) then [] else ["[" + section + "]"]
  {
    hide Settable, Emitted, Finish, Unrelated, Classify;
    if lines == [] {
      FinishUnrelated(section, kv, p);
    } else {
      var line, rest, q := lines[0], lines[1..], Advanced(lines[0], section, kv, p);
      assert q.seen <==> p.seen || Classify(line) == Header(section);
      assert lines == [line] + rest;
      assert HasSection(lines, section) <==> Classify(line) == Header(section) || HasSection(rest, section);
      SetFromUnrelated(rest, section, kv, q);
      EmittedUnrelated(line, section, kv, p);
      UnrelatedAppend(Emitted(line, section, kv, p), SetFrom(rest, section, kv, q), kv);
      UnrelatedAppend([line], rest, kv);
      hide AllUnrelated, Advanced, HasSection;
    }
  }

  /**
   * Setting keeps every line that sets none of the keys, in its order: comments, headers and other
   * settings. The only such line it adds is the header of a section that was not there.
   */
  lemma UnrelatedLinesStay(lines: seq<string>, section: string, kv: Settings)
    requires Settable(section, kv)
    ensures AllUnrelated(SetFrom(lines, section, kv, START), kv)
         == AllUnrelated(lines, kv) + if HasSection(lines, section) then [] else ["[" + section + "]"]
  {
    SetFromUnrelated(lines, section, kv, START);
  }

  // ----- Setting twice -----

  predicate DistinctKeys(kv: Settings) {
    forall i, j :: 0 <= i < j < |kv| ==> kv[i].0 != kv[j].0
  }

  /** No line keeps a carriage return at its end once the line break is gone. */
  predicate NoTrailingCR(lines: seq<string>) {
    forall i :: 0 <= i < |lines| ==> StripCR(lines[i]) == lines[i]
  }

  function Keys(kv: Settings): set<string> {
    set p | p in kv :: p.0
  }

  lemma {:induction false} ValueAt(kv: Settings, i: nat)
    requires DistinctKeys(kv) && i < |kv|
    ensures HasKey(kv, kv[i].0) && ValueOf(kv, kv[i].0) == kv[i].1
  {
    if i > 0 {
      assert kv[1..][i - 1] == kv[i];
      ValueAt(kv[1..], i - 1);
    }
  }

  lemma {:induction false} NothingMissing(kv: Settings, done: set<string>)
    requires Keys(kv) <= done
    ensures Missing(kv, done) == []
  {
    if kv != [] {
      NothingMissing(kv[1..], done);
    }
  }

  lemma KeysCons(kv: Settings)
    requires kv != []
    ensures Keys(kv) == {kv[0].0} + Keys(kv[1..])
  {
    assert forall p :: p in kv <==> p == kv[0] || p in kv[1..];
  }

  /** A line that already carries its setting is kept, and its key counts as done. */
  lemma RenderedStays(kv: Settings, i: nat, section: string, done2: set<string>, rest: seq<string>)
    requires Settable(section, kv) && DistinctKeys(kv) && i < |kv|
    ensures var line := Rendered(kv[i].0, kv[i].1);
            SetFrom([line] + rest, section, kv, Progress(true, true, done2)) ==
            [line] + SetFrom(rest, section, kv, Progress(true, true, done2 + {kv[i].0}))
  {
    var line := Rendered(kv[i].0, kv[i].1);
    ValueAt(kv, i);
    ClassifyRendered(kv[i].0, kv[i].1);
    assert ([line] + rest)[1..] == rest;
  }

  /** The appended settings are rewritten to themselves, and count as done afterwards. */
  lemma {:induction false} MissingStays(
      i: nat, section: string, kv: Settings, done: set<string>, rest: seq<string>, done2: set<string>)
    requires Settable(section, kv) && DistinctKeys(kv) && i <= |kv|
    ensures SetFrom(Missing(kv[i..], done) + rest, section, kv, Progress(true, true, done2))
         == Missing(kv[i..], done)
            + SetFrom(rest, section, kv, Progress(true, true, done2 + (Keys(kv[i..]) - done)))
    decreases |kv| - i
  {
    hide SetFrom;
    if i == |kv| {
      assert Missing(kv[i..], done) + rest == rest;
      assert done2 + (Keys(kv[i..]) - done) == done2;
    } else {
      var k, missing := kv[i].0, Missing(kv[i + 1..], done);
      assert kv[i..][1..] == kv[i + 1..];
      KeysCons(kv[i..]);
      if k in done {
        MissingStays(i + 1, section, kv, done, rest, done2);
        assert done2 + (Keys(kv[i..]) - done) == done2 + (Keys(kv[i + 1..]) - done);
      } else {
        var line := Rendered(k, kv[i].1);
        MissingStays(i + 1, section, kv, done, rest, done2 + {k});
        RenderedStays(kv, i, section, done2, missing + rest);
        var after := done2 + (Keys(kv[i..]) - done);
        assert done2 + {k} + (Keys(kv[i + 1..]) - done) == after;
        assert Missing(kv[i..], done) == [line] + missing;
        hide Missing, Settable, DistinctKeys, Keys;
        Regroup([line], missing, rest);
        Regroup([line], missing, SetFrom(rest, section, kv, Progress(true, true, after)));
      }
    }
  }

  lemma SetTwiceFinish(section: string, kv: Settings, p: Progress, done2: set<string>)
    requires Settable(section, kv) && DistinctKeys(kv)
    requires (p.inside ==> p.seen) && p.done <= done2
    ensures SetFrom(Finish(section, kv, p), section, kv, p.(done := done2)) == Finish(section, kv, p)
  {
    hide Classify, Settable, DistinctKeys, Keys;
    if p.inside {
      AllMissingStay(section, kv, p.done, [], done2);
      assert Missing(kv, p.done) + [] == Finish(section, kv, p) == Missing(kv, p.done);
    } else if !p.seen {
      var header := "[" + section + "]";
      ClassifyHeader(section);
      AllMissingStay(section, kv, {}, [], done2);
      SetFromCons(header, Missing(kv, {}) + [], section, kv, p.(done := done2));
      hide SetFrom, Missing;
      assert Finish(section, kv, p) == [header] + (Missing(kv, {}) + []);
    }
  }

  /** Any one line in front: what it emits, then the rest from the state after it. */
  lemma SetFromCons(line: string, rest: seq<string>, section: string, kv: Settings, p: Progress)
    ensures SetFrom([line] + rest, section, kv, p)
         == Emitted(line, section, kv, p) + SetFrom(rest, section, kv, Advanced(line, section, kv, p))
  {
    assert ([line] + rest)[1..] == rest;
  }

  /** The inductive step: one line is edited twice as it is edited once, if the rest is. */
  lemma SetTwiceLine(
      line: string, rest: seq<string>, section: string, kv: Settings, p: Progress, done2: set<string>, after: set<string>)
    requires Settable(section, kv) && DistinctKeys(kv)
    requires (p.inside ==> p.seen) && p.done <= done2
    requires after == DoneAfter(line, kv, p, done2)
    requires SetFrom(rest, section, kv, Advanced(line, section, kv, p).(done := after)) == rest
    ensures SetFrom(Emitted(line, section, kv, p) + rest, section, kv, p.(done := done2))
         == Emitted(line, section, kv, p) + rest
  {
    hide SetFrom, Settable, DistinctKeys, Missing, Classify;
    match Classify(line)
    case Header(_) =>
      if p.inside {
        SetTwiceHeader(line, rest, section, kv, p, done2);
        assert Emitted(line, section, kv, p) + rest == Missing(kv, p.done) + ([line] + rest);
      } else {
        SetFromCons(line, rest, section, kv, p.(done := done2));
        assert [] + [line] == [line];
      }
    case Pair(k, _) =>
      if p.inside && HasKey(kv, k) {
        SettableAt(section, kv, k);
        var i :| 0 <= i < |kv| && kv[i] == (k, ValueOf(kv, k));
        RenderedStays(kv, i, section, done2, rest);
      } else {
        SetFromCons(line, rest, section, kv, p.(done := done2));
      }
    case Other =>
      SetFromCons(line, rest, section, kv, p.(done := done2));
  }

  /** The keys done after a line in the second pass, where the missing ones are there by now. */
  function DoneAfter(line: string, kv: Settings, p: Progress, done2: set<string>): set<string> {
    match Classify(line)
    case Header(_) => if p.inside then done2 + (Keys(kv) - p.done) else done2
    case Pair(k, _) => if p.inside && HasKey(kv, k) then done2 + {k} else done2
    case Other => done2
  }

  lemma {:induction false} SetTwiceFrom(
      lines: seq<string>, section: string, kv: Settings, p: Progress, done2: set<string>)
    requires Settable(section, kv) && DistinctKeys(kv)
    requires (p.inside ==> p.seen) && p.done <= done2
    ensures SetFrom(SetFrom(lines, section, kv, p), section, kv, p.(done := done2)) == SetFrom(lines, section, kv, p)
    decreases lines
  {
    hide Classify, Settable, DistinctKeys;
    if lines == [] {
      SetTwiceFinish(section, kv, p, done2);
    } else {
      var after := DoneAfter(lines[0], kv, p, done2);
      SetTwiceFrom(lines[1..], section, kv, Advanced(lines[0], section, kv, p), after);
      SetTwiceLine(lines[0], SetFrom(lines[1..], section, kv, Advanced(lines[0], section, kv, p)), section, kv, p, done2, after);
    }
  }

  lemma AllMissingStay(section: string, kv: Settings, done: set<string>, rest: seq<string>, done2: set<string>)
    requires Settable(section, kv) && DistinctKeys(kv) && done <= done2
    ensures Keys(kv) <= done2 + (Keys(kv) - done) && Missing(kv, done2 + (Keys(kv) - done)) == []
    ensures SetFrom(Missing(kv, done) + rest, section, kv, Progress(true, true, done2))
         == Missing(kv, done) + SetFrom(rest, section, kv, Progress(true, true, done2 + (Keys(kv) - done)))
  {
    MissingStays(0, section, kv, done, rest, done2);
    NothingMissing(kv, done2 + (Keys(kv) - done));
    assert kv[0..] == kv;
    hide SetFrom, Missing;
  }

  /** Leaving the section for the second time appends nothing. */
  lemma SetTwiceHeader(
      line: string, rest: seq<string>, section: string, kv: Settings, p: Progress, done2: set<string>)
    requires Settable(section, kv) && DistinctKeys(kv)
    requires Classify(line).Header? && p.inside && p.seen && p.done <= done2
    ensures var p' := Advanced(line, section, kv, p);
            SetFrom(Missing(kv, p.done) + ([line] + rest), section, kv, p.(done := done2)) ==
            Missing(kv, p.done) + ([line] + SetFrom(rest, section, kv, p'.(done := done2 + (Keys(kv) - p.done))))
  {
    hide SetFrom, Missing, Settable, DistinctKeys;
    var after := done2 + (Keys(kv) - p.done);
    AllMissingStay(section, kv, p.done, [line] + rest, done2);
    SetFromCons(line, rest, section, kv, Progress(true, true, after));
    var tail := SetFrom(rest, section, kv, Progress(Classify(line).name == section, true, after));
    assert [] + [line] + tail == [line] + tail;
    hide Classify;
  }

  lemma RenderedKeepsEnd(k: string, v: string)
    requires Trimmed(v)
    ensures StripCR(Rendered(k, v)) == Rendered(k, v)
  {
    var r := Rendered(k, v);
    assert r[|r| - 1] == if v == "" then ' ' else v[|v| - 1];
  }

  lemma {:induction false} MissingKeepsEnds(section: string, kv: Settings, done: set<string>)
    requires Settable(section, kv)
    ensures NoTrailingCR(Missing(kv, done))
  {
    if kv != [] {
      MissingKeepsEnds(section, kv[1..], done);
      RenderedKeepsEnd(kv[0].0, kv[0].1);
    }
  }

  lemma {:induction false} StripNothing(lines: seq<string>)
    ensures StripCRs(lines) == lines <==> NoTrailingCR(lines)
  {
    if lines != [] {
      StripNothing(lines[1..]);
      assert StripCRs(lines)[0] == StripCR(lines[0]) && StripCRs(lines)[1..] == StripCRs(lines[1..]);
      assert NoTrailingCR(lines) <==> StripCR(lines[0]) == lines[0] && NoTrailingCR(lines[1..]) by {
        assert forall i :: 0 < i < |lines| ==> lines[i] == lines[1..][i - 1];
      }
    }
  }

  /** Whether the loop puts a setting in place of this line. */
  predicate Replaced(line: string, kv: Settings, p: Progress) {
    p.inside && Classify(line).Pair? && HasKey(kv, Classify(line).key)
  }

  /** Every line that is kept has lost its carriage return with the line break; replaced ones may not have. */
  predicate KeptEnds(lines: seq<string>, section: string, kv: Settings, p: Progress) {
    lines == [] ||
    ((Replaced(lines[0], kv, p) || StripCR(lines[0]) == lines[0])
     && KeptEnds(lines[1..], section, kv, Advanced(lines[0], section, kv, p)))
  }

  /** What a stripped line makes the loop emit is what the line makes it emit, stripped. */
  lemma EmittedStripped(line: string, section: string, kv: Settings, p: Progress)
    requires Settable(section, kv)
    ensures Emitted(StripCR(line), section, kv, p) == StripCRs(Emitted(line, section, kv, p))
    ensures Advanced(StripCR(line), section, kv, p) == Advanced(line, section, kv, p)
    ensures NoTrailingCR(Emitted(line, section, kv, p)) <==> Replaced(line, kv, p) || StripCR(line) == line
  {
    ClassifyIgnoresCR(line);
    hide StripCR;
    assert StripCRs([line]) == [StripCR(line)] + [];
    StripNothing(Emitted(line, section, kv, p));
    if Replaced(line, kv, p) {
      SettableAt(section, kv, Classify(line).key);
      RenderedKeepsEnd(Classify(line).key, ValueOf(kv, Classify(line).key));
    } else if Classify(line).Header? && p.inside {
      MissingKeepsEnds(section, kv, p.done);
      StripNothing(Missing(kv, p.done));
      StripCRsAppend(Missing(kv, p.done), [line]);
      var e := Emitted(line, section, kv, p);
      assert e[|e| - 1] == line;
    } else {
      assert Emitted(line, section, kv, p) == [line];
    }
    hide Classify, Missing, ValueOf, HasKey, Settable;
  }

  lemma FinishKeepsEnds(section: string, kv: Settings, p: Progress)
    requires Settable(section, kv)
    ensures NoTrailingCR(Finish(section, kv, p))
  {
    MissingKeepsEnds(section, kv, p.done);
    MissingKeepsEnds(section, kv, {});
    var header := "[" + section + "]";
    assert header[|header| - 1] == ']';
    hide Missing, Settable;
  }

  /** Setting commutes with stripping carriage returns, and leaves one exactly on a kept line. */
  lemma {:induction false} SetFromStripped(lines: seq<string>, section: string, kv: Settings, p: Progress)
    requires Settable(section, kv)
    ensures SetFrom(StripCRs(lines), section, kv, p) == StripCRs(SetFrom(lines, section, kv, p))
    ensures NoTrailingCR(SetFrom(lines, section, kv, p)) <==> KeptEnds(lines, section, kv, p)
  {
    hide Settable, Emitted, Advanced, Finish, StripCR, Replaced;
    if lines == [] {
      FinishKeepsEnds(section, kv, p);
      StripNothing(Finish(section, kv, p));
    } else {
      var q := Advanced(lines[0], section, kv, p);
      var head, rest := Emitted(lines[0], section, kv, p), SetFrom(lines[1..], section, kv, q);
      EmittedStripped(lines[0], section, kv, p);
      SetFromStripped(lines[1..], section, kv, q);
      SetFromCons(StripCR(lines[0]), StripCRs(lines[1..]), section, kv, p);
      StripCRsAppend(head, rest);
      StripNothing(head);
      StripNothing(rest);
      EndsAppend(head, rest);
      hide SetFrom;
    }
  }

  lemma EndsAppend(a: seq<string>, b: seq<string>)
    ensures NoTrailingCR(a + b) <==> NoTrailingCR(a) && NoTrailingCR(b)
  {
    var s := a + b;
    assert forall i :: 0 <= i < |a| ==> s[i] == a[i];
    assert forall i :: 0 <= i < |b| ==> s[|a| + i] == b[i];
  }

  lemma {:induction false} StrippedIsShorter(lines: seq<string>)
    ensures |Unlines(StripCRs(lines))| <= |Unlines(lines)|
    ensures |Unlines(StripCRs(lines))| == |Unlines(lines)| ==> NoTrailingCR(lines)
  {
    if lines != [] {
      StrippedIsShorter(lines[1..]);
      assert StripCRs(lines)[0] == StripCR(lines[0]) && StripCRs(lines)[1..] == StripCRs(lines[1..]);
      assert forall i :: 0 < i < |lines| ==> lines[i] == lines[1..][i - 1];
    }
  }

  /**
   * Setting the same values again changes nothing, whatever sections and keys repeat, exactly if no
   * line that is kept still ends in a carriage return once its line break is gone.
   */
  lemma SetIsIdempotent(content: string, section: string, kv: Settings)
    requires Settable(section, kv) && DistinctKeys(kv)
    ensures SetContent(SetContent(content, section, kv), section, kv) == SetContent(content, section, kv)
       <==> KeptEnds(Lines(content), section, kv, START)
  {
    hide SetFrom, Settable, DistinctKeys, KeptEnds, Lines;
    var out := SetFrom(Lines(content), section, kv, START);
    LinesAreSingle(content);
    SetFromIsSingle(Lines(content), section, kv, START);
    LinesUnlines(out, "");
    NoLines();
    assert Unlines(out) + "" == Unlines(out) && StripCRs(out) + [] == StripCRs(out);
    SetFromStripped(out, section, kv, START);
    SetFromStripped(Lines(content), section, kv, START);
    SetTwiceFrom(Lines(content), section, kv, START, {});
    assert SetContent(SetContent(content, section, kv), section, kv) == Unlines(StripCRs(out));
    StrippedIsShorter(out);
    StripNothing(out);
  }

  lemma NoLines()
    ensures Lines("") == []
  {
  }

  /** A line that ends in two carriage returns loses one with every write. */
  lemma SecondWriteStrips(section: string, kv: Settings)
    requires Settable(section, kv) && DistinctKeys(kv)
    ensures var content := "#\r\r\n";
            SetContent(SetContent(content, section, kv), section, kv) != SetContent(content, section, kv)
  {
    hide SetContent, Settable, DistinctKeys;
    var content := "#\r\r\n";
    SetIsIdempotent(content, section, kv);
    assert content == "#\r\r" + "\n" + "";
    LinesCons("#\r\r", "");
    NoLines();
    assert StripCR("#\r\r") == "#\r";
    hide Lines;
    assert Lines(content) == ["#\r"];
    assert StripCR("#\r") == "#";
  }
}
