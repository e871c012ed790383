/** The audit log: lines that are appended by one component and parsed by another. */
module AuditLog {
  import opened Wrappers
  import opened Text

  // ----- Writing -----

  datatype Record = Record(ts: string, user: string, action: string, target: string, result: string, details: string)

  /** Line breaks become the two characters of their escape. */
  function Sanitize(s: string): string {
    if s == "" then ""
    else (if s[0] == '\n' then "\\n" else if s[0] == '\r' then "\\r" else [s[0]]) + Sanitize(s[1..])
  }

  /** The arguments of one call of `log`, and the time stamp it takes. */
  datatype Call = Call(ts: string, user: string, action: string, target: string, ok: bool, details: string)

  function RecordOf(c: Call): Record {
    Record(c.ts, Sanitize(c.user), Sanitize(c.action), Sanitize(c.target), if c.ok then "ok" else "fail", Sanitize(c.details))
  }

  const USER := " user="
  const ACTION := " action="
  const TARGET := " target="
  const RESULT := " result="
  const DETAILS := " details="

  /** The part of a line behind the time stamp. */
  function Fields(r: Record): string {
    USER + r.user + (ACTION + r.action + (TARGET + r.target + (RESULT + r.result + (DETAILS + r.details))))
  }

  function Format(r: Record): string {
    "[" + r.ts + "]" + Fields(r)
  }

  /** The records the calls write, oldest first. */
  function Records(calls: seq<Call>): seq<Record> {
    if calls == [] then [] else Records(calls[..|calls| - 1]) + [RecordOf(calls[|calls| - 1])]
  }

  class AuditFile {
    var content: string
    ghost var calls: seq<Call>

    /** The file holds one line for each call so far. */
    ghost predicate Valid()
      reads this
    {
      content == Logged(Records(calls))
    }

    constructor ()
      ensures Valid() && calls == []
    {
      content, calls := "", [];
    }

    method Log(ts: string, user: string, action: string, target: string, ok: bool, details: string)
      requires Valid()
      modifies this
      ensures Valid() && calls == old(calls) + [Call(ts, user, action, target, ok, details)]
      ensures content == old(content)
        + ("[" + ts + "] user=" + Sanitize(user) + " action=" + Sanitize(action) + " target=" + Sanitize(target)
           + (if ok then " result=ok" else " result=fail") + " details=" + Sanitize(details) + "\n")
    {
      var r := Record(ts, Sanitize(user), Sanitize(action), Sanitize(target), if ok then "ok" else "fail", Sanitize(details));
      LineIs(r);
      content := content + (Format(r) + "\n");
      calls := calls + [Call(ts, user, action, target, ok, details)];
      assert calls[..|calls| - 1] == old(calls);
      hide Format, Sanitize;
    }
  }

  /** The file after logging the records, oldest first. */
  function Logged(rs: seq<Record>): string {
    if rs == [] then "" else Logged(rs[..|rs| - 1]) + (Format(rs[|rs| - 1]) + "\n")
  }

  lemma LineIs(r: Record)
    ensures Format(r) + "\n" == "[" + r.ts + "] user=" + r.user + " action=" + r.action + " target=" + r.target
                                + (" result=" + r.result) + " details=" + r.details + "\n"
    ensures " result=" + "ok" == " result=ok" && " result=" + "fail" == " result=fail"
  {
  }

  // ----- Reading -----

  predicate OccursAt(s: string, pat: string, i: nat) {
    i + |pat| <= |s| && s[i..i + |pat|] == pat
  }

  /** `str::find`: where the pattern first occurs. */
  function Find(s: string, pat: string): (r: Option<nat>)
    ensures r.Some? ==> OccursAt(s, pat, r.value) && forall i :: 0 <= i < r.value ==> !OccursAt(s, pat, i)
    ensures r.None? ==> forall i :: 0 <= i <= |s| ==> !OccursAt(s, pat, i)
  {
    FindFrom(s, pat, 0)
  }

  function FindFrom(s: string, pat: string, from: nat): (r: Option<nat>)
    requires from <= |s| && forall i :: 0 <= i < from ==> !OccursAt(s, pat, i)
    ensures r.Some? ==> OccursAt(s, pat, r.value) && forall i :: 0 <= i < r.value ==> !OccursAt(s, pat, i)
    ensures r.None? ==> forall i :: 0 <= i <= |s| ==> !OccursAt(s, pat, i)
    decreases |s| - from
  {
    if OccursAt(s, pat, from) then Some(from)
    else if from == |s| then None
    else FindFrom(s, pat, from + 1)
  }

  /** Slicing with the end before the start, or outside the string, panics. */
  datatype Parsed = Entry(record: Record) | Rejected | Panics

  function Slice(s: string, from: nat, to: nat): Option<string> {
    if from <= to <= |s| then Some(s[from..to]) else None
  }

  function ParseFields(ts: string, rest: string): Parsed {
    var u, a, t, r, d := Find(rest, "user="), Find(rest, ACTION), Find(rest, TARGET), Find(rest, RESULT), Find(rest, DETAILS);
    if u.None? || a.None? || t.None? || r.None? || d.None? then Rejected
    else
      var user, action := Slice(rest, u.value + 5, a.value), Slice(rest, a.value + 8, t.value);
      var target, result := Slice(rest, t.value + 8, r.value), Slice(rest, r.value + 8, d.value);
      var details := Slice(rest, d.value + 9, |rest|);
      if user.None? || action.None? || target.None? || result.None? || details.None? then Panics
      else Entry(Record(ts, user.value, action.value, target.value, result.value, details.value))
  }

  function ParseLine(line: string): Parsed {
    var l := Trim(line);
    if l == "" || l[0] != '[' then Rejected
    else
      var close := IndexOf(l, ']');
      if close == |l| then Rejected else ParseFields(l[1..close], l[close + 1..])
  }

  /** The newest `limit` entries of the lines given newest first, or None if parsing panics. */
  function Newest(lines: seq<string>, limit: nat): Option<seq<Record>> {
    if lines == [] || limit == 0 then Some([])
    else match ParseLine(lines[0])
      case Rejected => Newest(lines[1..], limit)
      case Panics => None
      case Entry(r) =>
        match Newest(lines[1..], limit - 1)
        case None => None
        case Some(rs) => Some([r] + rs)
  }

  function Reversed<T>(s: seq<T>): seq<T> {
    if s == [] then [] else [s[|s| - 1]] + Reversed(s[..|s| - 1])
  }

  function ReadAudit(content: string, limit: nat): Option<seq<Record>> {
    Newest(Reversed(Lines(content)), limit)
  }

  function CountInked(lines: seq<string>): nat {
    if lines == [] then 0 else (if Trim(lines[0]) != "" then 1 else 0) + CountInked(lines[1..])
  }

  /** The `total` of the answer: lines that are not blank. */
  function Total(content: string): nat {
    CountInked(Lines(content))
  }

  // ----- Which records can be read back -----

  predicate Contains(s: string, pat: string) {
    exists i :: 0 <= i <= |s| && OccursAt(s, pat, i)
  }

  /** No field holds a delimiter that the parser would find before the real one. */
  predicate Unambiguous(r: Record) {
    && !Contains(r.user, ACTION)
    && !Contains(r.user, TARGET) && !Contains(r.action, TARGET)
    && !Contains(r.user, RESULT) && !Contains(r.action, RESULT) && !Contains(r.target, RESULT)
    && !Contains(r.user, DETAILS) && !Contains(r.action, DETAILS) && !Contains(r.target, DETAILS)
    && !Contains(r.result, DETAILS)
  }

  predicate Recoverable(r: Record) {
    Unambiguous(r) && TrimEnd(r.details) == r.details
  }

  /** A delimiter: white space in front and nowhere else. */
  predicate IsLabel(p: string) {
    |p| >= 2 && p[0] == ' ' && forall i :: 1 <= i < |p| ==> p[i] != ' '
  }

  /** A delimiter lies in front of another one or behind it, and is found there as in the part alone. */
  lemma OccursAcross(a: string, lab: string, b: string, pat: string)
    requires IsLabel(lab) && IsLabel(pat) && lab[1] != pat[1]
    ensures forall i: nat :: i < |a| ==> (OccursAt(a + (lab + b), pat, i) <==> OccursAt(a, pat, i))
    ensures forall i: nat :: |a| <= i < |a| + |lab| ==> !OccursAt(a + (lab + b), pat, i)
    ensures forall i: nat {:trigger OccursAt(b, pat, i)} ::
              OccursAt(a + (lab + b), pat, |a| + |lab| + i) <==> OccursAt(b, pat, i)
    ensures forall i: nat :: i >= |a| + |lab| ==>
              (OccursAt(a + (lab + b), pat, i) <==> OccursAt(b, pat, i - |a| - |lab|))
  {
    var s, n := a + (lab + b), |a| + |lab|;
    forall i: nat | i < n
      ensures OccursAt(s, pat, i) <==> i < |a| && OccursAt(a, pat, i)
    {
      if OccursAt(s, pat, i) {
        assert forall j :: 0 <= j < |pat| ==> s[i..i + |pat|][j] == pat[j] == s[i + j];
        assert s[|a|] == ' ' && s[|a| + 1] == lab[1] && s[i] == ' ' && s[i + 1] == pat[1];
        assert i + |pat| <= |a|;
        assert a[i..i + |pat|] == s[i..i + |pat|];
      }
      if i < |a| && OccursAt(a, pat, i) {
        assert s[i..i + |pat|] == a[i..i + |pat|];
      }
    }
    forall i: nat | i >= n
      ensures OccursAt(s, pat, i) <==> OccursAt(b, pat, i - n)
    {
      if i + |pat| <= |s| {
        assert s[i..i + |pat|] == b[i - n..i - n + |pat|];
      }
    }
  }

  /** A label that does not start like another one cannot reach across that other one. */
  lemma ContainsAcross(a: string, lab: string, b: string, pat: string)
    requires IsLabel(lab) && IsLabel(pat) && lab[1] != pat[1]
    ensures Contains(a + (lab + b), pat) <==> Contains(a, pat) || Contains(b, pat)
  {
    var s, n := a + (lab + b), |a| + |lab|;
    assert forall i: nat :: OccursAt(a, pat, i) ==> i < |a|;
    OccursAcross(a, lab, b, pat);
    hide OccursAt, IsLabel;
    if i: nat :| i <= |s| && OccursAt(s, pat, i) {
      if i < |a| {
        assert OccursAt(a, pat, i);
      } else {
        assert OccursAt(b, pat, i - n);
      }
    }
    if i: nat :| i <= |a| && OccursAt(a, pat, i) {
      assert OccursAt(s, pat, i);
    }
    if i: nat :| i <= |b| && OccursAt(b, pat, i) {
      assert OccursAt(s, pat, n + i);
    }
  }

  /** The delimiter is found where it was written exactly if nothing in front contains it. */
  lemma FoundExactly(a: string, pat: string, b: string)
    requires IsLabel(pat)
    ensures Find(a + (pat + b), pat).Some? && Find(a + (pat + b), pat).value <= |a|
    ensures Find(a + (pat + b), pat) == Some(|a|) <==> !Contains(a, pat)
  {
    var s := a + (pat + b);
    assert s[|a|..|a| + |pat|] == pat;
    assert OccursAt(s, pat, |a|);
    var f := Find(s, pat).value;
    assert s[f..f + |pat|] == pat;
    assert 0 <= |a| - f < |pat| ==> pat[|a| - f] == s[f..f + |pat|][|a| - f] == s[|a|];
    if f + |pat| <= |a| {
      assert a[f..f + |pat|] == s[f..f + |pat|];
      assert OccursAt(a, pat, f);
    } else if i :| 0 <= i <= |a| && OccursAt(a, pat, i) {
      assert s[i..i + |pat|] == a[i..i + |pat|];
      assert OccursAt(s, pat, i);
    }
  }

  lemma Labels()
    ensures IsLabel(USER) && IsLabel(ACTION) && IsLabel(TARGET) && IsLabel(RESULT) && IsLabel(DETAILS)
    ensures |USER| == 6 && |ACTION| == 8 && |TARGET| == 8 && |RESULT| == 8 && |DETAILS| == 9
    ensures USER[1] == 'u' && ACTION[1] == 'a' && TARGET[1] == 't' && RESULT[1] == 'r' && DETAILS[1] == 'd'
  {
  }

  /** Nothing but the user's name can hide a later delimiter in the first field. */
  lemma ContainsUser(user: string, pat: string)
    requires IsLabel(pat) && pat[1] != 'u'
    ensures Contains(USER + user, pat) <==> Contains(user, pat)
  {
    Labels();
    assert USER + user == "" + (USER + user);
    ContainsAcross("", USER, user, pat);
    assert !Contains("", pat);
  }

  /** Where the five fields start and the delimiters that end them. */
  lemma FieldsSplit(r: Record)
    ensures var f1 := USER + r.user;
            var f2 := f1 + (ACTION + r.action);
            var f3 := f2 + (TARGET + r.target);
            var f4 := f3 + (RESULT + r.result);
            && Fields(r) == f1 + (ACTION + (r.action + (TARGET + (r.target + (RESULT + (r.result + (DETAILS + r.details)))))))
            && Fields(r) == f2 + (TARGET + (r.target + (RESULT + (r.result + (DETAILS + r.details)))))
            && Fields(r) == f3 + (RESULT + (r.result + (DETAILS + r.details)))
            && Fields(r) == f4 + (DETAILS + r.details)
  {
  }

  /** A field list contains a delimiter that is none of its own exactly if a field does. */
  lemma ContainsExactly(r: Record, pat: string)
    requires IsLabel(pat) && pat[1] != 'u'
    ensures var f1 := USER + r.user;
            var f2 := f1 + (ACTION + r.action);
            var f3 := f2 + (TARGET + r.target);
            var f4 := f3 + (RESULT + r.result);
            && (Contains(f1, pat) <==> Contains(r.user, pat))
            && (pat[1] != 'a' ==> (Contains(f2, pat) <==> Contains(f1, pat) || Contains(r.action, pat)))
            && (pat[1] != 'a' && pat[1] != 't' ==> (Contains(f3, pat) <==> Contains(f2, pat) || Contains(r.target, pat)))
            && (pat[1] != 'a' && pat[1] != 't' && pat[1] != 'r' ==> (Contains(f4, pat) <==> Contains(f3, pat) || Contains(r.result, pat)))
  {
    assert |pat| >= 2;
    hide Contains, IsLabel;
    Labels();
    var f1 := USER + r.user;
    var f2 := f1 + (ACTION + r.action);
    var f3 := f2 + (TARGET + r.target);
    ContainsUser(r.user, pat);
    if pat[1] != 'a' {
      ContainsAcross(f1, ACTION, r.action, pat);
      if pat[1] != 't' {
        ContainsAcross(f2, TARGET, r.target, pat);
        if pat[1] != 'r' {
          ContainsAcross(f3, RESULT, r.result, pat);
        }
      }
    }
  }

  /** The positions at which the delimiters were written. */
  datatype Marks = Marks(action: nat, target: nat, result: nat, details: nat)

  function MarksOf(r: Record): Marks {
    var a := 6 + |r.user|;
    var t := a + 8 + |r.action|;
    var e := t + 8 + |r.target|;
    Marks(a, t, e, e + 8 + |r.result|)
  }

  /** All four delimiters are found in their places exactly if the record is unambiguous. */
  lemma DelimitersFoundExactly(r: Record)
    ensures var s, m := Fields(r), MarksOf(r);
            && Find(s, ACTION).Some? && Find(s, TARGET).Some? && Find(s, RESULT).Some? && Find(s, DETAILS).Some?
            && (Unambiguous(r) <==> Find(s, ACTION).value == m.action && Find(s, TARGET).value == m.target
                                    && Find(s, RESULT).value == m.result && Find(s, DETAILS).value == m.details)
  {
    hide Contains, IsLabel, Find, Fields;
    Labels();
    FieldsSplit(r);
    var f1 := USER + r.user;
    var f2 := f1 + (ACTION + r.action);
    var f3 := f2 + (TARGET + r.target);
    var f4 := f3 + (RESULT + r.result);
    FoundExactly(f1, ACTION, r.action + (TARGET + (r.target + (RESULT + (r.result + (DETAILS + r.details))))));
    FoundExactly(f2, TARGET, r.target + (RESULT + (r.result + (DETAILS + r.details))));
    FoundExactly(f3, RESULT, r.result + (DETAILS + r.details));
    FoundExactly(f4, DETAILS, r.details);
    ContainsExactly(r, ACTION);
    ContainsExactly(r, TARGET);
    ContainsExactly(r, RESULT);
    ContainsExactly(r, DETAILS);
  }

  lemma UserFound(r: Record)
    ensures Find(Fields(r), "user=") == Some(1)
  {
    var s := Fields(r);
    assert s[0] == ' ';
    assert s[1..6] == "user=";
    assert OccursAt(s, "user=", 1);
    assert s[0..5][0] == ' ' && "user="[0] == 'u';
    assert !OccursAt(s, "user=", 0);
  }

  /** What stands between the delimiters. */
  lemma FieldSlices(r: Record)
    ensures var s, m := Fields(r), MarksOf(r);
            && |s| == m.details + 9 + |r.details|
            && s[6..m.action] == r.user && s[m.action + 8..m.target] == r.action
            && s[m.target + 8..m.result] == r.target && s[m.result + 8..m.details] == r.result
            && s[m.details + 9..] == r.details
  {
  }

  /** Parsing the fields recovers the record exactly if it is unambiguous. */
  lemma ParseFieldsExactly(r: Record)
    ensures ParseFields(r.ts, Fields(r)) == Entry(r) <==> Unambiguous(r)
  {
    hide Unambiguous, Fields, Find;
    DelimitersFoundExactly(r);
    UserFound(r);
    FieldSlices(r);
  }

  /** Whatever is parsed as the details stands at the end of the line. */
  lemma ParsedDetailsEndLine(ts: string, rest: string)
    requires ParseFields(ts, rest).Entry? && ParseFields(ts, rest).record.details != ""
    ensures var d := ParseFields(ts, rest).record.details;
            rest != "" && d[|d| - 1] == rest[|rest| - 1]
  {
    hide Find;
  }

  lemma FormatTrims(r: Record)
    ensures Trim(Format(r)) == Format(r.(details := TrimEnd(r.details)))
  {
    FieldsSplit(r);
    FieldsSplit(r.(details := TrimEnd(r.details)));
    var f4 := USER + r.user + (ACTION + r.action) + (TARGET + r.target) + (RESULT + r.result);
    var front := "[" + r.ts + "]" + (f4 + DETAILS);
    hide Fields;
    Regroup(f4, DETAILS, r.details);
    Regroup("[" + r.ts + "]", f4 + DETAILS, r.details);
    Regroup(f4, DETAILS, TrimEnd(r.details));
    Regroup("[" + r.ts + "]", f4 + DETAILS, TrimEnd(r.details));
    assert front[|front| - 1] == DETAILS[|DETAILS| - 1] == '=';
    TrimEndKeepsFront(front, r.details);
    assert (front + TrimEnd(r.details))[0] == '[';
    hide TrimEnd;
  }

  /** The parser cuts the time stamp off a written line, and white space off its end. */
  lemma FormatParses(r: Record)
    requires ']' !in r.ts
    ensures ParseLine(Format(r)) == ParseFields(r.ts, Fields(r.(details := TrimEnd(r.details))))
  {
    hide ParseFields, Fields, Trim, TrimEnd;
    var r' := r.(details := TrimEnd(r.details));
    FormatTrims(r);
    var l := Format(r');
    assert l[0] == '[' && l[1..|r.ts| + 1] == r.ts && l[|r.ts| + 2..] == Fields(r');
    assert forall j :: 1 <= j < |r.ts| + 1 ==> l[j] == r.ts[j - 1];
    IndexOfAt(l, ']', |r.ts| + 1);
  }

  /**
   * One line written is one record read: all fields are recovered exactly if no field holds a
   * delimiter the parser looks for behind it and the details do not end in white space.
   */
  lemma ParseFormattedExactly(r: Record)
    requires ']' !in r.ts
    ensures ParseLine(Format(r)) == Entry(r) <==> Recoverable(r)
  {
    hide ParseFields, Fields, Unambiguous, Trim, TrimEnd;
    var r' := r.(details := TrimEnd(r.details));
    FormatParses(r);
    ParseFieldsExactly(r');
    if r' != r {
      DetailsInked(r);
      TrimEndNoop(r.details);
      var parsed := ParseFields(r.ts, Fields(r'));
      if parsed.Entry? && parsed.record.details != "" {
        ParsedDetailsEndLine(r.ts, Fields(r'));
      }
    }
  }

  lemma TrimEndNoop(s: string)
    requires TrimEnd(s) != s
    ensures s != "" && IsSpace(s[|s| - 1])
  {
  }

  /** A line whose details are trimmed does not end in white space. */
  lemma DetailsInked(r: Record)
    ensures var s := Fields(r.(details := TrimEnd(r.details))); s != "" && !IsSpace(s[|s| - 1])
  {
    TrimEndIsPrefix(r.details);
    var r' := r.(details := TrimEnd(r.details));
    hide TrimEnd;
    FieldsSplit(r');
    var s := Fields(r');
    hide Fields;
    var tail := DETAILS + r'.details;
    assert s[|s| - 1] == tail[|tail| - 1];
    assert tail[|tail| - 1] == if r'.details == "" then '=' else r'.details[|r'.details| - 1];
  }

  // ----- Which records stop the parser -----

  /** `p` occurs in `s`, and nowhere behind the first `q`. */
  predicate Precedes(s: string, p: string, q: string) {
    Find(s, p).Some? && (Find(s, q).None? || Find(s, p).value < Find(s, q).value)
  }

  /** The first of the fields to hold either delimiter has `p` first. */
  predicate ComesFirst(fields: seq<string>, p: string, q: string) {
    && fields != []
    && (Precedes(fields[0], p, q)
        || (!Contains(fields[0], p) && !Contains(fields[0], q) && ComesFirst(fields[1..], p, q)))
  }

  /** Some delimiter is first met in front of the one that should precede it. */
  predicate Disordered(r: Record) {
    || ComesFirst([r.user], TARGET, ACTION)
    || ComesFirst([r.user, r.action], RESULT, TARGET)
    || ComesFirst([r.user, r.action, r.target], DETAILS, RESULT)
  }

  lemma FindIs(s: string, pat: string, i: nat)
    requires OccursAt(s, pat, i) && forall j :: 0 <= j < i ==> !OccursAt(s, pat, j)
    ensures Find(s, pat) == Some(i)
  {
  }

  /** Where a delimiter is found in two parts with another delimiter between them. */
  lemma FindAcross(a: string, lab: string, b: string, pat: string)
    requires IsLabel(lab) && IsLabel(pat) && lab[1] != pat[1]
    ensures Find(a + (lab + b), pat) ==
            if Find(a, pat).Some? then Find(a, pat)
            else if Find(b, pat).Some? then Some(|a| + |lab| + Find(b, pat).value)
            else None
  {
    hide Find;
    var s, n := a + (lab + b), |a| + |lab|;
    FindMeaning(s, pat);
    FindMeaning(a, pat);
    FindMeaning(b, pat);
    ContainsAcross(a, lab, b, pat);
    OccursAcross(a, lab, b, pat);
    if Find(s, pat).Some? {
      var i := Find(s, pat).value;
      if i < |a| {
        assert OccursAt(a, pat, i);
      } else {
        assert OccursAt(b, pat, i - n);
      }
    }
  }

  /** `Find` by what it finds. */
  lemma FindMeaning(s: string, pat: string)
    ensures Find(s, pat).Some? <==> Contains(s, pat)
    ensures Find(s, pat).Some? ==> OccursAt(s, pat, Find(s, pat).value)
    ensures Find(s, pat).Some? ==> forall i :: 0 <= i < Find(s, pat).value ==> !OccursAt(s, pat, i)
  {
  }

  /** Order is decided in front of an unrelated delimiter, or else behind it. */
  lemma PrecedesAcross(a: string, lab: string, b: string, p: string, q: string)
    requires IsLabel(lab) && IsLabel(p) && IsLabel(q) && lab[1] != p[1] && lab[1] != q[1]
    ensures Precedes(a + (lab + b), p, q)
       <==> Precedes(a, p, q) || (!Contains(a, p) && !Contains(a, q) && Precedes(b, p, q))
  {
    hide Find, IsLabel;
    FindAcross(a, lab, b, p);
    FindAcross(a, lab, b, q);
    FindMeaning(a, p);
    FindMeaning(a, q);
    assert Find(a, p).Some? ==> Find(a, p).value + |p| <= |a|;
    assert Find(a, q).Some? ==> Find(a, q).value + |q| <= |a|;
  }

  /** In front of the delimiter itself, order is decided by what comes before it. */
  lemma PrecedesUpTo(a: string, b: string, p: string, q: string)
    requires IsLabel(p) && IsLabel(q) && p[1] != q[1]
    ensures Precedes(a + (q + b), p, q) <==> Precedes(a, p, q)
  {
    assert |p| >= 2 && |q| >= 2;
    hide Find, IsLabel;
    FindAcross(a, q, b, p);
    FoundExactly(a, q, b);
    FindMeaning(a, p);
    FindMeaning(a, q);
    assert Find(a, p).Some? ==> Find(a, p).value + |p| <= |a|;
    assert Find(a, q).Some? ==> Find(a, q).value + |q| <= |a|;
    if Find(a, q).Some? {
      FoundInFront(a, q, q + b);
    }
  }

  lemma FoundInFront(a: string, pat: string, b: string)
    requires Contains(a, pat)
    ensures Find(a + b, pat) == Find(a, pat)
  {
    var s, i := a + b, Find(a, pat).value;
    assert s[i..i + |pat|] == a[i..i + |pat|];
    forall j | 0 <= j < i ensures !OccursAt(s, pat, j) {
      assert s[j..j + |pat|] == a[j..j + |pat|];
      assert !OccursAt(a, pat, j);
    }
    FindIs(s, pat, i);
  }
  /** The label in front of the user never decides an order. */
  lemma PrecedesUser(rest: string, p: string, q: string)
    requires IsLabel(p) && IsLabel(q) && p[1] != 'u' && q[1] != 'u'
    ensures Precedes(USER + rest, p, q) <==> Precedes(rest, p, q)
  {
    Labels();
    assert USER + rest == "" + (USER + rest);
    PrecedesAcross("", USER, rest, p, q);
    FindMeaning("", p);
  }

  /** The orders that matter, decided field by field. */
  lemma OrderByField(r: Record)
    ensures Precedes(Fields(r), TARGET, ACTION) <==> ComesFirst([r.user], TARGET, ACTION)
    ensures Precedes(Fields(r), RESULT, TARGET) <==> ComesFirst([r.user, r.action], RESULT, TARGET)
    ensures Precedes(Fields(r), DETAILS, RESULT) <==> ComesFirst([r.user, r.action, r.target], DETAILS, RESULT)
  {
    hide Precedes, Contains, IsLabel;
    Labels();
    var behindResult := r.result + (DETAILS + r.details);
    var behindTarget := r.target + (RESULT + behindResult);
    var behindAction := r.action + (TARGET + behindTarget);
    var rest := r.user + (ACTION + behindAction);
    FieldsNest(r);
    PrecedesUser(rest, TARGET, ACTION);
    PrecedesUser(rest, RESULT, TARGET);
    PrecedesUser(rest, DETAILS, RESULT);
    PrecedesUpTo(r.user, behindAction, TARGET, ACTION);
    PrecedesAcross(r.user, ACTION, behindAction, RESULT, TARGET);
    PrecedesUpTo(r.action, behindTarget, RESULT, TARGET);
    PrecedesAcross(r.user, ACTION, behindAction, DETAILS, RESULT);
    PrecedesAcross(r.action, TARGET, behindTarget, DETAILS, RESULT);
    PrecedesUpTo(r.target, behindResult, DETAILS, RESULT);
    FirstOfOne(r.user, TARGET, ACTION);
    FirstOfOne(r.action, RESULT, TARGET);
    FirstOfOne(r.target, DETAILS, RESULT);
    assert [r.user, r.action][1..] == [r.action];
    assert [r.user, r.action, r.target][1..] == [r.action, r.target] && [r.action, r.target][1..] == [r.target];
  }

  lemma FirstOfOne(f: string, p: string, q: string)
    ensures ComesFirst([f], p, q) <==> Precedes(f, p, q)
  {
  }

  lemma FieldsNest(r: Record)
    ensures Fields(r) == USER + (r.user + (ACTION + (r.action + (TARGET + (r.target + (RESULT + (r.result + (DETAILS + r.details))))))))
  {
  }

  /** Two delimiters do not overlap, so slicing between them fails exactly if they are out of order. */
  lemma DelimitersApart(s: string, p: string, q: string, i: nat, j: nat)
    requires IsLabel(p) && IsLabel(q) && p[1] != q[1] && OccursAt(s, p, i) && OccursAt(s, q, j)
    ensures i < j ==> i + |p| <= j
    ensures i != j
  {
    assert forall k :: 0 <= k < |p| ==> s[i..i + |p|][k] == p[k] == s[i + k];
    assert forall k :: 0 <= k < |q| ==> s[j..j + |q|][k] == q[k] == s[j + k];
    assert s[j] == ' ' && s[i + 1] == p[1] && s[j + 1] == q[1];
  }

  lemma ParseFieldsPanics(r: Record)
    ensures ParseFields(r.ts, Fields(r)).Panics? <==> Disordered(r)
    ensures !ParseFields(r.ts, Fields(r)).Rejected?
  {
    hide Contains, IsLabel, Find, Fields, Unambiguous, ComesFirst;
    var s := Fields(r);
    Labels();
    UserFound(r);
    DelimitersFoundExactly(r);
    OrderByField(r);
    FindMeaning(s, USER);
    FindMeaning(s, ACTION);
    FindMeaning(s, TARGET);
    FindMeaning(s, RESULT);
    FindMeaning(s, DETAILS);
    var a, t, e, d := Find(s, ACTION).value, Find(s, TARGET).value, Find(s, RESULT).value, Find(s, DETAILS).value;
    UserInFront(r, a);
    DelimitersApart(s, ACTION, TARGET, a, t);
    DelimitersApart(s, TARGET, RESULT, t, e);
    DelimitersApart(s, RESULT, DETAILS, e, d);
    hide OccursAt;
  }

  /** The first delimiter is behind the user's label. */
  lemma UserInFront(r: Record, a: nat)
    requires OccursAt(Fields(r), ACTION, a)
    ensures a >= 6
  {
    Labels();
    FieldsNest(r);
    var s := Fields(r);
    assert OccursAt(s, USER, 0) by {
      assert s[..6] == USER;
    }
    hide Fields;
    DelimitersApart(s, USER, ACTION, 0, a);
  }

  /** A written line stops the parser exactly if a delimiter is met before its turn. */
  lemma ParseFormattedPanics(r: Record)
    requires ']' !in r.ts
    ensures ParseLine(Format(r)).Panics? <==> Disordered(r)
    ensures !ParseLine(Format(r)).Rejected?
  {
    hide ParseFields, Fields, Disordered, Trim, TrimEnd;
    var r' := r.(details := TrimEnd(r.details));
    FormatParses(r);
    ParseFieldsPanics(r');
    DisorderIgnoresDetails(r, TrimEnd(r.details));
  }

  lemma DisorderIgnoresDetails(r: Record, details: string)
    ensures Disordered(r.(details := details)) == Disordered(r)
  {
  }

  // ----- The whole log -----

  predicate OneLine(s: string) {
    '\n' !in s && '\r' !in s
  }

  lemma {:induction false} SanitizeIsOneLine(s: string)
    ensures OneLine(Sanitize(s))
    ensures OneLine(s) ==> Sanitize(s) == s
  {
    if s != "" {
      SanitizeIsOneLine(s[1..]);
    }
  }

  /** A line feed becomes a backslash and an n, a carriage return a backslash and an r, all else stays. */
  lemma {:induction false} SanitizeExactly(s: string, c: char)
    ensures Sanitize("") == ""
    ensures Sanitize(s + [c]) == Sanitize(s) + if c == '\n' then ['\\', 'n'] else if c == '\r' then ['\\', 'r'] else [c]
  {
    if s == "" {
      assert s + [c] == [c] && [c][1..] == "";
    } else {
      SanitizeExactly(s[1..], c);
      assert (s + [c])[1..] == s[1..] + [c] && (s + [c])[0] == s[0];
      Regroup(Sanitize([s[0]]), Sanitize(s[1..]), Sanitize([c]));
      SanitizeOne(s[0]);
      SanitizeOne(c);
      SanitizeHead(s);
      SanitizeHead(s + [c]);
      hide Sanitize;
    }
  }

  lemma SanitizeOne(c: char)
    ensures Sanitize([c]) == if c == '\n' then ['\\', 'n'] else if c == '\r' then ['\\', 'r'] else [c]
  {
    assert [c][1..] == "";
  }

  lemma SanitizeHead(s: string)
    requires s != ""
    ensures Sanitize(s) == Sanitize([s[0]]) + Sanitize(s[1..])
  {
    SanitizeOne(s[0]);
  }

  /** What `log` writes: sanitised fields and a time stamp without a bracket. */
  predicate Writable(r: Record) {
    OneLine(r.ts) && ']' !in r.ts
    && OneLine(r.user) && OneLine(r.action) && OneLine(r.target) && OneLine(r.result) && OneLine(r.details)
  }

  lemma SanitizedIsWritable(c: Call)
    requires OneLine(c.ts) && ']' !in c.ts
    ensures Writable(RecordOf(c))
  {
    SanitizeIsOneLine(c.user);
    SanitizeIsOneLine(c.action);
    SanitizeIsOneLine(c.target);
    SanitizeIsOneLine(c.details);
    hide Sanitize;
  }

  function Formats(rs: seq<Record>): seq<string> {
    if rs == [] then [] else [Format(rs[0])] + Formats(rs[1..])
  }

  lemma {:induction false} FormatsAppend(a: seq<Record>, b: seq<Record>)
    ensures Formats(a + b) == Formats(a) + Formats(b)
  {
    hide Format;
    if a == [] {
      assert a + b == b;
    } else {
      assert (a + b)[1..] == a[1..] + b && (a + b)[0] == a[0];
      FormatsAppend(a[1..], b);
      Regroup([Format(a[0])], Formats(a[1..]), Formats(b));
    }
  }

  lemma {:induction false} LoggedIsUnlines(rs: seq<Record>)
    ensures Logged(rs) == Unlines(Formats(rs))
  {
    hide Format;
    if rs != [] {
      var init, r := rs[..|rs| - 1], rs[|rs| - 1];
      assert rs == init + [r];
      LoggedIsUnlines(init);
      FormatsAppend(init, [r]);
      UnlinesAppend(Formats(init), Formats([r]));
      assert Formats([r]) == [Format(r)] && Unlines([Format(r)]) == Format(r) + "\n" + "";
    }
  }

  lemma FormatIsLine(r: Record)
    requires Writable(r)
    ensures SingleLine(Format(r)) && StripCR(Format(r)) == Format(r)
  {
    assert OneLine(USER) && OneLine(ACTION) && OneLine(TARGET) && OneLine(RESULT) && OneLine(DETAILS);
    FieldsAreOneLine(r);
    hide Fields;
    assert OneLine(Format(r));
    assert Format(r) != "" ==> Format(r)[|Format(r)| - 1] in Format(r);
  }

  lemma FieldsAreOneLine(r: Record)
    requires Writable(r)
    ensures OneLine(Fields(r))
  {
    OneLineLabels();
    hide USER, ACTION, TARGET, RESULT, DETAILS;
  }

  lemma OneLineLabels()
    ensures OneLine(USER) && OneLine(ACTION) && OneLine(TARGET) && OneLine(RESULT) && OneLine(DETAILS)
  {
  }

  lemma {:induction false} FormatsAreLines(rs: seq<Record>)
    requires forall r | r in rs :: Writable(r)
    ensures AllSingle(Formats(rs)) && StripCRs(Formats(rs)) == Formats(rs) && |Formats(rs)| == |rs|
  {
    hide Format, Writable;
    if rs != [] {
      FormatIsLine(rs[0]);
      FormatsAreLines(rs[1..]);
    }
  }

  lemma {:induction false} ReversedFormats(rs: seq<Record>)
    ensures Reversed(Formats(rs)) == Formats(Reversed(rs))
  {
    hide Format;
    if rs != [] {
      var init, r := rs[..|rs| - 1], rs[|rs| - 1];
      assert rs == init + [r];
      FormatsAppend(init, [r]);
      assert Formats([r]) == [Format(r)];
      assert Formats(rs)[..|Formats(rs)| - 1] == Formats(init);
      ReversedFormats(init);
      assert ([r] + Reversed(init))[1..] == Reversed(init);
    }
  }

  lemma {:induction false} ReversedHas(rs: seq<Record>)
    ensures |Reversed(rs)| == |rs| && forall r | r in Reversed(rs) :: r in rs
  {
    if rs != [] {
      ReversedHas(rs[..|rs| - 1]);
    }
  }

  function Min(a: nat, b: nat): nat {
    if a < b then a else b
  }

  /** Each way a written line can be read. */
  lemma WrittenParses(r: Record)
    requires Writable(r)
    ensures ParseLine(Format(r)) == Entry(r) <==> Recoverable(r)
    ensures ParseLine(Format(r)).Panics? <==> Disordered(r)
    ensures !ParseLine(Format(r)).Rejected?
  {
    ParseFormattedExactly(r);
    ParseFormattedPanics(r);
  }

  lemma {:induction false} NewestExactly(rs: seq<Record>, limit: nat)
    requires forall r | r in rs :: Writable(r)
    ensures var n := Min(limit, |rs|);
            && (Newest(Formats(rs), limit) == Some(rs[..n]) <==> forall i :: 0 <= i < n ==> Recoverable(rs[i]))
            && (Newest(Formats(rs), limit) == None <==> exists i :: 0 <= i < n && Disordered(rs[i]))
  {
    hide Format, Writable, Recoverable, Disordered, ParseLine;
    var n := Min(limit, |rs|);
    if n == 0 {
      assert limit != 0 ==> Formats(rs) == [];
    } else {
      var m := Min(limit - 1, |rs[1..]|);
      WrittenParses(rs[0]);
      NewestExactly(rs[1..], limit - 1);
      assert Formats(rs)[1..] == Formats(rs[1..]);
      assert m == n - 1 && rs[..n] == [rs[0]] + rs[1..][..m];
      assert forall i :: 0 <= i < m ==> rs[1..][i] == rs[i + 1];
      assert forall i :: 0 < i < n ==> rs[i] == rs[1..][i - 1];
      hide Formats, Min;
      if ParseLine(Format(rs[0])).Entry? && Newest(Formats(rs[1..]), limit - 1).Some? {
        var head, tail := ParseLine(Format(rs[0])).record, Newest(Formats(rs[1..]), limit - 1).value;
        assert ([head] + tail)[0] == head && ([head] + tail)[1..] == tail;
        assert ([rs[0]] + rs[1..][..m])[1..] == rs[1..][..m];
      }
    }
  }

  lemma {:induction false} FormatsAreInked(rs: seq<Record>)
    ensures CountInked(Formats(rs)) == |rs|
  {
    if rs != [] {
      FormatsAreInked(rs[1..]);
      FormatTrims(rs[0]);
      hide Trim;
    }
  }

  lemma RecordsHaveOneLineEach(rs: seq<Record>)
    requires forall r | r in rs :: Writable(r)
    ensures Lines(Logged(rs)) == Formats(rs) && |Lines(Logged(rs))| == |rs| && Total(Logged(rs)) == |rs|
  {
    LoggedIsUnlines(rs);
    FormatsAreLines(rs);
    LinesUnlines(Formats(rs), "");
    assert Unlines(Formats(rs)) + "" == Unlines(Formats(rs)) && StripCRs(Formats(rs)) + Lines("") == Formats(rs);
    FormatsAreInked(rs);
    hide Lines, Unlines, Formats, Logged;
  }

  /** Time stamps are printed without brackets and line breaks. */
  predicate Stamped(calls: seq<Call>) {
    forall c | c in calls :: OneLine(c.ts) && ']' !in c.ts
  }

  /** Whatever the arguments are, what a call writes is one record on one line. */
  lemma {:induction false} RecordsAreWritable(calls: seq<Call>)
    requires Stamped(calls)
    ensures |Records(calls)| == |calls| && forall r | r in Records(calls) :: Writable(r)
    ensures forall i :: 0 <= i < |calls| ==> Records(calls)[i] == RecordOf(calls[i])
  {
    hide RecordOf, Writable;
    if calls != [] {
      RecordsAreWritable(calls[..|calls| - 1]);
      SanitizedIsWritable(calls[|calls| - 1]);
    }
  }

  /** After n calls of `log` with any arguments the file has exactly n lines, and none is blank. */
  lemma LogHasOneLineEach(calls: seq<Call>)
    requires Stamped(calls)
    ensures var content := Logged(Records(calls));
            |Lines(content)| == |calls| && Total(content) == |calls|
  {
    RecordsAreWritable(calls);
    RecordsHaveOneLineEach(Records(calls));
    hide Lines, Logged, Records, Total, Writable;
  }

  /** What reading should return: the records of the last calls, newest first. */
  function NewestRecords(calls: seq<Call>, limit: nat): seq<Record> {
    var rs := Reversed(Records(calls));
    rs[..Min(limit, |rs|)]
  }

  lemma NewestRecordsAre(calls: seq<Call>, limit: nat)
    requires Stamped(calls)
    ensures |NewestRecords(calls, limit)| == Min(limit, |calls|)
    ensures forall i :: 0 <= i < Min(limit, |calls|) ==> NewestRecords(calls, limit)[i] == RecordOf(calls[|calls| - 1 - i])
  {
    hide Records, Reversed, RecordOf, Writable;
    RecordsAreWritable(calls);
    ReversedAt(Records(calls));
    var rs, newest := Records(calls), NewestRecords(calls, limit);
    forall i | 0 <= i < Min(limit, |calls|) ensures newest[i] == RecordOf(calls[|calls| - 1 - i]) {
      assert newest[i] == Reversed(rs)[i] == rs[|rs| - 1 - i];
    }
  }

  /**
   * After any calls at all, reading returns the records of the last `limit` calls, newest first and
   * with every field as it was written, exactly if these records are recoverable; and reading panics
   * exactly if one of them is disordered. Older records do not matter.
   */
  lemma AuditRoundTrip(calls: seq<Call>, limit: nat)
    requires Stamped(calls)
    ensures var got, newest := ReadAudit(Logged(Records(calls)), limit), NewestRecords(calls, limit);
            && (got == Some(newest) <==> forall r | r in newest :: Recoverable(r))
            && (got == None <==> exists r :: r in newest && Disordered(r))
  {
    var rs := Records(calls);
    RecordsAreWritable(calls);
    RecordsHaveOneLineEach(rs);
    ReversedFormats(rs);
    ReversedHas(rs);
    hide Writable, Recoverable, Disordered;
    NewestExactly(Reversed(rs), limit);
    hide Lines, Logged, Newest, Reversed, Formats, Records;
  }

  /**
   * In terms of what `log` was called with: the i-th newest entry has the call's own time stamp and
   * outcome, and each field that holds no line break exactly as it was passed.
   */
  lemma EntriesAreTheCalls(calls: seq<Call>, limit: nat, i: nat)
    requires Stamped(calls) && i < Min(limit, |calls|)
    requires forall r | r in NewestRecords(calls, limit) :: Recoverable(r)
    ensures var got := ReadAudit(Logged(Records(calls)), limit);
            && got.Some? && |got.value| == Min(limit, |calls|)
            && var entry, c := got.value[i], calls[|calls| - 1 - i];
            && entry.ts == c.ts && entry.result == (if c.ok then "ok" else "fail")
            && (OneLine(c.user) ==> entry.user == c.user) && (OneLine(c.action) ==> entry.action == c.action)
            && (OneLine(c.target) ==> entry.target == c.target) && (OneLine(c.details) ==> entry.details == c.details)
  {
    hide ReadAudit, NewestRecords, Records, Logged, Recoverable, Disordered, Sanitize, OneLine;
    AuditRoundTrip(calls, limit);
    NewestRecordsAre(calls, limit);
    var c := calls[|calls| - 1 - i];
    SanitizeIsOneLine(c.user);
    SanitizeIsOneLine(c.action);
    SanitizeIsOneLine(c.target);
    SanitizeIsOneLine(c.details);
  }

  // ----- A record that stops every query -----

  lemma NoSpaceNoLabel(s: string, pat: string)
    requires IsLabel(pat) && ' ' !in s
    ensures !Contains(s, pat)
  {
    forall i | 0 <= i <= |s| ensures !OccursAt(s, pat, i) {
      if i + |pat| <= |s| {
        assert s[i..i + |pat|][0] == s[i] && s[i] in s;
      }
    }
  }

  /** A target that holds the last delimiter is met before the result it should follow. */
  lemma DetailsInTarget(r: Record)
    requires Contains(r.target, DETAILS)
    requires !Contains(r.user, RESULT) && !Contains(r.action, RESULT) && !Contains(r.target, RESULT)
    ensures Disordered(r)
  {
    hide Find;
    Labels();
    FindMeaning(r.user, DETAILS);
    FindMeaning(r.action, DETAILS);
    FindMeaning(r.target, DETAILS);
    FindMeaning(r.user, RESULT);
    FindMeaning(r.action, RESULT);
    FindMeaning(r.target, RESULT);
    hide Contains;
    FirstOfOne(r.target, DETAILS, RESULT);
    assert [r.action, r.target][1..] == [r.target];
    assert ComesFirst([r.action, r.target], DETAILS, RESULT);
    assert [r.user, r.action, r.target][1..] == [r.action, r.target];
  }

  /** One such call, whatever was logged before, stops every query that reaches back to it. */
  lemma TargetStopsQueries(before: seq<Call>, c: Call, after: seq<Call>, limit: nat)
    requires Stamped(before + [c] + after) && |after| < limit
    requires c.target == "x details=y" && ' ' !in c.user && ' ' !in c.action
    ensures ReadAudit(Logged(Records(before + [c] + after)), limit) == None
  {
    hide RecordOf, ReadAudit, NewestRecords, Disordered, Records, Logged;
    var calls, k := before + [c] + after, |after|;
    AuditRoundTrip(calls, limit);
    NewestRecordsAre(calls, limit);
    hide Stamped;
    assert calls[|before|] == c && |calls| - 1 - k == |before|;
    DetailsNameIsDisordered(c);
    assert NewestRecords(calls, limit)[k] in NewestRecords(calls, limit);
  }

  lemma DetailsNameIsDisordered(c: Call)
    requires c.target == "x details=y" && ' ' !in c.user && ' ' !in c.action
    ensures Disordered(RecordOf(c))
  {
    hide Contains, IsLabel, Disordered, Sanitize;
    Labels();
    DetailsNameIsKept();
    SanitizeAddsNoSpace(c.user);
    SanitizeAddsNoSpace(c.action);
    NoSpaceNoLabel(Sanitize(c.user), RESULT);
    NoSpaceNoLabel(Sanitize(c.action), RESULT);
    DetailsNameHoldsLabel();
    DetailsInTarget(RecordOf(c));
  }

  lemma DetailsNameIsKept()
    ensures Sanitize("x details=y") == "x details=y"
  {
    hide Sanitize;
    SanitizeIsOneLine("x details=y");
  }

  lemma DetailsNameHoldsLabel()
    ensures Contains("x details=y", DETAILS) && !Contains("x details=y", RESULT)
  {
    var s := "x details=y";
    assert s[1..10] == DETAILS;
    assert OccursAt(s, DETAILS, 1);
    forall i | 0 <= i <= |s| ensures !OccursAt(s, RESULT, i) {
      if i + 8 <= |s| {
        assert s[i..i + 8][0] == s[i] && s[i..i + 8][1] == s[i + 1];
      }
    }
  }

  lemma {:induction false} SanitizeAddsNoSpace(s: string)
    requires ' ' !in s
    ensures ' ' !in Sanitize(s)
  {
    if s != "" {
      SanitizeAddsNoSpace(s[1..]);
    }
  }

  lemma {:induction false} ReversedAt<T>(s: seq<T>)
    ensures |Reversed(s)| == |s| && forall i :: 0 <= i < |s| ==> Reversed(s)[i] == s[|s| - 1 - i]
  {
    if s != [] {
      ReversedAt(s[..|s| - 1]);
    }
  }
}
