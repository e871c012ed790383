/** The agent's pin of the gateway id, kept in a file across sessions. */
module Pin {
  import opened Wrappers
  import opened Text

  /** How writing the pin file ends: a failed write may leave the file alone or cut the id short. */
  datatype Save = Saved | Untouched | Cut(length: nat)

  /** One connection attempt, up to the point where the challenge is signed. */
  datatype Session = Session(
    gatewayId: string,         // as presented in the Challenge
    expected: Option<string>,  // TENODERA_GATEWAY_ID at the time
    readOk: bool,              // the pin file is readable, or not there
    save: Save,                // how writing it would end
    nonceOk: bool)             // the nonce decodes to 32 bytes

  /** The pin that a file content stands for. */
  function Loaded(file: Option<string>): Option<string> {
    if file.Some? && Trim(file.value) != "" then Some(Trim(file.value)) else None
  }

  /** What saving leaves in the file, if it touches it. */
  function Written(s: Session): Option<string> {
    match s.save
    case Saved => Some(s.gatewayId)
    case Untouched => None
    case Cut(n) => Some(if n < |s.gatewayId| then s.gatewayId[..n] else s.gatewayId)
  }

  /** Without a pin, the agent goes on to save this gateway's id. */
  predicate Trusts(s: Session) {
    s.readOk && (s.expected.Some? ==> s.expected.value == s.gatewayId)
  }

  function FileAfter(file: Option<string>, s: Session): Option<string> {
    if Loaded(file) == None && Trusts(s) && Written(s).Some? then Written(s) else file
  }

  /** The agent signs for the id it was shown, unless a pin, the configuration or the disk objects. */
  predicate Signs(file: Option<string>, s: Session) {
    s.readOk && s.nonceOk && (Loaded(file) == Some(s.gatewayId) || (Loaded(file) == None && Trusts(s) && s.save.Saved?))
  }

  datatype Load = ReadError | NoPin | Pinned(id: string)

  class AgentIdentity {
    var pinFile: Option<string>

    constructor (file: Option<string>)
      ensures pinFile == file
    {
      pinFile := file;
    }

    method LoadGatewayId(readOk: bool) returns (r: Load)
      ensures r.ReadError? <==> !readOk
      ensures r.NoPin? <==> readOk && Loaded(pinFile) == None
      ensures r.Pinned? ==> Loaded(pinFile) == Some(r.id)
    {
      if !readOk {
        return ReadError;
      }
      if pinFile.None? {
        return NoPin;
      }
      var s := Trim(pinFile.value);
      r := if s == "" then NoPin else Pinned(s);
    }

    /** Writing truncates first; `length` characters arrive before it fails. */
    method SaveGatewayId(gatewayId: string, save: Save) returns (ok: bool)
      modifies this
      ensures ok <==> save.Saved?
      ensures ok ==> pinFile == Some(gatewayId)
      ensures save.Untouched? ==> pinFile == old(pinFile)
      ensures save.Cut? ==> pinFile.Some? && pinFile.value <= gatewayId
                            && |pinFile.value| == if save.length < |gatewayId| then save.length else |gatewayId|
    {
      ok := save.Saved?;
      if save.Saved? {
        pinFile := Some(gatewayId);
      } else if save.Cut? {
        pinFile := Some(if save.length < |gatewayId| then gatewayId[..save.length] else gatewayId);
      }
    }

    /** The gateway id of the signature sent, if one was sent. */
    method AnswerChallenge(s: Session) returns (signed: Option<string>)
      modifies this
      ensures pinFile == FileAfter(old(pinFile), s)
      ensures signed == if Signs(old(pinFile), s) then Some(s.gatewayId) else None
      ensures signed.Some? <==>
                && s.readOk && s.nonceOk
                && if old(pinFile).Some? && Trim(old(pinFile).value) != "" then Trim(old(pinFile).value) == s.gatewayId
                   else (s.expected == None || s.expected == Some(s.gatewayId)) && s.save.Saved?
    {
      var pinned := LoadGatewayId(s.readOk);
      match pinned {
        case ReadError =>
          return None;
        case Pinned(id) =>
          if id != s.gatewayId {
            return None;
          }
        case NoPin =>
          if s.expected.Some? && s.expected.value != s.gatewayId {
            return None;
          }
          var saved := SaveGatewayId(s.gatewayId, s.save);
          assert s.save.Cut? ==> pinFile.value == s.gatewayId[..|pinFile.value|];
          assert s.gatewayId[..|s.gatewayId|] == s.gatewayId;
          assert !s.save.Untouched? ==> pinFile == Written(s);
          if !saved {
            return None;
          }
      }
      if !s.nonceOk {
        return None;
      }
      signed := Some(s.gatewayId);
    }
  }

  // ----- Whole runs -----

  /** The gateway ids of all signatures produced, oldest first. */
  function Signatures(file: Option<string>, ss: seq<Session>): seq<string>
    decreases ss
  {
    if ss == [] then []
    else
      var rest := Signatures(FileAfter(file, ss[0]), ss[1..]);
      if Signs(file, ss[0]) then [ss[0].gatewayId] + rest else rest
  }

  predicate AllAre(ids: seq<string>, id: string) {
    forall i :: 0 <= i < |ids| ==> ids[i] == id
  }

  /** Once a pin loads, nothing else is ever signed. */
  lemma {:induction false} PinnedForever(file: Option<string>, ss: seq<Session>)
    requires Loaded(file).Some?
    ensures AllAre(Signatures(file, ss), Loaded(file).value)
    decreases ss
  {
    if ss != [] {
      PinnedForever(file, ss[1..]);
    }
  }

  /** Without a pin before, there is one after the session. */
  predicate Pins(s: Session) {
    Trusts(s) && Loaded(Written(s)).Some?
  }

  /** The session that pins, if any does. */
  function FirstPin(ss: seq<Session>): (i: nat)
    ensures i <= |ss|
    ensures i < |ss| ==> Pins(ss[i])
    ensures forall j :: 0 <= j < i ==> !Pins(ss[j])
  {
    if ss == [] || Pins(ss[0]) then 0 else 1 + FirstPin(ss[1..])
  }

  predicate WellFormedId(id: string) {
    id != "" && Trimmed(id)
  }

  /**
   * One session is signed exactly if the disk and the nonce are in order and either the pin is the
   * id presented or, with the file missing or blank, the configuration agrees and the id was saved.
   */
  lemma SessionSignsExactly(file: Option<string>, s: Session)
    ensures Signatures(file, [s]) ==
            if && s.readOk && s.nonceOk
               && if file.Some? && Trim(file.value) != "" then Trim(file.value) == s.gatewayId
                  else (s.expected == None || s.expected == Some(s.gatewayId)) && s.save.Saved?
            then [s.gatewayId] else []
  {
    hide Trim;
    assert [s][1..] == [];
    assert [s.gatewayId] + [] == [s.gatewayId];
  }

  /** Nothing is in this gateway's way. */
  predicate Healthy(s: Session, id: string) {
    && s.gatewayId == id && s.readOk && s.save.Saved? && s.nonceOk
    && (s.expected == None || s.expected == Some(id))
  }

  /** From no pin, or this very one, every healthy session with one gateway is signed. */
  lemma {:induction false} HealthySessionsSign(file: Option<string>, id: string, ss: seq<Session>)
    requires WellFormedId(id) && (file == None || Trim(file.value) == "" || Trim(file.value) == id)
    requires forall i :: 0 <= i < |ss| ==> Healthy(ss[i], id)
    ensures |Signatures(file, ss)| == |ss| && AllAre(Signatures(file, ss), id)
    decreases ss
  {
    if ss != [] {
      TrimOfTrimmed(id);
      HealthySessionsSign(FileAfter(file, ss[0]), id, ss[1..]);
    }
  }

  predicate CutShort(s: Session) {
    s.save.Cut? && s.save.length < |s.gatewayId|
  }

  /**
   * From an agent that was never pinned, whatever gateways present themselves and whatever the disk
   * does: all signatures ever produced carry one id, the one left by the first session that pinned.
   */
  lemma {:induction false} PinIsWriteOnce(file: Option<string>, ss: seq<Session>)
    requires Loaded(file) == None
    requires forall i :: 0 <= i < |ss| ==> WellFormedId(ss[i].gatewayId)
    ensures var k := FirstPin(ss);
            && (k == |ss| ==> Signatures(file, ss) == [])
            && (k < |ss| ==> AllAre(Signatures(file, ss), Loaded(Written(ss[k])).value))
    decreases ss
  {
    if ss != [] {
      var s := ss[0];
      TrimOfTrimmed(s.gatewayId);
      if Pins(s) {
        PinnedForever(FileAfter(file, s), ss[1..]);
      } else {
        PinIsWriteOnce(FileAfter(file, s), ss[1..]);
      }
    }
  }

  lemma {:induction false} TrimShortens(s: string)
    ensures |Trim(s)| <= |s|
  {
    TrimEndShortens(s);
    TrimStartShortens(TrimEnd(s));
  }

  lemma {:induction false} TrimEndShortens(s: string)
    ensures |TrimEnd(s)| <= |s|
  {
    if s != "" {
      TrimEndShortens(s[..|s| - 1]);
    }
  }

  lemma {:induction false} TrimStartShortens(s: string)
    ensures |TrimStart(s)| <= |s|
  {
    if s != "" {
      TrimStartShortens(s[1..]);
    }
  }

  /**
   * That id is the one the pinning gateway presented, and so the configured one if one was set then,
   * exactly unless the save of that session failed halfway.
   */
  lemma PinIsPresentedExactly(s: Session)
    requires Pins(s) && WellFormedId(s.gatewayId)
    ensures Loaded(Written(s)).value == s.gatewayId <==> !CutShort(s)
    ensures s.expected.Some? ==> s.expected.value == s.gatewayId
  {
    TrimOfTrimmed(s.gatewayId);
    if CutShort(s) {
      TrimShortens(s.gatewayId[..s.save.length]);
    }
  }

  /** A save that fails halfway leaves a pin which nobody compared with the configured id. */
  lemma CutPinSkipsExpected(id: string, n: nat)
    requires WellFormedId(id) && n < |id| && Trim(id[..n]) != ""
    ensures var first := Session(id, Some(id), true, Cut(n), true);
            var second := Session(Trim(id[..n]), Some(id), true, Saved, true);
            Signatures(None, [first, second]) == [Trim(id[..n])] && Trim(id[..n]) != id
  {
    hide Trim;
    TrimShortens(id[..n]);
    var first := Session(id, Some(id), true, Cut(n), true);
    var second := Session(Trim(id[..n]), Some(id), true, Saved, true);
    var file := FileAfter(None, first);
    assert [first, second][1..] == [second] && [second][1..] == [];
    assert !Signs(None, first) && Loaded(file) == Some(Trim(id[..n]));
    assert Signatures(file, [second]) == [Trim(id[..n])] + [];
  }

  ghost predicate OnlyEverSigns(pinned: string) {
    forall ss :: AllAre(Signatures(Some(pinned), ss), pinned)
  }

  /** The exact condition on the id in the file: not blank, and without spaces around it. */
  lemma PinHoldsExactly(pinned: string)
    ensures OnlyEverSigns(pinned) <==> WellFormedId(pinned)
  {
    if WellFormedId(pinned) {
      TrimOfTrimmed(pinned);
      forall ss ensures AllAre(Signatures(Some(pinned), ss), pinned) {
        PinnedForever(Some(pinned), ss);
      }
    } else {
      TrimIsTrimmed(pinned);
      var other := if Trim(pinned) == "" then pinned + "x" else Trim(pinned);
      var s := Session(other, None, true, Saved, true);
      assert other != pinned && Signs(Some(pinned), s);
      assert Signatures(Some(pinned), [s])[0] == other;
      assert !AllAre(Signatures(Some(pinned), [s]), pinned);
    }
  }
}
