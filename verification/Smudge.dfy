/**
  The LFS smudge filter as a long-running process: one loop over the client's packets.
  What a smudge yields is a parameter: it fails, or its contents are read in chunks until
  the end or until a read fails.
 */
module Smudge {
  import opened Options

  type Bytes = string

  /** `Magic` stands for the packets that have no payload and are not a flush. */
  datatype Packet = Flush | Magic | Data(payload: Bytes)

  datatype Smudged = Refused | Contents(chunks: seq<Bytes>, broken: bool)

  /** The answer to the smudge of the `n`th command, given what the client sent for it. */
  type Smudger = (nat, Bytes) -> Smudged

  const CLIENT: Bytes := "git-filter-client\n"
  const SERVER: Bytes := "git-filter-server\n"
  const VERSION: Bytes := "version=2\n"
  const CAPABILITY: Bytes := "capability=smudge\n"
  const COMMAND: Bytes := "command=smudge\n"
  const SUCCESS: Bytes := "status=success\n"
  const ERROR: Bytes := "status=error\n"

  predicate HasPrefix(s: Bytes, prefix: Bytes) {
    prefix <= s
  }

  // ------------------------------------------------------- one packet at a time

  datatype Mode =
    | Announce
    | Versions(version2: bool)
    | Capabilities(smudge: bool)
    | Command
    | Metadata
    | Content(content: Bytes)

  /** `answered` counts the commands answered so far. */
  datatype State = State(mode: Mode, answered: nat, out: seq<Packet>)

  const START := State(Announce, 0, [])

  function Relayed(chunks: seq<Bytes>): seq<Packet> {
    if chunks == [] then []
    else Relayed(chunks[..|chunks| - 1]) + if chunks[|chunks| - 1] == [] then [] else [Data(chunks[|chunks| - 1])]
  }

  /** The answer to one command; none if reading the contents breaks off. */
  function Answer(s: Smudged): Option<seq<Packet>> {
    match s
    case Refused => Some([Data(ERROR), Flush])
    case Contents(chunks, broken) =>
      if broken then None else Some([Data(SUCCESS), Flush] + Relayed(chunks) + [Flush, Flush])
  }

  function Step(smudger: Smudger, s: State, p: Packet): Option<State> {
    if p.Magic? then None else
    match s.mode
    case Announce => if p == Data(CLIENT) then Some(s.(mode := Versions(false))) else None
    case Versions(version2) =>
      if p.Flush? then
        if version2
        then Some(s.(mode := Capabilities(false), out := s.out + [Data(SERVER), Data(VERSION), Flush]))
        else None
      else if HasPrefix(p.payload, "version=") then Some(s.(mode := Versions(version2 || p.payload == VERSION)))
      else None
    case Capabilities(smudge) =>
      if p.Flush? then
        if smudge then Some(s.(mode := Command, out := s.out + [Data(CAPABILITY), Flush])) else None
      else if HasPrefix(p.payload, "capability=")
      then Some(s.(mode := Capabilities(smudge || p.payload == CAPABILITY)))
      else None
    case Command => if p == Data(COMMAND) then Some(s.(mode := Metadata)) else None
    case Metadata => if p.Flush? then Some(s.(mode := Content([]))) else Some(s)
    case Content(content) =>
      if p.Flush? then
        var answer := Answer(smudger(s.answered, content));
        if answer.Some? then Some(State(Command, s.answered + 1, s.out + answer.value)) else None
      else Some(s.(mode := Content(content + p.payload)))
  }

  function Fold(smudger: Smudger, packets: seq<Packet>): Option<State> {
    if packets == [] then Some(START) else
    var before := Fold(smudger, packets[..|packets| - 1]);
    if before.Some? then Step(smudger, before.value, packets[|packets| - 1]) else None
  }

  lemma {:induction false} FoldPrefix(smudger: Smudger, packets: seq<Packet>, i: nat)
    requires i <= |packets| && Fold(smudger, packets[..i]).None?
    ensures Fold(smudger, packets).None?
    decreases |packets|
  {
    if i < |packets| {
      assert packets[..|packets| - 1][..i] == packets[..i];
      FoldPrefix(smudger, packets[..|packets| - 1], i);
    } else {
      assert packets[..i] == packets;
    }
  }

  // -------------------------------------------------------------- the loop itself

  datatype ProcessState =
    | ProcessAnnounce | ProcessVersions | ProcessCapabilities | ProcessCommand | ProcessMetadata | ProcessContent

  function ModeOf(state: ProcessState, version2: bool, smudge: bool, content: Bytes): Mode {
    match state
    case ProcessAnnounce => Announce
    case ProcessVersions => Versions(version2)
    case ProcessCapabilities => Capabilities(smudge)
    case ProcessCommand => Command
    case ProcessMetadata => Metadata
    case ProcessContent => Content(content)
  }

  /** Relays the smudged contents; empty reads are not written. */
  method Relay(chunks: seq<Bytes>, broken: bool) returns (written: seq<Packet>, ok: bool)
    ensures ok <==> !broken
    ensures ok ==> written == Relayed(chunks)
  {
    written := [];
    for i := 0 to |chunks|
      invariant written == Relayed(chunks[..i])
    {
      assert chunks[..i + 1][..i] == chunks[..i];
      if |chunks[i]| > 0 {
        written := written + [Data(chunks[i])];
      }
    }
    assert chunks[..|chunks|] == chunks;
    ok := !broken;
  }

  method Reply(smudged: Smudged) returns (answer: Option<seq<Packet>>)
    ensures answer == Answer(smudged)
  {
    if smudged.Refused? {
      return Some([Data(ERROR), Flush]);
    }
    var written, ok := Relay(smudged.chunks, smudged.broken);
    if !ok {
      return None;
    }
    return Some([Data(SUCCESS), Flush] + written + [Flush, Flush]);
  }

  /** What the process has sent when it ends well. */
  function Sent(smudger: Smudger, packets: seq<Packet>): Option<seq<Packet>> {
    var end := Fold(smudger, packets);
    if end.Some? && end.value.mode.Command? then Some(end.value.out) else None
  }

  /** What it has flushed in any case: its output for the packets before the first one
      that it refused. */
  function Flushed(smudger: Smudger, packets: seq<Packet>): seq<Packet> {
    var end := Fold(smudger, packets);
    if end.Some? then end.value.out else if packets == [] then [] else Flushed(smudger, packets[..|packets| - 1])
  }

  lemma {:induction false} FlushedPrefix(smudger: Smudger, packets: seq<Packet>, i: nat)
    requires i < |packets| && Fold(smudger, packets[..i]).Some? && Fold(smudger, packets[..i + 1]).None?
    ensures Flushed(smudger, packets) == Fold(smudger, packets[..i]).value.out
    decreases |packets|
  {
    FoldPrefix(smudger, packets, i + 1);
    var before := packets[..|packets| - 1];
    if i + 1 < |packets| {
      assert before[..i] == packets[..i] && before[..i + 1] == packets[..i + 1];
      FlushedPrefix(smudger, before, i);
    }
  }

  /** Whether the process ends well, and what it has flushed to the client by then;
      `scanError` says that the input broke off after `packets`.  The output is flushed
      after every packet that was dealt with. */
  method Process(smudger: Smudger, packets: seq<Packet>, scanError: bool) returns (ok: bool, sent: seq<Packet>)
    ensures ok <==> !scanError && Sent(smudger, packets).Some?
    ensures sent == Flushed(smudger, packets)
  {
    var state, version2, smudge := ProcessAnnounce, false, false;
    var content, answered := [], 0;
    sent := [];
    for i := 0 to |packets|
      invariant !version2 || !state.ProcessAnnounce?
      invariant !smudge || !(state.ProcessAnnounce? || state.ProcessVersions?)
      invariant Fold(smudger, packets[..i]) == Some(State(ModeOf(state, version2, smudge, content), answered, sent))
    {
      var p := packets[i];
      assert packets[..i + 1][..i] == packets[..i];
      if Step(smudger, State(ModeOf(state, version2, smudge, content), answered, sent), p).None? {
        FoldPrefix(smudger, packets, i + 1);
        FlushedPrefix(smudger, packets, i);
      }
      if p.Magic? {
        return false, sent;
      }
      var data := if p.Flush? then [] else p.payload;
      match state {
        case ProcessAnnounce =>
          if data != CLIENT {
            return false, sent;
          }
          state := ProcessVersions;
        case ProcessVersions =>
          if !p.Flush? {
            if !HasPrefix(data, "version=") {
              return false, sent;
            }
            if data == VERSION {
              version2 := true;
            }
          } else {
            if !version2 {
              return false, sent;
            }
            sent := sent + [Data(SERVER), Data(VERSION), Flush];
            state := ProcessCapabilities;
          }
        case ProcessCapabilities =>
          if !p.Flush? {
            if !HasPrefix(data, "capability=") {
              return false, sent;
            }
            if data == CAPABILITY {
              smudge := true;
            }
          } else {
            if !smudge {
              return false, sent;
            }
            sent := sent + [Data(CAPABILITY), Flush];
            state := ProcessCommand;
          }
        case ProcessCommand =>
          if data != COMMAND {
            return false, sent;
          }
          state := ProcessMetadata;
        case ProcessMetadata =>
          if p.Flush? {
            content := [];
            state := ProcessContent;
          }
        case ProcessContent =>
          if p.Flush? {
            var answer := Reply(smudger(answered, content));
            if answer.None? {
              return false, sent;
            }
            sent, answered := sent + answer.value, answered + 1;
            state := ProcessCommand;
          } else {
            content := content + data;
          }
      }
    }
    assert packets[..|packets|] == packets;
    if scanError {
      return false, sent;
    }
    if state != ProcessCommand {
      return false, sent;
    }
    return true, sent;
  }
}
