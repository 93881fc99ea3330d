/** The sessions that the filter accepts, and what it answers to them. */
module SmudgeSessions {
  import opened Options
  import opened Smudge

  /** One smudge command: its metadata lines and its content packets. */
  datatype Job = Job(metadata: seq<Bytes>, content: seq<Bytes>)

  /** How far a client has come; `Ready` is a session between two commands. */
  datatype Session =
    | Nothing
    | InVersions(versions: seq<Bytes>)
    | InCapabilities(versions: seq<Bytes>, capabilities: seq<Bytes>)
    | Ready(versions: seq<Bytes>, capabilities: seq<Bytes>, jobs: seq<Job>)
    | InMetadata(versions: seq<Bytes>, capabilities: seq<Bytes>, jobs: seq<Job>, metadata: seq<Bytes>)
    | InContent(versions: seq<Bytes>, capabilities: seq<Bytes>, jobs: seq<Job>, metadata: seq<Bytes>,
                content: seq<Bytes>)

  // ------------------------------------------------------------- what is written

  function Lines(xs: seq<Bytes>): seq<Packet> {
    seq(|xs|, i requires 0 <= i < |xs| => Data(xs[i]))
  }

  function JobsText(jobs: seq<Job>): seq<Packet> {
    if jobs == [] then [] else
    var job := jobs[|jobs| - 1];
    JobsText(jobs[..|jobs| - 1]) + [Data(COMMAND)] + Lines(job.metadata) + [Flush] + Lines(job.content) + [Flush]
  }

  /** The packets of a session, as the filter protocol lays them out. */
  function Text(s: Session): seq<Packet> {
    if s.Nothing? then [] else
    var t := [Data(CLIENT)] + Lines(s.versions);
    if s.InVersions? then t else
    var t := t + [Flush] + Lines(s.capabilities);
    if s.InCapabilities? then t else
    var t := t + [Flush] + JobsText(s.jobs);
    if s.Ready? then t else
    var t := t + [Data(COMMAND)] + Lines(s.metadata);
    if s.InMetadata? then t else t + [Flush] + Lines(s.content)
  }

  function Joined(xs: seq<Bytes>): Bytes {
    if xs == [] then [] else Joined(xs[..|xs| - 1]) + xs[|xs| - 1]
  }

  /** The answers, one for each command in order, each from that command's content. */
  function Answers(smudger: Smudger, jobs: seq<Job>): Option<seq<Packet>> {
    if jobs == [] then Some([]) else
    var before := Answers(smudger, jobs[..|jobs| - 1]);
    var answer := Answer(smudger(|jobs| - 1, Joined(jobs[|jobs| - 1].content)));
    if before.Some? && answer.Some? then Some(before.value + answer.value) else None
  }

  ghost predicate WellFormed(smudger: Smudger, s: Session) {
    s.Nothing?
    || (&& (forall i :: 0 <= i < |s.versions| ==> HasPrefix(s.versions[i], "version="))
        && (s.InVersions?
            || (&& VERSION in s.versions
                && (forall i :: 0 <= i < |s.capabilities| ==> HasPrefix(s.capabilities[i], "capability="))
                && (s.InCapabilities? || (CAPABILITY in s.capabilities && Answers(smudger, s.jobs).Some?)))))
  }

  /** Where a session leaves the filter. */
  ghost function Meaning(smudger: Smudger, s: Session): State
    requires WellFormed(smudger, s)
  {
    var hello := [Data(SERVER), Data(VERSION), Flush];
    if s.Nothing? then START
    else if s.InVersions? then State(Versions(VERSION in s.versions), 0, [])
    else if s.InCapabilities? then State(Capabilities(CAPABILITY in s.capabilities), 0, hello)
    else
      State(if s.Ready? then Command else if s.InMetadata? then Metadata else Content(Joined(s.content)),
            |s.jobs|, hello + [Data(CAPABILITY), Flush] + Answers(smudger, s.jobs).value)
  }

  // ---------------------------------------------------------- one packet less

  function Front<T>(xs: seq<T>): seq<T>
    requires xs != []
  {
    xs[..|xs| - 1]
  }

  function Last<T>(xs: seq<T>): T
    requires xs != []
  {
    xs[|xs| - 1]
  }

  function Before(s: Session): Session
    requires !s.Nothing?
  {
    match s
    case InVersions(vs) => if vs == [] then Nothing else InVersions(Front(vs))
    case InCapabilities(vs, cs) => if cs == [] then InVersions(vs) else InCapabilities(vs, Front(cs))
    case Ready(vs, cs, jobs) =>
      if jobs == [] then InCapabilities(vs, cs)
      else InContent(vs, cs, Front(jobs), Last(jobs).metadata, Last(jobs).content)
    case InMetadata(vs, cs, jobs, ms) => if ms == [] then Ready(vs, cs, jobs) else InMetadata(vs, cs, jobs, Front(ms))
    case InContent(vs, cs, jobs, ms, ps) =>
      if ps == [] then InMetadata(vs, cs, jobs, ms) else InContent(vs, cs, jobs, ms, Front(ps))
  }

  function LastPacket(s: Session): Packet
    requires !s.Nothing?
  {
    match s
    case InVersions(vs) => if vs == [] then Data(CLIENT) else Data(Last(vs))
    case InCapabilities(_, cs) => if cs == [] then Flush else Data(Last(cs))
    case Ready(_, _, _) => Flush
    case InMetadata(_, _, _, ms) => if ms == [] then Data(COMMAND) else Data(Last(ms))
    case InContent(_, _, _, _, ps) => if ps == [] then Flush else Data(Last(ps))
  }

  lemma LinesStep(xs: seq<Bytes>)
    ensures xs != [] ==> Lines(xs) == Lines(Front(xs)) + [Data(Last(xs))]
    ensures xs == [] ==> Lines(xs) == []
  {
  }

  lemma Associative<T>(a: seq<T>, b: seq<T>, c: seq<T>)
    ensures a + (b + c) == (a + b) + c
  {
  }

  lemma ReadyTextStep(s: Session)
    requires s.Ready?
    ensures Text(s) == Text(Before(s)) + [LastPacket(s)]
  {
    var t := [Data(CLIENT)] + Lines(s.versions) + [Flush] + Lines(s.capabilities) + [Flush];
    if s.jobs == [] {
      assert t + [] == t;
    } else {
      var job, before := Last(s.jobs), JobsText(Front(s.jobs));
      var command := before + [Data(COMMAND)];
      var metadata := command + Lines(job.metadata);
      var content := metadata + [Flush];
      Associative(t, before, [Data(COMMAND)]);
      Associative(t, command, Lines(job.metadata));
      Associative(t, metadata, [Flush]);
      Associative(t, content, Lines(job.content));
      Associative(t, content + Lines(job.content), [Flush]);
    }
  }

  lemma TextStep(s: Session)
    requires !s.Nothing?
    ensures Text(s) == Text(Before(s)) + [LastPacket(s)]
  {
    match s
    case InVersions(vs) => LinesStep(vs);
    case InCapabilities(_, cs) => LinesStep(cs);
    case Ready(_, _, _) => ReadyTextStep(s);
    case InMetadata(_, _, _, ms) => LinesStep(ms);
    case InContent(_, _, _, _, ps) => LinesStep(ps);
  }

  lemma MemberStep(xs: seq<Bytes>, x: Bytes)
    requires xs != []
    ensures x in xs <==> x in Front(xs) || x == Last(xs)
  {
    assert xs == Front(xs) + [Last(xs)];
  }

  lemma ReadyStep(smudger: Smudger, s: Session)
    requires s.Ready? && WellFormed(smudger, s)
    ensures WellFormed(smudger, Before(s))
    ensures Step(smudger, Meaning(smudger, Before(s)), LastPacket(s)) == Some(Meaning(smudger, s))
  {
    var hello := [Data(SERVER), Data(VERSION), Flush] + [Data(CAPABILITY), Flush];
    if s.jobs == [] {
      assert hello + [] == hello;
    } else {
      var before := Answers(smudger, Front(s.jobs)).value;
      var answer := Answer(smudger(|s.jobs| - 1, Joined(Last(s.jobs).content)));
      assert hello + (before + answer.value) == (hello + before) + answer.value;
    }
  }

  lemma MeaningStep(smudger: Smudger, s: Session)
    requires !s.Nothing? && WellFormed(smudger, s)
    ensures WellFormed(smudger, Before(s))
    ensures Step(smudger, Meaning(smudger, Before(s)), LastPacket(s)) == Some(Meaning(smudger, s))
  {
    match s
    case InVersions(vs) => if vs != [] { MemberStep(vs, VERSION); }
    case InCapabilities(_, cs) =>
      if cs != [] { MemberStep(cs, CAPABILITY); }
      assert START.out + [Data(SERVER), Data(VERSION), Flush] == [Data(SERVER), Data(VERSION), Flush];
    case Ready(_, _, _) => ReadyStep(smudger, s);
    case _ =>
  }

  lemma {:induction false} Understood(smudger: Smudger, s: Session)
    requires WellFormed(smudger, s)
    ensures Fold(smudger, Text(s)) == Some(Meaning(smudger, s))
    decreases |Text(s)|
  {
    if !s.Nothing? {
      TextStep(s);
      MeaningStep(smudger, s);
      Understood(smudger, Before(s));
      assert Text(s)[..|Text(s)| - 1] == Text(Before(s));
    }
  }

  // ---------------------------------------------------------- one packet more

  lemma Continue(smudger: Smudger, s: Session, p: Packet) returns (t: Session)
    requires WellFormed(smudger, s) && Step(smudger, Meaning(smudger, s), p).Some?
    ensures !t.Nothing? && WellFormed(smudger, t) && Before(t) == s && LastPacket(t) == p
  {
    match s
    case Nothing => t := InVersions([]);
    case InVersions(vs) => t := if p.Flush? then InCapabilities(vs, []) else InVersions(vs + [p.payload]);
    case InCapabilities(vs, cs) =>
      t := if p.Flush? then Ready(vs, cs, []) else InCapabilities(vs, cs + [p.payload]);
    case Ready(vs, cs, jobs) => t := InMetadata(vs, cs, jobs, []);
    case InMetadata(vs, cs, jobs, ms) =>
      t := if p.Flush? then InContent(vs, cs, jobs, ms, []) else InMetadata(vs, cs, jobs, ms + [p.payload]);
    case InContent(_, _, _, _, _) => t := ContinueContent(smudger, s, p);
  }

  lemma ContinueContent(smudger: Smudger, s: Session, p: Packet) returns (t: Session)
    requires s.InContent? && WellFormed(smudger, s) && Step(smudger, Meaning(smudger, s), p).Some?
    ensures !t.Nothing? && WellFormed(smudger, t) && Before(t) == s && LastPacket(t) == p
  {
    if p.Flush? {
      t := Ready(s.versions, s.capabilities, s.jobs + [Job(s.metadata, s.content)]);
      assert Front(t.jobs) == s.jobs;
    } else {
      t := InContent(s.versions, s.capabilities, s.jobs, s.metadata, s.content + [p.payload]);
    }
  }

  lemma {:induction false} FoldStep(smudger: Smudger, packets: seq<Packet>)
    requires packets != [] && Fold(smudger, packets).Some?
    ensures Fold(smudger, Front(packets)).Some? && Front(packets) + [Last(packets)] == packets
    ensures Step(smudger, Fold(smudger, Front(packets)).value, Last(packets)) == Fold(smudger, packets)
  {
  }

  lemma {:induction false} Recognized(smudger: Smudger, packets: seq<Packet>) returns (s: Session)
    requires Fold(smudger, packets).Some?
    ensures WellFormed(smudger, s) && Text(s) == packets && Fold(smudger, packets) == Some(Meaning(smudger, s))
  {
    if packets == [] {
      s := Nothing;
    } else {
      FoldStep(smudger, packets);
      var before := Recognized(smudger, Front(packets));
      s := Extend(smudger, before, Last(packets));
    }
  }

  lemma Extend(smudger: Smudger, s: Session, p: Packet) returns (t: Session)
    requires WellFormed(smudger, s) && Step(smudger, Meaning(smudger, s), p).Some?
    ensures WellFormed(smudger, t) && Text(t) == Text(s) + [p]
    ensures Step(smudger, Meaning(smudger, s), p) == Some(Meaning(smudger, t))
  {
    t := Continue(smudger, s, p);
    TextStep(t);
    MeaningStep(smudger, t);
  }

  /** Whatever the client sends, it is at first the text of a well-formed beginning, and
      what has been flushed when the process ends is what that beginning calls for: the
      greeting, the capability, and whole answers to whole commands. */
  lemma {:induction false} FlushedIsWhole(smudger: Smudger, packets: seq<Packet>) returns (s: Session, n: nat)
    ensures n <= |packets| && WellFormed(smudger, s) && Text(s) == packets[..n]
    ensures n < |packets| ==> Fold(smudger, packets[..n + 1]).None?
    ensures Flushed(smudger, packets) == Meaning(smudger, s).out
  {
    if Fold(smudger, packets).Some? {
      s := Recognized(smudger, packets);
      n := |packets|;
      assert packets[..n] == packets;
    } else {
      var before := Front(packets);
      s, n := FlushedIsWhole(smudger, before);
      assert before[..n] == packets[..n];
      if n < |before| {
        assert before[..n + 1] == packets[..n + 1];
      } else {
        assert packets[..n + 1] == packets;
      }
    }
  }

  /** Without input errors the filter accepts exactly the packet sequences of whole
      sessions, and answers with its greeting, its capability and one answer for each
      command, in order, from that command's content alone. */
  lemma AcceptsExactlySessions(smudger: Smudger, packets: seq<Packet>)
    ensures Sent(smudger, packets).Some? <==>
            exists s: Session :: s.Ready? && WellFormed(smudger, s) && Text(s) == packets
    ensures forall s: Session :: s.Ready? && WellFormed(smudger, s) && Text(s) == packets ==>
              Sent(smudger, packets)
              == Some([Data(SERVER), Data(VERSION), Flush] + [Data(CAPABILITY), Flush] + Answers(smudger, s.jobs).value)
  {
    if Sent(smudger, packets).Some? {
      var s := Recognized(smudger, packets);
      assert s.Ready?;
    }
    forall s: Session | s.Ready? && WellFormed(smudger, s) && Text(s) == packets
      ensures Sent(smudger, packets)
              == Some([Data(SERVER), Data(VERSION), Flush] + [Data(CAPABILITY), Flush] + Answers(smudger, s.jobs).value)
    {
      Understood(smudger, s);
    }
  }
}
