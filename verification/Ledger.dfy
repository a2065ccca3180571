// The append-only audit file of galia2/recovery_audit.py: JSON lines, each naming
// the digest of the one before.
module Ledger {
  import opened Base
  import opened Chains

  datatype EventType = RecoveryIntake | AttemptRetained | RollbackAttempted | RollbackSucceeded | RollbackFailed

  datatype Payload = Payload(
    eventId: string, kind: EventType, actor: string, timestamp: int, policy: string,
    refs: seq<string>, details: string, previous: Option<Digest>)

  datatype AuditEvent = AuditEvent(payload: Payload, hash: Digest)

  datatype Env = Env(policy: string, actor: string, payloadHash: Payload -> Digest, validHash: Digest -> bool)

  ghost predicate Sound(env: Env) {
    Injective(env.payloadHash) && forall p :: env.validHash(env.payloadHash(p))
  }

  // The lines of the file, and whether the last of them is ended by a newline.
  datatype Book = Book(lines: seq<File<AuditEvent>>, ended: bool)

  const EMPTY := Book([], true)

  datatype Error = InvalidRecord | ChainBreak | HashMismatch | InvalidEvent | WriteFailed

  // What can happen to the append of one line: all of it and a newline; nothing;
  // part of the record; all of it but the newline; all of it, but the call fails.
  datatype LineFault = Clean | Nothing | Partial | Unended | Late

  predicate ValidEvent(env: Env, e: AuditEvent) {
    && Required(e.payload.eventId) && Required(e.payload.actor) && Required(e.payload.policy) && Required(e.payload.details)
    && (e.payload.previous.Some? ==> env.validHash(e.payload.previous.value)) && env.validHash(e.hash)
  }

  datatype State = State(previous: Option<Digest>, events: seq<AuditEvent>)

  const BLANK := State(None, [])

  function Apply(env: Env, s: State, f: File<AuditEvent>): Result<State, Error> {
    if f.Torn? || !ValidEvent(env, f.entry) then Err(InvalidRecord)
    else if f.entry.payload.previous != s.previous then Err(ChainBreak)
    else if f.entry.hash != env.payloadHash(f.entry.payload) then Err(HashMismatch)
    else Ok(State(Some(f.entry.hash), s.events + [f.entry]))
  }

  function Step(env: Env): (State, File<AuditEvent>) -> Result<State, Error> {
    (s: State, f: File<AuditEvent>) => Apply(env, s, f)
  }

  function ReadEvents(env: Env, book: Book): Result<State, Error> {
    Run(Step(env), BLANK, book.lines)
  }

  function NewEvent(env: Env, previous: Option<Digest>, id: string, now: int, kind: EventType, refs: seq<string>, details: string)
    : AuditEvent
  {
    var p := Payload(id, kind, env.actor, now, env.policy, refs, details, previous);
    AuditEvent(p, env.payloadHash(p))
  }

  // What an append leaves on disk: on a file whose last line is not ended the new
  // bytes run into that line, and what is read there is no longer a record.
  function WriteLine(book: Book, e: AuditEvent, fault: LineFault): Book {
    if fault == Nothing then book
    else if book.ended || book.lines == [] then
      Book(book.lines + [if fault == Partial then Torn else Whole(e)], fault != Partial && fault != Unended)
    else
      Book(book.lines[..|book.lines| - 1] + [Torn], fault != Partial && fault != Unended)
  }

  function Append(env: Env, book: Book, id: string, now: int, kind: EventType, refs: seq<string>, details: string, fault: LineFault)
    : (Result<AuditEvent, Error>, Book)
  {
    match ReadEvents(env, book)
    case Err(e) => (Err(e), book)
    case Ok(s) =>
      var e := NewEvent(env, s.previous, id, now, kind, refs, details);
      if !ValidEvent(env, e) then (Err(InvalidEvent), book)
      else (if fault == Clean then Ok(e) else Err(WriteFailed), WriteLine(book, e, fault))
  }

  // ----- The ledger object

  class AuditLedger {
    const env: Env
    var lines: seq<File<AuditEvent>>
    var ended: bool

    constructor (env: Env)
      ensures this.env == env && Contents() == EMPTY
    {
      this.env := env;
      lines, ended := [], true;
    }

    function Contents(): Book
      reads this
    {
      Book(lines, ended)
    }

    method Read() returns (r: Result<State, Error>)
      ensures r == ReadEvents(env, Contents())
    {
      var previous: Option<Digest> := None;
      var out: seq<AuditEvent> := [];
      for i := 0 to |lines|
        invariant Run(Step(env), BLANK, lines[..i]) == Ok(State(previous, out))
      {
        var f := lines[i];
        assert lines[..i + 1] == lines[..i] + [f];
        RunSnoc(Step(env), BLANK, lines[..i], f);
        assert lines == lines[..i + 1] + lines[i + 1..];
        RunConcat(Step(env), BLANK, lines[..i + 1], lines[i + 1..]);
        if f.Torn? || !ValidEvent(env, f.entry) { return Err(InvalidRecord); }
        if f.entry.payload.previous != previous { return Err(ChainBreak); }
        if f.entry.hash != env.payloadHash(f.entry.payload) { return Err(HashMismatch); }
        previous, out := Some(f.entry.hash), out + [f.entry];
      }
      assert lines[..|lines|] == lines;
      r := Ok(State(previous, out));
    }

    method AppendEvent(id: string, now: int, kind: EventType, refs: seq<string>, details: string, fault: LineFault)
      returns (r: Result<AuditEvent, Error>)
      modifies this
      ensures (r, Contents()) == Append(env, old(Contents()), id, now, kind, refs, details, fault)
    {
      var read := Read();
      if read.Err? { return Err(read.error); }
      var e := NewEvent(env, read.value.previous, id, now, kind, refs, details);
      if !ValidEvent(env, e) { return Err(InvalidEvent); }
      if fault != Nothing {
        if ended || lines == [] {
          lines := lines + [if fault == Partial then Torn else Whole(e)];
        } else {
          lines := lines[..|lines| - 1] + [Torn];
        }
        ended := fault != Partial && fault != Unended;
      }
      r := if fault == Clean then Ok(e) else Err(WriteFailed);
    }
  }

  // ----- Laws

  lemma {:induction false} ReadShape(env: Env, lines: seq<File<AuditEvent>>)
    requires Run(Step(env), BLANK, lines).Ok?
    ensures var s := Run(Step(env), BLANK, lines).value;
            && |s.events| == |lines|
            && (forall i :: 0 <= i < |lines| ==> lines[i] == Whole(s.events[i]))
            && s.previous == (if lines == [] then None else Some(env.payloadHash(s.events[|lines| - 1].payload)))
            && (s.previous.Some? ==> env.validHash(s.previous.value))
    decreases |lines|
  {
    if lines != [] {
      var n := |lines| - 1;
      assert lines == lines[..n] + [lines[n]];
      RunSnoc(Step(env), BLANK, lines[..n], lines[n]);
      ReadShape(env, lines[..n]);
    }
  }

  lemma {:induction false} TornUnreadable(env: Env, lines: seq<File<AuditEvent>>, i: nat)
    requires i < |lines| && lines[i].Torn?
    ensures Run(Step(env), BLANK, lines).Err?
  {
    var n := |lines| - 1;
    assert lines == lines[..n] + [lines[n]];
    RunSnoc(Step(env), BLANK, lines[..n], lines[n]);
    if i < n {
      TornUnreadable(env, lines[..n], i);
    }
  }

  // A line where it stands: a named event with an actor, a policy and details, linked
  // to the line before it, and sealed with the digest of what it says.
  ghost predicate LawfulLine(env: Env, lines: seq<File<AuditEvent>>, i: nat)
    requires i < |lines|
  {
    && lines[i].Whole?
    && var e := lines[i].entry;
    && Required(e.payload.eventId) && Required(e.payload.actor) && Required(e.payload.policy) && Required(e.payload.details)
    && e.hash == env.payloadHash(e.payload)
    && e.payload.previous == SealOf(lines[..i])
  }

  // The digest the last line is sealed with.
  function SealOf(lines: seq<File<AuditEvent>>): Option<Digest> {
    if lines == [] || lines[|lines| - 1].Torn? then None else Some(lines[|lines| - 1].entry.hash)
  }

  // A ledger can be read exactly when every line is lawful where it stands, and reads
  // as its lines' events.
  lemma {:induction false} ReadIffLawful(env: Env, lines: seq<File<AuditEvent>>)
    requires Sound(env)
    ensures Run(Step(env), BLANK, lines).Ok? <==> forall i :: 0 <= i < |lines| ==> LawfulLine(env, lines, i)
    ensures Run(Step(env), BLANK, lines).Ok? ==>
              var s := Run(Step(env), BLANK, lines).value;
              && |s.events| == |lines| && s.previous == SealOf(lines)
              && forall i :: 0 <= i < |lines| ==> lines[i] == Whole(s.events[i])
    decreases |lines|
  {
    hide Required, Run;
    if lines == [] {
      NoLines(env);
    } else {
      var n := |lines| - 1;
      var p := lines[..n];
      assert lines == p + [lines[n]];
      RunSnoc(Step(env), BLANK, p, lines[n]);
      ReadIffLawful(env, p);
      forall i | 0 <= i < n ensures LawfulLine(env, lines, i) <==> LawfulLine(env, p, i) {
        assert lines[..i] == p[..i];
      }
      if Run(Step(env), BLANK, p).Ok? {
        ReadShape(env, p);
        LawfulNext(env, Run(Step(env), BLANK, p).value, p, lines[n]);
      } else {
        var i: nat :| i < n && !LawfulLine(env, p, i);
        assert !LawfulLine(env, lines, i);
      }
    }
  }

  lemma LawfulNext(env: Env, s: State, p: seq<File<AuditEvent>>, f: File<AuditEvent>)
    requires Sound(env) && s.previous == SealOf(p) && (s.previous.Some? ==> env.validHash(s.previous.value))
    ensures Apply(env, s, f).Ok? <==> LawfulLine(env, p + [f], |p|)
  {
    hide Required;
    assert (p + [f])[..|p|] == p;
  }

  lemma NoLines(env: Env)
    ensures Run(Step(env), BLANK, []) == Ok(BLANK)
  {
  }

  // The event an append writes: the caller's name, time, kind, references and
  // details, the store's own actor and policy, the link to the last line.
  predicate EventIs(env: Env, e: AuditEvent, lines: seq<File<AuditEvent>>, id: string, now: int, kind: EventType,
                    refs: seq<string>, details: string)
  {
    && e.payload.eventId == id && e.payload.timestamp == now && e.payload.kind == kind
    && e.payload.refs == refs && e.payload.details == details
    && e.payload.actor == env.actor && e.payload.policy == env.policy
    && e.payload.previous == SealOf(lines)
    && e.hash == env.payloadHash(e.payload)
  }

  // An append succeeds exactly on a ledger that can be read, for a named event with
  // details under a named actor and policy, and when the write meets no fault; what
  // it returns, and the line it leaves if the last line was ended, is that event.
  lemma AppendExact(env: Env, book: Book, id: string, now: int, kind: EventType, refs: seq<string>, details: string, fault: LineFault)
    requires Sound(env)
    ensures var (r, after) := Append(env, book, id, now, kind, refs, details, fault);
            && (r.Ok? <==>
                && fault == Clean && (forall i :: 0 <= i < |book.lines| ==> LawfulLine(env, book.lines, i))
                && Required(id) && Required(env.actor) && Required(env.policy) && Required(details))
            && (r.Ok? ==> EventIs(env, r.value, book.lines, id, now, kind, refs, details) && after.ended)
            && (r.Ok? && (book.ended || book.lines == []) ==> after == Book(book.lines + [Whole(r.value)], true))
            && (fault == Nothing ==> after == book)
            && (book.ended || book.lines == [] ==>
                  after == book
                  || after.lines == book.lines + [Torn]
                  || (|after.lines| == |book.lines| + 1 && after.lines[..|book.lines|] == book.lines && after.lines[|book.lines|].Whole?
                      && EventIs(env, after.lines[|book.lines|].entry, book.lines, id, now, kind, refs, details)))
  {
    hide Required, Run, LawfulLine, EventIs, NewEvent, ValidEvent, WriteLine;
    ReadIffLawful(env, book.lines);
    if ReadEvents(env, book).Ok? {
      var e := NewEvent(env, ReadEvents(env, book).value.previous, id, now, kind, refs, details);
      NewEventIs(env, book, id, now, kind, refs, details);
      LineLands(book, e, fault);
    }
  }

  // The event an append would leave, and when it is fit to be left.
  lemma NewEventIs(env: Env, book: Book, id: string, now: int, kind: EventType, refs: seq<string>, details: string)
    requires Sound(env) && ReadEvents(env, book).Ok?
    ensures var e := NewEvent(env, ReadEvents(env, book).value.previous, id, now, kind, refs, details);
            && EventIs(env, e, book.lines, id, now, kind, refs, details)
            && (ValidEvent(env, e) <==> Required(id) && Required(env.actor) && Required(env.policy) && Required(details))
  {
    hide Required, Run;
    ReadShape(env, book.lines);
    ReadIffLawful(env, book.lines);
  }

  // What is on the file after an attempt to add a line.
  lemma LineLands(book: Book, e: AuditEvent, fault: LineFault)
    ensures var after := WriteLine(book, e, fault); var clear := book.ended || book.lines == [];
            && (fault == Nothing ==> after == book) && (fault == Clean ==> after.ended)
            && (fault == Clean && clear ==> after == Book(book.lines + [Whole(e)], true))
            && (clear ==> after == book || after.lines == book.lines + [Torn] || after.lines == book.lines + [Whole(e)])
  {
  }

  // An append that reports success leaves a ledger that reads back as the old
  // events and the new one exactly when the last line had been ended; otherwise it
  // leaves one that cannot be read.
  lemma AppendedIff(env: Env, book: Book, id: string, now: int, kind: EventType, refs: seq<string>, details: string)
    requires Append(env, book, id, now, kind, refs, details, Clean).0.Ok?
    ensures var (r, after) := Append(env, book, id, now, kind, refs, details, Clean);
            && (ReadEvents(env, after).Ok? <==> book.ended || book.lines == [])
            && (ReadEvents(env, after).Ok? ==>
                  ReadEvents(env, after).value.events == ReadEvents(env, book).value.events + [r.value])
  {
    var (r, after) := Append(env, book, id, now, kind, refs, details, Clean);
    if book.ended || book.lines == [] {
      RunSnoc(Step(env), BLANK, book.lines, Whole(r.value));
    } else {
      TornUnreadable(env, after.lines, |after.lines| - 1);
    }
  }

  // The failing side is reached: on a readable ledger whose last line had been
  // ended, an append leaves a readable one that ends without a newline exactly when
  // it is cut off before its newline; the event is then read although the append
  // reported a failure.
  lemma UnendedIff(env: Env, book: Book, id: string, now: int, kind: EventType, refs: seq<string>, details: string, fault: LineFault)
    requires Append(env, book, id, now, kind, refs, details, Clean).0.Ok?
    requires book.ended || book.lines == []
    ensures var (r, after) := Append(env, book, id, now, kind, refs, details, fault);
            && (ReadEvents(env, after).Ok? && after.lines != [] && !after.ended <==> fault == Unended)
            && (fault == Unended ==>
                  r.Err? && ReadEvents(env, after).value.events ==
                            ReadEvents(env, book).value.events + [Append(env, book, id, now, kind, refs, details, Clean).0.value])
  {
    var e := Append(env, book, id, now, kind, refs, details, Clean).0.value;
    RunSnoc(Step(env), BLANK, book.lines, Whole(e));
    if fault == Partial {
      TornUnreadable(env, book.lines + [Torn], |book.lines|);
    }
  }

  // A ledger that cannot be read takes no further event.
  lemma UnreadableRefuses(env: Env, book: Book, id: string, now: int, kind: EventType, refs: seq<string>, details: string, fault: LineFault)
    requires ReadEvents(env, book).Err?
    ensures Append(env, book, id, now, kind, refs, details, fault).0.Err?
    ensures Append(env, book, id, now, kind, refs, details, fault).1 == book
  {
  }

  // The last line of a readable ledger: sealed, and linked to the lines before it.
  lemma LastLine(env: Env, before: seq<File<AuditEvent>>, f: File<AuditEvent>)
    requires Run(Step(env), BLANK, before + [f]).Ok?
    ensures f.Whole? && Run(Step(env), BLANK, before).Ok?
    ensures f.entry.payload.previous == Run(Step(env), BLANK, before).value.previous
    ensures f.entry.hash == env.payloadHash(f.entry.payload)
    ensures Run(Step(env), BLANK, before + [f]).value.previous == Some(f.entry.hash)
  {
    hide Run;
    RunSnoc(Step(env), BLANK, before, f);
  }

  // The digest of the last event pins every event before it.
  lemma {:induction false} LastHashPins(env: Env, a: seq<File<AuditEvent>>, b: seq<File<AuditEvent>>)
    requires Sound(env) && Run(Step(env), BLANK, a).Ok? && Run(Step(env), BLANK, b).Ok?
    requires |a| == |b| && Run(Step(env), BLANK, a).value.previous == Run(Step(env), BLANK, b).value.previous
    ensures a == b
    decreases |a|
  {
    hide Run, Apply;
    if a != [] {
      var n := |a| - 1;
      assert a == a[..n] + [a[n]] && b == b[..n] + [b[n]];
      LastLine(env, a[..n], a[n]);
      LastLine(env, b[..n], b[n]);
      assert a[n].entry.payload == b[n].entry.payload;
      LastHashPins(env, a[..n], b[..n]);
    }
  }
}
