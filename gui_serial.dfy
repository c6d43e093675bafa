/** The serial side of the ground station: SerialComm.readEolLine, which
    frames one LF-terminated line out of single-byte reads, and the
    SerialWorker that sends toggle messages and polls for lines. The serial
    device is replaced by the outcomes of its reads, and the mutex by
    whether each try to lock it succeeded. */
module GuiSerial {
  import opened Common

  newtype byte = x: int | 0 <= x < 256

  /** The end-of-line byte, b"\n". */
  const LF: byte := 10

  /** The outcome of one connection.read(1): a byte, nothing (the read
      timed out), or a SerialException. */
  datatype ReadResult = Data(b: byte) | Empty | Fault

  /** What readEolLine gives its caller: the decoded line, or the exception
      it raised. */
  datatype LineResult = Line(text: string) | SerialError | DecodeError

  /** The bytes readEolLine accumulates, whether a read raised, and how many
      reads it made. */
  datatype Framed = Framed(bytes: seq<byte>, failed: bool, consumed: nat)

  /** readEolLine's accumulation: append each byte read, stop right after
      an LF, at an empty read, or when a read raises. `source` lists the
      outcomes of successive reads; once it is used up every further read
      returns nothing, and that read is not counted. */
  function Frame(source: seq<ReadResult>): Framed
  {
    if source == [] then Framed([], false, 0)
    else match source[0]
      case Fault => Framed([], true, 1)
      case Empty => Framed([], false, 1)
      case Data(b) =>
        if b == LF then Framed([b], false, 1)
        else
          var rest := Frame(source[1..]);
          Framed([b] + rest.bytes, rest.failed, rest.consumed + 1)
  }

  /** Every byte is ASCII. */
  predicate IsAscii(bytes: seq<byte>) {
    forall i :: 0 <= i < |bytes| ==> bytes[i] < 128
  }

  /** Every character is ASCII. */
  predicate IsAsciiText(text: string) {
    forall i :: 0 <= i < |text| ==> text[i] as int < 128
  }

  /** bytes.decode("ascii"): every byte below 128 becomes the character
      with that code; any other byte raises UnicodeDecodeError. */
  function Decode(bytes: seq<byte>): (r: LineResult)
    ensures r != SerialError
    ensures r.Line? <==> IsAscii(bytes)
    ensures r.Line? ==> |r.text| == |bytes| && forall i :: 0 <= i < |bytes| ==> r.text[i] as int == bytes[i] as int
  {
    if IsAscii(bytes) then Line(seq(|bytes|, i requires 0 <= i < |bytes| => (bytes[i] as int) as char))
    else DecodeError
  }

  /** str.encode on ASCII text: each character becomes the byte with its code. */
  function Encode(text: string): (bytes: seq<byte>)
    requires IsAsciiText(text)
    ensures |bytes| == |text| && IsAscii(bytes)
    ensures forall i :: 0 <= i < |text| ==> bytes[i] as int == text[i] as int
  {
    seq(|text|, i requires 0 <= i < |text| => text[i] as int as byte)
  }

  /** What readEolLine returns for the reads in `source`. */
  function ReadLine(source: seq<ReadResult>): LineResult {
    var f := Frame(source);
    if f.failed then SerialError else Decode(f.bytes)
  }

  /** The reads that deliver `bytes`, one byte each. */
  function AsReads(bytes: seq<byte>): (source: seq<ReadResult>)
    ensures |source| == |bytes|
    ensures forall i :: 0 <= i < |bytes| ==> source[i] == Data(bytes[i])
  {
    seq(|bytes|, i requires 0 <= i < |bytes| => Data(bytes[i]))
  }

  /** The shape of a framed line: its bytes are exactly the data reads at
      the front of `source`, an LF can only be the last byte, every read
      but possibly the last delivered a byte, and the framing stopped for
      exactly one reason: an LF, an empty read, a failing read, or the end
      of `source`. */
  lemma {:induction false} FrameShape(source: seq<ReadResult>)
    ensures var f := Frame(source);
      && |f.bytes| <= f.consumed <= |source|
      && (forall i :: 0 <= i < |f.bytes| ==> source[i] == Data(f.bytes[i]))
      && (forall i :: 0 <= i < |f.bytes| - 1 ==> f.bytes[i] != LF)
      && (f.consumed == |f.bytes| || f.consumed == |f.bytes| + 1)
      && (f.consumed == |f.bytes| + 1 ==> source[|f.bytes|] == Empty || source[|f.bytes|] == Fault)
      && (f.failed <==> f.consumed == |f.bytes| + 1 && source[|f.bytes|] == Fault)
      && (f.consumed == |f.bytes| ==> (f.bytes != [] && f.bytes[|f.bytes| - 1] == LF) || f.consumed == |source|)
    decreases |source|
  {
    if source != [] && source[0].Data? && source[0].b != LF {
      var f := Frame(source);
      var rest := Frame(source[1..]);
      FrameShape(source[1..]);
      assert f.bytes == [source[0].b] + rest.bytes;
      forall i | 0 <= i < |f.bytes|
        ensures source[i] == Data(f.bytes[i])
      {
        if i > 0 {
          assert source[i] == source[1..][i - 1];
        }
      }
    }
  }

  /** Framing is not disturbed by what follows an LF: a line of non-LF bytes
      and its LF are read back exactly, whatever the device holds next. */
  lemma {:induction false} FrameStopsAtLf(line: seq<byte>, rest: seq<ReadResult>)
    requires forall i :: 0 <= i < |line| ==> line[i] != LF
    ensures Frame(AsReads(line + [LF]) + rest) == Framed(line + [LF], false, |line| + 1)
    decreases |line|
  {
    var source := AsReads(line + [LF]) + rest;
    if line != [] {
      assert source[1..] == AsReads(line[1..] + [LF]) + rest;
      FrameStopsAtLf(line[1..], rest);
      assert [line[0]] + (line[1..] + [LF]) == line + [LF];
    } else {
      assert source[0] == Data(LF);
    }
  }

  /** The wire round trip of a toggle message: an ASCII payload without a
      newline, sent as payload + "\n", comes back from readEolLine as that
      same text. */
  lemma LineRoundTrip(payload: string, rest: seq<ReadResult>)
    requires IsAsciiText(payload) && '\n' !in payload
    ensures IsAsciiText(payload + "\n")
    ensures ReadLine(AsReads(Encode(payload + "\n")) + rest) == Line(payload + "\n")
  {
    var text := payload + "\n";
    var bytes := Encode(text);
    var line := bytes[..|payload|];
    assert bytes == line + [LF];
    forall i | 0 <= i < |line|
      ensures line[i] != LF
    {
      assert text[i] == payload[i];
    }
    FrameStopsAtLf(line, rest);
    var r := Decode(bytes);
    assert r.Line? && |r.text| == |text|;
    assert forall i :: 0 <= i < |text| ==> r.text[i] as int == text[i] as int;
    assert r.text == text;
  }

  /** SerialComm.readEolLine: read one byte at a time until an LF byte has
      been appended or a read returns nothing, then decode the bytes as
      ASCII. A failing read propagates as SerialError, a non-ASCII byte as
      DecodeError. Returns also how many reads were made. */
  method ReadEolLine(source: seq<ReadResult>) returns (r: LineResult, consumed: nat)
    ensures r == ReadLine(source)
    ensures consumed == Frame(source).consumed
  {
    var line: seq<byte> := [];
    consumed := 0;
    while consumed < |source|
      invariant consumed <= |source|
      invariant var rest := Frame(source[consumed..]);
        Frame(source) == Framed(line + rest.bytes, rest.failed, consumed + rest.consumed)
      decreases |source| - consumed
    {
      assert source[consumed..][1..] == source[consumed + 1..];
      match source[consumed]
      case Fault =>
        return SerialError, consumed + 1;
      case Empty =>
        assert Frame(source) == Framed(line + [], false, consumed + 1);
        assert line + [] == line;
        consumed := consumed + 1;
        break;
      case Data(b) =>
        var rest := Frame(source[consumed + 1..]);
        assert line + [b] + rest.bytes == line + ([b] + rest.bytes);
        line := line + [b];
        consumed := consumed + 1;
        if b == LF {
          assert line + [] == line;
          break;
        }
    }
    if consumed == |source| {
      assert source[consumed..] == [];
      assert line + [] == line;
    }
    r := Decode(line);
  }

  class SerialWorker {
    /** The pins toggled by default. */
    var pins: string

    constructor (pins: string)
      ensures this.pins == pins
    {
      this.pins := pins;
    }

    /** setPins: replace the default pins. */
    method SetPins(newPins: string)
      modifies this
      ensures pins == newPins
    {
      pins := newPins;
    }

    /** sendToggle's message: the argument when it is a non-empty string,
        otherwise the stored pins, followed by a newline. */
    method SendToggle(arg: Option<string>) returns (message: string)
      ensures |message| > 0 && message[|message| - 1] == '\n'
      ensures message[..|message| - 1] == if arg.Some? && arg.value != "" then arg.value else pins
    {
      if arg.Some? && arg.value != "" {
        message := arg.value + "\n";
      } else {
        message := pins + "\n";
      }
    }
  }

  /** What one pass through run's loop met: the `program` flag at the loop
      head, whether tryLock succeeded, and what readEolLine gives if it is
      called. */
  datatype Poll = Poll(program: bool, locked: bool, read: LineResult)

  /** The worker's signals: msg with a line, error, cleanup. */
  datatype Event = Msg(line: string) | Error | Cleanup

  /** run's progress: the local error latch, and whether the loop is over. */
  datatype Worker = Worker(error: bool, finished: bool)

  const Start: Worker := Worker(false, false)

  /** One pass: its new progress, the signals emitted, whether it read. */
  datatype Pass = Pass(next: Worker, emitted: seq<Event>, didRead: bool)

  /** One pass through run's loop: a False `program` ends the loop with
      cleanup; otherwise, with the latch clear and the lock taken, read a
      line, emit it if non-empty, and on a failed read emit error and set
      the latch. */
  function Step(w: Worker, p: Poll): Pass {
    if w.finished then Pass(w, [], false)
    else if !p.program then Pass(w.(finished := true), [Cleanup], false)
    else if w.error || !p.locked then Pass(w, [], false)
    else match p.read
      case Line(text) => Pass(w, if text == "" then [] else [Msg(text)], true)
      case _ => Pass(w.(error := true), [Error], true)
  }

  /** The final progress, the signals in order, and the number of reads. */
  datatype Trace = Trace(last: Worker, events: seq<Event>, consumed: nat)

  function RunTrace(w: Worker, polls: seq<Poll>): Trace
    decreases polls
  {
    if polls == [] then Trace(w, [], 0)
    else
      var o := Step(w, polls[0]);
      var t := RunTrace(o.next, polls[1..]);
      Trace(t.last, o.emitted + t.events, (if o.didRead then 1 else 0) + t.consumed)
  }

  /** Once the loop is over nothing more happens. */
  lemma {:induction false} FinishedIsFinal(w: Worker, polls: seq<Poll>)
    requires w.finished
    ensures RunTrace(w, polls) == Trace(w, [], 0)
    decreases polls
  {
    if polls != [] {
      FinishedIsFinal(w, polls[1..]);
    }
  }

  /** Once the error latch is set, no read happens and no error is emitted
      again; the latch stays set. */
  lemma {:induction false} ErrorLatched(w: Worker, polls: seq<Poll>)
    requires w.error
    ensures var t := RunTrace(w, polls);
      t.consumed == 0 && Error !in t.events && t.last.error
    decreases polls
  {
    if polls != [] {
      ErrorLatched(Step(w, polls[0]).next, polls[1..]);
    }
  }

  /** From the start, the error signal is emitted at most once. */
  lemma ErrorAtMostOnce(polls: seq<Poll>)
    ensures multiset(RunTrace(Start, polls).events)[Error] <= 1
  {
    ErrorBound(Start, polls);
  }

  lemma {:induction false} ErrorBound(w: Worker, polls: seq<Poll>)
    ensures multiset(RunTrace(w, polls).events)[Error] <= if w.error || w.finished then 0 else 1
    decreases polls
  {
    if polls != [] {
      var o := Step(w, polls[0]);
      ErrorBound(o.next, polls[1..]);
      if o.emitted == [Error] {
        assert o.next.error;
      }
    } else {
      assert RunTrace(w, polls).events == [];
    }
  }

  /** msg is emitted only with a non-empty line, and cleanup only as the
      very last signal, exactly when some pass met a False `program`. */
  lemma {:induction false} SignalsWellFormed(w: Worker, polls: seq<Poll>)
    requires !w.finished
    ensures var t := RunTrace(w, polls);
      && (forall e :: e in t.events && e.Msg? ==> e.line != "")
      && (forall i :: 0 <= i < |t.events| - 1 ==> t.events[i] != Cleanup)
      && (Cleanup in t.events <==> exists i :: 0 <= i < |polls| && !polls[i].program)
      && (Cleanup in t.events <==> t.last.finished)
    decreases polls
  {
    if polls != [] {
      var o := Step(w, polls[0]);
      var t := RunTrace(o.next, polls[1..]);
      if !polls[0].program {
        FinishedIsFinal(o.next, polls[1..]);
      } else {
        SignalsWellFormed(o.next, polls[1..]);
        assert Cleanup !in o.emitted;
        forall i | 0 <= i < |polls[1..]| && !polls[1..][i].program
          ensures exists j :: 0 <= j < |polls| && !polls[j].program
        {
          assert !polls[i + 1].program;
        }
        forall i | 0 <= i < |polls| && !polls[i].program
          ensures exists j :: 0 <= j < |polls[1..]| && !polls[1..][j].program
        {
          assert polls[1..][i - 1] == polls[i];
        }
      }
    }
  }

  lemma ConcatAssoc(a: seq<Event>, b: seq<Event>, c: seq<Event>)
    ensures a + (b + c) == (a + b) + c
  {
  }

  /** The trace from pass i on is that pass followed by the trace from
      pass i + 1 on. */
  lemma TraceUnfold(w: Worker, polls: seq<Poll>, i: nat)
    requires i < |polls|
    ensures var pass := Step(w, polls[i]);
      var rest := RunTrace(pass.next, polls[i + 1..]);
      && RunTrace(w, polls[i..]).events == pass.emitted + rest.events
      && RunTrace(w, polls[i..]).consumed == (if pass.didRead then 1 else 0) + rest.consumed
  {
    assert polls[i..][1..] == polls[i + 1..];
  }

  /** A pass that meets a False `program` ends the loop with cleanup alone. */
  lemma LoopExit(error: bool, polls: seq<Poll>)
    requires polls != [] && !polls[0].program
    ensures RunTrace(Worker(error, false), polls) == Trace(Worker(error, true), [Cleanup], 0)
  {
    FinishedIsFinal(Worker(error, true), polls[1..]);
  }

  /** SerialWorker.run over a sequence of passes: the loop runs while
      `program` holds, then cleanup is emitted. When every pass still has
      `program` set, the signals so far are returned. */
  method Run(polls: seq<Poll>) returns (events: seq<Event>, consumed: nat)
    ensures events == RunTrace(Start, polls).events
    ensures consumed == RunTrace(Start, polls).consumed
  {
    ghost var whole := RunTrace(Start, polls);
    var error := false;
    events := [];
    consumed := 0;
    var i := 0;
    assert polls[i..] == polls;
    while i < |polls| && polls[i].program
      invariant i <= |polls|
      invariant whole.events == events + RunTrace(Worker(error, false), polls[i..]).events
      invariant whole.consumed == consumed + RunTrace(Worker(error, false), polls[i..]).consumed
      decreases |polls| - i
    {
      ghost var pass := Step(Worker(error, false), polls[i]);
      ghost var before := events;
      ghost var consumedBefore := consumed;
      TraceUnfold(Worker(error, false), polls, i);
      if !error && polls[i].locked {
        assert pass.didRead;
        consumed := consumed + 1;
        match polls[i].read
        case Line(text) =>
          if text != "" {
            events := events + [Msg(text)];
          }
        case _ =>
          events := events + [Error];
          error := true;
      } else {
        assert pass == Pass(Worker(error, false), [], false);
      }
      assert pass.next == Worker(error, false);
      ghost var rest := RunTrace(Worker(error, false), polls[i + 1..]);
      assert events == before + pass.emitted;
      ConcatAssoc(before, pass.emitted, rest.events);
      assert consumed == consumedBefore + (if pass.didRead then 1 else 0);
      i := i + 1;
    }
    if i < |polls| {
      LoopExit(error, polls[i..]);
      events := events + [Cleanup];
    } else {
      assert polls[i..] == [];
    }
  }
}
