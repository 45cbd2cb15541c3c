/**
 The splice: two copy loops run concurrently, one per direction, over streams whose reads and
 writes may end or fail at any point.

 `source` is everything the sending side ever sends. A read returns the next bytes of it, at
 most a buffer at a time, and reports EOF only at its true end. A writer accepts some leading
 part of what it is given and reports how much; one that reports an impossible count is taken
 to have accepted nothing.
 */
module Splicing {
  import opened Options

  type Byte = bv8

  const BUFFER_SIZE: nat := 64 * 1024
  const ABORT_CODE: nat := 0x0A

  datatype Err = EOF | WrapsEOF | Fail | ShortWrite | InvalidWrite

  /** `errors.Is(err, io.EOF)`. */
  predicate IsEOF(e: Err) { e.EOF? || e.WrapsEOF? }

  datatype ReadResult = ReadResult(n: nat, err: Option<Err>)
  datatype WriteResult = WriteResult(n: int, err: Option<Err>)

  /** What the destination's type supports. */
  datatype Caps = Caps(halfCloser: bool, aborter: bool)

  /** What the destination's peer is told at the end. */
  datatype Signal = Nothing | HalfClose | Reset(code: nat)

  datatype Phase =
    | Copying                                       // about to read
    | Holding(buf: seq<Byte>, er: Option<Err>)      // about to write what was read
    | Ended(err: Option<Err>)                       // the loop is over, the destination not yet told
    | Returned(result: Option<Err>)

  datatype Dir = Dir(
    pos: nat,               // bytes read from the source
    out: seq<Byte>,         // bytes the destination accepted
    written: nat,           // the loop's own count
    phase: Phase,
    signal: Signal,
    cause: Option<Err>)     // history: the error that ended the loop

  const FRESH := Dir(0, [], 0, Copying, Nothing, None)

  // One direction

  predicate LegalRead(source: seq<Byte>, d: Dir, r: ReadResult) {
    && d.phase.Copying? && r.n <= BUFFER_SIZE && d.pos + r.n <= |source|
    && (r.err == Some(EOF) ==> d.pos + r.n == |source|)
  }

  /** The end of an iteration: a read error stops the loop, and plain EOF is no error. */
  function EndRound(d: Dir, er: Option<Err>): Dir {
    match er
    case None => d.(phase := Copying)
    case Some(e) => if e.EOF? then d.(phase := Ended(None)) else d.(phase := Ended(er), cause := er)
  }

  function DoRead(source: seq<Byte>, d: Dir, r: ReadResult): Dir
    requires LegalRead(source, d, r)
  {
    if r.n > 0 then d.(pos := d.pos + r.n, phase := Holding(source[d.pos..d.pos + r.n], r.err)) else EndRound(d, r.err)
  }

  function Accepted(nr: nat, w: WriteResult): nat {
    if 0 <= w.n <= nr then w.n else 0
  }

  function WriteError(nr: nat, w: WriteResult): Option<Err> {
    if w.err.Some? then w.err
    else if !(0 <= w.n <= nr) then Some(InvalidWrite)
    else if w.n != nr then Some(ShortWrite)
    else None
  }

  function DoWrite(d: Dir, w: WriteResult): Dir
    requires d.phase.Holding?
  {
    var buf := d.phase.buf;
    var n := Accepted(|buf|, w);
    var d' := d.(out := d.out + buf[..n], written := d.written + n);
    var ew := WriteError(|buf|, w);
    if ew.Some? then d'.(phase := Ended(ew), cause := ew) else EndRound(d', d.phase.er)
  }

  /** Tell the destination: a clean end is half-closed, anything else is reset if possible. */
  function DoShut(d: Dir, caps: Caps): Dir
    requires d.phase.Ended?
  {
    var err := d.phase.err;
    if err.None? || IsEOF(err.value) then
      d.(phase := Returned(None), signal := if caps.halfCloser then HalfClose else Nothing)
    else
      d.(phase := Returned(err),
         signal := if caps.aborter then Reset(ABORT_CODE) else if caps.halfCloser then HalfClose else Nothing)
  }

  /**
   The whole source was read to its end and accepted by the destination, and nothing failed. A
   copy whose last write accepts every byte and still reports an error does not count.
   */
  predicate Delivered(source: seq<Byte>, d: Dir) {
    d.out == source && d.pos == |source| && d.cause.None?
  }

  predicate DirOk(source: seq<Byte>, caps: Caps, d: Dir) {
    && d.out <= source && d.written == |d.out| && |d.out| <= d.pos <= |source|
    && (match d.phase
        case Copying => |d.out| == d.pos && d.cause.None? && d.signal.Nothing?
        case Holding(buf, er) =>
          && d.pos == |d.out| + |buf| && buf == source[|d.out|..d.pos] && d.cause.None? && d.signal.Nothing?
          && (er == Some(EOF) ==> d.pos == |source|)
        case Ended(err) => d.signal.Nothing? && d.cause == err && (err.None? ==> Delivered(source, d))
        case Returned(result) =>
          && (d.cause.None? ==> Delivered(source, d))
          && result == (if d.cause.Some? && IsEOF(d.cause.value) then None else d.cause)
          && d.signal == (if result.Some? && caps.aborter then Reset(ABORT_CODE)
                          else if caps.halfCloser then HalfClose else Nothing))
  }

  lemma RoundKeepsDirOk(source: seq<Byte>, caps: Caps, d: Dir, er: Option<Err>)
    requires DirOk(source, caps, d.(phase := Copying))
    requires er == Some(EOF) ==> d.pos == |source|
    ensures DirOk(source, caps, EndRound(d, er))
  {
    if er == Some(EOF) { assert d.out == source[..|source|] == source; }
  }

  lemma ReadKeepsDirOk(source: seq<Byte>, caps: Caps, d: Dir, r: ReadResult)
    requires DirOk(source, caps, d) && LegalRead(source, d, r)
    ensures DirOk(source, caps, DoRead(source, d, r))
  {
    if r.n == 0 { RoundKeepsDirOk(source, caps, d, r.err); }
  }

  lemma WriteKeepsDirOk(source: seq<Byte>, caps: Caps, d: Dir, w: WriteResult)
    requires DirOk(source, caps, d) && d.phase.Holding?
    ensures DirOk(source, caps, DoWrite(d, w))
  {
    var buf := d.phase.buf;
    var n := Accepted(|buf|, w);
    var d' := d.(out := d.out + buf[..n], written := d.written + n);
    assert d'.out == source[..|d.out| + n];
    if WriteError(|buf|, w).None? { RoundKeepsDirOk(source, caps, d', d.phase.er); }
  }

  /** What `io.CopyBuffer` makes of a write: how much to count and whether to stop. */
  method CheckWrite(nr: nat, w: WriteResult) returns (nw: nat, ew: Option<Err>)
    ensures nw == Accepted(nr, w) && ew == WriteError(nr, w)
    ensures nw == if 0 <= w.n <= nr then w.n else 0
    ensures w.err.Some? ==> ew == w.err
    ensures w.err.None? ==> ew == if w.n < 0 || w.n > nr then Some(InvalidWrite) else if w.n < nr then Some(ShortWrite) else None
  {
    ew := w.err;
    if w.n < 0 || nr < w.n {
      nw := 0;
      if ew.None? { ew := Some(InvalidWrite); }
    } else {
      nw := w.n;
    }
    if ew.None? && nr != nw { ew := Some(ShortWrite); }
  }

  /** One iteration of the loop: what the read and the write return. */
  datatype Round = Round(r: ReadResult, w: WriteResult)

  function DoRound(source: seq<Byte>, d: Dir, io: Round): Dir
    requires LegalRead(source, d, io.r)
  {
    var d' := DoRead(source, d, io.r);
    if d'.phase.Holding? then DoWrite(d', io.w) else d'
  }

  /** The rounds can happen one after the other, all but the last leaving the loop running. */
  predicate Plays(source: seq<Byte>, d: Dir, rounds: seq<Round>)
    decreases |rounds|
  {
    rounds == [] || (LegalRead(source, d, rounds[0].r) && Plays(source, DoRound(source, d, rounds[0]), rounds[1..]))
  }

  function PlayAll(source: seq<Byte>, d: Dir, rounds: seq<Round>): Dir
    requires Plays(source, d, rounds)
    decreases |rounds|
  {
    if rounds == [] then d else PlayAll(source, DoRound(source, d, rounds[0]), rounds[1..])
  }

  lemma DoRoundKeepsDirOk(source: seq<Byte>, caps: Caps, d: Dir, io: Round)
    requires DirOk(source, caps, d) && LegalRead(source, d, io.r)
    ensures DirOk(source, caps, DoRound(source, d, io))
  {
    var d' := DoRead(source, d, io.r);
    ReadKeepsDirOk(source, caps, d, io.r);
    if d'.phase.Holding? { WriteKeepsDirOk(source, caps, d', io.w); }
  }

  /** The body of the loop. */
  method CopyRound(source: seq<Byte>, pos: nat, n: nat, out: seq<Byte>, io: Round, ghost d: Dir)
    returns (pos': nat, n': nat, out': seq<Byte>, err: Option<Err>, running: bool)
    requires LegalRead(source, d, io.r) && d.pos == pos && d.out == out && d.written == n
    ensures var d' := DoRound(source, d, io);
            && d'.pos == pos' && d'.out == out' && d'.written == n'
            && d'.phase == if running then Copying else Ended(err)
  {
    var buf := source[pos..pos + io.r.n];
    pos', n', out', err, running := pos + io.r.n, n, out, None, true;
    if |buf| > 0 {
      var nw, ew := CheckWrite(|buf|, io.w);
      n' := n + nw;
      out' := out + buf[..nw];
      if ew.Some? { return pos', n', out', ew, false; }
    }
    if io.r.err.Some? {
      running := false;
      if io.r.err != Some(EOF) { err := io.r.err; }
    }
  }

  // The loop's results in terms of what its reads and writes reported

  /** What the writers reported to have taken, as far as they can have, error or not. */
  function ReportedTotal(rounds: seq<Round>): nat {
    if rounds == [] then 0
    else
      var io := rounds[|rounds| - 1];
      ReportedTotal(rounds[..|rounds| - 1]) + (if 0 <= io.w.n <= io.r.n then io.w.n else 0)
  }

  /** The error an iteration ends the loop with: the writer's own one first, then a bad count, then the reader's. */
  function ErrorOf(io: Round): Option<Err> {
    if io.r.n > 0 && io.w.err.Some? then io.w.err
    else if io.r.n > 0 && (io.w.n < 0 || io.w.n > io.r.n) then Some(InvalidWrite)
    else if io.r.n > 0 && io.w.n < io.r.n then Some(ShortWrite)
    else if io.r.err == Some(EOF) then None
    else io.r.err
  }

  lemma RoundReports(source: seq<Byte>, d: Dir, io: Round)
    requires LegalRead(source, d, io.r)
    ensures var d' := DoRound(source, d, io);
            && d'.written == d.written + (if 0 <= io.w.n <= io.r.n then io.w.n else 0)
            && (d'.phase.Ended? ==> d'.phase.err == ErrorOf(io) && (d.cause.None? ==> d'.cause == ErrorOf(io)))
  {}

  lemma {:induction false} PlaySnoc(source: seq<Byte>, d: Dir, rounds: seq<Round>, io: Round)
    requires Plays(source, d, rounds + [io])
    ensures Plays(source, d, rounds) && LegalRead(source, PlayAll(source, d, rounds), io.r)
    ensures PlayAll(source, d, rounds + [io]) == DoRound(source, PlayAll(source, d, rounds), io)
    decreases |rounds|
  {
    var all := rounds + [io];
    if rounds == [] {
      assert all[1..] == [];
    } else {
      assert all[0] == rounds[0] && all[1..] == rounds[1..] + [io];
      PlaySnoc(source, DoRound(source, d, rounds[0]), rounds[1..], io);
    }
  }

  lemma {:induction false} PlayReports(source: seq<Byte>, rounds: seq<Round>)
    requires Plays(source, FRESH, rounds)
    ensures PlayAll(source, FRESH, rounds).written == ReportedTotal(rounds)
    ensures var d := PlayAll(source, FRESH, rounds);
            && (d.phase.Copying? ==> d.cause.None?)
            && (d.phase.Ended? ==> rounds != [] && d.cause == ErrorOf(rounds[|rounds| - 1]))
  {
    if rounds != [] {
      var front, io := rounds[..|rounds| - 1], rounds[|rounds| - 1];
      assert rounds == front + [io];
      PlaySnoc(source, FRESH, front, io);
      PlayReports(source, front);
      RoundReports(source, PlayAll(source, FRESH, front), io);
    }
  }

  lemma EndedPlaysNothing(source: seq<Byte>, d: Dir, rounds: seq<Round>)
    requires Plays(source, d, rounds) && !d.phase.Copying?
    ensures rounds == []
  {}

  /**
   The copy loop, driven by what its reads and writes return; `rounds` is long enough to end it.
   The destination has received a prefix of the source, `n` counts it, and a nil error means
   the whole source or an error that passes for EOF.
   */
  method CopyOne(source: seq<Byte>, caps: Caps, rounds: seq<Round>)
    returns (n: nat, err: Option<Err>, out: seq<Byte>, signal: Signal)
    requires Plays(source, FRESH, rounds) && PlayAll(source, FRESH, rounds).phase.Ended?
    ensures n == ReportedTotal(rounds) && out <= source && n == |out|
    ensures rounds != [] && PlayAll(source, FRESH, rounds).cause == ErrorOf(rounds[|rounds| - 1])
    ensures var cause := PlayAll(source, FRESH, rounds).cause;
            && out == PlayAll(source, FRESH, rounds).out
            && err == (if cause.Some? && IsEOF(cause.value) then None else cause)
            && (cause.None? ==> out == source)
            && signal == (if err.Some? && caps.aborter then Reset(ABORT_CODE) else if caps.halfCloser then HalfClose else Nothing)
  {
    PlayReports(source, rounds);
    n, out, err := 0, [], None;
    var pos, i, running := 0, 0, true;
    ghost var d := FRESH;
    while running
      invariant 0 <= i <= |rounds| && DirOk(source, caps, d)
      invariant Plays(source, d, rounds[i..]) && PlayAll(source, d, rounds[i..]) == PlayAll(source, FRESH, rounds)
      invariant d.pos == pos && d.out == out && d.written == n
      invariant d.phase == if running then Copying else Ended(err)
      decreases running, |rounds| - i
    {
      assert i < |rounds|;
      assert rounds[i..][0] == rounds[i] && rounds[i..][1..] == rounds[i + 1..];
      DoRoundKeepsDirOk(source, caps, d, rounds[i]);
      pos, n, out, err, running := CopyRound(source, pos, n, out, rounds[i], d);
      d := DoRound(source, d, rounds[i]);
      i := i + 1;
    }
    EndedPlaysNothing(source, d, rounds[i..]);
    if err.None? || IsEOF(err.value) {
      signal := if caps.halfCloser then HalfClose else Nothing;
      err := None;
    } else {
      signal := if caps.aborter then Reset(ABORT_CODE) else if caps.halfCloser then HalfClose else Nothing;
    }
  }

  // Both directions

  datatype Side = AB | BA

  datatype Joined = Joined(total: nat, firstErr: Option<Err>)

  /** Receiving the two results: add up the counts, keep the first error. */
  function JoinOne(j: Joined, n: nat, err: Option<Err>): Joined {
    Joined(j.total + n, if j.firstErr.Some? then j.firstErr else err)
  }

  method JoinResults(results: seq<(nat, Option<Err>)>) returns (j: Joined)
    requires |results| == 2
    ensures j.total == results[0].0 + results[1].0
    ensures j.firstErr == if results[0].1.Some? then results[0].1 else results[1].1
  {
    j := Joined(0, None);
    for i := 0 to 2
      invariant i == 1 ==> j == Joined(results[0].0, results[0].1)
      invariant i == 0 ==> j == Joined(0, None)
      invariant i == 2 ==> j == JoinOne(Joined(results[0].0, results[0].1), results[1].0, results[1].1)
    {
      j := JoinOne(j, results[i].0, results[i].1);
    }
  }

  /** Streams a and b: what each side sends, and what each supports as a destination. */
  datatype Streams = Streams(a: seq<Byte>, b: seq<Byte>, capsA: Caps, capsB: Caps)

  function Source(x: Streams, side: Side): seq<Byte> { if side.AB? then x.a else x.b }
  function CapsOf(x: Streams, side: Side): Caps { if side.AB? then x.capsB else x.capsA }

  datatype State = State(ab: Dir, ba: Dir, order: seq<Side>, joined: Joined)

  function Get(s: State, side: Side): Dir { if side.AB? then s.ab else s.ba }

  function Put(s: State, side: Side, d: Dir): State { if side.AB? then s.(ab := d) else s.(ba := d) }

  datatype Action =
    | Read(side: Side, r: ReadResult)
    | Write(side: Side, w: WriteResult)
    | Shut(side: Side)
    | Receive(side: Side)

  predicate Enabled(x: Streams, s: State, a: Action) {
    match a
    case Read(side, r) => LegalRead(Source(x, side), Get(s, side), r)
    case Write(side, _) => Get(s, side).phase.Holding?
    case Shut(side) => Get(s, side).phase.Ended?
    case Receive(side) => Get(s, side).phase.Returned? && side !in s.order
  }

  function Apply(x: Streams, s: State, a: Action): State
    requires Enabled(x, s, a)
  {
    match a
    case Read(side, r) => Put(s, side, DoRead(Source(x, side), Get(s, side), r))
    case Write(side, w) => Put(s, side, DoWrite(Get(s, side), w))
    case Shut(side) => Put(s, side, DoShut(Get(s, side), CapsOf(x, side)))
    case Receive(side) =>
      s.(order := s.order + [side], joined := JoinOne(s.joined, Get(s, side).written, Get(s, side).phase.result))
  }

  const START := State(FRESH, FRESH, [], Joined(0, None))

  function Exec(x: Streams, actions: seq<Action>): Option<State> {
    if actions == [] then Some(START)
    else
      var s := Exec(x, actions[..|actions| - 1]);
      var a := actions[|actions| - 1];
      if s.Some? && Enabled(x, s.value, a) then Some(Apply(x, s.value, a)) else None
  }

  /** What the results received so far add up to. */
  predicate JoinedOk(s: State) {
    && (AB in s.order ==> s.ab.phase.Returned?) && (BA in s.order ==> s.ba.phase.Returned?)
    && (if s.order == [] then s.joined == Joined(0, None)
        else if s.order == [AB] then s.joined == Joined(s.ab.written, s.ab.phase.result)
        else if s.order == [BA] then s.joined == Joined(s.ba.written, s.ba.phase.result)
        else if s.order == [AB, BA] then
          s.joined == JoinOne(Joined(s.ab.written, s.ab.phase.result), s.ba.written, s.ba.phase.result)
        else
          && s.order == [BA, AB]
          && s.joined == JoinOne(Joined(s.ba.written, s.ba.phase.result), s.ab.written, s.ab.phase.result))
  }

  predicate Inv(x: Streams, s: State) {
    DirOk(x.a, x.capsB, s.ab) && DirOk(x.b, x.capsA, s.ba) && JoinedOk(s)
  }

  lemma ReceiveKeepsJoinedOk(x: Streams, s: State, side: Side)
    requires Inv(x, s) && Enabled(x, s, Receive(side))
    ensures JoinedOk(Apply(x, s, Receive(side)))
  {
    var other := if side.AB? then BA else AB;
    var t := Apply(x, s, Receive(side));
    if s.order == [] {
      assert t.order == [side];
    } else {
      assert s.order[0] in s.order;
      assert s.order == [other];
      assert t.order == [other, side] && t.order[0] == other && t.order[1] == side;
    }
  }

  lemma StepKeepsInv(x: Streams, s: State, a: Action)
    requires Inv(x, s) && Enabled(x, s, a)
    ensures Inv(x, Apply(x, s, a))
  {
    match a
    case Read(side, r) => ReadKeepsDirOk(Source(x, side), CapsOf(x, side), Get(s, side), r);
    case Write(side, w) => WriteKeepsDirOk(Source(x, side), CapsOf(x, side), Get(s, side), w);
    case Shut(side) =>
    case Receive(side) => ReceiveKeepsJoinedOk(x, s, side);
  }

  lemma {:induction false} RunKeepsInv(x: Streams, actions: seq<Action>)
    requires Exec(x, actions).Some?
    ensures Inv(x, Exec(x, actions).value)
  {
    if actions != [] {
      RunKeepsInv(x, actions[..|actions| - 1]);
      StepKeepsInv(x, Exec(x, actions[..|actions| - 1]).value, actions[|actions| - 1]);
    }
  }

  // What every run guarantees

  /** At every moment each side has received a prefix of what the other sent. */
  lemma {:induction false} EachSideReceivesAPrefix(x: Streams, actions: seq<Action>)
    requires Exec(x, actions).Some?
    ensures var s := Exec(x, actions).value;
            s.ab.out <= x.a && s.ba.out <= x.b
  {
    RunKeepsInv(x, actions);
  }

  /**
   For every kind of destination: it is half-closed if and only if it supports that and the
   whole source was delivered, or the error that ended the copy passes for EOF, or the
   destination cannot be reset. It is reset if and only if it supports that and an error was
   returned.
   */
  lemma {:induction false} CleanCloseIffDelivered(x: Streams, actions: seq<Action>, side: Side)
    requires Exec(x, actions).Some? && Get(Exec(x, actions).value, side).phase.Returned?
    ensures var (d, caps) := (Get(Exec(x, actions).value, side), CapsOf(x, side));
            && (d.signal == HalfClose <==>
                  && caps.halfCloser
                  && (Delivered(Source(x, side), d) || (d.cause.Some? && IsEOF(d.cause.value)) || !caps.aborter))
            && (d.signal == Reset(ABORT_CODE) <==> caps.aborter && d.phase.result.Some?)
            && (d.phase.result.None? <==> Delivered(Source(x, side), d) || (d.cause.Some? && IsEOF(d.cause.value)))
  {
    RunKeepsInv(x, actions);
  }

  /** When both results are in, the total is what both sides accepted, and nil means two clean ends. */
  lemma {:induction false} TotalCountsAcceptedBytes(x: Streams, actions: seq<Action>)
    requires Exec(x, actions).Some? && |Exec(x, actions).value.order| == 2
    ensures var s := Exec(x, actions).value;
            && s.ab.phase.Returned? && s.ba.phase.Returned?
            && s.joined.total == |s.ab.out| + |s.ba.out|
            && (s.joined.firstErr.None? <==> s.ab.phase.result.None? && s.ba.phase.result.None?)
            && s.joined.firstErr in {None, s.ab.phase.result, s.ba.phase.result}
  {
    RunKeepsInv(x, actions);
  }

  /** How much the last read of this direction returned. */
  function LastRead(actions: seq<Action>, side: Side): nat {
    if actions == [] then 0
    else
      var a := actions[|actions| - 1];
      if a.Read? && a.side == side then a.r.n else LastRead(actions[..|actions| - 1], side)
  }

  /** What the writers of this direction reported to have taken, as far as they can have, error or not. */
  function ReportedBy(actions: seq<Action>, side: Side): nat {
    if actions == [] then 0
    else
      var before, a := actions[..|actions| - 1], actions[|actions| - 1];
      ReportedBy(before, side)
      + (if a.Write? && a.side == side && 0 <= a.w.n <= LastRead(before, side) then a.w.n else 0)
  }

  lemma StepReports(x: Streams, s: State, a: Action, side: Side, last: nat)
    requires Enabled(x, s, a) && (Get(s, side).phase.Holding? ==> |Get(s, side).phase.buf| == last)
    ensures var d := Get(Apply(x, s, a), side);
            && d.written == Get(s, side).written + (if a.Write? && a.side == side && 0 <= a.w.n <= last then a.w.n else 0)
            && (d.phase.Holding? ==> |d.phase.buf| == if a.Read? && a.side == side then a.r.n else last)
  {}

  lemma {:induction false} RunReports(x: Streams, actions: seq<Action>, side: Side)
    requires Exec(x, actions).Some?
    ensures var d := Get(Exec(x, actions).value, side);
            d.written == ReportedBy(actions, side) && (d.phase.Holding? ==> |d.phase.buf| == LastRead(actions, side))
  {
    if actions != [] {
      var before := actions[..|actions| - 1];
      RunReports(x, before, side);
      StepReports(x, Exec(x, before).value, actions[|actions| - 1], side, LastRead(before, side));
    }
  }

  /**
   At every moment each side holds that much of what the other sent as the writers reported,
   and once both results are in, the total is the sum of their reports, failed writes included.
   */
  lemma {:induction false} TotalIsWhatWritersReported(x: Streams, actions: seq<Action>)
    requires Exec(x, actions).Some?
    ensures ReportedBy(actions, AB) <= |x.a| && ReportedBy(actions, BA) <= |x.b|
    ensures var s := Exec(x, actions).value;
            && s.ab.out == x.a[..ReportedBy(actions, AB)] && s.ba.out == x.b[..ReportedBy(actions, BA)]
            && (|s.order| == 2 ==> s.joined.total == ReportedBy(actions, AB) + ReportedBy(actions, BA))
  {
    RunKeepsInv(x, actions);
    RunReports(x, actions, AB);
    RunReports(x, actions, BA);
    if |Exec(x, actions).value.order| == 2 { TotalCountsAcceptedBytes(x, actions); }
  }

  /** No read wraps EOF and no write reports it. */
  predicate HonestAction(a: Action) {
    (a.Read? ==> a.r.err != Some(WrapsEOF)) && (a.Write? ==> a.w.err.None? || !IsEOF(a.w.err.value))
  }

  predicate HonestErrors(actions: seq<Action>) {
    forall a :: a in actions ==> HonestAction(a)
  }

  predicate HonestDir(d: Dir) {
    && (d.cause.Some? ==> !IsEOF(d.cause.value))
    && (d.phase.Holding? ==> d.phase.er != Some(WrapsEOF))
  }

  lemma HonestStep(x: Streams, s: State, a: Action)
    requires Enabled(x, s, a) && HonestAction(a) && HonestDir(s.ab) && HonestDir(s.ba)
    ensures HonestDir(Apply(x, s, a).ab) && HonestDir(Apply(x, s, a).ba)
  {}

  lemma {:induction false} HonestRun(x: Streams, actions: seq<Action>)
    requires Exec(x, actions).Some? && HonestErrors(actions)
    ensures var s := Exec(x, actions).value;
            HonestDir(s.ab) && HonestDir(s.ba)
  {
    if actions != [] {
      var n := |actions| - 1;
      assert actions[n] in actions && forall a :: a in actions[..n] ==> a in actions;
      HonestRun(x, actions[..n]);
      HonestStep(x, Exec(x, actions[..n]).value, actions[n]);
    }
  }

  /**
   With honest errors no result without delivery is clean: an abortable destination is reset,
   and only one that cannot be reset is half-closed short of delivery.
   */
  lemma {:induction false} HonestCleanCloseMeansDelivered(x: Streams, actions: seq<Action>, side: Side)
    requires Exec(x, actions).Some? && HonestErrors(actions) && Get(Exec(x, actions).value, side).phase.Returned?
    ensures var (d, caps) := (Get(Exec(x, actions).value, side), CapsOf(x, side));
            && (d.phase.result.None? <==> Delivered(Source(x, side), d))
            && d.signal == (if !Delivered(Source(x, side), d) && caps.aborter then Reset(ABORT_CODE)
                            else if caps.halfCloser then HalfClose else Nothing)
  {
    RunKeepsInv(x, actions);
    HonestRun(x, actions);
    CleanCloseIffDelivered(x, actions, side);
  }

  /** A writer that reports EOF gets its undelivered bytes covered by a clean half-close. */
  lemma WriterEOFLosesBytes(b: Byte)
    ensures var d := DoShut(DoWrite(DoRead([b], FRESH, ReadResult(1, None)), WriteResult(0, Some(EOF))), Caps(true, true));
            d.signal == HalfClose && d.phase == Returned(None) && d.out == [] != [b]
  {
    assert [b][0..1] == [b];
  }

  /** A destination that cannot be reset is half-closed after a plain failure. */
  lemma UnabortableHidesFailure(b: Byte)
    ensures var d := DoShut(DoWrite(DoRead([b], FRESH, ReadResult(1, None)), WriteResult(0, Some(Fail))), Caps(true, false));
            d.signal == HalfClose && d.phase == Returned(Some(Fail)) && d.out == [] != [b]
  {
    assert [b][0..1] == [b];
  }
}
