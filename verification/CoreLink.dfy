/** The Go core's end of the framed link: it resumes half-written frames and gives up a link it cannot keep in step. */
module CoreLink {
  import opened Options
  import opened Frames
  import Sequences

  datatype GoError = Timeout | HardError | ShortWrite | TooLarge

  /** The outcome of one write of the connection: how much it takes, and its error. */
  datatype Outcome = Outcome(n: nat, error: Option<GoError>)

  // ---- What the outcomes and the deadlines make of a write

  /** The bytes that these outcomes take. */
  function Total(script: seq<Outcome>): nat {
    if script == [] then 0 else Total(script[..|script| - 1]) + script[|script| - 1].n
  }

  /** The timeouts among them, each of which asks for a deadline. */
  function Timeouts(script: seq<Outcome>): nat {
    if script == [] then 0
    else Timeouts(script[..|script| - 1]) + if script[|script| - 1].error == Some(Timeout) then 1 else 0
  }

  /** Some byte has been taken since the last outcome without an error. */
  predicate Progressed(script: seq<Outcome>, already: bool) {
    if script == [] then already
    else
      var last := script[|script| - 1];
      last.error.Some? && (last.n > 0 || Progressed(script[..|script| - 1], already))
  }

  predicate Granted(deadlines: seq<bool>, k: nat) {
    k < |deadlines| && deadlines[k]
  }

  /** A write under way: what is left of it, and whether any byte of the frame, or of this call, has been taken. */
  datatype Writing = Writing(script: seq<Outcome>, deadlines: seq<bool>, started: bool, already: bool, need: nat)

  /** After outcome `k`, which leaves something to write, the write goes on: progress, or a stall that is waited out. */
  predicate GoesOn(w: Writing, k: nat)
    requires k < |w.script|
  {
    match w.script[k].error
    case None => Progressed(w.script[..k], w.already) || w.script[k].n > 0
    case Some(error) =>
      error == Timeout && (w.started || Total(w.script[..k + 1]) > 0) && Granted(w.deadlines, Timeouts(w.script[..k]))
  }

  /** The first `k` outcomes leave something to write, and the write goes on after each of them. */
  predicate Lasts(w: Writing, k: nat)
    requires k <= |w.script|
  {
    && (w.need > 0 ==> Total(w.script[..k]) < w.need)
    && forall i | 0 <= i < k :: GoesOn(w, i)
  }

  /** Outcome `k` completes the write, and it is not an error. */
  ghost predicate Completes(w: Writing, k: nat) {
    && k < |w.script| && Lasts(w, k)
    && Total(w.script[..k + 1]) >= w.need && w.script[k].error.None?
  }

  /** Outcome `k` ends the write: an error at the last byte, or one after which the write does not go on. */
  ghost predicate Breaks(w: Writing, k: nat) {
    && k <= |w.script| && Lasts(w, k)
    && (k < |w.script| ==> if Total(w.script[..k + 1]) >= w.need then w.script[k].error.Some? else !GoesOn(w, k))
  }

  /** What a write comes to: the bytes taken, its error, and what is left for the next one. */
  datatype Progress = Progress(taken: nat, error: Option<GoError>, script: seq<Outcome>, deadlines: seq<bool>)

  function TakenFirst(w: Writing): nat
    requires w.script != []
  {
    if w.script[0].n <= w.need then w.script[0].n else w.need
  }

  function DeadlinesLeft(deadlines: seq<bool>): seq<bool> {
    if deadlines == [] then [] else deadlines[1..]
  }

  /** The write after its first outcome. */
  function Onward(w: Writing): Writing
    requires w.script != []
  {
    var n, failed := TakenFirst(w), w.script[0].error.Some?;
    Writing(w.script[1..], if failed then DeadlinesLeft(w.deadlines) else w.deadlines,
          w.started || n > 0, failed && (w.already || n > 0), w.need - n)
  }

  /** A stall after the first byte asks for a deadline, even if it is refused. */
  predicate Asks(w: Writing)
    requires w.script != []
  {
    w.script[0].error == Some(Timeout) && (w.started || w.script[0].n > 0) && w.script[0].n < w.need
  }

  /** What a write comes to, outcome by outcome. */
  function Part(w: Writing): Progress
    decreases |w.script|
  {
    if w.need == 0 then Progress(0, None, w.script, w.deadlines)
    else if w.script == [] then Progress(0, Some(HardError), [], w.deadlines)
    else if w.script[0].n < w.need && GoesOn(w, 0) then
      var rest := Part(Onward(w));
      rest.(taken := w.script[0].n + rest.taken)
    else
      var error := if w.script[0].error.None? && w.script[0].n < w.need then Some(ShortWrite) else w.script[0].error;
      Progress(TakenFirst(w), error, w.script[1..], if Asks(w) then DeadlinesLeft(w.deadlines) else w.deadlines)
  }

  /** The two writes of a frame: its header and, once that is through, its payload. */
  function FramePart(script: seq<Outcome>, deadlines: seq<bool>, len: nat): Progress {
    var header := Part(Writing(script, deadlines, false, false, HEADER_SIZE));
    if header.error.Some? then header
    else
      var payload := Part(Writing(header.script, header.deadlines, true, false, len));
      payload.(taken := HEADER_SIZE + payload.taken)
  }

  lemma {:induction false} CountFront(script: seq<Outcome>)
    requires script != []
    ensures Total(script) == script[0].n + Total(script[1..])
    ensures Timeouts(script) == (if script[0].error == Some(Timeout) then 1 else 0) + Timeouts(script[1..])
    ensures forall already ::
              Progressed(script, already) <==>
                  Progressed(script[1..], script[0].error.Some? && (script[0].n > 0 || already))
  {
    if |script| == 1 {
      assert script[..0] == [] && script[1..] == [];
    } else {
      var before := script[..|script| - 1];
      CountFront(before);
      assert before[1..] == script[1..][..|script| - 2];
    }
  }

  /** What outcome `k + 1` does to a write is what outcome `k` does to the rest of it. */
  lemma OnwardGoesOn(w: Writing, k: nat)
    requires k + 1 < |w.script| && w.script[0].n < w.need && GoesOn(w, 0)
    ensures GoesOn(w, k + 1) <==> GoesOn(Onward(w), k)
    ensures Total(w.script[..k + 1]) == w.script[0].n + Total(Onward(w).script[..k])
    ensures Total(w.script[..k + 2]) == w.script[0].n + Total(Onward(w).script[..k + 1])
  {
    var rest := w.script[1..];
    CountFront(w.script[..k + 1]);
    CountFront(w.script[..k + 2]);
    assert w.script[..k + 1][1..] == rest[..k] && w.script[..k + 2][1..] == rest[..k + 1];
    assert w.script[..1] == [w.script[0]] && w.script[..1][..0] == [] == w.script[..0];
  }

  lemma OnwardLasts(w: Writing, k: nat)
    requires k < |w.script| && w.script[0].n < w.need && GoesOn(w, 0)
    ensures Lasts(w, k + 1) <==> Lasts(Onward(w), k)
  {
    assert w.script[..1] == [w.script[0]] && w.script[..1][..0] == [];
    if k > 0 {
      OnwardGoesOn(w, k - 1);
    }
    assert Onward(w).script[..0] == [];
    forall i | 0 <= i < k ensures GoesOn(w, i + 1) <==> GoesOn(Onward(w), i) {
      OnwardGoesOn(w, i);
    }
    if Lasts(Onward(w), k) {
      forall i | 0 <= i < k + 1 ensures GoesOn(w, i) {
        assert i > 0 ==> GoesOn(Onward(w), i - 1);
      }
    }
    if Lasts(w, k + 1) {
      forall i | 0 <= i < k ensures GoesOn(Onward(w), i) {
        assert GoesOn(w, i + 1);
      }
    }
  }

  /** The deadlines after the first `k`. */
  function DeadlinesFrom(deadlines: seq<bool>, k: nat): seq<bool> {
    if k <= |deadlines| then deadlines[k..] else []
  }

  /** The bytes taken by a write that is broken off at outcome `k`, or for which none is left. */
  function TakenAt(w: Writing, k: nat): nat
    requires k <= |w.script|
  {
    var total := Total(if k < |w.script| then w.script[..k + 1] else w.script);
    if k < |w.script| && total > w.need then w.need else total
  }

  function ErrorAt(w: Writing, k: nat): Option<GoError>
    requires k <= |w.script|
  {
    if k == |w.script| then Some(HardError)
    else if w.script[k].error.None? then Some(ShortWrite)
    else w.script[k].error
  }

  /** What is left when outcome `k` completes the write. */
  function LeftAt(w: Writing, k: nat): Progress
    requires k < |w.script|
  {
    Progress(w.need, None, w.script[k + 1..], DeadlinesFrom(w.deadlines, Timeouts(w.script[..k])))
  }

  /** What a write comes to that ends with outcome `k`. */
  ghost predicate EndsAt(w: Writing, k: nat, p: Progress) {
    if p.error.None? then Completes(w, k) && p == LeftAt(w, k)
    else Breaks(w, k) && p.taken == TakenAt(w, k) && p.error == ErrorAt(w, k)
  }

  /** Where a write ends: at the outcome that completes it without an error, or that breaks it off. */
  lemma {:induction false} PartEndsAt(w: Writing) returns (k: nat)
    requires w.need > 0
    ensures EndsAt(w, k, Part(w))
    decreases |w.script|
  {
    if w.script != [] && w.script[0].n < w.need && GoesOn(w, 0) {
      var j := PartEndsAt(Onward(w));
      PartOnward(w, j);
      k := j + 1;
    } else {
      k := 0;
      assert w.script[..0] == [];
      if w.script != [] {
        assert w.script[..1] == [w.script[0]] && w.script[..1][..0] == [];
      }
    }
  }

  lemma OnwardEnds(w: Writing, j: nat)
    requires w.script != [] && 0 < w.need && w.script[0].n < w.need && GoesOn(w, 0)
    ensures Completes(w, j + 1) <==> Completes(Onward(w), j)
    ensures Breaks(w, j + 1) <==> Breaks(Onward(w), j)
  {
    if j < |w.script| {
      OnwardLasts(w, j);
    }
    if j < |Onward(w).script| {
      OnwardGoesOn(w, j);
    }
    hide GoesOn, Lasts, Progressed, Total, Timeouts;
  }

  lemma PartOnward(w: Writing, j: nat)
    requires w.script != [] && 0 < w.need && w.script[0].n < w.need && GoesOn(w, 0)
    requires EndsAt(Onward(w), j, Part(Onward(w)))
    ensures EndsAt(w, j + 1, Part(w))
  {
    OnwardEnds(w, j);
    assert Part(w) == Part(Onward(w)).(taken := w.script[0].n + Part(Onward(w)).taken);
    assert j <= |Onward(w).script|;
    hide GoesOn, Lasts, Progressed, Part, Completes, Breaks, Onward, Total, Timeouts, DeadlinesFrom;
    if j < |Onward(w).script| && Part(Onward(w)).error.None? {
      LeftOnward(w, j);
    } else {
      TakenOnward(w, j);
    }
    hide TakenAt, ErrorAt, LeftAt;
  }

  lemma TakenOnward(w: Writing, j: nat)
    requires w.script != [] && w.script[0].n < w.need && j < |w.script|
    ensures TakenAt(w, j + 1) == w.script[0].n + TakenAt(Onward(w), j)
    ensures ErrorAt(w, j + 1) == ErrorAt(Onward(w), j)
  {
    if j + 1 < |w.script| {
      OnwardTotals(w, j);
    } else {
      CountFront(w.script);
    }
    hide Total;
  }

  lemma LeftOnward(w: Writing, j: nat)
    requires w.script != [] && w.script[0].n < w.need && GoesOn(w, 0) && j + 1 < |w.script|
    ensures LeftAt(w, j + 1) == LeftAt(Onward(w), j).(taken := w.need)
  {
    var rest := w.script[1..];
    assert w.script[..j + 1][1..] == rest[..j] && rest[j + 1..] == w.script[j + 2..];
    CountFront(w.script[..j + 1]);
    DeadlinesFromNext(w.deadlines, Timeouts(rest[..j]));
    hide Timeouts, DeadlinesFrom;
  }

  lemma OnwardTotals(w: Writing, j: nat)
    requires j + 1 < |w.script|
    ensures Total(w.script[..j + 2]) == w.script[0].n + Total(w.script[1..][..j + 1])
  {
    CountFront(w.script[..j + 2]);
    assert w.script[..j + 2][1..] == w.script[1..][..j + 1];
  }

  lemma DeadlinesFromNext(deadlines: seq<bool>, k: nat)
    ensures DeadlinesFrom(DeadlinesLeft(deadlines), k) == DeadlinesFrom(deadlines, k + 1)
  {
  }

  lemma {:induction false} TotalGrows(script: seq<Outcome>, j: nat, k: nat)
    requires j <= k <= |script|
    ensures Total(script[..j]) <= Total(script[..k])
  {
    if j < k {
      TotalGrows(script, j, k - 1);
      assert script[..k][..k - 1] == script[..k - 1];
    }
  }

  /** A write that completes is not broken off anywhere. */
  lemma CompletesOrBreaks(w: Writing, j: nat, k: nat)
    requires w.need > 0 && Completes(w, j)
    ensures !Breaks(w, k)
  {
    if j < k <= |w.script| {
      TotalGrows(w.script, j + 1, k);
    } else if k < j {
      TotalGrows(w.script, k + 1, j);
    }
  }

  /** The payload's write, once outcome `j` has completed the header. */
  function PayloadAfter(script: seq<Outcome>, deadlines: seq<bool>, len: nat, j: nat): Writing
    requires j < |script|
  {
    Writing(script[j + 1..], DeadlinesFrom(deadlines, Timeouts(script[..j])), true, false, len)
  }

  /** Outcome `j` completes the header, and some later one the payload, if there is any. */
  ghost predicate GoesThrough(script: seq<Outcome>, deadlines: seq<bool>, len: nat, j: nat) {
    && Completes(Writing(script, deadlines, false, false, HEADER_SIZE), j)
    && (len == 0 || exists k :: Completes(PayloadAfter(script, deadlines, len, j), k))
  }

  /** The header is broken off, or the payload after the header has been completed. */
  ghost predicate IsBroken(script: seq<Outcome>, deadlines: seq<bool>, len: nat, k: nat) {
    || Breaks(Writing(script, deadlines, false, false, HEADER_SIZE), k)
    || exists j :: Completes(Writing(script, deadlines, false, false, HEADER_SIZE), j)
                   && Breaks(PayloadAfter(script, deadlines, len, j), k)
  }

  /**
   A frame goes through exactly if outcomes without an error complete its header and its payload, and after every other
   one the write goes on: some byte is taken, or a timeout comes after the first byte and its new deadline is granted.
   Otherwise it is broken off at the first outcome of which that is not so.
   */
  lemma FrameGoesThrough(script: seq<Outcome>, deadlines: seq<bool>, len: nat)
    ensures FramePart(script, deadlines, len).error.None? <==> exists j :: GoesThrough(script, deadlines, len, j)
    ensures FramePart(script, deadlines, len).error.Some? ==> exists k :: IsBroken(script, deadlines, len, k)
  {
    hide Part, Completes, Breaks, Lasts;
    var header := Writing(script, deadlines, false, false, HEADER_SIZE);
    var h := PartEndsAt(header);
    if Part(header).error.Some? {
      assert IsBroken(script, deadlines, len, h);
      forall j ensures !GoesThrough(script, deadlines, len, j) {
        if Completes(header, j) {
          CompletesOrBreaks(header, j, h);
        }
      }
    } else {
      PayloadGoesThrough(script, deadlines, len, h);
    }
  }

  lemma CompletesOnce(w: Writing, j: nat, k: nat)
    requires w.need > 0 && Completes(w, j) && Completes(w, k)
    ensures j == k
  {
    if j < k {
      TotalGrows(w.script, j + 1, k);
    } else if k < j {
      TotalGrows(w.script, k + 1, j);
    }
  }

  lemma PayloadGoesThrough(script: seq<Outcome>, deadlines: seq<bool>, len: nat, h: nat)
    requires var header := Writing(script, deadlines, false, false, HEADER_SIZE);
             EndsAt(header, h, Part(header)) && Part(header).error.None?
    ensures FramePart(script, deadlines, len).error.None? <==> exists j :: GoesThrough(script, deadlines, len, j)
    ensures FramePart(script, deadlines, len).error.Some? ==> exists k :: IsBroken(script, deadlines, len, k)
  {
    var header := Writing(script, deadlines, false, false, HEADER_SIZE);
    var payload := PayloadAfter(script, deadlines, len, h);
    assert FramePart(script, deadlines, len).error == Part(payload).error;
    hide Completes, Breaks, Lasts;
    if len == 0 {
      assert GoesThrough(script, deadlines, len, h);
    } else {
      var k := PartEndsAt(payload);
      if Part(payload).error.None? {
        assert GoesThrough(script, deadlines, len, h);
      } else {
        assert IsBroken(script, deadlines, len, k);
        forall j ensures !GoesThrough(script, deadlines, len, j) {
          if Completes(header, j) {
            CompletesOnce(header, h, j);
            if i :| Completes(payload, i) {
              CompletesOrBreaks(payload, i, k);
            }
          }
        }
      }
    }
  }

  class IpcConn {
    var script: seq<Outcome>
    var deadlines: seq<bool>
    var wire: Bytes
    var open: bool

    constructor (script: seq<Outcome>, deadlines: seq<bool>)
      ensures this.script == script && this.deadlines == deadlines && wire == [] && open
    {
      this.script, this.deadlines := script, deadlines;
      wire, open := [], true;
    }

    /** A connection that is open takes what the next outcome says, and reports its error. */
    method Write(data: Bytes) returns (n: nat, error: Option<GoError>)
      modifies this`script, this`wire
      ensures n <= |data| && wire == old(wire) + data[..n]
      ensures |script| < |old(script)| || (n == 0 && error == Some(HardError) && script == old(script))
      ensures if open && old(script) != [] then
                && script == old(script)[1..] && error == old(script)[0].error
                && n == (if old(script)[0].n <= |data| then old(script)[0].n else |data|)
              else n == 0 && error == Some(HardError) && script == old(script)
    {
      if !open || script == [] {
        return 0, Some(HardError);
      }
      n, error := script[0].n, script[0].error;
      if n > |data| {
        n := |data|;
      }
      script := script[1..];
      wire := wire + data[..n];
    }

    method SetWriteDeadline() returns (ok: bool)
      modifies this`deadlines
      ensures ok <==> Granted(old(deadlines), 0)
      ensures deadlines == DeadlinesLeft(old(deadlines))
    {
      ok := deadlines != [] && deadlines[0];
      if deadlines != [] {
        deadlines := deadlines[1..];
      }
    }

    method Close()
      modifies this`open
      ensures !open
    {
      open := false;
    }
  }

  /** Waits out a stall in the middle of a frame, but not before its first byte. */
  class ResumingWriter {
    const conn: IpcConn
    var written: nat

    constructor (conn: IpcConn)
      ensures this.conn == conn && written == 0
    {
      this.conn := conn;
      written := 0;
    }

    /** A stall is waited out exactly if some byte of the frame has been taken and another deadline is granted. */
    method Resume(error: GoError) returns (again: bool)
      modifies conn`deadlines
      ensures again <==> written > 0 && error == Timeout && Granted(old(conn.deadlines), 0)
      ensures conn.deadlines ==
                if written > 0 && error == Timeout then DeadlinesLeft(old(conn.deadlines)) else old(conn.deadlines)
    {
      if written == 0 || error != Timeout {
        return false;
      }
      again := conn.SetWriteDeadline();
    }

    /** The write that is to be done now, when `already` tells whether this call has taken a byte of it. */
    ghost function Now(already: bool, need: nat): Writing
      reads this, conn
    {
      Writing(conn.script, conn.deadlines, written > 0, already, need)
    }

    /** What the connection takes is a prefix of `data`, without gap or repetition, and all of it is counted. */
    method Write(data: Bytes) returns (accepted: nat, error: Option<GoError>)
      requires conn.open && data != []
      modifies this, conn`script, conn`wire, conn`deadlines
      ensures accepted <= |data| && conn.wire == old(conn.wire) + data[..accepted]
      ensures written == old(written) + accepted
      ensures |conn.script| < |old(conn.script)| || (accepted == 0 && error.Some?)
      ensures error.Some? ==>
                old(Part(Now(false, |data|))) == Progress(accepted, error, conn.script, conn.deadlines)
      ensures error.None? && accepted == 0 ==>
                old(Part(Now(false, |data|))) == Progress(0, Some(ShortWrite), conn.script, conn.deadlines)
      ensures error.None? && accepted > 0 ==>
                var rest := Part(Now(false, |data| - accepted));
                old(Part(Now(false, |data|))) == rest.(taken := accepted + rest.taken)
    {
      hide Part, GoesOn, Total, Timeouts, Progressed, Onward, Asks;
      accepted := 0;
      ghost var whole := Part(Now(false, |data|));
      while true
        invariant accepted <= |data| && conn.wire == old(conn.wire) + data[..accepted]
        invariant written == old(written) + accepted
        invariant |conn.script| < |old(conn.script)| || (accepted == 0 && conn.script == old(conn.script))
        invariant accepted < |data|
        invariant var rest := Part(Now(accepted > 0, |data| - accepted)); whole == rest.(taken := accepted + rest.taken)
        decreases |conn.script|
      {
        ghost var now := Now(accepted > 0, |data| - accepted);
        PartStep(now);
        var n, e := conn.Write(data[accepted..]);
        Sequences.TakeMore(data, accepted, n);
        accepted, written := accepted + n, written + n;
        if e.None? {
          PartNone(Now(false, 0));
          return accepted, None;
        }
        var again := false;
        if accepted < |data| {
          again := Resume(e.value);
        }
        if !again {
          return accepted, e;
        }
      }
    }
  }

  /** The first outcome of a write, spelt out. */
  lemma PartStep(w: Writing)
    requires w.need > 0
    ensures w.script == [] ==> Part(w) == Progress(0, Some(HardError), [], w.deadlines)
    ensures w.script != [] ==>
              var o, n := w.script[0], TakenFirst(w);
              var waits := o.error == Some(Timeout) && (w.started || n > 0);
              && (o.error.None? && n == w.need ==> Part(w) == Progress(n, None, w.script[1..], w.deadlines))
              && (o.error.None? && n < w.need && (n > 0 || w.already) ==>
                    var rest := Part(Writing(w.script[1..], w.deadlines, w.started || n > 0, false, w.need - n));
                    Part(w) == rest.(taken := n + rest.taken))
              && (o.error.None? && n == 0 && !w.already ==>
                    Part(w) == Progress(0, Some(ShortWrite), w.script[1..], w.deadlines))
              && (n < w.need && waits && Granted(w.deadlines, 0) ==>
                    var more := w.already || n > 0;
                    var rest := Part(Writing(w.script[1..], DeadlinesLeft(w.deadlines), true, more, w.need - n));
                    Part(w) == rest.(taken := n + rest.taken))
              && (o.error.Some? && n < w.need && waits && !Granted(w.deadlines, 0) ==>
                    Part(w) == Progress(n, o.error, w.script[1..], DeadlinesLeft(w.deadlines)))
              && (o.error.Some? && (n == w.need || !waits) ==>
                    Part(w) == Progress(n, o.error, w.script[1..], w.deadlines))
  {
    if w.script != [] {
      assert w.script[..0] == [] && w.script[..1] == [w.script[0]] && w.script[..1][..0] == [];
      assert Total(w.script[..1]) == w.script[0].n && Timeouts(w.script[..0]) == 0;
    }
  }

  lemma PartNone(w: Writing)
    requires w.need == 0
    ensures Part(w) == Progress(0, None, w.script, w.deadlines)
  {
  }

  method WriteAll(w: ResumingWriter, data: Bytes) returns (written: nat, error: Option<GoError>)
    requires w.conn.open
    modifies w, w.conn`script, w.conn`wire, w.conn`deadlines
    ensures written <= |data| && w.conn.wire == old(w.conn.wire) + data[..written]
    ensures w.written == old(w.written) + written
    ensures error.None? ==> written == |data|
    ensures old(Part(w.Now(false, |data|))) == Progress(written, error, w.conn.script, w.conn.deadlines)
  {
    hide Part, GoesOn, Total, Timeouts, Progressed, Onward, Asks;
    written := 0;
    var rest := data;
    PartNone(w.Now(false, 0));
    ghost var whole := Part(w.Now(false, |data|));
    while rest != []
      invariant written <= |data| && rest == data[written..]
      invariant w.conn.wire == old(w.conn.wire) + data[..written]
      invariant w.written == old(w.written) + written
      invariant var more := Part(w.Now(false, |rest|)); whole == more.(taken := written + more.taken)
      decreases |w.conn.script|
    {
      var n, e := w.Write(rest);
      assert data[..written] + data[written..][..n] == data[..written + n];
      written := written + n;
      if e.Some? {
        return written, e;
      }
      if n == 0 {
        return written, Some(ShortWrite);
      }
      rest := rest[n..];
    }
    PartNone(w.Now(false, 0));
    return written, None;
  }

  method WriteFrame(w: ResumingWriter, data: Bytes) returns (written: nat, error: Option<GoError>)
    requires w.conn.open && w.written == 0
    modifies w, w.conn`script, w.conn`wire, w.conn`deadlines
    ensures |data| > MAX_FRAME_SIZE ==> written == 0 && error == Some(TooLarge) && w.conn.wire == old(w.conn.wire)
    ensures |data| <= MAX_FRAME_SIZE ==>
              old(FramePart(w.conn.script, w.conn.deadlines, |data|)) ==
              Progress(written, error, w.conn.script, w.conn.deadlines)
    ensures |data| <= MAX_FRAME_SIZE ==>
              && written <= |Encode(data)| && w.conn.wire == old(w.conn.wire) + Encode(data)[..written]
              && (error.None? ==> written == |Encode(data)|)
  {
    if |data| > MAX_FRAME_SIZE {
      return 0, Some(TooLarge);
    }
    var header := LittleEndian(|data|);
    written, error := WriteAll(w, header);
    assert header[..written] == Encode(data)[..written];
    if error.Some? {
      return;
    }
    var n, e := WriteAll(w, data);
    assert header + data[..n] == Encode(data)[..HEADER_SIZE + n];
    written, error := written + n, e;
  }

  /** What a wire of whole frames becomes with the first bytes of another one. */
  lemma PartialFrame(frames: seq<Message>, data: Message, written: nat)
    requires written <= |Encode(data)|
    ensures var wire := EncodeAll(frames) + Encode(data)[..written];
            && wire <= EncodeAll(frames + [data])
            && (written > 0 ==> EncodeAll(frames) < wire)
            && (written == |Encode(data)| ==> wire == EncodeAll(frames + [data]))
            && (written == 0 ==> wire == EncodeAll(frames))
  {
    hide Encode, EncodeAll;
    EncodeAllAppend(frames, data);
    assert Encode(data) == Encode(data)[..written] + Encode(data)[written..];
  }

  /** How a call of `send` ends. */
  datatype Sending = NoConnection | Added | Dropped | Closed

  class Link {
    var conn: IpcConn?
    var deliveryFailureReported: bool
    var reports: nat
    /** The frames that the current connection carries. */
    ghost var frames: seq<Message>

    /** The wire of an open connection is a concatenation of whole frames. */
    ghost predicate Valid()
      reads this, conn
    {
      conn != null ==> conn.open && conn.wire == EncodeAll(frames)
    }

    constructor (dialed: IpcConn)
      requires dialed.open && dialed.wire == []
      ensures Valid() && conn == dialed && frames == [] && !deliveryFailureReported
    {
      conn, deliveryFailureReported, reports, frames := dialed, false, 0, [];
    }

    method LogDeliveryError()
      modifies this`deliveryFailureReported, this`reports
      ensures deliveryFailureReported && reports == old(reports) + if old(deliveryFailureReported) then 0 else 1
    {
      if !deliveryFailureReported {
        reports := reports + 1;
      }
      deliveryFailureReported := true;
    }

    /**
     Every call adds nothing, adds exactly one whole frame, or closes the connection; it reports trouble at most
     once until a frame gets through again.
     */
    method Send(data: Bytes) returns (sending: Sending)
      requires Valid()
      modifies this, conn
      ensures Valid()
      ensures sending.NoConnection? <==> old(conn) == null
      ensures old(conn) != null ==>
                var p := old(FramePart(conn.script, DeadlinesLeft(conn.deadlines), |data|));
                && (sending.Added? <==> |data| <= MAX_FRAME_SIZE && p.error.None?)
                && (sending.Closed? <==> |data| <= MAX_FRAME_SIZE && p.error.Some? && p.taken > 0)
                && (|data| <= MAX_FRAME_SIZE ==>
                      p.taken <= |Encode(data)| && old(conn).wire == old(conn.wire) + Encode(data)[..p.taken])
      ensures sending.NoConnection? || sending.Dropped? ==> conn == old(conn) && frames == old(frames)
      ensures sending.Added? ==> |data| <= MAX_FRAME_SIZE && conn == old(conn) && frames == old(frames) + [data]
      ensures sending.Closed? ==>
                && |data| <= MAX_FRAME_SIZE && conn == null && !old(conn).open && frames == old(frames)
                && EncodeAll(frames) < old(conn).wire <= EncodeAll(frames + [data])
      ensures |data| > MAX_FRAME_SIZE ==> sending.NoConnection? || sending.Dropped?
      ensures deliveryFailureReported <==> !sending.Added?
      ensures reports == old(reports) +
                         if old(deliveryFailureReported)
                             || (sending.Added? && old(Granted(conn.deadlines, 0))) then 0 else 1
    {
      hide FramePart, Part, Encode, EncodeAll;
      var c := conn;
      if c == null {
        LogDeliveryError();
        return NoConnection;
      }
      var ok := c.SetWriteDeadline();
      if !ok {
        LogDeliveryError();
      }
      var w := new ResumingWriter(c);
      var written, error := WriteFrame(w, data);
      if |data| <= MAX_FRAME_SIZE {
        PartialFrame(frames, data, written);
      }
      if error.None? {
        deliveryFailureReported := false;
        frames := frames + [data];
        return Added;
      }
      LogDeliveryError();
      if written == 0 {
        assert c.wire == old(c.wire);
        return Dropped;
      }
      if conn == c {
        conn := null;
      }
      c.Close();
      return Closed;
    }

    /**
     Any run of sends. What the host can read off the connection is exactly the frames of the calls that went
     through, in their order, and after a close at most the one frame that was being written then.
     */
    method SendAll(messages: seq<Bytes>) returns (sendings: seq<Sending>)
      requires Valid() && conn != null && frames == []
      modifies this, conn
      ensures |sendings| == |messages|
      ensures forall i | 0 <= i < |messages| :: sendings[i].Added? ==> |messages[i]| <= MAX_FRAME_SIZE
      ensures frames == Through(messages, sendings)
      ensures conn != null ==> Parse(old(conn).wire) == Parsed(frames, [])
      ensures conn == null ==> frames <= Parse(old(conn).wire).frames && |Parse(old(conn).wire).frames| <= |frames| + 1
    {
      hide FramePart, Part, Encode, Parse, EncodeAll;
      var c := conn;
      sendings := [];
      ghost var last: Message := [];
      for i := 0 to |messages|
        invariant Valid() && (conn == c || conn == null)
        invariant |sendings| == i
        invariant forall k | 0 <= k < i :: sendings[k].Added? ==> |messages[k]| <= MAX_FRAME_SIZE
        invariant frames == Through(messages[..i], sendings)
        invariant conn == null ==> EncodeAll(frames) <= c.wire <= EncodeAll(frames + [last])
      {
        var sending := Send(messages[i]);
        if sending.Closed? {
          last := messages[i];
        }
        assert messages[..i + 1][..i] == messages[..i] && (sendings + [sending])[..i] == sendings;
        sendings := sendings + [sending];
      }
      assert messages[..|messages|] == messages;
      WireReads(c.wire, frames, last);
    }
  }

  /** The messages of the calls that added their frame. */
  ghost function Through(messages: seq<Bytes>, sendings: seq<Sending>): seq<Message>
    requires |messages| == |sendings|
    requires forall i | 0 <= i < |messages| :: sendings[i].Added? ==> |messages[i]| <= MAX_FRAME_SIZE
  {
    if messages == [] then []
    else
      var last := |messages| - 1;
      Through(messages[..last], sendings[..last]) + (if sendings[last].Added? then [messages[last]] else [])
  }

  lemma WireReads(wire: Bytes, frames: seq<Message>, last: Message)
    ensures wire == EncodeAll(frames) ==> Parse(wire) == Parsed(frames, [])
    ensures EncodeAll(frames) <= wire <= EncodeAll(frames + [last]) ==>
              frames <= Parse(wire).frames && |Parse(wire).frames| <= |frames| + 1
  {
    hide Parse, EncodeAll;
    if EncodeAll(frames) <= wire {
      var more := wire[|EncodeAll(frames)|..];
      assert wire == EncodeAll(frames) + more;
      ParseEncodeAll(frames, more);
      if wire == EncodeAll(frames) {
        ParseUnique(frames, []);
        assert EncodeAll(frames) + [] == EncodeAll(frames);
      }
      if wire <= EncodeAll(frames + [last]) {
        CutReadsPrefix(wire, frames + [last]);
      }
    }
  }
}
