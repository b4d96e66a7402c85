/**
 The shared output limit of internal/shell/shell.go:93-99 when the writes of the two streams
 overlap: one copying goroutine per stream, no lock, and `written += len(p)` and the test
 after it are a load, a store and another load.  Memory is sequentially consistent here.  A
 goroutine that gives up after a rejected write is one that a schedule picks no more.
 */
module OutputRaces {
  import opened OutputLimit

  // Where a Write stands: it has loaded the counter, or stored the sum and not tested it yet.
  datatype Pc = Idle | Loaded(seen: nat) | Stored

  // The sizes still to write, the first one being written unless idle; the bytes charged and
  // the bytes accepted by finished writes, and the number of writes rejected.
  datatype Writer = Writer(todo: seq<nat>, pc: Pc, charged: nat, accepted: nat, rejections: nat) {
    predicate Valid() {
      pc != Idle ==> todo != []
    }
  }

  datatype State = State(written: nat, out: Writer, err: Writer) {
    predicate Valid() {
      out.Valid() && err.Valid()
    }

    function Of(stream: Stream): Writer {
      if stream.Stdout? then out else err
    }

    function With(stream: Stream, counter: nat, w: Writer): State {
      if stream.Stdout? then State(counter, w, err) else State(counter, out, w)
    }

    function Accepted(): nat {
      out.accepted + err.accepted
    }
  }

  function Finish(w: Writer, ok: bool): Writer
    requires w.todo != []
  {
    Writer(w.todo[1..], Idle, w.charged + w.todo[0],
           w.accepted + (if ok then w.todo[0] else 0), w.rejections + if ok then 0 else 1)
  }

  // The next step of one stream's goroutine.
  function Next(max: int, s: State, stream: Stream): (s': State)
    requires s.Valid()
    ensures s'.Valid()
  {
    var w := s.Of(stream);
    match w.pc
    case Idle => if w.todo == [] then s else s.With(stream, s.written, w.(pc := Loaded(s.written)))
    case Loaded(seen) => s.With(stream, seen + w.todo[0], w.(pc := Stored))
    case Stored => s.With(stream, s.written, Finish(w, s.written <= max))
  }

  function RunSchedule(max: int, s: State, schedule: seq<Stream>): (s': State)
    requires s.Valid()
    ensures s'.Valid()
  {
    if schedule == [] then s
    else
      var n := |schedule| - 1;
      Next(max, RunSchedule(max, s, schedule[..n]), schedule[n])
  }

  function Start(written: nat, out: seq<nat>, err: seq<nat>): State {
    State(written, Writer(out, Idle, 0, 0, 0), Writer(err, Idle, 0, 0, 0))
  }

  lemma RunConcat(max: int, s: State, a: seq<Stream>, stream: Stream)
    requires s.Valid()
    ensures RunSchedule(max, s, a + [stream]) == Next(max, RunSchedule(max, s, a), stream)
  {
    assert (a + [stream])[..|a|] == a;
  }

  // ---------------------------------------------------------------- writes that do not overlap

  // A whole Write: what LimitedWriter.Write promises.
  function Turn(max: int, s: State, stream: Stream): State {
    var w := s.Of(stream);
    if w.todo == [] then s
    else s.With(stream, s.written + w.todo[0], Finish(w, s.written + w.todo[0] <= max))
  }

  function Turns(max: int, s: State, turns: seq<Stream>): State {
    if turns == [] then s
    else Turn(max, Turns(max, s, turns[..|turns| - 1]), turns[|turns| - 1])
  }

  function BackToBack(turns: seq<Stream>): seq<Stream> {
    if turns == [] then []
    else
      var n := |turns| - 1;
      BackToBack(turns[..n]) + [turns[n]] + [turns[n]] + [turns[n]]
  }

  lemma ThreeStepsAreATurn(max: int, s: State, stream: Stream)
    requires s.out.pc == s.err.pc == Idle
    ensures Next(max, Next(max, Next(max, s, stream), stream), stream) == Turn(max, s, stream)
    ensures Turn(max, s, stream).out.pc == Turn(max, s, stream).err.pc == Idle
  {
  }

  /** Writes that do not overlap, in whatever order of the streams, are whole Writes. */
  lemma {:induction false} BackToBackIsAtomic(max: int, s: State, turns: seq<Stream>)
    requires s.out.pc == s.err.pc == Idle
    ensures RunSchedule(max, s, BackToBack(turns)) == Turns(max, s, turns)
    ensures Turns(max, s, turns).out.pc == Turns(max, s, turns).err.pc == Idle
  {
    if turns == [] {
    } else {
      var n := |turns| - 1;
      var stream, before := turns[n], BackToBack(turns[..n]);
      BackToBackIsAtomic(max, s, turns[..n]);
      ThreeStepsAreATurn(max, Turns(max, s, turns[..n]), stream);
      RunConcat(max, s, before, stream);
      RunConcat(max, s, before + [stream], stream);
      RunConcat(max, s, before + [stream] + [stream], stream);
    }
  }

  /** So writes that do not overlap stay within the limit. */
  lemma {:induction false} TurnsStayWithin(max: int, out: seq<nat>, err: seq<nat>, turns: seq<Stream>)
    requires 0 <= max
    ensures var s := Turns(max, Start(0, out, err), turns); s.Accepted() <= max && s.Accepted() <= s.written
  {
    if turns == [] {
    } else {
      TurnsStayWithin(max, out, err, turns[..|turns| - 1]);
    }
  }

  // ---------------------------------------------------------------- everything fits

  function Sum(sizes: seq<nat>): nat {
    if sizes == [] then 0 else sizes[0] + Sum(sizes[1..])
  }

  lemma SumOfOne(n: nat)
    ensures Sum([n]) == n
  {
    assert [n][1..] == [];
  }

  // What a stream has charged so far, and what it will have charged in the end.
  function Charged(w: Writer): nat
    requires w.Valid()
  {
    w.charged + if w.pc == Stored then w.todo[0] else 0
  }

  function Whole(w: Writer): nat {
    w.charged + Sum(w.todo)
  }

  predicate SeenBelow(w: Writer, bound: nat) {
    w.pc.Loaded? ==> w.pc.seen <= bound
  }

  // The counter never runs ahead of what was charged: lost updates only make it lag.
  predicate Lags(start: nat, s: State, total: nat)
    requires s.Valid()
  {
    var bound := start + Charged(s.out) + Charged(s.err);
    && s.written <= bound && SeenBelow(s.out, bound) && SeenBelow(s.err, bound)
    && Whole(s.out) + Whole(s.err) == total
    && s.out.accepted <= s.out.charged && s.err.accepted <= s.err.charged
  }

  lemma LagsNext(max: int, start: nat, s: State, total: nat, stream: Stream)
    requires s.Valid() && Lags(start, s, total)
    ensures Lags(start, Next(max, s, stream), total)
    ensures start + total <= max && s.out.rejections + s.err.rejections == 0 ==>
      Next(max, s, stream).out.rejections + Next(max, s, stream).err.rejections == 0
  {
  }

  lemma {:induction false} LagsAfter(max: int, start: nat, out: seq<nat>, err: seq<nat>, schedule: seq<Stream>)
    ensures var s := RunSchedule(max, Start(start, out, err), schedule);
      && Lags(start, s, Sum(out) + Sum(err))
      && (start + Sum(out) + Sum(err) <= max ==> s.out.rejections + s.err.rejections == 0)
  {
    if schedule == [] {
    } else {
      var n := |schedule| - 1;
      LagsAfter(max, start, out, err, schedule[..n]);
      LagsNext(max, start, RunSchedule(max, Start(start, out, err), schedule[..n]), Sum(out) + Sum(err), schedule[n]);
    }
  }

  // ---------------------------------------------------------------- what can be reached

  function Other(stream: Stream): Stream {
    if stream.Stdout? then Stderr else Stdout
  }

  ghost predicate Reaches(max: int, s: State, s': State)
    requires s.Valid()
  {
    exists schedule :: RunSchedule(max, s, schedule) == s'
  }

  lemma ReachesItself(max: int, s: State)
    requires s.Valid()
    ensures Reaches(max, s, s)
  {
    assert RunSchedule(max, s, []) == s;
  }

  lemma ReachesNext(max: int, s: State, m: State, stream: Stream)
    requires s.Valid() && Reaches(max, s, m) && m.Valid()
    ensures Reaches(max, s, Next(max, m, stream))
  {
    var schedule :| RunSchedule(max, s, schedule) == m;
    RunConcat(max, s, schedule, stream);
  }

  // A stream that is between writes makes its next write, the other one standing still.
  lemma ReachesTurn(max: int, s: State, m: State, stream: Stream)
    requires s.Valid() && m.Valid() && Reaches(max, s, m) && m.Of(stream).pc == Idle
    ensures Turn(max, m, stream).Valid() && Reaches(max, s, Turn(max, m, stream))
  {
    var m1 := Next(max, m, stream);
    var m2 := Next(max, m1, stream);
    ReachesNext(max, s, m, stream);
    ReachesNext(max, s, m1, stream);
    ReachesNext(max, s, m2, stream);
    assert m.Of(stream).todo == [] ==> Turn(max, m, stream) == m;
    assert m.Of(stream).todo != [] ==> Turn(max, m, stream) == Next(max, m2, stream);
  }

  lemma SumFrom(sizes: seq<nat>, k: nat)
    requires k < |sizes|
    ensures Sum(sizes[..k + 1]) == Sum(sizes[..k]) + sizes[k]
  {
    if k == 0 {
      assert sizes[..1][1..] == [];
    } else {
      SumFrom(sizes[1..], k - 1);
      assert sizes[..k + 1][1..] == sizes[1..][..k] && sizes[..k][1..] == sizes[1..][..k - 1];
    }
  }

  // The first k writes of a stream have been made and accepted.
  function Advanced(s: State, stream: Stream, k: nat): State
    requires k <= |s.Of(stream).todo|
  {
    var w, sum := s.Of(stream), Sum(s.Of(stream).todo[..k]);
    s.With(stream, s.written + sum, Writer(w.todo[k..], Idle, w.charged + sum, w.accepted + sum, w.rejections))
  }

  lemma AdvancedByOne(max: int, m: State, stream: Stream, k: nat)
    requires m.Valid() && m.Of(stream).pc == Idle && k < |m.Of(stream).todo|
    requires m.written + Sum(m.Of(stream).todo[..k + 1]) <= max
    ensures Turn(max, Advanced(m, stream, k), stream) == Advanced(m, stream, k + 1)
  {
    var todo := m.Of(stream).todo;
    SumFrom(todo, k);
    assert todo[k..][1..] == todo[k + 1..] && todo[k..][0] == todo[k];
  }

  // As long as they fit, a stream can make its writes while the other one stands still,
  // even in the middle of a write.
  lemma {:induction false} ReachesAdvanced(max: int, s: State, m: State, stream: Stream, k: nat)
    requires s.Valid() && m.Valid() && Reaches(max, s, m)
    requires m.Of(stream).pc == Idle && k <= |m.Of(stream).todo|
    requires k > 0 ==> m.written + Sum(m.Of(stream).todo[..k]) <= max
    ensures Advanced(m, stream, k).Valid() && Reaches(max, s, Advanced(m, stream, k))
  {
    var todo := m.Of(stream).todo;
    if k == 0 {
      assert todo[0..] == todo && todo[..0] == [];
      assert Advanced(m, stream, 0) == m;
    } else {
      SumFrom(todo, k - 1);
      ReachesAdvanced(max, s, m, stream, k - 1);
      var before := Advanced(m, stream, k - 1);
      ReachesTurn(max, s, before, stream);
      AdvancedByOne(max, m, stream, k - 1);
    }
  }

  // ---------------------------------------------------------------- when nothing is rejected

  predicate NoneRejected(s: State) {
    s.out.rejections + s.err.rejections == 0
  }

  lemma {:induction false} ReachesExhausted(max: int, s: State, m: State, stream: Stream) returns (m': State)
    requires s.Valid() && m.Valid() && Reaches(max, s, m) && m.Of(stream).pc == Idle
    ensures m'.Valid() && Reaches(max, s, m') && m'.Of(Other(stream)) == m.Of(Other(stream))
    ensures m'.written == m.written + Sum(m.Of(stream).todo)
    ensures m'.Of(stream).rejections >= m.Of(stream).rejections
    ensures m.Of(stream).todo != [] && m'.written > max ==> m'.Of(stream).rejections > 0
    decreases |m.Of(stream).todo|
  {
    if m.Of(stream).todo == [] {
      m' := m;
    } else {
      var next := Turn(max, m, stream);
      ReachesTurn(max, s, m, stream);
      m' := ReachesExhausted(max, s, next, stream);
    }
  }

  lemma SomethingCanBeRejected(max: int, written: nat, out: seq<nat>, err: seq<nat>) returns (s: State)
    requires written + Sum(out) + Sum(err) > max && (out != [] || err != [])
    ensures Reaches(max, Start(written, out, err), s) && !NoneRejected(s)
  {
    var start := Start(written, out, err);
    ReachesItself(max, start);
    var m := ReachesExhausted(max, start, start, Stdout);
    s := ReachesExhausted(max, start, m, Stderr);
  }

  lemma {:induction false} NothingToDo(max: int, s: State, schedule: seq<Stream>)
    requires s.Valid() && s.out.todo == s.err.todo == []
    ensures RunSchedule(max, s, schedule) == s
  {
    if schedule == [] {
    } else {
      NothingToDo(max, s, schedule[..|schedule| - 1]);
    }
  }

  /** Whatever overlaps, any number of writes on both streams: no write is rejected in any
      interleaving exactly if all of them together fit. */
  lemma NothingRejectedIff(max: int, written: nat, out: seq<nat>, err: seq<nat>)
    ensures (forall schedule :: NoneRejected(RunSchedule(max, Start(written, out, err), schedule))) <==>
      (out == [] && err == []) || written + Sum(out) + Sum(err) <= max
  {
    var start := Start(written, out, err);
    if out == [] && err == [] {
      forall schedule ensures RunSchedule(max, start, schedule) == start {
        NothingToDo(max, start, schedule);
      }
    } else if written + Sum(out) + Sum(err) <= max {
      forall schedule ensures NoneRejected(RunSchedule(max, start, schedule)) {
        LagsAfter(max, written, out, err, schedule);
      }
    } else {
      var s := SomethingCanBeRejected(max, written, out, err);
      var schedule :| RunSchedule(max, start, schedule) == s;
      assert !NoneRejected(RunSchedule(max, start, schedule));
    }
  }

  // ---------------------------------------------------------------- when the limit is kept

  // What was accepted fits on top of the count so far.
  predicate Within(max: int, written: nat, s: State) {
    s.Accepted() == 0 || written + s.Accepted() <= max
  }

  // A stream that is alone loses no update.
  predicate Alone(max: int, written: nat, s: State, stream: Stream) {
    var w := s.Of(stream);
    && s.Valid() && s.Of(Other(stream)) == Writer([], Idle, 0, 0, 0)
    && s.written == written + Charged(w) && (w.pc.Loaded? ==> w.pc.seen == s.written)
    && w.accepted <= w.charged && (w.accepted == 0 || written + w.accepted <= max)
  }

  lemma AloneNext(max: int, written: nat, s: State, stream: Stream, next: Stream)
    requires Alone(max, written, s, stream)
    ensures Alone(max, written, Next(max, s, next), stream)
  {
  }

  lemma {:induction false} AloneStaysWithin(max: int, written: nat, start: State, stream: Stream,
                                            schedule: seq<Stream>)
    requires Alone(max, written, start, stream)
    ensures Alone(max, written, RunSchedule(max, start, schedule), stream)
  {
    if schedule == [] {
    } else {
      var n := |schedule| - 1;
      AloneStaysWithin(max, written, start, stream, schedule[..n]);
      AloneNext(max, written, RunSchedule(max, start, schedule[..n]), stream, schedule[n]);
    }
  }

  // Nothing of this stream is accepted: it has stored nothing yet, or the counter is over.
  predicate Hopeless(w: Writer, max: int, written: nat, counter: nat, sizes: seq<nat>) {
    && w.accepted == 0 && (w.pc.Loaded? ==> w.pc.seen >= written)
    && (|| (counter > max && (w.pc.Loaded? ==> w.pc.seen > max))
        || (w.todo == sizes && w.pc != Stored))
  }

  predicate BothHopeless(max: int, written: nat, s: State, out: seq<nat>, err: seq<nat>) {
    && s.Valid() && s.written >= written
    && Hopeless(s.out, max, written, s.written, out) && Hopeless(s.err, max, written, s.written, err)
  }

  predicate FirstTooLarge(max: int, written: nat, sizes: seq<nat>) {
    sizes != [] && written + sizes[0] > max
  }

  lemma HopelessNext(max: int, written: nat, s: State, out: seq<nat>, err: seq<nat>, stream: Stream)
    requires FirstTooLarge(max, written, out) && FirstTooLarge(max, written, err)
    requires BothHopeless(max, written, s, out, err)
    ensures BothHopeless(max, written, Next(max, s, stream), out, err)
  {
  }

  lemma {:induction false} FirstsTooLarge(max: int, written: nat, out: seq<nat>, err: seq<nat>, schedule: seq<Stream>)
    requires FirstTooLarge(max, written, out) && FirstTooLarge(max, written, err)
    ensures BothHopeless(max, written, RunSchedule(max, Start(written, out, err), schedule), out, err)
  {
    if schedule == [] {
    } else {
      var n := |schedule| - 1;
      FirstsTooLarge(max, written, out, err, schedule[..n]);
      HopelessNext(max, written, RunSchedule(max, Start(written, out, err), schedule[..n]), out, err, schedule[n]);
    }
  }

  // ---------------------------------------------------------------- when it can be exceeded

  // The start, but for the stream x having loaded the counter for its first write.
  function Held(start: State, x: Stream): State {
    start.With(x, start.written, start.Of(x).(pc := Loaded(start.written)))
  }

  lemma ReachesHeld(max: int, start: State, x: Stream)
    requires start.Valid() && start.Of(x).pc == Idle && start.Of(x).todo != []
    ensures Held(start, x).Valid() && Reaches(max, start, Held(start, x))
  {
    ReachesItself(max, start);
    ReachesNext(max, start, start, x);
  }

  // The update of y is lost under that of x, which still has the old count, and both are
  // accepted.
  lemma ReachesLostUpdate(max: int, start: State, m: State, x: Stream) returns (s: State)
    requires start.Valid() && m.Valid() && Reaches(max, start, m)
    requires m.Of(x).pc.Loaded? && m.Of(x).pc.seen + m.Of(x).todo[0] <= max
    requires m.Of(Other(x)).pc == Idle && m.Of(Other(x)).todo != []
    ensures Reaches(max, start, s)
    ensures s.Accepted() == m.Accepted() + m.Of(x).todo[0] + m.Of(Other(x)).todo[0]
  {
    var y := Other(x);
    var m1 := Next(max, m, y);
    var m2 := Next(max, m1, y);
    var m3 := Next(max, m2, x);
    var m4 := Next(max, m3, y);
    s := Next(max, m4, x);
    ReachesNext(max, start, m, y);
    ReachesNext(max, start, m1, y);
    ReachesNext(max, start, m2, x);
    ReachesNext(max, start, m3, y);
    ReachesNext(max, start, m4, x);
    assert m3.written <= max && m3.Of(y) == m.Of(y).(pc := Stored) && m3.Of(x) == m.Of(x).(pc := Stored);
    assert m4.Of(y) == Finish(m3.Of(y), true) && s.Of(x) == Finish(m4.Of(x), true);
  }

  // How many of these writes fit: one more would not.
  lemma {:induction false} LongestFit(max: int, written: nat, sizes: seq<nat>, n: nat) returns (k: nat)
    requires 0 < n <= |sizes| && written <= max && written + Sum(sizes[..n]) > max
    ensures k < n && written + Sum(sizes[..k]) <= max && written + Sum(sizes[..k + 1]) > max
  {
    assert sizes[..0] == [];
    if written + Sum(sizes[..n - 1]) > max {
      k := LongestFit(max, written, sizes, n - 1);
    } else {
      k := n - 1;
    }
  }

  predicate Fresh(start: State) {
    && start.out == Writer(start.out.todo, Idle, 0, 0, 0)
    && start.err == Writer(start.err.todo, Idle, 0, 0, 0)
  }

  predicate FirstFits(max: int, start: State, x: Stream) {
    start.Of(x).todo != [] && start.written + start.Of(x).todo[0] <= max
  }

  // y alone writes too much, and its last write that would not fit is hidden by x.
  lemma ExceedsByOne(max: int, start: State, x: Stream) returns (s: State)
    requires Fresh(start) && FirstFits(max, start, x)
    requires start.written + Sum(start.Of(Other(x)).todo) > max
    ensures Reaches(max, start, s) && start.written + s.Accepted() > max && s.Accepted() > 0
  {
    var y, todo, held := Other(x), start.Of(Other(x)).todo, Held(start, x);
    ReachesHeld(max, start, x);
    assert todo[..|todo|] == todo;
    var k := LongestFit(max, start.written, todo, |todo|);
    ReachesAdvanced(max, start, held, y, k);
    s := ReachesLostUpdate(max, start, Advanced(held, y, k), x);
    SumFrom(todo, k);
    assert Advanced(held, y, k).Accepted() == Sum(todo[..k]);
  }

  // x overwrites the counter with a sum of the old count, and that is accepted.
  lemma ReachesHidden(max: int, start: State, m: State, x: Stream) returns (s: State)
    requires start.Valid() && m.Valid() && Reaches(max, start, m)
    requires m.Of(x).pc.Loaded? && m.Of(x).pc.seen + m.Of(x).todo[0] <= max
    ensures s == m.With(x, m.Of(x).pc.seen + m.Of(x).todo[0], Finish(m.Of(x), true))
    ensures s.Valid() && Reaches(max, start, s)
  {
    var m1 := Next(max, m, x);
    ReachesNext(max, start, m, x);
    s := Next(max, m1, x);
    ReachesNext(max, start, m1, x);
  }

  // y writes everything, x then hides all of it and writes everything, too.
  lemma ExceedsTogether(max: int, start: State, x: Stream) returns (s: State)
    requires Fresh(start) && FirstFits(max, start, x)
    requires start.written + Sum(start.Of(x).todo) <= max && start.written + Sum(start.Of(Other(x)).todo) <= max
    requires start.written + Sum(start.Of(x).todo) + Sum(start.Of(Other(x)).todo) > max
    ensures Reaches(max, start, s) && start.written + s.Accepted() > max && s.Accepted() > 0
  {
    var y, held := Other(x), Held(start, x);
    var a, b := start.Of(x).todo, start.Of(y).todo;
    ReachesHeld(max, start, x);
    assert b[..|b|] == b && a[1..][..|a| - 1] == a[1..];
    ReachesAdvanced(max, start, held, y, |b|);
    var m := ReachesHidden(max, start, Advanced(held, y, |b|), x);
    ReachesAdvanced(max, start, m, x, |a| - 1);
    s := Advanced(m, x, |a| - 1);
  }

  // x's first write fits.
  lemma CanExceed(max: int, start: State, x: Stream) returns (s: State)
    requires Fresh(start) && FirstFits(max, start, x) && start.Of(Other(x)).todo != []
    requires start.written + Sum(start.out.todo) + Sum(start.err.todo) > max
    ensures Reaches(max, start, s) && start.written + s.Accepted() > max && s.Accepted() > 0
  {
    if start.written + Sum(start.Of(Other(x)).todo) > max {
      s := ExceedsByOne(max, start, x);
    } else {
      assert start.Of(Other(x)).todo[0] <= Sum(start.Of(Other(x)).todo);
      if start.written + Sum(start.Of(x).todo) > max {
        s := ExceedsByOne(max, start, Other(x));
      } else {
        s := ExceedsTogether(max, start, x);
      }
    }
  }

  // No interleaving accepts more than fits, by the sizes alone.
  predicate KeepsLimit(max: int, written: nat, out: seq<nat>, err: seq<nat>) {
    || out == [] || err == []
    || written + Sum(out) + Sum(err) <= max
    || (FirstTooLarge(max, written, out) && FirstTooLarge(max, written, err))
  }

  lemma KeepsLimitStaysWithin(max: int, written: nat, out: seq<nat>, err: seq<nat>, schedule: seq<Stream>)
    requires KeepsLimit(max, written, out, err)
    ensures Within(max, written, RunSchedule(max, Start(written, out, err), schedule))
  {
    var start := Start(written, out, err);
    if err == [] {
      AloneStaysWithin(max, written, start, Stdout, schedule);
    } else if out == [] {
      AloneStaysWithin(max, written, start, Stderr, schedule);
    } else if written + Sum(out) + Sum(err) <= max {
      LagsAfter(max, written, out, err, schedule);
    } else {
      FirstsTooLarge(max, written, out, err, schedule);
    }
  }

  /** The streams together stay within the limit in every interleaving of any number of writes,
      from any count so far, exactly if one of them writes nothing, or all of it fits, or
      neither's first write fits. */
  lemma StaysWithinIff(max: int, written: nat, out: seq<nat>, err: seq<nat>)
    ensures (forall schedule :: Within(max, written, RunSchedule(max, Start(written, out, err), schedule))) <==>
      KeepsLimit(max, written, out, err)
  {
    var start := Start(written, out, err);
    if KeepsLimit(max, written, out, err) {
      forall schedule ensures Within(max, written, RunSchedule(max, start, schedule)) {
        KeepsLimitStaysWithin(max, written, out, err, schedule);
      }
    } else {
      var s := CanExceed(max, start, if written + out[0] <= max then Stdout else Stderr);
      var schedule :| RunSchedule(max, start, schedule) == s;
      assert !Within(max, written, RunSchedule(max, start, schedule));
    }
  }

  /** From the start: together they are at most max bytes in every interleaving on exactly that
      condition. */
  lemma AtMostMaxIff(max: int, out: seq<nat>, err: seq<nat>)
    requires 0 <= max
    ensures (forall schedule :: RunSchedule(max, Start(0, out, err), schedule).Accepted() <= max) <==>
      KeepsLimit(max, 0, out, err)
  {
    StaysWithinIff(max, 0, out, err);
    forall schedule
      ensures Within(max, 0, RunSchedule(max, Start(0, out, err), schedule)) <==>
        RunSchedule(max, Start(0, out, err), schedule).Accepted() <= max
    {
    }
  }

  /** In particular two overlapping writes stay within the limit exactly if both together fit or
      neither fits by itself. */
  lemma OverlapStaysWithinIff(max: int, written: nat, n: nat, m: nat)
    ensures (forall schedule :: Within(max, written, RunSchedule(max, Start(written, [n], [m]), schedule))) <==>
      written + n + m <= max || (written + n > max && written + m > max)
  {
    SumOfOne(n);
    SumOfOne(m);
    StaysWithinIff(max, written, [n], [m]);
  }

  // ---------------------------------------------------------------- rejecting too much

  predicate BothRejected(s: State) {
    s.out.rejections == 1 && s.err.rejections == 1
  }

  // Both charge before either tests.
  lemma ReachesBothRejected(max: int, written: nat, n: nat, m: nat) returns (s: State)
    requires written + n + m > max
    ensures Reaches(max, Start(written, [n], [m]), s) && BothRejected(s)
  {
    var start := Start(written, [n], [m]);
    ReachesItself(max, start);
    var m1 := Next(max, start, Stdout);
    ReachesNext(max, start, start, Stdout);
    var m2 := Next(max, m1, Stdout);
    ReachesNext(max, start, m1, Stdout);
    var m3 := Next(max, m2, Stderr);
    ReachesNext(max, start, m2, Stderr);
    var m4 := Next(max, m3, Stderr);
    ReachesNext(max, start, m3, Stderr);
    assert m4 == State(written + n + m, Writer([n], Stored, 0, 0, 0), Writer([m], Stored, 0, 0, 0));
    var m5 := Next(max, m4, Stdout);
    ReachesNext(max, start, m4, Stdout);
    s := Next(max, m5, Stderr);
    ReachesNext(max, start, m5, Stderr);
  }

  /** Two overlapping writes can both be rejected exactly if they do not both fit, even if each
      of them fits by itself: not even the first of them need be accepted. */
  lemma BothRejectedIff(max: int, written: nat, n: nat, m: nat)
    ensures (exists s :: Reaches(max, Start(written, [n], [m]), s) && BothRejected(s)) <==> written + n + m > max
  {
    var start := Start(written, [n], [m]);
    if written + n + m > max {
      var s := ReachesBothRejected(max, written, n, m);
    } else {
      SumOfOne(n);
      SumOfOne(m);
      forall s | Reaches(max, start, s) ensures !BothRejected(s) {
        var schedule :| RunSchedule(max, start, schedule) == s;
        LagsAfter(max, written, [n], [m], schedule);
      }
    }
  }
}
