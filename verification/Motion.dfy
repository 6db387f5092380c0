/** The coalesced mouse motion: a one-writer seqlock in shared memory, read with at
    most three attempts, and the serial number by which the application knows whether
    a motion event is still to be delivered. Counters wrap at 32 bits. */
module Motion {
  import opened Numbers

  const WORDS := 8
  const HALF := 0x8000_0000
  const ATTEMPTS := 3

  type Word = nat
  type Value = seq<Word>

  predicate IsValue(v: Value) {
    |v| == WORDS
  }

  /** update_shared_motion. */
  datatype Writer =
    | Idle
    | LoadSeq(v: Value, isEvent: bool)
    | Enter(v: Value, isEvent: bool, seq0: nat)
    | Put(v: Value, isEvent: bool, seq0: nat, k: nat)     // the first k words are written
    | Leave(v: Value, isEvent: bool, seq0: nat)
    | Raise                                               // motion_serial is to be raised

  /** How an attempt began: the serial read, and, as unbounded counts that the program
      does not keep, the events and updates at that moment. */
  datatype Begin = Begin(consume: bool, attempt: nat, serial0: nat, e0: nat, m0: nat)

  /** The motion part of peek_shared_input around read_shared_motion. Beside the sequence
      numbers read stand the counts of updates `n0` and `n1` at those moments. */
  datatype Reader =
    | Rest
    | Try(consume: bool, attempt: nat)
    | GotSerial(b: Begin)
    | Copy(b: Begin, seq0: nat, n0: nat, buf: seq<Word>)
    | GotSeq(b: Begin, seq0: nat, n0: nat, buf: Value, seq1: nat, n1: nat)
    | Judge(b: Begin, seq0: nat, n0: nat, buf: Value, seq1: nat, n1: nat, serial1: nat, e1: nat)
    | Got(consume: bool, buf: Value, serial: nat, n: nat, e: nat)

  /** A delivered motion: update `n`, with `e` events raised by then. */
  datatype Delivery = Delivery(value: Value, n: nat, e: nat)

  /** The shared page, the threads, and the history: all values written so far, after
      which update each event's serial was raised, what was delivered. */
  datatype State = State(
    mseq: nat, serial: nat, words: Value, consumedSerial: nat,
    w: Writer, r: Reader,
    values: seq<Value>, raised: seq<nat>, delivered: seq<Delivery>)

  predicate Init(s: State) {
    && s.mseq == 0 && s.serial == 0 && IsValue(s.words) && s.consumedSerial == 0
    && s.w == Idle && s.r == Rest && s.values == [] && s.raised == [] && s.delivered == []
  }

  // ---------------------------------------------------------------------------
  // Steps.

  ghost predicate Write(s: State, t: State) {
    match s.w
    case Idle => exists v, isEvent :: IsValue(v) && t == s.(w := LoadSeq(v, isEvent))
    case LoadSeq(v, ev) => t == s.(w := Enter(v, ev, s.mseq))
    case Enter(v, ev, q) => t == s.(mseq := Wrap(q + 1), w := Put(v, ev, q, 0))
    case Put(v, ev, q, k) =>
      && k < |v| && k < |s.words|
      && t == s.(words := s.words[k := v[k]], w := if k + 1 == WORDS then Leave(v, ev, q) else Put(v, ev, q, k + 1))
    case Leave(v, ev, q) => t == s.(mseq := Wrap(q + 2), values := s.values + [v], w := if ev then Raise else Idle)
    case Raise => t == s.(serial := Wrap(s.serial + 1), raised := s.raised + [|s.values|], w := Idle)
  }

  /** After a failed attempt. */
  function Retry(b: Begin): Reader {
    if b.attempt + 1 < ATTEMPTS then Try(b.consume, b.attempt + 1) else Rest
  }

  predicate Accepts(r: Reader)
    requires r.Judge?
  {
    r.seq0 == r.seq1 && r.seq1 % 2 == 0 && r.b.serial0 == r.serial1
  }

  ghost predicate Read(s: State, t: State) {
    match s.r
    case Rest => exists consume :: t == s.(r := if s.serial == s.consumedSerial then Rest else Try(consume, 0))
    case Try(c, a) => t == s.(r := GotSerial(Begin(c, a, s.serial, |s.raised|, |s.values|)))
    case GotSerial(b) =>
      t == s.(r := if s.mseq % 2 == 1 || s.mseq == 0 then Retry(b) else Copy(b, s.mseq, |s.values|, []))
    case Copy(b, q0, n0, buf) =>
      if |buf| < WORDS then |buf| < |s.words| && t == s.(r := Copy(b, q0, n0, buf + [s.words[|buf|]]))
      else t == s.(r := GotSeq(b, q0, n0, buf, s.mseq, |s.values|))
    case GotSeq(b, q0, n0, buf, q1, n1) => t == s.(r := Judge(b, q0, n0, buf, q1, n1, s.serial, |s.raised|))
    case Judge(b, q0, n0, buf, q1, n1, s1, e1) =>
      t == s.(r := if Accepts(s.r) then Got(b.consume, buf, s1, n0, e1) else Retry(b))
    case Got(c, buf, sn, n, e) =>
      if sn == s.consumedSerial || !c then t == s.(r := Rest)
      else t == s.(consumedSerial := sn, delivered := s.delivered + [Delivery(buf, n, e)], r := Rest)
  }

  /** Fewer than 2^31 updates fall into one attempt. */
  predicate Bounded(s: State) {
    s.r.GotSerial? || s.r.Copy? || s.r.GotSeq? || s.r.Judge? ==> |s.values| - s.r.b.m0 < HALF
  }

  /** One writer and one reader, in any interleaving. */
  ghost predicate Steps(r: seq<State>) {
    && r != [] && Init(r[0])
    && forall i :: 0 <= i < |r| - 1 ==> Write(r[i], r[i + 1]) || Read(r[i], r[i + 1])
  }

  ghost predicate Run(r: seq<State>) {
    Steps(r) && forall i :: 0 <= i < |r| ==> Bounded(r[i])
  }

  // ---------------------------------------------------------------------------
  // Wrapping.

  lemma WrapAdd(a: nat, d: nat)
    requires d <= 2
    ensures Wrap(Wrap(a) + d) == Wrap(a + d)
  {
    var q := a / M;
    assert a == q * M + Wrap(a);
  }

  lemma WrapParity(a: nat)
    ensures Wrap(a) % 2 == a % 2
  {
  }

  /** The sequence number comes back to the same value exactly every 2^31 updates, and
      the serial exactly every 2^32 events. */
  lemma SeqRepeats(n0: nat, n1: nat)
    requires n0 <= n1
    ensures Wrap(2 * n0) == Wrap(2 * n1) <==> (n1 - n0) % HALF == 0
  {
    assert M == 2 * HALF;
  }

  lemma SerialRepeats(e0: nat, e1: nat)
    requires e0 <= e1
    ensures Wrap(e0) == Wrap(e1) <==> (e1 - e0) % M == 0
  {
  }

  // ---------------------------------------------------------------------------
  // The invariant.

  /** Is an update under way, with the sequence number odd? */
  predicate Writing(w: Writer) {
    w.Put? || w.Leave?
  }

  ghost predicate WriterOk(s: State) {
    && s.mseq == Wrap(2 * |s.values| + One(Writing(s.w))) && s.serial == Wrap(|s.raised|) && IsValue(s.words)
    && (forall i :: 0 <= i < |s.values| ==> IsValue(s.values[i]))
    && (!Writing(s.w) && |s.values| > 0 ==> s.words == s.values[|s.values| - 1])
    && match s.w
       case Idle => true
       case LoadSeq(v, _) => IsValue(v)
       case Enter(v, _, q) => IsValue(v) && q == Wrap(2 * |s.values|)
       case Put(v, _, q, k) => IsValue(v) && q == Wrap(2 * |s.values|) && k < WORDS && s.words[..k] == v[..k]
       case Leave(v, _, q) => IsValue(v) && q == Wrap(2 * |s.values|) && s.words == v
       case Raise => |s.values| > 0
  }

  /** Each event's serial was raised after its update, in order. */
  ghost predicate RaisedOk(s: State) {
    && (forall i :: 0 <= i < |s.raised| ==> 0 < s.raised[i] <= |s.values|)
    && (forall i, j :: 0 <= i < j < |s.raised| ==> s.raised[i] < s.raised[j])
    && (s.w == Raise ==> forall i :: 0 <= i < |s.raised| ==> s.raised[i] < |s.values|)
  }

  ghost predicate DeliveredOk(s: State) {
    && (forall i :: 0 <= i < |s.delivered| ==> DeliveryOk(s, s.delivered[i]))
    && s.consumedSerial == (if s.delivered == [] then 0 else Wrap(s.delivered[|s.delivered| - 1].e))
  }

  /** A delivered motion is one of the values written, whole, no older than the update
      that raised the serial it came with, and no newer than later events. */
  ghost predicate DeliveryOk(s: State, d: Delivery) {
    && 0 < d.n <= |s.values| && d.value == s.values[d.n - 1]
    && d.e <= |s.raised| && (d.e > 0 ==> s.raised[d.e - 1] <= d.n)
    && (forall i :: d.e <= i < |s.raised| ==> s.raised[i] >= d.n)
  }

  /** Nothing was written since update `n`. */
  predicate Untouched(s: State, n: nat) {
    |s.values| == n && !Writing(s.w)
  }

  /** The serial was read at its count, and events since then come from later updates or
      from the one just finished. */
  ghost predicate BeginOk(s: State, b: Begin) {
    && b.serial0 == Wrap(b.e0) && b.e0 <= |s.raised| && b.m0 <= |s.values|
    && (forall i :: 0 <= i < b.e0 ==> s.raised[i] <= b.m0)
    && (forall i :: b.e0 <= i < |s.raised| ==> s.raised[i] >= b.m0)
  }

  ghost predicate CopyOk(s: State, b: Begin, q0: nat, n0: nat) {
    BeginOk(s, b) && q0 == Wrap(2 * n0) && 0 < n0 <= |s.values| && b.m0 <= n0
  }

  /** After the copy: if both sequence numbers agree, the copy is update `n0`. */
  ghost predicate Stopped(s: State, b: Begin, q0: nat, n0: nat, buf: Value, q1: nat, n1: nat) {
    && CopyOk(s, b, q0, n0) && n0 <= n1 <= |s.values|
    && (q0 == q1 && n1 - n0 < HALF ==> buf == s.values[n0 - 1])
  }

  ghost predicate ReaderOk(s: State) {
    match s.r
    case Rest => true
    case Try(_, _) => true
    case GotSerial(b) => BeginOk(s, b)
    case Copy(b, q0, n0, buf) =>
      && CopyOk(s, b, q0, n0) && |buf| <= WORDS
      && (Untouched(s, n0) ==> |s.values[n0 - 1]| == WORDS && buf == s.values[n0 - 1][..|buf|])
    case GotSeq(b, q0, n0, buf, q1, n1) => Stopped(s, b, q0, n0, buf, q1, n1)
    case Judge(b, q0, n0, buf, q1, n1, s1, e1) =>
      && Stopped(s, b, q0, n0, buf, q1, n1) && s1 == Wrap(e1) && b.e0 <= e1 <= |s.raised|
      && (forall i :: e1 <= i < |s.raised| ==> s.raised[i] >= n0)
    case Got(_, buf, sn, n, e) => sn == Wrap(e) && DeliveryOk(s, Delivery(buf, n, e))
  }

  ghost predicate Inv(s: State) {
    WriterOk(s) && RaisedOk(s) && DeliveredOk(s) && ReaderOk(s)
  }

  lemma InitInv(s: State)
    requires Init(s)
    ensures Inv(s)
  {
  }

  // ---------------------------------------------------------------------------
  // The writer.

  lemma WriteKeepsWriter(s: State, t: State)
    requires WriterOk(s) && Write(s, t)
    ensures WriterOk(t)
  {
    match s.w
    case Enter(v, ev, q) =>
      WrapAdd(2 * |s.values|, 1);
    case Put(v, ev, q, k) =>
      assert t.words[..k + 1] == s.words[..k] + [v[k]];
      assert v[..k + 1] == v[..k] + [v[k]];
      assert k + 1 == WORDS ==> t.words[..k + 1] == t.words && v[..k + 1] == v;
    case Leave(v, ev, q) =>
      WrapAdd(2 * |s.values|, 2);
    case Raise =>
      WrapAdd(|s.raised|, 1);
    case _ =>
  }

  lemma WriteKeepsRaised(s: State, t: State)
    requires WriterOk(s) && RaisedOk(s) && Write(s, t)
    ensures RaisedOk(t)
  {
  }

  /** What a writer's step may change, as far as readers and the past care. */
  ghost predicate Grown(s: State, t: State) {
    && s.values <= t.values && s.raised <= t.raised && t.delivered == s.delivered
    && t.consumedSerial == s.consumedSerial
    && t.r == s.r && (forall i :: |s.raised| <= i < |t.raised| ==> t.raised[i] >= |s.values|)
    && (|t.values| == |s.values| && !Writing(t.w) ==> !Writing(s.w))
  }

  lemma WriteGrows(s: State, t: State)
    requires Write(s, t)
    ensures Grown(s, t)
  {
  }

  lemma GrownDelivery(s: State, t: State, d: Delivery)
    requires Grown(s, t) && DeliveryOk(s, d)
    ensures DeliveryOk(t, d)
  {
  }

  lemma GrownBegin(s: State, t: State, b: Begin)
    requires Grown(s, t) && BeginOk(s, b)
    ensures BeginOk(t, b)
  {
  }

  lemma WriteKeepsDelivered(s: State, t: State)
    requires DeliveredOk(s) && Grown(s, t)
    ensures DeliveredOk(t)
  {
    hide DeliveryOk;
    forall i | 0 <= i < |t.delivered| ensures DeliveryOk(t, t.delivered[i]) {
      GrownDelivery(s, t, s.delivered[i]);
    }
  }

  /** A reader half way notices, or nothing it relies on has changed. */
  lemma WriteKeepsReader(s: State, t: State)
    requires ReaderOk(s) && Grown(s, t)
    ensures ReaderOk(t)
  {
    hide BeginOk, DeliveryOk;
    match s.r
    case GotSerial(b) =>
      GrownBegin(s, t, b);
    case Copy(b, q0, n0, buf) =>
      GrownBegin(s, t, b);
    case GotSeq(b, q0, n0, buf, q1, n1) =>
      GrownBegin(s, t, b);
    case Judge(b, q0, n0, buf, q1, n1, s1, e1) =>
      GrownBegin(s, t, b);
    case Got(_, buf, sn, n, e) =>
      GrownDelivery(s, t, Delivery(buf, n, e));
    case _ =>
  }

  // ---------------------------------------------------------------------------
  // The reader.

  lemma ReadKeepsReader(s: State, t: State)
    requires Inv(s) && Bounded(s) && Read(s, t)
    ensures ReaderOk(t)
  {
    hide WriterOk, RaisedOk, DeliveredOk;
    match s.r
    case Try(_, _) =>
      ReadBegins(s, t);
    case GotSerial(_) =>
      ReadEnters(s, t);
    case Copy(_, _, _, _) =>
      ReadKeepsCopy(s, t);
    case GotSeq(_, _, _, _, _, _) =>
      ReadStops(s, t);
    case Judge(_, _, _, _, _, _, _, _) =>
      if Accepts(s.r) {
        ReadAccepts(s);
      }
    case _ =>
  }

  lemma ReadBegins(s: State, t: State)
    requires WriterOk(s) && RaisedOk(s) && s.r.Try? && Read(s, t)
    ensures ReaderOk(t)
  {
  }

  lemma ReadEnters(s: State, t: State)
    requires WriterOk(s) && ReaderOk(s) && s.r.GotSerial? && Read(s, t)
    ensures ReaderOk(t)
  {
    WrapParity(2 * |s.values| + One(Writing(s.w)));
  }

  lemma ReadStops(s: State, t: State)
    requires WriterOk(s) && ReaderOk(s) && s.r.GotSeq? && Read(s, t)
    ensures ReaderOk(t)
  {
  }

  lemma ReadKeepsCopy(s: State, t: State)
    requires WriterOk(s) && s.r.Copy? && ReaderOk(s) && Read(s, t)
    ensures ReaderOk(t)
  {
    var n0, buf := s.r.n0, s.r.buf;
    if |buf| == WORDS {
      StopCopy(s, s.r.seq0, n0, buf);
    } else if Untouched(s, n0) {
      var v := s.values[n0 - 1];
      assert v[..|buf| + 1] == v[..|buf|] + [v[|buf|]];
    }
  }

  /** Equal and even, less than 2^31 updates apart: nothing was written in between. */
  lemma StopCopy(s: State, q0: nat, n0: nat, buf: Value)
    requires WriterOk(s) && q0 == Wrap(2 * n0) && 0 < n0 <= |s.values| && |buf| == WORDS
    requires Untouched(s, n0) ==> |s.values[n0 - 1]| == WORDS && buf == s.values[n0 - 1][..|buf|]
    ensures q0 == s.mseq && |s.values| - n0 < HALF ==> buf == s.values[n0 - 1]
  {
    WrapParity(2 * n0);
    WrapParity(2 * |s.values| + One(Writing(s.w)));
    SeqRepeats(n0, |s.values|);
  }

  /** The serial did not change during the attempt, so its update came before. */
  lemma ReadAccepts(s: State)
    requires RaisedOk(s) && s.r.Judge? && ReaderOk(s) && Bounded(s) && Accepts(s.r)
    ensures DeliveryOk(s, Delivery(s.r.buf, s.r.n0, s.r.e1))
  {
    var b, e1 := s.r.b, s.r.e1;
    EventsBounded(s.raised, b.e0, b.m0, |s.values|);
    SerialRepeats(b.e0, e1);
    assert e1 == b.e0;
  }

  /** Each event needs an update of its own, but for one that was under way. */
  lemma {:induction false} EventsBounded(raised: seq<nat>, e0: nat, m0: nat, n: nat)
    requires e0 <= |raised| && m0 <= n
    requires forall i, j :: 0 <= i < j < |raised| ==> raised[i] < raised[j]
    requires forall i :: e0 <= i < |raised| ==> m0 <= raised[i] <= n
    ensures |raised| - e0 <= n - m0 + 1
    decreases |raised|
  {
    if e0 < |raised| {
      var last := |raised| - 1;
      if e0 < last {
        assert raised[last - 1] < raised[last];
        EventsBounded(raised[..last], e0, m0, raised[last] - 1);
      }
    }
  }

  lemma ReadKeepsRest(s: State, t: State)
    requires Inv(s) && Read(s, t)
    ensures WriterOk(t) && RaisedOk(t) && DeliveredOk(t)
  {
    hide WriterOk, RaisedOk;
    SameWritten(s, t);
    if t.delivered != s.delivered {
      assert t.delivered == s.delivered + [Delivery(s.r.buf, s.r.n, s.r.e)];
    }
    forall i | 0 <= i < |t.delivered| ensures DeliveryOk(t, t.delivered[i]) {
      if i < |s.delivered| {
        assert DeliveryOk(s, s.delivered[i]);
      }
    }
  }

  lemma SameWritten(s: State, t: State)
    requires WriterOk(s) && RaisedOk(s) && Read(s, t)
    ensures WriterOk(t) && RaisedOk(t) && t.values == s.values && t.raised == s.raised
  {
    assert t == s.(r := t.r, consumedSerial := t.consumedSerial, delivered := t.delivered);
  }

  lemma {:induction false} RunKeeps(r: seq<State>, i: nat)
    requires Run(r) && i < |r|
    ensures Inv(r[i])
  {
    hide WriterOk, RaisedOk, DeliveredOk, ReaderOk;
    if i == 0 {
      InitInv(r[0]);
    } else {
      RunKeeps(r, i - 1);
      assert Bounded(r[i - 1]) && (Write(r[i - 1], r[i - 1 + 1]) || Read(r[i - 1], r[i - 1 + 1]));
      if Write(r[i - 1], r[i]) {
        WriteGrows(r[i - 1], r[i]);
        WriteKeepsWriter(r[i - 1], r[i]);
        WriteKeepsRaised(r[i - 1], r[i]);
        WriteKeepsDelivered(r[i - 1], r[i]);
        WriteKeepsReader(r[i - 1], r[i]);
      } else {
        ReadKeepsReader(r[i - 1], r[i]);
        ReadKeepsRest(r[i - 1], r[i]);
      }
    }
  }

  // ---------------------------------------------------------------------------
  // What every run gives.

  /** A successful read returns one complete written value, no older than the update that
      raised motion_serial to the serial returned with it. */
  lemma ReadIsWholeAndFresh(r: seq<State>, i: nat)
    requires Run(r) && i < |r| && r[i].r.Got?
    ensures 0 < r[i].r.n <= |r[i].values| && r[i].r.buf == r[i].values[r[i].r.n - 1]
    ensures r[i].r.e <= |r[i].raised| && r[i].r.serial == r[i].r.e % M
    ensures r[i].r.e > 0 ==> r[i].raised[r[i].r.e - 1] <= r[i].r.n
  {
    RunKeeps(r, i);
  }

  /** A motion at least as new as the last event, if there was one, has been delivered. */
  ghost predicate CaughtUp(s: State) {
    s.raised == [] || (s.delivered != [] && s.raised[|s.raised| - 1] <= s.delivered[|s.delivered| - 1].n)
  }

  /** Events since the last delivery. */
  function Since(s: State): int {
    |s.raised| - if s.delivered == [] then 0 else s.delivered[|s.delivered| - 1].e
  }

  /** When the consumed serial equals motion_serial the application has caught up, if and
      only if fewer than 2^32 events came since the last delivery; and what was delivered
      last is a whole value. */
  lemma NothingLeftToDeliver(r: seq<State>, i: nat)
    requires Run(r) && i < |r| && r[i].consumedSerial == r[i].serial
    ensures CaughtUp(r[i]) <==> Since(r[i]) < M
    ensures r[i].delivered != [] ==>
              var d := r[i].delivered[|r[i].delivered| - 1]; 0 < d.n <= |r[i].values| && d.value == r[i].values[d.n - 1]
  {
    var s := r[i];
    RunKeeps(r, i);
    if s.delivered == [] {
      SerialRepeats(0, |s.raised|);
    } else {
      var d := s.delivered[|s.delivered| - 1];
      assert DeliveryOk(s, d);
      SerialRepeats(d.e, |s.raised|);
      if Since(s) >= M {
        assert s.raised[d.e] < s.raised[|s.raised| - 1];
      }
    }
  }

  // ---------------------------------------------------------------------------
  // A reader comes to an end.

  /** Where an attempt can be. */
  predicate InAttempt(r: Reader) {
    match r
    case Rest => false
    case Try(_, a) => a < ATTEMPTS
    case Got(_, _, _, _, _) => false
    case Copy(b, _, _, buf) => b.attempt < ATTEMPTS && |buf| <= WORDS
    case _ => r.b.attempt < ATTEMPTS
  }

  /** Steps of its own that a reader has left at most; an attempt takes WORDS + 5. */
  function Left(r: Reader): int {
    match r
    case Rest => 0
    case Got(_, _, _, _, _) => 0
    case Try(_, a) => (ATTEMPTS - a) * (WORDS + 5)
    case GotSerial(b) => (ATTEMPTS - b.attempt) * (WORDS + 5) - 1
    case Copy(b, _, _, buf) => (ATTEMPTS - b.attempt) * (WORDS + 5) - 2 - |buf|
    case GotSeq(b, _, _, _, _, _) => (ATTEMPTS - b.attempt) * (WORDS + 5) - 3 - WORDS
    case Judge(b, _, _, _, _, _, _, _) => (ATTEMPTS - b.attempt) * (WORDS + 5) - 4 - WORDS
  }

  lemma ReadAdvances(s: State, t: State)
    requires InAttempt(s.r) && Read(s, t)
    ensures Left(t.r) < Left(s.r) && t.r != s.r && (InAttempt(t.r) || t.r.Rest? || t.r.Got?)
  {
  }

  /** The reader's own steps between two states. */
  ghost function ReadSteps(r: seq<State>, i: nat, j: nat): nat
    requires i <= j < |r|
    decreases j
  {
    if i == j then 0 else ReadSteps(r, i, j - 1) + One(r[j].r != r[j - 1].r)
  }

  /** A reader that has begun is back at rest, or has a value, after at most
      ATTEMPTS * (WORDS + 5) steps of its own, whatever the writer does. */
  lemma {:induction false} ReaderFinishes(r: seq<State>, i: nat, j: nat)
    requires Steps(r) && i <= j < |r| && r[i].r.Try? && r[i].r.attempt == 0
    requires forall k :: i <= k < j ==> !r[k].r.Rest? && !r[k].r.Got?
    ensures ReadSteps(r, i, j) + Left(r[j].r) <= ATTEMPTS * (WORDS + 5)
    ensures InAttempt(r[j].r) || r[j].r.Rest? || r[j].r.Got?
    decreases j
  {
    hide Read, Write, Left, InAttempt, Init;
    if i == j {
      AllAttemptsLeft(r[i].r);
    } else {
      ReaderFinishes(r, i, j - 1);
      assert Write(r[j - 1], r[j - 1 + 1]) || Read(r[j - 1], r[j - 1 + 1]);
      if Read(r[j - 1], r[j]) {
        ReadAdvances(r[j - 1], r[j]);
      } else {
        WriteGrows(r[j - 1], r[j]);
      }
    }
  }

  lemma AllAttemptsLeft(r: Reader)
    requires r.Try? && r.attempt == 0
    ensures InAttempt(r) && Left(r) == ATTEMPTS * (WORDS + 5)
  {
  }

  // ---------------------------------------------------------------------------
  // The other side of both bounds is reached.

  lemma Extend(r: seq<State>, t: State) returns (r': seq<State>)
    requires Steps(r) && (Write(r[|r| - 1], t) || Read(r[|r| - 1], t))
    ensures Steps(r') && r' == r + [t]
  {
    r' := r + [t];
    forall i | 0 <= i < |r'| - 1 ensures Write(r'[i], r'[i + 1]) || Read(r'[i], r'[i + 1]) {
      if i < |r| - 1 {
        assert r'[i] == r[i] && r'[i + 1] == r[i + 1];
      }
    }
  }

  /** `r'` goes on from `r` with the reader where it was. */
  ghost predicate Waits(r: seq<State>, r': seq<State>) {
    r != [] && r <= r' && forall i :: |r| <= i < |r'| ==> r'[i].r == r[|r| - 1].r
  }

  lemma ExtendWaits(r0: seq<State>, r: seq<State>, t: State) returns (r': seq<State>)
    requires Steps(r) && Waits(r0, r) && Write(r[|r| - 1], t) && t.r == r0[|r0| - 1].r
    ensures Steps(r') && r' == r + [t] && Waits(r0, r')
  {
    r' := Extend(r, t);
  }

  /** The state after one more update. */
  function Updated(s: State, v: Value, isEvent: bool): State {
    var t := s.(mseq := Wrap(s.mseq + 2), words := v, values := s.values + [v]);
    if isEvent then t.(serial := Wrap(s.serial + 1), raised := s.raised + [|t.values|]) else t
  }

  /** The writer updates the motion once. */
  lemma Update(r: seq<State>, v: Value, isEvent: bool) returns (r': seq<State>)
    requires Steps(r) && r[|r| - 1].w == Idle && IsValue(v) && IsValue(r[|r| - 1].words)
    ensures Steps(r') && Waits(r, r') && r'[|r'| - 1] == Updated(r[|r| - 1], v, isEvent)
  {
    var s := r[|r| - 1];
    r' := ExtendWaits(r, r, s.(w := LoadSeq(v, isEvent)));
    r' := ExtendWaits(r, r', s.(w := Enter(v, isEvent, s.mseq)));
    r' := WriteWords(r, r', s, v, isEvent);
    var t := r'[|r'| - 1];
    var u := t.(mseq := Wrap(s.mseq + 2), values := t.values + [v], w := if isEvent then Raise else Idle);
    r' := ExtendWaits(r, r', u);
    if isEvent {
      r' := ExtendWaits(r, r', u.(serial := Wrap(u.serial + 1), raised := u.raised + [|u.values|], w := Idle));
    }
  }

  lemma WriteWords(r0: seq<State>, r: seq<State>, s: State, v: Value, isEvent: bool) returns (r': seq<State>)
    requires Steps(r) && Waits(r0, r) && IsValue(v) && IsValue(s.words) && s.r == r0[|r0| - 1].r
    requires r[|r| - 1] == s.(w := Enter(v, isEvent, s.mseq))
    ensures Steps(r') && Waits(r0, r')
    ensures r'[|r'| - 1] == s.(mseq := Wrap(s.mseq + 1), words := v, w := Leave(v, isEvent, s.mseq))
  {
    var t := s.(mseq := Wrap(s.mseq + 1), w := Put(v, isEvent, s.mseq, 0));
    r' := ExtendWaits(r0, r, t);
    for k := 0 to WORDS
      invariant Steps(r') && Waits(r0, r') && r'[|r'| - 1] == t && IsValue(t.words) && t.words[..k] == v[..k]
      invariant t == s.(mseq := Wrap(s.mseq + 1), words := t.words,
                        w := if k == WORDS then Leave(v, isEvent, s.mseq) else Put(v, isEvent, s.mseq, k))
    {
      var words := t.words[k := v[k]];
      assert words[..k + 1] == t.words[..k] + [v[k]];
      t := t.(words := words, w := if k + 1 == WORDS then Leave(v, isEvent, s.mseq)
          else Put(v, isEvent, s.mseq, k + 1));
      r' := ExtendWaits(r0, r', t);
    }
    assert t.words == t.words[..WORDS] && v == v[..WORDS];
  }

  /** `n` updates with the same value later, none of them an event. */
  ghost predicate After(s: State, t: State, v: Value, n: nat) {
    && t == s.(mseq := Wrap(s.mseq + 2 * n), words := t.words, values := t.values)
    && IsValue(t.words) && (n > 0 ==> t.words == v)
    && |t.values| == |s.values| + n && s.values <= t.values
    && forall i :: |s.values| <= i < |t.values| ==> t.values[i] == v
  }

  lemma ManyUpdates(r: seq<State>, v: Value, n: nat) returns (r': seq<State>)
    requires Steps(r) && r[|r| - 1].w == Idle && IsValue(v) && IsValue(r[|r| - 1].words) && r[|r| - 1].mseq < M
    ensures Steps(r') && After(r[|r| - 1], r'[|r'| - 1], v, n)
  {
    var s := r[|r| - 1];
    r' := r;
    for k := 0 to n
      invariant Steps(r') && After(s, r'[|r'| - 1], v, k)
    {
      r' := Update(r', v, false);
      WrapAdd(s.mseq + 2 * k, 2);
    }
  }

  /** With exactly 2^31 updates in one attempt the sequence number is back where it was and
      a torn value is accepted: its first word from one update, the others from another. */
  lemma TornRead() returns (r: seq<State>)
    ensures Steps(r) && r[|r| - 1].r.Got? && r[|r| - 1].r.buf !in r[|r| - 1].values
    ensures |r[|r| - 1].values| == HALF + 1
  {
    var zeros, ones := seq(WORDS, _ => 0), seq(WORDS, _ => 1);
    r := [State(0, 0, zeros, 0, Idle, Rest, [], [], [])];
    r := Update(r, zeros, true);
    var s := r[|r| - 1];
    var b := Begin(false, 0, 1, 1, 1);
    r := Extend(r, s.(r := Try(false, 0)));
    r := Extend(r, s.(r := GotSerial(b)));
    r := Extend(r, s.(r := Copy(b, 2, 1, [])));
    assert [] + [s.words[0]] == [0];
    r := Extend(r, s.(r := Copy(b, 2, 1, [0])));
    r := ManyUpdates(r, ones, HALF);
    var t := r[|r| - 1];
    assert t.mseq == 2 && t.serial == 1 && t.words == ones && |t.raised| == 1;
    var buf: Value;
    r, buf := CopyRest(r, b);
    r := Extend(r, t.(r := GotSeq(b, 2, 1, buf, 2, HALF + 1)));
    r := Extend(r, t.(r := Judge(b, 2, 1, buf, 2, HALF + 1, 1, 1)));
    r := Extend(r, t.(r := Got(false, buf, 1, 1, 1)));
    forall i | 0 <= i < |t.values| ensures t.values[i] != buf {
      assert t.values[i] == zeros || t.values[i] == ones;
      assert zeros[1] == 0 && ones[0] == 1;
    }
  }

  lemma CopyRest(r: seq<State>, b: Begin) returns (r': seq<State>, buf: Value)
    requires Steps(r) && r[|r| - 1].r == Copy(b, 2, 1, [0]) && r[|r| - 1].words == seq(WORDS, _ => 1)
    ensures Steps(r') && |buf| == WORDS && buf[0] == 0 && buf[1] == 1
    ensures r'[|r'| - 1] == r[|r| - 1].(r := Copy(b, 2, 1, buf))
  {
    var t := r[|r| - 1];
    r', buf := r, [0];
    for k := 1 to WORDS
      invariant Steps(r') && |buf| == k && buf[0] == 0 && (k > 1 ==> buf[1] == 1)
      invariant r'[|r'| - 1] == t.(r := Copy(b, 2, 1, buf))
    {
      buf := buf + [t.words[k]];
      r' := Extend(r', t.(r := Copy(b, 2, 1, buf)));
    }
  }

  /** After `n` events nobody looked at. */
  ghost predicate Ignored(r: seq<State>, n: nat) {
    && Steps(r) && (forall i :: 0 <= i < |r| ==> r[i].r == Rest)
    && var s := r[|r| - 1];
       s.w == Idle && |s.raised| == n && s.delivered == [] && s.consumedSerial == 0 && IsValue(s.words)
  }

  lemma ManyEvents(n: nat) returns (r: seq<State>)
    ensures Ignored(r, n)
  {
    r := [State(0, 0, seq(WORDS, _ => 0), 0, Idle, Rest, [], [], [])];
    for k := 0 to n
      invariant Ignored(r, k)
    {
      var r' := Update(r, r[|r| - 1].words, true);
      r := r';
    }
  }

  /** After 2^32 events the serials agree although no motion was ever delivered. */
  lemma SerialAlias() returns (r: seq<State>)
    ensures Run(r) && var s := r[|r| - 1]; s.consumedSerial == s.serial && |s.raised| == M && !CaughtUp(s)
  {
    r := ManyEvents(M);
    RunKeeps(r, |r| - 1);
    SerialRepeats(0, M);
  }
}
