/** The ring of discrete input events in shared memory: one producer (the X event
    thread), one consumer (the application), 32-bit indices that wrap, and events
    copied word by word. One step per shared access, in any interleaving. */
module InputRing {
  import opened Numbers

  const CAPACITY := 64
  const WORDS := 8

  type Word = nat
  type Event = seq<Word>

  predicate IsEvent(e: Event) {
    |e| == WORDS
  }

  /** publish_shared_input_event. */
  datatype Producer =
    | Idle
    | LoadHead(e: Event)
    | LoadTail(e: Event, head: nat)
    | Drop
    | Write(e: Event, tail: nat, k: nat)       // the first k words are in the slot
    | StoreTail(e: Event, tail: nat)

  /** peek_shared_input up to the ring's part, and shared_input_pending. */
  datatype Consumer =
    | Rest
    | GotHead(consume: bool, head: nat)
    | Copy(consume: bool, head: nat, buf: seq<Word>)
    | Have(consume: bool, head: nat, e: Event)
    | Counting(head: nat)

  /** The shared page and the two threads; then the history: events accepted and
      consumed, how many were rejected, what peeks returned and at which position, and
      what the pending counts were. */
  datatype State = State(
    head: nat, tail: nat, dropped: nat, slots: seq<Event>,
    p: Producer, c: Consumer,
    accepted: seq<Event>, consumed: seq<Event>, rejected: nat, peeked: seq<(nat, Event)>, counts: seq<nat>)

  predicate Init(s: State) {
    && s.head == 0 && s.tail == 0 && s.dropped == 0 && |s.slots| == CAPACITY
    && (forall i :: 0 <= i < CAPACITY ==> IsEvent(s.slots[i]))
    && s.p == Idle && s.c == Rest
    && s.accepted == [] && s.consumed == [] && s.rejected == 0 && s.peeked == [] && s.counts == []
  }

  ghost predicate Produce(s: State, t: State) {
    match s.p
    case Idle => exists e :: IsEvent(e) && t == s.(p := LoadHead(e))
    case LoadHead(e) => t == s.(p := LoadTail(e, s.head))
    case LoadTail(e, h) => t == s.(p := if Wrap(s.tail - h) >= CAPACITY then Drop else Write(e, s.tail, 0))
    case Drop => t == s.(dropped := Wrap(s.dropped + 1), rejected := s.rejected + 1, p := Idle)
    case Write(e, tail, k) =>
      && k < |e| && tail % CAPACITY < |s.slots| && k < |s.slots[tail % CAPACITY]|
      && t == s.(slots := Poke(s.slots, tail % CAPACITY, k, e[k]),
                 p := if k + 1 == WORDS then StoreTail(e, tail) else Write(e, tail, k + 1))
    case StoreTail(e, tail) => t == s.(tail := Wrap(tail + 1), accepted := s.accepted + [e], p := Idle)
  }

  function Poke(slots: seq<Event>, i: nat, k: nat, x: Word): seq<Event>
    requires i < |slots| && k < |slots[i]|
  {
    var e: Event := slots[i][k := x];
    slots[i := e]
  }

  ghost predicate Consume(s: State, t: State) {
    match s.c
    case Rest => (exists consume :: t == s.(c := GotHead(consume, s.head))) || t == s.(c := Counting(s.head))
    case GotHead(consume, h) => t == s.(c := if h == s.tail then Rest else Copy(consume, h, []))
    case Copy(consume, h, buf) =>
      && h % CAPACITY < |s.slots| && |buf| < |s.slots[h % CAPACITY]|
      && var b := buf + [s.slots[h % CAPACITY][|buf|]];
         t == s.(c := if |b| == WORDS then Have(consume, h, b) else Copy(consume, h, b))
    case Have(true, h, e) => t == s.(head := Wrap(h + 1), consumed := s.consumed + [e], c := Rest)
    case Have(false, h, e) => t == s.(peeked := s.peeked + [(|s.consumed|, e)], c := Rest)
    case Counting(h) => t == s.(counts := s.counts + [Wrap(s.tail - h)], c := Rest)
  }

  ghost predicate Run(r: seq<State>) {
    r != [] && Init(r[0]) && forall i :: 0 <= i < |r| - 1 ==> Produce(r[i], r[i + 1]) || Consume(r[i], r[i + 1])
  }

  // ---------------------------------------------------------------------------
  // Wrapping.

  lemma WrapSlot(a: nat)
    ensures Wrap(a) % CAPACITY == a % CAPACITY
  {
  }

  lemma WrapNext(a: nat)
    ensures Wrap(Wrap(a) + 1) == Wrap(a + 1)
  {
  }

  lemma WrapDistance(a: nat, c: nat)
    requires c <= a < c + M
    ensures Wrap(Wrap(a) - Wrap(c)) == a - c
    ensures Wrap(a) == Wrap(c) <==> a == c
  {
  }

  lemma SlotsApart(a: nat, b: nat)
    requires a < b < a + CAPACITY
    ensures a % CAPACITY != b % CAPACITY
  {
  }

  // ---------------------------------------------------------------------------
  // The invariant.

  ghost predicate SlotsOk(s: State) {
    && |s.slots| == CAPACITY && (forall i :: 0 <= i < CAPACITY ==> IsEvent(s.slots[i]))
    && forall k :: |s.consumed| <= k < |s.accepted| ==> s.slots[k % CAPACITY] == s.accepted[k]
  }

  ghost predicate CountsOk(s: State) {
    && s.tail == Wrap(|s.accepted|) && s.head == Wrap(|s.consumed|) && s.dropped == Wrap(s.rejected)
    && |s.consumed| <= |s.accepted| <= |s.consumed| + CAPACITY && s.consumed == s.accepted[..|s.consumed|]
    && (forall i :: 0 <= i < |s.accepted| ==> IsEvent(s.accepted[i]))
    && (forall i :: 0 <= i < |s.counts| ==> s.counts[i] <= CAPACITY)
    && (forall i :: 0 <= i < |s.peeked| ==> s.peeked[i].0 < |s.accepted| && s.accepted[s.peeked[i].0] == s.peeked[i].1)
  }

  /** The head a producer works with may be old, but is never ahead, and the room it
      saw is still there. */
  ghost predicate ProducerOk(s: State) {
    var a := |s.accepted|;
    match s.p
    case Idle => true
    case LoadHead(e) => IsEvent(e)
    case LoadTail(e, h) => IsEvent(e) && exists c :: 0 <= c <= |s.consumed| && h == Wrap(c) && a <= c + CAPACITY
    case Drop => true
    case Write(e, tail, k) =>
      && IsEvent(e) && tail == Wrap(a) && a < |s.consumed| + CAPACITY && k < WORDS
      && |s.slots| == CAPACITY && IsEvent(s.slots[a % CAPACITY]) && s.slots[a % CAPACITY][..k] == e[..k]
    case StoreTail(e, tail) =>
      && IsEvent(e) && tail == Wrap(a) && a < |s.consumed| + CAPACITY
      && |s.slots| == CAPACITY && s.slots[a % CAPACITY] == e
  }

  ghost predicate ConsumerOk(s: State) {
    var n := |s.consumed|;
    match s.c
    case Rest => true
    case GotHead(_, h) => h == Wrap(n)
    case Copy(_, h, buf) =>
      h == Wrap(n) && n < |s.accepted| && |buf| < WORDS && |s.accepted[n]| == WORDS && buf == s.accepted[n][..|buf|]
    case Have(_, h, e) => h == Wrap(n) && n < |s.accepted| && e == s.accepted[n]
    case Counting(h) => h == Wrap(n)
  }

  ghost predicate Inv(s: State) {
    SlotsOk(s) && CountsOk(s) && ProducerOk(s) && ConsumerOk(s)
  }

  lemma ProduceKeeps(s: State, t: State)
    requires Inv(s) && Produce(s, t)
    ensures Inv(t)
  {
    var a, n := |s.accepted|, |s.consumed|;
    match s.p
    case Idle =>
    case LoadHead(e) =>
      assert 0 <= n <= |s.consumed| && s.head == Wrap(n) && a <= n + CAPACITY;
    case LoadTail(e, h) =>
      var c :| 0 <= c <= n && h == Wrap(c) && a <= c + CAPACITY;
      WrapDistance(a, c);
    case Drop =>
      WrapNext(s.rejected);
    case Write(e, tail, k) =>
      WrapSlot(a);
      WriteKeeps(s, t, e, k);
    case StoreTail(e, tail) =>
      WrapNext(a);
      StoreKeeps(s, t, e);
  }

  /** The slot being written holds no event still to be consumed. */
  lemma WriteKeeps(s: State, t: State, e: Event, k: nat)
    requires Inv(s) && s.p == Write(e, Wrap(|s.accepted|), k) && |s.accepted| % CAPACITY < |s.slots|
    requires t == s.(slots := Poke(s.slots, |s.accepted| % CAPACITY, k, e[k]),
                     p := if k + 1 == WORDS then StoreTail(e, Wrap(|s.accepted|))
                         else Write(e, Wrap(|s.accepted|), k + 1))
    ensures Inv(t)
  {
    var a, i := |s.accepted|, |s.accepted| % CAPACITY;
    forall j | |s.consumed| <= j < a ensures t.slots[j % CAPACITY] == s.accepted[j] {
      SlotsApart(j, a);
    }
    assert t.slots[i][..k + 1] == s.slots[i][..k] + [e[k]];
    assert e[..k + 1] == e[..k] + [e[k]];
    assert k + 1 == WORDS ==> t.slots[i][..k + 1] == t.slots[i] && e[..k + 1] == e;
  }

  lemma StoreKeeps(s: State, t: State, e: Event)
    requires Inv(s) && s.p == StoreTail(e, Wrap(|s.accepted|))
    requires t == s.(tail := Wrap(|s.accepted| + 1), accepted := s.accepted + [e], p := Idle)
    ensures Inv(t)
  {
    assert t.consumed == t.accepted[..|t.consumed|];
  }

  lemma ConsumeKeeps(s: State, t: State)
    requires Inv(s) && Consume(s, t)
    ensures Inv(t)
  {
    var a, n := |s.accepted|, |s.consumed|;
    match s.c
    case Rest =>
    case GotHead(consume, h) =>
      WrapDistance(a, n);
    case Copy(consume, h, buf) =>
      WrapSlot(n);
      assert s.accepted[n][..|buf| + 1] == s.accepted[n][..|buf|] + [s.accepted[n][|buf|]];
    case Have(consume, h, e) =>
      WrapNext(n);
      HaveKeeps(s, t, e);
    case Counting(h) =>
      WrapDistance(a, n);
  }

  lemma HaveKeeps(s: State, t: State, e: Event)
    requires Inv(s) && s.c.Have? && s.c.e == e && Consume(s, t)
               && t.head == if s.c.consume then Wrap(|s.consumed| + 1) else s.head
    ensures Inv(t)
  {
    var n := |s.consumed|;
    if s.c.consume {
      assert s.accepted[..n + 1] == s.accepted[..n] + [e];
      match s.p
      case LoadTail(x, h) =>
        var c :| 0 <= c <= n && h == Wrap(c) && |s.accepted| <= c + CAPACITY;
        assert 0 <= c <= |t.consumed|;
      case _ =>
    }
  }

  lemma {:induction false} RunKeeps(r: seq<State>, i: nat)
    requires Run(r) && i < |r|
    ensures Inv(r[i])
  {
    if i > 0 {
      RunKeeps(r, i - 1);
      assert Produce(r[i - 1], r[i - 1 + 1]) || Consume(r[i - 1], r[i - 1 + 1]);
      if Produce(r[i - 1], r[i]) {
        ProduceKeeps(r[i - 1], r[i]);
      } else {
        ConsumeKeeps(r[i - 1], r[i]);
      }
    }
  }

  // ---------------------------------------------------------------------------
  // What every run gives.

  /** The consumed events are a prefix of the accepted ones: in order, whole, none lost
      and none twice. At most 64 wait, and `dropped` counts the rejected. */
  lemma ConsumedInOrder(r: seq<State>, i: nat)
    requires Run(r) && i < |r|
    ensures r[i].consumed <= r[i].accepted
    ensures |r[i].accepted| - |r[i].consumed| <= CAPACITY
    ensures r[i].dropped == r[i].rejected % M
    ensures forall k :: 0 <= k < |r[i].counts| ==> r[i].counts[k] <= CAPACITY
  {
    RunKeeps(r, i);
  }

  /** What a peek returned is what the consume at that position returns. */
  lemma PeekIsNext(r: seq<State>, i: nat, k: nat)
    requires Run(r) && i < |r| && k < |r[i].peeked|
    ensures r[i].peeked[k].0 < |r[i].accepted| && r[i].accepted[r[i].peeked[k].0] == r[i].peeked[k].1
    ensures r[i].peeked[k].0 < |r[i].consumed| ==> r[i].consumed[r[i].peeked[k].0] == r[i].peeked[k].1
  {
    RunKeeps(r, i);
  }

  /** The count of pending events is exact when it is taken. */
  lemma PendingIsExact(r: seq<State>, i: nat)
    requires Run(r) && i < |r| && r[i].c.Counting?
    ensures Wrap(r[i].tail - r[i].c.head) == |r[i].accepted| - |r[i].consumed|
  {
    RunKeeps(r, i);
    WrapDistance(|r[i].accepted|, |r[i].consumed|);
  }

  /** Where the producer read the head it works with; it has accepted nothing since. */
  lemma {:induction false} HeadRead(r: seq<State>, i: nat) returns (l: nat)
    requires Run(r) && i < |r| && r[i].p.LoadTail?
    ensures l < i && r[l].p == LoadHead(r[i].p.e) && r[l + 1].p.LoadTail?
    ensures r[i].p.head == r[l].head && r[i].accepted == r[l].accepted
  {
    assert i > 0;
    var s := r[i - 1];
    assert Produce(s, r[i - 1 + 1]) || Consume(s, r[i - 1 + 1]);
    if s.p.LoadTail? && s.p == r[i].p {
      l := HeadRead(r, i - 1);
    } else {
      l := i - 1;
    }
  }

  /** An event is rejected if and only if the ring was full as the head was read. */
  lemma RejectedIffFull(r: seq<State>, i: nat) returns (l: nat)
    requires Run(r) && i + 1 < |r| && r[i].p.LoadTail? && Produce(r[i], r[i + 1])
    ensures l < i && r[l].p == LoadHead(r[i].p.e) && r[l + 1].p.LoadTail?
    ensures r[i + 1].p == Drop <==> |r[l].accepted| == |r[l].consumed| + CAPACITY
  {
    l := HeadRead(r, i);
    RunKeeps(r, l);
    RunKeeps(r, i);
    WrapDistance(|r[l].accepted|, |r[l].consumed|);
  }
}
