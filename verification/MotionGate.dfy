/** The second writer of the coalesced motion: whoever applies an input mask seeds the slot
    with the pointer's position, and opens or shuts the gate that the producer looks at
    before each update. */
module MotionGate {
  import opened Options
  import opened Numbers
  import opened Motion

  /** apply_shared_input_mask: `Seeding` is in update_shared_motion, `Opening` is about to
      set the gate. */
  datatype Seeder = Off | Seeding(w: Writer) | Opening

  /** The producer's update is `s.w`; `past` is an event with which it has passed the gate. */
  datatype Gated = Gated(s: State, past: Option<Value>, d: Seeder, enabled: bool)

  predicate Start(g: Gated) {
    Init(g.s) && g.past == None && g.d == Off && !g.enabled
  }

  // ---------------------------------------------------------------------------
  // Steps.

  /** publish_shared_input_event, for motions. */
  ghost predicate Produce(g: Gated, h: Gated) {
    if g.s.w != Idle then Write(g.s, h.s) && h == g.(s := h.s)
    else match g.past
         case None => g.enabled && exists v :: IsValue(v) && h == g.(past := Some(v))
         case Some(v) => IsValue(v) && h == g.(past := None, s := g.s.(w := LoadSeq(v, true)))
  }

  /** A step of the seeding update leads from `g` to `h`, with `u` what the page becomes. */
  ghost predicate SeedStep(g: Gated, h: Gated, u: State) {
    && g.d.Seeding? && Write(g.s.(w := g.d.w), u)
    && h == g.(s := u.(w := g.s.w), d := if u.w == Idle then Opening else Seeding(u.w))
  }

  /** With an empty mask the gate is shut. With another the slot is seeded, unless the
      pointer cannot be found, and the gate opened. */
  ghost predicate Seed(g: Gated, h: Gated) {
    match g.d
    case Off =>
      || h == g.(enabled := false) || h == g.(d := Opening)
      || exists v :: IsValue(v) && h == g.(d := Seeding(LoadSeq(v, false)))
    case Seeding(_) => exists u :: SeedStep(g, h, u)
    case Opening => h == g.(enabled := true, d := Off)
  }

  ghost predicate Look(g: Gated, h: Gated) {
    Read(g.s, h.s) && h == g.(s := h.s)
  }

  ghost predicate Step(g: Gated, h: Gated) {
    Produce(g, h) || Seed(g, h) || Look(g, h)
  }

  /** Producer, seeder and reader in any interleaving. */
  ghost predicate Trace(r: seq<Gated>) {
    r != [] && Start(r[0]) && forall i :: 0 <= i < |r| - 1 ==> Step(r[i], r[i + 1])
  }

  ghost predicate BoundedTrace(r: seq<Gated>) {
    Trace(r) && forall i :: 0 <= i < |r| ==> Bounded(r[i].s)
  }

  // ---------------------------------------------------------------------------
  // Seedings that find nobody in the slot.

  /** The gate is shut and no producer is past it. */
  predicate Calm(g: Gated) {
    !g.enabled && g.past == None && g.s.w == Idle
  }

  predicate Begins(g: Gated, h: Gated) {
    g.d.Off? && h.d.Seeding?
  }

  ghost predicate CalmTrace(r: seq<Gated>) {
    BoundedTrace(r) && forall i :: 0 <= i < |r| - 1 ==> (Begins(r[i], r[i + 1]) ==> Calm(r[i]))
  }

  lemma StepCalm(g: Gated, h: Gated)
    requires Step(g, h) && (g.d.Seeding? || Begins(g, h) ==> Calm(g))
    ensures h.d.Seeding? ==> Calm(h)
  {
  }

  /** Then the two never write at the same time. */
  lemma {:induction false} OneWriter(r: seq<Gated>, k: nat)
    requires CalmTrace(r) && k < |r|
    ensures r[k].d.Seeding? ==> Calm(r[k])
  {
    hide Step, Start;
    if k == 0 {
      StartsOff(r[0]);
    } else {
      OneWriter(r, k - 1);
      assert Step(r[k - 1], r[k - 1 + 1]) && (Begins(r[k - 1], r[k - 1 + 1]) ==> Calm(r[k - 1]));
      StepCalm(r[k - 1], r[k]);
    }
  }

  lemma StartsOff(g: Gated)
    requires Start(g)
    ensures g.d == Off
  {
  }

  /** The page, with whoever writes as its only writer. */
  function View(g: Gated): State {
    if g.d.Seeding? then g.s.(w := g.d.w) else g.s
  }

  /** Every step is one of the single-writer protocol, or none. */
  lemma StepSeen(g: Gated, h: Gated)
    requires Step(g, h) && (g.d.Seeding? || Begins(g, h) ==> Calm(g))
    ensures View(h) == View(g) || Write(View(g), View(h)) || Read(View(g), View(h))
  {
    if Look(g, h) {
      LookSeen(g, h);
    } else if g.d.Seeding? {
      var u :| SeedStep(g, h, u);
      assert View(h) == u;
    } else if Begins(g, h) {
      assert Write(g.s, View(h));
    } else if Produce(g, h) && g.s.w == Idle && g.past.Some? {
      assert Write(g.s, h.s);
    }
  }

  lemma LookSeen(g: Gated, h: Gated)
    requires Look(g, h)
    ensures Read(View(g), View(h))
  {
    if g.s.r.Rest? {
      var consume :| h.s == g.s.(r := if g.s.serial == g.s.consumedSerial then Rest else Try(consume, 0));
      var begun := Try(consume, 0);
      assert View(h) == View(g).(r := if g.s.serial == g.s.consumedSerial then Rest else begun);
    } else {
      assert View(h) == View(g).(r := h.s.r, consumedSerial := h.s.consumedSerial, delivered := h.s.delivered);
    }
  }

  lemma SameBound(g: Gated)
    requires Bounded(g.s)
    ensures Bounded(View(g))
  {
  }

  /** A run with calm seedings is a run of one writer, seen through the page. */
  lemma {:induction false} CalmIsSerial(r: seq<Gated>, k: nat) returns (m: seq<State>)
    requires CalmTrace(r) && k < |r|
    ensures Run(m) && m[|m| - 1] == View(r[k])
  {
    hide Step, Bounded, Write, Read, Init;
    SameBound(r[k]);
    if k == 0 {
      assert Start(r[0]);
      m := [r[0].s];
    } else {
      m := CalmIsSerial(r, k - 1);
      OneWriter(r, k - 1);
      assert Step(r[k - 1], r[k - 1 + 1]) && (Begins(r[k - 1], r[k - 1 + 1]) ==> Calm(r[k - 1]));
      StepSeen(r[k - 1], r[k]);
      if View(r[k]) != View(r[k - 1]) {
        m := Extend(m, View(r[k]));
      }
    }
  }

  /** So what is read is whole and fresh, with two writers too. */
  lemma CalmReadIsWhole(r: seq<Gated>, k: nat)
    requires CalmTrace(r) && k < |r| && r[k].s.r.Got?
    ensures var s := r[k].s;
            && 0 < s.r.n <= |s.values| && s.r.buf == s.values[s.r.n - 1]
            && s.r.e <= |s.raised| && (s.r.e > 0 ==> s.raised[s.r.e - 1] <= s.r.n)
  {
    var m := CalmIsSerial(r, k);
    ReadIsWholeAndFresh(m, |m| - 1);
  }

  lemma CalmLeavesNothing(r: seq<Gated>, k: nat)
    requires CalmTrace(r) && k < |r| && r[k].s.consumedSerial == r[k].s.serial
    ensures CaughtUp(r[k].s) <==> Since(r[k].s) < M
  {
    var m := CalmIsSerial(r, k);
    NothingLeftToDeliver(m, |m| - 1);
  }

  // ---------------------------------------------------------------------------
  // A seeding through an open gate.

  lemma Go(r: seq<Gated>, h: Gated) returns (r': seq<Gated>)
    requires BoundedTrace(r) && Step(r[|r| - 1], h) && Bounded(h.s)
    ensures BoundedTrace(r') && r' == r + [h]
  {
    hide Step;
    r' := r + [h];
    forall i | 0 <= i < |r'| - 1 ensures Step(r'[i], r'[i + 1]) {
      if i < |r| - 1 {
        assert r'[i] == r[i] && r'[i + 1] == r[i + 1];
      }
    }
  }

  const ZEROS: Value := seq(WORDS, _ => 0)
  const ONES: Value := seq(WORDS, _ => 1)
  const TWOS: Value := seq(WORDS, _ => 2)

  const EMPTY := State(0, 0, ZEROS, 0, Idle, Rest, [], [], [])

  /** The gate is opened, a producer passes it, and both it and a seeder load the sequence
      number before either has raised it. */
  lemma BothInside() returns (r: seq<Gated>)
    ensures BoundedTrace(r)
    ensures r[|r| - 1] == Gated(EMPTY.(w := Enter(ONES, true, 0)), None, Seeding(Enter(TWOS, false, 0)), true)
  {
    var g := Gated(EMPTY, None, Off, false);
    r := [g];
    r := Go(r, g.(d := Opening));
    g := g.(enabled := true);
    r := Go(r, g);
    r := Go(r, g.(past := Some(ONES)));
    g := g.(s := EMPTY.(w := LoadSeq(ONES, true)));
    r := Go(r, g);
    g := g.(s := EMPTY.(w := Enter(ONES, true, 0)));
    assert Write(r[|r| - 1].s, g.s);
    r := Go(r, g);
    assert IsValue(TWOS);
    g := g.(d := Seeding(LoadSeq(TWOS, false)));
    r := Go(r, g);
    var h := g.(d := Seeding(Enter(TWOS, false, 0)));
    assert SeedStep(g, h, EMPTY.(w := Enter(TWOS, false, 0)));
    r := Go(r, h);
  }

  /** What the producer does with its words, the seeder standing by. */
  lemma ProducerWrites(r: seq<Gated>, v: Value, q: nat) returns (r': seq<Gated>)
    requires BoundedTrace(r) && IsValue(v) && r[|r| - 1].s.w == Put(v, true, q, 0) && IsValue(r[|r| - 1].s.words)
    ensures BoundedTrace(r') && r'[|r'| - 1] == r[|r| - 1].(s := r[|r| - 1].s.(words := v, w := Leave(v, true, q)))
  {
    hide Start;
    var g := r[|r| - 1];
    r' := r;
    var words := g.s.words;
    for k := 0 to WORDS
      invariant BoundedTrace(r') && IsValue(words) && words[..k] == v[..k]
      invariant r'[|r'| - 1] == g.(s := g.s.(words := words,
                                             w := if k == WORDS then Leave(v, true, q) else Put(v, true, q, k)))
    {
      assert words[k := v[k]][..k + 1] == words[..k] + [v[k]];
      words := words[k := v[k]];
      var h := g.(s := g.s.(words := words,
                            w := if k + 1 == WORDS then Leave(v, true, q) else Put(v, true, q, k + 1)));
      assert Write(r'[|r'| - 1].s, h.s);
      assert Produce(r'[|r'| - 1], h);
      r' := Go(r', h);
    }
    assert words == words[..WORDS] && v == v[..WORDS];
  }

  /** The producer is done and the sequence number even, and the seeder, which has raised it
      to the same odd value, is about to write. */
  lemma SeederLags() returns (r: seq<Gated>)
    ensures BoundedTrace(r)
    ensures r[|r| - 1] == Gated(State(2, 1, ONES, 0, Idle, Rest, [ONES], [1], []), None,
                                Seeding(Put(TWOS, false, 0, 0)), true)
  {
    hide Start;
    r := BothInside();
    var g := r[|r| - 1];
    g := g.(s := g.s.(mseq := 1, w := Put(ONES, true, 0, 0)));
    assert Write(r[|r| - 1].s, g.s);
    r := Go(r, g);
    r := ProducerWrites(r, ONES, 0);
    g := r[|r| - 1];
    var h := g.(d := Seeding(Put(TWOS, false, 0, 0)));
    assert SeedStep(g, h, g.s.(w := Put(TWOS, false, 0, 0)));
    r := Go(r, h);
    g := h.(s := h.s.(mseq := 2, values := [ONES], w := Raise));
    assert Write(h.s, g.s);
    r := Go(r, g);
    h := g.(s := g.s.(serial := 1, raised := [1], w := Idle));
    assert Write(g.s, h.s);
    r := Go(r, h);
  }

  /** A seeding that begins with the gate open: one update and half another, and a value is
      accepted that was never written, its first word the seeder's. */
  lemma TornBySeeding() returns (r: seq<Gated>)
    ensures BoundedTrace(r) && r[|r| - 1].s.r.Got? && |r[|r| - 1].s.values| == 1
    ensures r[|r| - 1].s.r.buf !in r[|r| - 1].s.values && r[|r| - 1].s.r.buf == ONES[0 := TWOS[0]]
    ensures exists i :: 0 <= i < |r| - 1 && Begins(r[i], r[i + 1]) && !Calm(r[i])
  {
    hide Start;
    r := SeederLags();
    var g := r[|r| - 1];
    var b := Begin(false, 0, 1, 1, 1);
    r := LookOn(r, Try(false, 0));
    r := LookOn(r, GotSerial(b));
    r := LookOn(r, Copy(b, 2, 1, []));
    var words := ONES[0 := 2];
    var h := r[|r| - 1].(s := r[|r| - 1].s.(words := words), d := Seeding(Put(TWOS, false, 0, 1)));
    assert SeedStep(r[|r| - 1], h, h.s.(w := Put(TWOS, false, 0, 1)));
    r := Go(r, h);
    for k := 0 to WORDS
      invariant BoundedTrace(r) && r[|r| - 1] == h.(s := h.s.(r := Copy(b, 2, 1, words[..k])))
    {
      assert words[..k + 1] == words[..k] + [words[k]];
      r := LookOn(r, Copy(b, 2, 1, words[..k + 1]));
    }
    assert words[..WORDS] == words;
    r := LookOn(r, GotSeq(b, 2, 1, words, 2, 1));
    r := LookOn(r, Judge(b, 2, 1, words, 2, 1, 1, 1));
    r := LookOn(r, Got(false, words, 1, 1, 1));
    assert words[0] != ONES[0];
    if CalmTrace(r) {
      CalmReadIsWhole(r, |r| - 1);
    }
  }

  lemma LookOn(r: seq<Gated>, x: Reader) returns (r': seq<Gated>)
    requires BoundedTrace(r) && Read(r[|r| - 1].s, r[|r| - 1].s.(r := x)) && Bounded(r[|r| - 1].s.(r := x))
    ensures BoundedTrace(r') && r' == r + [r[|r| - 1].(s := r[|r| - 1].s.(r := x))]
  {
    hide Read, Start;
    var h := r[|r| - 1].(s := r[|r| - 1].s.(r := x));
    assert Look(r[|r| - 1], h);
    r' := Go(r, h);
  }
}
