/**
 * The week 4 player (week4/project/main.js): `applyScore` parses the score
 * into the `player` object and schedules every voice; `patternToSynth`
 * turns one pattern into note automation calls on a synth.
 */
module Scheduler {
  import opened JsCore
  import opened ScoreParser

  /** The semitone offsets of the three entries of `globalVoices`. */
  const SynthOffsets: seq<int> := [-12, 0, 12]

  /** The offset of synth s of `globalVoices`. */
  function SynthOffset(s: nat): int
  {
    SynthOffsets[s % |SynthOffsets|]
  }

  /** The value `mtof` is given: the variable `midi`, a number or a
      string; `undefined` and objects are NaN once read as numbers, and are
      written as MidiNum(NaN). */
  datatype MidiValue = MidiNum(n: JsNumber) | MidiText(s: string)

  /** `midi` as the arithmetic of `mtof` reads it: a string is read by `Number`. */
  function MidiNumber(m: MidiValue): (n: JsNumber)
    ensures m.MidiNum? ==> n == m.n
    ensures m.MidiText? ==> n == StringToNumber(m.s)
  {
    match m
    case MidiNum(v) => v
    case MidiText(s) => StringToNumber(s)
  }

  /** An automation call on synth number `synth` of `globalVoices`:
      `baseFreq.num.setValueAtTime(mtof(midi), time)`, with `midi` recorded
      as the number the arithmetic of `mtof` reads it as, or
      `carrier.gain.setValueCurveAtTime(adsr, time, duration)`, where the
      curve `adsr` is the same constant for every note. */
  datatype HostCall =
    | SetFreq(synth: nat, midi: JsNumber, time: JsNumber)
    | AmpCurve(synth: nat, time: JsNumber, duration: JsNumber)

  /** A score argument used as a number, as JavaScript's arithmetic
      converts it: a string is read by `Number`, a `{speed}` object is NaN. */
  function ToNum(a: Arg): (n: JsNumber)
    ensures a.Num? ==> n == a.v
    ensures a.Text? ==> n == StringToNumber(a.s)
    ensures a.SpeedArg? ==> n.NaN?
  {
    match a
    case Num(v) => v
    case Text(s) => StringToNumber(s)
    case SpeedArg(_) => NaN
  }

  /** `player.clock` used as a number; None is `undefined`, which is NaN. */
  function ClockValue(clock: Option<Arg>): (n: JsNumber)
    ensures clock.None? ==> n.NaN?
    ensures clock.Some? && clock.value.Num? ==> n == clock.value.v
    ensures clock.Some? && clock.value.Text? ==> n == StringToNumber(clock.value.s)
  {
    match clock
    case None => NaN
    case Some(a) => ToNum(a)
  }

  // ---------------------------------------------------------------------------
  // patternToSynth
  // ---------------------------------------------------------------------------

  /** The arguments of one `patternToSynth` call. */
  datatype PatternCall = PatternCall(synth: nat, clock: JsNumber, pattern: seq<Arg>, scale: seq<Arg>, offset: JsNumber, now: real)

  /** A pattern item whose `typeof` is string or number, as the inner
      loop of `patternToSynth` tells it apart: a number, one of the three
      words it compares with, or any other string. */
  datatype Note = Pitch(v: JsNumber) | SustainNote | RestNote | RandNote | OtherNote

  /** The note an item is, compared as the inner loop compares it. */
  function NoteOf(a: Arg): (n: Note)
    ensures n.Pitch? <==> a.Num?
    ensures n.Pitch? ==> n.v == a.v
    ensures n.SustainNote? <==> a == Text("sustain")
    ensures n.RestNote? <==> a == Text("rest")
    ensures n.RandNote? <==> a == Text("rand")
  {
    match a
    case Num(v) => Pitch(v)
    case Text(s) =>
      if s == "sustain" then SustainNote
      else if s == "rest" then RestNote
      else if s == "rand" then RandNote
      else OtherNote
    case SpeedArg(_) => OtherNote
  }

  /** The items whose `typeof` is string or number, each as a note. */
  function NotesOf(pattern: seq<Arg>): (notes: seq<Note>)
    ensures |notes| <= |pattern|
  {
    if pattern == [] then []
    else (if pattern[0].SpeedArg? then [] else [NoteOf(pattern[0])]) + NotesOf(pattern[1..])
  }

  /** The notes of two parts of a pattern are those of the first part and
      then those of the second. */
  lemma {:induction false} NotesOfAppend(a: seq<Arg>, b: seq<Arg>)
    ensures NotesOf(a + b) == NotesOf(a) + NotesOf(b)
  {
    if a == [] {
      assert a + b == b;
    } else {
      assert (a + b)[0] == a[0] && (a + b)[1..] == a[1..] + b;
      NotesOfAppend(a[1..], b);
    }
  }

  /** A pattern with no `{speed}` item has one note per item, in order. */
  lemma {:induction false} NotesOfPlainPattern(pattern: seq<Arg>)
    requires forall j :: 0 <= j < |pattern| ==> !pattern[j].SpeedArg?
    ensures |NotesOf(pattern)| == |pattern|
    ensures forall j :: 0 <= j < |pattern| ==> NotesOf(pattern)[j] == NoteOf(pattern[j])
  {
    if pattern != [] {
      var rest := pattern[1..];
      assert forall j :: 0 <= j < |rest| ==> rest[j] == pattern[j + 1];
      NotesOfPlainPattern(rest);
    }
  }

  /** A `{speed}` item adds no note. */
  lemma SpeedItemAddsNoNote(a: seq<Arg>, item: Arg, b: seq<Arg>)
    requires item.SpeedArg?
    ensures NotesOf(a + [item] + b) == NotesOf(a) + NotesOf(b)
  {
    assert [item][1..] == [];
    assert NotesOf([item]) == [] + NotesOf([]);
    NotesOfAppend(a, [item]);
    assert NotesOf(a + [item]) == NotesOf(a);
    NotesOfAppend(a + [item], b);
  }

  /** An item that sets the speed: an object whose `speed` is a nonzero number. */
  predicate SetsSpeed(item: Arg)
  {
    item.SpeedArg? && item.speed.Some? && item.speed.value != 0
  }

  /** `speed`: the speed of the last item that sets one, or 1. */
  function PatternSpeed(pattern: seq<Arg>): int
  {
    if pattern == [] then 1
    else if SetsSpeed(pattern[|pattern| - 1]) then pattern[|pattern| - 1].speed.value
    else PatternSpeed(pattern[..|pattern| - 1])
  }

  predicate Silent(note: Note)
  {
    note.SustainNote? || note.RestNote?
  }

  /** The number of `'sustain'` items in a row from position j. */
  function SustainsFrom(notes: seq<Note>, j: nat): nat
    decreases |notes| - j
  {
    if j < |notes| && notes[j].SustainNote? then 1 + SustainsFrom(notes, j + 1) else 0
  }

  /** The number of `'rand'` items among the first i. */
  function RandsIn(notes: seq<Note>, i: nat): nat
    requires i <= |notes|
  {
    if i == 0 then 0 else RandsIn(notes, i - 1) + (if notes[i - 1].RandNote? then 1 else 0)
  }

  /** The position `scale[v % scale.length]` reads: None (undefined) unless
      the remainder is a whole number, which it is for whole v; a negative
      whole v gives a negative remainder except when it is -0. */
  function ScaleIndex(v: JsNumber, len: nat): Option<nat>
    requires len > 0
  {
    if v.Finite? && v.r == v.r.Floor as real then
      var q := JsRem(v.r.Floor, len);
      if q >= 0 then Some(q) else None
    else None
  }

  /** `scale[idx]`; None is `undefined`. */
  function Entry(scale: seq<Arg>, idx: Option<nat>): Option<Arg>
  {
    if idx.Some? && idx.value < |scale| then Some(scale[idx.value]) else None
  }

  /** `scale[idx]` as the value `midi`; `undefined` and objects are NaN. */
  function Lookup(scale: seq<Arg>, idx: Option<nat>): (m: MidiValue)
    ensures Entry(scale, idx).None? ==> m == MidiNum(NaN)
  {
    match Entry(scale, idx)
    case None => MidiNum(NaN)
    case Some(Num(v)) => MidiNum(v)
    case Some(Text(s)) => MidiText(s)
    case Some(SpeedArg(_)) => MidiNum(NaN)
  }

  /** `scale[idx] + synth.offset`: a number entry adds the offset; a
      string entry has the offset's decimal text appended, as `+` on a
      string concatenates; `undefined` gives NaN, and an object gives the
      text `[object Object]` and the offset, which is no number either. */
  function ShiftedMidi(entry: Option<Arg>, offset: int): MidiValue
  {
    match entry
    case None => MidiNum(NaN)
    case Some(Num(v)) => MidiNum(JsAdd(v, Finite(offset as real)))
    case Some(Text(s)) => MidiText(s + IntToString(offset))
    case Some(SpeedArg(_)) => MidiNum(NaN)
  }

  /** `Math.floor(draw * n)` as an index; None outside [0, n). */
  function DrawIndex(draw: real, n: nat): Option<nat>
  {
    var k := (draw * n as real).Floor;
    if 0 <= k < n then Some(k) else None
  }

  /** `n * m`, as repeated addition: the proofs that do not need its value
      then see it as one term (ProductIs gives the value). */
  function Product(n: nat, m: int): (p: int)
    ensures n > 0 && m > 0 ==> p > 0
  {
    if n == 0 then 0 else Product(n - 1, m) + m
  }

  /** `timePerNote = clock / (notes.length * speed)`. */
  function TimePerNote(c: PatternCall): JsNumber
  {
    JsDivide(c.clock, Finite(Product(|NotesOf(c.pattern)|, PatternSpeed(c.pattern)) as real))
  }

  /** `offset + (r / speed * clock)`: where repeat r begins. */
  function RepeatStart(c: PatternCall, r: nat): JsNumber
    requires PatternSpeed(c.pattern) > 0
  {
    JsAdd(c.offset, JsMul(Finite(r as real / PatternSpeed(c.pattern) as real), c.clock))
  }

  /** `base + (i * timePerNote)`: the start of note i of a repeat that
      begins at `base`, for slots of `timePerNote`. */
  function SlotStart(base: JsNumber, i: nat, timePerNote: JsNumber): JsNumber
  {
    JsAdd(base, JsMul(Finite(i as real), timePerNote))
  }

  /** The start of note i in repeat r: `offset + (r / speed * clock) + (i * timePerNote)`. */
  function Start(c: PatternCall, r: nat, i: nat): JsNumber
    requires PatternSpeed(c.pattern) > 0
  {
    SlotStart(RepeatStart(c, r), i, TimePerNote(c))
  }

  /** The length of note i: one `timePerNote` for it and one per `'sustain'`
      right after it, less 0.001. */
  function NoteLength(notes: seq<Note>, i: nat, timePerNote: JsNumber): JsNumber
  {
    JsSub(JsMul(Finite((1 + SustainsFrom(notes, i + 1)) as real), timePerNote), Finite(0.001))
  }

  /** The frequency call of a note played at `time`, if it sets one: a
      number plays `scale[note % scale.length]` moved by the synth's offset,
      `'rand'` plays the scale entry draw `draw` picks, with no offset. */
  function FreqCall(c: PatternCall, note: Note, draw: real, time: JsNumber): (f: seq<HostCall>)
    requires |c.scale| > 0
    ensures |f| <= 1 && (f != [] <==> note.Pitch? || note.RandNote?)
    ensures f != [] ==> f[0].SetFreq? && f[0].synth == c.synth && f[0].time == time
  {
    if note.Pitch? then
      [SetFreq(c.synth, MidiNumber(ShiftedMidi(Entry(c.scale, ScaleIndex(note.v, |c.scale|)), SynthOffset(c.synth))), time)]
    else if note.RandNote? then
      [SetFreq(c.synth, MidiNumber(Lookup(c.scale, DrawIndex(draw, |c.scale|))), time)]
    else []
  }

  /** The calls for note i of `notes`, in a repeat that begins at `base`,
      where draw k is the one a `'rand'` note uses: nothing for an empty
      scale or a `'sustain'` or `'rest'`, else the frequency call and then
      the amplitude curve, at `currentTime + start`. */
  function NoteCalls(c: PatternCall, notes: seq<Note>, rnd: nat -> real, base: JsNumber, timePerNote: JsNumber, i: nat, k: nat): seq<HostCall>
    requires i < |notes|
  {
    var note := notes[i];
    var time := JsAdd(Finite(c.now), SlotStart(base, i, timePerNote));
    if |c.scale| == 0 || Silent(note) then []
    else FreqCall(c, note, rnd(k), time) + [AmpCurve(c.synth, time, NoteLength(notes, i, timePerNote))]
  }

  /** The draws the `'rand'` notes use in r repeats. */
  function RandsBefore(notes: seq<Note>, r: nat): nat
  {
    if r == 0 then 0 else RandsBefore(notes, r - 1) + RandsIn(notes, |notes|)
  }

  /** The draws the `'rand'` notes among the first i use: one each for a
      non-empty scale, and none for an empty one, which returns first. */
  function RandsUsed(c: PatternCall, notes: seq<Note>, i: nat): nat
    requires i <= |notes|
  {
    if |c.scale| > 0 then RandsIn(notes, i) else 0
  }

  /** The draws r repeats use. */
  function RandsBeforeUsed(c: PatternCall, notes: seq<Note>, r: nat): nat
  {
    if |c.scale| > 0 then RandsBefore(notes, r) else 0
  }

  /** The number of draws `patternToSynth` uses. */
  function DrawsUsed(c: PatternCall): nat
  {
    if PatternSpeed(c.pattern) <= 0 then 0
    else RandsBeforeUsed(c, NotesOf(c.pattern), PatternSpeed(c.pattern))
  }

  /** One pass of the note loop of `patternToSynth`: the draws it uses
      before its first call, and the calls it makes when none throws. */
  datatype Visit = Visit(uses: nat, calls: seq<HostCall>)

  /** The pass for note i from draw k: a `'rand'` note of a non-empty scale
      uses draw k. */
  function NoteVisit(c: PatternCall, notes: seq<Note>, rnd: nat -> real, base: JsNumber, timePerNote: JsNumber, i: nat, k: nat): Visit
    requires i < |notes|
  {
    Visit(if |c.scale| > 0 && notes[i].RandNote? then 1 else 0, NoteCalls(c, notes, rnd, base, timePerNote, i, k))
  }

  /** The passes for the notes of a repeat that begins at `base`, from
      first draw k: note j draws after the `'rand'` notes before it. */
  function RepeatVisits(c: PatternCall, notes: seq<Note>, rnd: nat -> real, base: JsNumber, timePerNote: JsNumber, k: nat): (vs: seq<Visit>)
    ensures |vs| == |notes|
  {
    seq(|notes|, j requires 0 <= j < |notes| => NoteVisit(c, notes, rnd, base, timePerNote, j, k + RandsUsed(c, notes, j)))
  }

  /** The passes for repeats 0..r-1 of `notes`, from first draw k0. */
  function PlanVisits(c: PatternCall, notes: seq<Note>, rnd: nat -> real, timePerNote: JsNumber, k0: nat, r: nat): seq<Visit>
    requires PatternSpeed(c.pattern) > 0
  {
    if r == 0 then []
    else PlanVisits(c, notes, rnd, timePerNote, k0, r - 1)
         + RepeatVisits(c, notes, rnd, RepeatStart(c, r - 1), timePerNote, k0 + RandsBeforeUsed(c, notes, r - 1))
  }

  /** Every pass of `patternToSynth`, from first draw k0. */
  function Visits(c: PatternCall, rnd: nat -> real, k0: nat): seq<Visit>
  {
    if PatternSpeed(c.pattern) <= 0 then []
    else PlanVisits(c, NotesOf(c.pattern), rnd, TimePerNote(c), k0, PatternSpeed(c.pattern))
  }

  /** The calls of some passes, in order. */
  function CallsOf(vs: seq<Visit>): seq<HostCall>
  {
    if vs == [] then [] else CallsOf(vs[..|vs| - 1]) + vs[|vs| - 1].calls
  }

  /** The draws some passes use. */
  function UsesOf(vs: seq<Visit>): nat
  {
    if vs == [] then 0 else UsesOf(vs[..|vs| - 1]) + vs[|vs| - 1].uses
  }

  /** Every call `patternToSynth` makes when the host accepts them all, in
      order, from first draw k0. */
  function Plan(c: PatternCall, rnd: nat -> real, k0: nat): seq<HostCall>
  {
    CallsOf(Visits(c, rnd, k0))
  }

  // ---------------------------------------------------------------------------
  // What the host accepts
  // ---------------------------------------------------------------------------

  /** Whether the Web Audio host makes a call rather than throwing:
      `setValueAtTime` needs a finite value, which `mtof` gives when `midi`
      reads as a finite number or as -Infinity (it is 0), at a finite time
      that is not negative; `setValueCurveAtTime` needs a finite start that is not
      negative and a finite duration above 0. */
  predicate Accepts(h: HostCall)
  {
    match h
    case SetFreq(_, midi, time) => (midi.Finite? || midi.NegInf?) && time.Finite? && time.r >= 0.0
    case AmpCurve(_, time, duration) => time.Finite? && time.r >= 0.0 && duration.Finite? && duration.r > 0.0
  }

  /** The position of the first call the host rejects; |calls| when it
      accepts them all. */
  function FirstRejected(calls: seq<HostCall>): (n: nat)
    ensures n <= |calls|
  {
    if calls == [] || !Accepts(calls[0]) then 0 else 1 + FirstRejected(calls[1..])
  }

  /** The host accepts every call before the first rejected one, and
      rejects that one. */
  lemma {:induction false} FirstRejectedIsFirst(calls: seq<HostCall>)
    ensures var n := FirstRejected(calls);
            (forall j :: 0 <= j < n ==> Accepts(calls[j])) && (n < |calls| ==> !Accepts(calls[n]))
  {
    if calls != [] && Accepts(calls[0]) {
      FirstRejectedIsFirst(calls[1..]);
      assert forall j :: 1 <= j < |calls| ==> calls[j] == calls[1..][j - 1];
    }
  }

  /** What the scheduling pass has done: the calls made, whether it ran to
      the end (false when it threw), and the draws used so far. */
  datatype Run = Run(calls: seq<HostCall>, complete: bool, draws: nat)

  /** Runs a first part and, when it completed, the rest after it. */
  function Then(done: seq<HostCall>, rest: Run): Run
  {
    Run(done + rest.calls, rest.complete, rest.draws)
  }

  /** Making calls in order: those before the first rejected one are made,
      and the rejected one throws. */
  function Perform(calls: seq<HostCall>, draws: nat): Run
  {
    var n := FirstRejected(calls);
    Run(calls[..n], n == |calls|, draws)
  }

  /** A first part and then, unless it threw, the rest. */
  function Chain(first: Run, rest: Run): Run
  {
    if first.complete then Then(first.calls, rest) else first
  }

  /** Making passes in order from draw k: each uses its draws and then
      makes its calls up to the first one the host rejects, which throws
      and ends the run. */
  function RunOf(vs: seq<Visit>, k: nat): Run
  {
    if vs == [] then Run([], true, k)
    else
      var p := RunOf(vs[..|vs| - 1], k);
      var v := vs[|vs| - 1];
      Chain(p, Perform(v.calls, p.draws + v.uses))
  }

  /** What `patternToSynth` does from draw k0: its passes up to the first
      call that throws. */
  function PlanRun(c: PatternCall, rnd: nat -> real, k0: nat): Run
  {
    RunOf(Visits(c, rnd, k0), k0)
  }

  // ---------------------------------------------------------------------------
  // applyScore
  // ---------------------------------------------------------------------------

  /** The fields of `player`; `order` is the order of `Object.keys(player.patterns)`. */
  datatype PlayerState = PlayerState(
    notes: seq<Arg>,
    clock: Option<Arg>,
    patterns: map<string, seq<Arg>>,
    order: seq<string>,
    voices: seq<seq<Arg>>)

  /** `player.patterns[op.label]`'s key; a missing label is "undefined". */
  function PatternKey(op: ScoreLine): string
  {
    if op.tag.Some? then op.tag.value else "undefined"
  }

  /** `player.clock = op.arguments[0]`; None is `undefined`. */
  function FirstArg(args: seq<Arg>): Option<Arg>
  {
    if |args| > 0 then Some(args[0]) else None
  }

  /** One pass of the dispatch loop of `applyScore`: `notes`, `pattern`,
      `clock` and `voice` ops set their field; every other op does nothing. */
  function DispatchOne(st: PlayerState, op: ScoreLine): PlayerState
  {
    var key := PatternKey(op);
    PlayerState(
      if op.op == Notes then op.args else st.notes,
      if op.op == Clock then FirstArg(op.args) else st.clock,
      if op.op == Pattern then st.patterns[key := op.args] else st.patterns,
      if op.op == Pattern && key !in st.patterns then st.order + [key] else st.order,
      if op.op == Voice then st.voices + [op.args] else st.voices)
  }

  /** The dispatch loop over the parsed score. */
  function Dispatch(st: PlayerState, ops: seq<ScoreLine>): PlayerState
  {
    if ops == [] then st else DispatchOne(Dispatch(st, ops[..|ops| - 1]), ops[|ops| - 1])
  }

  /** `player.patterns = {}; player.voices = [];` */
  function Reset(st: PlayerState): PlayerState
  {
    st.(patterns := map[], order := [], voices := [])
  }

  /** `split('.').pop()`. */
  function LastPiece(s: string): string
  {
    var parts := Split(s, '.');
    parts[|parts| - 1]
  }

  /** The pattern a voice slot names and the draws used to find it. */
  function SlotPattern(st: PlayerState, s: string, rnd: nat -> real, k: nat): (Option<seq<Arg>>, nat)
  {
    if s == "rand" then
      var idx := DrawIndex(rnd(k), |st.order|);
      if idx.Some? && st.order[idx.value] in st.patterns then (Some(st.patterns[st.order[idx.value]]), k + 1)
      else (None, k + 1)
    else if Contains(s, "pattern") && LastPiece(s) in st.patterns then (Some(st.patterns[LastPiece(s)]), k)
    else (None, k)
  }

  /** The `patternToSynth` call for slot i of voice v with pattern p. */
  function SlotCall(st: PlayerState, v: nat, i: nat, p: seq<Arg>, now: real): PatternCall
  {
    var clock := ClockValue(st.clock);
    PatternCall(v % |SynthOffsets|, clock, p, st.notes, JsMul(Finite(i as real), clock), now)
  }

  /** What slot i of voice v does: `'rest'` nothing; an item that is not a
      string throws (it has no `includes`); a string naming a pattern
      schedules it at offset `i * clock` on synth `v % 3`. */
  function SlotRun(st: PlayerState, v: nat, i: nat, rnd: nat -> real, k: nat, now: real): Run
    requires v < |st.voices| && i < |st.voices[v]|
  {
    var item := st.voices[v][i];
    if item == Text("rest") then Run([], true, k)
    else if !item.Text? then Run([], false, k)
    else
      var (p, k1) := SlotPattern(st, item.s, rnd, k);
      if p.None? then Run([], true, k1)
      else
        PlanRun(SlotCall(st, v, i, p.value, now), rnd, k1)
  }

  /** The scheduling pass from slot i of voice v on. */
  function VoicesFrom(st: PlayerState, v: nat, i: nat, rnd: nat -> real, k: nat, now: real): Run
    decreases |st.voices| - v, if v < |st.voices| then |st.voices[v]| - i else 0
  {
    if v >= |st.voices| then Run([], true, k)
    else if i >= |st.voices[v]| then VoicesFrom(st, v + 1, 0, rnd, k, now)
    else
      var s := SlotRun(st, v, i, rnd, k, now);
      if !s.complete then s else Then(s.calls, VoicesFrom(st, v, i + 1, rnd, s.draws, now))
  }

  /** The first loop of `patternToSynth`. */
  method ReadSpeed(pattern: seq<Arg>) returns (speed: int)
    ensures speed == PatternSpeed(pattern)
  {
    speed := 1;
    var j := 0;
    while j < |pattern|
      invariant 0 <= j <= |pattern|
      invariant speed == PatternSpeed(pattern[..j])
    {
      var item := pattern[j];
      if item.SpeedArg? && item.speed.Some? && item.speed.value != 0 {
        speed := item.speed.value;
      }
      assert pattern[..j + 1][..j] == pattern[..j];
      j := j + 1;
    }
    assert pattern[..j] == pattern;
  }

  /** `timePerNote` of `patternToSynth`. */
  method ComputeTimePerNote(c: PatternCall, n: nat, speed: int) returns (timePerNote: JsNumber)
    requires n == |NotesOf(c.pattern)| && speed == PatternSpeed(c.pattern)
    ensures timePerNote == TimePerNote(c)
  {
    timePerNote := JsDivide(c.clock, Finite((n * speed) as real));
    ProductIs(n, speed);
  }

  /** The `noteLength` loop of `patternToSynth`: one `timePerNote` for the
      note and one for each `'sustain'` right after it. */
  method SustainedLength(ns: seq<Note>, i: nat, timePerNote: JsNumber) returns (noteLength: JsNumber)
    requires i < |ns|
    ensures noteLength == JsMul(Finite((1 + SustainsFrom(ns, i + 1)) as real), timePerNote)
  {
    noteLength := timePerNote;
    var m := 1;
    JsMulOne(timePerNote);
    while i + m < |ns| && ns[i + m].SustainNote?
      invariant 1 <= m && i + m <= |ns|
      invariant noteLength == JsMul(Finite(m as real), timePerNote)
      invariant SustainsFrom(ns, i + 1) == m - 1 + SustainsFrom(ns, i + m)
    {
      MulStep(m, timePerNote);
      noteLength := JsAdd(noteLength, timePerNote);
      m := m + 1;
    }
  }

  /** One times a number is the number. */
  lemma JsMulOne(t: JsNumber)
    ensures JsMul(Finite(1.0), t) == t
  {
  }

  /** `player`, with the automation calls made so far and the number of
      `Math.random` draws used (the draws are the values of `rnd`). */
  class Player {
    var notes: seq<Arg>
    var clock: Option<Arg>
    var patterns: map<string, seq<Arg>>
    var order: seq<string>
    var voices: seq<seq<Arg>>
    var log: seq<HostCall>
    var draws: nat

    function State(): PlayerState
      reads this
    {
      PlayerState(notes, clock, patterns, order, voices)
    }

    constructor ()
      ensures State() == PlayerState([], Some(Num(Finite(250.0))), map[], [], [])
      ensures log == [] && draws == 0
    {
      notes := [];
      clock := Some(Num(Finite(250.0)));
      patterns := map[];
      order := [];
      voices := [];
      log := [];
      draws := 0;
    }

    /** `patternToSynth`; the result is false when a call threw. */
    method PatternToSynth(c: PatternCall, rnd: nat -> real) returns (ok: bool)
      modifies this
      ensures var run := PlanRun(c, rnd, old(draws));
              log == old(log) + run.calls && draws == run.draws && ok == run.complete
      ensures State() == old(State())
    {
      ghost var k0 := draws;
      var speed := ReadSpeed(c.pattern);
      var ns := NotesOf(c.pattern);
      var timePerNote := ComputeTimePerNote(c, |ns|, speed);
      if |c.scale| == 0 {
        // Every note returns before making a call.
        EmptyScaleRun(c, rnd, k0);
        assert log == old(log) + [];
        return true;
      }
      if speed <= 0 {
        // The repeat loop does not run.
        assert log == old(log) + [];
        return true;
      }
      ok := PlayRepeats(c, ns, rnd, timePerNote, k0);
    }

    /** After r repeats that have not thrown: the log holds their calls
        after `log0`, and the draws are those they used. */
    ghost predicate RepeatsPlayed(c: PatternCall, ns: seq<Note>, rnd: nat -> real, timePerNote: JsNumber, k0: nat, r: nat, log0: seq<HostCall>)
      requires PatternSpeed(c.pattern) > 0
      reads this
    {
      var run := RunOf(PlanVisits(c, ns, rnd, timePerNote, k0, r), k0);
      run.complete && log == log0 + run.calls && draws == run.draws && draws == k0 + RandsBeforeUsed(c, ns, r)
    }

    /** The repeat loop of `patternToSynth` over the notes `ns`, for a
        non-empty scale. It computes `offset + (r / speed * clock)`, the
        first two terms of `start`, once per repeat. */
    method PlayRepeats(c: PatternCall, ns: seq<Note>, rnd: nat -> real, timePerNote: JsNumber, ghost k0: nat) returns (ok: bool)
      requires PatternSpeed(c.pattern) > 0 && |c.scale| > 0 && draws == k0
      modifies this
      ensures var run := RunOf(PlanVisits(c, ns, rnd, timePerNote, k0, PatternSpeed(c.pattern)), k0);
              log == old(log) + run.calls && draws == run.draws && ok == run.complete
      ensures State() == old(State())
    {
      var speed := PatternSpeed(c.pattern);
      var r := 0;
      assert old(log) + [] == log;
      while r < speed
        invariant 0 <= r <= speed
        invariant RepeatsPlayed(c, ns, rnd, timePerNote, k0, r, old(log))
        invariant State() == old(State())
      {
        ok := NextRepeat(c, ns, rnd, timePerNote, k0, r, old(log));
        if !ok {
          return;
        }
        r := r + 1;
      }
      return true;
    }

    /** One pass of the repeat loop: repeat r begins at `offset + (r / speed * clock)`.
        When it throws, the later repeats do not run. */
    method NextRepeat(c: PatternCall, ns: seq<Note>, rnd: nat -> real, timePerNote: JsNumber, ghost k0: nat, r: nat, ghost log0: seq<HostCall>)
      returns (ok: bool)
      requires PatternSpeed(c.pattern) > 0 && |c.scale| > 0 && r < PatternSpeed(c.pattern)
      requires RepeatsPlayed(c, ns, rnd, timePerNote, k0, r, log0)
      modifies this
      ensures ok ==> RepeatsPlayed(c, ns, rnd, timePerNote, k0, r + 1, log0)
      ensures !ok ==> var run := RunOf(PlanVisits(c, ns, rnd, timePerNote, k0, PatternSpeed(c.pattern)), k0);
                      log == log0 + run.calls && draws == run.draws && !run.complete
      ensures State() == old(State())
    {
      ghost var p := RunOf(PlanVisits(c, ns, rnd, timePerNote, k0, r), k0);
      var base := RepeatStart(c, r);
      ghost var k := draws;
      ok := PlayRepeat(c, ns, rnd, base, timePerNote, draws);
      ghost var q := RunOf(RepeatVisits(c, ns, rnd, base, timePerNote, k), k);
      RepeatExtends(c, ns, rnd, timePerNote, k0, r);
      RandsBeforeUsedNext(c, ns, r);
      AppendAssoc(log0, p.calls, q.calls);
      if !ok {
        RepeatEndsPass(c, ns, rnd, timePerNote, k0, r);
      }
    }

    /** One pass of the outer loop of `patternToSynth`: the notes `ns` of a
        repeat that begins at `base`, for a non-empty scale. */
    method PlayRepeat(c: PatternCall, ns: seq<Note>, rnd: nat -> real, base: JsNumber, timePerNote: JsNumber, ghost k: nat)
      returns (ok: bool)
      requires |c.scale| > 0 && draws == k
      modifies this
      ensures var run := RunOf(RepeatVisits(c, ns, rnd, base, timePerNote, k), k);
              log == old(log) + run.calls && draws == run.draws && ok == run.complete
      ensures ok ==> draws == k + RandsUsed(c, ns, |ns|)
      ensures State() == old(State())
    {
      ghost var vs := RepeatVisits(c, ns, rnd, base, timePerNote, k);
      var i := 0;
      while i < |ns|
        invariant 0 <= i <= |ns|
        invariant RunOf(vs[..i], k).complete
        invariant log == old(log) + RunOf(vs[..i], k).calls
        invariant draws == RunOf(vs[..i], k).draws
        invariant draws == k + RandsUsed(c, ns, i)
        invariant State() == old(State())
      {
        ok := NextNote(c, ns, rnd, base, timePerNote, k, i, old(log));
        if !ok {
          RunOfPrefixStopped(vs, i + 1, k);
          return;
        }
        i := i + 1;
      }
      assert vs[..i] == vs;
      return true;
    }

    /** One pass of the inner loop: note i extends the repeat's run. */
    method NextNote(c: PatternCall, ns: seq<Note>, rnd: nat -> real, base: JsNumber, timePerNote: JsNumber, ghost k: nat, i: nat, ghost log0: seq<HostCall>)
      returns (ok: bool)
      requires i < |ns| && |c.scale| > 0
      requires RunOf(RepeatVisits(c, ns, rnd, base, timePerNote, k)[..i], k).complete
      requires log == log0 + RunOf(RepeatVisits(c, ns, rnd, base, timePerNote, k)[..i], k).calls
      requires draws == RunOf(RepeatVisits(c, ns, rnd, base, timePerNote, k)[..i], k).draws
      requires draws == k + RandsUsed(c, ns, i)
      modifies this
      ensures var run := RunOf(RepeatVisits(c, ns, rnd, base, timePerNote, k)[..i + 1], k);
              log == log0 + run.calls && draws == run.draws && ok == run.complete
      ensures ok ==> draws == k + RandsUsed(c, ns, i + 1)
      ensures State() == old(State())
    {
      ghost var vs := RepeatVisits(c, ns, rnd, base, timePerNote, k);
      ghost var mid := log;
      assert vs[i] == NoteVisit(c, ns, rnd, base, timePerNote, i, draws);
      ok := PlayNote(c, ns, rnd, base, i, timePerNote, draws);
      RandsUsedNext(c, ns, i);
      LogAfterVisit(vs, i, k, log0, mid, log, draws, ok);
    }

    /** One pass of the inner loop of `patternToSynth`: note i of `ns`, for
        a non-empty scale. The result is false when a call threw. */
    method PlayNote(c: PatternCall, ns: seq<Note>, rnd: nat -> real, base: JsNumber, i: nat, timePerNote: JsNumber, ghost d: nat)
      returns (ok: bool)
      requires i < |ns| && |c.scale| > 0 && draws == d
      modifies this
      ensures var v := NoteVisit(c, ns, rnd, base, timePerNote, i, d);
              var run := Perform(v.calls, d + v.uses);
              log == old(log) + run.calls && draws == run.draws && ok == run.complete
      ensures State() == old(State())
    {
      var note := ns[i];
      if Silent(note) {
        assert log == old(log) + [];
        return true;
      }
      var noteLength := SustainedLength(ns, i, timePerNote);
      noteLength := JsSub(noteLength, Finite(0.001));
      var start := JsAdd(base, JsMul(Finite(i as real), timePerNote));
      var time := JsAdd(Finite(c.now), start);
      ghost var freq := FreqCall(c, note, rnd(draws), time);
      ghost var d1 := d + (if note.RandNote? then 1 else 0);
      var amp := AmpCurve(c.synth, time, noteLength);
      assert NoteCalls(c, ns, rnd, base, timePerNote, i, d) == freq + [amp];
      PerformStep(amp, [], d1);
      if note.Pitch? || note.RandNote? {
        var midi: MidiValue;
        if note.Pitch? {
          midi := ShiftedMidi(Entry(c.scale, ScaleIndex(note.v, |c.scale|)), SynthOffset(c.synth));
        } else {
          midi := Lookup(c.scale, DrawIndex(rnd(draws), |c.scale|));
          draws := draws + 1;
        }
        var call := SetFreq(c.synth, MidiNumber(midi), time);
        assert freq == [call];
        PerformStep(call, [amp], d1);
        if !Accepts(call) {
          return false;
        }
        log := log + [call];
      } else {
        assert freq == [];
      }
      if !Accepts(amp) {
        return false;
      }
      log := log + [amp];
      return true;
    }

    /** `applyScore`: reset `patterns` and `voices`, dispatch the parsed
        score into the player, then schedule every voice. The result is
        false when scheduling threw. */
    method ApplyScore(text: string, now: real, rnd: nat -> real) returns (completed: bool)
      modifies this
      ensures State() == Dispatch(Reset(old(State())), ParseScore(text))
      ensures var run := VoicesFrom(State(), 0, 0, rnd, old(draws), now);
              log == old(log) + run.calls && draws == run.draws && completed == run.complete
    {
      var score := ParseScore(text);
      LoadScore(score);
      completed := ScheduleVoices(now, rnd);
    }

    /** The reset and the dispatch loop of `applyScore`. */
    method LoadScore(score: seq<ScoreLine>)
      modifies this
      ensures State() == Dispatch(Reset(old(State())), score)
      ensures log == old(log) && draws == old(draws)
    {
      patterns := map[];
      order := [];
      voices := [];
      ghost var st0 := State();
      var j := 0;
      while j < |score|
        invariant 0 <= j <= |score|
        invariant State() == Dispatch(st0, score[..j])
        invariant log == old(log) && draws == old(draws)
      {
        var op := score[j];
        if op.op == Notes {
          notes := op.args;
        }
        if op.op == Pattern {
          var key := PatternKey(op);
          if key !in patterns {
            order := order + [key];
          }
          patterns := patterns[key := op.args];
        }
        if op.op == Clock {
          clock := FirstArg(op.args);
        }
        if op.op == Voice {
          voices := voices + [op.args];
        }
        assert score[..j + 1][..j] == score[..j];
        j := j + 1;
      }
      assert score[..j] == score;
    }

    /** The `player.voices.forEach` pass of `applyScore`. */
    method ScheduleVoices(now: real, rnd: nat -> real) returns (completed: bool)
      modifies this
      ensures State() == old(State())
      ensures var run := VoicesFrom(State(), 0, 0, rnd, old(draws), now);
              log == old(log) + run.calls && draws == run.draws && completed == run.complete
    {
      ghost var st := State();
      ghost var whole := VoicesFrom(st, 0, 0, rnd, draws, now);
      ghost var done: seq<HostCall> := [];
      assert whole == Then(done, whole);
      var v := 0;
      while v < |voices|
        invariant State() == st && 0 <= v <= |voices|
        invariant log == old(log) + done
        invariant whole == Then(done, VoicesFrom(st, v, 0, rnd, draws, now))
      {
        var i := 0;
        while i < |voices[v]|
          invariant State() == st && 0 <= i <= |voices[v]|
          invariant log == old(log) + done
          invariant whole == Then(done, VoicesFrom(st, v, i, rnd, draws, now))
        {
          ghost var slot := SlotRun(st, v, i, rnd, draws, now);
          var ok := PlaySlot(v, i, now, rnd);
          AppendAssoc(old(log), done, slot.calls);
          if !ok {
            assert whole == Then(done, slot);
            return false;
          }
          ThenThen(done, slot.calls, VoicesFrom(st, v, i + 1, rnd, draws, now));
          done := done + slot.calls;
          i := i + 1;
        }
        v := v + 1;
      }
      assert whole == Then(done, Run([], true, draws));
      return true;
    }

    /** One pass of the inner loop of `applyScore`: slot i of voice v. The
        result is false when the slot throws. */
    method PlaySlot(v: nat, i: nat, now: real, rnd: nat -> real) returns (ok: bool)
      requires v < |voices| && i < |voices[v]|
      modifies this
      ensures State() == old(State())
      ensures var s := SlotRun(State(), v, i, rnd, old(draws), now);
              log == old(log) + s.calls && draws == s.draws && ok == s.complete
    {
      var item := voices[v][i];
      if item == Text("rest") {
        assert log == old(log) + [];
        return true;
      }
      if !item.Text? {
        assert log == old(log) + [];
        return false;
      }
      var pattern: Option<seq<Arg>> := None;
      if Contains(item.s, "pattern") {
        var name := LastPiece(item.s);
        if name in patterns {
          pattern := Some(patterns[name]);
        }
      }
      if item.s == "rand" {
        var idx := DrawIndex(rnd(draws), |order|);
        draws := draws + 1;
        pattern := if idx.Some? && order[idx.value] in patterns then Some(patterns[order[idx.value]]) else None;
      }
      assert (pattern, draws) == SlotPattern(State(), item.s, rnd, old(draws));
      if pattern.Some? {
        ok := PatternToSynth(SlotCall(State(), v, i, pattern.value, now), rnd);
      } else {
        assert log == old(log) + [];
        ok := true;
      }
    }
  }

  /** Running a first part and then the rest, in two steps or in one. */
  lemma ThenThen(a: seq<HostCall>, b: seq<HostCall>, rest: Run)
    ensures Then(a, Then(b, rest)) == Then(a + b, rest)
  {
    AppendAssoc(a, b, rest.calls);
  }

  /** Making a first call and then the rest: the call is made when the
      host accepts it, and otherwise it throws and nothing is made. */
  lemma PerformStep(h: HostCall, rest: seq<HostCall>, d: nat)
    ensures Perform([h] + rest, d) == if Accepts(h) then Then([h], Perform(rest, d)) else Run([], false, d)
    ensures Perform([], d) == Run([], true, d)
  {
    var s := [h] + rest;
    assert s[1..] == rest;
    if Accepts(h) {
      assert s[..1 + FirstRejected(rest)] == [h] + rest[..FirstRejected(rest)];
    }
  }

  /** A run made of some calls: those before the first rejected one, and
      complete exactly when none is rejected. */
  predicate StopsAtFirstRejected(run: Run, calls: seq<HostCall>)
  {
    run.calls == calls[..FirstRejected(calls)] && (run.complete <==> FirstRejected(calls) == |calls|)
  }

  lemma {:induction false} FirstRejectedAppend(a: seq<HostCall>, b: seq<HostCall>)
    ensures FirstRejected(a + b) == if FirstRejected(a) < |a| then FirstRejected(a) else |a| + FirstRejected(b)
  {
    if a == [] {
      assert a + b == b;
    } else {
      assert (a + b)[0] == a[0] && (a + b)[1..] == a[1..] + b;
      FirstRejectedAppend(a[1..], b);
    }
  }

  /** A rejected call comes no earlier than the first rejected one. */
  lemma {:induction false} FirstRejectedBefore(calls: seq<HostCall>, m: nat)
    requires m < |calls| && !Accepts(calls[m])
    ensures FirstRejected(calls) <= m
  {
    if Accepts(calls[0]) {
      assert calls[1..][m - 1] == calls[m];
      FirstRejectedBefore(calls[1..], m - 1);
    }
  }

  /** Chaining runs of two lists of calls runs the two lists one after the other. */
  lemma ChainStops(p: Run, a: seq<HostCall>, q: Run, b: seq<HostCall>)
    requires StopsAtFirstRejected(p, a)
    requires p.complete ==> StopsAtFirstRejected(q, b)
    ensures StopsAtFirstRejected(Chain(p, q), a + b)
  {
    FirstRejectedAppend(a, b);
    if p.complete {
      assert a[..|a|] == a;
      assert (a + b)[..|a| + FirstRejected(b)] == a + b[..FirstRejected(b)];
    } else {
      assert (a + b)[..FirstRejected(a)] == a[..FirstRejected(a)];
    }
  }

  /** A complete first part followed by two more, grouped either way. */
  lemma ThenChain(a: seq<HostCall>, q: Run, r: Run)
    ensures Chain(Then(a, q), r) == Then(a, Chain(q, r))
  {
    if q.complete {
      AppendAssoc(a, q.calls, r.calls);
    }
  }

  /** Where pass i of vs leaves the log and the draws when the passes
      before it completed. */
  lemma LogAfterVisit(vs: seq<Visit>, i: nat, k: nat, log0: seq<HostCall>, mid: seq<HostCall>,
                      log: seq<HostCall>, draws: nat, ok: bool)
    requires i < |vs| && RunOf(vs[..i], k).complete
    requires mid == log0 + RunOf(vs[..i], k).calls
    requires var run := Perform(vs[i].calls, RunOf(vs[..i], k).draws + vs[i].uses);
             log == mid + run.calls && draws == run.draws && ok == run.complete
    ensures var run := RunOf(vs[..i + 1], k);
            log == log0 + run.calls && draws == run.draws && ok == run.complete
  {
    var p := RunOf(vs[..i], k);
    assert vs[..i + 1] == vs[..i] + [vs[i]];
    RunOfSnoc(vs[..i], vs[i], k);
    AppendAssoc(log0, p.calls, Perform(vs[i].calls, p.draws + vs[i].uses).calls);
  }

  lemma RunOfSnoc(vs: seq<Visit>, v: Visit, k: nat)
    ensures var p := RunOf(vs, k);
            RunOf(vs + [v], k) == Chain(p, Perform(v.calls, p.draws + v.uses))
  {
    assert (vs + [v])[..|vs|] == vs;
  }

  lemma CallsOfSnoc(vs: seq<Visit>, v: Visit)
    ensures CallsOf(vs + [v]) == CallsOf(vs) + v.calls
  {
    assert (vs + [v])[..|vs|] == vs;
  }

  lemma UsesOfSnoc(vs: seq<Visit>, v: Visit)
    ensures UsesOf(vs + [v]) == UsesOf(vs) + v.uses
  {
    assert (vs + [v])[..|vs|] == vs;
  }

  /** Making passes stops at the first of their calls the host rejects,
      and a run to the end has used every pass's draws. */
  lemma {:induction false} RunOfStops(vs: seq<Visit>, k: nat)
    ensures StopsAtFirstRejected(RunOf(vs, k), CallsOf(vs))
    ensures RunOf(vs, k).complete ==> RunOf(vs, k).draws == k + UsesOf(vs)
  {
    if vs != [] {
      var a := vs[..|vs| - 1];
      var v := vs[|vs| - 1];
      RunOfStops(a, k);
      var p := RunOf(a, k);
      ChainStops(p, CallsOf(a), Perform(v.calls, p.draws + v.uses), v.calls);
    }
  }

  /** Making passes a and then b is making a and then, unless a threw,
      making b from the draw a left off at. */
  lemma {:induction false} RunOfAppend(a: seq<Visit>, b: seq<Visit>, k: nat)
    ensures RunOf(a + b, k) == Chain(RunOf(a, k), RunOf(b, RunOf(a, k).draws))
    decreases |b|
  {
    var p := RunOf(a, k);
    if b == [] {
      assert a + b == a;
      assert p.complete ==> p.calls + [] == p.calls;
    } else {
      var init := b[..|b| - 1];
      var v := b[|b| - 1];
      assert b == init + [v];
      assert a + b == (a + init) + [v];
      RunOfAppend(a, init, k);
      RunOfSnoc(a + init, v, k);
      RunOfSnoc(init, v, p.draws);
      var q := RunOf(init, p.draws);
      if p.complete {
        ThenChain(p.calls, q, Perform(v.calls, q.draws + v.uses));
      }
    }
  }

  /** Once the first j passes have thrown, the later ones add nothing. */
  lemma RunOfPrefixStopped(vs: seq<Visit>, j: nat, k: nat)
    requires j <= |vs| && !RunOf(vs[..j], k).complete
    ensures RunOf(vs, k) == RunOf(vs[..j], k)
  {
    assert vs == vs[..j] + vs[j..];
    RunOfAppend(vs[..j], vs[j..], k);
  }

  lemma {:induction false} CallsOfAppend(a: seq<Visit>, b: seq<Visit>)
    ensures CallsOf(a + b) == CallsOf(a) + CallsOf(b)
    decreases |b|
  {
    if b == [] {
      assert a + b == a;
    } else {
      var init := b[..|b| - 1];
      var v := b[|b| - 1];
      assert b == init + [v];
      assert a + b == (a + init) + [v];
      CallsOfAppend(a, init);
      CallsOfSnoc(a + init, v);
      CallsOfSnoc(init, v);
      AppendAssoc(CallsOf(a), CallsOf(init), v.calls);
    }
  }

  lemma UsesOfSum(vs: seq<Visit>, a: seq<Visit>, b: seq<Visit>, ua: nat, ub: nat, u: nat)
    requires vs == a + b && UsesOf(a) == ua && UsesOf(b) == ub && u == ua + ub
    ensures UsesOf(vs) == u
  {
    UsesOfAppend(a, b);
  }

  lemma {:induction false} UsesOfAppend(a: seq<Visit>, b: seq<Visit>)
    ensures UsesOf(a + b) == UsesOf(a) + UsesOf(b)
    decreases |b|
  {
    if b == [] {
      assert a + b == a;
    } else {
      var init := b[..|b| - 1];
      var v := b[|b| - 1];
      assert b == init + [v];
      assert a + b == (a + init) + [v];
      UsesOfAppend(a, init);
      UsesOfSnoc(a + init, v);
      UsesOfSnoc(init, v);
    }
  }

  /** A pass with a call the host rejects keeps the run from completing. */
  lemma {:induction false} VisitRejects(vs: seq<Visit>, j: nat, m: nat, k: nat)
    requires j < |vs| && m < |vs[j].calls| && !Accepts(vs[j].calls[m])
    ensures !RunOf(vs, k).complete
  {
    var a := vs[..|vs| - 1];
    if j == |vs| - 1 {
      FirstRejectedBefore(vs[j].calls, m);
    } else {
      assert a[j] == vs[j];
      VisitRejects(a, j, m, k);
    }
  }

  /** The passes of the first r repeats begin the passes of the first s. */
  lemma {:induction false} PlanVisitsGrow(c: PatternCall, notes: seq<Note>, rnd: nat -> real, timePerNote: JsNumber, k0: nat, r: nat, s: nat)
    requires PatternSpeed(c.pattern) > 0 && r <= s
    ensures var vs := PlanVisits(c, notes, rnd, timePerNote, k0, r);
            |vs| <= |PlanVisits(c, notes, rnd, timePerNote, k0, s)| && PlanVisits(c, notes, rnd, timePerNote, k0, s)[..|vs|] == vs
    decreases s
  {
    var vs := PlanVisits(c, notes, rnd, timePerNote, k0, r);
    var all := PlanVisits(c, notes, rnd, timePerNote, k0, s);
    if s > r {
      PlanVisitsGrow(c, notes, rnd, timePerNote, k0, r, s - 1);
      var init := PlanVisits(c, notes, rnd, timePerNote, k0, s - 1);
      assert all[..|vs|] == init[..|vs|];
    } else {
      assert all[..|vs|] == all;
    }
  }

  /** Once the first r repeats have thrown, later repeats add nothing. */
  lemma PlanStopped(c: PatternCall, notes: seq<Note>, rnd: nat -> real, timePerNote: JsNumber, k0: nat, r: nat, s: nat)
    requires PatternSpeed(c.pattern) > 0 && r <= s
    requires !RunOf(PlanVisits(c, notes, rnd, timePerNote, k0, r), k0).complete
    ensures RunOf(PlanVisits(c, notes, rnd, timePerNote, k0, s), k0) == RunOf(PlanVisits(c, notes, rnd, timePerNote, k0, r), k0)
  {
    var vs := PlanVisits(c, notes, rnd, timePerNote, k0, r);
    PlanVisitsGrow(c, notes, rnd, timePerNote, k0, r, s);
    RunOfPrefixStopped(PlanVisits(c, notes, rnd, timePerNote, k0, s), |vs|, k0);
  }

  /** Repeat r + 1 of a pass whose first r repeats completed runs after
      them. */
  lemma RepeatExtends(c: PatternCall, notes: seq<Note>, rnd: nat -> real, timePerNote: JsNumber, k0: nat, r: nat)
    requires PatternSpeed(c.pattern) > 0
    requires RunOf(PlanVisits(c, notes, rnd, timePerNote, k0, r), k0).complete
    requires RunOf(PlanVisits(c, notes, rnd, timePerNote, k0, r), k0).draws == k0 + RandsBeforeUsed(c, notes, r)
    ensures var p := RunOf(PlanVisits(c, notes, rnd, timePerNote, k0, r), k0);
            RunOf(PlanVisits(c, notes, rnd, timePerNote, k0, r + 1), k0)
            == Then(p.calls, RunOf(RepeatVisits(c, notes, rnd, RepeatStart(c, r), timePerNote, p.draws), p.draws))
  {
    var p := RunOf(PlanVisits(c, notes, rnd, timePerNote, k0, r), k0);
    PlanVisitsNext(c, notes, rnd, timePerNote, k0, r);
    RunOfAppendComplete(PlanVisits(c, notes, rnd, timePerNote, k0, r + 1), PlanVisits(c, notes, rnd, timePerNote, k0, r),
                        RepeatVisits(c, notes, rnd, RepeatStart(c, r), timePerNote, p.draws), k0, p.draws);
  }

  /** When that repeat throws, the whole pass ends with it. */
  lemma RepeatEndsPass(c: PatternCall, notes: seq<Note>, rnd: nat -> real, timePerNote: JsNumber, k0: nat, r: nat)
    requires PatternSpeed(c.pattern) > 0 && r < PatternSpeed(c.pattern)
    requires !RunOf(PlanVisits(c, notes, rnd, timePerNote, k0, r + 1), k0).complete
    ensures RunOf(PlanVisits(c, notes, rnd, timePerNote, k0, PatternSpeed(c.pattern)), k0)
         == RunOf(PlanVisits(c, notes, rnd, timePerNote, k0, r + 1), k0)
  {
    PlanStopped(c, notes, rnd, timePerNote, k0, r + 1, PatternSpeed(c.pattern));
  }

  /** A completed repeat adds the draws of its `'rand'` notes. */
  lemma RandsBeforeUsedNext(c: PatternCall, notes: seq<Note>, r: nat)
    ensures RandsBeforeUsed(c, notes, r + 1) == RandsBeforeUsed(c, notes, r) + RandsUsed(c, notes, |notes|)
  {
  }

  lemma PlanVisitsStep(c: PatternCall, notes: seq<Note>, rnd: nat -> real, timePerNote: JsNumber, k0: nat, r: nat)
    requires PatternSpeed(c.pattern) > 0 && r > 0
    ensures PlanVisits(c, notes, rnd, timePerNote, k0, r)
         == PlanVisits(c, notes, rnd, timePerNote, k0, r - 1)
            + RepeatVisits(c, notes, rnd, RepeatStart(c, r - 1), timePerNote, k0 + RandsBeforeUsed(c, notes, r - 1))
  {
  }

  lemma PlanVisitsNext(c: PatternCall, notes: seq<Note>, rnd: nat -> real, timePerNote: JsNumber, k0: nat, r: nat)
    requires PatternSpeed(c.pattern) > 0
    ensures PlanVisits(c, notes, rnd, timePerNote, k0, r + 1)
         == PlanVisits(c, notes, rnd, timePerNote, k0, r)
            + RepeatVisits(c, notes, rnd, RepeatStart(c, r), timePerNote, k0 + RandsBeforeUsed(c, notes, r))
  {
  }

  /** Passes after a prefix that completed run after it. */
  lemma RunOfAppendComplete(vs: seq<Visit>, a: seq<Visit>, b: seq<Visit>, k: nat, kb: nat)
    requires vs == a + b && RunOf(a, k).complete && kb == RunOf(a, k).draws
    ensures RunOf(vs, k) == Then(RunOf(a, k).calls, RunOf(b, kb))
  {
    RunOfAppend(a, b, k);
  }

  /** Note i adds the draw of a `'rand'` note, when the scale is not empty. */
  lemma RandsUsedNext(c: PatternCall, notes: seq<Note>, i: nat)
    requires i < |notes|
    ensures RandsUsed(c, notes, i + 1) == RandsUsed(c, notes, i) + (if |c.scale| > 0 && notes[i].RandNote? then 1 else 0)
  {
  }

  /** The passes for the first i notes of a repeat use the draws of their
      `'rand'` notes. */
  lemma {:induction false} RepeatUses(c: PatternCall, notes: seq<Note>, rnd: nat -> real, base: JsNumber, timePerNote: JsNumber, k: nat, i: nat)
    requires i <= |notes|
    ensures UsesOf(RepeatVisits(c, notes, rnd, base, timePerNote, k)[..i]) == RandsUsed(c, notes, i)
  {
    if i > 0 {
      var vs := RepeatVisits(c, notes, rnd, base, timePerNote, k);
      RepeatUses(c, notes, rnd, base, timePerNote, k, i - 1);
      assert vs[..i] == vs[..i - 1] + [vs[i - 1]];
      UsesOfSnoc(vs[..i - 1], vs[i - 1]);
    }
  }

  lemma {:induction false} PlanUses(c: PatternCall, notes: seq<Note>, rnd: nat -> real, timePerNote: JsNumber, k0: nat, r: nat)
    requires PatternSpeed(c.pattern) > 0
    ensures UsesOf(PlanVisits(c, notes, rnd, timePerNote, k0, r)) == RandsBeforeUsed(c, notes, r)
  {
    if r > 0 {
      var q: nat := r - 1;
      var base := RepeatStart(c, q);
      var k: nat := k0 + RandsBeforeUsed(c, notes, q);
      PlanUses(c, notes, rnd, timePerNote, k0, q);
      PlanVisitsStep(c, notes, rnd, timePerNote, k0, r);
      RepeatAllUses(c, notes, rnd, base, timePerNote, k);
      RandsBeforeUsedNext(c, notes, q);
      UsesOfSum(PlanVisits(c, notes, rnd, timePerNote, k0, r), PlanVisits(c, notes, rnd, timePerNote, k0, q),
                RepeatVisits(c, notes, rnd, base, timePerNote, k),
                RandsBeforeUsed(c, notes, q), RandsUsed(c, notes, |notes|), RandsBeforeUsed(c, notes, r));
    }
  }

  /** A whole repeat uses the draws of its `'rand'` notes. */
  lemma RepeatAllUses(c: PatternCall, notes: seq<Note>, rnd: nat -> real, base: JsNumber, timePerNote: JsNumber, k: nat)
    ensures UsesOf(RepeatVisits(c, notes, rnd, base, timePerNote, k)) == RandsUsed(c, notes, |notes|)
  {
    var y := RepeatVisits(c, notes, rnd, base, timePerNote, k);
    RepeatUses(c, notes, rnd, base, timePerNote, k, |notes|);
    assert y[..|notes|] == y;
  }

  /** What `patternToSynth` does is its plan up to the first call the host
      rejects: it runs to the end exactly when the host accepts every call
      of the plan, and then it has made all of them and used every draw. */
  lemma PatternRunIsPlanPrefix(c: PatternCall, rnd: nat -> real, k0: nat)
    ensures var plan := Plan(c, rnd, k0);
            var run := PlanRun(c, rnd, k0);
            run.calls == plan[..FirstRejected(plan)]
            && (run.complete <==> forall j :: 0 <= j < |plan| ==> Accepts(plan[j]))
            && (run.complete ==> run.calls == plan && run.draws == k0 + DrawsUsed(c))
  {
    var plan := Plan(c, rnd, k0);
    RunOfStops(Visits(c, rnd, k0), k0);
    if PatternSpeed(c.pattern) > 0 {
      PlanUses(c, NotesOf(c.pattern), rnd, TimePerNote(c), k0, PatternSpeed(c.pattern));
    }
    FirstRejectedIsFirst(plan);
    assert plan[..|plan|] == plan;
  }

  /** An empty scale makes no call, throws nothing and uses no draw. */
  lemma EmptyScaleRun(c: PatternCall, rnd: nat -> real, k0: nat)
    requires |c.scale| == 0
    ensures PlanRun(c, rnd, k0) == Run([], true, k0)
  {
    EmptyScalePlan(c, rnd, k0);
    PatternRunIsPlanPrefix(c, rnd, k0);
  }

  /** With slots 0 long, a sounding note's amplitude curve would last
      -0.001, so the host rejects it. */
  lemma ZeroSlotCurveRejected(c: PatternCall, notes: seq<Note>, rnd: nat -> real, base: JsNumber, i: nat, k: nat)
    requires |c.scale| > 0 && i < |notes| && !Silent(notes[i])
    ensures var calls := NoteCalls(c, notes, rnd, base, Finite(0.0), i, k);
            |calls| > 0 && !Accepts(calls[|calls| - 1])
  {
    assert NoteLength(notes, i, Finite(0.0)) == Finite(-0.001);
  }

  /** With slots 0 long, a repeat with a sounding note throws. */
  lemma ZeroSlotRepeatThrows(c: PatternCall, notes: seq<Note>, rnd: nat -> real, base: JsNumber, k: nat, i: nat)
    requires |c.scale| > 0 && i < |notes| && !Silent(notes[i])
    ensures !RunOf(RepeatVisits(c, notes, rnd, base, Finite(0.0), k), k).complete
  {
    var vs := RepeatVisits(c, notes, rnd, base, Finite(0.0), k);
    assert vs[i] == NoteVisit(c, notes, rnd, base, Finite(0.0), i, k + RandsUsed(c, notes, i));
    ZeroSlotCurveRejected(c, notes, rnd, base, i, k + RandsUsed(c, notes, i));
    VisitRejects(vs, i, |vs[i].calls| - 1, k);
  }

  /** When the first repeat throws, so does the whole pass. */
  lemma FirstRepeatThrows(c: PatternCall, notes: seq<Note>, rnd: nat -> real, timePerNote: JsNumber, k0: nat, s: nat)
    requires PatternSpeed(c.pattern) > 0 && s >= 1
    requires !RunOf(RepeatVisits(c, notes, rnd, RepeatStart(c, 0), timePerNote, k0), k0).complete
    ensures !RunOf(PlanVisits(c, notes, rnd, timePerNote, k0, s), k0).complete
  {
    assert RandsBeforeUsed(c, notes, 0) == 0;
    assert PlanVisits(c, notes, rnd, timePerNote, k0, 1) == RepeatVisits(c, notes, rnd, RepeatStart(c, 0), timePerNote, k0);
    PlanStopped(c, notes, rnd, timePerNote, k0, 1, s);
  }

  /** A clock of 0 makes every slot 0 long, so a sounding note's amplitude
      curve would last -0.001: `setValueCurveAtTime` throws and the pass
      does not complete. */
  lemma ZeroClockThrows(c: PatternCall, rnd: nat -> real, k0: nat, i: nat)
    requires c.clock == Finite(0.0) && |c.scale| > 0 && PatternSpeed(c.pattern) > 0
    requires i < |NotesOf(c.pattern)| && !Silent(NotesOf(c.pattern)[i])
    ensures !PlanRun(c, rnd, k0).complete
  {
    var notes := NotesOf(c.pattern);
    assert TimePerNote(c) == Finite(0.0);
    ZeroSlotRepeatThrows(c, notes, rnd, RepeatStart(c, 0), k0, i);
    FirstRepeatThrows(c, notes, rnd, TimePerNote(c), k0, PatternSpeed(c.pattern));
  }

  // ---------------------------------------------------------------------------
  // Properties
  // ---------------------------------------------------------------------------

  lemma AppendAssoc<T>(a: seq<T>, b: seq<T>, d: seq<T>)
    ensures (a + b) + d == a + (b + d)
  {
  }

  /** One more `timePerNote` added to m of them makes m + 1 of them. */
  lemma MulStep(m: nat, t: JsNumber)
    requires m >= 1
    ensures JsAdd(JsMul(Finite(m as real), t), t) == JsMul(Finite((m + 1) as real), t)
  {
    if t.Finite? {
      assert (m as real) * t.r + t.r == ((m + 1) as real) * t.r;
    }
  }

  lemma {:induction false} EmptyScaleRepeat(c: PatternCall, notes: seq<Note>, rnd: nat -> real, base: JsNumber, timePerNote: JsNumber, k: nat, i: nat)
    requires i <= |notes| && |c.scale| == 0
    ensures CallsOf(RepeatVisits(c, notes, rnd, base, timePerNote, k)[..i]) == []
  {
    if i > 0 {
      var vs := RepeatVisits(c, notes, rnd, base, timePerNote, k);
      EmptyScaleRepeat(c, notes, rnd, base, timePerNote, k, i - 1);
      assert vs[..i] == vs[..i - 1] + [vs[i - 1]];
      CallsOfSnoc(vs[..i - 1], vs[i - 1]);
    }
  }

  lemma {:induction false} EmptyScaleUpTo(c: PatternCall, notes: seq<Note>, rnd: nat -> real, timePerNote: JsNumber, k0: nat, r: nat)
    requires PatternSpeed(c.pattern) > 0 && |c.scale| == 0
    ensures CallsOf(PlanVisits(c, notes, rnd, timePerNote, k0, r)) == []
  {
    if r > 0 {
      var q: nat := r - 1;
      var base := RepeatStart(c, q);
      var k: nat := k0 + RandsBeforeUsed(c, notes, q);
      EmptyScaleUpTo(c, notes, rnd, timePerNote, k0, q);
      PlanVisitsStep(c, notes, rnd, timePerNote, k0, r);
      EmptyScaleAll(c, notes, rnd, base, timePerNote, k);
      NoCallsSum(PlanVisits(c, notes, rnd, timePerNote, k0, r), PlanVisits(c, notes, rnd, timePerNote, k0, q),
                 RepeatVisits(c, notes, rnd, base, timePerNote, k));
    }
  }

  /** With an empty scale a whole repeat makes no call. */
  lemma EmptyScaleAll(c: PatternCall, notes: seq<Note>, rnd: nat -> real, base: JsNumber, timePerNote: JsNumber, k: nat)
    requires |c.scale| == 0
    ensures CallsOf(RepeatVisits(c, notes, rnd, base, timePerNote, k)) == []
  {
    var y := RepeatVisits(c, notes, rnd, base, timePerNote, k);
    EmptyScaleRepeat(c, notes, rnd, base, timePerNote, k, |notes|);
    assert y[..|notes|] == y;
  }

  lemma NoCallsSum(vs: seq<Visit>, a: seq<Visit>, b: seq<Visit>)
    requires vs == a + b && CallsOf(a) == [] && CallsOf(b) == []
    ensures CallsOf(vs) == []
  {
    CallsOfAppend(a, b);
  }

  /** An empty scale schedules nothing and uses no draws. */
  lemma EmptyScalePlan(c: PatternCall, rnd: nat -> real, k0: nat)
    requires |c.scale| == 0
    ensures Plan(c, rnd, k0) == [] && DrawsUsed(c) == 0
  {
    if PatternSpeed(c.pattern) > 0 {
      EmptyScaleUpTo(c, NotesOf(c.pattern), rnd, TimePerNote(c), k0, PatternSpeed(c.pattern));
    }
  }

  /** `speed` is 1 when no item sets one, and otherwise the speed of the last
      item that does. */
  lemma {:induction false} SpeedIsLast(pattern: seq<Arg>)
    ensures (forall k :: 0 <= k < |pattern| ==> !SetsSpeed(pattern[k])) ==> PatternSpeed(pattern) == 1
    ensures (exists k :: 0 <= k < |pattern| && SetsSpeed(pattern[k])) ==>
      exists k :: 0 <= k < |pattern| && SetsSpeed(pattern[k]) && PatternSpeed(pattern) == pattern[k].speed.value
                  && forall j :: k < j < |pattern| ==> !SetsSpeed(pattern[j])
  {
    if pattern != [] {
      var init := pattern[..|pattern| - 1];
      SpeedIsLast(init);
      assert forall k :: 0 <= k < |init| ==> init[k] == pattern[k];
      if !SetsSpeed(pattern[|pattern| - 1]) && exists k :: 0 <= k < |pattern| && SetsSpeed(pattern[k]) {
        var k :| 0 <= k < |pattern| && SetsSpeed(pattern[k]);
        assert SetsSpeed(init[k]);
      }
    }
  }

  /** A speed the parser produced is at least 1, and so is the pattern's. */
  lemma ParsedSpeedPositive(pattern: seq<Arg>)
    requires forall k :: 0 <= k < |pattern| && pattern[k].SpeedArg? && pattern[k].speed.Some? ==> pattern[k].speed.value >= 1
    ensures PatternSpeed(pattern) >= 1
  {
    SpeedIsLast(pattern);
  }

  /** The `'sustain'` count is the run of sustains right after the note. */
  lemma {:induction false} SustainRun(notes: seq<Note>, j: nat)
    requires j <= |notes|
    ensures j + SustainsFrom(notes, j) <= |notes|
    ensures forall m :: j <= m < j + SustainsFrom(notes, j) ==> notes[m].SustainNote?
    ensures j + SustainsFrom(notes, j) == |notes| || !notes[j + SustainsFrom(notes, j)].SustainNote?
    decreases |notes| - j
  {
    if j < |notes| && notes[j].SustainNote? {
      SustainRun(notes, j + 1);
    }
  }

  /** The number of amplitude curves in a list of calls. */
  function AmpCount(calls: seq<HostCall>): nat
  {
    if |calls| == 0 then 0 else (if calls[0].AmpCurve? then 1 else 0) + AmpCount(calls[1..])
  }

  lemma {:induction false} AmpCountAppend(a: seq<HostCall>, b: seq<HostCall>)
    ensures AmpCount(a + b) == AmpCount(a) + AmpCount(b)
  {
    if |a| > 0 {
      assert (a + b)[1..] == a[1..] + b;
      AmpCountAppend(a[1..], b);
    } else {
      assert a + b == b;
    }
  }

  /** The curves of calls made of two parts. */
  lemma CountStep(s: seq<HostCall>, x: seq<HostCall>, n: seq<HostCall>, a: nat, b: nat)
    requires s == x + n && AmpCount(x) == a && AmpCount(n) == b
    ensures AmpCount(s) == a + b
  {
    AmpCountAppend(x, n);
  }

  /** The number of notes among the first i that are neither `'sustain'` nor `'rest'`. */
  function Sounding(notes: seq<Note>, i: nat): nat
    requires i <= |notes|
  {
    if i == 0 then 0 else Sounding(notes, i - 1) + (if Silent(notes[i - 1]) then 0 else 1)
  }

  /** A sounding note makes one amplitude curve, a silent one none. */
  lemma NoteAmpCount(c: PatternCall, notes: seq<Note>, rnd: nat -> real, base: JsNumber, timePerNote: JsNumber, i: nat, k: nat)
    requires i < |notes| && |c.scale| > 0
    ensures AmpCount(NoteCalls(c, notes, rnd, base, timePerNote, i, k)) == if Silent(notes[i]) then 0 else 1
  {
    var note := notes[i];
    if !Silent(note) {
      var time := JsAdd(Finite(c.now), SlotStart(base, i, timePerNote));
      var f := FreqCall(c, note, rnd(k), time);
      var amp := [AmpCurve(c.synth, time, NoteLength(notes, i, timePerNote))];
      AmpCountAppend(f, amp);
      if f != [] {
        assert f == [] + [f[0]];
      }
      assert amp == [] + amp;
    }
  }

  lemma {:induction false} RepeatAmpCount(c: PatternCall, notes: seq<Note>, rnd: nat -> real, base: JsNumber, timePerNote: JsNumber, k: nat, i: nat)
    requires i <= |notes| && |c.scale| > 0
    ensures AmpCount(CallsOf(RepeatVisits(c, notes, rnd, base, timePerNote, k)[..i])) == Sounding(notes, i)
  {
    if i > 0 {
      var vs := RepeatVisits(c, notes, rnd, base, timePerNote, k);
      var x := vs[..i - 1];
      var v := vs[i - 1];
      RepeatAmpCount(c, notes, rnd, base, timePerNote, k, i - 1);
      assert vs[..i] == x + [v];
      CallsOfSnoc(x, v);
      NoteAmpCount(c, notes, rnd, base, timePerNote, i - 1, k + RandsUsed(c, notes, i - 1));
      CountStep(CallsOf(x + [v]), CallsOf(x), v.calls, AmpCount(CallsOf(x)), AmpCount(v.calls));
    }
  }

  lemma {:induction false} PlanAmpCount(c: PatternCall, notes: seq<Note>, rnd: nat -> real, timePerNote: JsNumber, k0: nat, r: nat)
    requires PatternSpeed(c.pattern) > 0 && |c.scale| > 0
    ensures AmpCount(CallsOf(PlanVisits(c, notes, rnd, timePerNote, k0, r))) == Product(r, Sounding(notes, |notes|))
  {
    if r > 0 {
      var q: nat := r - 1;
      var sounding := Sounding(notes, |notes|);
      var base := RepeatStart(c, q);
      var k: nat := k0 + RandsBeforeUsed(c, notes, q);
      PlanAmpCount(c, notes, rnd, timePerNote, k0, q);
      PlanVisitsStep(c, notes, rnd, timePerNote, k0, r);
      RepeatAllAmp(c, notes, rnd, base, timePerNote, k);
      AmpOfVisitsSum(PlanVisits(c, notes, rnd, timePerNote, k0, r), PlanVisits(c, notes, rnd, timePerNote, k0, q),
                     RepeatVisits(c, notes, rnd, base, timePerNote, k), Product(q, sounding), sounding, Product(r, sounding));
    }
  }

  /** A whole repeat plays one curve per sounding note. */
  lemma RepeatAllAmp(c: PatternCall, notes: seq<Note>, rnd: nat -> real, base: JsNumber, timePerNote: JsNumber, k: nat)
    requires |c.scale| > 0
    ensures AmpCount(CallsOf(RepeatVisits(c, notes, rnd, base, timePerNote, k))) == Sounding(notes, |notes|)
  {
    var y := RepeatVisits(c, notes, rnd, base, timePerNote, k);
    RepeatAmpCount(c, notes, rnd, base, timePerNote, k, |notes|);
    assert y[..|notes|] == y;
  }

  lemma AmpOfVisitsSum(vs: seq<Visit>, a: seq<Visit>, b: seq<Visit>, na: int, nb: int, n: int)
    requires vs == a + b && AmpCount(CallsOf(a)) == na && AmpCount(CallsOf(b)) == nb && n == na + nb
    ensures AmpCount(CallsOf(vs)) == n
  {
    CallsOfAppend(a, b);
    CountStep(CallsOf(vs), CallsOf(a), CallsOf(b), na, nb);
  }

  /** With a non-empty scale, every repeat plays one amplitude curve per note
      that is neither `'sustain'` nor `'rest'`; an empty scale plays none. */
  lemma OneCurvePerSoundingNote(c: PatternCall, rnd: nat -> real, k0: nat)
    ensures AmpCount(Plan(c, rnd, k0))
         == if |c.scale| == 0 || PatternSpeed(c.pattern) <= 0 then 0
            else PatternSpeed(c.pattern) * Sounding(NotesOf(c.pattern), |NotesOf(c.pattern)|)
  {
    if |c.scale| == 0 {
      EmptyScalePlan(c, rnd, k0);
    } else if PatternSpeed(c.pattern) > 0 {
      PlanAmpCount(c, NotesOf(c.pattern), rnd, TimePerNote(c), k0, PatternSpeed(c.pattern));
      ProductIs(PatternSpeed(c.pattern), Sounding(NotesOf(c.pattern), |NotesOf(c.pattern)|));
    }
  }

  lemma {:induction false} RandsBeforeIs(notes: seq<Note>, r: nat)
    ensures RandsBefore(notes, r) == r * RandsIn(notes, |notes|)
  {
    if r > 0 {
      RandsBeforeIs(notes, r - 1);
      assert (r - 1) * RandsIn(notes, |notes|) + RandsIn(notes, |notes|) == r * RandsIn(notes, |notes|);
    }
  }

  /** A non-empty scale uses one draw per `'rand'` note per repeat. */
  lemma DrawsPerRepeat(c: PatternCall)
    requires |c.scale| > 0 && PatternSpeed(c.pattern) > 0
    ensures DrawsUsed(c) == PatternSpeed(c.pattern) * RandsIn(NotesOf(c.pattern), |NotesOf(c.pattern)|)
  {
    RandsBeforeIs(NotesOf(c.pattern), PatternSpeed(c.pattern));
  }

  lemma {:induction false} ProductIs(n: nat, m: int)
    ensures Product(n, m) == n * m
  {
    if n > 0 {
      ProductIs(n - 1, m);
      assert (n - 1) * m + m == n * m;
    }
  }

  /** `clock / (n * speed)`, the time of one note slot, for a finite clock. */
  function SlotLength(c: PatternCall): real
    requires PatternSpeed(c.pattern) > 0 && |NotesOf(c.pattern)| > 0 && c.clock.Finite?
  {
    c.clock.r / Product(|NotesOf(c.pattern)|, PatternSpeed(c.pattern)) as real
  }

  /** For a finite clock, `timePerNote` is the slot length. */
  lemma TimePerNoteFinite(c: PatternCall)
    requires PatternSpeed(c.pattern) > 0 && |NotesOf(c.pattern)| > 0 && c.clock.Finite?
    ensures TimePerNote(c) == Finite(SlotLength(c))
  {
  }

  /** The start of repeat r in plain arithmetic, for a finite clock and offset. */
  function RepeatTime(c: PatternCall, r: nat): real
    requires PatternSpeed(c.pattern) > 0 && c.clock.Finite? && c.offset.Finite?
  {
    c.offset.r + (r as real / PatternSpeed(c.pattern) as real) * c.clock.r
  }

  /** The start of note i of repeat r in plain arithmetic, for a finite
      clock and offset. */
  function StartTime(c: PatternCall, r: nat, i: nat): real
    requires PatternSpeed(c.pattern) > 0 && |NotesOf(c.pattern)| > 0 && c.clock.Finite? && c.offset.Finite?
  {
    RepeatTime(c, r) + (i as real) * SlotLength(c)
  }

  /** The length of note i in plain arithmetic, for a finite clock. */
  function LengthTime(c: PatternCall, i: nat): real
    requires PatternSpeed(c.pattern) > 0 && |NotesOf(c.pattern)| > 0 && c.clock.Finite?
  {
    (1 + SustainsFrom(NotesOf(c.pattern), i + 1)) as real * SlotLength(c) - 0.001
  }

  /** With a finite clock and offset, `start` is finite and is the plain
      arithmetic formula. */
  lemma StartFinite(c: PatternCall, r: nat, i: nat)
    requires PatternSpeed(c.pattern) > 0 && |NotesOf(c.pattern)| > 0 && c.clock.Finite? && c.offset.Finite?
    ensures Start(c, r, i) == Finite(StartTime(c, r, i))
  {
    TimePerNoteFinite(c);
    var t := SlotLength(c);
    var share := r as real / PatternSpeed(c.pattern) as real;
    assert TimePerNote(c) == Finite(t);
    assert JsMul(Finite(i as real), TimePerNote(c)) == Finite((i as real) * t);
    assert JsMul(Finite(share), c.clock) == Finite(share * c.clock.r);
  }

  lemma NoteLengthFinite(c: PatternCall, i: nat)
    requires PatternSpeed(c.pattern) > 0 && |NotesOf(c.pattern)| > 0 && c.clock.Finite?
    ensures NoteLength(NotesOf(c.pattern), i, TimePerNote(c)) == Finite(LengthTime(c, i))
  {
    TimePerNoteFinite(c);
    var t := SlotLength(c);
    var m := (1 + SustainsFrom(NotesOf(c.pattern), i + 1)) as real;
    assert TimePerNote(c) == Finite(t);
    assert JsMul(Finite(m), TimePerNote(c)) == Finite(m * t);
  }

  /** With a finite clock and offset, a sounding note of repeat r starts at
      `now + offset + (r / speed) * clock + i * clock / (n * speed)` and its
      amplitude curve lasts `(1 + sustains) * clock / (n * speed) - 0.001`. */
  lemma NoteTiming(c: PatternCall, rnd: nat -> real, r: nat, i: nat, k: nat)
    requires PatternSpeed(c.pattern) > 0 && i < |NotesOf(c.pattern)|
    requires |c.scale| > 0 && !Silent(NotesOf(c.pattern)[i])
    requires c.clock.Finite? && c.offset.Finite?
    ensures var calls := NoteCalls(c, NotesOf(c.pattern), rnd, RepeatStart(c, r), TimePerNote(c), i, k);
            |calls| >= 1
            && calls[|calls| - 1] == AmpCurve(c.synth, Finite(c.now + StartTime(c, r, i)), Finite(LengthTime(c, i)))
  {
    StartFinite(c, r, i);
    NoteLengthFinite(c, i);
  }

  /** Repeat r ends where repeat r + 1 starts: the slot after the last note
      of one repeat is the first slot of the next, so the repeats split one
      clock period evenly. */
  lemma RepeatsTile(c: PatternCall, r: nat)
    requires PatternSpeed(c.pattern) > 0 && |NotesOf(c.pattern)| > 0
    requires c.clock.Finite? && c.offset.Finite?
    ensures Start(c, r, |NotesOf(c.pattern)|) == Start(c, r + 1, 0)
  {
    StartFinite(c, r, |NotesOf(c.pattern)|);
    StartFinite(c, r + 1, 0);
    StartTimeTiles(c, r);
  }

  lemma StartTimeTiles(c: PatternCall, r: nat)
    requires PatternSpeed(c.pattern) > 0 && |NotesOf(c.pattern)| > 0
    requires c.clock.Finite? && c.offset.Finite?
    ensures StartTime(c, r, |NotesOf(c.pattern)|) == StartTime(c, r + 1, 0)
  {
    var n := |NotesOf(c.pattern)|;
    var speed := PatternSpeed(c.pattern);
    TileArith(c.offset.r, c.clock.r, r, speed, n, Product(n, speed));
  }

  /** The n slots of a repeat fill one share `clock / speed` of the period,
      so the slot after the last note of repeat r is where repeat r + 1 begins. */
  lemma TileArith(offset: real, clk: real, r: nat, speed: nat, n: nat, p: int)
    requires n > 0 && speed > 0 && p == Product(n, speed)
    ensures (offset + (r as real / speed as real) * clk) + (n as real) * (clk / p as real)
         == (offset + ((r + 1) as real / speed as real) * clk) + (0 as real) * (clk / p as real)
  {
    ProductIs(n, speed);
    SlotsArith(n as real, speed as real, clk, p as real);
    ShareStep(r, speed as real, clk);
  }

  lemma SlotsArith(n: real, speed: real, clk: real, p: real)
    requires n > 0.0 && speed > 0.0 && p == n * speed
    ensures n * (clk / p) == clk / speed
  {
  }

  lemma ShareStep(r: nat, speed: real, clk: real)
    requires speed > 0.0
    ensures ((r + 1) as real / speed) * clk == (r as real / speed) * clk + clk / speed
  {
  }

  /** With a finite clock, a note ends 0.001 before the slot after its
      sustains begins. */
  lemma NoteEndsBeforeNextSlot(c: PatternCall, r: nat, i: nat)
    requires PatternSpeed(c.pattern) > 0 && i < |NotesOf(c.pattern)|
    requires c.clock.Finite? && c.offset.Finite?
    ensures var k := SustainsFrom(NotesOf(c.pattern), i + 1);
            var len := NoteLength(NotesOf(c.pattern), i, TimePerNote(c));
            Start(c, r, i).Finite? && len.Finite? && Start(c, r, i + 1 + k).Finite?
            && Start(c, r, i).r + len.r == Start(c, r, i + 1 + k).r - 0.001
  {
    TimePerNoteFinite(c);
    NoteEnd(RepeatStart(c, r), TimePerNote(c), NotesOf(c.pattern), i);
  }

  /** In a repeat with a finite start and finite slots, a note ends 0.001
      before the slot after its sustains begins. */
  lemma NoteEnd(base: JsNumber, timePerNote: JsNumber, notes: seq<Note>, i: nat)
    requires base.Finite? && timePerNote.Finite? && i < |notes|
    ensures var k := SustainsFrom(notes, i + 1);
            var len := NoteLength(notes, i, timePerNote);
            SlotStart(base, i, timePerNote).Finite? && len.Finite? && SlotStart(base, i + 1 + k, timePerNote).Finite?
            && SlotStart(base, i, timePerNote).r + len.r == SlotStart(base, i + 1 + k, timePerNote).r - 0.001
  {
    SlotArith(base.r, i, SustainsFrom(notes, i + 1), timePerNote.r);
  }

  lemma SlotArith(base: real, i: nat, k: nat, t: real)
    ensures base + (i as real) * t + ((1 + k) as real * t - 0.001) == base + ((i + 1 + k) as real) * t - 0.001
  {
    assert (i as real) * t + (1 + k) as real * t == ((i + 1 + k) as real) * t;
  }

  /** A whole-number note v plays `scale[v % scale.length] + offset`, the
      remainder taking the sign of v: a number entry is moved by the
      offset, and a negative remainder reads `undefined`, so `mtof` gives
      NaN and `setValueAtTime` throws. */
  lemma NumericNoteMidi(c: PatternCall, notes: seq<Note>, rnd: nat -> real, base: JsNumber, timePerNote: JsNumber, i: nat, k: nat)
    requires i < |notes| && |c.scale| > 0
    requires notes[i].Pitch? && notes[i].v.Finite? && notes[i].v.r == notes[i].v.r.Floor as real
    ensures var call := NoteCalls(c, notes, rnd, base, timePerNote, i, k)[0];
            var q := JsRem(notes[i].v.r.Floor, |c.scale|);
            var off := SynthOffset(c.synth);
            call.SetFreq?
            && (q >= 0 ==> call.midi == MidiNumber(ShiftedMidi(Some(c.scale[q]), off)))
            && (q >= 0 && c.scale[q].Num? && c.scale[q].v.Finite? ==> call.midi == Finite(c.scale[q].v.r + off as real))
            && (q < 0 ==> call.midi == NaN && !Accepts(call))
  {
  }

  /** Without a `notes` op the notes stay as they were. */
  lemma {:induction false} NotesKept(st: PlayerState, ops: seq<ScoreLine>)
    requires forall k :: 0 <= k < |ops| ==> ops[k].op != Notes
    ensures Dispatch(st, ops).notes == st.notes
  {
    if ops != [] {
      var init := ops[..|ops| - 1];
      assert forall k :: 0 <= k < |init| ==> init[k] == ops[k];
      NotesKept(st, init);
    }
  }

  /** The last `notes` op sets the notes. */
  lemma {:induction false} LastNotesWins(st: PlayerState, ops: seq<ScoreLine>, k: nat)
    requires k < |ops| && ops[k].op == Notes
    requires forall j :: k < j < |ops| ==> ops[j].op != Notes
    ensures Dispatch(st, ops).notes == ops[k].args
  {
    if k < |ops| - 1 {
      var init := ops[..|ops| - 1];
      assert init[k] == ops[k];
      assert forall j :: k < j < |init| ==> init[j] == ops[j];
      LastNotesWins(st, init, k);
    }
  }

  /** Without a `clock` op the clock stays as it was. */
  lemma {:induction false} ClockKept(st: PlayerState, ops: seq<ScoreLine>)
    requires forall k :: 0 <= k < |ops| ==> ops[k].op != Clock
    ensures Dispatch(st, ops).clock == st.clock
  {
    if ops != [] {
      var init := ops[..|ops| - 1];
      assert forall k :: 0 <= k < |init| ==> init[k] == ops[k];
      ClockKept(st, init);
    }
  }

  /** The last `clock` op sets the clock to its first argument, or to
      `undefined` when it has none. */
  lemma {:induction false} LastClockWins(st: PlayerState, ops: seq<ScoreLine>, k: nat)
    requires k < |ops| && ops[k].op == Clock
    requires forall j :: k < j < |ops| ==> ops[j].op != Clock
    ensures Dispatch(st, ops).clock == FirstArg(ops[k].args)
  {
    if k < |ops| - 1 {
      var init := ops[..|ops| - 1];
      assert init[k] == ops[k];
      assert forall j :: k < j < |init| ==> init[j] == ops[j];
      LastClockWins(st, init, k);
    }
  }

  /** The arguments of the `voice` ops, in order. */
  function VoiceArgs(ops: seq<ScoreLine>): seq<seq<Arg>>
  {
    if ops == [] then []
    else VoiceArgs(ops[..|ops| - 1]) + (if ops[|ops| - 1].op == Voice then [ops[|ops| - 1].args] else [])
  }

  /** `voice` ops are appended in order. */
  lemma {:induction false} VoicesInOrder(st: PlayerState, ops: seq<ScoreLine>)
    ensures Dispatch(st, ops).voices == st.voices + VoiceArgs(ops)
  {
    if ops != [] {
      VoicesInOrder(st, ops[..|ops| - 1]);
    }
  }

  /** A pattern key is set exactly when some `pattern` op has it, to the
      arguments of the last such op; every key is listed once in the key order. */
  lemma PatternsFromOps(st: PlayerState, ops: seq<ScoreLine>)
    requires st.patterns == map[] && st.order == []
    ensures forall key :: key in Dispatch(st, ops).patterns <==>
              exists k :: 0 <= k < |ops| && ops[k].op == Pattern && PatternKey(ops[k]) == key
    ensures forall k :: 0 <= k < |ops| && ops[k].op == Pattern
              && (forall j :: k < j < |ops| && ops[j].op == Pattern ==> PatternKey(ops[j]) != PatternKey(ops[k]))
              ==> Dispatch(st, ops).patterns[PatternKey(ops[k])] == ops[k].args
    ensures forall key :: key in Dispatch(st, ops).patterns <==> key in Dispatch(st, ops).order
    ensures forall a, b :: 0 <= a < b < |Dispatch(st, ops).order| ==> Dispatch(st, ops).order[a] != Dispatch(st, ops).order[b]
  {
    PatternKeysFromOps(st, ops);
    LastPatternWins(st, ops);
    OrderListsPatterns(st, ops);
  }

  /** A key is defined exactly when some `pattern` operator names it. */
  lemma {:induction false} PatternKeysFromOps(st: PlayerState, ops: seq<ScoreLine>)
    requires st.patterns == map[]
    ensures forall key :: key in Dispatch(st, ops).patterns <==>
              exists k :: 0 <= k < |ops| && ops[k].op == Pattern && PatternKey(ops[k]) == key
  {
    if ops != [] {
      var init := ops[..|ops| - 1];
      var last := ops[|ops| - 1];
      PatternKeysFromOps(st, init);
      forall key
        ensures key in Dispatch(st, ops).patterns <==>
                exists k :: 0 <= k < |ops| && ops[k].op == Pattern && PatternKey(ops[k]) == key
      {
        if key in Dispatch(st, ops).patterns {
          if last.op == Pattern && key == PatternKey(last) {
            assert ops[|ops| - 1] == last;
          } else {
            var k :| 0 <= k < |init| && init[k].op == Pattern && PatternKey(init[k]) == key;
            assert ops[k] == init[k];
          }
        } else {
          forall k | 0 <= k < |ops| && ops[k].op == Pattern
            ensures PatternKey(ops[k]) != key
          {
            if k < |init| {
              assert ops[k] == init[k];
            }
          }
        }
      }
    }
  }

  /** A key holds the arguments of the last `pattern` operator naming it. */
  lemma {:induction false} LastPatternWins(st: PlayerState, ops: seq<ScoreLine>)
    ensures forall k :: 0 <= k < |ops| && ops[k].op == Pattern ==> PatternKey(ops[k]) in Dispatch(st, ops).patterns
    ensures forall k :: 0 <= k < |ops| && ops[k].op == Pattern
              && (forall j :: k < j < |ops| && ops[j].op == Pattern ==> PatternKey(ops[j]) != PatternKey(ops[k]))
              ==> Dispatch(st, ops).patterns[PatternKey(ops[k])] == ops[k].args
  {
    if ops != [] {
      var init := ops[..|ops| - 1];
      var last := ops[|ops| - 1];
      LastPatternWins(st, init);
      forall k | 0 <= k < |ops| && ops[k].op == Pattern
        ensures PatternKey(ops[k]) in Dispatch(st, ops).patterns
      {
        if k < |init| {
          assert ops[k] == init[k];
        }
      }
      forall k | 0 <= k < |ops| && ops[k].op == Pattern
                 && (forall j :: k < j < |ops| && ops[j].op == Pattern ==> PatternKey(ops[j]) != PatternKey(ops[k]))
        ensures Dispatch(st, ops).patterns[PatternKey(ops[k])] == ops[k].args
      {
        if k < |init| {
          assert ops[k] == init[k];
          forall j | k < j < |init| && init[j].op == Pattern
            ensures PatternKey(init[j]) != PatternKey(init[k])
          {
            assert ops[j] == init[j];
          }
        }
      }
    }
  }

  /** `order` lists the defined keys, each once. */
  lemma {:induction false} OrderListsPatterns(st: PlayerState, ops: seq<ScoreLine>)
    requires st.patterns == map[] && st.order == []
    ensures forall key :: key in Dispatch(st, ops).patterns <==> key in Dispatch(st, ops).order
    ensures forall a, b :: 0 <= a < b < |Dispatch(st, ops).order| ==> Dispatch(st, ops).order[a] != Dispatch(st, ops).order[b]
  {
    if ops != [] {
      OrderListsPatterns(st, ops[..|ops| - 1]);
    }
  }

  /** A `'rest'` slot schedules nothing and uses no draw. */
  lemma RestSlot(st: PlayerState, v: nat, i: nat, rnd: nat -> real, k: nat, now: real)
    requires v < |st.voices| && i < |st.voices[v]| && st.voices[v][i] == Text("rest")
    ensures SlotRun(st, v, i, rnd, k, now) == Run([], true, k)
  {
  }

  /** A slot holding a number or a `{speed}` object throws. */
  lemma NonStringSlotThrows(st: PlayerState, v: nat, i: nat, rnd: nat -> real, k: nat, now: real)
    requires v < |st.voices| && i < |st.voices[v]| && !st.voices[v][i].Text?
    ensures SlotRun(st, v, i, rnd, k, now) == Run([], false, k)
  {
  }

  /** `'pattern.x'` with a known label x schedules pattern x at offset
      `i * clock` on synth `v % 3`; with an unknown label it does nothing. */
  lemma PatternSlot(st: PlayerState, v: nat, i: nat, rnd: nat -> real, k: nat, now: real, x: string)
    requires v < |st.voices| && i < |st.voices[v]| && st.voices[v][i] == Text("pattern." + x)
    requires '.' !in x
    ensures x in st.patterns ==>
      var c := PatternCall(v % 3, ClockValue(st.clock), st.patterns[x], st.notes, JsMul(Finite(i as real), ClockValue(st.clock)), now);
      SlotRun(st, v, i, rnd, k, now) == PlanRun(c, rnd, k)
    ensures x !in st.patterns ==> SlotRun(st, v, i, rnd, k, now) == Run([], true, k)
  {
    var s := "pattern." + x;
    assert s == "pattern" + ['.'] + x;
    SplitAroundOneDot("pattern", x);
    assert LastPiece(s) == x;
    assert OccursAt(s, "pattern", 0);
    assert s != "rand";
  }

  lemma SplitAroundOneDot(a: string, b: string)
    requires '.' !in a && '.' !in b
    ensures Split(a + ['.'] + b, '.') == [a, b]
  {
    SplitNoSeparator(b, '.');
    SplitFirst(a, b, '.');
  }

  /** A `'rand'` slot draws once and, for a draw in [0, 1) with some pattern
      defined, schedules the pattern at key position `floor(draw * keys)`. */
  lemma RandSlot(st: PlayerState, v: nat, i: nat, rnd: nat -> real, k: nat, now: real)
    requires v < |st.voices| && i < |st.voices[v]| && st.voices[v][i] == Text("rand")
    requires 0.0 <= rnd(k) < 1.0 && |st.order| > 0
    requires forall key :: key in st.order ==> key in st.patterns
    ensures var idx := (rnd(k) * |st.order| as real).Floor;
            0 <= idx < |st.order|
            && var c := SlotCall(st, v, i, st.patterns[st.order[idx]], now);
               SlotRun(st, v, i, rnd, k, now) == PlanRun(c, rnd, k + 1)
  {
    var idx := RandPattern(st, rnd, k);
    var p := st.patterns[st.order[idx]];
    assert SlotPattern(st, "rand", rnd, k) == (Some(p), k + 1);
  }

  /** The key a `'rand'` slot draws, for a draw in [0, 1). */
  lemma RandPattern(st: PlayerState, rnd: nat -> real, k: nat) returns (idx: nat)
    requires 0.0 <= rnd(k) < 1.0 && |st.order| > 0
    requires forall key :: key in st.order ==> key in st.patterns
    ensures idx == (rnd(k) * |st.order| as real).Floor && idx < |st.order|
    ensures SlotPattern(st, "rand", rnd, k) == (Some(st.patterns[st.order[idx]]), k + 1)
  {
    DrawInRange(rnd(k), |st.order|);
    idx := (rnd(k) * |st.order| as real).Floor;
  }

  /** A draw in [0, 1) picks an index in [0, n). */
  lemma DrawInRange(draw: real, n: nat)
    requires 0.0 <= draw < 1.0 && n > 0
    ensures DrawIndex(draw, n) == Some((draw * n as real).Floor)
  {
    assert draw * n as real < n as real;
  }

  /** A `clock .5` line keeps `.5` as text, since `parseInt` finds no
      digit before the dot; the arithmetic still reads it as 0.5, so slot i
      is scheduled at `i * 0.5`. */
  lemma TextClockOffsets(st: PlayerState, v: nat, i: nat, p: seq<Arg>, now: real)
    requires st.clock == Some(Text(".5"))
    ensures SlotCall(st, v, i, p, now).clock == Finite(0.5)
    ensures SlotCall(st, v, i, p, now).offset == Finite(i as real * 0.5)
  {
    HalfIsText();
    HalfParts();
    assert DecimalValue("5") == 5;
    assert ExponentPart([]) == None;
  }

  lemma HalfIsText()
    ensures Trim(".5") == ".5" && NonDecimalRadix(".5") == 0
  {
    TrimPadded([], ".5", []);
    assert [] + ".5" + [] == ".5";
  }

  lemma HalfParts()
    ensures SplitDecimal(".5") == DecimalParts([], true, "5", [])
  {
    var s := ".5";
    assert DigitRun(s) == [];
    assert DigitRun(s[1..]) == "5";
  }
}
