/** The typing simulator (`typeText`, `doError`, `shouldDoError`): a text becomes
    an ordered sequence of keystrokes, each correct character possibly preceded
    by a self-cancelling error burst.

    Two oracles drive a run.  The `Math.random()` results form a stream `u`
    (draw `i` is `u.at(i)`).  The shared `typeConfig` record is read afresh at
    every keystroke, and the host may replace its fields while a keystroke is
    being awaited; the model receives the record's value as a timeline `cfg`,
    where `cfg(k)` is what a read sees once the page has received `k` inputs. */
module Typing {
  import opened Random
  import opened Keyboard

  datatype TypeConfig = TypeConfig(minDelay: int, maxDelay: int, errorRate: int)

  /** `typeConfig` before any update. */
  const InitialConfig := TypeConfig(20, 25, 0)

  /** `cfg(k)`: the configuration a read sees after `k` inputs reached the page. */
  type Timeline = nat -> TypeConfig

  /** The delay stays in [minDelay, maxDelay] whenever that range is not empty. */
  predicate DelayFits(c: TypeConfig, d: int) {
    c.minDelay <= c.maxDelay ==> c.minDelay <= d <= c.maxDelay
  }

  /** `getRandomInt(typeConfig.minDelay, typeConfig.maxDelay)` */
  function KeyDelay(u: Draws, c: TypeConfig, x: real): (d: int)
    requires Fair(u) && 0.0 <= x < 1.0
    ensures DelayFits(c, d)
  {
    u.roll(c.minDelay, c.maxDelay, x)
  }

  /** `shouldDoError`: `getRandomInt(0, 100) < typeConfig.errorRate`. */
  predicate ShouldDoError(u: Draws, c: TypeConfig, x: real) {
    u.roll(0, 100, x) < c.errorRate
  }

  /** `getRandomInt(1, 5)`, the number of wrong characters in a burst. */
  function ErrorsAmount(u: Draws, x: real): (n: nat)
    requires Fair(u) && 0.0 <= x < 1.0
    ensures 1 <= n <= 5
  {
    u.roll(1, 5, x)
  }

  /** The first `count` wrong keystrokes of a burst that starts at draw `i` and
      at input `k`. */
  function WrongKeys(count: nat, i: nat, k: nat, u: Draws, cfg: Timeline): (r: seq<Input>)
    requires Fair(u)
    ensures |r| == count
  {
    if count == 0 then []
    else
      var t := count - 1;
      WrongKeys(t, i, k, u, cfg) + [Type(ErrorChar(u.at(i + 2 * t)), KeyDelay(u, cfg(k + t), u.at(i + 2 * t + 1)))]
  }

  /** The first `count` Backspaces of a burst whose Backspaces start at draw `i`
      and at input `k`. */
  function Backspaces(count: nat, i: nat, k: nat, u: Draws, cfg: Timeline): (r: seq<Input>)
    requires Fair(u)
    ensures |r| == count
  {
    if count == 0 then []
    else
      var t := count - 1;
      Backspaces(t, i, k, u, cfg) + [Backspace(KeyDelay(u, cfg(k + t), u.at(i + t)))]
  }

  /** `doError` started at draw `i` and input `k`: draw `i` gives the amount n,
      then n wrong keys (two draws each), then n Backspaces (one draw each). */
  function Burst(i: nat, k: nat, u: Draws, cfg: Timeline): seq<Input>
    requires Fair(u)
  {
    var n := ErrorsAmount(u, u.at(i));
    WrongKeys(n, i + 1, k, u, cfg) + Backspaces(n, i + 1 + 2 * n, k + n, u, cfg)
  }

  /** The number of draws `doError` takes. */
  function BurstDraws(i: nat, u: Draws): nat
    requires Fair(u)
  {
    1 + 3 * ErrorsAmount(u, u.at(i))
  }

  /** What one character of the text produces: an optional burst, then the
      character itself; `next` is the first draw the step left unused. */
  datatype Step = Step(burst: seq<Input>, key: Input, next: nat)

  function StepInputs(s: Step): seq<Input>
  {
    s.burst + [s.key]
  }

  /** A run: one step per character, the inputs those steps send in order, and
      the index of the next unused draw. */
  datatype Run = Run(steps: seq<Step>, inputs: seq<Input>, next: nat)

  /** One iteration of `typeText`'s loop, at draw `i` and input `k`. */
  function CharStep(c: char, i: nat, k: nat, u: Draws, cfg: Timeline): Step
    requires Fair(u)
  {
    if ShouldDoError(u, cfg(k), u.at(i)) then
      var burst := Burst(i + 1, k, u, cfg);
      var j := i + 1 + BurstDraws(i + 1, u);
      Step(burst, Type(c, KeyDelay(u, cfg(k + |burst|), u.at(j))), j + 1)
    else
      Step([], Type(c, KeyDelay(u, cfg(k), u.at(i + 1))), i + 2)
  }

  /** The first `n` iterations of `typeText(page, text)`, started at draw `i`
      and input `k`; the whole call is `n == |text|`. */
  function TypeRun(text: string, n: nat, i: nat, k: nat, u: Draws, cfg: Timeline): Run
    requires Fair(u) && n <= |text|
    decreases n
  {
    if n == 0 then Run([], [], i)
    else Extend(TypeRun(text, n - 1, i, k, u, cfg), text[n - 1], k, u, cfg)
  }

  /** One more iteration of `typeText`'s loop after the run `r`, which began at
      input `k`. */
  function Extend(r: Run, c: char, k: nat, u: Draws, cfg: Timeline): Run
    requires Fair(u)
  {
    var s := CharStep(c, r.next, k + |r.inputs|, u, cfg);
    Run(r.steps + [s], r.inputs + StepInputs(s), s.next)
  }

  /* ---------------- error bursts ---------------- */

  /** The t-th wrong key takes draws i + 2t (letter) and i + 2t + 1 (delay) and
      the configuration read after k + t inputs. */
  lemma {:induction false} WrongKeysAt(count: nat, i: nat, k: nat, u: Draws, cfg: Timeline)
    requires Fair(u)
    ensures forall t :: 0 <= t < count ==>
      WrongKeys(count, i, k, u, cfg)[t] == Type(ErrorChar(u.at(i + 2 * t)), KeyDelay(u, cfg(k + t), u.at(i + 2 * t + 1)))
    decreases count
  {
    if count > 0 {
      WrongKeysAt(count - 1, i, k, u, cfg);
    }
  }

  /** The t-th Backspace takes draw i + t and the configuration read after
      k + t inputs. */
  lemma {:induction false} BackspacesAt(count: nat, i: nat, k: nat, u: Draws, cfg: Timeline)
    requires Fair(u)
    ensures forall t :: 0 <= t < count ==>
      Backspaces(count, i, k, u, cfg)[t] == Backspace(KeyDelay(u, cfg(k + t), u.at(i + t)))
    decreases count
  {
    if count > 0 {
      BackspacesAt(count - 1, i, k, u, cfg);
    }
  }

  /** n wrong lowercase letters followed by exactly n Backspaces, 1 <= n <= 5. */
  ghost predicate IsBurst(b: seq<Input>) {
    |b| % 2 == 0 && 2 <= |b| <= 10 && forall t :: 0 <= t < |b| ==> BurstKeyAt(b, t)
  }

  /** The `t`-th input of the burst `b`: a wrong letter in the first half, a
      Backspace in the second. */
  ghost predicate BurstKeyAt(b: seq<Input>, t: nat)
    requires t < |b|
  {
    if t < |b| / 2 then b[t].Type? && 'a' <= b[t].c <= 'z' else b[t].Backspace?
  }

  lemma BurstShape(i: nat, k: nat, u: Draws, cfg: Timeline)
    requires Fair(u)
    ensures IsBurst(Burst(i, k, u, cfg))
    ensures |Burst(i, k, u, cfg)| == 2 * ErrorsAmount(u, u.at(i))
  {
    var n := ErrorsAmount(u, u.at(i));
    var w := WrongKeys(n, i + 1, k, u, cfg);
    var bs := Backspaces(n, i + 1 + 2 * n, k + n, u, cfg);
    WrongKeysAt(n, i + 1, k, u, cfg);
    BackspacesAt(n, i + 1 + 2 * n, k + n, u, cfg);
    var b := w + bs;
    forall t | 0 <= t < |b| ensures BurstKeyAt(b, t) {
      if t < n {
        assert b[t] == w[t];
      } else {
        assert b[t] == bs[t - n];
      }
    }
  }

  /** On the buffer model any burst leaves the text as it found it. */
  lemma BurstReplay(buffer: string, b: seq<Input>)
    requires IsBurst(b)
    ensures Replay(buffer, b) == buffer
  {
    var n := |b| / 2;
    assert b == b[..n] + b[n..];
    forall t | 0 <= t < n ensures b[..n][t].Type? {
      assert BurstKeyAt(b, t);
    }
    forall t | 0 <= t < |b| - n ensures b[n..][t].Backspace? {
      assert BurstKeyAt(b, n + t);
    }
    ReplayCancels(buffer, b[..n], b[n..]);
  }

  /** A burst presses as many Backspaces as it types wrong keys. */
  lemma BurstCounts(b: seq<Input>)
    requires IsBurst(b)
    ensures TypeCount(b) == BackspaceCount(b) == |b| / 2
  {
    var n := |b| / 2;
    assert b == b[..n] + b[n..];
    forall t | 0 <= t < n ensures b[..n][t].Type? {
      assert BurstKeyAt(b, t);
    }
    forall t | 0 <= t < |b| - n ensures b[n..][t].Backspace? {
      assert BurstKeyAt(b, n + t);
    }
    CountsAppend(b[..n], b[n..]);
    CountTyped(b[..n]);
    CountErased(b[n..]);
  }

  /** Every input of `keys`, the first of which is the page's `k`-th, is a
      keystroke whose delay fits the configuration read when it was sent. */
  ghost predicate PacedFrom(keys: seq<Input>, k: nat, cfg: Timeline) {
    forall t :: 0 <= t < |keys| ==> PacedAt(keys, t, k, cfg)
  }

  /** The `t`-th input of `keys` is a keystroke paced by the configuration read
      after `k + t` inputs. */
  ghost predicate PacedAt(keys: seq<Input>, t: nat, k: nat, cfg: Timeline)
    requires t < |keys|
  {
    (keys[t].Type? || keys[t].Backspace?) && DelayFits(cfg(k + t), keys[t].delay)
  }

  lemma PacedAppend(xs: seq<Input>, ys: seq<Input>, k: nat, cfg: Timeline)
    requires PacedFrom(xs, k, cfg) && PacedFrom(ys, k + |xs|, cfg)
    ensures PacedFrom(xs + ys, k, cfg)
  {
    forall t | 0 <= t < |xs + ys| ensures PacedAt(xs + ys, t, k, cfg) {
      if t < |xs| {
        assert PacedAt(xs, t, k, cfg);
      } else {
        assert PacedAt(ys, t - |xs|, k + |xs|, cfg);
        assert (xs + ys)[t] == ys[t - |xs|];
        assert k + t == (k + |xs|) + (t - |xs|);
      }
    }
  }

  lemma BurstPaced(i: nat, k: nat, u: Draws, cfg: Timeline)
    requires Fair(u)
    ensures PacedFrom(Burst(i, k, u, cfg), k, cfg)
  {
    var n := ErrorsAmount(u, u.at(i));
    var w := WrongKeys(n, i + 1, k, u, cfg);
    var bs := Backspaces(n, i + 1 + 2 * n, k + n, u, cfg);
    WrongKeysAt(n, i + 1, k, u, cfg);
    BackspacesAt(n, i + 1 + 2 * n, k + n, u, cfg);
    assert PacedFrom(w, k, cfg);
    assert PacedFrom(bs, k + n, cfg);
    PacedAppend(w, bs, k, cfg);
  }

  /* ---------------- one character ---------------- */

  /** The shape every step has: nothing or a burst, then a typed character. */
  ghost predicate WellFormed(s: Step) {
    (s.burst == [] || IsBurst(s.burst)) && s.key.Type?
  }

  /** A burst precedes the character exactly when the draw `getRandomInt(0, 100)`
      is below the error rate the configuration holds at that moment. */
  lemma CharStepBursts(c: char, i: nat, k: nat, u: Draws, cfg: Timeline)
    requires Fair(u)
    ensures CharStep(c, i, k, u, cfg).burst != [] <==> u.roll(0, 100, u.at(i)) < cfg(k).errorRate
  {
    if ShouldDoError(u, cfg(k), u.at(i)) {
      BurstShape(i + 1, k, u, cfg);
    }
  }

  /** Every step is nothing or a burst, then the character itself. */
  lemma CharStepShape(c: char, i: nat, k: nat, u: Draws, cfg: Timeline)
    requires Fair(u)
    ensures WellFormed(CharStep(c, i, k, u, cfg)) && CharStep(c, i, k, u, cfg).key.c == c
  {
    if ShouldDoError(u, cfg(k), u.at(i)) {
      BurstShape(i + 1, k, u, cfg);
    }
  }

  /** On the buffer model a step types its character and nothing else. */
  lemma StepReplay(buffer: string, s: Step)
    requires WellFormed(s)
    ensures Replay(buffer, StepInputs(s)) == buffer + [s.key.c]
  {
    ReplayAppend(buffer, s.burst, [s.key]);
    if s.burst != [] {
      BurstReplay(buffer, s.burst);
    }
    assert [s.key][..0] == [];
  }

  /** A step types one key more than the Backspaces it presses. */
  lemma StepCounts(s: Step)
    requires WellFormed(s)
    ensures TypeCount(StepInputs(s)) == 1 + BackspaceCount(StepInputs(s))
  {
    CountsAppend(s.burst, [s.key]);
    CountTyped([s.key]);
    if s.burst != [] {
      BurstCounts(s.burst);
    }
  }

  lemma CharStepPaced(c: char, i: nat, k: nat, u: Draws, cfg: Timeline)
    requires Fair(u)
    ensures PacedFrom(StepInputs(CharStep(c, i, k, u, cfg)), k, cfg)
  {
    var s := CharStep(c, i, k, u, cfg);
    if ShouldDoError(u, cfg(k), u.at(i)) {
      BurstPaced(i + 1, k, u, cfg);
      PacedAppend(s.burst, [s.key], k, cfg);
    }
  }

  /** With error rate 0 no draw in [0, 100] is below it, so no burst ever happens. */
  lemma ZeroRateNeverBursts(u: Draws, x: real)
    requires Fair(u) && 0.0 <= x < 1.0
    ensures !ShouldDoError(u, InitialConfig, x)
  {
  }

  /** With `getRandomInt`'s own rounding the draw is an integer of [0, 100],
      both ends included, so even error rate 100 skips the burst when the draw
      is 100. */
  lemma FullRateCanSkip(at: Stream)
    ensures 0.0 <= 100.0 / 101.0 < 1.0
    ensures RandomInt(0, 100, 100.0 / 101.0) == 100
    ensures !ShouldDoError(Draws(at, RandomInt), TypeConfig(20, 25, 100), 100.0 / 101.0)
  {
    var x := 100.0 / 101.0;
    assert x * 101.0 == 100.0;
    assert Ceil(0.0) == 0;
  }

  /* ---------------- whole runs ---------------- */

  /** A run of `n > 0` characters is the run of `n - 1` extended by one step. */
  lemma TypeRunUnfold(text: string, n: nat, i: nat, k: nat, u: Draws, cfg: Timeline)
    requires Fair(u) && 0 < n <= |text|
    ensures TypeRun(text, n, i, k, u, cfg) == Extend(TypeRun(text, n - 1, i, k, u, cfg), text[n - 1], k, u, cfg)
  {
  }

  lemma TakeSnoc<T>(s: seq<T>, n: nat)
    requires 0 < n <= |s|
    ensures s[..n - 1] + [s[n - 1]] == s[..n]
  {
  }

  /** Each step of a run ends with its own character of the text, and what
      precedes that character is nothing or a burst. */
  ghost predicate StepsSpell(steps: seq<Step>, text: string) {
    |steps| == |text| && forall j :: 0 <= j < |steps| ==> SpellsAt(steps, text, j)
  }

  ghost predicate SpellsAt(steps: seq<Step>, text: string, j: nat)
    requires j < |steps| && j < |text|
  {
    WellFormed(steps[j]) && steps[j].key.c == text[j]
  }

  lemma SpellAppend(steps: seq<Step>, text: string, s: Step, c: char)
    requires StepsSpell(steps, text) && WellFormed(s) && s.key.c == c
    ensures StepsSpell(steps + [s], text + [c])
  {
    var e := steps + [s];
    forall j | 0 <= j < |e| ensures SpellsAt(e, text + [c], j) {
      if j < |steps| {
        assert SpellsAt(steps, text, j);
        assert e[j] == steps[j];
      }
    }
  }

  /** One step per character, in text order. */
  lemma {:induction false} TypeRunSteps(text: string, n: nat, i: nat, k: nat, u: Draws, cfg: Timeline)
    requires Fair(u) && n <= |text|
    ensures StepsSpell(TypeRun(text, n, i, k, u, cfg).steps, text[..n])
    decreases n
  {
    if n > 0 {
      TypeRunSteps(text, n - 1, i, k, u, cfg);
      ExtendSpells(TypeRun(text, n - 1, i, k, u, cfg), text[..n - 1], text[n - 1], k, u, cfg);
      TakeSnoc(text, n);
    } else {
      assert TypeRun(text, n, i, k, u, cfg).steps == [];
    }
  }

  lemma ExtendSpells(r: Run, typed: string, c: char, k: nat, u: Draws, cfg: Timeline)
    requires Fair(u) && StepsSpell(r.steps, typed)
    ensures StepsSpell(Extend(r, c, k, u, cfg).steps, typed + [c])
  {
    CharStepShape(c, r.next, k + |r.inputs|, u, cfg);
    SpellAppend(r.steps, typed, CharStep(c, r.next, k + |r.inputs|, u, cfg), c);
  }

  /** The inputs of a sequence of steps, in order. */
  function Flatten(steps: seq<Step>): seq<Input>
  {
    if steps == [] then [] else Flatten(steps[..|steps| - 1]) + StepInputs(steps[|steps| - 1])
  }

  /** A run's inputs are its steps' inputs, in order. */
  ghost predicate FlatRun(r: Run) {
    r.inputs == Flatten(r.steps)
  }

  lemma {:induction false} TypeRunFlat(text: string, n: nat, i: nat, k: nat, u: Draws, cfg: Timeline)
    requires Fair(u) && n <= |text|
    ensures FlatRun(TypeRun(text, n, i, k, u, cfg))
    decreases n
  {
    if n > 0 {
      TypeRunFlat(text, n - 1, i, k, u, cfg);
      ExtendFlat(TypeRun(text, n - 1, i, k, u, cfg), text[n - 1], k, u, cfg);
      TypeRunUnfold(text, n, i, k, u, cfg);
    } else {
      assert TypeRun(text, n, i, k, u, cfg).steps == [];
    }
  }

  lemma ExtendFlat(r: Run, c: char, k: nat, u: Draws, cfg: Timeline)
    requires Fair(u) && FlatRun(r)
    ensures FlatRun(Extend(r, c, k, u, cfg))
  {
    var e := Extend(r, c, k, u, cfg);
    assert e.steps[..|e.steps| - 1] == r.steps;
  }

  /** Steps that spell `text`, replayed after `buffer`, leave `buffer + text`. */
  lemma {:induction false} SpelledReplay(buffer: string, steps: seq<Step>, text: string)
    requires StepsSpell(steps, text)
    ensures Replay(buffer, Flatten(steps)) == buffer + text
    decreases |steps|
  {
    if steps == [] {
      assert buffer + text == buffer;
    } else {
      var m := |steps| - 1;
      assert SpellsAt(steps, text, m);
      assert StepsSpell(steps[..m], text[..m]) by {
        forall j | 0 <= j < m ensures SpellsAt(steps[..m], text[..m], j) {
          assert SpellsAt(steps, text, j);
        }
      }
      SpelledReplay(buffer, steps[..m], text[..m]);
      ReplayAppend(buffer, Flatten(steps[..m]), StepInputs(steps[m]));
      StepReplay(buffer + text[..m], steps[m]);
      assert buffer + text[..m] + [text[m]] == buffer + text;
    }
  }

  /** Steps that spell `text` type one key per character plus one per Backspace. */
  lemma {:induction false} SpelledCounts(steps: seq<Step>, text: string)
    requires StepsSpell(steps, text)
    ensures TypeCount(Flatten(steps)) == |text| + BackspaceCount(Flatten(steps))
    decreases |steps|
  {
    if steps != [] {
      var m := |steps| - 1;
      assert SpellsAt(steps, text, m);
      assert StepsSpell(steps[..m], text[..m]) by {
        forall j | 0 <= j < m ensures SpellsAt(steps[..m], text[..m], j) {
          assert SpellsAt(steps, text, j);
        }
      }
      SpelledCounts(steps[..m], text[..m]);
      CountsAppend(Flatten(steps[..m]), StepInputs(steps[m]));
      StepCounts(steps[m]);
    }
  }

  /** On the buffer model the first `n` iterations leave exactly the first `n`
      characters typed after what was already there. */
  lemma TypeRunBuffer(buffer: string, text: string, n: nat, i: nat, k: nat, u: Draws, cfg: Timeline)
    requires Fair(u) && n <= |text|
    ensures Replay(buffer, TypeRun(text, n, i, k, u, cfg).inputs) == buffer + text[..n]
  {
    TypeRunSteps(text, n, i, k, u, cfg);
    TypeRunFlat(text, n, i, k, u, cfg);
    SpelledReplay(buffer, TypeRun(text, n, i, k, u, cfg).steps, text[..n]);
  }

  /** Net effect on length: the run types one key per character plus one per
      Backspace it presses. */
  lemma TypeRunCounts(text: string, n: nat, i: nat, k: nat, u: Draws, cfg: Timeline)
    requires Fair(u) && n <= |text|
    ensures TypeCount(TypeRun(text, n, i, k, u, cfg).inputs) ==
            n + BackspaceCount(TypeRun(text, n, i, k, u, cfg).inputs)
  {
    TypeRunSteps(text, n, i, k, u, cfg);
    TypeRunFlat(text, n, i, k, u, cfg);
    SpelledCounts(TypeRun(text, n, i, k, u, cfg).steps, text[..n]);
  }

  /** Every keystroke's delay is drawn from the [minDelay, maxDelay] the
      configuration holds when that keystroke is sent. */
  lemma {:induction false} TypeRunPaced(text: string, n: nat, i: nat, k: nat, u: Draws, cfg: Timeline)
    requires Fair(u) && n <= |text|
    ensures PacedFrom(TypeRun(text, n, i, k, u, cfg).inputs, k, cfg)
    decreases n
  {
    if n > 0 {
      TypeRunPaced(text, n - 1, i, k, u, cfg);
      ExtendPaced(TypeRun(text, n - 1, i, k, u, cfg), text[n - 1], k, u, cfg);
    } else {
      assert TypeRun(text, n, i, k, u, cfg).inputs == [];
    }
  }

  lemma ExtendPaced(r: Run, c: char, k: nat, u: Draws, cfg: Timeline)
    requires Fair(u) && PacedFrom(r.inputs, k, cfg)
    ensures PacedFrom(Extend(r, c, k, u, cfg).inputs, k, cfg)
  {
    CharStepPaced(c, r.next, k + |r.inputs|, u, cfg);
    PacedAppend(r.inputs, StepInputs(CharStep(c, r.next, k + |r.inputs|, u, cfg)), k, cfg);
  }

  /* ---------------- configuration updates during a run ---------------- */

  /** The two timelines hold the same configuration after every input count in
      [lo, hi). */
  ghost predicate Agree(cfg1: Timeline, cfg2: Timeline, lo: nat, hi: nat) {
    forall t: nat :: lo <= t < hi ==> SameAt(cfg1, cfg2, t)
  }

  ghost predicate SameAt(cfg1: Timeline, cfg2: Timeline, t: nat) {
    cfg1(t) == cfg2(t)
  }

  lemma {:induction false} WrongKeysAgree(count: nat, i: nat, k: nat, u: Draws, cfg1: Timeline, cfg2: Timeline)
    requires Fair(u) && Agree(cfg1, cfg2, k, k + count)
    ensures WrongKeys(count, i, k, u, cfg1) == WrongKeys(count, i, k, u, cfg2)
    decreases count
  {
    if count > 0 {
      WrongKeysAgree(count - 1, i, k, u, cfg1, cfg2);
      assert SameAt(cfg1, cfg2, k + count - 1);
    }
  }

  lemma {:induction false} BackspacesAgree(count: nat, i: nat, k: nat, u: Draws, cfg1: Timeline, cfg2: Timeline)
    requires Fair(u) && Agree(cfg1, cfg2, k, k + count)
    ensures Backspaces(count, i, k, u, cfg1) == Backspaces(count, i, k, u, cfg2)
    decreases count
  {
    if count > 0 {
      BackspacesAgree(count - 1, i, k, u, cfg1, cfg2);
      assert SameAt(cfg1, cfg2, k + count - 1);
    }
  }

  lemma BurstAgree(i: nat, k: nat, u: Draws, cfg1: Timeline, cfg2: Timeline)
    requires Fair(u) && Agree(cfg1, cfg2, k, k + 2 * ErrorsAmount(u, u.at(i)))
    ensures Burst(i, k, u, cfg1) == Burst(i, k, u, cfg2)
  {
    var n := ErrorsAmount(u, u.at(i));
    WrongKeysAgree(n, i + 1, k, u, cfg1, cfg2);
    BackspacesAgree(n, i + 1 + 2 * n, k + n, u, cfg1, cfg2);
  }

  /** One iteration reads the configuration only at the input counts it covers:
      two timelines that agree there give the same step. */
  lemma CharStepAgree(c: char, i: nat, k: nat, u: Draws, cfg1: Timeline, cfg2: Timeline)
    requires Fair(u)
    requires Agree(cfg1, cfg2, k, k + |StepInputs(CharStep(c, i, k, u, cfg1))|)
    ensures CharStep(c, i, k, u, cfg1) == CharStep(c, i, k, u, cfg2)
  {
    assert SameAt(cfg1, cfg2, k);
    if ShouldDoError(u, cfg1(k), u.at(i)) {
      var n := ErrorsAmount(u, u.at(i + 1));
      var b := Burst(i + 1, k, u, cfg1);
      assert |b| == 2 * n;
      assert SameAt(cfg1, cfg2, k + 2 * n);
      BurstAgree(i + 1, k, u, cfg1, cfg2);
    }
  }

  /** The first `n` iterations read the configuration only while they run:
      under timelines that agree until their last input they are the same
      iterations, send the same inputs and consume the same draws.  Applied to
      every `n`, an update that takes effect after some input leaves every
      iteration finished before it unchanged. */
  lemma TypeRunAgree(text: string, n: nat, i: nat, k: nat, u: Draws, cfg1: Timeline, cfg2: Timeline)
    requires Fair(u) && n <= |text|
    requires Agree(cfg1, cfg2, k, k + |TypeRun(text, n, i, k, u, cfg1).inputs|)
    ensures TypeRun(text, n, i, k, u, cfg1) == TypeRun(text, n, i, k, u, cfg2)
  {
    var r1, r2 := TypeRunSame(text, n, i, k, u, cfg1, cfg2, k + |TypeRun(text, n, i, k, u, cfg1).inputs|);
  }

  /** The run, begun after `k` inputs, sends its last input before input `hi`. */
  ghost predicate EndsBy(r: Run, k: nat, hi: nat) {
    k + |r.inputs| <= hi
  }

  /** Returns the runs of the first `n` iterations under both timelines; they
      are equal when the first ends by input `hi`. */
  lemma {:induction false} TypeRunSame(text: string, n: nat, i: nat, k: nat, u: Draws, cfg1: Timeline, cfg2: Timeline, hi: nat)
    returns (r1: Run, r2: Run)
    requires Fair(u) && n <= |text| && Agree(cfg1, cfg2, k, hi)
    ensures IsRun(r1, text, n, i, k, u, cfg1) && IsRun(r2, text, n, i, k, u, cfg2)
    ensures EndsBy(r1, k, hi) ==> r1 == r2
    decreases n
  {
    if n == 0 {
      r1, r2 := TypeRun(text, n, i, k, u, cfg1), TypeRun(text, n, i, k, u, cfg2);
      assert r1.inputs == [] && r2.inputs == [];
    } else {
      var p1, p2 := TypeRunSame(text, n - 1, i, k, u, cfg1, cfg2, hi);
      r1, r2 := ExtendSame(p1, p2, text[n - 1], k, u, cfg1, cfg2, hi);
      TypeRunAfter(text, n, i, k, u, cfg1, p1, r1);
      TypeRunAfter(text, n, i, k, u, cfg2, p2, r2);
    }
  }

  /** `r` is the run of the first `n` iterations. */
  ghost predicate IsRun(r: Run, text: string, n: nat, i: nat, k: nat, u: Draws, cfg: Timeline)
    requires Fair(u) && n <= |text|
  {
    r == TypeRun(text, n, i, k, u, cfg)
  }

  /** The run of `n` iterations is the run of `n - 1` extended by one. */
  lemma TypeRunAfter(text: string, n: nat, i: nat, k: nat, u: Draws, cfg: Timeline, p: Run, r: Run)
    requires Fair(u) && 0 < n <= |text| && IsRun(p, text, n - 1, i, k, u, cfg)
    requires r == Extend(p, text[n - 1], k, u, cfg)
    ensures IsRun(r, text, n, i, k, u, cfg)
  {
  }


  lemma AgreeWithin(cfg1: Timeline, cfg2: Timeline, lo: nat, hi: nat, lo2: nat, hi2: nat)
    requires Agree(cfg1, cfg2, lo, hi) && lo <= lo2 && hi2 <= hi
    ensures Agree(cfg1, cfg2, lo2, hi2)
  {
  }

  /** One more iteration after two runs that sent the same inputs and stopped
      at the same draw is the same under timelines that agree until its last
      input, which comes after the earlier runs' own last input. */
  lemma ExtendSame(r1: Run, r2: Run, c: char, k: nat, u: Draws, cfg1: Timeline, cfg2: Timeline, hi: nat)
    returns (q1: Run, q2: Run)
    requires Fair(u) && Agree(cfg1, cfg2, k, hi)
    ensures q1 == Extend(r1, c, k, u, cfg1) && q2 == Extend(r2, c, k, u, cfg2)
    ensures EndsBy(q1, k, hi) ==> EndsBy(r1, k, hi) && (r1 == r2 ==> q1 == q2)
  {
    q1, q2 := Extend(r1, c, k, u, cfg1), Extend(r2, c, k, u, cfg2);
    if EndsBy(q1, k, hi) {
      var m := k + |r1.inputs|;
      var s := CharStep(c, r1.next, m, u, cfg1);
      assert k + |q1.inputs| == m + |StepInputs(s)|;
      AgreeWithin(cfg1, cfg2, k, hi, m, m + |StepInputs(s)|);
      CharStepAgree(c, r1.next, m, u, cfg1, cfg2);
    }
  }

  /** With error rate 0 throughout, the run is exactly the text's characters,
      one keystroke each, and no Backspace. */
  lemma {:induction false} TypeRunWithoutErrors(text: string, n: nat, i: nat, k: nat, u: Draws, cfg: Timeline)
    requires Fair(u) && n <= |text|
    requires forall t: nat :: cfg(t).errorRate <= 0
    ensures TypedExactly(TypeRun(text, n, i, k, u, cfg).inputs, text[..n])
    decreases n
  {
    if n > 0 {
      var p := TypeRun(text, n - 1, i, k, u, cfg);
      TypeRunWithoutErrors(text, n - 1, i, k, u, cfg);
      CharStepShape(text[n - 1], p.next, k + |p.inputs|, u, cfg);
      TypedAppend(p.inputs, text[..n - 1], CharStep(text[n - 1], p.next, k + |p.inputs|, u, cfg));
      assert text[..n - 1] + [text[n - 1]] == text[..n];
    } else {
      assert TypeRun(text, n, i, k, u, cfg).inputs == [];
    }
  }

  /** `keys` types the characters of `text` one by one and does nothing else. */
  ghost predicate TypedExactly(keys: seq<Input>, text: string) {
    |keys| == |text| && forall j :: 0 <= j < |keys| ==> keys[j].Type? && keys[j].c == text[j]
  }

  lemma TypedAppend(xs: seq<Input>, typed: string, s: Step)
    requires TypedExactly(xs, typed) && s.burst == [] && s.key.Type?
    ensures TypedExactly(xs + StepInputs(s), typed + [s.key.c])
  {
    var e := xs + StepInputs(s);
    forall j | 0 <= j < |e| ensures e[j].Type? && e[j].c == (typed + [s.key.c])[j] {
      if j < |xs| {
        assert e[j] == xs[j];
      }
    }
  }

  /* ---------------- the loops themselves ---------------- */

  /** `shouldDoError()`: one draw, compared with the error rate `typeConfig`
      holds now. */
  method ShouldDoErrorNow(page: Page, rng: Rng, cfg: Timeline) returns (b: bool)
    requires Fair(rng.draws)
    modifies rng
    ensures rng.pos == old(rng.pos) + 1
    ensures b <==> ShouldDoError(rng.draws, cfg(|page.log|), rng.draws.at(old(rng.pos)))
  {
    var draw := rng.Int(0, 100);
    b := draw < cfg(|page.log|).errorRate;
  }

  /** `doError(page)`: n wrong letters, then n Backspaces, each keystroke with
      a delay drawn from the configuration of that moment. */
  method DoError(page: Page, rng: Rng, cfg: Timeline)
    requires Fair(rng.draws)
    modifies page, rng
    ensures page.log == old(page.log) + Burst(old(rng.pos), old(|page.log|), rng.draws, cfg)
    ensures rng.pos == old(rng.pos) + BurstDraws(old(rng.pos), rng.draws)
    ensures page.buffer == old(page.buffer)
  {
    ghost var u, i0, k0, log0, buffer0 := rng.draws, rng.pos, |page.log|, page.log, page.buffer;
    var n := rng.Int(1, 5);
    TypeWrongLetters(page, rng, cfg, n, i0 + 1, k0);
    ghost var mid, typed := page.log, page.buffer;
    PressBackspaces(page, rng, cfg, n, i0 + 1 + 2 * n, k0 + n);
    BurstSplit(log0, mid, page.log, n, i0, k0, u, cfg);
    TypedThenErased(buffer0, typed, page.buffer, n);
  }

  /** `n` characters typed after `buffer` and `n` erased give `buffer` back. */
  lemma TypedThenErased(buffer: string, typed: string, erased: string, n: nat)
    requires |typed| == |buffer| + n && typed[..|buffer|] == buffer
    requires erased == typed[..if n <= |typed| then |typed| - n else 0]
    ensures erased == buffer
  {
  }

  /** `doError`'s first loop: `n` wrong letters, two draws each (the letter,
      then the delay). */
  method TypeWrongLetters(page: Page, rng: Rng, cfg: Timeline, n: nat, ghost i: nat, ghost k: nat)
    requires Fair(rng.draws) && rng.pos == i && |page.log| == k
    modifies page, rng
    ensures page.log == old(page.log) + WrongKeys(n, i, k, rng.draws, cfg)
    ensures rng.pos == i + 2 * n
    ensures |page.buffer| == |old(page.buffer)| + n && page.buffer[..|old(page.buffer)|] == old(page.buffer)
  {
    ghost var i0, k0, log0 := rng.pos, |page.log|, page.log;
    for t := 0 to n
      invariant rng.pos == i0 + 2 * t
      invariant page.log == log0 + WrongKeys(t, i0, k0, rng.draws, cfg)
      invariant |page.buffer| == |old(page.buffer)| + t && page.buffer[..|old(page.buffer)|] == old(page.buffer)
    {
      ghost var before := page.log;
      var letter := rng.Next();
      var delay := rng.Int(cfg(|page.log|).minDelay, cfg(|page.log|).maxDelay);
      assert |before| == k0 + t;
      page.Type(ErrorChar(letter), delay);
      assert page.log == before + [Type(ErrorChar(rng.draws.at(i0 + 2 * t)), KeyDelay(rng.draws, cfg(k0 + t), rng.draws.at(i0 + 2 * t + 1)))];
      WrongKeysSnoc(log0, t, i0, k0, rng.draws, cfg);
    }
  }

  /** `doError`'s second loop: `n` Backspaces, one draw each. */
  method PressBackspaces(page: Page, rng: Rng, cfg: Timeline, n: nat, ghost i: nat, ghost k: nat)
    requires Fair(rng.draws) && rng.pos == i && |page.log| == k
    modifies page, rng
    ensures page.log == old(page.log) + Backspaces(n, i, k, rng.draws, cfg)
    ensures rng.pos == i + n
    ensures page.buffer == old(page.buffer)[..if n <= |old(page.buffer)| then |old(page.buffer)| - n else 0]
  {
    ghost var i0, k0, log0 := rng.pos, |page.log|, page.log;
    for t := 0 to n
      invariant rng.pos == i0 + t
      invariant page.log == log0 + Backspaces(t, i0, k0, rng.draws, cfg)
      invariant page.buffer == old(page.buffer)[..if t <= |old(page.buffer)| then |old(page.buffer)| - t else 0]
    {
      ghost var before := page.log;
      var delay := rng.Int(cfg(|page.log|).minDelay, cfg(|page.log|).maxDelay);
      assert |before| == k0 + t;
      page.PressBackspace(delay);
      assert page.log == before + [Backspace(KeyDelay(rng.draws, cfg(k0 + t), rng.draws.at(i0 + t)))];
      BackspacesSnoc(log0, t, i0, k0, rng.draws, cfg);
    }
  }

  /** The two loops of `doError` together send its burst. */
  lemma BurstSplit(log0: seq<Input>, mid: seq<Input>, after: seq<Input>, n: nat, i: nat, k: nat, u: Draws, cfg: Timeline)
    requires Fair(u) && n == ErrorsAmount(u, u.at(i))
    requires mid == log0 + WrongKeys(n, i + 1, k, u, cfg)
    requires after == mid + Backspaces(n, i + 1 + 2 * n, k + n, u, cfg)
    ensures after == log0 + Burst(i, k, u, cfg)
  {
    AppendAssoc(log0, WrongKeys(n, i + 1, k, u, cfg), Backspaces(n, i + 1 + 2 * n, k + n, u, cfg));
  }

  lemma AppendAssoc<T>(a: seq<T>, b: seq<T>, c: seq<T>)
    ensures (a + b) + c == a + (b + c)
  {
  }

  lemma WrongKeysSnoc(log: seq<Input>, t: nat, i: nat, k: nat, u: Draws, cfg: Timeline)
    requires Fair(u)
    ensures log + WrongKeys(t + 1, i, k, u, cfg) ==
            (log + WrongKeys(t, i, k, u, cfg)) + [Type(ErrorChar(u.at(i + 2 * t)), KeyDelay(u, cfg(k + t), u.at(i + 2 * t + 1)))]
  {
    AppendAssoc(log, WrongKeys(t, i, k, u, cfg), [Type(ErrorChar(u.at(i + 2 * t)), KeyDelay(u, cfg(k + t), u.at(i + 2 * t + 1)))]);
  }

  lemma BackspacesSnoc(log: seq<Input>, t: nat, i: nat, k: nat, u: Draws, cfg: Timeline)
    requires Fair(u)
    ensures log + Backspaces(t + 1, i, k, u, cfg) ==
            (log + Backspaces(t, i, k, u, cfg)) + [Backspace(KeyDelay(u, cfg(k + t), u.at(i + t)))]
  {
    AppendAssoc(log, Backspaces(t, i, k, u, cfg), [Backspace(KeyDelay(u, cfg(k + t), u.at(i + t)))]);
  }

  /** `after` is `before` followed by the step of character `c` at draw `i`. */
  ghost predicate Stepped(before: seq<Input>, after: seq<Input>, pos: nat, c: char, i: nat, u: Draws, cfg: Timeline)
    requires Fair(u)
  {
    var s := CharStep(c, i, |before|, u, cfg);
    after == before + StepInputs(s) && pos == s.next
  }

  /** One iteration of `typeText`'s loop: maybe a burst, then the character. */
  method TypeChar(page: Page, rng: Rng, cfg: Timeline, c: char)
    requires Fair(rng.draws)
    modifies page, rng
    ensures Stepped(old(page.log), page.log, rng.pos, c, old(rng.pos), rng.draws, cfg)
    ensures page.buffer == old(page.buffer) + [c]
  {
    ghost var i0, log0 := rng.pos, page.log;
    var e := ShouldDoErrorNow(page, rng, cfg);
    if e {
      DoError(page, rng, cfg);
    }
    ghost var mid, at := page.log, rng.pos;
    var delay := rng.Int(cfg(|page.log|).minDelay, cfg(|page.log|).maxDelay);
    page.Type(c, delay);
    StepSent(log0, mid, page.log, at, rng.pos, e, c, i0, rng.draws, cfg);
  }

  /** What the iteration sent, put together: the optional burst, then the key. */
  lemma StepSent(log0: seq<Input>, mid: seq<Input>, after: seq<Input>, at: nat, pos: nat,
                 e: bool, c: char, i: nat, u: Draws, cfg: Timeline)
    requires Fair(u) && e == ShouldDoError(u, cfg(|log0|), u.at(i))
    requires e ==> mid == log0 + Burst(i + 1, |log0|, u, cfg) && at == i + 1 + BurstDraws(i + 1, u)
    requires !e ==> mid == log0 && at == i + 1
    requires after == mid + [Type(c, KeyDelay(u, cfg(|mid|), u.at(at)))] && pos == at + 1
    ensures Stepped(log0, after, pos, c, i, u, cfg)
  {
    var s := CharStep(c, i, |log0|, u, cfg);
    if e {
      AppendAssoc(log0, s.burst, [s.key]);
    } else {
      assert StepInputs(s) == [s.key];
    }
  }

  /** The first `j` iterations of `typeText` have sent `log0` followed by the
      run's inputs, and used the draws up to the run's `next`. */
  ghost predicate RanFor(log: seq<Input>, pos: nat, log0: seq<Input>, text: string, j: nat, i: nat, u: Draws, cfg: Timeline)
    requires Fair(u) && j <= |text|
  {
    var r := TypeRun(text, j, i, |log0|, u, cfg);
    log == log0 + r.inputs && pos == r.next
  }

  /** `typeText(page, text)` */
  method TypeText(page: Page, rng: Rng, cfg: Timeline, text: string)
    requires Fair(rng.draws)
    modifies page, rng
    ensures page.log == old(page.log) + TypeRun(text, |text|, old(rng.pos), old(|page.log|), rng.draws, cfg).inputs
    ensures rng.pos == TypeRun(text, |text|, old(rng.pos), old(|page.log|), rng.draws, cfg).next
    ensures page.buffer == old(page.buffer) + text
  {
    ghost var i0, log0 := rng.pos, page.log;
    for j := 0 to |text|
      invariant RanFor(page.log, rng.pos, log0, text, j, i0, rng.draws, cfg)
      invariant page.buffer == old(page.buffer) + text[..j]
    {
      ghost var before, at := page.log, rng.pos;
      TypeChar(page, rng, cfg, text[j]);
      RanOneMore(before, at, page.log, rng.pos, log0, text, j, i0, rng.draws, cfg);
      TakeSnoc(text, j + 1);
    }
    assert text[..|text|] == text;
  }

  /** One more iteration of the loop keeps the loop's invariant. */
  lemma RanOneMore(before: seq<Input>, at: nat, after: seq<Input>, pos: nat,
                   log0: seq<Input>, text: string, j: nat, i: nat, u: Draws, cfg: Timeline)
    requires Fair(u) && j < |text|
    requires RanFor(before, at, log0, text, j, i, u, cfg)
    requires Stepped(before, after, pos, text[j], at, u, cfg)
    ensures RanFor(after, pos, log0, text, j + 1, i, u, cfg)
  {
    TypeRunUnfold(text, j + 1, i, |log0|, u, cfg);
    ExtendLog(TypeRun(text, j, i, |log0|, u, cfg), log0, before, after, pos, text[j], u, cfg);
  }

  lemma ExtendLog(r: Run, log0: seq<Input>, before: seq<Input>, after: seq<Input>, pos: nat,
                  c: char, u: Draws, cfg: Timeline)
    requires Fair(u) && before == log0 + r.inputs
    requires Stepped(before, after, pos, c, r.next, u, cfg)
    ensures after == log0 + Extend(r, c, |log0|, u, cfg).inputs
    ensures pos == Extend(r, c, |log0|, u, cfg).next
  {
    var s := CharStep(c, r.next, |before|, u, cfg);
    assert |before| == |log0| + |r.inputs|;
    AppendAssoc(log0, r.inputs, StepInputs(s));
  }
}
