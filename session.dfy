/** The event handlers the automation installs on the browser, in its three
    copies: Electron's main process (src/main/utils/puppeteer.ts), the older
    Electron copy (src/backend/utils/puppeteer.ts) and the Node script the
    Tauri app starts (src/main/utils/puppeteer-node.cjs).

    The browser itself is abstract.  An event arrives as a method call with
    what the handler would observe (a URL, a target, a batch of mutation
    records, the outcome of a wait); what the handlers do shows up as inputs
    on the game page, pages closed, messages to the window, the exit code,
    and the counters of continued requests and installed race listeners. */
module Session {
  import opened Wrappers
  import opened Json
  import opened Random
  import opened Keyboard
  import opened Typing
  import opened Base64
  import opened Grok

  const ChallengePrefix := "https://play.typeracer.com/challenge?id="
  const SubmitButton := ".dialogContent button"
  const TextInput := ".txtInput"
  const TrafficLight := "trafficLight"
  const RaceStartOffset := "-495px"

  // -------------------------------------------------------- challenge URLs

  /** `url.startsWith(ChallengePrefix)` */
  predicate IsChallengeUrl(url: string)
  {
    ChallengePrefix <= url
  }

  /** The response filter lets through exactly the URLs made of the
      challenge prefix followed by anything. */
  lemma ChallengeUrlMeaning(url: string)
    ensures IsChallengeUrl(url) <==> exists id :: url == ChallengePrefix + id
  {
    if IsChallengeUrl(url) {
      var id := url[|ChallengePrefix|..];
      assert url == ChallengePrefix + id;
    }
    if exists id :: url == ChallengePrefix + id {
      var id :| url == ChallengePrefix + id;
      assert url[..|ChallengePrefix|] == ChallengePrefix;
    }
  }

  // ------------------------------------------------------ the race listener

  /** `sub` occurs in `s` starting at position `i`. */
  ghost predicate OccursAt(sub: string, s: string, i: int)
  {
    0 <= i && i + |sub| <= |s| && s[i..i + |sub|] == sub
  }

  ghost predicate OccursIn(sub: string, s: string)
  {
    exists i :: OccursAt(sub, s, i)
  }

  /** `s.includes(sub)` */
  function Includes(s: string, sub: string): (r: bool)
    ensures r <==> OccursIn(sub, s)
    decreases |s|
  {
    if sub <= s then
      assert OccursAt(sub, s, 0);
      true
    else if s == [] then false
    else
      OccursShift(sub, s);
      Includes(s[1..], sub)
  }

  /** When `s` does not start with `sub`, `sub` occurs in `s` exactly when it
      occurs in `s` without its first character. */
  lemma OccursShift(sub: string, s: string)
    requires s != [] && !(sub <= s)
    ensures OccursIn(sub, s) <==> OccursIn(sub, s[1..])
  {
    if OccursIn(sub, s) {
      var i :| OccursAt(sub, s, i);
      assert i != 0;
      assert s[1..][i - 1..i - 1 + |sub|] == s[i..i + |sub|];
      assert OccursAt(sub, s[1..], i - 1);
    }
    if OccursIn(sub, s[1..]) {
      var i :| OccursAt(sub, s[1..], i);
      assert s[1..][i..i + |sub|] == s[i + 1..i + 1 + |sub|];
      assert OccursAt(sub, s, i + 1);
    }
  }

  /** The target of a mutation record: its class list (`None` for a node
      without one) and its inline `background` style. */
  datatype Element = Element(classes: Option<seq<string>>, background: string)

  /** The traffic light turning to "go". */
  predicate IsRaceStart(el: Element)
  {
    el.classes.Some? && TrafficLight in el.classes.value && Includes(el.background, RaceStartOffset)
  }

  /** How many records of a batch show the race starting. */
  function Matches(batch: seq<Element>): nat
  {
    if batch == [] then 0
    else Matches(batch[..|batch| - 1]) + (if IsRaceStart(batch[|batch| - 1]) then 1 else 0)
  }

  /** A batch holds no race start exactly when none of its records is one. */
  lemma {:induction false} MatchesZero(batch: seq<Element>)
    ensures Matches(batch) == 0 <==> forall i :: 0 <= i < |batch| ==> !IsRaceStart(batch[i])
  {
    if batch != [] {
      var front := batch[..|batch| - 1];
      MatchesZero(front);
      assert forall i :: 0 <= i < |front| ==> front[i] == batch[i];
    }
  }

  /** Records are counted one by one, with no de-duplication across batches. */
  lemma {:induction false} MatchesAppend(a: seq<Element>, b: seq<Element>)
    ensures Matches(a + b) == Matches(a) + Matches(b)
    decreases |b|
  {
    if b == [] {
      assert a + b == a;
    } else {
      var b' := b[..|b| - 1];
      assert (a + b)[..|a + b| - 1] == a + b';
      MatchesAppend(a, b');
    }
  }

  /** `n` calls with the same text. */
  function Repeat(s: string, n: nat): (r: seq<string>)
    ensures |r| == n && forall j :: 0 <= j < n ==> r[j] == s
  {
    if n == 0 then [] else Repeat(s, n - 1) + [s]
  }

  /** The TypeScript race listener on one batch of mutation records: each
      race start calls `gameStarted` with the passage text, whatever it is;
      when there is no passage element the callback throws at the first race
      start and the rest of the batch is not looked at. */
  method RaceListenerTs(batch: seq<Element>, passage: Option<string>) returns (calls: seq<string>, threw: bool)
    ensures passage.Some? ==> !threw && calls == Repeat(passage.value, Matches(batch))
    ensures passage.None? ==> calls == [] && (threw <==> Matches(batch) > 0)
  {
    calls, threw := [], false;
    for i := 0 to |batch|
      invariant passage.Some? ==> calls == Repeat(passage.value, Matches(batch[..i]))
      invariant passage.None? ==> calls == [] && Matches(batch[..i]) == 0
    {
      assert batch[..i + 1][..i] == batch[..i];
      if IsRaceStart(batch[i]) {
        if passage.None? {
          MatchesZero(batch);
          threw := true;
          return;
        }
        calls := calls + [passage.value];
      }
    }
    assert batch[..|batch|] == batch;
  }

  /** The Node script's race listener: it calls `gameStarted` only with a
      non-empty passage text, and never throws. */
  method RaceListenerNode(batch: seq<Element>, passage: Option<string>) returns (calls: seq<string>)
    ensures passage.Some? && passage.value != "" ==> calls == Repeat(passage.value, Matches(batch))
    ensures passage.None? || passage.value == "" ==> calls == []
  {
    calls := [];
    for i := 0 to |batch|
      invariant passage.Some? && passage.value != "" ==> calls == Repeat(passage.value, Matches(batch[..i]))
      invariant passage.None? || passage.value == "" ==> calls == []
    {
      assert batch[..i + 1][..i] == batch[..i];
      if IsRaceStart(batch[i]) && passage.Some? && passage.value != "" {
        calls := calls + [passage.value];
      }
    }
    assert batch[..|batch|] == batch;
  }

  // ------------------------------------------------------- typing the text

  /** The characters of an array whose items are all one-character strings,
      in order; `None` for any other array. */
  function ItemChars(items: seq<Json>): (t: Option<string>)
    ensures t.Some? <==> forall i :: 0 <= i < |items| ==> items[i].Str? && |items[i].s| == 1
    ensures t.Some? ==> |t.value| == |items| && forall i :: 0 <= i < |items| ==> t.value[i] == items[i].s[0]
  {
    if items == [] then Some("")
    else if !(items[0].Str? && |items[0].s| == 1) then None
    else
      match ItemChars(items[1..])
      case None =>
        assert forall i :: 1 <= i < |items| ==> items[i] == items[1..][i - 1];
        None
      case Some(rest) =>
        assert forall i :: 1 <= i < |items| ==> items[i] == items[1..][i - 1];
        Some(items[0].s + rest)
  }

  /** The text `solveChallenge` types, then submits.  `null`, a rejected
      promise and every falsy answer ("", 0, false) are skipped.  A truthy
      object, number or `true` is not iterable, so `typeText` throws before
      it sends anything and the submit click never happens.  An array is
      iterable: one whose items are one-character strings is typed exactly
      like the string they spell, and the empty array types nothing and
      submits. */
  function ChallengeText(a: Answer): (t: Option<string>)
    ensures a.Resolved? && a.text.Str? ==> (t.Some? <==> Truthy(Some(a.text))) && (t.Some? ==> t.value == a.text.s)
    ensures a.Resolved? && a.text.Arr? && (forall i :: 0 <= i < |a.text.items| ==> a.text.items[i].Str? && |a.text.items[i].s| == 1) ==>
      t.Some? && |t.value| == |a.text.items| && forall i :: 0 <= i < |t.value| ==> t.value[i] == a.text.items[i].s[0]
    ensures t.Some? ==> a.Resolved? && (a.text.Str? || a.text.Arr?)
  {
    if a.Resolved? && a.text.Str? && a.text.s != "" then Some(a.text.s)
    else if a.Resolved? && a.text.Arr? then ItemChars(a.text.items)
    else None
  }

  /** A run of `typeText` sends keystrokes only, never a click. */
  lemma NoClicks(text: string, i: nat, k: nat, u: Draws, cfg: Timeline)
    requires Fair(u)
    ensures forall t :: 0 <= t < |TypeRun(text, |text|, i, k, u, cfg).inputs| ==>
      !TypeRun(text, |text|, i, k, u, cfg).inputs[t].Click?
  {
    var keys := TypeRun(text, |text|, i, k, u, cfg).inputs;
    TypeRunPaced(text, |text|, i, k, u, cfg);
    forall t | 0 <= t < |keys| ensures !keys[t].Click? {
      assert PacedAt(keys, t, k, cfg);
    }
  }

  /** A click after keystrokes that hold no click is the only click, and
      leaves the text alone. */
  lemma ClickAfter(buffer: string, keys: seq<Input>, selector: string)
    requires forall t :: 0 <= t < |keys| ==> !keys[t].Click?
    ensures var sent := keys + [Click(selector)];
      sent[|sent| - 1] == Click(selector) &&
      (forall t :: 0 <= t < |sent| - 1 ==> !sent[t].Click?) &&
      Replay(buffer, sent) == Replay(buffer, keys)
  {
    var sent := keys + [Click(selector)];
    assert sent[..|sent| - 1] == keys;
  }

  /** A click before keystrokes that hold no click is the only click, and
      leaves the text alone. */
  lemma ClickBefore(buffer: string, keys: seq<Input>, selector: string)
    requires forall t :: 0 <= t < |keys| ==> !keys[t].Click?
    ensures var sent := [Click(selector)] + keys;
      sent[0] == Click(selector) &&
      (forall t :: 1 <= t < |sent| ==> !sent[t].Click?) &&
      Replay(buffer, sent) == Replay(buffer, keys)
  {
    var sent := [Click(selector)] + keys;
    assert forall t :: 1 <= t < |sent| ==> sent[t] == keys[t - 1];
    ReplayAppend(buffer, [Click(selector)], keys);
    assert Replay(buffer, [Click(selector)]) == buffer by {
      assert [Click(selector)][..0] == [];
    }
  }

  /** Solving a challenge: the click on the submit button comes after every
      keystroke, and the input ends up holding the text typed after what was
      there. */
  lemma SubmitComesLast(buffer: string, text: string, i: nat, k: nat, u: Draws, cfg: Timeline)
    requires Fair(u)
    ensures var sent := TypeRun(text, |text|, i, k, u, cfg).inputs + [Click(SubmitButton)];
      sent[|sent| - 1] == Click(SubmitButton) &&
      (forall t :: 0 <= t < |sent| - 1 ==> !sent[t].Click?) &&
      Replay(buffer, sent) == buffer + text
  {
    var keys := TypeRun(text, |text|, i, k, u, cfg).inputs;
    NoClicks(text, i, k, u, cfg);
    ClickAfter(buffer, keys, SubmitButton);
    TypeRunBuffer(buffer, text, |text|, i, k, u, cfg);
    assert text[..|text|] == text;
  }

  /** Starting a race: the click that focuses the input comes before every
      keystroke, and the input ends up holding the passage. */
  lemma FocusComesFirst(buffer: string, text: string, i: nat, k: nat, u: Draws, cfg: Timeline)
    requires Fair(u)
    ensures var sent := [Click(TextInput)] + TypeRun(text, |text|, i, k + 1, u, cfg).inputs;
      sent[0] == Click(TextInput) &&
      (forall t :: 1 <= t < |sent| ==> !sent[t].Click?) &&
      Replay(buffer, sent) == buffer + text
  {
    var keys := TypeRun(text, |text|, i, k + 1, u, cfg).inputs;
    NoClicks(text, i, k + 1, u, cfg);
    ClickBefore(buffer, keys, TextInput);
    TypeRunBuffer(buffer, text, |text|, i, k + 1, u, cfg);
    assert text[..|text|] == text;
  }

  // ------------------------------------------------------------ the session

  /** Which copy of the handlers is running. */
  datatype Host = MainTs | BackendTs | NodeScript

  datatype TargetKind = PageTarget | OtherTarget

  /** What the handlers have done besides typing: pages closed (by their
      identity), messages sent to the window, the exit code if the process
      exited, whether the browser was closed, requests continued and race
      listeners installed. */
  datatype Effects = Effects(closedPages: seq<nat>, messages: seq<string>, exitCode: Option<int>,
                             browserClosed: bool, continued: nat, listeners: nat)

  const NoEffects := Effects([], [], None, false, 0, 0)

  /** One browser session: the primary page (`const [page] = await
      browser.pages()`), the random draws and configuration timeline the
      typing uses, and the handlers' effects. */
  class Session {
    const host: Host
    const primary: nat
    const page: Page
    const rng: Rng
    const cfg: Timeline
    var fx: Effects

    /** The primary page is never among the closed ones. */
    predicate Valid()
      reads this
    {
      primary !in fx.closedPages
    }

    constructor (host: Host, primary: nat, page: Page, rng: Rng, cfg: Timeline)
      ensures this.host == host && this.primary == primary && this.page == page && this.rng == rng && this.cfg == cfg
      ensures fx == NoEffects && Valid()
    {
      this.host, this.primary, this.page, this.rng, this.cfg := host, primary, page, rng, cfg;
      fx := NoEffects;
    }

    /** `browser.on('disconnected')`: the Electron copies tell the window to
        re-enable its button; the Node script exits with code 0. */
    method OnDisconnected()
      modifies this
      ensures host != NodeScript ==> fx == old(fx).(messages := old(fx.messages) + ["enableBrowser"])
      ensures host == NodeScript ==> fx == old(fx).(exitCode := Some(0))
      ensures Valid() <==> old(Valid())
    {
      if host == NodeScript {
        fx := fx.(exitCode := Some(0));
      } else {
        fx := fx.(messages := fx.messages + ["enableBrowser"]);
      }
    }

    /** `browser.on('targetcreated')`: a new page other than the primary one
        is closed; other targets, and page targets without a page, are left
        alone. */
    method OnTargetCreated(kind: TargetKind, target: Option<nat>)
      requires Valid()
      modifies this
      ensures kind == PageTarget && target.Some? && target.value != primary ==>
        fx == old(fx).(closedPages := old(fx.closedPages) + [target.value])
      ensures !(kind == PageTarget && target.Some? && target.value != primary) ==> fx == old(fx)
      ensures Valid()
    {
      if kind == PageTarget && target.Some? && target.value != primary {
        fx := fx.(closedPages := fx.closedPages + [target.value]);
      }
    }

    /** `page.on('close')`: the Electron main copy closes the browser, the
        Node script also exits; the older Electron copy has no such handler. */
    method OnPageClosed()
      modifies this
      ensures host == MainTs ==> fx == old(fx).(browserClosed := true)
      ensures host == NodeScript ==> fx == old(fx).(browserClosed := true, exitCode := Some(0))
      ensures host == BackendTs ==> fx == old(fx)
      ensures Valid() <==> old(Valid())
    {
      if host == MainTs {
        fx := fx.(browserClosed := true);
      } else if host == NodeScript {
        fx := fx.(browserClosed := true, exitCode := Some(0));
      }
    }

    /** `page.on('request')`: every request is let through. */
    method OnRequest()
      modifies this
      ensures fx == old(fx).(continued := old(fx.continued) + 1)
      ensures Valid() <==> old(Valid())
    {
      fx := fx.(continued := fx.continued + 1);
    }

    /** `page.on('framenavigated')`: the race listener is installed again
        after a navigation of the main frame only. */
    method OnFrameNavigated(mainFrame: bool)
      modifies this
      ensures fx == old(fx).(listeners := old(fx.listeners) + if mainFrame then 1 else 0)
      ensures Valid() <==> old(Valid())
    {
      if mainFrame {
        fx := fx.(listeners := fx.listeners + 1);
      }
    }

    /** `solveChallenge(page, image)` once `getTextFromImg` has settled with
        `answer`: a non-empty text is typed and then submitted; anything
        else sends nothing. */
    method SolveChallenge(answer: Answer)
      requires Fair(rng.draws)
      modifies page, rng
      ensures ChallengeText(answer).None? ==>
        page.log == old(page.log) && page.buffer == old(page.buffer) && rng.pos == old(rng.pos)
      ensures ChallengeText(answer).Some? ==>
        var run := TypeRun(ChallengeText(answer).value, |ChallengeText(answer).value|, old(rng.pos), old(|page.log|), rng.draws, cfg);
        page.log == old(page.log) + run.inputs + [Click(SubmitButton)] &&
        page.buffer == old(page.buffer) + ChallengeText(answer).value &&
        rng.pos == run.next
    {
      var text := ChallengeText(answer);
      if text.Some? {
        TypeText(page, rng, cfg, text.value);
        page.Click(SubmitButton);
      }
    }

    /** `page.on('response')`: only a challenge response has its image read
        and the challenge solved; a rejection is swallowed. */
    method OnResponse(url: string, image: seq<Byte>, client: Option<string>,
                      create: (string, Json) -> Option<Json>, parse: Parser)
      requires Fair(rng.draws)
      modifies page, rng
      ensures !IsChallengeUrl(url) ==>
        page.log == old(page.log) && page.buffer == old(page.buffer) && rng.pos == old(rng.pos)
      ensures IsChallengeUrl(url) && ChallengeText(JsGetTextFromImg(client, image, create, parse)).None? ==>
        page.log == old(page.log) && page.buffer == old(page.buffer) && rng.pos == old(rng.pos)
      ensures IsChallengeUrl(url) && ChallengeText(JsGetTextFromImg(client, image, create, parse)).Some? ==>
        var text := ChallengeText(JsGetTextFromImg(client, image, create, parse)).value;
        var run := TypeRun(text, |text|, old(rng.pos), old(|page.log|), rng.draws, cfg);
        page.log == old(page.log) + run.inputs + [Click(SubmitButton)] &&
        page.buffer == old(page.buffer) + text && rng.pos == run.next
    {
      if IsChallengeUrl(url) {
        SolveChallenge(JsGetTextFromImg(client, image, create, parse));
      }
    }

    /** The exposed `gameStarted(raceText)`: wait for the input, click it,
        wait until an input has the focus, then type.  A wait that times out
        rejects the call there. */
    method GameStarted(raceText: string, inputFound: bool, focused: bool)
      requires Fair(rng.draws)
      modifies page, rng
      ensures !inputFound ==>
        page.log == old(page.log) && page.buffer == old(page.buffer) && rng.pos == old(rng.pos)
      ensures inputFound && !focused ==>
        page.log == old(page.log) + [Click(TextInput)] && page.buffer == old(page.buffer) && rng.pos == old(rng.pos)
      ensures inputFound && focused ==>
        var run := TypeRun(raceText, |raceText|, old(rng.pos), old(|page.log|) + 1, rng.draws, cfg);
        page.log == old(page.log) + [Click(TextInput)] + run.inputs &&
        page.buffer == old(page.buffer) + raceText && rng.pos == run.next
    {
      if !inputFound {
        return;
      }
      page.Click(TextInput);
      if !focused {
        return;
      }
      TypeText(page, rng, cfg, raceText);
    }
  }
}
