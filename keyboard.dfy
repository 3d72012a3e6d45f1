/** What the automation does to the game page: keystrokes sent through
    Puppeteer's `page.keyboard` and clicks on a selector.  The page's focused
    text input is modelled as a character buffer: a typed character is
    appended, Backspace deletes the last character (and does nothing on an
    empty buffer), a click leaves the text alone. */
module Keyboard {

  /** One input delivered to the page, with the `delay` option it was sent with. */
  datatype Input =
    | Type(c: char, delay: int)
    | Backspace(delay: int)
    | Click(selector: string)

  /** The text after one input. */
  function Apply(buffer: string, input: Input): string
  {
    match input
    case Type(c, _) => buffer + [c]
    case Backspace(_) => if buffer == [] then [] else buffer[..|buffer| - 1]
    case Click(_) => buffer
  }

  /** The buffer after the inputs are delivered in order. */
  function Replay(buffer: string, inputs: seq<Input>): string
  {
    if inputs == [] then buffer
    else Apply(Replay(buffer, inputs[..|inputs| - 1]), inputs[|inputs| - 1])
  }

  lemma {:induction false} ReplayAppend(buffer: string, xs: seq<Input>, ys: seq<Input>)
    ensures Replay(buffer, xs + ys) == Replay(Replay(buffer, xs), ys)
    decreases |ys|
  {
    if ys == [] {
      assert xs + ys == xs;
    } else {
      var ys' := ys[..|ys| - 1];
      assert (xs + ys)[..|xs + ys| - 1] == xs + ys';
      ReplayAppend(buffer, xs, ys');
    }
  }

  function TypeCount(inputs: seq<Input>): nat
  {
    if inputs == [] then 0
    else TypeCount(inputs[..|inputs| - 1]) + (if inputs[|inputs| - 1].Type? then 1 else 0)
  }

  function BackspaceCount(inputs: seq<Input>): nat
  {
    if inputs == [] then 0
    else BackspaceCount(inputs[..|inputs| - 1]) + (if inputs[|inputs| - 1].Backspace? then 1 else 0)
  }

  lemma {:induction false} CountsAppend(xs: seq<Input>, ys: seq<Input>)
    ensures TypeCount(xs + ys) == TypeCount(xs) + TypeCount(ys)
    ensures BackspaceCount(xs + ys) == BackspaceCount(xs) + BackspaceCount(ys)
    decreases |ys|
  {
    if ys == [] {
      assert xs + ys == xs;
    } else {
      var ys' := ys[..|ys| - 1];
      assert (xs + ys)[..|xs + ys| - 1] == xs + ys';
      CountsAppend(xs, ys');
    }
  }

  ghost predicate AllTyped(keys: seq<Input>) {
    forall t :: 0 <= t < |keys| ==> keys[t].Type?
  }

  ghost predicate AllBackspaces(keys: seq<Input>) {
    forall t :: 0 <= t < |keys| ==> keys[t].Backspace?
  }

  /** Typed characters extend the buffer and keep what was there. */
  lemma {:induction false} ReplayTyped(buffer: string, keys: seq<Input>)
    requires AllTyped(keys)
    ensures var s := Replay(buffer, keys); |s| == |buffer| + |keys| && s[..|buffer|] == buffer
    decreases |keys|
  {
    if keys != [] {
      ReplayTyped(buffer, keys[..|keys| - 1]);
    }
  }

  /** m Backspaces delete the last m characters. */
  lemma {:induction false} ReplayErased(buffer: string, keys: seq<Input>)
    requires AllBackspaces(keys) && |keys| <= |buffer|
    ensures Replay(buffer, keys) == buffer[..|buffer| - |keys|]
    decreases |keys|
  {
    if keys != [] {
      ReplayErased(buffer, keys[..|keys| - 1]);
    }
  }

  /** n typed characters followed by n Backspaces leave the buffer unchanged. */
  lemma ReplayCancels(buffer: string, typed: seq<Input>, erased: seq<Input>)
    requires AllTyped(typed) && AllBackspaces(erased) && |typed| == |erased|
    ensures Replay(buffer, typed + erased) == buffer
  {
    ReplayAppend(buffer, typed, erased);
    ReplayTyped(buffer, typed);
    ReplayErased(Replay(buffer, typed), erased);
  }

  lemma {:induction false} CountTyped(keys: seq<Input>)
    requires AllTyped(keys)
    ensures TypeCount(keys) == |keys| && BackspaceCount(keys) == 0
    decreases |keys|
  {
    if keys != [] {
      CountTyped(keys[..|keys| - 1]);
    }
  }

  lemma {:induction false} CountErased(keys: seq<Input>)
    requires AllBackspaces(keys)
    ensures TypeCount(keys) == 0 && BackspaceCount(keys) == |keys|
    decreases |keys|
  {
    if keys != [] {
      CountErased(keys[..|keys| - 1]);
    }
  }

  /** The game page as the automation sees it: the text of its focused input
      and the inputs delivered so far. */
  class Page {
    var buffer: string
    var log: seq<Input>

    constructor (buffer: string)
      ensures this.buffer == buffer && log == []
    {
      this.buffer := buffer;
      log := [];
    }

    /** `page.keyboard.type(c, {delay})` for a single character. */
    method Type(c: char, delay: int)
      modifies this
      ensures log == old(log) + [Input.Type(c, delay)]
      ensures buffer == old(buffer) + [c]
      ensures buffer == Apply(old(buffer), Input.Type(c, delay))
    {
      log := log + [Input.Type(c, delay)];
      buffer := buffer + [c];
    }

    /** `page.keyboard.press('Backspace', {delay})`: the last character goes,
        if there is one. */
    method PressBackspace(delay: int)
      modifies this
      ensures log == old(log) + [Input.Backspace(delay)]
      ensures buffer == old(buffer)[..if old(buffer) == [] then 0 else |old(buffer)| - 1]
      ensures buffer == Apply(old(buffer), Input.Backspace(delay))
    {
      log := log + [Input.Backspace(delay)];
      buffer := if buffer == [] then [] else buffer[..|buffer| - 1];
    }

    /** `page.click(selector)` */
    method Click(selector: string)
      modifies this
      ensures log == old(log) + [Input.Click(selector)]
      ensures buffer == old(buffer)
    {
      log := log + [Input.Click(selector)];
    }
  }
}
