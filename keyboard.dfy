/**
 * KeyboardController: text is typed one UTF-16 code unit at a time through
 * the Unicode injection path (`wVk = 0`, `wScan = c`, `KEYEVENTF_UNICODE`),
 * and Enter is a virtual-key press of `VK_RETURN`. Every keystroke is one
 * two-element `INPUT[]` array, filled in place and passed to `SendInput`.
 */
module KeyboardControl {
  import opened Common
  import opened KeyInputs

  const VK_RETURN: bv16 := 0x0D

  /** A C# `char`: one UTF-16 code unit. */
  type CodeUnit = bv16

  /** The pair `SendChar(c)` hands to `SendInput`. */
  function CharInputs(c: CodeUnit): seq<KeyInput> {
    KeyPair(0, c, KEYEVENTF_UNICODE)
  }

  /** The pair `SendKey(vk)` hands to `SendInput`. */
  function KeyInputsOf(vk: bv16): seq<KeyInput> {
    KeyPair(vk, 0, 0)
  }

  /** What `SendText` sends for a piece of text: the pairs of its code units, in order. */
  function TextInputs(text: seq<CodeUnit>): seq<KeyInput>
    decreases |text|
  {
    if text == [] then [] else CharInputs(text[0]) + TextInputs(text[1..])
  }

  /** `SendText(text)`, with `null` as `None`: nothing for null or empty text. */
  function SendTextInputs(text: Option<seq<CodeUnit>>): seq<KeyInput> {
    match text
    case None => []
    case Some(t) => TextInputs(t)
  }

  /** An independent reading of a keystroke log: the code units of its Unicode key-down records. */
  function TypedText(inputs: seq<KeyInput>): seq<CodeUnit>
    decreases |inputs|
  {
    if inputs == [] then []
    else (if inputs[0].wVk == 0 && inputs[0].dwFlags == KEYEVENTF_UNICODE then [inputs[0].wScan] else [])
         + TypedText(inputs[1..])
  }

  lemma {:induction false} TextInputsAppend(a: seq<CodeUnit>, b: seq<CodeUnit>)
    ensures TextInputs(a + b) == TextInputs(a) + TextInputs(b)
    decreases |a|
  {
    if a == [] {
      assert a + b == b;
    } else {
      assert (a + b)[0] == a[0] && (a + b)[1..] == a[1..] + b;
      TextInputsAppend(a[1..], b);
    }
  }

  /** n code units give 2n records: one down/up pair per character. */
  lemma {:induction false} TextInputsLength(text: seq<CodeUnit>)
    ensures |TextInputs(text)| == 2 * |text|
    decreases |text|
  {
    if text != [] {
      TextInputsLength(text[1..]);
    }
  }

  /**
   * Record 2i is the down event of the i-th code unit (flags UNICODE) and
   * record 2i+1 its up event (flags UNICODE|KEYUP), both with `wVk = 0`.
   */
  lemma {:induction false} TextInputsAt(text: seq<CodeUnit>, i: nat)
    requires i < |text|
    ensures |TextInputs(text)| == 2 * |text|
    ensures TextInputs(text)[2 * i] == KeyInput(INPUT_KEYBOARD, 0, text[i], KEYEVENTF_UNICODE)
    ensures TextInputs(text)[2 * i + 1] == KeyInput(INPUT_KEYBOARD, 0, text[i], KEYEVENTF_UNICODE | KEYEVENTF_KEYUP)
    decreases |text|
  {
    TextInputsLength(text);
    if i > 0 {
      TextInputsAt(text[1..], i - 1);
    }
  }

  /** Text never contains an Enter keystroke: every record it sends has `wVk = 0` and the UNICODE flag. */
  lemma {:induction false} TextNeverSendsEnter(text: seq<CodeUnit>)
    ensures forall k :: 0 <= k < |TextInputs(text)| ==>
      TextInputs(text)[k].wVk == 0 && TextInputs(text)[k].dwFlags & KEYEVENTF_UNICODE != 0
    ensures KeyInputsOf(VK_RETURN)[0] !in TextInputs(text)
    ensures KeyInputsOf(VK_RETURN)[1] !in TextInputs(text)
    decreases |text|
  {
    if text != [] {
      TextNeverSendsEnter(text[1..]);
      assert TextInputs(text) == CharInputs(text[0]) + TextInputs(text[1..]);
    }
  }

  lemma {:induction false} TypedTextAppend(a: seq<KeyInput>, b: seq<KeyInput>)
    ensures TypedText(a + b) == TypedText(a) + TypedText(b)
    decreases |a|
  {
    if a == [] {
      assert a + b == b;
    } else {
      assert (a + b)[0] == a[0] && (a + b)[1..] == a[1..] + b;
      TypedTextAppend(a[1..], b);
    }
  }

  /** Round trip: reading back the key-down records of `SendText(text)` gives the text. */
  lemma {:induction false} TypedTextOfText(text: seq<CodeUnit>)
    ensures TypedText(TextInputs(text)) == text
    decreases |text|
  {
    if text != [] {
      var pair := CharInputs(text[0]);
      TypedTextAppend(pair, TextInputs(text[1..]));
      assert TypedText(pair) == [text[0]] by {
        assert pair[1..][1..] == [];
      }
      TypedTextOfText(text[1..]);
    }
  }

  /** `SendEnter` is VK_RETURN down with flags 0 and then VK_RETURN up with KEYUP, and types no text. */
  lemma EnterKeystroke()
    ensures KeyInputsOf(VK_RETURN) == [KeyInput(1, 0x0D, 0, 0), KeyInput(1, 0x0D, 0, 0x2)]
    ensures TypedText(KeyInputsOf(VK_RETURN)) == []
  {
    var e := KeyInputsOf(VK_RETURN);
    assert e[1..][1..] == [];
  }

  class KeyboardController {
    /** Every record passed to `SendInput` so far, in order. */
    var sent: seq<KeyInput>

    constructor ()
      ensures sent == []
    {
      sent := [];
    }

    /** The host's `SendInput(n, inputs, size)`: queues the records of the array in order. */
    method SendInput(inputs: array<KeyInput>)
      modifies this
      ensures sent == old(sent) + inputs[..]
    {
      sent := sent + inputs[..];
    }

    /** `SendText(text)`: nothing for null or empty text, else `SendChar` on each code unit. */
    method SendText(text: Option<seq<CodeUnit>>)
      modifies this
      ensures sent == old(sent) + SendTextInputs(text)
    {
      if text.None? || text.value == [] {
        return;
      }
      var t := text.value;
      var i := 0;
      while i < |t|
        invariant 0 <= i <= |t|
        invariant sent == old(sent) + TextInputs(t[..i])
      {
        SendChar(t[i]);
        assert t[..i + 1] == t[..i] + [t[i]];
        TextInputsAppend(t[..i], [t[i]]);
        i := i + 1;
      }
      assert t[..i] == t;
    }

    /** `SendEnter()`: one VK_RETURN keystroke. */
    method SendEnter()
      modifies this
      ensures sent == old(sent) + KeyInputsOf(VK_RETURN)
    {
      SendKey(VK_RETURN);
    }

    /** `SendKey(vk)`: a down record with no flags and an up record with KEYUP, sent together. */
    method SendKey(virtualKey: bv16)
      modifies this
      ensures sent == old(sent) + KeyInputsOf(virtualKey)
    {
      var inputs := new KeyInput[2];
      inputs[0] := KeyInput(INPUT_KEYBOARD, virtualKey, 0, 0);
      inputs[1] := KeyInput(INPUT_KEYBOARD, virtualKey, 0, KEYEVENTF_KEYUP);
      SendInput(inputs);
    }

    /** `SendChar(c)`: a Unicode down record and a Unicode key-up record for `c`, sent together. */
    method SendChar(c: CodeUnit)
      modifies this
      ensures sent == old(sent) + CharInputs(c)
    {
      var inputs := new KeyInput[2];
      inputs[0] := KeyInput(INPUT_KEYBOARD, 0, c, KEYEVENTF_UNICODE);
      inputs[1] := KeyInput(INPUT_KEYBOARD, 0, c, KEYEVENTF_UNICODE | KEYEVENTF_KEYUP);
      SendInput(inputs);
    }
  }
}
