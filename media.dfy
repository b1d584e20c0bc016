/**
 * MediaController: a command name, lower-cased, selects one media virtual
 * key (0 for an unknown name), and a known key is sent as an extended-key
 * down/up pair through a two-element `INPUT[]` array.
 */
module MediaControl {
  import opened Common
  import opened KeyInputs

  const VK_MEDIA_PLAY_PAUSE: bv16 := 0xB3
  const VK_MEDIA_STOP: bv16 := 0xB2
  const VK_MEDIA_PREV_TRACK: bv16 := 0xB1
  const VK_MEDIA_NEXT_TRACK: bv16 := 0xB0
  const VK_VOLUME_MUTE: bv16 := 0xAD
  const VK_VOLUME_DOWN: bv16 := 0xAE
  const VK_VOLUME_UP: bv16 := 0xAF

  /** The seven command names, in the order of the source's switch. */
  const Commands: seq<string> := ["playpause", "stop", "previous", "next", "mute", "volumedown", "volumeup"]

  /** The key each command selects, position by position with `Commands`. */
  const Keys: seq<bv16> := [VK_MEDIA_PLAY_PAUSE, VK_MEDIA_STOP, VK_MEDIA_PREV_TRACK, VK_MEDIA_NEXT_TRACK,
                            VK_VOLUME_MUTE, VK_VOLUME_DOWN, VK_VOLUME_UP]

  /** The switch expression of `ExecuteMediaCommand`, with 0 for "no such command". */
  function VirtualKey(command: string): bv16 {
    var c := ToLower(command);
    if c == "playpause" then VK_MEDIA_PLAY_PAUSE
    else if c == "stop" then VK_MEDIA_STOP
    else if c == "previous" then VK_MEDIA_PREV_TRACK
    else if c == "next" then VK_MEDIA_NEXT_TRACK
    else if c == "mute" then VK_VOLUME_MUTE
    else if c == "volumedown" then VK_VOLUME_DOWN
    else if c == "volumeup" then VK_VOLUME_UP
    else 0
  }

  /** The pair `SendMediaKey(vk)` hands to `SendInput`. */
  function MediaKeyInputs(vk: bv16): seq<KeyInput> {
    KeyPair(vk, 0, KEYEVENTF_EXTENDEDKEY)
  }

  /** What `ExecuteMediaCommand(command)` sends. */
  function CommandInputs(command: string): seq<KeyInput> {
    var vk := VirtualKey(command);
    if vk != 0 then MediaKeyInputs(vk) else []
  }

  /** The table: the i-th command, in any letter case, maps to the i-th key. */
  lemma {:induction false} VirtualKeyTable(command: string, i: nat)
    requires i < |Commands| && ToLower(command) == Commands[i]
    ensures VirtualKey(command) == Keys[i]
  {
  }

  /**
   * A name is mapped to a non-zero key exactly when its lower case is one of
   * the seven commands; so 0 is a safe "unknown" value.
   */
  lemma VirtualKeyKnown(command: string)
    ensures VirtualKey(command) != 0 <==> ToLower(command) in Commands
  {
  }

  /** The mapping is injective on the commands: two names share a key only if they name the same command. */
  lemma VirtualKeyInjective(c1: string, c2: string)
    requires VirtualKey(c1) != 0 && VirtualKey(c1) == VirtualKey(c2)
    ensures ToLower(c1) == ToLower(c2)
  {
  }

  /** Matching ignores letter case. */
  lemma {:induction false} VirtualKeyCaseInsensitive(command: string)
    ensures VirtualKey(command) == VirtualKey(ToLower(command))
  {
    ToLowerIdempotent(command);
  }

  /**
   * A known command sends exactly two records with its key: down with
   * EXTENDEDKEY, then up with EXTENDEDKEY|KEYUP. An unknown one sends nothing.
   */
  lemma CommandInputsShape(command: string)
    ensures ToLower(command) !in Commands ==> CommandInputs(command) == []
    ensures ToLower(command) in Commands ==>
      && |CommandInputs(command)| == 2
      && CommandInputs(command)[0] == KeyInput(INPUT_KEYBOARD, VirtualKey(command), 0, KEYEVENTF_EXTENDEDKEY)
      && CommandInputs(command)[1] == KeyInput(INPUT_KEYBOARD, VirtualKey(command), 0, KEYEVENTF_EXTENDEDKEY | KEYEVENTF_KEYUP)
      && !IsKeyUp(CommandInputs(command)[0]) && IsKeyUp(CommandInputs(command)[1])
  {
    VirtualKeyKnown(command);
  }

  /** Examples: letter case does not matter, and an unlisted name does nothing. */
  lemma MediaExamples()
    ensures VirtualKey("PlayPause") == 0xB3
    ensures VirtualKey("VolumeUp") == 0xAF
    ensures CommandInputs("rewind") == []
  {
    assert ToLower("PlayPause") == "playpause";
    assert ToLower("VolumeUp") == "volumeup";
    assert ToLower("rewind") == "rewind";
  }

  class MediaController {
    /** Every record passed to `SendInput` so far, in order. */
    var sent: seq<KeyInput>

    constructor ()
      ensures sent == []
    {
      sent := [];
    }

    /** The host's `SendInput(n, inputs, size)`. */
    method SendInput(inputs: array<KeyInput>)
      modifies this
      ensures sent == old(sent) + inputs[..]
    {
      sent := sent + inputs[..];
    }

    /** `ExecuteMediaCommand(command)`: looks the key up and sends it when it is not 0. */
    method ExecuteMediaCommand(command: string)
      modifies this
      ensures sent == old(sent) + CommandInputs(command)
    {
      var virtualKey := VirtualKey(command);
      if virtualKey != 0 {
        SendMediaKey(virtualKey);
      }
    }

    /** `SendMediaKey(vk)`: fills the two records and sends them together. */
    method SendMediaKey(virtualKey: bv16)
      modifies this
      ensures sent == old(sent) + MediaKeyInputs(virtualKey)
    {
      var inputs := new KeyInput[2];
      inputs[0] := KeyInput(INPUT_KEYBOARD, virtualKey, 0, KEYEVENTF_EXTENDEDKEY);
      inputs[1] := KeyInput(INPUT_KEYBOARD, virtualKey, 0, KEYEVENTF_EXTENDEDKEY | KEYEVENTF_KEYUP);
      SendInput(inputs);
    }
  }
}
