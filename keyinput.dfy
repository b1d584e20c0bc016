/**
 * The keyboard half of the Win32 `INPUT` record that KeyboardController and
 * MediaController fill and hand to `SendInput`. The `time` and `dwExtraInfo`
 * members are always zero in the source and are not represented.
 */
module KeyInputs {

  const INPUT_KEYBOARD: bv32 := 1
  const KEYEVENTF_EXTENDEDKEY: bv32 := 0x0001
  const KEYEVENTF_KEYUP: bv32 := 0x0002
  const KEYEVENTF_UNICODE: bv32 := 0x0004
  const KEYEVENTF_SCANCODE: bv32 := 0x0008

  /** One `INPUT { type, ki = KEYBDINPUT { wVk, wScan, dwFlags } }`. */
  datatype KeyInput = KeyInput(kind: bv32, wVk: bv16, wScan: bv16, dwFlags: bv32)

  predicate IsKeyUp(k: KeyInput) {
    k.dwFlags & KEYEVENTF_KEYUP != 0
  }

  /** The down and up record of one virtual key, with `extra` flags on both. */
  function KeyPair(vk: bv16, scan: bv16, extra: bv32): (r: seq<KeyInput>)
    ensures |r| == 2 && r[0].wVk == r[1].wVk == vk && r[0].wScan == r[1].wScan == scan
    ensures r[0].kind == r[1].kind == INPUT_KEYBOARD
    ensures r[0].dwFlags == extra && r[1].dwFlags == extra | KEYEVENTF_KEYUP
  {
    [ KeyInput(INPUT_KEYBOARD, vk, scan, extra),
      KeyInput(INPUT_KEYBOARD, vk, scan, extra | KEYEVENTF_KEYUP) ]
  }
}
