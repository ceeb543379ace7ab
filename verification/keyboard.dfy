/** Keyboard event codes the controls react to, and the movement intent they produce. */
module Keyboard {

  /** The `event.code` values the key handlers distinguish; everything else is `Other`. */
  datatype KeyCode =
    | KeyW | ArrowUp
    | KeyA | ArrowLeft
    | KeyS | ArrowDown
    | KeyD | ArrowRight
    | Space
    | Other

  /** The DOM name of a handled key. */
  function Name(k: KeyCode): string
    requires k != Other
  {
    match k
    case KeyW => "KeyW"
    case ArrowUp => "ArrowUp"
    case KeyA => "KeyA"
    case ArrowLeft => "ArrowLeft"
    case KeyS => "KeyS"
    case ArrowDown => "ArrowDown"
    case KeyD => "KeyD"
    case ArrowRight => "ArrowRight"
    case Space => "Space"
  }

  /** The key a DOM code string stands for: a handled key exactly when the string is its name. */
  function Decode(code: string): (k: KeyCode)
    ensures k != Other ==> Name(k) == code
    ensures k == Other ==> forall h: KeyCode :: h != Other ==> Name(h) != code
  {
    if code == "KeyW" then KeyW
    else if code == "ArrowUp" then ArrowUp
    else if code == "KeyA" then KeyA
    else if code == "ArrowLeft" then ArrowLeft
    else if code == "KeyS" then KeyS
    else if code == "ArrowDown" then ArrowDown
    else if code == "KeyD" then KeyD
    else if code == "ArrowRight" then ArrowRight
    else if code == "Space" then Space
    else Other
  }

  lemma DecodeName(k: KeyCode)
    requires k != Other
    ensures Decode(Name(k)) == k
  {
  }

  /**
   * One component of the movement intent, as JavaScript computes
   * `positive - negative` on two booleans: -1, 0 or 1, and 0 exactly when
   * both keys or neither are held.
   */
  function Axis(positive: bool, negative: bool): (r: int)
    ensures -1 <= r <= 1
    ensures r == 0 <==> positive == negative
    ensures r == 1 <==> positive && !negative
  {
    (if positive then 1 else 0) - (if negative then 1 else 0)
  }
}
