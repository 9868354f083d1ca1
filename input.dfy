/**
 * The six movement flags and the keyboard handlers that drive them
 * (setupKeyBinds in a9.js). Pressing one of six letters raises one flag,
 * releasing it lowers that flag; every other key leaves the flags alone.
 */
module Input {
  import opened Wrappers

  /** The six movement directions, one flag each. */
  datatype Direction = Up | Down | Left | Right | Forward | Backward

  /** The key bound to each direction. */
  function KeyFor(d: Direction): string {
    match d
    case Up => "r"
    case Down => "f"
    case Left => "a"
    case Right => "d"
    case Forward => "w"
    case Backward => "s"
  }

  /**
   * The direction a key (an event's `key` string) is bound to, if any: the
   * chain of comparisons the handlers make. It is the exact inverse of KeyFor.
   */
  function KeyBinding(key: string): (r: Option<Direction>)
    ensures r.Some? ==> KeyFor(r.value) == key
    ensures r.None? ==> forall d: Direction :: KeyFor(d) != key
  {
    if key == "r" then Some(Up)
    else if key == "f" then Some(Down)
    else if key == "a" then Some(Left)
    else if key == "d" then Some(Right)
    else if key == "w" then Some(Forward)
    else if key == "s" then Some(Backward)
    else None
  }

  /** Every direction's key is bound back to that direction. */
  lemma KeyBindingRoundTrip(d: Direction)
    ensures KeyBinding(KeyFor(d)) == Some(d)
  {
  }

  /** A snapshot of the six flags. */
  datatype Flags = Flags(up: bool, down: bool, left: bool, right: bool, forward: bool, backward: bool)
  {
    /** The flag of direction d. */
    function Get(d: Direction): bool {
      match d
      case Up => up
      case Down => down
      case Left => left
      case Right => right
      case Forward => forward
      case Backward => backward
    }

    /** These flags with the flag of d set to b and the other five unchanged. */
    function Set(d: Direction, b: bool): (r: Flags)
      ensures r.Get(d) == b
      ensures forall e: Direction :: e != d ==> r.Get(e) == Get(e)
    {
      match d
      case Up => this.(up := b)
      case Down => this.(down := b)
      case Left => this.(left := b)
      case Right => this.(right := b)
      case Forward => this.(forward := b)
      case Backward => this.(backward := b)
    }
  }

  /** The flags with nothing pressed. */
  const NoKeys := Flags(false, false, false, false, false, false)

  /**
   * What one handler does to the flags: keydown handlers pass `pressed` true,
   * keyup handlers false. A bound key sets exactly its own flag to `pressed`;
   * any other key changes nothing.
   */
  function OnKey(f: Flags, key: string, pressed: bool): (r: Flags)
    ensures forall d: Direction :: r.Get(d) == (if key == KeyFor(d) then pressed else f.Get(d))
    ensures KeyBinding(key).None? ==> r == f
  {
    match KeyBinding(key)
    case None => f
    case Some(d) => f.Set(d, pressed)
  }

  /** Releasing a key after pressing it leaves its flag lowered and the others as they were. */
  lemma PressThenRelease(f: Flags, key: string)
    ensures OnKey(OnKey(f, key, true), key, false) == OnKey(f, key, false)
    ensures KeyBinding(key).Some? && !f.Get(KeyBinding(key).value) ==>
      OnKey(OnKey(f, key, true), key, false) == f
  {
    match KeyBinding(key)
    case None =>
    case Some(d) => SetTwice(f, d, true, false);
  }

  /** Setting a flag twice keeps only the second value; setting it to what it holds changes nothing. */
  lemma SetTwice(f: Flags, d: Direction, b1: bool, b2: bool)
    ensures f.Set(d, b1).Set(d, b2) == f.Set(d, b2)
    ensures f.Set(d, f.Get(d)) == f
  {
    match d
    case Up =>
    case Down =>
    case Left =>
    case Right =>
    case Forward =>
    case Backward =>
  }

  /** Handlers for two different keys commute: the flags are independent. */
  lemma DistinctKeysCommute(f: Flags, k1: string, b1: bool, k2: string, b2: bool)
    requires k1 != k2
    ensures OnKey(OnKey(f, k1, b1), k2, b2) == OnKey(OnKey(f, k2, b2), k1, b1)
  {
    var l := OnKey(OnKey(f, k1, b1), k2, b2);
    var r := OnKey(OnKey(f, k2, b2), k1, b1);
    assert forall d: Direction :: l.Get(d) == r.Get(d);
    assert l.up == r.Get(Up) && l.down == r.Get(Down) && l.left == r.Get(Left);
    assert l.right == r.Get(Right) && l.forward == r.Get(Forward) && l.backward == r.Get(Backward);
  }

  /** The six key-state globals the handlers write and the render loop reads. */
  class KeyState {
    var movingUp: bool
    var movingDown: bool
    var movingLeft: bool
    var movingRight: bool
    var movingForward: bool
    var movingBackward: bool

    /** The current flags as a value. */
    function Current(): Flags
      reads this
    {
      Flags(movingUp, movingDown, movingLeft, movingRight, movingForward, movingBackward)
    }

    /** Before any key event every flag is unset. */
    constructor ()
      ensures Current() == NoKeys
    {
      movingUp, movingDown, movingLeft := false, false, false;
      movingRight, movingForward, movingBackward := false, false, false;
    }

    /** The keydown listener: a bound key raises exactly its own flag. */
    method KeyDown(key: string)
      modifies this
      ensures Current() == OnKey(old(Current()), key, true)
      ensures forall d: Direction :: Current().Get(d) == (if key == KeyFor(d) then true else old(Current()).Get(d))
    {
      if key == "r" {
        movingUp := true;
      } else if key == "f" {
        movingDown := true;
      } else if key == "a" {
        movingLeft := true;
      } else if key == "d" {
        movingRight := true;
      } else if key == "w" {
        movingForward := true;
      } else if key == "s" {
        movingBackward := true;
      }
    }

    /** The keyup listener: a bound key lowers exactly its own flag. */
    method KeyUp(key: string)
      modifies this
      ensures Current() == OnKey(old(Current()), key, false)
      ensures forall d: Direction :: Current().Get(d) == (if key == KeyFor(d) then false else old(Current()).Get(d))
    {
      if key == "r" {
        movingUp := false;
      } else if key == "f" {
        movingDown := false;
      } else if key == "a" {
        movingLeft := false;
      } else if key == "d" {
        movingRight := false;
      } else if key == "w" {
        movingForward := false;
      } else if key == "s" {
        movingBackward := false;
      }
    }
  }
}
