/**
 * The keyboard side of PlayerController: the map of held keys the key
 * listeners maintain, and pollInput's direction, speed modifier and jump
 * rising-edge detection.
 */
module Controller {
  import opened Blocks

  /** this.modifier. */
  datatype Modifier = Walk | Sprint | Crouch | Sneak

  /** A key event as the listeners see it: e.code with keydown or keyup. */
  datatype KeyEvent = KeyDown(code: string) | KeyUp(code: string)

  /** The controller's fields as a value; the direction is right - left and forward - back before normalisation. */
  datatype Snapshot = Snapshot(dirX: int, dirY: int, jumpPressed: bool, modifier: Modifier, keys: map<string, bool>)

  /** pollInput's result, without the speed multiplier; the direction is the one before normalisation. */
  datatype Input = Input(dirX: int, dirY: int, jump: bool, crouching: bool, sneaking: bool, sprinting: bool)

  /** The KeyboardEvent.code values pollInput reads. */
  const CodeKeyW: string := "KeyW"
  const CodeArrowUp: string := "ArrowUp"
  const CodeKeyS: string := "KeyS"
  const CodeArrowDown: string := "ArrowDown"
  const CodeKeyA: string := "KeyA"
  const CodeArrowLeft: string := "ArrowLeft"
  const CodeKeyD: string := "KeyD"
  const CodeArrowRight: string := "ArrowRight"
  const CodeControlLeft: string := "ControlLeft"
  const CodeControlRight: string := "ControlRight"
  const CodeAltLeft: string := "AltLeft"
  const CodeAltRight: string := "AltRight"
  const CodeShiftLeft: string := "ShiftLeft"
  const CodeShiftRight: string := "ShiftRight"
  const CodeSpace: string := "Space"

  /** _isDown(code): the map holds true for code (a key never seen is up). */
  predicate Down(keys: map<string, bool>, code: string)
  {
    code in keys && keys[code]
  }

  /** What a listener does with one event: the code's entry set to true on keydown and false on keyup. */
  function Apply(keys: map<string, bool>, e: KeyEvent): map<string, bool>
  {
    keys[e.code := e.KeyDown?]
  }

  function ApplyAll(keys: map<string, bool>, es: seq<KeyEvent>): map<string, bool>
  {
    if es == [] then keys else Apply(ApplyAll(keys, es[..|es| - 1]), es[|es| - 1])
  }

  /** Whether the last event for code in es was a keydown, if there is one. */
  function LastFor(es: seq<KeyEvent>, code: string): Option<bool>
  {
    if es == [] then None
    else if es[|es| - 1].code == code then Some(es[|es| - 1].KeyDown?)
    else LastFor(es[..|es| - 1], code)
  }

  /** After a series of events, a key is down iff the last event for it was a keydown; with no event for it, it is as before. */
  lemma {:induction false} DownAfterEvents(keys: map<string, bool>, es: seq<KeyEvent>, code: string)
    ensures Down(ApplyAll(keys, es), code) == match LastFor(es, code) case Some(d) => d case None => Down(keys, code)
  {
    if es != [] {
      DownAfterEvents(keys, es[..|es| - 1], code);
    }
  }

  /** The modifier keys of each modifier: Ctrl for crouch, Alt for sneak, Shift for sprint; walk needs none. */
  predicate Held(keys: map<string, bool>, m: Modifier)
  {
    match m
    case Crouch => Down(keys, CodeControlLeft) || Down(keys, CodeControlRight)
    case Sneak => Down(keys, CodeAltLeft) || Down(keys, CodeAltRight)
    case Sprint => Down(keys, CodeShiftLeft) || Down(keys, CodeShiftRight)
    case Walk => true
  }

  /** The priority crouch > sneak > sprint > walk. */
  function Rank(m: Modifier): int
  {
    match m
    case Crouch => 3
    case Sneak => 2
    case Sprint => 1
    case Walk => 0
  }

  /** pollInput's if-chain: the modifier chosen is held and outranks every other held one. */
  function Selected(keys: map<string, bool>): (m: Modifier)
    ensures Held(keys, m) && forall o :: Held(keys, o) ==> Rank(o) <= Rank(m)
  {
    if Down(keys, CodeControlLeft) || Down(keys, CodeControlRight) then Crouch
    else if Down(keys, CodeAltLeft) || Down(keys, CodeAltRight) then Sneak
    else if Down(keys, CodeShiftLeft) || Down(keys, CodeShiftRight) then Sprint
    else Walk
  }

  /** Being held and outranking every held modifier picks exactly one: the one Selected chooses. */
  lemma SelectedUnique(keys: map<string, bool>, m: Modifier)
    requires Held(keys, m) && forall o :: Held(keys, o) ==> Rank(o) <= Rank(m)
    ensures m == Selected(keys)
  {
    var s := Selected(keys);
    assert Rank(s) <= Rank(m) && Rank(m) <= Rank(s);
  }

  /** A component of the direction: 1 for the positive key alone, -1 for the negative one alone, 0 for both or neither. */
  function Axis(pos: bool, neg: bool): (r: int)
    ensures -1 <= r <= 1
    ensures r == 1 <==> pos && !neg
    ensures r == -1 <==> neg && !pos
  {
    (if pos then 1 else 0) - (if neg then 1 else 0)
  }

  /** The direction before normalisation: (right - left, forward - back), arrows and WASD alike. */
  function Direction(keys: map<string, bool>): (d: (int, int))
    ensures -1 <= d.0 <= 1 && -1 <= d.1 <= 1
  {
    var forward := Down(keys, CodeKeyW) || Down(keys, CodeArrowUp);
    var back := Down(keys, CodeKeyS) || Down(keys, CodeArrowDown);
    var left := Down(keys, CodeKeyA) || Down(keys, CodeArrowLeft);
    var right := Down(keys, CodeKeyD) || Down(keys, CodeArrowRight);
    (Axis(right, left), Axis(forward, back))
  }

  /** The jump block of pollInput: (jumpNow, the new jumpPressed) from Space and the old jumpPressed. */
  function JumpEdge(space: bool, pressed: bool): (r: (bool, bool))
    ensures r.0 == (space && !pressed) && r.1 == space
  {
    var jumpNow := space && !pressed;
    var pressed' := if jumpNow then true else pressed;
    (jumpNow, if !space then false else pressed')
  }

  /** One pollInput on the value of the controller: the new fields, and what it returns. */
  function Poll(s: Snapshot): (r: (Snapshot, Input))
    ensures r.0.keys == s.keys && r.0.modifier == Selected(s.keys)
    ensures r.0.jumpPressed == Down(s.keys, CodeSpace)
    ensures r.1.jump == (Down(s.keys, CodeSpace) && !s.jumpPressed)
    ensures r.1.crouching == (r.0.modifier == Crouch) && r.1.sneaking == (r.0.modifier == Sneak) && r.1.sprinting == (r.0.modifier == Sprint)
    ensures -1 <= r.1.dirX <= 1 && -1 <= r.1.dirY <= 1
  {
    var d := Direction(s.keys);
    var modifier := Selected(s.keys);
    var jump := JumpEdge(Down(s.keys, CodeSpace), s.jumpPressed);
    (Snapshot(d.0, d.1, jump.1, modifier, s.keys), Input(d.0, d.1, jump.0, modifier == Crouch, modifier == Sneak, modifier == Sprint))
  }

  /** At most one of crouching, sneaking and sprinting is reported. */
  lemma FlagsExclusive(s: Snapshot)
    ensures var i := Poll(s).1;
            (i.crouching ==> !i.sneaking && !i.sprinting) && (i.sneaking ==> !i.sprinting)
  {
  }

  /** The jump flags of n consecutive polls with no key event in between. */
  function Jumps(s: Snapshot, n: nat): (r: seq<bool>)
    ensures |r| == n
    decreases n
  {
    if n == 0 then [] else [Poll(s).1.jump] + Jumps(Poll(s).0, n - 1)
  }

  /** Holding Space across n polls yields a jump on the first of them at most: on it iff Space was not already registered. */
  lemma {:induction false} HeldSpaceJumpsOnce(s: Snapshot, n: nat)
    requires Down(s.keys, CodeSpace) && n > 0
    ensures Jumps(s, n)[0] == !s.jumpPressed
    ensures forall k :: 0 < k < n ==> !Jumps(s, n)[k]
    decreases n
  {
    if n > 1 {
      var s1 := Poll(s).0;
      HeldSpaceJumpsOnce(s1, n - 1);
      assert s1.jumpPressed;
      assert forall k :: 0 < k < n ==> Jumps(s, n)[k] == Jumps(s1, n - 1)[k - 1];
    }
  }

  /** Releasing Space at one poll re-arms the jump: the next poll with Space down jumps. */
  lemma ReleaseRearms(s: Snapshot, e: map<string, bool>)
    requires !Down(s.keys, CodeSpace) && Down(e, CodeSpace)
    ensures Poll(Poll(s).0.(keys := e)).1.jump
  {
  }

  class PlayerController {
    var dirX: int
    var dirY: int
    var jumpPressed: bool
    var modifier: Modifier
    var keys: map<string, bool>

    function Value(): Snapshot
      reads this
    {
      Snapshot(dirX, dirY, jumpPressed, modifier, keys)
    }

    /** A zero direction, no jump registered, walking, and no key seen. */
    constructor()
      ensures Value() == Snapshot(0, 0, false, Walk, map[])
    {
      dirX, dirY := 0, 0;
      jumpPressed := false;
      modifier := Walk;
      keys := map[];
    }

    predicate IsDown(code: string)
      reads this`keys
    {
      Down(keys, code)
    }

    /** The keydown and keyup listeners. */
    method OnKey(e: KeyEvent)
      modifies this
      ensures Value() == old(Value()).(keys := Apply(old(keys), e))
    {
      match e
      case KeyDown(code) => keys := keys[code := true];
      case KeyUp(code) => keys := keys[code := false];
    }

    /** The direction block of pollInput: right - left and forward - back, arrows and WASD alike. */
    method ReadDirection() returns (x: int, y: int)
      ensures (x, y) == Direction(keys)
    {
      var forward := if IsDown(CodeKeyW) || IsDown(CodeArrowUp) then 1 else 0;
      var back := if IsDown(CodeKeyS) || IsDown(CodeArrowDown) then 1 else 0;
      var left := if IsDown(CodeKeyA) || IsDown(CodeArrowLeft) then 1 else 0;
      var right := if IsDown(CodeKeyD) || IsDown(CodeArrowRight) then 1 else 0;
      x, y := right - left, forward - back;
    }

    /** The modifier if-chain of pollInput: Ctrl, then Alt, then Shift, else walking. */
    method ReadModifier() returns (m: Modifier)
      ensures Held(keys, m) && forall o :: Held(keys, o) ==> Rank(o) <= Rank(m)
      ensures m == Selected(keys)
    {
      if IsDown(CodeControlLeft) || IsDown(CodeControlRight) {
        m := Crouch;
      } else if IsDown(CodeAltLeft) || IsDown(CodeAltRight) {
        m := Sneak;
      } else if IsDown(CodeShiftLeft) || IsDown(CodeShiftRight) {
        m := Sprint;
      } else {
        m := Walk;
      }
    }

    /** The jump block of pollInput: a jump on the poll where Space goes from unregistered to down. */
    method JumpStep() returns (jumpNow: bool)
      modifies this`jumpPressed
      ensures jumpNow == (Down(keys, CodeSpace) && !old(jumpPressed)) && jumpPressed == Down(keys, CodeSpace)
    {
      jumpNow := false;
      if IsDown(CodeSpace) && !jumpPressed {
        jumpNow := true;
        jumpPressed := true;
      }
      if !IsDown(CodeSpace) {
        jumpPressed := false;
      }
    }

    /** pollInput: direction, modifier, then the jump edge, returning what the physics reads. */
    method PollInput() returns (input: Input)
      modifies this
      ensures (Value(), input) == Poll(old(Value()))
    {
      dirX, dirY := ReadDirection();
      modifier := ReadModifier();
      var jumpNow := JumpStep();
      input := Input(dirX, dirY, jumpNow, modifier == Crouch, modifier == Sneak, modifier == Sprint);
    }
  }
}
