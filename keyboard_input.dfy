/**
 * The key-state table of the second game version: each keyboard event sets
 * or clears the one flag its key is mapped to, and after every rendered
 * frame the one-shot flags (fire, warp) are cleared.
 */
module KeyboardInput {
  import opened Vectors

  /** The scene library's keyboard event types. */
  datatype KeyboardEventType = KeyDown | KeyUp

  /** The nine flags, named as the table names them. */
  datatype KeyFlag =
    | Fire | Thrust | Warp
    | YawNoseLeft | YawNoseRight
    | PitchNoseUp | PitchNoseDown
    | RollClockwise | RollCounterClockwise

  /** The `switch` on `event.key`; unmapped keys have no case. */
  function FlagOfKey(key: string): Option<KeyFlag> {
    if key == " " then Some(Fire)
    else if key == "w" then Some(Thrust)
    else if key == "s" then Some(Warp)
    else if key == "ArrowLeft" then Some(YawNoseLeft)
    else if key == "ArrowRight" then Some(YawNoseRight)
    else if key == "ArrowUp" then Some(PitchNoseUp)
    else if key == "ArrowDown" then Some(PitchNoseDown)
    else if key == "a" then Some(RollCounterClockwise)
    else if key == "d" then Some(RollClockwise)
    else None
  }

  /** Exactly nine keys are mapped. */
  lemma MappedKeys(key: string)
    ensures FlagOfKey(key).Some? <==>
      key in {" ", "w", "s", "ArrowLeft", "ArrowRight", "ArrowUp", "ArrowDown", "a", "d"}
  {
  }

  /** No two keys are mapped to the same flag. */
  lemma FlagOfKeyInjective(key1: string, key2: string)
    requires FlagOfKey(key1).Some? && FlagOfKey(key1) == FlagOfKey(key2)
    ensures key1 == key2
  {
  }

  /** The key table, one key per flag. */
  lemma KeyTable()
    ensures FlagOfKey(" ") == Some(Fire) && FlagOfKey("w") == Some(Thrust) && FlagOfKey("s") == Some(Warp)
    ensures FlagOfKey("ArrowLeft") == Some(YawNoseLeft) && FlagOfKey("ArrowRight") == Some(YawNoseRight)
    ensures FlagOfKey("ArrowUp") == Some(PitchNoseUp) && FlagOfKey("ArrowDown") == Some(PitchNoseDown)
    ensures FlagOfKey("a") == Some(RollCounterClockwise) && FlagOfKey("d") == Some(RollClockwise)
  {
  }

  /** Every flag has a key. */
  lemma EveryFlagHasAKey(f: KeyFlag)
    ensures exists key :: FlagOfKey(key) == Some(f)
  {
    KeyTable();
    match f
    case Fire => assert FlagOfKey(" ") == Some(f);
    case Thrust => assert FlagOfKey("w") == Some(f);
    case Warp => assert FlagOfKey("s") == Some(f);
    case YawNoseLeft => assert FlagOfKey("ArrowLeft") == Some(f);
    case YawNoseRight => assert FlagOfKey("ArrowRight") == Some(f);
    case PitchNoseUp => assert FlagOfKey("ArrowUp") == Some(f);
    case PitchNoseDown => assert FlagOfKey("ArrowDown") == Some(f);
    case RollCounterClockwise => assert FlagOfKey("a") == Some(f);
    case RollClockwise => assert FlagOfKey("d") == Some(f);
  }

  /** The table's contents: the set of flags that are `true`. */
  type KeyFlags = set<KeyFlag>

  const AllReleased: KeyFlags := {}

  /** Assigning one flag. */
  function Set(flags: KeyFlags, f: KeyFlag, value: bool): KeyFlags {
    if value then flags + {f} else flags - {f}
  }

  /** The table after one keyboard event with `event.key == key`. */
  function AfterKeyEvent(flags: KeyFlags, key: string, eventType: KeyboardEventType): KeyFlags {
    match FlagOfKey(key)
    case None => flags
    case Some(f) => Set(flags, f, eventType == KeyDown)
  }

  /**
   * An event sets its key's flag to "pressed" (true exactly on a key-down)
   * and leaves every other flag as it was.
   */
  lemma AfterKeyEventEffect(flags: KeyFlags, key: string, eventType: KeyboardEventType, g: KeyFlag)
    ensures g in AfterKeyEvent(flags, key, eventType)
        <==> if FlagOfKey(key) == Some(g) then eventType == KeyDown else g in flags
  {
  }

  /** An unmapped key changes nothing: the switch has no default case. */
  lemma UnmappedKeyChangesNothing(flags: KeyFlags, key: string, eventType: KeyboardEventType)
    requires FlagOfKey(key).None?
    ensures AfterKeyEvent(flags, key, eventType) == flags
  {
  }

  /** The flags in which two tables differ. */
  function Differences(a: KeyFlags, b: KeyFlags): set<KeyFlag> {
    (a - b) + (b - a)
  }

  /** An event changes at most one flag, and only the one its key is mapped to. */
  lemma KeyEventChangesAtMostOneFlag(flags: KeyFlags, key: string, eventType: KeyboardEventType)
    ensures |Differences(flags, AfterKeyEvent(flags, key, eventType))| <= 1
    ensures forall g :: g in Differences(flags, AfterKeyEvent(flags, key, eventType)) ==> FlagOfKey(key) == Some(g)
  {
    var changed := Differences(flags, AfterKeyEvent(flags, key, eventType));
    match FlagOfKey(key)
    case None =>
      assert changed == {};
    case Some(f) =>
      assert changed <= {f};
      SubsetCardinality(changed, {f});
  }

  lemma SubsetCardinality(a: set<KeyFlag>, b: set<KeyFlag>)
    requires a <= b
    ensures |a| <= |b|
  {
    if a != {} {
      var x :| x in a;
      SubsetCardinality(a - {x}, b - {x});
    }
  }

  /** Repeating an event (a held key's auto-repeat) changes nothing more. */
  lemma KeyEventIdempotent(flags: KeyFlags, key: string, eventType: KeyboardEventType)
    ensures AfterKeyEvent(AfterKeyEvent(flags, key, eventType), key, eventType) == AfterKeyEvent(flags, key, eventType)
  {
  }

  /** Events on keys mapped to different flags can be applied in either order. */
  lemma KeyEventsCommute(flags: KeyFlags, key1: string, type1: KeyboardEventType, key2: string, type2: KeyboardEventType)
    requires FlagOfKey(key1) != FlagOfKey(key2)
    ensures AfterKeyEvent(AfterKeyEvent(flags, key1, type1), key2, type2)
         == AfterKeyEvent(AfterKeyEvent(flags, key2, type2), key1, type1)
  {
  }

  /** A key-up after a key-down of the same key restores a released flag. */
  lemma ReleaseAfterPress(flags: KeyFlags, key: string, f: KeyFlag)
    requires FlagOfKey(key) == Some(f) && f !in flags
    ensures AfterKeyEvent(AfterKeyEvent(flags, key, KeyDown), key, KeyUp) == flags
  {
  }

  /** The after-render observer: fire and warp are cleared, the other seven flags are kept. */
  function AfterRender(flags: KeyFlags): (r: KeyFlags)
    ensures Fire !in r && Warp !in r
    ensures forall g :: g != Fire && g != Warp ==> (g in r <==> g in flags)
  {
    flags - {Fire, Warp}
  }

  /** So a fire or warp key-down is seen by at most the one frame rendered after it. */
  lemma OneShotFlagsLastOneFrame(flags: KeyFlags)
    ensures AfterRender(AfterRender(flags)) == AfterRender(flags)
    ensures Fire !in AfterRender(AfterKeyEvent(flags, " ", KeyDown))
    ensures Thrust in AfterRender(AfterKeyEvent(flags, "w", KeyDown))
  {
    KeyTable();
  }

  class KeyboardInput {
    var fireIsPressed: bool
    var thrustIsPressed: bool
    var warpIsPressed: bool
    var yawNoseLeftIsPressed: bool
    var yawNoseRightIsPressed: bool
    var pitchNoseUpIsPressed: bool
    var pitchNoseDownIsPressed: bool
    var rollClockwiseIsPressed: bool
    var rollCounterClockwiseIsPressed: bool

    /** The field holding flag `f`. */
    function IsPressed(f: KeyFlag): bool
      reads this
    {
      match f
      case Fire => fireIsPressed
      case Thrust => thrustIsPressed
      case Warp => warpIsPressed
      case YawNoseLeft => yawNoseLeftIsPressed
      case YawNoseRight => yawNoseRightIsPressed
      case PitchNoseUp => pitchNoseUpIsPressed
      case PitchNoseDown => pitchNoseDownIsPressed
      case RollClockwise => rollClockwiseIsPressed
      case RollCounterClockwise => rollCounterClockwiseIsPressed
    }

    /** The flags that are `true`. */
    function Flags(): KeyFlags
      reads this
    {
      set f: KeyFlag | IsPressed(f)
    }

    constructor ()
      ensures Flags() == AllReleased
    {
      fireIsPressed := false;
      thrustIsPressed := false;
      warpIsPressed := false;
      yawNoseLeftIsPressed := false;
      yawNoseRightIsPressed := false;
      pitchNoseUpIsPressed := false;
      pitchNoseDownIsPressed := false;
      rollClockwiseIsPressed := false;
      rollCounterClockwiseIsPressed := false;
    }

    /** Writes the field holding flag `f`, as one `case` of the switch does. */
    method Assign(f: KeyFlag, pressed: bool)
      modifies this
      ensures Flags() == Set(old(Flags()), f, pressed)
    {
      match f
      case Fire => fireIsPressed := pressed;
      case Thrust => thrustIsPressed := pressed;
      case Warp => warpIsPressed := pressed;
      case YawNoseLeft => yawNoseLeftIsPressed := pressed;
      case YawNoseRight => yawNoseRightIsPressed := pressed;
      case PitchNoseUp => pitchNoseUpIsPressed := pressed;
      case PitchNoseDown => pitchNoseDownIsPressed := pressed;
      case RollClockwise => rollClockwiseIsPressed := pressed;
      case RollCounterClockwise => rollCounterClockwiseIsPressed := pressed;
    }

    /** The keyboard observer, for an event with `event.key == key`. */
    method OnKeyboardEvent(key: string, eventType: KeyboardEventType)
      modifies this
      ensures Flags() == AfterKeyEvent(old(Flags()), key, eventType)
    {
      var pressed := eventType == KeyDown;
      KeyTable();
      if key == " " {
        Assign(Fire, pressed);
      } else if key == "w" {
        Assign(Thrust, pressed);
      } else if key == "s" {
        Assign(Warp, pressed);
      } else if key == "ArrowLeft" {
        Assign(YawNoseLeft, pressed);
      } else if key == "ArrowRight" {
        Assign(YawNoseRight, pressed);
      } else if key == "ArrowUp" {
        Assign(PitchNoseUp, pressed);
      } else if key == "ArrowDown" {
        Assign(PitchNoseDown, pressed);
      } else if key == "a" {
        Assign(RollCounterClockwise, pressed);
      } else if key == "d" {
        Assign(RollClockwise, pressed);
      }
    }

    /** The after-render observer. */
    method OnAfterRender()
      modifies this
      ensures Flags() == AfterRender(old(Flags()))
    {
      fireIsPressed := false;
      warpIsPressed := false;
    }
  }
}
