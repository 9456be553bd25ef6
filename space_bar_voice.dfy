/** The hold-Space-to-talk keyboard trigger: document-level key handlers
    that turn Space presses outside text fields into one `onStart` and one
    `onStop` per press, over two flags.

    `onStart` and `onStop` are recorded as counts; whether `onStart` throws
    is a parameter. The focused element is passed with each event. Only
    whether an event is suppressed (default action and propagation stopped)
    is observable here. */
module SpaceBarVoice {
  import opened Optional

  /** The two identifiers of a key event. */
  datatype KeyEvent = KeyEvent(code: string, key: string)

  /** The focused element: its tag name and whether it is content-editable. */
  datatype Element = Element(tagName: string, isContentEditable: bool)

  /** `e.code === 'Space' || e.key === ' '`. */
  predicate IsSpace(e: KeyEvent) {
    e.code == "Space" || e.key == " "
  }

  /** Focus is in a text field: an input, a textarea or an editable element.
      In an HTML document the `instanceof` tests and the tag-name tests pick
      the same elements. */
  predicate IsInInputField(active: Option<Element>) {
    active.Some? &&
    (active.value.tagName == "INPUT" || active.value.tagName == "TEXTAREA" || active.value.isContentEditable)
  }

  class Hook {
    /** `isKeyDownRef` */
    var isKeyDown: bool
    /** `isActiveRef` */
    var isActive: bool
    /** whether the two capture-phase listeners are registered */
    var attached: bool
    /** calls of `onStart` and of `onStop` so far */
    var starts: nat
    var stops: nat

    /** The two flags move together, and `onStop` has never been called
        more often than `onStart`, counting the press in progress. */
    ghost predicate Valid()
      reads this
    {
      isKeyDown == isActive && stops + (if isActive then 1 else 0) <= starts
    }

    /** The effect runs: both listeners are registered, both flags clear. */
    constructor ()
      ensures Valid() && attached && !isKeyDown && !isActive && starts == 0 && stops == 0
    {
      isKeyDown, isActive, attached := false, false, true;
      starts, stops := 0, 0;
    }

    /** `handleKeyDown`. */
    method HandleKeyDown(e: KeyEvent, active: Option<Element>, startThrows: bool) returns (suppressed: bool)
      requires Valid()
      modifies this`isKeyDown, this`isActive, this`starts
      ensures Valid()
      ensures !attached || !IsSpace(e) || IsInInputField(active) ==>
                !suppressed && isKeyDown == old(isKeyDown) && starts == old(starts)
      ensures attached && IsSpace(e) && !IsInInputField(active) && old(isKeyDown) ==>
                suppressed && isKeyDown && starts == old(starts)
      ensures attached && IsSpace(e) && !IsInInputField(active) && !old(isKeyDown) ==>
                suppressed && starts == old(starts) + 1 && isKeyDown == !startThrows
      ensures stops == old(stops)
    {
      if !attached || !IsSpace(e) {
        return false;
      }
      if IsInInputField(active) {
        return false;
      }
      if isKeyDown {
        return true;
      }
      suppressed := true;
      isKeyDown := true;
      isActive := true;
      starts := starts + 1;
      if startThrows {
        isKeyDown := false;
        isActive := false;
      }
    }

    /** `handleKeyUp`. */
    method HandleKeyUp(e: KeyEvent, active: Option<Element>) returns (suppressed: bool)
      requires Valid()
      modifies this`isKeyDown, this`isActive, this`stops
      ensures Valid()
      ensures !attached || !IsSpace(e) || !old(isActive) || IsInInputField(active) ==>
                !suppressed && isActive == old(isActive) && stops == old(stops)
      ensures attached && IsSpace(e) && old(isActive) && !IsInInputField(active) ==>
                suppressed && !isActive && !isKeyDown && stops == old(stops) + 1
      ensures starts == old(starts)
    {
      if !attached || !IsSpace(e) {
        return false;
      }
      if !isActive {
        return false;
      }
      if IsInInputField(active) {
        return false;
      }
      suppressed := true;
      isKeyDown := false;
      isActive := false;
      stops := stops + 1;
    }

    /** The effect's cleanup: the listeners go and both flags are reset. */
    method Teardown()
      requires Valid()
      modifies this`isKeyDown, this`isActive, this`attached
      ensures Valid()
      ensures !attached && !isKeyDown && !isActive
    {
      attached := false;
      isKeyDown := false;
      isActive := false;
    }

    /** The effect runs again (new callbacks): the listeners come back. */
    method Attach()
      requires Valid()
      modifies this`attached
      ensures Valid() && attached
    {
      attached := true;
    }
  }

  /** Pressing Space with focus outside text fields, holding it through
      `repeats` auto-repeated keydowns and releasing it calls `onStart` once
      and `onStop` once, and suppresses every one of those events. */
  method PressAndHold(repeats: nat) returns (starts: nat, stops: nat, allSuppressed: bool)
    ensures starts == 1 && stops == 1 && allSuppressed
  {
    var hook := new Hook();
    var space := KeyEvent("Space", " ");
    allSuppressed := hook.HandleKeyDown(space, None, false);
    var i := 0;
    while i < repeats
      invariant hook.Valid() && hook.attached
      invariant hook.isKeyDown && hook.starts == 1 && hook.stops == 0
      invariant allSuppressed
    {
      var s := hook.HandleKeyDown(space, None, false);
      allSuppressed := allSuppressed && s;
      i := i + 1;
    }
    var s := hook.HandleKeyUp(space, None);
    allSuppressed := allSuppressed && s;
    starts, stops := hook.starts, hook.stops;
  }

  /** Space typed into a text field, however often, is never suppressed and
      never starts voice input. */
  method TypeSpacesInTextField(presses: nat, field: Element) returns (starts: nat, anySuppressed: bool)
    requires field.tagName == "INPUT" || field.tagName == "TEXTAREA" || field.isContentEditable
    ensures starts == 0 && !anySuppressed
  {
    var hook := new Hook();
    var space := KeyEvent("Space", " ");
    anySuppressed := false;
    var i := 0;
    while i < presses
      invariant hook.Valid() && hook.attached && !hook.isActive
      invariant hook.starts == 0 && !anySuppressed
    {
      var down := hook.HandleKeyDown(space, Some(field), false);
      var up := hook.HandleKeyUp(space, Some(field));
      anySuppressed := anySuppressed || down || up;
      i := i + 1;
    }
    starts := hook.starts;
  }
}
