/** The press controller behind every text button (textButtonPressController.ts):
    a click fires when a pointer that went down on an enabled button comes
    back up inside it, and each click locks the button for a cooldown.
    The wall clock (`Date.now()`) is passed in as `now`. */
module TextButtonPressController {
  import opened Common

  const DEFAULT_COOLDOWN_MS: int := 120

  /** The four variables the controller's closure keeps. */
  datatype PressState = PressState(
    enabled: bool,
    pressed: bool,
    activePointerId: Option<int>,
    clickLockedUntil: int)

  const INITIAL: PressState := PressState(true, false, None, 0)

  /** A button is pressed exactly while it tracks a pointer, and a disabled
      button is never pressed. */
  predicate Consistent(s: PressState)
  {
    (s.pressed <==> s.activePointerId.Some?) && (!s.enabled ==> !s.pressed)
  }

  function SetEnabledNext(s: PressState, value: bool): PressState
  {
    if value then s.(enabled := true)
    else s.(enabled := false, pressed := false, activePointerId := None)
  }

  function DownAccepted(s: PressState, now: int): bool
  {
    s.enabled && s.activePointerId.None? && now >= s.clickLockedUntil
  }

  function DownNext(s: PressState, pointerId: int, now: int): PressState
  {
    if !DownAccepted(s, now) then s
    else s.(activePointerId := Some(pointerId), pressed := true)
  }

  function UpFires(s: PressState, pointerId: int, isInside: bool, now: int): bool
  {
    s.activePointerId == Some(pointerId) && s.enabled && s.pressed && isInside && now >= s.clickLockedUntil
  }

  function UpNext(s: PressState, pointerId: int, isInside: bool, now: int, cooldownMs: int): PressState
  {
    if s.activePointerId != Some(pointerId) then s
    else
      var fired := UpFires(s, pointerId, isInside, now);
      s.(activePointerId := None, pressed := false,
         clickLockedUntil := if fired then now + cooldownMs else s.clickLockedUntil)
  }

  function CancelNext(s: PressState, pointerId: int): PressState
  {
    if s.activePointerId != Some(pointerId) then s
    else s.(activePointerId := None, pressed := false)
  }

  // ---------------------------------------------------------------------
  // Properties of single operations

  /** Every operation keeps the pressed/pointer correspondence. */
  lemma OperationsKeepConsistent(s: PressState, value: bool, id: int, inside: bool, now: int, cd: int)
    requires Consistent(s)
    ensures Consistent(SetEnabledNext(s, value))
    ensures Consistent(DownNext(s, id, now))
    ensures Consistent(UpNext(s, id, inside, now, cd))
    ensures Consistent(CancelNext(s, id))
  {
  }

  /** A press starts only on an enabled, idle, unlocked button; while one
      pointer holds the button every other press is refused. */
  lemma DownOnlyWhenIdle(s: PressState, id: int, other: int, now: int, later: int)
    requires Consistent(s)
    ensures DownAccepted(s, now) <==> s.enabled && !s.pressed && now >= s.clickLockedUntil
    ensures DownAccepted(s, now) ==> !DownAccepted(DownNext(s, id, now), later)
    ensures DownAccepted(s, now) ==> DownNext(s, id, now).activePointerId == Some(id)
  {
  }

  /** Releasing a pointer the button does not track changes nothing. */
  lemma ForeignReleaseIgnored(s: PressState, id: int, inside: bool, now: int, cd: int)
    requires s.activePointerId != Some(id)
    ensures !UpFires(s, id, inside, now)
    ensures UpNext(s, id, inside, now, cd) == s
    ensures CancelNext(s, id) == s
  {
  }

  /** A release always clears the press, so a second release of the same
      pointer never fires again. */
  lemma FiresAtMostOncePerPress(s: PressState, id: int, inside: bool, now: int, inside2: bool, now2: int, cd: int)
    ensures !UpFires(UpNext(s, id, inside, now, cd), id, inside2, now2)
    ensures s.activePointerId == Some(id) ==> UpNext(s, id, inside, now, cd).activePointerId.None?
  {
  }

  /** A release outside, or one after the pointer was cancelled, does not fire. */
  lemma OutsideOrCancelledDoesNotFire(s: PressState, id: int, now: int, now2: int)
    ensures !UpFires(s, id, false, now)
    ensures !UpFires(CancelNext(s, id), id, true, now2)
  {
  }

  /** Disabling drops the press and refuses every gesture until re-enabled;
      re-enabling an unlocked button accepts a press again. */
  lemma DisableBlocksGestures(s: PressState, id: int, inside: bool, now: int, cd: int)
    ensures !DownAccepted(SetEnabledNext(s, false), now)
    ensures !UpFires(SetEnabledNext(s, false), id, inside, now)
    ensures UpNext(SetEnabledNext(s, false), id, inside, now, cd) == SetEnabledNext(s, false)
    ensures now >= s.clickLockedUntil ==> DownAccepted(SetEnabledNext(SetEnabledNext(s, false), true), now)
  {
  }

  // ---------------------------------------------------------------------
  // Gestures as event traces

  datatype Event =
    | SetEnabled(value: bool)
    | PointerDown(id: int, now: int)
    | PointerUp(id: int, isInside: bool, now: int)
    | CancelPointer(id: int)

  function Step(s: PressState, e: Event, cd: int): PressState
  {
    match e
    case SetEnabled(v) => SetEnabledNext(s, v)
    case PointerDown(id, now) => DownNext(s, id, now)
    case PointerUp(id, inside, now) => UpNext(s, id, inside, now, cd)
    case CancelPointer(id) => CancelNext(s, id)
  }

  function Run(s: PressState, es: seq<Event>, cd: int): PressState
    decreases |es|
  {
    if es == [] then s else Run(Step(s, es[0], cd), es[1..], cd)
  }

  /** The times at which the events of a trace fire a click. */
  function FireTimes(s: PressState, es: seq<Event>, cd: int): seq<int>
    decreases |es|
  {
    if es == [] then []
    else
      var e := es[0];
      var fired := e.PointerUp? && UpFires(s, e.id, e.isInside, e.now);
      (if fired then [e.now] else []) + FireTimes(Step(s, e, cd), es[1..], cd)
  }

  lemma StepKeepsConsistent(s: PressState, e: Event, cd: int)
    requires Consistent(s)
    ensures Consistent(Step(s, e, cd))
  {
  }

  /** Any trace keeps the controller consistent. */
  lemma {:induction false} RunKeepsConsistent(s: PressState, es: seq<Event>, cd: int)
    requires Consistent(s)
    ensures Consistent(Run(s, es, cd))
    decreases |es|
  {
    if es != [] {
      StepKeepsConsistent(s, es[0], cd);
      RunKeepsConsistent(Step(s, es[0], cd), es[1..], cd);
    }
  }

  /** One event moves the lock only when it fires a click, and then to the
      click time plus the cooldown; a click never happens before the lock. */
  lemma StepLock(s: PressState, e: Event, cd: int)
    ensures e.PointerUp? && UpFires(s, e.id, e.isInside, e.now) ==>
      e.now >= s.clickLockedUntil && Step(s, e, cd).clickLockedUntil == e.now + cd
    ensures !(e.PointerUp? && UpFires(s, e.id, e.isInside, e.now)) ==>
      Step(s, e, cd).clickLockedUntil == s.clickLockedUntil
  {
  }

  /** Clicks are spaced by at least the cooldown: every click happens no
      earlier than the current lock, and each next click at least `cd` later. */
  lemma {:induction false} ClicksRespectCooldown(s: PressState, es: seq<Event>, cd: int)
    requires cd >= 0
    ensures forall k :: 0 <= k < |FireTimes(s, es, cd)| ==> FireTimes(s, es, cd)[k] >= s.clickLockedUntil
    ensures forall k :: 0 <= k < |FireTimes(s, es, cd)| - 1 ==>
      FireTimes(s, es, cd)[k + 1] >= FireTimes(s, es, cd)[k] + cd
    decreases |es|
  {
    if es != [] {
      var e := es[0];
      var s' := Step(s, e, cd);
      StepLock(s, e, cd);
      ClicksRespectCooldown(s', es[1..], cd);
      var rest := FireTimes(s', es[1..], cd);
      var fired := e.PointerUp? && UpFires(s, e.id, e.isInside, e.now);
      var all := FireTimes(s, es, cd);
      if fired {
        assert all == [e.now] + rest;
        forall k | 0 <= k < |all|
          ensures all[k] >= s.clickLockedUntil
        {
          if k > 0 {
            assert all[k] == rest[k - 1];
          }
        }
        forall k | 0 <= k < |all| - 1
          ensures all[k + 1] >= all[k] + cd
        {
          assert all[k + 1] == rest[k];
          if k > 0 {
            assert all[k] == rest[k - 1];
          }
        }
      } else {
        assert all == rest;
      }
    }
  }

  /** A fresh controller fires once for a down/up gesture inside, and a
      repeated release does not fire. */
  lemma GestureFiresOnce(t: int)
    requires t >= 0
    ensures FireTimes(INITIAL, [PointerDown(1, t), PointerUp(1, true, t), PointerUp(1, true, t)], 120) == [t]
  {
    var s1 := PressState(true, true, Some(1), 0);
    var s2 := PressState(true, false, None, t + 120);
    assert FireTimes(s2, [PointerUp(1, true, t)], 120) == [];
    assert FireTimes(s1, [PointerUp(1, true, t), PointerUp(1, true, t)], 120) == [t];
  }

  /** A release outside, and a release after a cancel, fire nothing. */
  lemma OutsideAndCancelledGestures(t: int)
    requires t >= 0
    ensures FireTimes(INITIAL, [PointerDown(3, t), PointerUp(3, false, t),
                                PointerDown(4, t), CancelPointer(4), PointerUp(4, true, t)], 120) == []
  {
    var idle := PressState(true, false, None, 0);
    var held4 := PressState(true, true, Some(4), 0);
    assert FireTimes(idle, [PointerUp(4, true, t)], 120) == [];
    assert FireTimes(held4, [CancelPointer(4), PointerUp(4, true, t)], 120) == [];
    assert FireTimes(idle, [PointerDown(4, t), CancelPointer(4), PointerUp(4, true, t)], 120) == [];
    var held3 := PressState(true, true, Some(3), 0);
    assert FireTimes(held3, [PointerUp(3, false, t), PointerDown(4, t), CancelPointer(4), PointerUp(4, true, t)], 120) == [];
  }

  /** A second pointer is refused while pressed, and a new press is refused
      until the cooldown has passed; after 121 ms the button clicks again. */
  lemma CooldownGesture(t: int)
    requires t >= 0
    ensures FireTimes(INITIAL, [PointerDown(7, t), PointerDown(8, t), PointerUp(7, true, t),
                                PointerDown(7, t), PointerDown(7, t + 121), PointerUp(7, true, t + 121)], 120)
            == [t, t + 121]
  {
    var held := PressState(true, true, Some(7), 0);
    AfterCooldown(t);
    assert FireTimes(held, [PointerUp(7, true, t), PointerDown(7, t), PointerDown(7, t + 121), PointerUp(7, true, t + 121)], 120)
      == [t, t + 121];
    assert FireTimes(held, [PointerDown(8, t), PointerUp(7, true, t), PointerDown(7, t), PointerDown(7, t + 121), PointerUp(7, true, t + 121)], 120)
      == [t, t + 121];
  }

  /** Just after a click at `t` a press is refused; 121 ms later a press
      and release click again. */
  lemma AfterCooldown(t: int)
    ensures FireTimes(PressState(true, false, None, t + 120),
                      [PointerDown(7, t), PointerDown(7, t + 121), PointerUp(7, true, t + 121)], 120) == [t + 121]
  {
    var locked := PressState(true, false, None, t + 120);
    var held2 := PressState(true, true, Some(7), t + 120);
    assert FireTimes(held2, [PointerUp(7, true, t + 121)], 120) == [t + 121];
    assert FireTimes(locked, [PointerDown(7, t + 121), PointerUp(7, true, t + 121)], 120) == [t + 121];
    assert DownNext(locked, 7, t) == locked;
  }

  /** While disabled nothing happens; after re-enabling the button clicks. */
  lemma DisabledGesture(t: int)
    requires t >= 0
    ensures FireTimes(INITIAL, [SetEnabled(false), PointerDown(1, t), PointerUp(1, true, t),
                                SetEnabled(true), PointerDown(1, t), PointerUp(1, true, t)], 120) == [t]
  {
    var off := PressState(false, false, None, 0);
    var held := PressState(true, true, Some(1), 0);
    assert FireTimes(held, [PointerUp(1, true, t)], 120) == [t];
    assert FireTimes(INITIAL, [PointerDown(1, t), PointerUp(1, true, t)], 120) == [t];
    assert FireTimes(off, [SetEnabled(true), PointerDown(1, t), PointerUp(1, true, t)], 120) == [t];
    assert FireTimes(off, [PointerUp(1, true, t), SetEnabled(true), PointerDown(1, t), PointerUp(1, true, t)], 120) == [t];
    assert FireTimes(off, [PointerDown(1, t), PointerUp(1, true, t), SetEnabled(true), PointerDown(1, t), PointerUp(1, true, t)], 120) == [t];
  }

  // ---------------------------------------------------------------------
  // The controller object

  class TextButtonPressController {
    var enabled: bool
    var pressed: bool
    var activePointerId: Option<int>
    var clickLockedUntil: int
    const cooldownMs: int

    ghost function State(): PressState
      reads this
    {
      PressState(enabled, pressed, activePointerId, clickLockedUntil)
    }

    ghost predicate Valid()
      reads this
    {
      Consistent(State())
    }

    constructor (cooldownMs: int := DEFAULT_COOLDOWN_MS)
      ensures Valid() && State() == INITIAL && this.cooldownMs == cooldownMs
    {
      this.cooldownMs := cooldownMs;
      enabled := true;
      pressed := false;
      activePointerId := None;
      clickLockedUntil := 0;
    }

    method SetEnabled(value: bool)
      requires Valid()
      modifies this
      ensures Valid() && State() == SetEnabledNext(old(State()), value)
    {
      enabled := value;
      if !value {
        pressed := false;
        activePointerId := None;
      }
    }

    function IsEnabled(): bool
      reads this
    {
      enabled
    }

    function IsPressed(): bool
      reads this
    {
      pressed
    }

    method PointerDown(pointerId: int, now: int) returns (accepted: bool)
      requires Valid()
      modifies this
      ensures Valid() && State() == DownNext(old(State()), pointerId, now)
      ensures accepted == DownAccepted(old(State()), now)
    {
      if !enabled || activePointerId != None || now < clickLockedUntil {
        return false;
      }
      activePointerId := Some(pointerId);
      pressed := true;
      return true;
    }

    method PointerUp(pointerId: int, isInside: bool, now: int) returns (fired: bool)
      requires Valid()
      modifies this
      ensures Valid() && State() == UpNext(old(State()), pointerId, isInside, now, cooldownMs)
      ensures fired == UpFires(old(State()), pointerId, isInside, now)
    {
      if activePointerId != Some(pointerId) {
        return false;
      }
      activePointerId := None;
      var shouldFire := enabled && pressed && isInside && now >= clickLockedUntil;
      pressed := false;
      if shouldFire {
        clickLockedUntil := now + cooldownMs;
      }
      return shouldFire;
    }

    method CancelPointer(pointerId: int)
      requires Valid()
      modifies this
      ensures Valid() && State() == CancelNext(old(State()), pointerId)
    {
      if activePointerId != Some(pointerId) {
        return;
      }
      activePointerId := None;
      pressed := false;
    }
  }
}
