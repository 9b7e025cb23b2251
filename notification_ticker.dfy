/** The header ticker that shows one notification at a time. Every four
    seconds, unless the pointer rests on it, it fades the current entry out;
    300 ms later (a separate timeout, which pausing does not cancel) it moves
    to the next entry and fades it in. Both timers are explicit step methods:
    `IntervalTick` for the four-second interval and `FadeComplete` for a
    timeout that has come due. The list itself is an input. */
module Ticker {
  import opened Types

  /** The index after one completed fade. */
  function NextIndex(i: nat, len: nat): (r: nat)
    requires len > 0
    ensures r < len
    ensures i + 1 < len ==> r == i + 1
    ensures i + 1 == len ==> r == 0
  {
    (i + 1) % len
  }

  /** The index after `k` completed fades. */
  function Rotate(i: nat, len: nat, k: nat): nat
    requires len > 0
    decreases k
  {
    if k == 0 then i else Rotate(NextIndex(i, len), len, k - 1)
  }

  /** Fades compose: `a` fades and then `b` fades are `a + b` fades. */
  lemma {:induction false} RotateCompose(i: nat, len: nat, a: nat, b: nat)
    requires len > 0
    ensures Rotate(i, len, a + b) == Rotate(Rotate(i, len, a), len, b)
    decreases a
  {
    if a > 0 {
      RotateCompose(NextIndex(i, len), len, a - 1, b);
    }
  }

  /** Short of the end of the list, each fade moves one entry on. */
  lemma {:induction false} RotateClimbs(i: nat, len: nat, k: nat)
    requires i + k < len
    ensures Rotate(i, len, k) == i + k
    decreases k
  {
    if k > 0 {
      RotateClimbs(i + 1, len, k - 1);
    }
  }

  /** From the last entry the next fade wraps to the first. */
  lemma RotateWraps(i: nat, len: nat)
    requires i < len
    ensures Rotate(i, len, len - i) == 0
  {
    RotateCompose(i, len, len - 1 - i, 1);
    RotateClimbs(i, len, len - 1 - i);
  }

  /** How many fades take entry `i` to entry `j`: `(j - i) mod len`. */
  function FadesBetween(i: nat, j: nat, len: nat): nat
    requires i < len && j < len
  {
    if j >= i then j - i else len - i + j
  }

  /** After one fade per entry the ticker is back where it started, and on
      the way, within fewer than `len` fades, it shows every entry. */
  lemma RotationReturns(i: nat, len: nat)
    requires i < len
    ensures Rotate(i, len, len) == i
    ensures forall j :: 0 <= j < len ==> FadesBetween(i, j, len) < len && Rotate(i, len, FadesBetween(i, j, len)) == j
  {
    RotateWraps(i, len);
    RotateCompose(i, len, len - i, i);
    RotateClimbs(0, len, i);
    forall j | 0 <= j < len ensures Rotate(i, len, FadesBetween(i, j, len)) == j {
      if j >= i {
        RotateClimbs(i, len, j - i);
      } else {
        RotateCompose(i, len, len - i, j);
        RotateClimbs(0, len, j);
      }
    }
  }

  /** `getLabel`: an alarm shows its level, or "ALARM" when it has none;
      everything else shows its type. */
  function Label(n: Notification): (r: string)
    ensures n.noticeType != AlarmNotice ==> r == NotificationTypeName(n.noticeType)
    ensures n.noticeType == AlarmNotice && n.level.Some? ==> r == LevelName(n.level.value)
    ensures r == "ALARM" <==> n.noticeType == AlarmNotice && n.level == None
  {
    if n.noticeType == AlarmNotice then
      match n.level
      case Some(l) => LevelName(l)
      case None => "ALARM"
    else NotificationTypeName(n.noticeType)
  }

  /** The four badge colours; `BadgeClasses` gives the class string. */
  datatype Badge = RedBadge | YellowBadge | BlueBadge | EmeraldBadge

  function BadgeClasses(b: Badge): string
  {
    match b
    case RedBadge => "bg-red-100 text-red-600 dark:bg-red-500/20 dark:text-red-400"
    case YellowBadge => "bg-yellow-100 text-yellow-600 dark:bg-yellow-500/20 dark:text-yellow-400"
    case BlueBadge => "bg-blue-100 text-blue-600 dark:bg-blue-500/20 dark:text-blue-400"
    case EmeraldBadge => "bg-emerald-100 text-emerald-600 dark:bg-emerald-500/20 dark:text-emerald-400"
  }

  /** `getBadgeStyle`. */
  function BadgeStyle(n: Notification): Badge
  {
    if n.noticeType == AlarmNotice then
      if n.level == Some(Critical) then RedBadge
      else if n.level == Some(Warning) then YellowBadge
      else BlueBadge
    else
      match n.noticeType
      case SuccessNotice => EmeraldBadge
      case ErrorNotice => RedBadge
      case _ => BlueBadge
  }

  /** Which entries get which colour: red for critical alarms and errors,
      yellow only for warning alarms, emerald only for successes, blue for
      the rest (info notices and alarms with no level or an INFO level). */
  lemma BadgeColours(n: Notification)
    ensures BadgeStyle(n) == RedBadge <==>
      (n.noticeType == AlarmNotice && n.level == Some(Critical)) || n.noticeType == ErrorNotice
    ensures BadgeStyle(n) == YellowBadge <==> n.noticeType == AlarmNotice && n.level == Some(Warning)
    ensures BadgeStyle(n) == EmeraldBadge <==> n.noticeType == SuccessNotice
    ensures BadgeStyle(n) == BlueBadge <==>
      n.noticeType == InfoNotice || (n.noticeType == AlarmNotice && n.level != Some(Critical) && n.level != Some(Warning))
  {
  }

  class NotificationTicker {
    const notifications: seq<Notification>
    var currentIndex: nat
    var isVisible: bool
    var isPaused: bool
    /** Fade-out timeouts scheduled and not yet run. */
    var pendingFades: nat

    ghost predicate Valid()
      reads this
    {
      (|notifications| == 0 ==> currentIndex == 0) &&
      (|notifications| > 0 ==> currentIndex < |notifications|) &&
      (pendingFades > 0 ==> |notifications| > 1)
    }

    constructor (ns: seq<Notification>)
      ensures notifications == ns && currentIndex == 0 && isVisible && !isPaused && pendingFades == 0
      ensures Valid()
    {
      notifications := ns;
      currentIndex := 0;
      isVisible := true;
      isPaused := false;
      pendingFades := 0;
    }

    /** What the ticker renders: nothing for an empty list. */
    function Current(): (r: Option<Notification>)
      requires Valid()
      reads this
      ensures r == None <==> |notifications| == 0
      ensures r.Some? ==> r.value in notifications
    {
      if |notifications| == 0 then None else Some(notifications[currentIndex])
    }

    /** The four-second interval. It is only set up for two or more entries,
        and while paused its callback returns at once. */
    method IntervalTick()
      requires Valid()
      modifies this`isVisible, this`pendingFades
      ensures if |notifications| > 1 && !isPaused
        then !isVisible && pendingFades == old(pendingFades) + 1
        else isVisible == old(isVisible) && pendingFades == old(pendingFades)
      ensures Valid()
    {
      if |notifications| > 1 && !isPaused {
        isVisible := false;
        pendingFades := pendingFades + 1;
      }
    }

    /** A 300 ms fade timeout comes due: the next entry fades in. */
    method FadeComplete()
      requires Valid() && pendingFades > 0
      modifies this`currentIndex, this`isVisible, this`pendingFades
      ensures currentIndex == NextIndex(old(currentIndex), |notifications|)
      ensures isVisible && pendingFades == old(pendingFades) - 1
      ensures Valid()
    {
      currentIndex := NextIndex(currentIndex, |notifications|);
      isVisible := true;
      pendingFades := pendingFades - 1;
    }

    method MouseEnter()
      modifies this`isPaused
      ensures isPaused
    {
      isPaused := true;
    }

    method MouseLeave()
      modifies this`isPaused
      ensures !isPaused
    {
      isPaused := false;
    }
  }
}
