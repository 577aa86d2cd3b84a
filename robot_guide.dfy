/** The `RobotGuide` component of src/components/RobotGuide.tsx: a speech
    bubble over the robot that cycles through three introduction messages
    while the robot stands at home (50, 50), and a contextual message
    elsewhere.

    The component's props (`position`, `isMoving`) and its React state
    (`isMounted`, `currentMessageIndex`, `showMessage`, `isTyping`) are the
    fields of class `RobotGuide`. The timers its effects and handlers start
    are fields too: the pending 2 s start delay, the running 4.5 s
    interval, and the queue of 300 ms typing timeouts, which all have the
    same delay and so fire in the order they were started. A timer firing
    is a method call. The anime.js animations are not modelled. */
module RobotGuideComponent {
  import opened Base

  const Home := Position(50, 50)

  const Messages: seq<string> := [
    "Hi! I'm Prince Ngwako Mashumu ",
    "Full-Stack Developer",
    "Click on any room to explore!"]

  const Accessing := "Accessing server room... Please wait! \U{1F513}"
  const Exploring := "Exploring this room... Click 'Return Home' to go back! \U{1F3E0}"

  predicate AtHome(p: Position) {
    p.x == 50 && p.y == 50
  }

  /** The next message index: 2 wraps to 0, otherwise one more. */
  function NextIndex(i: int): (r: int)
    requires 0 <= i < |Messages|
    ensures 0 <= r < |Messages|
    ensures r == (i + 1) % |Messages|
  {
    if i == |Messages| - 1 then 0 else i + 1
  }

  /** `getContextualMessage`: moving is checked first, then home. */
  function ContextualMessage(p: Position, isMoving: bool, index: int): (m: string)
    requires 0 <= index < |Messages|
    ensures isMoving ==> m == Accessing
    ensures !isMoving && AtHome(p) ==> m == Messages[index]
    ensures !isMoving && !AtHome(p) ==> m == Exploring
  {
    if isMoving then Accessing
    else if p.x == 50 && p.y == 50 then Messages[index]
    else Exploring
  }

  /** The Return Home button's condition as it is written: neither
      coordinate may be 50. */
  function ReturnHomeShownAsWritten(p: Position, isMoving: bool): (shown: bool)
    ensures shown <==> !isMoving && p.x != 50 && p.y != 50
  {
    !isMoving && p.x != 50 && p.y != 50
  }

  /** The Return Home button's condition as intended: the robot is idle
      away from home, the same test that shows the contextual message. */
  function ReturnHomeShown(p: Position, isMoving: bool): (shown: bool)
    ensures shown <==> !isMoving && !AtHome(p)
  {
    !isMoving && (p.x != 50 || p.y != 50)
  }

  /** As written, a robot idle on a midline of the page, at (50, 20) for
      instance, is told to click 'Return Home', but there is no button.
      The component shows this for any `position` prop with exactly one
      coordinate equal to 50; the pages that render it never move the
      robot to such a position, so the mismatch is latent there. */
  lemma ReturnHomeMissingOnMidline()
    ensures ContextualMessage(Position(50, 20), false, 0) == Exploring
    ensures !ReturnHomeShownAsWritten(Position(50, 20), false)
  {
  }

  /** As intended, the button is shown exactly when the bubble tells the
      user to click it. */
  lemma ReturnHomeMatchesMessage(p: Position, isMoving: bool, index: int)
    requires 0 <= index < |Messages|
    ensures ReturnHomeShown(p, isMoving) <==> ContextualMessage(p, isMoving, index) == Exploring
  {
    if !isMoving && AtHome(p) {
      assert Messages[index] != Exploring by {
        assert |Messages[index]| < |Exploring|;
      }
    }
    if isMoving {
      assert |Accessing| < |Exploring|;
    }
  }

  /** A 300 ms typing timeout: advance to the next message (the interval
      and the bubble click), or show message `index` (a dot click). */
  datatype TypingTimeout = Advance | Select(index: nat)

  class RobotGuide {
    var position: Position
    var isMoving: bool
    var isMounted: bool
    var currentMessageIndex: int
    var showMessage: bool
    var isTyping: bool
    /** The 2 s `startDelay` timeout is pending. */
    var startDelay: bool
    /** The 4.5 s `messageInterval` is running. */
    var messageInterval: bool
    /** Pending typing timeouts, in firing order. */
    var typing: seq<TypingTimeout>

    /** The index names a message; a pending 2 s delay or a running
        interval belongs to an idle robot at home; a typing flag has a
        timeout that will clear it. */
    predicate Valid()
      reads this
    {
      && 0 <= currentMessageIndex < |Messages|
      && (forall t :: t in typing && t.Select? ==> t.index < |Messages|)
      && (showMessage ==> isMounted && !isMoving)
      && (startDelay ==> isMounted && !isMoving && AtHome(position))
      && (messageInterval ==> showMessage && AtHome(position))
      && (isTyping ==> typing != [])
    }

    /** The first render, before any effect has run. */
    constructor (position: Position, isMoving: bool)
      ensures this.position == position && this.isMoving == isMoving
      ensures !isMounted && currentMessageIndex == 0 && !showMessage && !isTyping
      ensures !startDelay && !messageInterval && typing == []
      ensures Valid()
    {
      this.position := position;
      this.isMoving := isMoving;
      isMounted := false;
      currentMessageIndex := 0;
      showMessage := false;
      isTyping := false;
      startDelay := false;
      messageInterval := false;
      typing := [];
    }

    /** The message-cycling effect, which depends on `isMounted`,
        `isMoving` and `position`, after the cleanup of its previous run: idle at home starts the 2 s delay, idle elsewhere
        shows the message at once, anything else hides it. */
    method ShowEffect()
      modifies this`showMessage, this`startDelay
      ensures startDelay <==> isMounted && !isMoving && AtHome(position)
      ensures isMounted && !isMoving && AtHome(position) ==> showMessage == old(showMessage)
      ensures isMounted && !isMoving && !AtHome(position) ==> showMessage
      ensures !isMounted || isMoving ==> !showMessage
    {
      startDelay := false;
      if isMounted && !isMoving && position.x == 50 && position.y == 50 {
        startDelay := true;
      } else if isMounted && !isMoving && (position.x != 50 || position.y != 50) {
        showMessage := true;
      } else {
        showMessage := false;
      }
    }

    /** The interval effect, which depends on `showMessage` and
        `position`, after the cleanup of its previous run: the 4.5 s
        interval runs only while the message is shown at home. */
    method CycleEffect()
      modifies this`messageInterval
      ensures messageInterval <==> showMessage && AtHome(position)
    {
      messageInterval := false;
      if showMessage && position.x == 50 && position.y == 50 {
        messageInterval := true;
      }
    }

    /** The mount effect sets `isMounted`, and the effects that depend on
        it run again. */
    method Mount()
      requires Valid()
      modifies this
      ensures isMounted && position == old(position) && isMoving == old(isMoving)
      ensures currentMessageIndex == old(currentMessageIndex) && isTyping == old(isTyping)
      ensures typing == old(typing)
      ensures startDelay <==> !isMoving && AtHome(position)
      ensures !isMoving && !AtHome(position) ==> showMessage
      ensures isMoving ==> !showMessage
      ensures Valid()
    {
      isMounted := true;
      ShowEffect();
      CycleEffect();
    }

    /** The parent renders the component with `newPosition` and
        `newMoving`. The message effect runs again only when `isMoving` or
        the position changed; the interval effect only when the position
        or, after the message effect, `showMessage` changed. A render with
        the same props schedules nothing. */
    method SetProps(newPosition: Position, newMoving: bool)
      requires Valid()
      modifies this
      ensures position == newPosition && isMoving == newMoving && isMounted == old(isMounted)
      ensures currentMessageIndex == old(currentMessageIndex) && isTyping == old(isTyping)
      ensures typing == old(typing)
      ensures newPosition == old(position) && newMoving == old(isMoving) ==>
                && showMessage == old(showMessage) && startDelay == old(startDelay)
                && messageInterval == old(messageInterval)
      ensures newPosition != old(position) || newMoving != old(isMoving) ==>
                && (startDelay <==> isMounted && !isMoving && AtHome(position))
                && (messageInterval <==> showMessage && AtHome(position))
                && (isMounted && !isMoving && !AtHome(position) ==> showMessage)
                && (isMounted && !isMoving && AtHome(position) ==> showMessage == old(showMessage))
      ensures isMoving || !isMounted ==> !showMessage && !startDelay && !messageInterval
      ensures Valid()
    {
      var positionChanged := newPosition != position;
      var movingChanged := newMoving != isMoving;
      position := newPosition;
      isMoving := newMoving;
      var shown := showMessage;
      if positionChanged || movingChanged {
        ShowEffect();
      }
      if positionChanged || showMessage != shown {
        CycleEffect();
      }
    }

    /** The 2 s start delay fires: the message appears, and the interval
        effect, which depends on it, starts the 4.5 s interval. */
    method StartDelayFires()
      requires Valid() && startDelay
      modifies this
      ensures showMessage && messageInterval && !startDelay
      ensures position == old(position) && isMoving == old(isMoving) && isMounted == old(isMounted)
      ensures currentMessageIndex == old(currentMessageIndex) && isTyping == old(isTyping)
      ensures typing == old(typing)
      ensures Valid()
    {
      startDelay := false;
      showMessage := true;
      CycleEffect();
    }

    /** The 4.5 s interval ticks: typing starts and a timeout to advance
        the message is queued. */
    method IntervalTick()
      requires Valid() && messageInterval
      modifies this`isTyping, this`typing
      ensures isTyping && typing == old(typing) + [Advance]
      ensures Valid()
    {
      isTyping := true;
      typing := typing + [Advance];
    }

    /** `handleMessageClick`: acts only on a shown, idle message at home. */
    method HandleMessageClick()
      requires Valid()
      modifies this`isTyping, this`typing
      ensures old(showMessage && !isTyping) && AtHome(position) ==>
                isTyping && typing == old(typing) + [Advance]
      ensures !(old(showMessage && !isTyping) && AtHome(position)) ==>
                isTyping == old(isTyping) && typing == old(typing)
      ensures Valid()
    {
      if showMessage && !isTyping && position.x == 50 && position.y == 50 {
        isTyping := true;
        typing := typing + [Advance];
      }
    }

    /** A click on dot `index`: the dots are drawn only while `Dots`
        shows them, and a click acts only when no message is being typed. */
    method ClickDot(index: nat)
      requires Valid() && index < |Messages| && Dots().Some?
      modifies this`isTyping, this`typing
      ensures !old(isTyping) ==> isTyping && typing == old(typing) + [Select(index)]
      ensures old(isTyping) ==> isTyping && typing == old(typing)
      ensures Valid()
    {
      if !isTyping {
        isTyping := true;
        typing := typing + [Select(index)];
      }
    }

    /** The oldest typing timeout fires: the index advances (2 wraps to 0)
        or takes the clicked dot's value, and typing ends. */
    method TypingTimeoutFires()
      requires Valid() && typing != []
      modifies this`currentMessageIndex, this`isTyping, this`typing
      ensures typing == old(typing[1..]) && !isTyping
      ensures old(typing[0]).Advance? ==> currentMessageIndex == NextIndex(old(currentMessageIndex))
      ensures old(typing[0]).Select? ==> currentMessageIndex == old(typing[0]).index
      ensures Valid()
    {
      var t := typing[0];
      assert t in typing;
      match t {
        case Advance =>
          currentMessageIndex := if currentMessageIndex == |Messages| - 1 then 0 else currentMessageIndex + 1;
        case Select(k) =>
          currentMessageIndex := k;
      }
      isTyping := false;
      typing := typing[1..];
    }

    /** The speech bubble: drawn only while the message is shown, with
        the contextual message. Since a moving robot hides the bubble, the
        "Accessing" text is never on screen. */
    function Bubble(): (m: Option<string>)
      requires Valid()
      reads this
      ensures m.Some? <==> showMessage
      ensures m.Some? && AtHome(position) ==> m.value == Messages[currentMessageIndex]
      ensures m.Some? && !AtHome(position) ==> m.value == Exploring
      ensures m != Some(Accessing)
    {
      if showMessage && !isMoving
      then
        assert |Messages[currentMessageIndex]| < |Accessing| < |Exploring|;
        Some(ContextualMessage(position, isMoving, currentMessageIndex))
      else None
    }

    /** The three dots are drawn only in a shown bubble at home; the dot
        of the current message is highlighted. */
    function Dots(): (lit: Option<nat>)
      requires Valid()
      reads this
      ensures lit.Some? <==> showMessage && !isMoving && AtHome(position)
      ensures lit.Some? ==> lit.value < |Messages| && lit.value == currentMessageIndex
    {
      if showMessage && !isMoving && position.x == 50 && position.y == 50
      then Some(currentMessageIndex as nat) else None
    }
  }
}
