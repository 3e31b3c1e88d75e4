/** `components/typing-text.tsx`: reveals `text` one UTF-16 code unit per
    timer tick, as `charAt` and `length` count them (a character outside the
    Basic Multilingual Plane takes two ticks, one per surrogate). The
    effect's local `index`, the `displayedText` state and whether the
    interval timer is running are fields; each firing of the timer is one
    call of `Tick`, and the delay between firings is not modelled. */
module TypingTextComponent {
  import opened Basics

  const DefaultSpeed: nat := 30

  class TypingText {
    var text: string
    var speed: nat
    var displayedText: seq<CodeUnit>
    var index: nat
    var timerActive: bool

    /** `text` as JavaScript sees it: `text.length` is `|Units()|` and
        `text.charAt(i)` is `Units()[i]`. */
    function Units(): (u: seq<CodeUnit>)
      reads this
      ensures u == [] <==> text == ""
    {
      Utf16(text)
    }

    /** What is shown is always the first `index` code units of `text`, and
        the timer runs only while code units remain. */
    ghost predicate Valid()
      reads this
    {
      && index <= |Units()|
      && displayedText == Units()[..index]
      && (timerActive ==> index < |Units()|)
    }

    /** Mounting runs the effect for the initial props; `speed` defaults to
        30. */
    constructor(text: string, speed: Option<nat>)
      ensures Valid()
      ensures this.text == text && this.speed == Default(speed, DefaultSpeed)
      ensures displayedText == [] && index == 0
      ensures timerActive <==> text != ""
    {
      this.text := text;
      this.speed := Default(speed, DefaultSpeed);
      displayedText := [];
      index := 0;
      timerActive := text != "";
    }

    /** The effect body: start over from nothing, and start the timer
        unless the text is empty. */
    method Restart()
      modifies this
      ensures Valid()
      ensures text == old(text) && speed == old(speed)
      ensures displayedText == [] && index == 0
      ensures timerActive <==> text != ""
    {
      index := 0;
      displayedText := [];
      timerActive := text != "";
    }

    /** New props: when `text` or `speed` changed, the cleanup clears the old
        timer and the effect runs again; otherwise nothing happens. */
    method SetProps(newText: string, newSpeed: Option<nat>)
      requires Valid()
      modifies this
      ensures Valid()
      ensures text == newText && speed == Default(newSpeed, DefaultSpeed)
      ensures old(text) != newText || old(speed) != speed ==>
                displayedText == [] && index == 0 && (timerActive <==> newText != "")
      ensures old(text) == newText && old(speed) == speed ==>
                displayedText == old(displayedText) && index == old(index) && timerActive == old(timerActive)
    {
      var s := Default(newSpeed, DefaultSpeed);
      if newText != text || s != speed {
        timerActive := false;
        text := newText;
        speed := s;
        Restart();
      }
    }

    /** One firing of the timer: show the next code unit, advance, and stop
        the timer once the whole text is shown. */
    method Tick()
      requires Valid() && timerActive
      modifies this
      ensures Valid()
      ensures text == old(text) && speed == old(speed)
      ensures index == old(index) + 1
      ensures displayedText == old(displayedText) + [Units()[old(index)]]
      ensures timerActive <==> index < |Units()|
    {
      var units := Units();
      displayedText := displayedText + [units[index]];
      index := index + 1;
      assert displayedText == units[..index];
      if index >= |units| {
        timerActive := false;
      }
    }

    /** Unmounting clears the timer; what is shown stays. */
    method Unmount()
      modifies this
      ensures !timerActive
      ensures text == old(text) && displayedText == old(displayedText) && index == old(index)
    {
      timerActive := false;
    }
  }

  /** The timer fires exactly `text.length` times after a restart: driving
      it until it stops shows every code unit of the text. */
  method RunToEnd(t: TypingText) returns (ticks: nat)
    requires t.Valid() && t.index == 0
    modifies t
    ensures t.Valid() && !t.timerActive
    ensures t.text == old(t.text)
    ensures old(t.timerActive) ==> ticks == |t.Units()| && t.displayedText == t.Units()
    ensures !old(t.timerActive) ==> ticks == 0 && t.displayedText == []
  {
    ticks := 0;
    while t.timerActive
      invariant t.Valid() && t.text == old(t.text)
      invariant t.index == ticks
      invariant ticks > 0 ==> old(t.timerActive)
      invariant ticks == 0 ==> t.timerActive == old(t.timerActive)
      invariant old(t.timerActive) && !t.timerActive ==> t.index == |t.Units()|
      decreases |t.Units()| - t.index
    {
      t.Tick();
      ticks := ticks + 1;
    }
  }
}
