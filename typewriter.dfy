/** The typewriter reveal engine of components/typewriter-effect.tsx.

    The component keeps a revealed string `displayed` and a single pending
    timer slot. Its two effects are modelled as React runs them: the reset
    effect (deps: messageId) and the typing effect (deps: content, displayed,
    character), whose cleanup cancels the pending timer before the body
    schedules a new one. A fired timer sets `displayed` to the next longer
    slice of the content its closure captured; since that changes `displayed`,
    the typing effect runs again in the next commit.

    Time and randomness are parameters: firing a timer is an explicit `Tick`,
    and each `Math.random()` draw of `getTypingDelay` is a field of `Draws`. */
module Typewriter {
  import opened Common

  // =====================================================================
  // getTypingDelay (components/typewriter-effect.tsx:78-147)

  /** The `Math.random()` values one call of getTypingDelay may draw, in call
      order: the jitter factor, the punctuation pause, the grandma digression
      roll and the digression pause. A draw the call does not make is ignored. */
  datatype Draws = Draws(jitter: real, pause: real, roll: real, digression: real)

  predicate ValidDraws(d: Draws) {
    && 0.0 <= d.jitter < 1.0
    && 0.0 <= d.pause < 1.0
    && 0.0 <= d.roll < 1.0
    && 0.0 <= d.digression < 1.0
  }

  /** Math.round for the non-negative values it is applied to here. */
  function Round(x: real): int {
    (x + 0.5).Floor
  }

  /** The last already-revealed character; None stands for the "" fallback. */
  function LastChar(text: string): Option<char> {
    if |text| == 0 then None else Some(text[|text| - 1])
  }

  predicate IsSentenceEnd(c: Option<char>) {
    c == Some('.') || c == Some('!') || c == Some('?')
  }

  function BaseDelay(character: Character): real {
    match character
    case Grandma => 80.0
    case Intellectual => 25.0
    case Teenager => 40.0
    case Exec => 20.0
  }

  function SentenceEndPause(character: Character, r: real): real {
    match character
    case Grandma => 200.0 + r * 300.0
    case Intellectual => 300.0 + r * 300.0
    case Teenager => 100.0 + r * 100.0
    case Exec => 50.0 + r * 50.0
  }

  function CommaPause(character: Character, r: real): real {
    match character
    case Grandma => 100.0 + r * 100.0
    case Intellectual => 150.0 + r * 100.0
    case Teenager => 50.0 + r * 50.0
    case Exec => 20.0 + r * 30.0
  }

  /** The delay before rounding, step by step as the source computes it.
      `nextChar` is a parameter of the source function that it never reads. */
  function RawDelay(currentText: string, nextChar: char, character: Character, d: Draws): real {
    var last := LastChar(currentText);
    var base := BaseDelay(character);
    var varied :=
      if character == Intellectual || character == Exec then base * (0.95 + d.jitter * 0.1)
      else base * (0.7 + d.jitter * 0.6);
    var afterSentence := if IsSentenceEnd(last) then varied + SentenceEndPause(character, d.pause) else varied;
    var afterComma := if last == Some(',') then afterSentence + CommaPause(character, d.pause) else afterSentence;
    if character == Grandma && d.roll < 0.05 then afterComma + (300.0 + d.digression * 400.0) else afterComma
  }

  /** getTypingDelay: the rounded delay in milliseconds before the next character. */
  function TypingDelay(currentText: string, nextChar: char, character: Character, d: Draws): (r: int)
    requires ValidDraws(d)
    ensures 19 <= r <= 1304
  {
    DelayWithinProfile(currentText, nextChar, character, d);
    Round(RawDelay(currentText, nextChar, character, d))
  }

  // ---------------------------------------------------------------------
  // The persona delay table, as an independent reference for the code above.

  /** A half-open range [lo, hi) that a draw is scaled into. */
  datatype Span = Span(lo: real, hi: real)

  datatype Digression = Digression(chance: real, pause: Span)

  datatype Profile = Profile(base: real, jitter: Span, sentenceEnd: Span, comma: Span, digression: Option<Digression>)

  function ProfileOf(character: Character): Profile {
    match character
    case Grandma =>
      Profile(80.0, Span(0.7, 1.3), Span(200.0, 500.0), Span(100.0, 200.0), Some(Digression(0.05, Span(300.0, 700.0))))
    case Intellectual =>
      Profile(25.0, Span(0.95, 1.05), Span(300.0, 600.0), Span(150.0, 250.0), None)
    case Teenager =>
      Profile(40.0, Span(0.7, 1.3), Span(100.0, 200.0), Span(50.0, 100.0), None)
    case Exec =>
      Profile(20.0, Span(0.95, 1.05), Span(50.0, 100.0), Span(20.0, 50.0), None)
  }

  /** A draw r in [0, 1) scaled into the span. */
  function Scale(s: Span, r: real): real {
    s.lo + r * (s.hi - s.lo)
  }

  /** The pause that the last revealed character calls for (none for "" or a letter). */
  function PauseSpan(p: Profile, last: Option<char>): Span {
    if IsSentenceEnd(last) then p.sentenceEnd
    else if last == Some(',') then p.comma
    else Span(0.0, 0.0)
  }

  predicate Digresses(p: Profile, d: Draws) {
    p.digression.Some? && d.roll < p.digression.value.chance
  }

  function DigressionSpan(p: Profile, d: Draws): Span {
    if Digresses(p, d) then p.digression.value.pause else Span(0.0, 0.0)
  }

  /** The delay a profile prescribes: scaled base, plus the scaled pause, plus
      the scaled digression when the roll says so. */
  function ProfileDelay(p: Profile, last: Option<char>, d: Draws): real {
    p.base * Scale(p.jitter, d.jitter) + Scale(PauseSpan(p, last), d.pause) + Scale(DigressionSpan(p, d), d.digression)
  }

  function MinDelay(p: Profile, last: Option<char>, d: Draws): real {
    p.base * p.jitter.lo + PauseSpan(p, last).lo + DigressionSpan(p, d).lo
  }

  function MaxDelay(p: Profile, last: Option<char>, d: Draws): real {
    p.base * p.jitter.hi + PauseSpan(p, last).hi + DigressionSpan(p, d).hi
  }

  /** The code's delay is the profile's delay: the delay depends only on the
      persona, the draws and the last revealed character. */
  lemma DelayMatchesProfile(currentText: string, nextChar: char, character: Character, d: Draws)
    ensures RawDelay(currentText, nextChar, character, d) == ProfileDelay(ProfileOf(character), LastChar(currentText), d)
  {
    match character
    case Grandma =>
    case Intellectual =>
    case Teenager =>
    case Exec =>
  }

  /** Every raw delay lies in the profile's half-open range. */
  lemma DelayWithinProfile(currentText: string, nextChar: char, character: Character, d: Draws)
    requires ValidDraws(d)
    ensures var p, last := ProfileOf(character), LastChar(currentText);
      MinDelay(p, last, d) <= RawDelay(currentText, nextChar, character, d) < MaxDelay(p, last, d)
    ensures var p, last := ProfileOf(character), LastChar(currentText);
      19.0 <= MinDelay(p, last, d) && MaxDelay(p, last, d) <= 1304.0
  {
    DelayMatchesProfile(currentText, nextChar, character, d);
    var j := d.jitter;
    match character
    case Grandma =>
      assert 56.0 <= 80.0 * (0.7 + j * 0.6) < 104.0;
    case Intellectual =>
      assert 23.75 <= 25.0 * (0.95 + j * 0.1) < 26.25;
    case Teenager =>
      assert 28.0 <= 40.0 * (0.7 + j * 0.6) < 52.0;
    case Exec =>
      assert 19.0 <= 20.0 * (0.95 + j * 0.1) < 21.0;
  }

  /** The rounded delay lies between the rounded ends of the profile range. */
  lemma TypingDelayRange(currentText: string, nextChar: char, character: Character, d: Draws)
    requires ValidDraws(d)
    ensures var p, last := ProfileOf(character), LastChar(currentText);
      Round(MinDelay(p, last, d)) <= TypingDelay(currentText, nextChar, character, d) <= Round(MaxDelay(p, last, d))
  {
    DelayWithinProfile(currentText, nextChar, character, d);
  }

  // =====================================================================
  // The reveal state machine (components/typewriter-effect.tsx:19-64)

  /** A scheduled setTimeout: its delay and the closure's captured
      `content` and `displayedContent`. */
  datatype Timer = Timer(delay: int, content: string, displayed: string)

  /** The component's props and state: the revealed string, the single
      pending-timer slot, and the typing status last reported to the host. */
  datatype Reveal = Reveal(
    content: string,
    character: Character,
    messageId: string,
    displayed: string,
    pending: Option<Timer>,
    typing: bool)

  /** Holds between commits: typing is reported iff a timer is pending, a
      pending timer captured the current content and revealed string, and a
      timer is only pending while the revealed string is shorter. */
  predicate Consistent(s: Reveal) {
    && (s.typing <==> s.pending.Some?)
    && (s.pending.Some? ==>
          s.pending.value.content == s.content && s.pending.value.displayed == s.displayed &&
          |s.displayed| < |s.content|)
  }

  /** Typing effect (:33-55). Its cleanup from the previous run has cleared
      the slot; when caught up it reports false and schedules nothing,
      otherwise it reports true and schedules exactly one timer. */
  function TypingEffect(s: Reveal, d: Draws): (r: Reveal)
    requires ValidDraws(d)
    ensures Consistent(r)
    ensures r.content == s.content && r.character == s.character && r.messageId == s.messageId
    ensures r.displayed == s.displayed
    ensures r.pending.Some? <==> |s.displayed| < |s.content|
    ensures r.pending.Some? ==> 19 <= r.pending.value.delay <= 1304
  {
    if |s.displayed| >= |s.content| then s.(pending := None, typing := false)
    else
      var delay := TypingDelay(s.displayed, s.content[|s.displayed|], s.character, d);
      s.(pending := Some(Timer(delay, s.content, s.displayed)), typing := true)
  }

  /** Mounting: the reset effect finds nothing to reset and reports false,
      then the typing effect runs on the empty revealed string. */
  function Mounted(content: string, character: Character, messageId: string, d: Draws): (r: Reveal)
    requires ValidDraws(d)
    ensures Consistent(r)
    ensures r.content == content && r.character == character && r.messageId == messageId
    ensures r.displayed == ""
    ensures r.pending.Some? <==> content != ""
  {
    TypingEffect(Reveal(content, character, messageId, "", None, false), d)
  }

  /** The props the host passes. */
  datatype Props = Props(content: string, character: Character, messageId: string)

  /** A re-render with new props. In the first commit the typing effect's
      cleanup runs if its deps changed, then the reset effect body (if the id
      changed: queue displayed := "", clear the slot, report false), then the
      typing effect body with this render's, possibly stale, revealed string.
      If the reset changed the revealed string, a second commit re-runs the
      typing effect from "". `d1` and `d2` are the draws of the two runs. */
  function Rendered(s: Reveal, props: Props, d1: Draws, d2: Draws): (r: Reveal)
    requires Consistent(s) && ValidDraws(d1) && ValidDraws(d2)
    ensures Consistent(r)
    ensures r.content == props.content && r.character == props.character && r.messageId == props.messageId
    ensures r.displayed == if props.messageId != s.messageId then "" else s.displayed
  {
    var idChanged := props.messageId != s.messageId;
    var typingDepsChanged := props.content != s.content || props.character != s.character;
    var s1 := s.(content := props.content, character := props.character, messageId := props.messageId);
    var s2 := if typingDepsChanged then s1.(pending := None) else s1;
    var s3 := if idChanged then s2.(pending := None, typing := false) else s2;
    var s4 := if typingDepsChanged then TypingEffect(s3, d1) else s3;
    if idChanged && s.displayed != "" then TypingEffect(s4.(displayed := ""), d2) else s4
  }

  /** The pending timer fires (:46-48): the revealed string becomes the
      captured content sliced one character past the captured length. */
  function Fired(s: Reveal): (r: Reveal)
    requires Consistent(s) && s.pending.Some?
    ensures r.displayed == s.content[..|s.displayed| + 1]
    ensures IsPrefix(r.displayed, s.content) && |r.displayed| == |s.displayed| + 1
    ensures r.content == s.content && r.character == s.character && r.messageId == s.messageId
    ensures r.pending.None?
  {
    var t := s.pending.value;
    s.(displayed := t.content[..|t.displayed| + 1], pending := None)
  }

  /** One tick: the timer fires, and because the revealed string changed the
      typing effect runs again in the next commit. */
  function Ticked(s: Reveal, d: Draws): (r: Reveal)
    requires Consistent(s) && s.pending.Some? && ValidDraws(d)
    ensures Consistent(r)
    ensures r.displayed == s.content[..|s.displayed| + 1]
    ensures r.content == s.content && r.character == s.character && r.messageId == s.messageId
    ensures r.pending.Some? <==> |s.displayed| + 1 < |s.content|
  {
    TypingEffect(Fired(s), d)
  }

  // ---------------------------------------------------------------------
  // Properties of the state machine

  /** Content-only change: the revealed string is kept (neither clamped nor
      reset, even when it no longer is a prefix), and a timer is pending
      exactly when it is shorter than the new content. */
  lemma ContentChange(s: Reveal, content: string, d1: Draws, d2: Draws)
    requires Consistent(s) && ValidDraws(d1) && ValidDraws(d2)
    requires content != s.content
    ensures var r := Rendered(s, Props(content, s.character, s.messageId), d1, d2);
      && r.displayed == s.displayed
      && (r.pending.Some? <==> |s.displayed| < |content|)
      && (r.typing <==> |s.displayed| < |content|)
  {
  }

  /** Shrinking the content to at most the revealed length stops the reveal. */
  lemma ShrinkStops(s: Reveal, content: string, d1: Draws, d2: Draws)
    requires Consistent(s) && ValidDraws(d1) && ValidDraws(d2)
    requires |content| <= |s.displayed|
    ensures var r := Rendered(s, Props(content, s.character, s.messageId), d1, d2);
      r.displayed == s.displayed && r.pending.None? && !r.typing
  {
  }

  /** A new message id resets the revealed string to "" and cancels the old
      timer. A new tick is scheduled only if a second commit re-runs the
      typing effect, i.e. only if something had been revealed. */
  lemma MessageChange(s: Reveal, id: string, d1: Draws, d2: Draws)
    requires Consistent(s) && ValidDraws(d1) && ValidDraws(d2)
    requires id != s.messageId
    ensures var r := Rendered(s, Props(s.content, s.character, id), d1, d2);
      && r.displayed == ""
      && r.messageId == id
      && (r.pending.Some? <==> s.displayed != "" && s.content != "")
      && (r.pending.Some? ==> r.pending.value.displayed == "")
  {
  }

  /** As written, a message change while nothing is revealed yet cancels the
      scheduled first tick and nothing schedules another: the reveal stalls
      although the content is non-empty. */
  lemma MessageChangeCanStall(s: Reveal, id: string, d1: Draws, d2: Draws)
    requires Consistent(s) && ValidDraws(d1) && ValidDraws(d2)
    requires id != s.messageId && s.displayed == "" && s.content != ""
    ensures var r := Rendered(s, Props(s.content, s.character, id), d1, d2);
      |r.displayed| < |r.content| && r.pending.None? && !r.typing
  {
  }

  /** When the message id and the content change together, the typing effect
      sees the new content in the first commit, so the reveal restarts from
      "" even if nothing had been revealed. */
  lemma MessageAndContentChange(s: Reveal, id: string, content: string, d1: Draws, d2: Draws)
    requires Consistent(s) && ValidDraws(d1) && ValidDraws(d2)
    requires id != s.messageId && content != s.content
    ensures var r := Rendered(s, Props(content, s.character, id), d1, d2);
      r.displayed == "" && (r.pending.Some? <==> content != "")
  {
  }

  /** After a tick the revealed string is a prefix of the content again,
      even if it had diverged from it before. */
  lemma TickRealigns(s: Reveal, d: Draws)
    requires Consistent(s) && s.pending.Some? && ValidDraws(d)
    ensures IsPrefix(Ticked(s, d).displayed, s.content)
  {
  }

  /** Growing the content by appending keeps a revealed prefix a prefix. */
  lemma GrowthKeepsPrefix(s: Reveal, more: string, d1: Draws, d2: Draws)
    requires Consistent(s) && ValidDraws(d1) && ValidDraws(d2)
    requires IsPrefix(s.displayed, s.content) && more != ""
    ensures var r := Rendered(s, Props(s.content + more, s.character, s.messageId), d1, d2);
      IsPrefix(r.displayed, r.content) && (r.pending.Some? <==> |r.displayed| < |r.content|)
  {
    var c := s.content + more;
    assert c != s.content by { assert |c| > |s.content|; }
    assert c[..|s.displayed|] == s.content[..|s.displayed|];
  }

  predicate AllValid(ds: seq<Draws>) {
    forall i :: 0 <= i < |ds| ==> ValidDraws(ds[i])
  }

  /** Fire pending timers, one per draw, until none is pending. */
  function Ticks(s: Reveal, ds: seq<Draws>): (r: Reveal)
    requires Consistent(s) && AllValid(ds)
    ensures Consistent(r)
    decreases |ds|
  {
    if |ds| == 0 || s.pending.None? then s else Ticks(Ticked(s, ds[0]), ds[1..])
  }

  /** With the content fixed, n ticks reveal n more characters, up to the
      whole content, after which no timer is pending. */
  lemma {:induction false} TicksReveal(s: Reveal, ds: seq<Draws>)
    requires Consistent(s) && AllValid(ds)
    requires IsPrefix(s.displayed, s.content)
    requires s.pending.Some? <==> |s.displayed| < |s.content|
    ensures var n := Min(|ds|, |s.content| - |s.displayed|);
      var r := Ticks(s, ds);
      && r.content == s.content
      && r.displayed == s.content[..|s.displayed| + n]
      && (r.pending.Some? <==> |s.displayed| + n < |s.content|)
      && (r.typing <==> |s.displayed| + n < |s.content|)
    decreases |ds|
  {
    if |ds| == 0 || s.pending.None? {
      assert s.content[..|s.displayed|] == s.displayed;
    } else {
      var t := Ticked(s, ds[0]);
      assert AllValid(ds[1..]) by {
        forall i | 0 <= i < |ds[1..]| ensures ValidDraws(ds[1..][i]) {
          assert ds[1..][i] == ds[i + 1];
        }
      }
      TicksReveal(t, ds[1..]);
    }
  }

  /** Terminal convergence: from mount, exactly |content| ticks reveal the
      whole content; after fewer, a timer is still pending. */
  lemma RevealCompletes(content: string, character: Character, id: string, d: Draws, ds: seq<Draws>)
    requires ValidDraws(d) && AllValid(ds) && |ds| <= |content|
    ensures var r := Ticks(Mounted(content, character, id, d), ds);
      && r.displayed == content[..|ds|]
      && (r.pending.Some? <==> |ds| < |content|)
      && (|ds| == |content| ==> r.displayed == content && !r.typing)
  {
    TicksReveal(Mounted(content, character, id, d), ds);
  }

  // ---------------------------------------------------------------------
  // Host wiring (app/page.tsx:549-556)

  /** The React key the host gives the component: id and content length. */
  function HostKey(id: string, content: string): (string, int) {
    (id, |content|)
  }

  /** The host renders a message: with the same key the instance re-renders,
      with a new key the old instance unmounts and a new one mounts. The host
      also passes `isComplete` and `shouldRender`, which the component does
      not declare and so ignores. */
  function HostRendered(prev: Reveal, id: string, content: string, character: Character, d1: Draws, d2: Draws): Reveal
    requires Consistent(prev) && ValidDraws(d1) && ValidDraws(d2)
  {
    if HostKey(prev.messageId, prev.content) == HostKey(id, content) then
      Rendered(prev, Props(content, character, id), d1, d2)
    else
      Mounted(content, character, id, d1)
  }

  /** Every content batch that changes the length remounts the component, so
      the reveal restarts from "" however far it had got. */
  lemma HostRestartsOnGrowth(prev: Reveal, content: string, character: Character, d1: Draws, d2: Draws)
    requires Consistent(prev) && ValidDraws(d1) && ValidDraws(d2)
    requires |content| != |prev.content|
    ensures var r := HostRendered(prev, prev.messageId, content, character, d1, d2);
      r.displayed == "" && (r.pending.Some? <==> content != "")
  {
  }

  // =====================================================================
  // The component instance

  class TypewriterEffect {
    var content: string
    var character: Character
    var messageId: string
    var displayed: string
    var pending: Option<Timer>
    var typing: bool
    var mounted: bool

    function State(): Reveal
      reads this
    {
      Reveal(content, character, messageId, displayed, pending, typing)
    }

    ghost predicate Valid()
      reads this
    {
      mounted && Consistent(State())
    }

    constructor (content: string, character: Character, messageId: string, d: Draws)
      requires ValidDraws(d)
      ensures Valid() && State() == Mounted(content, character, messageId, d)
    {
      this.content := content;
      this.character := character;
      this.messageId := messageId;
      displayed := "";
      pending := None;
      typing := false;
      mounted := true;
      new;
      RunTypingEffect(d);
    }

    /** The typing effect body, after its cleanup emptied the slot. */
    method RunTypingEffect(d: Draws)
      requires ValidDraws(d)
      modifies this
      ensures State() == TypingEffect(old(State()), d)
      ensures mounted == old(mounted)
    {
      pending := None;
      if |displayed| >= |content| {
        typing := false;
      } else {
        typing := true;
        var delay := TypingDelay(displayed, content[|displayed|], character, d);
        pending := Some(Timer(delay, content, displayed));
      }
    }

    /** The host re-renders the component with new props. */
    method Render(props: Props, d1: Draws, d2: Draws)
      requires Valid() && ValidDraws(d1) && ValidDraws(d2)
      modifies this
      ensures Valid() && State() == Rendered(old(State()), props, d1, d2)
    {
      var idChanged := props.messageId != messageId;
      var typingDepsChanged := props.content != content || props.character != character;
      var wasDisplayed := displayed;
      content, character, messageId := props.content, props.character, props.messageId;
      if typingDepsChanged {
        pending := None;
      }
      if idChanged {
        pending := None;
        typing := false;
      }
      if typingDepsChanged {
        RunTypingEffect(d1);
      }
      if idChanged && wasDisplayed != "" {
        displayed := "";
        RunTypingEffect(d2);
      }
    }

    /** The pending timer fires. */
    method Tick(d: Draws)
      requires Valid() && pending.Some? && ValidDraws(d)
      modifies this
      ensures Valid() && State() == Ticked(old(State()), d)
    {
      var t := pending.value;
      displayed := t.content[..|t.displayed| + 1];
      pending := None;
      RunTypingEffect(d);
    }

    /** Unmount cleanup (:57-64): the pending timer is cleared. */
    method Unmount()
      requires Valid()
      modifies this
      ensures !mounted && pending.None?
      ensures content == old(content) && displayed == old(displayed) && typing == old(typing)
      ensures messageId == old(messageId) && character == old(character)
    {
      pending := None;
      mounted := false;
    }
  }
}
