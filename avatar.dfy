/**
 * The streaming-avatar component of the stage client: a speak queue with a
 * busy flag, the imperative handle (`speak`, `interrupt`, `stop`), the
 * handler of the avatar's stop-talking event, and the module-wide
 * initialisation lock with its cooldown. Calls into the avatar SDK are not
 * executed here; each operation reports the calls it would make.
 */
module Avatar {
  import opened Playbook

  /** Milliseconds that must pass between two initialisations. */
  const InitCooldownMs: int := 2000

  /** A call the component makes on the streaming-avatar SDK. */
  datatype SdkCall = SpeakCall(text: string) | InterruptCall | StopAvatarCall

  /**
   * Everything the component's logic reads and writes: whether an avatar
   * instance exists, whether its session has started, the queued texts,
   * the busy flag and the mounted flag of one component instance, and the
   * two module-wide values `initLock` and `initTimestamp` that all
   * instances share.
   */
  datatype AvatarState = AvatarState(
    avatarPresent: bool,
    sessionStarted: bool,
    queue: seq<string>,
    speaking: bool,
    mounted: bool,
    initLock: bool,
    initTimestamp: int)

  /** A new state and the SDK calls made on the way to it, in order. */
  datatype Outcome = Outcome(state: AvatarState, calls: seq<SdkCall>)

  /**
   * `speak(text)`: without an avatar nothing happens; while the avatar is
   * talking the text goes to the tail of the queue; otherwise the
   * component turns busy and speaks the text at once, bypassing the queue.
   */
  function SpeakStep(s: AvatarState, text: string): (r: Outcome)
    ensures !s.avatarPresent ==> r == Outcome(s, [])
    ensures s.avatarPresent && s.speaking ==> r == Outcome(s.(queue := s.queue + [text]), [])
    ensures s.avatarPresent && !s.speaking ==>
              r == Outcome(s.(speaking := true), [SpeakCall(text)])
    ensures r.state.queue == s.queue || r.state.queue == s.queue + [text]
  {
    if !s.avatarPresent then Outcome(s, [])
    else if s.speaking then Outcome(s.(queue := s.queue + [text]), [])
    else Outcome(s.(speaking := true), [SpeakCall(text)])
  }

  /** The direct speak call failed: the component is no longer busy. */
  function SpeakFailed(s: AvatarState): (r: AvatarState)
    ensures !r.speaking
    ensures r.(speaking := s.speaking) == s
  {
    s.(speaking := false)
  }

  /**
   * `interrupt()`: only with an avatar whose session has started; it then
   * drops every queued text, clears the busy flag and interrupts the SDK.
   */
  function InterruptStep(s: AvatarState): (r: Outcome)
    ensures !(s.avatarPresent && s.sessionStarted) ==> r == Outcome(s, [])
    ensures s.avatarPresent && s.sessionStarted ==>
              r == Outcome(s.(queue := [], speaking := false), [InterruptCall])
  {
    if s.avatarPresent && s.sessionStarted then
      Outcome(s.(queue := [], speaking := false), [InterruptCall])
    else Outcome(s, [])
  }

  /**
   * `stop()`: stops the SDK session only if one was started, then drops the
   * avatar, forgets the session and releases the lock with its cooldown;
   * the queue and the busy flag are left as they were.
   */
  function StopStep(s: AvatarState): (r: Outcome)
    ensures !r.state.avatarPresent && !r.state.sessionStarted
    ensures !r.state.initLock && r.state.initTimestamp == 0
    ensures r.state.queue == s.queue && r.state.speaking == s.speaking && r.state.mounted == s.mounted
    ensures r.calls == (if s.avatarPresent && s.sessionStarted then [StopAvatarCall] else [])
  {
    var calls := if s.avatarPresent && s.sessionStarted then [StopAvatarCall] else [];
    Outcome(s.(avatarPresent := false, sessionStarted := false, initLock := false, initTimestamp := 0), calls)
  }

  /**
   * The avatar finished a sentence. A non-empty queue loses its head; that
   * text is spoken when it is non-empty and an avatar exists, and the
   * component stays busy; otherwise, and when the queue was empty, the
   * component is no longer busy.
   */
  function StopTalkingStep(s: AvatarState): (r: Outcome)
    ensures s.queue == [] ==> r == Outcome(s.(speaking := false), [])
    ensures s.queue != [] ==> r.state.queue == s.queue[1..]
    ensures s.queue != [] && s.queue[0] != "" && s.avatarPresent ==>
              r == Outcome(s.(queue := s.queue[1..]), [SpeakCall(s.queue[0])])
    ensures s.queue != [] && (s.queue[0] == "" || !s.avatarPresent) ==>
              r == Outcome(s.(queue := s.queue[1..], speaking := false), [])
  {
    if s.queue == [] then Outcome(s.(speaking := false), [])
    else
      var next := s.queue[0];
      if next != "" && s.avatarPresent then Outcome(s.(queue := s.queue[1..]), [SpeakCall(next)])
      else Outcome(s.(queue := s.queue[1..], speaking := false), [])
  }

  /** Result of the guard at the top of `init`. */
  datatype InitResult = InitResult(state: AvatarState, proceed: bool)

  /**
   * The guard at the top of `init`: skipped while the lock is held or while
   * fewer than `InitCooldownMs` milliseconds have passed since the last
   * initialisation began; otherwise it takes the lock and records `now`.
   */
  function Init(s: AvatarState, now: int): (r: InitResult)
    ensures r.proceed <==> !s.initLock && now - s.initTimestamp >= InitCooldownMs
    ensures !r.proceed ==> r.state == s
    ensures r.proceed ==> r.state == s.(initLock := true, initTimestamp := now)
  {
    if s.initLock then InitResult(s, false)
    else if now - s.initTimestamp < InitCooldownMs then InitResult(s, false)
    else InitResult(s.(initLock := true, initTimestamp := now), true)
  }

  /** The effect runs: the component is mounted and `init` is started. */
  function MountStep(s: AvatarState, now: int): (r: InitResult)
    ensures r.state.mounted
    ensures r.proceed <==> !s.initLock && now - s.initTimestamp >= InitCooldownMs
    ensures r.state.(mounted := s.mounted) == Init(s, now).state
  {
    Init(s.(mounted := true), now)
  }

  /**
   * The token arrived: a new avatar instance is created only while the
   * component is still mounted; otherwise `init` returns early.
   */
  function AvatarCreated(s: AvatarState): (r: AvatarState)
    ensures s.mounted ==> r == s.(avatarPresent := true)
    ensures !s.mounted ==> r == s
  {
    if s.mounted then s.(avatarPresent := true) else s
  }

  /**
   * The SDK reports the session started. If the component was unmounted in
   * the meantime, the zombie session is stopped and the flag stays false;
   * otherwise the session counts as started.
   */
  function SessionCreated(s: AvatarState): (r: Outcome)
    ensures s.mounted ==> r == Outcome(s.(sessionStarted := true), [])
    ensures !s.mounted ==> r == Outcome(s, [StopAvatarCall])
  {
    if s.mounted then Outcome(s.(sessionStarted := true), []) else Outcome(s, [StopAvatarCall])
  }

  /**
   * The effect's cleanup: unmount; stop and drop a started session; and
   * release the lock in every case while keeping the timestamp, so the
   * cooldown still applies to a remount.
   */
  function CleanupStep(s: AvatarState): (r: Outcome)
    ensures !r.state.mounted && !r.state.initLock
    ensures r.state.initTimestamp == s.initTimestamp
    ensures r.state.queue == s.queue && r.state.speaking == s.speaking
    ensures s.avatarPresent && s.sessionStarted ==>
              && !r.state.avatarPresent && !r.state.sessionStarted && r.calls == [StopAvatarCall]
    ensures !(s.avatarPresent && s.sessionStarted) ==>
              && r.state == s.(mounted := false, initLock := false) && r.calls == []
  {
    if s.avatarPresent && s.sessionStarted then
      Outcome(s.(mounted := false, avatarPresent := false, sessionStarted := false, initLock := false), [StopAvatarCall])
    else
      Outcome(s.(mounted := false, initLock := false), [])
  }

  // ---------------------------------------------------------------------
  // The queue is first in, first out
  // ---------------------------------------------------------------------

  /** The speak calls for `texts`, in order. */
  function SpeakAll(texts: seq<string>): (r: seq<SdkCall>)
    ensures |r| == |texts|
    ensures forall i :: 0 <= i < |texts| ==> r[i] == SpeakCall(texts[i])
  {
    if texts == [] then [] else [SpeakCall(texts[0])] + SpeakAll(texts[1..])
  }

  /** `k` stop-talking events in a row, with every SDK call they make. */
  function Drain(s: AvatarState, k: nat): (r: Outcome)
    decreases k
  {
    if k == 0 then Outcome(s, [])
    else
      var o := StopTalkingStep(s);
      var d := Drain(o.state, k - 1);
      Outcome(d.state, o.calls + d.calls)
  }

  predicate NoEmptyTexts(texts: seq<string>)
  {
    forall i :: 0 <= i < |texts| ==> texts[i] != ""
  }

  /**
   * With an avatar and no empty text queued, the first `k` stop-talking
   * events speak the first `k` queued texts in the order they were queued
   * and change nothing but the queue.
   */
  lemma {:induction false} DrainSpeaksInOrder(s: AvatarState, k: nat)
    requires s.avatarPresent && k <= |s.queue| && NoEmptyTexts(s.queue)
    ensures Drain(s, k) == Outcome(s.(queue := s.queue[k..]), SpeakAll(s.queue[..k]))
    decreases k
  {
    if k > 0 {
      var o := StopTalkingStep(s);
      assert o == Outcome(s.(queue := s.queue[1..]), [SpeakCall(s.queue[0])]);
      assert NoEmptyTexts(o.state.queue);
      DrainSpeaksInOrder(o.state, k - 1);
      assert s.queue[1..][k - 1..] == s.queue[k..];
      assert s.queue[..k] == [s.queue[0]] + s.queue[1..][..k - 1];
      assert s.queue[..k][1..] == s.queue[1..][..k - 1];
    }
  }

  /**
   * Draining the whole queue speaks every queued text in order, and the
   * event after the last one leaves the component idle with an empty queue.
   */
  lemma DrainAllThenIdle(s: AvatarState)
    requires s.avatarPresent && NoEmptyTexts(s.queue)
    ensures Drain(s, |s.queue| + 1) == Outcome(s.(queue := [], speaking := false), SpeakAll(s.queue))
  {
    var n := |s.queue|;
    DrainSpeaksInOrder(s, n);
    var d := Drain(s, n);
    assert s.queue[..n] == s.queue;
    assert s.queue[n..] == [];
    DrainAfter(s, n);
  }

  /** One more event after `k` of them extends the drain by that event. */
  lemma {:induction false} DrainAfter(s: AvatarState, k: nat)
    ensures Drain(s, k + 1).state == StopTalkingStep(Drain(s, k).state).state
    ensures Drain(s, k + 1).calls == Drain(s, k).calls + StopTalkingStep(Drain(s, k).state).calls
    decreases k
  {
    if k > 0 {
      DrainAfter(StopTalkingStep(s).state, k - 1);
    }
  }

  /**
   * A text queued while the avatar talks is spoken after everything queued
   * before it, and once the queue drains the component is idle again.
   */
  lemma QueuedTextIsSpokenLast(s: AvatarState, text: string)
    requires s.avatarPresent && s.speaking && NoEmptyTexts(s.queue) && text != ""
    ensures var t := SpeakStep(s, text).state;
            Drain(t, |s.queue| + 2) == Outcome(s.(queue := [], speaking := false), SpeakAll(s.queue + [text]))
  {
    var t := SpeakStep(s, text).state;
    assert t.queue == s.queue + [text];
    assert NoEmptyTexts(t.queue);
    DrainAllThenIdle(t);
  }

  /** After an interrupt the next stop-talking event speaks nothing and leaves the component idle. */
  lemma InterruptSilences(s: AvatarState)
    requires s.avatarPresent && s.sessionStarted
    ensures var o := StopTalkingStep(InterruptStep(s).state);
            o.calls == [] && !o.state.speaking && o.state.queue == []
  {
  }

  /**
   * An empty queued text stalls the queue: the event that removes it ends
   * the busy state although another text is still queued, so a text spoken
   * afterwards overtakes the queued one.
   */
  lemma EmptyQueuedTextLetsLaterTextOvertake()
    ensures var s := AvatarState(true, true, ["", "b"], true, true, false, 0);
            var o1 := StopTalkingStep(s);
            var o2 := SpeakStep(o1.state, "c");
            var o3 := StopTalkingStep(o2.state);
            && o1.calls == [] && o1.state.queue == ["b"] && !o1.state.speaking
            && o2.calls == [SpeakCall("c")]
            && o3.calls == [SpeakCall("b")]
  {
    var s := AvatarState(true, true, ["", "b"], true, true, false, 0);
    assert s.queue[0] == "";
    assert s.queue[1..] == ["b"];
    var o2 := SpeakStep(StopTalkingStep(s).state, "c");
    assert o2.state.queue[1..] == [];
  }

  // ---------------------------------------------------------------------
  // The initialisation guard
  // ---------------------------------------------------------------------

  /** While an initialisation holds the lock, every other attempt is skipped. */
  lemma LockExcludesSecondInit(s: AvatarState, now: int, later: int)
    requires Init(s, now).proceed
    ensures !Init(Init(s, now).state, later).proceed
  {
  }

  /**
   * The double mount of a development build: a mount that began an
   * initialisation, its cleanup, and a remount within the cooldown. The
   * cleanup releases the lock, but the remount still does not initialise.
   */
  lemma RemountWithinCooldownIsSkipped(s: AvatarState, now: int, later: int)
    requires MountStep(s, now).proceed
    requires later - now < InitCooldownMs
    ensures var c := CleanupStep(MountStep(s, now).state).state;
            !c.initLock && !MountStep(c, later).proceed
  {
  }

  /** After a cleanup the cooldown alone decides whether a remount initialises. */
  lemma RemountAfterCooldownProceeds(s: AvatarState, later: int)
    requires later - s.initTimestamp >= InitCooldownMs
    ensures MountStep(CleanupStep(s).state, later).proceed
  {
  }

  /** A manual stop clears the cooldown: any clock reading of at least 2000 ms initialises at once. */
  lemma StopAllowsImmediateRestart(s: AvatarState, now: int)
    requires now >= InitCooldownMs
    ensures Init(StopStep(s).state, now).proceed
  {
  }

  // ---------------------------------------------------------------------
  // The component
  // ---------------------------------------------------------------------

  /** The module-level `globalInitLock` and `globalInitTimestamp`, shared by all instances. */
  class InitGuard {
    var locked: bool
    var timestamp: int

    constructor ()
      ensures !locked && timestamp == 0
    {
      locked := false;
      timestamp := 0;
    }
  }

  /**
   * One mounted avatar component: its refs (`avatarRef` as a presence flag,
   * `sessionStartedRef`, `speakQueueRef`, `isAvatarSpeakingRef`,
   * `mountedRef`) and the shared guard.
   */
  class AvatarComponent {
    var avatarPresent: bool
    var sessionStarted: bool
    var queue: seq<string>
    var speaking: bool
    var mounted: bool
    const guard: InitGuard

    function State(): AvatarState
      reads this, guard
    {
      AvatarState(avatarPresent, sessionStarted, queue, speaking, mounted, guard.locked, guard.timestamp)
    }

    constructor (g: InitGuard)
      ensures guard == g
      ensures State() == AvatarState(false, false, [], false, false, g.locked, g.timestamp)
    {
      guard := g;
      avatarPresent := false;
      sessionStarted := false;
      queue := [];
      speaking := false;
      mounted := false;
    }

    method Speak(text: string) returns (calls: seq<SdkCall>)
      modifies this
      ensures Outcome(State(), calls) == SpeakStep(old(State()), text)
    {
      calls := [];
      if avatarPresent {
        if speaking {
          queue := queue + [text];
        } else {
          speaking := true;
          calls := [SpeakCall(text)];
        }
      }
    }

    method OnSpeakFailed()
      modifies this
      ensures State() == SpeakFailed(old(State()))
    {
      speaking := false;
    }

    method Interrupt() returns (calls: seq<SdkCall>)
      modifies this
      ensures Outcome(State(), calls) == InterruptStep(old(State()))
    {
      calls := [];
      if avatarPresent && sessionStarted {
        queue := [];
        speaking := false;
        calls := [InterruptCall];
      }
    }

    method Stop() returns (calls: seq<SdkCall>)
      modifies this, guard
      ensures Outcome(State(), calls) == StopStep(old(State()))
    {
      calls := [];
      if avatarPresent && sessionStarted {
        calls := [StopAvatarCall];
      }
      avatarPresent := false;
      sessionStarted := false;
      guard.locked := false;
      guard.timestamp := 0;
    }

    method OnStopTalking() returns (calls: seq<SdkCall>)
      modifies this
      ensures Outcome(State(), calls) == StopTalkingStep(old(State()))
    {
      calls := [];
      if |queue| > 0 {
        var next := queue[0];
        queue := queue[1..];
        if next != "" && avatarPresent {
          calls := [SpeakCall(next)];
        } else {
          speaking := false;
        }
      } else {
        speaking := false;
      }
    }

    /** The effect body: mark mounted and run the guard of `init` at clock reading `now`. */
    method Mount(now: int) returns (proceed: bool)
      modifies this, guard
      ensures InitResult(State(), proceed) == MountStep(old(State()), now)
    {
      mounted := true;
      if guard.locked {
        proceed := false;
      } else if now - guard.timestamp < InitCooldownMs {
        proceed := false;
      } else {
        guard.locked := true;
        guard.timestamp := now;
        proceed := true;
      }
    }

    method OnAvatarCreated()
      modifies this
      ensures State() == AvatarCreated(old(State()))
    {
      if mounted {
        avatarPresent := true;
      }
    }

    method OnSessionCreated() returns (calls: seq<SdkCall>)
      modifies this
      ensures Outcome(State(), calls) == SessionCreated(old(State()))
    {
      if !mounted {
        calls := [StopAvatarCall];
        return;
      }
      sessionStarted := true;
      calls := [];
    }

    method Cleanup() returns (calls: seq<SdkCall>)
      modifies this, guard
      ensures Outcome(State(), calls) == CleanupStep(old(State()))
    {
      mounted := false;
      calls := [];
      if avatarPresent && sessionStarted {
        calls := [StopAvatarCall];
        avatarPresent := false;
        sessionStarted := false;
        guard.locked := false;
      } else {
        guard.locked := false;
      }
    }
  }
}
