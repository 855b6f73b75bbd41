/**
 * The run-state coordinator of the server: one mutable record
 * (`currentItemId`, `isRunning`, `voiceSessionActive`, `audioEnabled`,
 * `logs`) changed by the operator's commands, a bounded log, and the
 * cached playbook and settings.
 *
 * The first half states every command as a function from the old record
 * to the new record and the reply; the lemmas about those functions carry
 * the properties (the invariant, the walk through the playbook, the
 * scenarios). The class `Coordinator` then performs the same commands
 * field by field and is proved to agree with the functions.
 */
module Coordinator {
  import opened Playbook

  /** The log keeps at most this many entries. */
  const MaxLogs: nat := 100

  datatype RunState = RunState(
    currentItemId: Option<string>,
    isRunning: bool,
    voiceSessionActive: bool,
    audioEnabled: bool,
    logs: seq<LogEntry>)

  /** The state the server starts with. */
  const Initial: RunState := RunState(None, false, false, true, [])

  datatype ErrorKind =
    | EmptyPlaybook     // "Playbook is empty"
    | NotRunning        // "Event not running"
    | NoMoreItems       // "No more items"
    | WrongSegmentType  // "Voice session can only start during MC_TIME"
    | NotAnArray        // "Playbook must be an array"
    | SaveFailed        // the store could not be written

  datatype Reply = Ok | Err(kind: ErrorKind)

  /** The outcome of one command: the new record and the reply. */
  datatype Step = Step(state: RunState, reply: Reply)

  /**
   * What every reachable record satisfies: the log is within its cap, a
   * voice session only exists while the event runs, and the event runs
   * exactly when a current item is set.
   */
  predicate Inv(s: RunState)
  {
    && |s.logs| <= MaxLogs
    && (s.voiceSessionActive ==> s.isRunning)
    && (s.isRunning <==> s.currentItemId.Some?)
  }

  // ---------------------------------------------------------------- the log

  /** Push the entry, then keep only the newest `MaxLogs` entries. */
  function AppendLog(logs: seq<LogEntry>, e: LogEntry): (r: seq<LogEntry>)
    ensures |logs| < MaxLogs ==> r == logs + [e]
    ensures |logs| >= MaxLogs ==> r == logs[|logs| - (MaxLogs - 1)..] + [e]
  {
    var pushed := logs + [e];
    if |pushed| > MaxLogs then pushed[|pushed| - MaxLogs..] else pushed
  }

  /** Appending the entries of `es` one after another. */
  function AppendAll(logs: seq<LogEntry>, es: seq<LogEntry>): seq<LogEntry>
    decreases |es|
  {
    if es == [] then logs else AppendAll(AppendLog(logs, es[0]), es[1..])
  }

  function Min(a: nat, b: nat): nat { if a < b then a else b }

  /** One append keeps a suffix of the old log followed by the new entry, and never more than `MaxLogs`. */
  lemma AppendLogIsSuffix(logs: seq<LogEntry>, e: LogEntry)
    requires |logs| <= MaxLogs
    ensures var r := AppendLog(logs, e);
      && |r| == Min(|logs| + 1, MaxLogs)
      && r == (logs + [e])[|logs| + 1 - |r|..]
  {
  }

  /**
   * However many entries are appended, the log holds exactly the newest
   * `MaxLogs` of all entries ever written (all of them while fewer), in
   * the order they were written: the oldest are dropped first.
   */
  lemma {:induction false} AppendAllKeepsNewest(logs: seq<LogEntry>, es: seq<LogEntry>)
    requires |logs| <= MaxLogs
    ensures var r := AppendAll(logs, es); var all := logs + es;
      && |r| == Min(|all|, MaxLogs)
      && r == all[|all| - |r|..]
    decreases |es|
  {
    var all := logs + es;
    if es == [] {
      assert all == logs;
    } else {
      var l1 := AppendLog(logs, es[0]);
      AppendLogIsSuffix(logs, es[0]);
      var d := |logs| + 1 - |l1|;
      assert l1 + es[1..] == all[d..] by {
        assert logs + [es[0]] + es[1..] == all;
        assert l1 == (logs + [es[0]])[d..];
      }
      AppendAllKeepsNewest(l1, es[1..]);
      var r := AppendAll(l1, es[1..]);
      assert r == AppendAll(logs, es);
      assert |l1 + es[1..]| == |all| - d;
    }
  }

  // ---------------------------------------------------------- the commands

  /** Start the event at the first item of the freshly loaded playbook. */
  function StartEvent(s: RunState, pb: seq<PlaybookItem>, time: string): (r: Step)
    ensures pb == [] ==> r == Step(s, Err(EmptyPlaybook))
    ensures pb != [] ==> && r.reply == Ok
                         && r.state.isRunning
                         && r.state.currentItemId == Some(pb[0].id)
                         && r.state.logs == AppendLog(s.logs, LogEntry(time, "Event started - " + pb[0].title))
    ensures r.state.voiceSessionActive == s.voiceSessionActive
    ensures r.state.audioEnabled == s.audioEnabled
  {
    if |pb| == 0 then Step(s, Err(EmptyPlaybook))
    else
      var logs := AppendLog(s.logs, LogEntry(time, "Event started - " + pb[0].title));
      Step(s.(isRunning := true, currentItemId := Some(pb[0].id), logs := logs), Ok)
  }

  const VoiceEndedMessage: string := "Voice session ended (moved to SESSION)"

  /**
   * Advance to the item after the current one in the freshly loaded
   * playbook. Entering a SESSION item ends an active voice session.
   */
  function NextItem(s: RunState, pb: seq<PlaybookItem>, time: string): (r: Step)
    ensures !s.isRunning ==> r == Step(s, Err(NotRunning))
    ensures s.isRunning && !(0 <= FindIndex(pb, s.currentItemId) < |pb| - 1) ==> r == Step(s, Err(NoMoreItems))
    ensures r.reply == Ok <==> s.isRunning && 0 <= FindIndex(pb, s.currentItemId) < |pb| - 1
    ensures r.reply == Ok ==>
      var item := pb[FindIndex(pb, s.currentItemId) + 1];
      var ends := item.kind == Session && s.voiceSessionActive;
      var moved := LogEntry(time, "Moved to - " + item.title);
      && r.state.currentItemId == Some(item.id)
      && r.state.isRunning
      && r.state.audioEnabled == s.audioEnabled
      && r.state.voiceSessionActive == (s.voiceSessionActive && !ends)
      && r.state.logs == (if ends then AppendLog(AppendLog(s.logs, LogEntry(time, VoiceEndedMessage)), moved)
                          else AppendLog(s.logs, moved))
  {
    if !s.isRunning then Step(s, Err(NotRunning))
    else
      var i := FindIndex(pb, s.currentItemId);
      if i == -1 || i >= |pb| - 1 then Step(s, Err(NoMoreItems))
      else Step(MoveTo(s, pb[i + 1], time), Ok)
  }

  /** The effect of a successful next onto `item`. */
  function MoveTo(s: RunState, item: PlaybookItem, time: string): RunState
  {
    var s1 := s.(currentItemId := Some(item.id));
    var s2 := if item.kind == Session && s1.voiceSessionActive
              then s1.(voiceSessionActive := false, logs := AppendLog(s1.logs, LogEntry(time, VoiceEndedMessage)))
              else s1;
    s2.(logs := AppendLog(s2.logs, LogEntry(time, "Moved to - " + item.title)))
  }

  /** The effect shared by stop and emergency stop; only the log message differs. */
  function Halt(s: RunState, message: string, time: string): (r: Step)
    ensures r.reply == Ok
    ensures !r.state.isRunning && r.state.currentItemId == None && !r.state.voiceSessionActive
    ensures r.state.audioEnabled == s.audioEnabled
    ensures r.state.logs == AppendLog(s.logs, LogEntry(time, message))
  {
    Step(s.(isRunning := false, currentItemId := None, voiceSessionActive := false,
            logs := AppendLog(s.logs, LogEntry(time, message))), Ok)
  }

  function StopEvent(s: RunState, time: string): (r: Step)
    ensures r == Halt(s, "Event stopped", time)
  {
    Halt(s, "Event stopped", time)
  }

  function EmergencyStopEvent(s: RunState, time: string): (r: Step)
    ensures r == Halt(s, "EMERGENCY STOP activated", time)
  {
    Halt(s, "EMERGENCY STOP activated", time)
  }

  /**
   * The detached teardown of the avatar provider's sessions, started by
   * stop or emergency stop, completes: it logs the number of sessions
   * stopped when there was at least one, and changes nothing else.
   */
  function TeardownFinished(s: RunState, stopped: nat, emergency: bool, time: string): (r: RunState)
    ensures stopped == 0 ==> r == s
    ensures stopped > 0 ==> r == s.(logs := AppendLog(s.logs, LogEntry(time, TeardownMessage(stopped, emergency))))
  {
    if stopped > 0 then s.(logs := AppendLog(s.logs, LogEntry(time, TeardownMessage(stopped, emergency)))) else s
  }

  function TeardownMessage(stopped: nat, emergency: bool): string
  {
    (if emergency then "Emergency: Stopped " else "Stopped ") + NatToString(stopped) + " HeyGen sessions"
  }

  /**
   * Start a voice session. The current item is looked up in the cached
   * playbook, which this command does not reload.
   */
  function StartVoice(s: RunState, cached: seq<PlaybookItem>, time: string): (r: Step)
    ensures !s.isRunning ==> r == Step(s, Err(NotRunning))
    ensures s.isRunning && (Find(cached, s.currentItemId).None? || Find(cached, s.currentItemId).value.kind != McTime)
            ==> r == Step(s, Err(WrongSegmentType))
    ensures r.reply == Ok <==> s.isRunning && Find(cached, s.currentItemId).Some? && Find(cached, s.currentItemId).value.kind == McTime
    ensures r.reply == Ok ==>
      r.state == s.(voiceSessionActive := true,
                    logs := AppendLog(s.logs, LogEntry(time, "Voice session started - " + Find(cached, s.currentItemId).value.title)))
  {
    if !s.isRunning then Step(s, Err(NotRunning))
    else
      match Find(cached, s.currentItemId)
      case None => Step(s, Err(WrongSegmentType))
      case Some(item) =>
        if item.kind != McTime then Step(s, Err(WrongSegmentType))
        else Step(s.(voiceSessionActive := true,
                     logs := AppendLog(s.logs, LogEntry(time, "Voice session started - " + item.title))), Ok)
  }

  /** Stop the voice session; unconditional. */
  function StopVoice(s: RunState, time: string): (r: RunState)
    ensures !r.voiceSessionActive
    ensures r.isRunning == s.isRunning && r.currentItemId == s.currentItemId && r.audioEnabled == s.audioEnabled
    ensures r.logs == AppendLog(s.logs, LogEntry(time, "Voice session stopped"))
  {
    s.(voiceSessionActive := false, logs := AppendLog(s.logs, LogEntry(time, "Voice session stopped")))
  }

  function AudioMessage(enabled: bool): string
  {
    if enabled then "Audio enabled" else "Audio disabled"
  }

  /** Flip the audio flag; nothing else but the log changes. */
  function ToggleAudio(s: RunState, time: string): (r: RunState)
    ensures r.audioEnabled == !s.audioEnabled
    ensures r.isRunning == s.isRunning && r.currentItemId == s.currentItemId
    ensures r.voiceSessionActive == s.voiceSessionActive
    ensures r.logs == AppendLog(s.logs, LogEntry(time, AudioMessage(r.audioEnabled)))
  {
    var enabled := !s.audioEnabled;
    s.(audioEnabled := enabled, logs := AppendLog(s.logs, LogEntry(time, AudioMessage(enabled))))
  }

  /** Set the audio flag; nothing else but the log changes. */
  function SetAudio(s: RunState, enabled: bool, time: string): (r: RunState)
    ensures r.audioEnabled == enabled
    ensures r.isRunning == s.isRunning && r.currentItemId == s.currentItemId
    ensures r.voiceSessionActive == s.voiceSessionActive
    ensures r.logs == AppendLog(s.logs, LogEntry(time, AudioMessage(enabled)))
  {
    s.(audioEnabled := enabled, logs := AppendLog(s.logs, LogEntry(time, AudioMessage(enabled))))
  }

  /** The fields a settings request may carry; absent fields keep their value. */
  datatype SettingsPatch = SettingsPatch(avatarId: Option<string>, mcName: Option<string>)

  /** A shallow merge of the request over the stored settings, in which the request wins. */
  function MergeSettings(st: Settings, p: SettingsPatch): (r: Settings)
    ensures p.avatarId.Some? ==> r.avatarId == p.avatarId.value
    ensures p.avatarId.None? ==> r.avatarId == st.avatarId
    ensures p.mcName.Some? ==> r.mcName == p.mcName.value
    ensures p.mcName.None? ==> r.mcName == st.mcName
  {
    Settings(
      match p.avatarId case Some(a) => a case None => st.avatarId,
      match p.mcName case Some(m) => m case None => st.mcName)
  }

  /** Merging the same request twice is merging it once; an empty request changes nothing. */
  lemma MergeSettingsIdempotent(st: Settings, p: SettingsPatch)
    ensures MergeSettings(MergeSettings(st, p), p) == MergeSettings(st, p)
    ensures MergeSettings(st, SettingsPatch(None, None)) == st
  {
  }

  function SettingsMessage(st: Settings): string
  {
    "Settings updated: Avatar=" + st.avatarId + ", MC=" + st.mcName
  }

  /** The snapshot the state endpoint returns, with the current item resolved against `pb`. */
  function Snapshot(s: RunState, pb: seq<PlaybookItem>, st: Settings): (r: AppState)
    ensures r.currentItem == Find(pb, s.currentItemId)
    ensures r.currentItem.Some? ==> r.currentItem.value in pb && Some(r.currentItem.value.id) == s.currentItemId
    ensures r.currentItem.None? <==> !HasId(pb, s.currentItemId)
    ensures r.isRunning == s.isRunning && r.voiceSessionActive == s.voiceSessionActive
    ensures r.currentItemId == s.currentItemId && r.audioEnabled == s.audioEnabled
    ensures r.playbook == pb && r.settings == st && r.logs == s.logs
  {
    AppState(s.currentItemId, Find(pb, s.currentItemId), s.isRunning, s.voiceSessionActive,
             s.audioEnabled, pb, st, s.logs)
  }

  /** A stopped coordinator publishes neither a current item nor an active voice session. */
  lemma StoppedSnapshotIsQuiet(s: RunState, pb: seq<PlaybookItem>, st: Settings)
    requires Inv(s) && !s.isRunning
    ensures Snapshot(s, pb, st).currentItem.None?
    ensures !Snapshot(s, pb, st).voiceSessionActive
  {
  }

  // ------------------------------------------------ commands as one alphabet

  /**
   * Every request that changes the record. `Logged` stands for the
   * requests whose only effect on the record is one log line (a saved
   * playbook, saved settings).
   */
  datatype Command =
    | StartCmd(loaded: seq<PlaybookItem>)
    | NextCmd(loaded: seq<PlaybookItem>)
    | StopCmd
    | EmergencyStopCmd
    | TeardownCmd(stopped: nat, emergency: bool)
    | VoiceStartCmd(cached: seq<PlaybookItem>)
    | VoiceStopCmd
    | ToggleAudioCmd
    | SetAudioCmd(enabled: bool)
    | Logged(message: string)

  datatype Request = Request(cmd: Command, time: string)

  function Apply(s: RunState, q: Request): (r: Step)
  {
    match q.cmd
    case StartCmd(pb) => StartEvent(s, pb, q.time)
    case NextCmd(pb) => NextItem(s, pb, q.time)
    case StopCmd => StopEvent(s, q.time)
    case EmergencyStopCmd => EmergencyStopEvent(s, q.time)
    case TeardownCmd(n, e) => Step(TeardownFinished(s, n, e, q.time), Ok)
    case VoiceStartCmd(pb) => StartVoice(s, pb, q.time)
    case VoiceStopCmd => Step(StopVoice(s, q.time), Ok)
    case ToggleAudioCmd => Step(ToggleAudio(s, q.time), Ok)
    case SetAudioCmd(b) => Step(SetAudio(s, b, q.time), Ok)
    case Logged(m) => Step(s.(logs := AppendLog(s.logs, LogEntry(q.time, m))), Ok)
  }

  /** The record after serving the requests of `qs` in order. */
  function Run(s: RunState, qs: seq<Request>): RunState
    decreases |qs|
  {
    if qs == [] then s else Run(Apply(s, qs[0]).state, qs[1..])
  }

  /** Every command keeps the invariant, and a rejected command changes nothing. */
  lemma ApplyPreservesInv(s: RunState, q: Request)
    requires Inv(s)
    ensures Inv(Apply(s, q).state)
    ensures Apply(s, q).reply.Err? ==> Apply(s, q).state == s
  {
    match q.cmd
    case StartCmd(pb) =>
    case NextCmd(pb) =>
    case StopCmd =>
    case EmergencyStopCmd =>
    case TeardownCmd(n, e) =>
    case VoiceStartCmd(pb) =>
    case VoiceStopCmd =>
    case ToggleAudioCmd =>
    case SetAudioCmd(b) =>
    case Logged(m) =>
  }

  /** The invariant holds initially and after any sequence of requests. */
  lemma {:induction false} RunPreservesInv(s: RunState, qs: seq<Request>)
    requires Inv(s)
    ensures Inv(Run(s, qs))
    decreases |qs|
  {
    if qs != [] {
      ApplyPreservesInv(s, qs[0]);
      RunPreservesInv(Apply(s, qs[0]).state, qs[1..]);
    }
  }

  lemma InitialSatisfiesInv()
    ensures Inv(Initial)
    ensures !Initial.isRunning && Initial.currentItemId == None && Initial.audioEnabled
  {
  }

  // ------------------------------------------------- walking the playbook

  /** `k` applications of `step`, starting from `s`. */
  function Iterate(step: RunState -> RunState, s: RunState, k: nat): RunState
    decreases k
  {
    if k == 0 then s else Iterate(step, step(s), k - 1)
  }

  /** `k` consecutive next commands against the same playbook. */
  function NextTimes(s: RunState, pb: seq<PlaybookItem>, time: string, k: nat): RunState
  {
    Iterate(t => NextItem(t, pb, time).state, s, k)
  }

  /** The event runs and its current item is the item at position `i`. */
  predicate At(s: RunState, pb: seq<PlaybookItem>, i: nat)
  {
    i < |pb| && s.isRunning && s.currentItemId == Some(pb[i].id)
  }

  /** A step that moves from every position to the next one, taken `k` times, moves `k` positions. */
  lemma {:induction false} IterateAdvances(step: RunState -> RunState, pb: seq<PlaybookItem>, s: RunState, i: nat, k: nat)
    requires i + k < |pb| && At(s, pb, i)
    requires forall t, j: nat :: At(t, pb, j) && j + 1 < |pb| ==> At(step(t), pb, j + 1)
    ensures At(Iterate(step, s, k), pb, i + k)
    decreases k
  {
    if k > 0 {
      IterateAdvances(step, pb, step(s), i + 1, k - 1);
    }
  }

  /**
   * With unique identifiers, next moves from the item at `i` to the item
   * at `i + 1` (it neither skips nor repeats), and fails at the last item.
   */
  lemma NextAdvancesByOne(s: RunState, pb: seq<PlaybookItem>, time: string, i: nat)
    requires UniqueIds(pb) && At(s, pb, i)
    ensures i < |pb| - 1 ==> NextItem(s, pb, time).reply == Ok && At(NextItem(s, pb, time).state, pb, i + 1)
    ensures i == |pb| - 1 ==> NextItem(s, pb, time) == Step(s, Err(NoMoreItems))
  {
    FindIndexOfUnique(pb, i);
  }

  /** From the item at `i`, `k` next commands reach the item at `i + k`. */
  lemma NextTimesWalks(s: RunState, pb: seq<PlaybookItem>, time: string, i: nat, k: nat)
    requires UniqueIds(pb) && i + k < |pb| && At(s, pb, i)
    ensures At(NextTimes(s, pb, time, k), pb, i + k)
  {
    var step := t => NextItem(t, pb, time).state;
    forall t, j: nat | At(t, pb, j) && j + 1 < |pb|
      ensures At(step(t), pb, j + 1)
    {
      NextAdvancesByOne(t, pb, time, j);
    }
    IterateAdvances(step, pb, s, i, k);
  }

  /**
   * Without unique identifiers the walk can revisit items: `findIndex`
   * finds the first item with the current id, so from the second "a"
   * next goes back to "b" instead of on to "c".
   */
  lemma NextRepeatsOnDuplicateIds()
    ensures var a := PlaybookItem("a", McTime, "A1", None, None, None);
            var b := PlaybookItem("b", Session, "B", None, None, None);
            var a2 := PlaybookItem("a", McTime, "A2", None, None, None);
            var c := PlaybookItem("c", Session, "C", None, None, None);
            var s := RunState(Some("a"), true, false, true, []);
            NextItem(s, [a, b, a2, c], "t").state.currentItemId == Some("b")
  {
    var a := PlaybookItem("a", McTime, "A1", None, None, None);
    var b := PlaybookItem("b", Session, "B", None, None, None);
    var a2 := PlaybookItem("a", McTime, "A2", None, None, None);
    var c := PlaybookItem("c", Session, "C", None, None, None);
    assert FindIndex([a, b, a2, c], Some("a")) == 0;
  }

  // ------------------------------------------------------------ scenarios

  /**
   * Playbook [a: MC_TIME, b: SESSION]: start, start voice, next (voice is
   * forced off and logged), next fails, stop.
   */
  lemma ForcedVoiceStopScenario(time: string)
    ensures
      var a := PlaybookItem("a", McTime, "A", None, None, None);
      var b := PlaybookItem("b", Session, "B", None, None, None);
      var pb := [a, b];
      var s1 := StartEvent(Initial, pb, time);
      var s2 := StartVoice(s1.state, pb, time);
      var s3 := NextItem(s2.state, pb, time);
      var s4 := NextItem(s3.state, pb, time);
      var s5 := StopEvent(s4.state, time);
      && s1.reply == Ok && s1.state.currentItemId == Some("a")
      && s2.reply == Ok && s2.state.voiceSessionActive
      && s3.reply == Ok && s3.state.currentItemId == Some("b") && !s3.state.voiceSessionActive
      && s3.state.logs == s2.state.logs + [LogEntry(time, VoiceEndedMessage), LogEntry(time, "Moved to - " + b.title)]
      && s4 == Step(s3.state, Err(NoMoreItems))
      && !s5.state.isRunning && s5.state.currentItemId == None
  {
    var a := PlaybookItem("a", McTime, "A", None, None, None);
    var b := PlaybookItem("b", Session, "B", None, None, None);
    var pb := [a, b];
    assert FindIndex(pb, Some("a")) == 0;
    assert FindIndex(pb, Some("b")) == 1;
    var s2 := StartVoice(StartEvent(Initial, pb, time).state, pb, time);
    assert Find(pb, Some("a")) == Some(a);
    assert |s2.state.logs| == 2;
  }

  /**
   * "A voice session runs only during MC_TIME" is not kept: start does not
   * end an active voice session, so restarting on a playbook whose first
   * item is a SESSION leaves the voice session on over a SESSION item.
   */
  lemma VoiceCanOutliveMcTime(time: string)
    ensures
      var a := PlaybookItem("a", McTime, "A", None, None, None);
      var b := PlaybookItem("b", Session, "B", None, None, None);
      var s1 := StartEvent(Initial, [a], time);
      var s2 := StartVoice(s1.state, [a], time);
      var s3 := StartEvent(s2.state, [b], time);
      && s3.reply == Ok
      && s3.state.voiceSessionActive
      && Find([b], s3.state.currentItemId) == Some(b) && b.kind == Session
  {
    var a := PlaybookItem("a", McTime, "A", None, None, None);
    var b := PlaybookItem("b", Session, "B", None, None, None);
    assert FindIndex([a], Some("a")) == 0;
    assert FindIndex([b], Some("b")) == 0;
  }

  /** Start on an empty playbook fails and leaves the record as it was. */
  lemma EmptyPlaybookNeverStarts(s: RunState, time: string)
    ensures StartEvent(s, [], time) == Step(s, Err(EmptyPlaybook))
    ensures !s.isRunning ==> !StartEvent(s, [], time).state.isRunning
  {
  }

  /** Stop and emergency stop differ in nothing but their log message. */
  lemma StopsDifferOnlyInMessage(s: RunState, time: string)
    ensures StopEvent(s, time).state.(logs := []) == EmergencyStopEvent(s, time).state.(logs := [])
    ensures StopEvent(s, time).reply == EmergencyStopEvent(s, time).reply
  {
  }

  // ------------------------------------------------------------ the server

  /**
   * The server process: the `currentState` record as fields, plus the
   * module-level caches of the playbook and the settings, which several
   * requests reload from the store and which voice-session start reads.
   */
  class Coordinator {
    var currentItemId: Option<string>
    var isRunning: bool
    var voiceSessionActive: bool
    var audioEnabled: bool
    var logs: seq<LogEntry>
    var playbook: seq<PlaybookItem>
    var settings: Settings

    function State(): RunState
      reads this
    {
      RunState(currentItemId, isRunning, voiceSessionActive, audioEnabled, logs)
    }

    predicate Valid()
      reads this
    {
      Inv(State())
    }

    /** Server start: the initial record and whatever the stores hold. */
    constructor (loadedPlaybook: seq<PlaybookItem>, loadedSettings: Settings)
      ensures Valid() && State() == Initial
      ensures playbook == loadedPlaybook && settings == loadedSettings
    {
      currentItemId := None;
      isRunning := false;
      voiceSessionActive := false;
      audioEnabled := true;
      logs := [];
      playbook := loadedPlaybook;
      settings := loadedSettings;
    }

    method AddLog(message: string, time: string)
      modifies this`logs
      ensures logs == AppendLog(old(logs), LogEntry(time, message))
    {
      logs := logs + [LogEntry(time, message)];
      if |logs| > MaxLogs {
        logs := logs[|logs| - MaxLogs..];
      }
    }

    method Start(loaded: seq<PlaybookItem>, time: string) returns (reply: Reply)
      requires Valid()
      modifies this
      ensures Valid()
      ensures Step(State(), reply) == StartEvent(old(State()), loaded, time)
      ensures playbook == loaded && settings == old(settings)
    {
      playbook := loaded;
      if |playbook| == 0 {
        return Err(EmptyPlaybook);
      }
      isRunning := true;
      currentItemId := Some(playbook[0].id);
      AddLog("Event started - " + playbook[0].title, time);
      reply := Ok;
    }

    method Next(loaded: seq<PlaybookItem>, time: string) returns (reply: Reply)
      requires Valid()
      modifies this
      ensures Valid()
      ensures Step(State(), reply) == NextItem(old(State()), loaded, time)
      ensures playbook == (if old(isRunning) then loaded else old(playbook))
      ensures settings == old(settings)
    {
      if !isRunning {
        return Err(NotRunning);
      }
      playbook := loaded;
      var currentIndex := FindIndex(playbook, currentItemId);
      if currentIndex == -1 || currentIndex >= |playbook| - 1 {
        return Err(NoMoreItems);
      }
      var nextItem := playbook[currentIndex + 1];
      ghost var s0 := State();
      currentItemId := Some(nextItem.id);
      if nextItem.kind == Session && voiceSessionActive {
        voiceSessionActive := false;
        AddLog(VoiceEndedMessage, time);
      }
      AddLog("Moved to - " + nextItem.title, time);
      assert State() == MoveTo(s0, nextItem, time);
      reply := Ok;
    }

    method Stop(time: string)
      requires Valid()
      modifies this
      ensures Valid()
      ensures State() == StopEvent(old(State()), time).state
      ensures playbook == old(playbook) && settings == old(settings)
    {
      isRunning := false;
      currentItemId := None;
      voiceSessionActive := false;
      AddLog("Event stopped", time);
    }

    method EmergencyStop(time: string)
      requires Valid()
      modifies this
      ensures Valid()
      ensures State() == EmergencyStopEvent(old(State()), time).state
      ensures playbook == old(playbook) && settings == old(settings)
    {
      isRunning := false;
      currentItemId := None;
      voiceSessionActive := false;
      AddLog("EMERGENCY STOP activated", time);
    }

    /** The continuation of the detached teardown, run whenever it completes. */
    method OnTeardownFinished(stopped: nat, emergency: bool, time: string)
      requires Valid()
      modifies this
      ensures Valid()
      ensures State() == TeardownFinished(old(State()), stopped, emergency, time)
      ensures playbook == old(playbook) && settings == old(settings)
    {
      if stopped > 0 {
        AddLog(TeardownMessage(stopped, emergency), time);
      }
    }

    method VoiceSessionStart(time: string) returns (reply: Reply)
      requires Valid()
      modifies this
      ensures Valid()
      ensures Step(State(), reply) == StartVoice(old(State()), old(playbook), time)
      ensures playbook == old(playbook) && settings == old(settings)
    {
      if !isRunning {
        return Err(NotRunning);
      }
      var currentItem := Find(playbook, currentItemId);
      if currentItem.None? || currentItem.value.kind != McTime {
        return Err(WrongSegmentType);
      }
      voiceSessionActive := true;
      AddLog("Voice session started - " + currentItem.value.title, time);
      reply := Ok;
    }

    method VoiceSessionStop(time: string)
      requires Valid()
      modifies this
      ensures Valid()
      ensures State() == StopVoice(old(State()), time)
      ensures playbook == old(playbook) && settings == old(settings)
    {
      voiceSessionActive := false;
      AddLog("Voice session stopped", time);
    }

    method AudioToggle(time: string) returns (enabled: bool)
      requires Valid()
      modifies this
      ensures Valid()
      ensures State() == ToggleAudio(old(State()), time) && enabled == audioEnabled
      ensures playbook == old(playbook) && settings == old(settings)
    {
      audioEnabled := !audioEnabled;
      AddLog(AudioMessage(audioEnabled), time);
      enabled := audioEnabled;
    }

    method AudioSet(value: bool, time: string) returns (enabled: bool)
      requires Valid()
      modifies this
      ensures Valid()
      ensures State() == SetAudio(old(State()), value, time) && enabled == value
      ensures playbook == old(playbook) && settings == old(settings)
    {
      audioEnabled := value;
      AddLog(AudioMessage(value), time);
      enabled := audioEnabled;
    }

    /**
     * Save settings: merge the request over the cached settings, write
     * the result (`saved` is whether the write succeeded) and log it.
     */
    method SaveSettings(patch: SettingsPatch, saved: bool, time: string) returns (reply: Reply)
      requires Valid()
      modifies this
      ensures Valid()
      ensures !saved ==> reply == Err(SaveFailed) && State() == old(State()) && settings == old(settings)
      ensures saved ==> && reply == Ok
                        && settings == MergeSettings(old(settings), patch)
                        && State() == old(State()).(logs := AppendLog(old(logs), LogEntry(time, SettingsMessage(settings))))
      ensures playbook == old(playbook)
    {
      var merged := MergeSettings(settings, patch);
      if !saved {
        return Err(SaveFailed);
      }
      settings := merged;
      AddLog(SettingsMessage(settings), time);
      reply := Ok;
    }

    /**
     * Save a playbook sent by the operator. `body` is None when the
     * request body is not an array; `saved` is whether the write succeeded.
     */
    method SavePlaybook(body: Option<seq<PlaybookItem>>, saved: bool, time: string) returns (reply: Reply)
      requires Valid()
      modifies this
      ensures Valid()
      ensures body.None? ==> reply == Err(NotAnArray) && State() == old(State()) && playbook == old(playbook)
      ensures body.Some? && !saved ==> reply == Err(SaveFailed) && State() == old(State()) && playbook == old(playbook)
      ensures body.Some? && saved ==> && reply == Ok
                                      && playbook == body.value
                                      && State() == old(State()).(logs := AppendLog(old(logs), LogEntry(time, "Playbook updated")))
      ensures settings == old(settings)
    {
      if body.None? {
        return Err(NotAnArray);
      }
      if !saved {
        return Err(SaveFailed);
      }
      playbook := body.value;
      AddLog("Playbook updated", time);
      reply := Ok;
    }

    /** The playbook endpoint: reload the cache from the store and return it. */
    method GetPlaybook(loaded: seq<PlaybookItem>) returns (pb: seq<PlaybookItem>)
      modifies this`playbook
      ensures pb == loaded && playbook == loaded
    {
      playbook := loaded;
      pb := playbook;
    }

    /** The state endpoint: reload both caches and return the snapshot. */
    method GetState(loadedPlaybook: seq<PlaybookItem>, loadedSettings: Settings) returns (snap: AppState)
      requires Valid()
      modifies this`playbook, this`settings
      ensures Valid()
      ensures playbook == loadedPlaybook && settings == loadedSettings
      ensures snap == Snapshot(State(), loadedPlaybook, loadedSettings)
      ensures !isRunning ==> snap.currentItem.None? && !snap.voiceSessionActive
    {
      playbook := loadedPlaybook;
      settings := loadedSettings;
      var currentItem := Find(playbook, currentItemId);
      snap := AppState(currentItemId, currentItem, isRunning, voiceSessionActive, audioEnabled,
                       playbook, settings, logs);
      if !isRunning {
        StoppedSnapshotIsQuiet(State(), playbook, settings);
      }
    }
  }
}
