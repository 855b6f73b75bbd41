/**
 * The main-stage client. Once a second it fetches the server's snapshot
 * and compares it with three remembered values (the last item id, the
 * last voice-session flag, whether the event was running) to detect
 * edges; each edge issues commands to the local realtime session and the
 * avatar, and mounts or unmounts the avatar.
 *
 * `StepFn` states one poll as a function; the class `StageClient`
 * performs the same poll on its fields and is proved to agree with it.
 */
module Stage {
  import opened Playbook
  import Coordinator

  /** What one poll asks of the realtime session and the avatar. */
  datatype Command =
    | UpdateSessionConfig(instruction: string)
    | StartSession
    | StopSession
    | StopAvatar

  /** The remembered values and the page state one poll reads and writes. */
  datatype StageMemory = StageMemory(
    lastItemId: Option<string>,         // lastItemIdRef
    voiceSessionActive: bool,           // voiceSessionActiveRef
    wasRunning: bool,                   // wasRunningRef
    currentItem: Option<PlaybookItem>,  // the item last shown
    state: Option<AppState>,            // the last snapshot received
    avatarMounted: bool,
    isAvatarReady: bool)

  const InitialMemory: StageMemory := StageMemory(None, false, false, None, None, false, false)

  datatype StepResult = StepResult(memory: StageMemory, commands: seq<Command>)

  const DefaultMcName: string := "두에나"

  /** The label that introduces the item's script in the session instructions. */
  const ScriptLabel: string := "\n\n참고 대본: "

  const NameOpen: string := "\n\n당신의 이름은 \""
  const NameMiddle: string := "\"입니다. 공동사회자가 \""
  const NameClose: string := "\"라고 부를 때만 응답하세요."

  /** The closing section that gives the MC its name and tells it to answer only to that name. */
  function NameSection(name: string): (r: string)
    ensures |r| == |NameOpen| + 2 * |name| + |NameMiddle| + |NameClose|
    ensures r[..|NameOpen|] == NameOpen
    ensures r[|NameOpen|..|NameOpen| + |name|] == name
    ensures r[|NameOpen| + |name| + |NameMiddle|..|NameOpen| + 2 * |name| + |NameMiddle|] == name
  {
    var r := NameOpen + name + NameMiddle + name + NameClose;
    assert r[..|NameOpen|] == NameOpen;
    assert r[|NameOpen|..|NameOpen| + |name|] == name;
    assert r[|NameOpen| + |name| + |NameMiddle|..|NameOpen| + 2 * |name| + |NameMiddle|] == name;
    r
  }

  /**
   * The realtime session instructions for an MC_TIME item: its directive,
   * then its script, then the name section. A missing directive or script
   * reads as empty, and an empty MC name falls back to `DefaultMcName`.
   */
  function FullInstruction(item: PlaybookItem, settings: Settings): (r: string)
    ensures var instruction := if item.systemInstruction.Some? then item.systemInstruction.value else "";
            var script := if item.script.Some? then item.script.value else "";
            var name := if settings.mcName == "" then DefaultMcName else settings.mcName;
            r == instruction + ScriptLabel + script + NameSection(name)
  {
    var instruction := OrElse(item.systemInstruction, "");
    var script := OrElse(item.script, "");
    var mcName := OrElse(Some(settings.mcName), DefaultMcName);
    instruction + ScriptLabel + script + NameSection(mcName)
  }

  /** The directive and the script can be read back from the instructions at their positions. */
  lemma FullInstructionParts(item: PlaybookItem, settings: Settings)
    ensures var r := FullInstruction(item, settings);
            var instruction := OrElse(item.systemInstruction, "");
            var script := OrElse(item.script, "");
            var a := |instruction| + |ScriptLabel|;
            && a + |script| <= |r|
            && r[..|instruction|] == instruction
            && r[|instruction|..a] == ScriptLabel
            && r[a..a + |script|] == script
  {
    var r := FullInstruction(item, settings);
    var instruction := OrElse(item.systemInstruction, "");
    var script := OrElse(item.script, "");
    var name := OrElse(Some(settings.mcName), DefaultMcName);
    var a := |instruction| + |ScriptLabel|;
    assert r == instruction + ScriptLabel + script + NameSection(name);
    assert r[..|instruction|] == instruction;
    assert r[|instruction|..a] == ScriptLabel;
    assert r[a..a + |script|] == script;
  }

  /** The snapshot names an item whose id differs from the remembered one. */
  predicate ItemChanged(m: StageMemory, data: AppState)
  {
    data.currentItem.Some? && Some(data.currentItem.value.id) != m.lastItemId
  }

  /** The running flag falls from true to false. */
  predicate StopEdge(m: StageMemory, data: AppState)
  {
    m.wasRunning && !data.isRunning
  }

  /** The running flag rises from false to true. */
  predicate StartEdge(m: StageMemory, data: AppState)
  {
    !m.wasRunning && data.isRunning
  }

  // One poll runs four phases in order; each reads the memory the previous one left.

  /** Phase 1: remember a new current item. */
  function AfterItem(m: StageMemory, data: AppState): StageMemory
  {
    if ItemChanged(m, data) then m.(lastItemId := Some(data.currentItem.value.id), currentItem := data.currentItem) else m
  }

  function ItemCommands(m: StageMemory, data: AppState, isConnected: bool): seq<Command>
  {
    if ItemChanged(m, data) && data.currentItem.value.kind == McTime && data.voiceSessionActive && isConnected
    then [UpdateSessionConfig(FullInstruction(data.currentItem.value, data.settings))]
    else []
  }

  /** Phase 2: follow a change of the voice-session flag. */
  function AfterVoice(m: StageMemory, data: AppState): StageMemory
  {
    if data.voiceSessionActive != m.voiceSessionActive then m.(voiceSessionActive := data.voiceSessionActive) else m
  }

  function VoiceCommands(m: StageMemory, data: AppState, isConnected: bool): seq<Command>
  {
    if data.voiceSessionActive == m.voiceSessionActive then []
    else if data.voiceSessionActive && !isConnected && m.isAvatarReady then [StartSession]
    else if !data.voiceSessionActive && isConnected then [StopSession]
    else []
  }

  /** Phase 3: tear everything down when the event stops. */
  function AfterStop(m: StageMemory, data: AppState): StageMemory
  {
    if StopEdge(m, data)
    then m.(avatarMounted := false, isAvatarReady := false, lastItemId := None, voiceSessionActive := false)
    else m
  }

  function StopCommands(m: StageMemory, data: AppState, isConnected: bool, avatarPresent: bool): seq<Command>
  {
    if StopEdge(m, data)
    then (if isConnected then [StopSession] else []) + (if avatarPresent then [StopAvatar] else [])
    else []
  }

  /** Phase 4: mount the avatar when the event starts. */
  function AfterStart(m: StageMemory, data: AppState): StageMemory
  {
    if StartEdge(m, data) then m.(avatarMounted := true) else m
  }

  /**
   * One poll. `isConnected` is whether the realtime session is connected
   * and `avatarPresent` whether the avatar component is mounted and
   * reachable; both are read, never changed, by the poll.
   */
  function StepFn(m: StageMemory, data: AppState, isConnected: bool, avatarPresent: bool): (r: StepResult)
    ensures r.memory.wasRunning == data.isRunning && r.memory.state == Some(data)
  {
    var m0 := m.(state := Some(data));
    var m1 := AfterItem(m0, data);
    var m2 := AfterVoice(m1, data);
    var m3 := AfterStop(m2, data);
    var m4 := AfterStart(m3, data);
    StepResult(m4.(wasRunning := data.isRunning),
               ItemCommands(m0, data, isConnected) + VoiceCommands(m1, data, isConnected)
               + StopCommands(m2, data, isConnected, avatarPresent))
  }

  /** `StepFn` is the four phases run in order. */
  lemma StepFnIsPhases(m: StageMemory, data: AppState, isConnected: bool, avatarPresent: bool)
    ensures var m0 := m.(state := Some(data));
            var m1 := AfterItem(m0, data);
            var m2 := AfterVoice(m1, data);
            var m3 := AfterStop(m2, data);
            StepFn(m, data, isConnected, avatarPresent)
              == StepResult(AfterStart(m3, data).(wasRunning := data.isRunning),
                            ItemCommands(m0, data, isConnected) + VoiceCommands(m1, data, isConnected)
                            + StopCommands(m2, data, isConnected, avatarPresent))
  {
  }

  lemma InConcat3(x: Command, a: seq<Command>, b: seq<Command>, c: seq<Command>)
    ensures x in a + b + c <==> x in a || x in b || x in c
  {
  }

  /**
   * The item edge: it fires only for a snapshot item whose id differs
   * from the remembered one, and the session is reconfigured only then,
   * for an MC_TIME item while the voice session is on and connected.
   */
  lemma StepItemChange(m: StageMemory, data: AppState, isConnected: bool, avatarPresent: bool)
    ensures var r := StepFn(m, data, isConnected, avatarPresent);
      && (ItemChanged(m, data) && !StopEdge(m, data) ==> r.memory.lastItemId == Some(data.currentItem.value.id))
      && (ItemChanged(m, data) ==> r.memory.currentItem == data.currentItem)
      && (!ItemChanged(m, data) && !StopEdge(m, data) ==> r.memory.lastItemId == m.lastItemId)
      && (!ItemChanged(m, data) ==> r.memory.currentItem == m.currentItem)
      && (forall x :: UpdateSessionConfig(x) in r.commands <==>
            && ItemChanged(m, data) && data.currentItem.value.kind == McTime && data.voiceSessionActive && isConnected
            && x == FullInstruction(data.currentItem.value, data.settings))
  {
    var m0 := m.(state := Some(data));
    var m1 := AfterItem(m0, data);
    var m2 := AfterVoice(m1, data);
    forall x ensures UpdateSessionConfig(x) in StepFn(m, data, isConnected, avatarPresent).commands <==>
            && ItemChanged(m, data) && data.currentItem.value.kind == McTime && data.voiceSessionActive && isConnected
            && x == FullInstruction(data.currentItem.value, data.settings)
    {
      InConcat3(UpdateSessionConfig(x), ItemCommands(m0, data, isConnected), VoiceCommands(m1, data, isConnected),
                StopCommands(m2, data, isConnected, avatarPresent));
    }
  }

  /**
   * The voice edge: the remembered flag follows the snapshot; a session
   * is started only when the flag turns on while disconnected and the
   * avatar is ready, and stopped when it turns off while connected (or
   * when the event stops while connected).
   */
  lemma StepVoiceChange(m: StageMemory, data: AppState, isConnected: bool, avatarPresent: bool)
    ensures var r := StepFn(m, data, isConnected, avatarPresent);
      && (!StopEdge(m, data) ==> r.memory.voiceSessionActive == data.voiceSessionActive)
      && (StartSession in r.commands <==>
            data.voiceSessionActive != m.voiceSessionActive && data.voiceSessionActive && !isConnected && m.isAvatarReady)
      && (StopSession in r.commands <==>
            || (data.voiceSessionActive != m.voiceSessionActive && !data.voiceSessionActive && isConnected)
            || (StopEdge(m, data) && isConnected))
  {
    var m0 := m.(state := Some(data));
    var m1 := AfterItem(m0, data);
    var m2 := AfterVoice(m1, data);
    var a, b, c := ItemCommands(m0, data, isConnected), VoiceCommands(m1, data, isConnected),
                   StopCommands(m2, data, isConnected, avatarPresent);
    InConcat3(StartSession, a, b, c);
    InConcat3(StopSession, a, b, c);
  }

  /**
   * The running edges: stopping stops the session (if connected) and the
   * avatar (if present), unmounts it and forgets the item and the voice
   * flag; starting mounts the avatar; otherwise both stay as they were.
   */
  lemma StepRunningEdges(m: StageMemory, data: AppState, isConnected: bool, avatarPresent: bool)
    ensures var r := StepFn(m, data, isConnected, avatarPresent);
      && (StopAvatar in r.commands <==> StopEdge(m, data) && avatarPresent)
      && (StopEdge(m, data) ==> && !r.memory.avatarMounted && !r.memory.isAvatarReady
                                && r.memory.lastItemId == None && !r.memory.voiceSessionActive)
      && (StartEdge(m, data) ==> r.memory.avatarMounted && r.memory.isAvatarReady == m.isAvatarReady)
      && (!StopEdge(m, data) && !StartEdge(m, data) ==>
            r.memory.avatarMounted == m.avatarMounted && r.memory.isAvatarReady == m.isAvatarReady)
  {
    var m0 := m.(state := Some(data));
    var m1 := AfterItem(m0, data);
    var m2 := AfterVoice(m1, data);
    InConcat3(StopAvatar, ItemCommands(m0, data, isConnected), VoiceCommands(m1, data, isConnected),
              StopCommands(m2, data, isConnected, avatarPresent));
  }

  /**
   * A snapshot of a stopped event that shows neither a current item nor
   * an active voice session. The coordinator only publishes such
   * snapshots (`CoordinatorSnapshotsAreCoherent`).
   */
  predicate Coherent(data: AppState)
  {
    !data.isRunning ==> data.currentItem.None? && !data.voiceSessionActive
  }

  lemma CoordinatorSnapshotsAreCoherent(s: Coordinator.RunState, pb: seq<PlaybookItem>, st: Settings)
    requires Coordinator.Inv(s)
    ensures Coherent(Coordinator.Snapshot(s, pb, st))
  {
    if !s.isRunning {
      Coordinator.StoppedSnapshotIsQuiet(s, pb, st);
    }
  }

  /**
   * Edge detection is idempotent: polling the same coherent snapshot a
   * second time, with the same local inputs, issues no command and
   * changes nothing remembered.
   */
  lemma ReplayIsQuiet(m: StageMemory, data: AppState, isConnected: bool, avatarPresent: bool)
    requires Coherent(data)
    ensures var r1 := StepFn(m, data, isConnected, avatarPresent);
            var r2 := StepFn(r1.memory, data, isConnected, avatarPresent);
            r2.commands == [] && r2.memory == r1.memory
  {
    var r1 := StepFn(m, data, isConnected, avatarPresent);
    var r2 := StepFn(r1.memory, data, isConnected, avatarPresent);
    assert !ItemChanged(r1.memory, data);
    assert r1.memory.voiceSessionActive == data.voiceSessionActive;
    assert !StopEdge(r1.memory, data) && !StartEdge(r1.memory, data);
    assert forall c :: c !in r2.commands;
  }

  /**
   * Without coherence a replay is not quiet: a stopped snapshot that still
   * names an MC_TIME item with an active voice session makes the poll
   * after the stop edge reconfigure the session again; the poll after that
   * is quiet.
   */
  lemma ReplayOfIncoherentSnapshotRepeats(settings: Settings)
    ensures
      var item := PlaybookItem("a", McTime, "A", None, None, None);
      var data := AppState(Some("a"), Some(item), false, true, true, [item], settings, []);
      var m := InitialMemory.(wasRunning := true);
      var r1 := StepFn(m, data, true, false);
      var r2 := StepFn(r1.memory, data, true, false);
      var r3 := StepFn(r2.memory, data, true, false);
      && UpdateSessionConfig(FullInstruction(item, settings)) in r2.commands
      && r3.commands == [] && r3.memory == r2.memory
  {
  }

  /** The avatar shows once the stage is entered, while the event runs and the shown item is MC_TIME. */
  predicate ShowAvatar(isStageEntered: bool, m: StageMemory)
  {
    isStageEntered && m.state.Some? && m.state.value.isRunning && m.currentItem.Some? && m.currentItem.value.kind == McTime
  }

  /**
   * After a poll the avatar is hidden whenever the snapshot is stopped,
   * and when the poll brought a new item it is shown exactly for an
   * MC_TIME item of a running event.
   */
  lemma ShowAvatarAfterStep(m: StageMemory, data: AppState, isConnected: bool, avatarPresent: bool, isStageEntered: bool)
    ensures var r := StepFn(m, data, isConnected, avatarPresent);
            && (!data.isRunning ==> !ShowAvatar(isStageEntered, r.memory))
            && (ItemChanged(m, data) ==>
                  (ShowAvatar(isStageEntered, r.memory) <==> isStageEntered && data.isRunning && data.currentItem.value.kind == McTime))
  {
  }

  /** An AI text response reaches the avatar only while it exists and audio is enabled. */
  function HandleTextResponse(m: StageMemory, avatarPresent: bool, text: string): (spoken: Option<string>)
    ensures spoken.Some? <==> avatarPresent && m.state.Some? && m.state.value.audioEnabled
    ensures spoken.Some? ==> spoken.value == text
  {
    if avatarPresent && m.state.Some? && m.state.value.audioEnabled then Some(text) else None
  }

  /** The page: the remembered refs and the state the poll sets. */
  class StageClient {
    var lastItemId: Option<string>
    var voiceSessionActive: bool
    var wasRunning: bool
    var currentItem: Option<PlaybookItem>
    var state: Option<AppState>
    var avatarMounted: bool
    var isAvatarReady: bool

    function Memory(): StageMemory
      reads this
    {
      StageMemory(lastItemId, voiceSessionActive, wasRunning, currentItem, state, avatarMounted, isAvatarReady)
    }

    constructor ()
      ensures Memory() == InitialMemory
    {
      lastItemId := None;
      voiceSessionActive := false;
      wasRunning := false;
      currentItem := None;
      state := None;
      avatarMounted := false;
      isAvatarReady := false;
    }

    /** The avatar reports that its stream plays. */
    method OnAvatarReady()
      modifies this
      ensures Memory() == old(Memory()).(isAvatarReady := true)
    {
      isAvatarReady := true;
    }

    /** Phase 1 of a poll: a new current item. */
    method ItemPhase(data: AppState, isConnected: bool) returns (commands: seq<Command>)
      modifies this
      ensures Memory() == AfterItem(old(Memory()), data)
      ensures commands == ItemCommands(old(Memory()), data, isConnected)
    {
      commands := [];
      if data.currentItem.Some? && Some(data.currentItem.value.id) != lastItemId {
        lastItemId := Some(data.currentItem.value.id);
        currentItem := data.currentItem;
        if data.currentItem.value.kind == McTime && data.voiceSessionActive && isConnected {
          commands := [UpdateSessionConfig(FullInstruction(data.currentItem.value, data.settings))];
        }
      }
    }

    /** Phase 2 of a poll: a change of the voice-session flag. */
    method VoicePhase(data: AppState, isConnected: bool) returns (commands: seq<Command>)
      modifies this
      ensures Memory() == AfterVoice(old(Memory()), data)
      ensures commands == VoiceCommands(old(Memory()), data, isConnected)
    {
      commands := [];
      if data.voiceSessionActive != voiceSessionActive {
        voiceSessionActive := data.voiceSessionActive;
        if data.voiceSessionActive && !isConnected && isAvatarReady {
          commands := [StartSession];
        } else if !data.voiceSessionActive && isConnected {
          commands := [StopSession];
        }
      }
    }

    /** Phase 3 of a poll: the event stopped. */
    method StopPhase(data: AppState, isConnected: bool, avatarPresent: bool) returns (commands: seq<Command>)
      modifies this
      ensures Memory() == AfterStop(old(Memory()), data)
      ensures commands == StopCommands(old(Memory()), data, isConnected, avatarPresent)
    {
      commands := [];
      if wasRunning && !data.isRunning {
        if isConnected {
          commands := commands + [StopSession];
        }
        if avatarPresent {
          commands := commands + [StopAvatar];
        }
        avatarMounted := false;
        isAvatarReady := false;
        lastItemId := None;
        voiceSessionActive := false;
      }
    }

    /** Phase 4 of a poll: the event started. */
    method StartPhase(data: AppState)
      modifies this
      ensures Memory() == AfterStart(old(Memory()), data)
    {
      if !wasRunning && data.isRunning {
        avatarMounted := true;
      }
    }

    /** One poll with the snapshot `data`; returns the commands in the order issued. */
    method Step(data: AppState, isConnected: bool, avatarPresent: bool) returns (commands: seq<Command>)
      modifies this
      ensures StepResult(Memory(), commands) == StepFn(old(Memory()), data, isConnected, avatarPresent)
    {
      StepFnIsPhases(Memory(), data, isConnected, avatarPresent);
      state := Some(data);
      var c1 := ItemPhase(data, isConnected);
      var c2 := VoicePhase(data, isConnected);
      var c3 := StopPhase(data, isConnected, avatarPresent);
      StartPhase(data);
      wasRunning := data.isRunning;
      commands := c1 + c2 + c3;
    }
  }
}
