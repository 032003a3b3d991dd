/**
 * What the plugin sees of the host IDE, as one snapshot value, and the
 * triggers the commands fire into it. The IDE services (project, session,
 * action, build and editor managers) are not modelled beyond this.
 */
module Host {
  import opened Wrappers

  datatype BuildConfig = BuildConfig(name: string, buildDir: string, buildDirExists: bool)

  datatype Target = Target(
    buildConfigs: seq<BuildConfig>,
    activeBuildConfig: Option<BuildConfig>,
    activeRunConfig: Option<string>)

  datatype Project = Project(name: string, targetCount: nat, activeTarget: Option<Target>)

  /** Number of one-second polls loadSession makes. */
  const PollLimit: nat := 15

  /** The startup project's display name at each poll (None: no startup project). */
  type Polls = s: seq<Option<string>> | |s| == PollLimit witness seq(15, _ => None)

  datatype Snapshot = Snapshot(
    startup: Option<Project>,
    projects: seq<string>,
    actionManager: bool,
    resolvable: set<string>,
    sessions: seq<string>,
    activeSession: string,
    openFiles: seq<string>,
    existingFiles: set<string>,
    building: bool,
    saveSucceeds: bool,
    loadPolls: Polls,
    taskAccessReport: seq<string>,
    version: string)

  /** The trigger a command fired, if any. */
  datatype Effect =
    | NoEffect
    | BuildTriggered(project: string)
    | CleanTriggered(project: string)
    | ActionTriggered(id: string)
    | RunControlStarted(runConfig: string)
    | BuildConfigActivated(index: nat)
    | EditorOpened(path: string)
    | SessionLoadRequested(session: string)
    | SessionSaveRequested
    | QuitRequested

  /** The active target of the startup project, when both exist. */
  function ActiveTarget(h: Snapshot): Option<Target>
  {
    if h.startup.Some? then h.startup.value.activeTarget else None
  }

  /** The one trigger whose outcome later commands observe: activating a build configuration. */
  function ApplyEffect(h: Snapshot, e: Effect): (h': Snapshot)
    ensures !e.BuildConfigActivated? ==> h' == h
  {
    match e
    case BuildConfigActivated(k) =>
      if ActiveTarget(h).Some? && k < |ActiveTarget(h).value.buildConfigs| then
        var p := h.startup.value;
        var t := p.activeTarget.value;
        h.(startup := Some(p.(activeTarget := Some(t.(activeBuildConfig := Some(t.buildConfigs[k]))))))
      else h
    case _ => h
  }
}
