/** What one run of the poller decides and records, as functions of the state
    files and of the data fetched from the build API (paper-poller.py:28-97,
    110-119, 150-212). The HTTP requests are not modelled: their answers are
    the `Fetched` inputs. Each Discord webhook call is recorded as a `Send`
    event carrying the hook URL and the embed it would post. */
module Tracker {
  import opened Text
  import opened Formatting

  /** The content of a project's state file: the last announced version and
      build. Build ids travel as their decimal text. */
  datatype StateRecord = StateRecord(version: string, build: string)

  /** The file holding a project's record. */
  function StateFile(p: Project): string
  {
    match p
    case Paper => "paper_poller.json"
    case Folia => "folia_poller.json"
  }

  /** The state files of both projects, keyed by project: the entry of `p`
      is the content of `StateFile(p)`, and a project without an entry has
      no state file yet. */
  type Store = map<Project, StateRecord>

  /** What is read in place of a state file that does not exist. */
  const MissingRecord: StateRecord := StateRecord("", "")

  /** The record `up_to_date` compares against. */
  function Stored(store: Store, p: Project): StateRecord
  {
    if p in store then store[p] else MissingRecord
  }

  /** `up_to_date` / `folia_up_to_date`. */
  predicate IsUpToDate(store: Store, p: Project, version: string, build: string)
  {
    Stored(store, p).version == version && Stored(store, p).build == build
  }

  /** `write_to_json` / `write_folia_to_json`: the whole record is replaced. */
  function Written(store: Store, p: Project, version: string, build: string): Store
  {
    store[p := StateRecord(version, build)]
  }

  /** The stored record matches only when both its fields match: a different
      version alone, or a different build alone, is not up to date. */
  lemma UpToDateNeedsBoth(store: Store, p: Project, version: string, build: string)
    ensures IsUpToDate(store, p, version, build) <==> Stored(store, p) == StateRecord(version, build)
    ensures Stored(store, p).version != version ==> !IsUpToDate(store, p, version, build)
    ensures Stored(store, p).build != build ==> !IsUpToDate(store, p, version, build)
  {
  }

  /** Without a state file nothing with a non-empty version or build is up to date. */
  lemma MissingFileNeverUpToDate(store: Store, p: Project, version: string, build: string)
    requires p !in store
    requires version != "" || build != ""
    ensures !IsUpToDate(store, p, version, build)
  {
  }

  /** After a write, exactly the written pair is up to date for that project,
      and the other project's record is untouched. */
  lemma WriteThenUpToDate(store: Store, p: Project, version: string, build: string)
    ensures IsUpToDate(Written(store, p, version, build), p, version, build)
    ensures forall v, b :: IsUpToDate(Written(store, p, version, build), p, v, b) ==> v == version && b == build
    ensures forall q :: q != p ==> Stored(Written(store, p, version, build), q) == Stored(store, q)
  {
  }

  // ---------------------------------------------------------------------
  // Selecting the latest version and build: `versions[-1]`, `builds[-1]`

  /** The last element of `xs`; `None` where Python raises IndexError. */
  function Latest(xs: seq<string>): (r: Option<string>)
    ensures r.Some? <==> |xs| > 0
    ensures r.Some? ==> r.value in xs
  {
    if |xs| == 0 then None else Some(xs[|xs| - 1])
  }

  /** Whatever came before, a newly published last element is the latest. */
  lemma LatestOfAppended(xs: seq<string>, x: string)
    ensures Latest(xs + [x]) == Some(x)
  {
  }

  // ---------------------------------------------------------------------
  // One project's compare, notify, write step of `main`

  /** Why a step stops: the version or the build list was empty. */
  datatype Failure = NoVersions | NoBuilds

  /** What the build API answered for one project: the version list, the
      build list of the latest version, and that build's info record. */
  datatype Fetched = Fetched(versions: seq<string>, builds: seq<string>, info: BuildInfo)

  /** One webhook call: the hook URL and the embed it posts. */
  datatype Send = Send(hook: string, embed: Embed)

  /** Outcome of one project's step. */
  datatype PollResult = Crashed(failure: Failure) | Current | Announced(sends: seq<Send>)

  /** A step's outcome together with the state files after it. */
  datatype Step = Step(result: PollResult, store: Store)

  /** The calls made for a new build: one per hook, in hook order, all with
      the same embed. */
  function Notifications(p: Project, hooks: seq<string>, version: string, build: string, info: BuildInfo): (sends: seq<Send>)
    ensures |sends| == |hooks|
    ensures forall i :: 0 <= i < |hooks| ==> sends[i].hook == hooks[i] && sends[i].embed == Announcement(p, version, build, info)
  {
    seq(|hooks|, i requires 0 <= i < |hooks| => Send(hooks[i], Announcement(p, version, build, info)))
  }

  /** One project's step: pick the latest version and build, compare them
      with the state file, and on a difference notify every hook and then
      record the new pair. */
  function Poll(store: Store, p: Project, fetched: Fetched, hooks: seq<string>): Step
  {
    match (Latest(fetched.versions), Latest(fetched.builds))
    case (None, _) => Step(Crashed(NoVersions), store)
    case (Some(_), None) => Step(Crashed(NoBuilds), store)
    case (Some(version), Some(build)) =>
      if IsUpToDate(store, p, version, build) then Step(Current, store)
      else Step(Announced(Notifications(p, hooks, version, build, fetched.info)),
                Written(store, p, version, build))
  }

  /** The sends of a step; none unless it announced. */
  function SendsOf(r: PollResult): seq<Send>
  {
    if r.Announced? then r.sends else []
  }

  /** A step announces exactly when the latest pair differs from the record;
      it then calls every hook once, in order, with the embed for that pair,
      and records the pair; otherwise it sends nothing and writes nothing. */
  lemma PollAnnouncesIffStale(store: Store, p: Project, fetched: Fetched, hooks: seq<string>)
    requires |fetched.versions| > 0 && |fetched.builds| > 0
    ensures
      var version := fetched.versions[|fetched.versions| - 1];
      var build := fetched.builds[|fetched.builds| - 1];
      var step := Poll(store, p, fetched, hooks);
      && (step.result.Announced? <==> !IsUpToDate(store, p, version, build))
      && (step.result.Announced? ==>
            && |step.result.sends| == |hooks|
            && (forall i :: 0 <= i < |hooks| ==>
                  step.result.sends[i] == Send(hooks[i], Announcement(p, version, build, fetched.info)))
            && step.store == Written(store, p, version, build))
      && (!step.result.Announced? ==> step.result == Current && step.store == store)
  {
  }

  /** An empty version or build list stops the step before anything is sent or written. */
  lemma PollEmptyListCrashes(store: Store, p: Project, fetched: Fetched, hooks: seq<string>)
    requires |fetched.versions| == 0 || |fetched.builds| == 0
    ensures Poll(store, p, fetched, hooks).result.Crashed?
    ensures Poll(store, p, fetched, hooks).store == store
  {
  }

  /** A step never touches the other project's record. */
  lemma PollKeepsOtherProject(store: Store, p: Project, q: Project, fetched: Fetched, hooks: seq<string>)
    requires q != p
    ensures Stored(Poll(store, p, fetched, hooks).store, q) == Stored(store, q)
  {
  }

  /** Polling again with the same answers sends nothing and writes nothing. */
  lemma {:induction false} PollIdempotent(store: Store, p: Project, fetched: Fetched, hooks: seq<string>)
    ensures
      var first := Poll(store, p, fetched, hooks);
      var second := Poll(first.store, p, fetched, hooks);
      && SendsOf(second.result) == []
      && second.store == first.store
  {
    var first := Poll(store, p, fetched, hooks);
    if first.result.Announced? {
      var version := fetched.versions[|fetched.versions| - 1];
      var build := fetched.builds[|fetched.builds| - 1];
      WriteThenUpToDate(store, p, version, build);
    }
  }

  // ---------------------------------------------------------------------
  // A whole run of `main`: paper first, then folia

  /** Everything one run sends, the state files after it, and the failure
      that stopped it, if any. */
  datatype RunResult = RunResult(sends: seq<Send>, store: Store, failure: Option<Failure>)

  /** `main`: the paper step, then the folia step. A failure in the paper step
      ends the run before folia is polled. */
  function Run(store: Store, paper: Fetched, folia: Fetched, hooks: seq<string>): RunResult
  {
    var first := Poll(store, Paper, paper, hooks);
    if first.result.Crashed? then RunResult([], store, Some(first.result.failure))
    else
      var second := Poll(first.store, Folia, folia, hooks);
      RunResult(SendsOf(first.result) + SendsOf(second.result), second.store,
                if second.result.Crashed? then Some(second.result.failure) else None)
  }

  /** Every send of `sends` is titled as an update of project `p`. */
  predicate AllAnnounce(sends: seq<Send>, p: Project)
  {
    forall i :: 0 <= i < |sends| ==> sends[i].embed.title == DisplayName(p) + " Update"
  }

  /** Every send of a step announces the project polled. */
  lemma PollSendsAnnounceProject(store: Store, p: Project, fetched: Fetched, hooks: seq<string>)
    ensures AllAnnounce(SendsOf(Poll(store, p, fetched, hooks).result), p)
  {
  }

  /** Every paper announcement of a run comes before every folia announcement. */
  lemma RunAnnouncesPaperFirst(store: Store, paper: Fetched, folia: Fetched, hooks: seq<string>)
    ensures
      var run := Run(store, paper, folia, hooks);
      var n := |SendsOf(Poll(store, Paper, paper, hooks).result)|;
      && n <= |run.sends|
      && AllAnnounce(run.sends[..n], Paper)
      && AllAnnounce(run.sends[n..], Folia)
  {
    var first := Poll(store, Paper, paper, hooks);
    PollSendsAnnounceProject(store, Paper, paper, hooks);
    if !first.result.Crashed? {
      var second := Poll(first.store, Folia, folia, hooks);
      PollSendsAnnounceProject(first.store, Folia, folia, hooks);
      var run := Run(store, paper, folia, hooks);
      var n := |SendsOf(first.result)|;
      assert run.sends[..n] == SendsOf(first.result);
      assert run.sends[n..] == SendsOf(second.result);
    }
  }

  /** A run repeated with the same answers from the API sends nothing and
      leaves the state files as the first run left them. */
  lemma {:induction false} RunTwiceIsSilent(store: Store, paper: Fetched, folia: Fetched, hooks: seq<string>)
    ensures
      var first := Run(store, paper, folia, hooks);
      var second := Run(first.store, paper, folia, hooks);
      && second.sends == []
      && second.store == first.store
  {
    var p1 := Poll(store, Paper, paper, hooks);
    PollIdempotent(store, Paper, paper, hooks);
    if !p1.result.Crashed? {
      var f1 := Poll(p1.store, Folia, folia, hooks);
      PollIdempotent(p1.store, Folia, folia, hooks);
      PollKeepsOtherProject(p1.store, Folia, Paper, folia, hooks);
      var p2 := Poll(f1.store, Paper, paper, hooks);
      assert Stored(f1.store, Paper) == Stored(p1.store, Paper);
      assert p2 == Step(Current, f1.store);
      PollIdempotent(p1.store, Folia, folia, hooks);
    }
  }
}
