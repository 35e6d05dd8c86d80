/** The script's moving parts: the two state files, updated in place, and
    `main`, which polls paper and then folia, calling each webhook in turn
    (paper-poller.py:73-119, 150-212). Each method is proved against the
    functions of `Tracker`. */
module Poller {
  import opened Text
  import opened Formatting
  import opened Tracker

  class StateFiles {
    /** The content of `paper_poller.json` and `folia_poller.json`; a project
        without an entry has no file yet. */
    var files: Store

    constructor (initial: Store)
      ensures files == initial
    {
      files := initial;
    }

    /** `up_to_date` / `folia_up_to_date`: reads the project's file, or the
        empty record when it does not exist, and compares both fields. */
    method UpToDate(p: Project, version: string, build: string) returns (current: bool)
      ensures current == IsUpToDate(files, p, version, build)
      ensures current ==> p in files || (version == "" && build == "")
    {
      var data := if p in files then files[p] else StateRecord("", "");
      current := data.version == version && data.build == build;
    }

    /** `write_to_json` / `write_folia_to_json`: replaces the project's record. */
    method WriteToJson(p: Project, version: string, build: string)
      modifies this
      ensures files == Written(old(files), p, version, build)
    {
      files := files[p := StateRecord(version, build)];
    }

    /** One project's half of `main`: take the last version and the last
        build, and when they differ from the record, call every hook with the
        announcement, then write the record once. */
    method PollProject(p: Project, fetched: Fetched, hooks: seq<string>) returns (result: PollResult)
      modifies this
      ensures Step(result, files) == Poll(old(files), p, fetched, hooks)
    {
      if |fetched.versions| == 0 {
        return Crashed(NoVersions);
      }
      var version := fetched.versions[|fetched.versions| - 1];
      if |fetched.builds| == 0 {
        return Crashed(NoBuilds);
      }
      var build := fetched.builds[|fetched.builds| - 1];
      var current := UpToDate(p, version, build);
      if current {
        return Current;
      }
      var sends: seq<Send> := [];
      var i := 0;
      while i < |hooks|
        invariant 0 <= i <= |hooks|
        invariant files == old(files)
        invariant |sends| == i
        invariant forall k :: 0 <= k < i ==> sends[k] == Send(hooks[k], Announcement(p, version, build, fetched.info))
      {
        var embed := MakeEmbed(p, version, build, fetched.info);
        sends := sends + [Send(hooks[i], embed)];
        i := i + 1;
      }
      assert sends == Notifications(p, hooks, version, build, fetched.info);
      WriteToJson(p, version, build);
      result := Announced(sends);
    }

    /** `main`: paper, then folia. A failure in the paper half ends the run. */
    method RunOnce(paper: Fetched, folia: Fetched, hooks: seq<string>)
      returns (sends: seq<Send>, failure: Option<Failure>)
      modifies this
      ensures RunResult(sends, files, failure) == Run(old(files), paper, folia, hooks)
    {
      var first := PollProject(Paper, paper, hooks);
      if first.Crashed? {
        return [], Some(first.failure);
      }
      var second := PollProject(Folia, folia, hooks);
      sends := SendsOf(first) + SendsOf(second);
      failure := if second.Crashed? then Some(second.failure) else None;
    }
  }
}
