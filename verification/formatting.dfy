/** The text the poller builds for an announcement: the short commit hash,
    the markdown changelog of a build, the jar download URL and the embed that
    carries them (paper-poller.py:25, 100-148, 160-176, 192-208). The paper
    and folia twins of the script differ only in the project they name, so
    each pair is one member here, parametrised by `Project`. */
module Formatting {
  import opened Text

  /** The two projects the script polls. */
  datatype Project = Paper | Folia

  /** Root of the build API (`paper_base`). */
  const ApiBase: string := "https://api.papermc.io/v2"

  /** Colour of every announcement embed (0x00ff00). */
  const EmbedColor: int := 0x00ff00

  /** The project's path segment in the build API. */
  function Slug(p: Project): string
  {
    match p
    case Paper => "paper"
    case Folia => "folia"
  }

  /** The project whose path segment is `slug`, if any. */
  function ProjectOfSlug(slug: string): (r: Option<Project>)
    ensures r.Some? <==> slug == "paper" || slug == "folia"
    ensures r.Some? ==> Slug(r.value) == slug
  {
    if slug == "paper" then Some(Paper)
    else if slug == "folia" then Some(Folia)
    else None
  }

  /** The project's display name, used in the embed title and author. */
  function DisplayName(p: Project): string
  {
    match p
    case Paper => "Paper"
    case Folia => "Folia"
  }

  /** The icon shown beside the embed's author name. */
  function AuthorIcon(p: Project): string
  {
    match p
    case Paper => "https://cdn.theairplan.com/images/paperlogo.png"
    case Folia => "https://cdn.discordapp.com/attachments/1018399544398065725/1092644957849927680/Folia_Logo_200x200.png"
  }

  /** The link behind the embed's author name, the same for both projects. */
  const AuthorUrl: string := "https://papermc.io/"

  /** The GitHub repository whose commits the changelog links to. */
  function Repository(p: Project): string
  {
    match p
    case Paper => "PaperMC/paper"
    case Folia => "PaperMC/Folia"
  }

  // ---------------------------------------------------------------------
  // Short commit hash: `hash[:7]`

  /** The first seven characters of `hash`, or all of it when it is shorter. */
  function ShortHash(hash: string): (short: string)
    ensures |short| == if |hash| < 7 then |hash| else 7
    ensures short == hash[..|short|]
  {
    if |hash| <= 7 then hash else hash[..7]
  }

  /** Shortening an already short hash changes nothing. */
  lemma ShortHashIdempotent(hash: string)
    ensures ShortHash(ShortHash(hash)) == ShortHash(hash)
  {
  }

  /** The three cases of the short-hash tests: longer, exactly seven, shorter. */
  lemma ShortHashExamples()
    ensures ShortHash("abc123def456789ghijklmno") == "abc123d"
    ensures ShortHash("abc123d") == "abc123d"
    ensures ShortHash("abc") == "abc"
  {
  }

  // ---------------------------------------------------------------------
  // Changelog: one markdown line per change of a build

  /** One entry of a build's `changes` list. */
  datatype Change = Change(commit: string, summary: string)

  /** The fields of a build's info record that the announcement uses:
      `downloads.application.name` and `changes`. */
  datatype BuildInfo = BuildInfo(jarName: string, changes: seq<Change>)

  /** No commit hash or summary holds a line break. */
  predicate NewlineFree(cs: seq<Change>)
  {
    forall i :: 0 <= i < |cs| ==> '\n' !in cs[i].commit && '\n' !in cs[i].summary
  }

  /** The text of the changelog line for `c`, without its terminating newline. */
  function ChangeText(p: Project, c: Change): string
  {
    "- [" + ShortHash(c.commit) + "](https://github.com/" + Repository(p) + "/commit/"
      + c.commit + ") " + c.summary
  }

  /** The changelog line for `c`, newline included. */
  function ChangeLine(p: Project, c: Change): string
  {
    ChangeText(p, c) + "\n"
  }

  /** The changelog of `cs`: the line of each change, in list order. */
  function Changelog(p: Project, cs: seq<Change>): string
  {
    if |cs| == 0 then "" else ChangeLine(p, cs[0]) + Changelog(p, cs[1..])
  }

  /** The line texts the changelog of `cs` should consist of. */
  function ChangeTexts(p: Project, cs: seq<Change>): (lines: seq<string>)
    ensures |lines| == |cs|
    ensures forall i :: 0 <= i < |cs| ==> lines[i] == ChangeText(p, cs[i])
  {
    seq(|cs|, i requires 0 <= i < |cs| => ChangeText(p, cs[i]))
  }

  /** Appending a change to the list appends exactly its line to the changelog. */
  lemma {:induction false} ChangelogSnoc(p: Project, cs: seq<Change>, c: Change)
    ensures Changelog(p, cs + [c]) == Changelog(p, cs) + ChangeLine(p, c)
  {
    if |cs| == 0 {
      assert cs + [c] == [c];
    } else {
      assert (cs + [c])[1..] == cs[1..] + [c];
      ChangelogSnoc(p, cs[1..], c);
    }
  }

  /** The changelog is the change texts, each followed by a newline. */
  lemma {:induction false} ChangelogIsJoin(p: Project, cs: seq<Change>)
    ensures Changelog(p, cs) == Join(ChangeTexts(p, cs) + [""], '\n')
  {
    if |cs| > 0 {
      var lines := ChangeTexts(p, cs) + [""];
      assert lines[1..] == ChangeTexts(p, cs[1..]) + [""];
      ChangelogIsJoin(p, cs[1..]);
    }
  }

  /** A changelog line holds no newline of its own when its change holds none. */
  lemma ChangeTextNewlineFree(p: Project, c: Change)
    requires '\n' !in c.commit && '\n' !in c.summary
    ensures '\n' !in ChangeText(p, c)
  {
    var short := ShortHash(c.commit);
    assert '\n' !in short by {
      assert short == c.commit[..|short|];
    }
    assert '\n' !in Repository(p);
  }

  /** Cutting the changelog at its newlines gives back exactly one line per
      change, in list order, then the empty remainder after the last newline;
      an empty change list gives the empty changelog. */
  lemma ChangelogLines(p: Project, cs: seq<Change>)
    requires NewlineFree(cs)
    ensures Split(Changelog(p, cs), '\n') == ChangeTexts(p, cs) + [""]
    ensures cs == [] <==> Changelog(p, cs) == ""
  {
    var lines := ChangeTexts(p, cs) + [""];
    forall i | 0 <= i < |lines|
      ensures '\n' !in lines[i]
    {
      if i < |cs| {
        ChangeTextNewlineFree(p, cs[i]);
      }
    }
    ChangelogIsJoin(p, cs);
    SplitJoin(lines, '\n');
    if cs != [] {
      assert |Changelog(p, cs)| >= |ChangeLine(p, cs[0])| > 0;
    }
  }

  /** `get_changes_for_build`: accumulates the changelog line by line. */
  method ChangesForBuild(p: Project, info: BuildInfo) returns (s: string)
    ensures s == Changelog(p, info.changes)
    ensures info.changes == [] ==> s == ""
  {
    s := "";
    var i := 0;
    while i < |info.changes|
      invariant 0 <= i <= |info.changes|
      invariant s == Changelog(p, info.changes[..i])
    {
      var change := info.changes[i];
      var short := ShortHash(change.commit);
      var line := "- [" + short + "](https://github.com/" + Repository(p) + "/commit/"
        + change.commit + ") " + change.summary + "\n";
      s := s + line;
      ChangelogSnoc(p, info.changes[..i], change);
      assert info.changes[..i + 1] == info.changes[..i] + [change];
      i := i + 1;
    }
    assert info.changes[..i] == info.changes;
  }

  // ---------------------------------------------------------------------
  // Download URL

  /** The path, below the API root, of the jar download of `build` of
      `version` of project `p`. */
  function DownloadPath(p: Project, version: string, build: string, jar: string): string
  {
    "projects" + "/" + Slug(p) + "/" + "versions" + "/" + version + "/" + "builds" + "/" + build
      + "/" + "downloads" + "/" + jar
  }

  /** What a download URL names. */
  datatype Download = Download(project: Project, version: string, build: string, jar: string)

  /** Reads the project, version, build and jar name back out of a download URL. */
  function ParseDownloadUrl(url: string): (r: Option<Download>)
    ensures r.Some? ==> |url| > |ApiBase| && url[..|ApiBase| + 1] == ApiBase + "/"
  {
    var prefix := ApiBase + "/";
    if |url| < |prefix| || url[..|prefix|] != prefix then None
    else
      var segs := Split(url[|prefix|..], '/');
      if |segs| == 8 && segs[0] == "projects" && segs[2] == "versions"
         && segs[4] == "builds" && segs[6] == "downloads" && ProjectOfSlug(segs[1]).Some?
      then Some(Download(ProjectOfSlug(segs[1]).value, segs[3], segs[5], segs[7]))
      else None
  }

  /** Splitting the download path yields its eight segments. */
  lemma DownloadPathSegments(p: Project, version: string, build: string, jar: string)
    requires '/' !in version && '/' !in build && '/' !in jar
    ensures Split(DownloadPath(p, version, build, jar), '/')
         == ["projects", Slug(p), "versions", version, "builds", build, "downloads", jar]
  {
    assert '/' !in Slug(p);
    SplitEightFields("projects", Slug(p), "versions", version, "builds", build, "downloads", jar);
  }

  /** `construct_download_url`: the jar download URL of `build` of `version`.
      It lies under the API root, and it names back exactly the project,
      version, build and jar it was built from, as long as none of them holds
      a '/'. */
  function DownloadUrl(p: Project, version: string, build: string, jar: string): (url: string)
    ensures |url| > |ApiBase| && url[..|ApiBase| + 1] == ApiBase + "/"
    ensures '/' !in version && '/' !in build && '/' !in jar
            ==> ParseDownloadUrl(url) == Some(Download(p, version, build, jar))
  {
    var path := DownloadPath(p, version, build, jar);
    var url := ApiBase + "/" + path;
    assert url[..|ApiBase| + 1] == ApiBase + "/";
    assert url[|ApiBase| + 1..] == path;
    if '/' !in version && '/' !in build && '/' !in jar then
      DownloadPathSegments(p, version, build, jar);
      url
    else
      url
  }

  // ---------------------------------------------------------------------
  // Announcement embed

  /** The parts of the Discord embed that the script fills in: title,
      description, colour, author, and the "Link" and "Changes" fields. The
      build timestamp is not modelled. */
  datatype Embed = Embed(
    title: string,
    description: string,
    color: int,
    author: string,
    authorUrl: string,
    authorIcon: string,
    link: string,
    changes: string)

  /** The embed announcing `build` of `version`: its link downloads that
      build's jar, and its changelog is empty exactly when the build has no
      changes and otherwise holds one line per change, in order. */
  function Announcement(p: Project, version: string, build: string, info: BuildInfo): (e: Embed)
    ensures e.title == DisplayName(p) + " Update"
    ensures '/' !in version && '/' !in build && '/' !in info.jarName
            ==> ParseDownloadUrl(e.link) == Some(Download(p, version, build, info.jarName))
    ensures e.changes == "" <==> info.changes == []
    ensures NewlineFree(info.changes)
            ==> Split(e.changes, '\n') == ChangeTexts(p, info.changes) + [""]
  {
    var e := Embed(
      DisplayName(p) + " Update",
      "Build " + build + " for " + version + " is now available!",
      EmbedColor,
      DisplayName(p),
      AuthorUrl,
      AuthorIcon(p),
      DownloadUrl(p, version, build, info.jarName),
      Changelog(p, info.changes));
    assert info.changes != [] ==> |e.changes| >= |ChangeLine(p, info.changes[0])| > 0;
    if NewlineFree(info.changes) then
      ChangelogLines(p, info.changes);
      e
    else
      e
  }

  /** `get_changes_for_build` and `construct_download_url` evaluated inside
      the hook loop, assembled into the embed the script posts. */
  method MakeEmbed(p: Project, version: string, build: string, info: BuildInfo) returns (embed: Embed)
    ensures embed == Announcement(p, version, build, info)
  {
    var changes := ChangesForBuild(p, info);
    embed := Embed(
      DisplayName(p) + " Update",
      "Build " + build + " for " + version + " is now available!",
      EmbedColor,
      DisplayName(p),
      AuthorUrl,
      AuthorIcon(p),
      DownloadUrl(p, version, build, info.jarName),
      changes);
  }
}
