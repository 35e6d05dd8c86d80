# paper-poller, modelled in Dafny

`paper-poller.py` is a script that runs on a schedule. It asks the PaperMC
build API for the newest Minecraft version and that version's newest build,
first for Paper and then for Folia. It compares the pair with the one stored
in a per-project JSON state file. When they differ, it posts one Discord
embed per configured webhook: the title, a "Build B for V is now available!"
line, the jar download link and a markdown changelog with one line per
commit. After the sends it overwrites the state file with the new pair.

The model has four modules:

- `Text` (text.dfy): an `Option` type, and Python-style `Split`/`Join` on a
  one-character separator. The shapes of the changelog and of the download
  URL are stated against these, and `SplitJoin`/`SplitSnoc` are proved for them.
- `Formatting` (formatting.dfy): `ShortHash` (`hash[:7]`) and the changelog.
  The changelog is both a specification function (`Changelog`) and the
  script's accumulating loop (`ChangesForBuild`). It also holds the download
  URL (`DownloadUrl`, with the inverse `ParseDownloadUrl`) and the embed
  (`Announcement`). Each paper/folia pair of the script is one member that
  takes the `Project` as a parameter. The pairs differ only in the API slug
  (`paper`/`folia`), the GitHub repository (`PaperMC/paper`/`PaperMC/Folia`),
  the display name, the author icon and the state file
  (`paper_poller.json`/`folia_poller.json`, which the `Project` key of the
  `Store` map selects).
- `Tracker` (tracker.dfy): the pure specification of the state files
  (`Store`, a map from project to `StateRecord`; a missing key means no file
  yet). It holds `IsUpToDate` and `Written`, the selection of the last
  element (`Latest`), one project's step (`Poll`) and a whole run (`Run`).
  Lemmas state the properties of these functions.
- `Poller` (poller.dfy): class `StateFiles` holds the state files as a
  mutable field. Its methods `UpToDate`, `WriteToJson`, `PollProject` (with
  the loop over the webhooks) and `RunOnce` (`main`) are each proved equal to
  the matching `Tracker` function.

Notes on the model:

- HTTP answers are inputs (`Fetched`: the version list, the build list of
  the chosen version, and the build's info record).
- Each `webhook.execute()` becomes a `Send` event holding the hook URL and
  the embed.
- An empty version or build list makes Python raise IndexError. Here that is
  the `Crashed` outcome. A crash in the Paper half ends the run before Folia
  is polled, as the exception would.
- Folia's version comes from the Paper project's version list. The script
  calls `get_latest_minecraft_version()` again at paper-poller.py:185. Its
  `Fetched.versions` is therefore that second answer of the Paper endpoint.
- Build ids are JSON numbers in the API. The model carries them as their
  decimal text. Two builds are equal exactly when their canonical decimal
  texts are equal, and the empty default never equals such a text, so
  comparisons come out the same.
- In the code, the state file is written after all the sends. When the pair
  is current, nothing is sent and nothing is written. With an empty webhook
  list a new pair is still written, with no sends.

## Model

| member | source | states |
|---|---|---|
| Formatting.ShortHash | paper-poller.py:127-128 | the short hash is the prefix of the commit hash of length min(7, length of the hash): the first seven characters, or the whole hash when it is shorter |
| Formatting.ShortHashIdempotent | paper-poller.py:127-128 | shortening an already shortened hash changes nothing |
| Formatting.ShortHashExamples | tests/test_utils.py:20-37 | the three test cases: a 24-character hash gives "abc123d", a 7-character hash and a 3-character hash are returned unchanged |
| Formatting.ChangesForBuild | paper-poller.py:131-138 | the string the loop accumulates is the changelog of the change list, one line per change in list order; an empty list gives the empty string |
| Formatting.ChangelogSnoc | paper-poller.py:133-137 | adding one change at the end of the list adds exactly that change's line at the end of the changelog |
| Formatting.ChangelogLines | paper-poller.py:131-148 | split at its newlines, the changelog is exactly one line per change, in list order, each `- [<short>](https://github.com/<repo>/commit/<full>) <summary>` with repo PaperMC/paper or PaperMC/Folia, followed by the empty rest after the final newline; the changelog is empty iff the list is |
| Formatting.DownloadUrl | paper-poller.py:100-107 | the URL is the API root https://api.papermc.io/v2/ followed by the download path, and it parses back to exactly the project, version, build and jar name it was built from |
| Formatting.Announcement | paper-poller.py:163-170 | the embed is titled "<Project> Update", its link parses back to the announced project, version, build and jar, and its changes field is empty exactly when the build has no changes and otherwise splits into one line per change, in order |
| Formatting.MakeEmbed | paper-poller.py:161-170 | the embed built inside the hook loop, with the changelog accumulated by the loop of `get_changes_for_build`, is exactly `Announcement` |
| Formatting.DownloadPathSegments | paper-poller.py:100-107 | the download path below the API root consists of exactly the segments projects, the project slug, versions, the version, builds, the build, downloads and the jar name, in that order |
| Tracker.UpToDateNeedsBoth | paper-poller.py:80-84 | up to date iff the stored record equals (version, build); a different version alone or a different build alone is not up to date |
| Tracker.MissingFileNeverUpToDate | paper-poller.py:75-79 | with no state file the empty record is used, so any query with a non-empty version or build is not up to date |
| Tracker.WriteThenUpToDate | paper-poller.py:110-119 | after writing (version, build) exactly that pair is up to date for the project (the whole record is replaced), and the other project's record is unchanged |
| Tracker.Latest | paper-poller.py:33-35 | the latest element exists iff the list is non-empty, and it is an element of the list |
| Tracker.LatestOfAppended | paper-poller.py:44-46 | the latest element is the last one: whatever came before, a newly appended build is the latest |
| Tracker.Notifications | paper-poller.py:160-176 | one send per webhook, in webhook order, each carrying the same announcement embed |
| Tracker.PollAnnouncesIffStale | paper-poller.py:153-180 | a step announces iff the last version and last build differ from the record; it then sends once per hook in order with the embed for that pair and writes that pair once; otherwise it sends nothing and writes nothing |
| Tracker.PollEmptyListCrashes | paper-poller.py:33-35 | an empty version list or build list stops the step before anything is sent or written |
| Tracker.PollKeepsOtherProject | paper-poller.py:110-119 | a step of one project never changes the other project's record |
| Tracker.PollIdempotent | paper-poller.py:155-178 | polling again with the same fetched data sends nothing and leaves the state files as they are |
| Tracker.PollSendsAnnounceProject | paper-poller.py:163 | every send of a step is titled as an update of the project polled |
| Tracker.RunAnnouncesPaperFirst | paper-poller.py:150-212 | in a run, every Paper announcement precedes every Folia announcement |
| Tracker.RunTwiceIsSilent | paper-poller.py:150-212 | a second run with the same fetched data sends nothing and leaves the state files as the first run left them |
| Poller.StateFiles.UpToDate | paper-poller.py:73-84 | reads the project's record, or the empty record without a file, and reports whether both fields match |
| Poller.StateFiles.WriteToJson | paper-poller.py:110-113 | the project's record is replaced by (version, build), the other project's is untouched |
| Poller.StateFiles.PollProject | paper-poller.py:153-180 | the outcome and the new state files are those of `Tracker.Poll`: one send per hook in order, then one write, or nothing when current |
| Poller.StateFiles.RunOnce | paper-poller.py:150-212 | the sends, the new state files and the failure are those of `Tracker.Run`: paper first, then folia, and a failure in the paper half ends the run |

## Left out

- HTTP requests (paper-poller.py:28-70): the version list, build list and build info are inputs, and the request headers are not modelled.
- Discord delivery (`DiscordWebhook`, `rate_limit_retry`, `execute()`): each call is an abstract `Send` event. A call that raised would end the run before the state is written; the model assumes every call returns.
- Malformed build info: the model assumes the build info has `downloads.application.name`, `changes` entries with `commit` and `summary`, and a `time` that `strptime` accepts (paper-poller.py:101, 133-136, 124, 173). Otherwise the script raises inside the first loop iteration, before its first send and before the write, and a Paper failure ends the run before Folia; with an empty webhook list the loop body never runs, so the write still happens. `BuildInfo` cannot express a missing field, so these failures are not modelled.
- The embed timestamp (`convert_build_date`, `.timestamp()`, paper-poller.py:122-124, 173): datetime parsing and floating point.
- Reading the webhook list from standard input (paper-poller.py:13-22): the webhook list is an input.
- The `dt.now()` log lines and the `print` calls.
- JSON file I/O: the files are an in-memory map, and a malformed file (a KeyError in `up_to_date`) is not modelled.
- Formatting.ChangelogLines: stated only for commit hashes and summaries without line breaks, because a summary holding a newline would make its entry span two lines.
- Formatting.DownloadUrl: the round trip is stated only for versions, builds and jar names without '/', because a '/' in one of them would shift the path segments.
- paper_poller.py: an import shim that re-exports names from a later version of the script; it has no logic of its own.
- The `PaperAPI` class, channel colours, issue linking, dry-run and multi-version storage that the tests exercise: they belong to a later version of the script that is not part of this model.
