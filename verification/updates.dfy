/** Update resolution: one `UpdateInfo` per tracked image plus a synthetic
    entry for the installer itself. The registry's HTTP replies, the release
    API reply, `docker image inspect` and RFC 3339 parsing are parameters. */
module Updates {
  import opened Util
  import SemVer

  /** Instants are nanoseconds since the Unix epoch (the precision of the
      timestamps the source compares). */
  type Timestamp = int

  /** `Duration::seconds(5)`: remote must be MORE than this ahead of local. */
  const Tolerance: int := 5_000_000_000

  const Owner: string := "NexusQuantum"

  datatype ServiceConfig = ServiceConfig(
    displayName: string,
    image: string,
    package: string,
    currentTag: string)

  /** The tracked images, in the order they are checked and listed. */
  const ServiceConfigs: seq<ServiceConfig> := [
    ServiceConfig("PostgreSQL Database", "postgres", "postgres", "16-alpine"),
    ServiceConfig("NQRust Identity (Keycloak)", "ghcr.io/nexusquantum/nqrust-identity",
                  "nqrust-identity", "latest")
  ]

  datatype UpdateInfo = UpdateInfo(
    displayName: string,
    image: string,
    currentTag: string,
    availableTags: seq<string>,
    latestReleaseTag: Option<string>,
    latestReleasePublished: Option<Timestamp>,
    remoteLatestUpdated: Option<Timestamp>,
    localCreated: Option<Timestamp>,
    statusNote: Option<string>,
    hasUpdate: bool,
    isSelf: bool,
    downloadUrl: Option<string>,
    checksumUrl: Option<string>)

  function NewInfo(config: ServiceConfig): UpdateInfo {
    UpdateInfo(config.displayName, config.image, config.currentTag, [], None, None, None,
               None, None, false, false, None, None)
  }

  // ---------------------------------------------------------------------
  // "Update available"
  // ---------------------------------------------------------------------

  /** Re-derive `hasUpdate` from the two timestamps; nothing else changes. */
  function RecomputeStatus(info: UpdateInfo): (r: UpdateInfo)
    ensures r == info.(hasUpdate := r.hasUpdate)
    ensures info.remoteLatestUpdated.None? ==> !r.hasUpdate
    ensures info.remoteLatestUpdated.Some? && info.localCreated.None? ==> r.hasUpdate
    ensures info.remoteLatestUpdated.Some? && info.localCreated.Some? ==>
              (r.hasUpdate <==> info.remoteLatestUpdated.value - info.localCreated.value > Tolerance)
  {
    match info.remoteLatestUpdated
      case None => info.(hasUpdate := false)
      case Some(remote) =>
        match info.localCreated
          case None => info.(hasUpdate := true)
          case Some(local) => info.(hasUpdate := remote - local > Tolerance)
  }

  /** `hasUpdate` agrees with the timestamps it is derived from. */
  predicate StatusCurrent(info: UpdateInfo) {
    RecomputeStatus(info) == info
  }

  /** Record the local image's creation time and re-derive `hasUpdate`. */
  function ApplyLocalCreated(info: UpdateInfo, created: Option<Timestamp>): (r: UpdateInfo)
    ensures r.localCreated == created
    ensures StatusCurrent(r)
    ensures r.(hasUpdate := info.hasUpdate, localCreated := info.localCreated) == info
  {
    RecomputeStatus(info.(localCreated := created))
  }

  /** A remote image exactly five seconds newer than the local one is
      still up to date; one nanosecond more is an update. */
  lemma ToleranceBoundary(info: UpdateInfo, remote: Timestamp)
    requires info.remoteLatestUpdated == Some(remote)
    ensures !ApplyLocalCreated(info, Some(remote - Tolerance)).hasUpdate
    ensures ApplyLocalCreated(info, Some(remote - Tolerance - 1)).hasUpdate
  {
  }

  /** A newer local image can only remove an update, never create one. */
  lemma NewerLocalNeverAddsUpdate(info: UpdateInfo, older: Timestamp, newer: Timestamp)
    requires older <= newer
    ensures ApplyLocalCreated(info, Some(newer)).hasUpdate ==> ApplyLocalCreated(info, Some(older)).hasUpdate
    ensures ApplyLocalCreated(info, Some(older)).hasUpdate ==> ApplyLocalCreated(info, None).hasUpdate
  {
  }

  // ---------------------------------------------------------------------
  // Status notes
  // ---------------------------------------------------------------------

  const Separator: string := "; "
  const NotFoundNote: string := "Package not found in GitHub Container Registry"
  const NoTagsNote: string := "No tags found for this image yet"
  const InspectFailureNote: string := "Failed to inspect local image"

  /** Set the note to `message` when there is none, else append "; message". */
  function AppendStatus(note: Option<string>, message: string): (r: Option<string>)
    ensures r.Some?
    ensures note.None? ==> r.value == message
    ensures note.Some? ==>
              && |r.value| == |note.value| + |Separator| + |message|
              && StartsWith(r.value, note.value + Separator)
              && EndsWith(r.value, message)
  {
    match note
      case None => Some(message)
      case Some(existing) => Some(existing + Separator + message)
  }

  /** Appending several messages one after another. */
  function AppendAll(note: Option<string>, messages: seq<string>): Option<string>
    decreases |messages|
  {
    if messages == [] then note
    else AppendStatus(AppendAll(note, messages[..|messages| - 1]), messages[|messages| - 1])
  }

  /** Notes accumulate: every message survives, in order, joined by "; ". */
  lemma {:induction false} AppendAllJoins(messages: seq<string>)
    ensures messages == [] ==> AppendAll(None, messages) == None
    ensures messages != [] ==> AppendAll(None, messages) == Some(Join(messages, Separator))
    decreases |messages|
  {
    if |messages| > 1 {
      AppendAllJoins(messages[..|messages| - 1]);
    }
  }

  /** Drop the whole note when it mentions a failed local inspection. */
  function ClearLocalError(info: UpdateInfo): (r: UpdateInfo)
    ensures info.statusNote.Some? && Contains(info.statusNote.value, InspectFailureNote) ==>
              r == info.(statusNote := None)
    ensures !(info.statusNote.Some? && Contains(info.statusNote.value, InspectFailureNote)) ==>
              r == info
  {
    match info.statusNote
      case Some(note) =>
        if Contains(note, InspectFailureNote) then info.(statusNote := None) else info
      case None => info
  }

  /** The inspection-failure note written during collection is always
      cleared, together with whatever was joined before it. */
  lemma ClearAfterInspectFailure(info: UpdateInfo, error: string)
    ensures ClearLocalError(info.(statusNote := AppendStatus(info.statusNote,
              InspectFailureNote + ": " + error))).statusNote == None
  {
    var message := InspectFailureNote + ": " + error;
    ContainsPrefix(InspectFailureNote, ": " + error);
    assert message == InspectFailureNote + (": " + error);
    if info.statusNote.Some? {
      ContainsRight(info.statusNote.value + Separator, message, InspectFailureNote);
    }
  }

  // ---------------------------------------------------------------------
  // Registry package versions
  // ---------------------------------------------------------------------

  datatype ContainerMetadata = ContainerMetadata(tags: Option<seq<string>>)
  datatype PackageMetadata = PackageMetadata(container: Option<ContainerMetadata>)
  datatype PackageVersion = PackageVersion(
    metadata: Option<PackageMetadata>,
    createdAt: Option<Timestamp>,
    updatedAt: Option<Timestamp>)

  /** The version's tags, or None when metadata, container or tags are absent. */
  function VersionTags(v: PackageVersion): Option<seq<string>> {
    match v.metadata
      case None => None
      case Some(m) =>
        match m.container
          case None => None
          case Some(c) => c.tags
  }

  /** `updated_at` when present, else `created_at`. */
  function VersionStamp(v: PackageVersion): Option<Timestamp> {
    v.updatedAt.Or(v.createdAt)
  }

  predicate HasTag(v: PackageVersion, tag: string) {
    VersionTags(v).Some? && tag in VersionTags(v).value
  }

  /** Some version of the response (that is not skipped) carries `tag`. */
  predicate Listed(versions: seq<PackageVersion>, tag: string) {
    exists i :: 0 <= i < |versions| && HasTag(versions[i], tag)
  }

  /** Reference definition: the timestamp of the first version, in response
      order, that carries `tag` and has a timestamp. */
  function FirstStamp(versions: seq<PackageVersion>, tag: string): Option<Timestamp>
    decreases |versions|
  {
    if versions == [] then None
    else if HasTag(versions[0], tag) && VersionStamp(versions[0]).Some? then VersionStamp(versions[0])
    else FirstStamp(versions[1..], tag)
  }

  predicate Distinct(s: seq<string>) {
    forall i, j :: 0 <= i < j < |s| ==> s[i] != s[j]
  }

  /** The `seen`/`tags` pair: append each tag not seen before. */
  function AddTags(seen: seq<string>, tags: seq<string>): (r: seq<string>)
    requires Distinct(seen)
    ensures Distinct(r)
    ensures forall t :: t in r <==> t in seen || t in tags
    decreases |tags|
  {
    if tags == [] then seen
    else if tags[0] in seen then AddTags(seen, tags[1..])
    else AddTags(seen + [tags[0]], tags[1..])
  }

  /** Tags of all versions from `versions` onwards, first-seen order. */
  function CollectTags(seen: seq<string>, versions: seq<PackageVersion>): (r: seq<string>)
    requires Distinct(seen)
    ensures Distinct(r)
    ensures forall t :: t in r <==> t in seen || Listed(versions, t)
    decreases |versions|
  {
    if versions == [] then seen
    else
      var next := match VersionTags(versions[0])
        case None => seen
        case Some(tags) => AddTags(seen, tags);
      var r := CollectTags(next, versions[1..]);
      assert forall t :: Listed(versions, t) <==> HasTag(versions[0], t) || Listed(versions[1..], t) by {
        forall t ensures Listed(versions, t) ==> HasTag(versions[0], t) || Listed(versions[1..], t) {
          if Listed(versions, t) && !HasTag(versions[0], t) {
            var i :| 0 <= i < |versions| && HasTag(versions[i], t);
            assert versions[1..][i - 1] == versions[i];
          }
        }
        forall t ensures Listed(versions[1..], t) ==> Listed(versions, t) {
          if Listed(versions[1..], t) {
            var i :| 0 <= i < |versions[1..]| && HasTag(versions[1..][i], t);
            assert versions[i + 1] == versions[1..][i];
          }
        }
      }
      r
  }

  /** `tag_dates.entry(tag).or_insert(ts)` for each tag of one version. */
  function AddDates(dates: map<string, Timestamp>, tags: seq<string>, ts: Timestamp): (r: map<string, Timestamp>)
    ensures forall t :: t in r <==> t in dates || t in tags
    ensures forall t :: t in dates ==> r[t] == dates[t]
    ensures forall t :: t in r && t !in dates ==> r[t] == ts
    decreases |tags|
  {
    if tags == [] then dates
    else if tags[0] in dates then AddDates(dates, tags[1..], ts)
    else AddDates(dates[tags[0] := ts], tags[1..], ts)
  }

  /** The `tag_dates` map built over `versions`, starting from `dates`: a tag
      already present keeps its date, every other tag gets the date of the
      first version that carries it with a timestamp. */
  function CollectDates(dates: map<string, Timestamp>, versions: seq<PackageVersion>): (r: map<string, Timestamp>)
    ensures forall t :: t in dates ==> t in r && r[t] == dates[t]
    ensures forall t :: t !in dates ==> (t in r <==> FirstStamp(versions, t).Some?)
    ensures forall t :: t !in dates && t in r ==> FirstStamp(versions, t) == Some(r[t])
    decreases |versions|
  {
    if versions == [] then dates
    else
      var v := versions[0];
      var next := match (VersionTags(v), VersionStamp(v))
        case (Some(tags), Some(ts)) => AddDates(dates, tags, ts)
        case _ => dates;
      CollectDates(next, versions[1..])
  }

  function Lookup(dates: map<string, Timestamp>, tag: string): Option<Timestamp> {
    if tag in dates then Some(dates[tag]) else None
  }

  /** Every tag's date is the first stamped version that carries it. */
  lemma TagDatesAreFirstStamps(versions: seq<PackageVersion>, tag: string)
    ensures Lookup(CollectDates(map[], versions), tag) == FirstStamp(versions, tag)
  {
  }

  // ---------------------------------------------------------------------
  // Latest release tag
  // ---------------------------------------------------------------------

  /** A tag's version after stripping every leading `v`: the valid version
      whose canonical text is what remains, if there is one. */
  function TagVersion(tag: string): (r: Option<SemVer.Version>)
    ensures r.Some? ==> SemVer.Valid(r.value) && SemVer.Print(r.value) == TrimStartChar(tag, 'v')
    ensures r.None? ==> forall v :: SemVer.Valid(v) ==> SemVer.Print(v) != TrimStartChar(tag, 'v')
  {
    SemVer.ParseComplete(TrimStartChar(tag, 'v'));
    SemVer.Parse(TrimStartChar(tag, 'v'))
  }

  /** A printed valid version, with or without a leading `v`, is a tag of
      that version. */
  lemma TagVersionPrint(v: SemVer.Version)
    requires SemVer.Valid(v)
    ensures TagVersion(SemVer.Print(v)) == Some(v)
    ensures TagVersion("v" + SemVer.Print(v)) == Some(v)
  {
    var text := SemVer.Print(v);
    SemVer.PrintStartsWithDigit(v);
    SemVer.ParsePrint(v);
    assert TrimStartChar(text, 'v') == text;
    assert ("v" + text)[1..] == text;
    assert TrimStartChar("v" + text, 'v') == text;
  }

  /** Index of the first entry among those with the greatest version, which
      is what a stable descending sort followed by taking the head selects.
      Entries are the parsed tags; None marks a tag that does not parse. */
  function LatestIndex(vs: seq<Option<SemVer.Version>>): (r: Option<nat>)
    ensures r.None? <==> forall i :: 0 <= i < |vs| ==> vs[i].None?
    ensures r.Some? ==> r.value < |vs| && vs[r.value].Some?
    ensures r.Some? ==> forall i :: 0 <= i < |vs| && vs[i].Some? ==> SemVer.Le(vs[i].value, vs[r.value].value)
    ensures r.Some? ==> forall i :: 0 <= i < r.value && vs[i].Some? ==> SemVer.Lt(vs[i].value, vs[r.value].value)
    decreases |vs|
  {
    if vs == [] then None
    else
      var last := |vs| - 1;
      var prev := LatestIndex(vs[..last]);
      assert forall i :: 0 <= i < last ==> vs[i] == vs[..last][i];
      match vs[last]
        case None => prev
        case Some(v) =>
          if prev.None? then
            SemVer.LeTotal(v, v);
            Some(last)
          else
            var best := vs[prev.value].value;
            if SemVer.Lt(best, v) then
              LatestStep(vs, last, best, v);
              SemVer.LeTotal(v, v);
              Some(last)
            else
              SemVer.LeTotal(best, v);
              prev
  }

  /** A new strict maximum beats every entry before it. */
  lemma LatestStep(vs: seq<Option<SemVer.Version>>, last: nat, best: SemVer.Version, v: SemVer.Version)
    requires last < |vs| && vs[last] == Some(v)
    requires SemVer.Lt(best, v)
    requires forall i :: 0 <= i < last && vs[i].Some? ==> SemVer.Le(vs[i].value, best)
    ensures forall i :: 0 <= i < last && vs[i].Some? ==> SemVer.Lt(vs[i].value, v) && SemVer.Le(vs[i].value, v)
  {
    forall i | 0 <= i < last && vs[i].Some?
      ensures SemVer.Lt(vs[i].value, v) && SemVer.Le(vs[i].value, v)
    {
      SemVer.LeLtTransitive(vs[i].value, best, v);
    }
  }

  /** The tags parsed position by position. */
  function ParsedTags(tags: seq<string>): (r: seq<Option<SemVer.Version>>)
    ensures |r| == |tags|
    ensures forall i :: 0 <= i < |tags| && i < |r| ==> r[i] == TagVersion(tags[i])
  {
    seq(|tags|, i requires 0 <= i < |tags| => TagVersion(tags[i]))
  }

  /** The release tag with the greatest version, ties to the earliest. */
  function DetermineLatestReleaseTag(tags: seq<string>): (r: Option<string>)
    ensures r.None? <==> forall t :: t in tags ==> TagVersion(t).None?
    ensures r.Some? ==> r.value in tags && TagVersion(r.value).Some?
    ensures r.Some? ==> TagVersion(r.value).Some? && forall t :: t in tags && TagVersion(t).Some? ==>
              SemVer.Le(TagVersion(t).value, TagVersion(r.value).value)
    ensures r.Some? ==> exists i :: (0 <= i < |tags| && tags[i] == r.value
              && forall j :: 0 <= j < i && TagVersion(tags[j]).Some? ==>
                   SemVer.Lt(TagVersion(tags[j]).value, TagVersion(r.value).value))
  {
    var parsed := ParsedTags(tags);
    match LatestIndex(parsed)
      case None => None
      case Some(i) => Some(tags[i])
  }

  /** The three tags of the example below and their versions. */
  lemma ExampleTags(t0: string, t1: string, t2: string)
    requires t0 == "1.2.0" && t1 == "v1.10.0" && t2 == "1.9.9"
    ensures TagVersion(t0) == Some(SemVer.Version(1, 2, 0, []))
    ensures TagVersion(t1) == Some(SemVer.Version(1, 10, 0, []))
    ensures TagVersion(t2) == Some(SemVer.Version(1, 9, 9, []))
  {
    var a := SemVer.Version(1, 2, 0, []);
    var b := SemVer.Version(1, 10, 0, []);
    var c := SemVer.Version(1, 9, 9, []);
    assert SemVer.Print(a) == t0 by {
      assert NatToString(1) == "1" && NatToString(2) == "2" && NatToString(0) == "0";
    }
    assert "v" + SemVer.Print(b) == t1 by {
      assert NatToString(1) == "1" && NatToString(10) == "10" && NatToString(0) == "0";
    }
    assert SemVer.Print(c) == t2 by {
      assert NatToString(1) == "1" && NatToString(9) == "9";
    }
    TagVersionPrint(a);
    TagVersionPrint(b);
    TagVersionPrint(c);
  }

  /** Of three tags whose middle one has the strictly greatest version,
      the middle one is the release. */
  lemma LatestOfThree(tags: seq<string>, a: SemVer.Version, b: SemVer.Version, c: SemVer.Version)
    requires |tags| == 3
    requires TagVersion(tags[0]) == Some(a) && TagVersion(tags[1]) == Some(b) && TagVersion(tags[2]) == Some(c)
    requires SemVer.Lt(a, b) && SemVer.Lt(c, b)
    ensures DetermineLatestReleaseTag(tags) == Some(tags[1])
  {
    LatestIndexOfThree(ParsedTags(tags), a, b, c);
  }

  lemma LatestIndexOfThree(vs: seq<Option<SemVer.Version>>, a: SemVer.Version, b: SemVer.Version, c: SemVer.Version)
    requires |vs| == 3 && vs[0] == Some(a) && vs[1] == Some(b) && vs[2] == Some(c)
    requires SemVer.Lt(a, b) && SemVer.Lt(c, b)
    ensures LatestIndex(vs) == Some(1)
  {
    var k := LatestIndex(vs);
    assert k.Some? && k.value < 3;
    assert SemVer.Le(vs[1].value, vs[k.value].value);
  }

  /** Versions compare numerically, not as text: among `1.2.0`, `v1.10.0`
      and `1.9.9` the release is `v1.10.0`. */
  lemma LatestReleaseExample(tags: seq<string>)
    requires tags == ["1.2.0", "v1.10.0", "1.9.9"]
    ensures DetermineLatestReleaseTag(tags) == Some("v1.10.0")
  {
    ExampleTags(tags[0], tags[1], tags[2]);
    LatestOfThree(tags, SemVer.Version(1, 2, 0, []), SemVer.Version(1, 10, 0, []), SemVer.Version(1, 9, 9, []));
  }

  /** The chosen release does not depend on the order of the tags: any two
      lists with the same tags pick tags with the same version. */
  lemma LatestReleaseOrderIndependent(a: seq<string>, b: seq<string>)
    requires forall t :: t in a <==> t in b
    ensures DetermineLatestReleaseTag(a).None? <==> DetermineLatestReleaseTag(b).None?
    ensures DetermineLatestReleaseTag(a).Some? && DetermineLatestReleaseTag(b).Some? ==>
              TagVersion(DetermineLatestReleaseTag(a).value) == TagVersion(DetermineLatestReleaseTag(b).value)
  {
    var ra := DetermineLatestReleaseTag(a);
    var rb := DetermineLatestReleaseTag(b);
    if ra.Some? && rb.Some? {
      SemVer.LeAntisymmetric(TagVersion(ra.value).value, TagVersion(rb.value).value);
    }
  }

  /** Fold the registry's version list into the entry. */
  function ApplyRemoteVersions(info: UpdateInfo, versions: seq<PackageVersion>): (r: UpdateInfo)
    ensures StrictlySorted(r.availableTags)
    ensures forall t :: t in r.availableTags <==> Listed(versions, t)
    ensures r.remoteLatestUpdated == FirstStamp(versions, "latest")
    ensures DetermineLatestReleaseTag(r.availableTags).None? ==>
              r.latestReleaseTag == info.latestReleaseTag
              && r.latestReleasePublished == info.latestReleasePublished
    ensures DetermineLatestReleaseTag(r.availableTags).Some? ==>
              r.latestReleaseTag == DetermineLatestReleaseTag(r.availableTags)
              && r.latestReleasePublished == FirstStamp(versions, r.latestReleaseTag.value)
    ensures StatusCurrent(r)
    ensures r.statusNote == if r.availableTags == [] then AppendStatus(info.statusNote, NoTagsNote)
                            else info.statusNote
    ensures r.(availableTags := info.availableTags, latestReleaseTag := info.latestReleaseTag,
               latestReleasePublished := info.latestReleasePublished,
               remoteLatestUpdated := info.remoteLatestUpdated, statusNote := info.statusNote,
               hasUpdate := info.hasUpdate) == info
  {
    var tags := SortStrings(CollectTags([], versions));
    var dates := CollectDates(map[], versions);
    TagDatesAreFirstStamps(versions, "latest");
    var latest := DetermineLatestReleaseTag(tags);
    var withRelease :=
      if latest.None? then info.(availableTags := tags)
      else
        (TagDatesAreFirstStamps(versions, latest.value);
         info.(availableTags := tags, latestReleasePublished := Lookup(dates, latest.value),
               latestReleaseTag := latest));
    var updated := RecomputeStatus(withRelease.(remoteLatestUpdated := Lookup(dates, "latest")));
    if tags == [] then updated.(statusNote := AppendStatus(updated.statusNote, NoTagsNote))
    else updated
  }

  // ---------------------------------------------------------------------
  // HTTP replies and the package-versions endpoints
  // ---------------------------------------------------------------------

  /** An HTTP exchange: the request failed to send, or a status with the
      body text and the decoded JSON payload (None when it does not decode). */
  datatype Reply<T> = SendFailed(reason: string) | Reply(status: nat, body: string, json: Option<T>)

  datatype UpdateError =
    | RequestFailed(reason: string)
    | DecodeFailed
    | AuthenticationRequired(package: string, body: string)
    | ServerError(package: string, status: nat, body: string)
    | FetchFailed(package: string, status: nat, body: string)
    | ReleaseStatus(status: nat)

  predicate IsNotFound<T>(reply: Reply<T>) {
    reply.Reply? && reply.status == 404
  }

  function OrgsEndpoint(owner: string, package: string): string {
    "https://api.github.com/orgs/" + owner + "/packages/container/" + package + "/versions?per_page=100"
  }

  function UsersEndpoint(owner: string, package: string): string {
    "https://api.github.com/users/" + owner + "/packages/container/" + package + "/versions?per_page=100"
  }

  /** The outcome of one endpoint whose status is not 404. */
  function PackageReply(reply: Reply<seq<PackageVersion>>, package: string): (r: Result<Option<seq<PackageVersion>>, UpdateError>)
    requires !IsNotFound(reply)
    ensures r.Ok? <==> reply.Reply? && reply.status == 200 && reply.json.Some?
    ensures r.Ok? ==> r.value == Some(reply.json.value)
    ensures reply.SendFailed? ==> r == Err(RequestFailed(reply.reason))
    ensures reply.Reply? && reply.status == 200 && reply.json.None? ==> r == Err(DecodeFailed)
    ensures reply.Reply? && (reply.status == 401 || reply.status == 403) ==>
              r == Err(AuthenticationRequired(package, reply.body))
    ensures reply.Reply? && 500 <= reply.status <= 599 ==> r == Err(ServerError(package, reply.status, reply.body))
    ensures reply.Reply? && reply.status !in {200, 401, 403} && !(500 <= reply.status <= 599) ==>
              r == Err(FetchFailed(package, reply.status, reply.body))
  {
    match reply
      case SendFailed(reason) => Err(RequestFailed(reason))
      case Reply(status, body, json) =>
        if status == 200 then
          match json
            case Some(data) => Ok(Some(data))
            case None => Err(DecodeFailed)
        else if status == 401 || status == 403 then Err(AuthenticationRequired(package, body))
        else if 500 <= status <= 599 then Err(ServerError(package, status, body))
        else Err(FetchFailed(package, status, body))
  }

  /** Try each endpoint in turn; only 404 moves on to the next one. */
  function TryEndpoints(registry: string -> Reply<seq<PackageVersion>>, urls: seq<string>, package: string): (r: Result<Option<seq<PackageVersion>>, UpdateError>)
    ensures r == Ok(None) <==> forall i :: 0 <= i < |urls| ==> IsNotFound(registry(urls[i]))
    ensures forall k ::
              (0 <= k < |urls| && !IsNotFound(registry(urls[k]))
               && forall j :: 0 <= j < k ==> IsNotFound(registry(urls[j]))) ==>
              r == PackageReply(registry(urls[k]), package)
    decreases |urls|
  {
    if urls == [] then Ok(None)
    else if IsNotFound(registry(urls[0])) then TryEndpoints(registry, urls[1..], package)
    else PackageReply(registry(urls[0]), package)
  }

  /** The orgs endpoint first, the users endpoint only when that was 404. */
  function FetchPackageVersions(registry: string -> Reply<seq<PackageVersion>>, owner: string, package: string): (r: Result<Option<seq<PackageVersion>>, UpdateError>)
    ensures var orgs := registry(OrgsEndpoint(owner, package));
            var users := registry(UsersEndpoint(owner, package));
            && (r == Ok(None) <==> IsNotFound(orgs) && IsNotFound(users))
            && (!IsNotFound(orgs) ==> r == PackageReply(orgs, package))
            && (IsNotFound(orgs) && !IsNotFound(users) ==> r == PackageReply(users, package))
  {
    var urls := [OrgsEndpoint(owner, package), UsersEndpoint(owner, package)];
    assert urls[1..] == [UsersEndpoint(owner, package)] && urls[1..][1..] == [];
    assert (forall i :: 0 <= i < |urls| ==> IsNotFound(registry(urls[i]))) <==>
           IsNotFound(registry(urls[0])) && IsNotFound(registry(urls[1]));
    TryEndpoints(registry, urls, package)
  }

  /** The users endpoint is never consulted unless the orgs endpoint said 404. */
  lemma UsersEndpointOnlyAfterNotFound(r1: string -> Reply<seq<PackageVersion>>, r2: string -> Reply<seq<PackageVersion>>, owner: string, package: string)
    requires r1(OrgsEndpoint(owner, package)) == r2(OrgsEndpoint(owner, package))
    requires !IsNotFound(r1(OrgsEndpoint(owner, package)))
    ensures FetchPackageVersions(r1, owner, package) == FetchPackageVersions(r2, owner, package)
  {
  }

  // ---------------------------------------------------------------------
  // The installer's own release
  // ---------------------------------------------------------------------

  datatype ReleaseAsset = ReleaseAsset(name: string, downloadUrl: string)
  datatype ReleaseResponse = ReleaseResponse(tagName: string, publishedAt: Option<Timestamp>, assets: seq<ReleaseAsset>)

  datatype AssetKind = PackageAsset | ChecksumAsset

  /** The Debian package ends in `_amd64.deb`; the checksum file is named
      `SHA256SUMS` in any ASCII case. */
  predicate IsKind(a: ReleaseAsset, kind: AssetKind) {
    match kind
      case PackageAsset => EndsWith(a.name, "_amd64.deb")
      case ChecksumAsset => EqIgnoreAsciiCase(a.name, "SHA256SUMS")
  }

  /** The URL of the last asset of `kind`, or `current` when there is none. */
  function LastUrl(assets: seq<ReleaseAsset>, kind: AssetKind, current: Option<string>): (r: Option<string>)
    ensures (forall i :: 0 <= i < |assets| ==> !IsKind(assets[i], kind)) ==> r == current
    ensures (exists i :: 0 <= i < |assets| && IsKind(assets[i], kind)) ==>
              exists i :: 0 <= i < |assets| && IsKind(assets[i], kind) && r == Some(assets[i].downloadUrl)
                && forall j :: i < j < |assets| ==> !IsKind(assets[j], kind)
    decreases |assets|
  {
    if assets == [] then current
    else
      var next := if IsKind(assets[0], kind) then Some(assets[0].downloadUrl) else current;
      var r := LastUrl(assets[1..], kind, next);
      assert forall j :: 0 < j < |assets| ==> assets[j] == assets[1..][j - 1];
      r
  }

  /** The asset loop: each match overwrites the previous URL of its kind. */
  function ScanAssets(assets: seq<ReleaseAsset>, download: Option<string>, checksum: Option<string>): (r: (Option<string>, Option<string>))
    ensures r.0 == LastUrl(assets, PackageAsset, download)
    ensures r.1 == LastUrl(assets, ChecksumAsset, checksum)
    decreases |assets|
  {
    if assets == [] then (download, checksum)
    else
      var a := assets[0];
      ScanAssets(assets[1..],
                 if IsKind(a, PackageAsset) then Some(a.downloadUrl) else download,
                 if IsKind(a, ChecksumAsset) then Some(a.downloadUrl) else checksum)
  }

  /** `CARGO_PKG_VERSION` parsed, or 0.0.0 when it does not parse. */
  function RunningVersion(packageVersion: string): (r: SemVer.Version)
    ensures SemVer.Valid(r)
    ensures forall v :: SemVer.Valid(v) && SemVer.Print(v) == packageVersion ==> r == v
    ensures (forall v :: SemVer.Valid(v) ==> SemVer.Print(v) != packageVersion) ==> r == SemVer.Version(0, 0, 0, [])
  {
    SemVer.ParseComplete(packageVersion);
    match SemVer.Parse(packageVersion)
      case Some(v) => v
      case None => SemVer.Version(0, 0, 0, [])
  }

  /** The self-update entry from the latest-release reply. */
  function FetchInstallerUpdate(reply: Reply<ReleaseResponse>, packageVersion: string): (r: Result<Option<UpdateInfo>, UpdateError>)
    ensures IsNotFound(reply) ==> r == Ok(None)
    ensures reply.Reply? && 400 <= reply.status <= 599 && reply.status != 404 ==> r == Err(ReleaseStatus(reply.status))
    ensures reply.SendFailed? ==> r == Err(RequestFailed(reply.reason))
    ensures reply.Reply? && reply.json.None? && !(400 <= reply.status <= 599) ==> r == Err(DecodeFailed)
    ensures r.Ok? && r.value.Some? ==> reply.Reply? && reply.json.Some?
    ensures r.Ok? && r.value.Some? ==>
              var release := reply.json.value;
              var info := r.value.value;
              && info.isSelf
              && info.currentTag == "v" + packageVersion
              && info.latestReleaseTag == Some(release.tagName)
              && info.remoteLatestUpdated == release.publishedAt
              && info.availableTags == []
              && info.latestReleasePublished == release.publishedAt
              && info.localCreated.None?
              && info.statusNote.None?
              && info.downloadUrl == LastUrl(release.assets, PackageAsset, None)
              && info.checksumUrl == LastUrl(release.assets, ChecksumAsset, None)
              && (info.hasUpdate <==>
                    TagVersion(release.tagName).Some?
                    && SemVer.Lt(RunningVersion(packageVersion), TagVersion(release.tagName).value))
    ensures reply.Reply? && reply.json.Some? && !(400 <= reply.status <= 599) ==>
              (r == Ok(None) <==> LastUrl(reply.json.value.assets, PackageAsset, None).None?)
  {
    match reply
      case SendFailed(reason) => Err(RequestFailed(reason))
      case Reply(status, _, json) =>
        if status == 404 then Ok(None)
        else if 400 <= status <= 599 then Err(ReleaseStatus(status))
        else match json
          case None => Err(DecodeFailed)
          case Some(release) =>
            var (download, checksum) := ScanAssets(release.assets, None, None);
            if download.None? then Ok(None)
            else
              var remote := TagVersion(release.tagName);
              Ok(Some(UpdateInfo(
                "Installer (self-update)", "installer", "v" + packageVersion, [],
                Some(release.tagName), release.publishedAt, release.publishedAt, None, None,
                remote.Some? && SemVer.Lt(RunningVersion(packageVersion), remote.value),
                true, download, checksum)))
  }

  // ---------------------------------------------------------------------
  // Local image inspection and the whole collection
  // ---------------------------------------------------------------------

  /** What `docker image inspect <ref> --format {{.Created}}` printed. */
  datatype CommandOutput = CommandOutput(success: bool, stdout: string)

  function PullReference(image: string, tag: string): string {
    image + ":" + tag
  }

  /** Creation time of the local image: a failed command or blank output is
      "no image"; only a failure to run the command is an error. */
  function InspectLocalImageCreatedAt(output: Result<CommandOutput, string>, rfc3339: string -> Option<Timestamp>): (r: Result<Option<Timestamp>, string>)
    ensures output.Err? <==> r.Err?
    ensures output.Ok? && !output.value.success ==> r == Ok(None)
    ensures output.Ok? && IsBlank(output.value.stdout) ==> r == Ok(None)
    ensures output.Ok? && output.value.success && !IsBlank(output.value.stdout) ==>
              r == Ok(rfc3339(Trim(output.value.stdout)))
  {
    TrimEmptyIffBlank(if output.Ok? then output.value.stdout else "");
    match output
      case Err(e) => Err(e)
      case Ok(out) =>
        if !out.success then Ok(None)
        else
          var value := Trim(out.stdout);
          if value == [] then Ok(None) else Ok(rfc3339(value))
  }

  /** One tracked image: registry versions (or the not-found note), then the
      local creation time (or the inspection-failure note). */
  function ServiceInfo(config: ServiceConfig, registry: string -> Reply<seq<PackageVersion>>,
                       docker: string -> Result<CommandOutput, string>,
                       rfc3339: string -> Option<Timestamp>): (r: Result<UpdateInfo, UpdateError>)
    ensures r.Err? <==> FetchPackageVersions(registry, Owner, config.package).Err?
    ensures r.Ok? ==>
              && r.value.displayName == config.displayName
              && r.value.image == config.image
              && r.value.currentTag == config.currentTag
              && !r.value.isSelf
              && StatusCurrent(r.value)
    ensures FetchPackageVersions(registry, Owner, config.package) == Ok(None) ==>
              r.Ok? && r.value.statusNote.Some? && StartsWith(r.value.statusNote.value, NotFoundNote)
  {
    match FetchPackageVersions(registry, Owner, config.package)
      case Err(e) => Err(e)
      case Ok(versions) =>
        var info := NewInfo(config);
        var remote := match versions
          case Some(vs) => ApplyRemoteVersions(info, vs)
          case None => info.(statusNote := AppendStatus(info.statusNote, NotFoundNote));
        var inspected := InspectLocalImageCreatedAt(docker(PullReference(config.image, config.currentTag)), rfc3339);
        match inspected
          case Ok(created) => Ok(ApplyLocalCreated(remote, created))
          case Err(e) =>
            var noted := remote.(statusNote := AppendStatus(remote.statusNote, InspectFailureNote + ": " + e));
            assert versions.None? ==> StartsWith(noted.statusNote.value, NotFoundNote);
            Ok(ApplyLocalCreated(noted, None))
  }

  function CollectServices(configs: seq<ServiceConfig>, registry: string -> Reply<seq<PackageVersion>>,
                           docker: string -> Result<CommandOutput, string>,
                           rfc3339: string -> Option<Timestamp>): (r: Result<seq<UpdateInfo>, UpdateError>)
    ensures r.Err? <==> exists i :: 0 <= i < |configs| && FetchPackageVersions(registry, Owner, configs[i].package).Err?
    ensures r.Ok? ==> |r.value| == |configs|
    ensures r.Ok? ==> forall i :: 0 <= i < |configs| ==> r.value[i] == ServiceInfo(configs[i], registry, docker, rfc3339).value
  {
    var results := seq(|configs|, i requires 0 <= i < |configs| => ServiceInfo(configs[i], registry, docker, rfc3339));
    assert forall i :: 0 <= i < |configs| ==> results[i] == ServiceInfo(configs[i], registry, docker, rfc3339);
    AllOk(results)
  }

  /** Each collected entry describes its service's image, is not the
      installer's own entry, and carries a status that agrees with its
      timestamps. */
  lemma CollectedEntriesAreCurrent(configs: seq<ServiceConfig>, registry: string -> Reply<seq<PackageVersion>>,
                                   docker: string -> Result<CommandOutput, string>,
                                   rfc3339: string -> Option<Timestamp>, i: nat)
    requires CollectServices(configs, registry, docker, rfc3339).Ok? && i < |configs|
    ensures var info := CollectServices(configs, registry, docker, rfc3339).value[i];
            info.image == configs[i].image && info.displayName == configs[i].displayName
            && !info.isSelf && StatusCurrent(info)
  {
    var r := CollectServices(configs, registry, docker, rfc3339);
    assert r.value[i] == ServiceInfo(configs[i], registry, docker, rfc3339).value;
  }

  /** The service entries followed by the installer's own entry, if any;
      the first error wins. */
  function Combine(services: Result<seq<UpdateInfo>, UpdateError>, installer: Result<Option<UpdateInfo>, UpdateError>)
    : (r: Result<seq<UpdateInfo>, UpdateError>)
    ensures r.Err? <==> services.Err? || installer.Err?
    ensures r.Ok? ==>
              && |r.value| == |services.value| + (if installer.value.Some? then 1 else 0)
              && r.value[..|services.value|] == services.value
              && (installer.value.Some? ==> r.value[|services.value|] == installer.value.value)
  {
    match services
      case Err(e) => Err(e)
      case Ok(infos) =>
        match installer
          case Err(e) => Err(e)
          case Ok(None) => Ok(infos)
          case Ok(Some(self)) => Ok(infos + [self])
  }

  /** All tracked images in order, then the installer entry when a release
      with a package asset exists. Any error but "not found" aborts. */
  function CollectUpdateInfos(registry: string -> Reply<seq<PackageVersion>>,
                              docker: string -> Result<CommandOutput, string>,
                              rfc3339: string -> Option<Timestamp>,
                              release: Reply<ReleaseResponse>, packageVersion: string): (r: Result<seq<UpdateInfo>, UpdateError>)
    ensures r.Err? <==> (exists i :: 0 <= i < |ServiceConfigs|
                           && FetchPackageVersions(registry, Owner, ServiceConfigs[i].package).Err?)
                        || FetchInstallerUpdate(release, packageVersion).Err?
    ensures r.Ok? ==>
              && |ServiceConfigs| <= |r.value| <= |ServiceConfigs| + 1
              && r.value[..|ServiceConfigs|] == CollectServices(ServiceConfigs, registry, docker, rfc3339).value
              && (|r.value| > |ServiceConfigs| <==> FetchInstallerUpdate(release, packageVersion) != Ok(None))
              && (|r.value| > |ServiceConfigs| ==> r.value[|ServiceConfigs|].isSelf)
  {
    var services := CollectServices(ServiceConfigs, registry, docker, rfc3339);
    Combine(services, FetchInstallerUpdate(release, packageVersion))
  }

  /** The one-line status shown for an entry in the update list. */
  function StatusText(info: UpdateInfo): (r: string)
    ensures info.statusNote.Some? ==> r == info.statusNote.value
    ensures info.statusNote.None? ==> (r == "Update available" <==> info.hasUpdate)
    ensures info.statusNote.None? && !info.hasUpdate ==> r == "Up to date"
  {
    match info.statusNote
      case Some(note) => note
      case None => if info.hasUpdate then "Update available" else "Up to date"
  }
}
