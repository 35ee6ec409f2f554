/** Registering the reference harness, a profile, an Agent and an Agent version,
    reusing at every step what the Workspace already holds. */
module Quickstart {
  import opened Documents
  import opened Decimals
  import opened CanonicalJson
  import Pointer = JsonPointer
  import opened Optional

  /** Identifiers the control API assigns; the empty string means "not found yet". */
  type Id = s: string | s != "" witness "x"

  const REFERENCE_KIND := "blazn-agent"
  const REFERENCE_VERSION := "0.1.0"
  const REFERENCE_PROTOCOL := "openai-chat"

  datatype Definition = Definition(id: Id, kind: string, status: string)
  datatype HarnessVersion = HarnessVersion(id: Id, version: string)
  datatype Profile = Profile(id: Id, name: string, harnessVersionId: string, status: string, digest: string)
  datatype Agent = Agent(id: Id, name: string, status: string)
  datatype AgentVersion = AgentVersion(id: Id, number: int, document: map<string, Json>)

  /** What the Workspace holds: each listing in the order the server returns it. */
  datatype Registry = Registry(
    definitions: seq<Definition>,
    versions: map<string, seq<HarnessVersion>>,
    profiles: seq<Profile>,
    agents: seq<Agent>,
    agentVersions: map<string, seq<AgentVersion>>)

  datatype Options = Options(
    name: string, template: string, repository: string, commit: string, instructions: string,
    purpose: string, routeId: string, routeVersion: int, requestId: string)

  datatype Outcome = Outcome(
    agentId: string, agentVersionId: string, agentVersion: int,
    definitionId: string, harnessVersionId: string, profileId: string, templateVersionId: string, reused: bool)
  {
    ghost function Path(): seq<string> { [definitionId, harnessVersionId, profileId, agentId, agentVersionId] }
  }

  // ---------------------------------------------------------------- options

  predicate IsLower(c: char) { 'a' <= c <= 'z' }
  predicate IsHex(c: char) { IsDigit(c) || 'a' <= c <= 'f' }
  predicate IsSpace(c: char) { c in {' ', '\t', '\n', '\r', 12 as char} }

  function Utf8Length(c: char): nat {
    if c as int < 0x80 then 1 else if c as int < 0x800 then 2 else if c as int < 0x10000 then 3 else 4
  }

  function ByteLength(s: string): nat {
    if s == [] then 0 else ByteLength(s[..|s| - 1]) + Utf8Length(s[|s| - 1])
  }

  predicate IsUuid(s: string) {
    && |s| == 36 && '1' <= s[14] <= '5' && s[19] in {'8', '9', 'a', 'b'}
    && forall i | 0 <= i < 36 :: if i in {8, 13, 18, 23} then s[i] == '-' else IsHex(s[i])
  }

  predicate ValidOptions(o: Options) {
    && 1 <= |o.name| <= 96 && IsLower(o.name[0])
    && (forall c | c in o.name :: IsLower(c) || IsDigit(c) || c in {'.', '_', '-'})
    && '@' in o.template
    && |o.repository| > 8 && o.repository[..8] == "https://"
    && (forall c | c in o.repository[8..] :: c !in {'@', '?', '#'} && !IsSpace(c))
    && |o.commit| == 40 && (forall c | c in o.commit :: IsHex(c))
    && 1 <= ByteLength(o.instructions) <= 32768
    && ByteLength(o.purpose) <= 512
    && IsUuid(o.routeId) && o.routeVersion >= 1
    && 8 <= ByteLength(o.requestId) <= 96
  }

  function ProfileName(o: Options): string
    requires ValidOptions(o)
  {
    "blazn-agent-" + o.routeId[..8] + "-v" + Digits(o.routeVersion)
  }

  /** Two model routes share a profile name exactly when their versions and the
      first eight characters of their identifiers agree. */
  lemma ProfileNameExactly(o: Options, q: Options)
    requires ValidOptions(o) && ValidOptions(q)
    ensures ProfileName(o) == ProfileName(q) <==> o.routeId[..8] == q.routeId[..8] && o.routeVersion == q.routeVersion
  {
    if ProfileName(o) == ProfileName(q) {
      var head := "blazn-agent-";
      NameParts(head, o.routeId[..8], Digits(o.routeVersion));
      NameParts(head, q.routeId[..8], Digits(q.routeVersion));
      ValueOfDigits(o.routeVersion);
      ValueOfDigits(q.routeVersion);
    }
  }

  lemma NameParts(head: string, route: string, version: string)
    requires |route| == 8
    ensures var name := head + route + "-v" + version;
            name[|head|..|head| + 8] == route && name[|head| + 10..] == version
  {
  }

  /** Each of the refusals that the options' check is for. */
  lemma RefusedOptions(o: Options, c: char)
    ensures o.name == "" || (c in o.name && ('A' <= c <= 'Z' || c == ' ')) ==> !ValidOptions(o)
    ensures '@' !in o.template ==> !ValidOptions(o)
    ensures c in o.repository && c in {'@', '?', '#', ' '} ==> !ValidOptions(o)
    ensures |o.repository| >= 7 && o.repository[..7] == "http://" ==> !ValidOptions(o)
    ensures |o.commit| != 40 || (c in o.commit && ('A' <= c <= 'Z' || 'g' <= c <= 'z')) ==> !ValidOptions(o)
    ensures o.instructions == "" || o.requestId == "" || o.routeVersion < 1 || |o.routeId| != 36 ==> !ValidOptions(o)
  {
    if ValidOptions(o) {
      assert o.repository == o.repository[..8] + o.repository[8..];
      assert forall x | x in "https://" :: x !in {'@', '?', '#', ' '};
      assert o.repository[..8][4] == 's' && o.repository[..7][4] == o.repository[4];
    }
  }

  /** And what it lets through: names up to 96 characters, whatever else is valid. */
  lemma AcceptedNames(o: Options, name: string)
    requires ValidOptions(o) && name != "" && IsLower(name[0])
    requires forall c | c in name :: IsLower(c) || IsDigit(c) || c in {'.', '_', '-'}
    ensures ValidOptions(o.(name := name)) <==> |name| <= 96
  {}

  // --------------------------------------------------------------- listings

  /** The scanning loops all keep the last item they accept. */
  ghost function LastMatch<T>(items: seq<T>, p: T -> bool): Option<T> {
    if items == [] then None
    else if p(items[|items| - 1]) then Some(items[|items| - 1])
    else LastMatch(items[..|items| - 1], p)
  }

  lemma {:induction false} LastMatchMeaning<T>(items: seq<T>, p: T -> bool)
    ensures LastMatch(items, p).None? ==> forall i | 0 <= i < |items| :: !p(items[i])
    ensures LastMatch(items, p).Some? ==>
      exists i | 0 <= i < |items| :: (
        items[i] == LastMatch(items, p).value && p(items[i]) && forall j | i < j < |items| :: !p(items[j]))
  {
    if items != [] {
      var n := |items| - 1;
      if p(items[n]) {
        assert items[n] == LastMatch(items, p).value;
      } else {
        LastMatchMeaning(items[..n], p);
      }
    }
  }

  ghost function Insert<T>(items: seq<T>, k: nat, x: T): seq<T>
    requires k <= |items|
  {
    items[..k] + [x] + items[k..]
  }

  /** A match created where there was none is found wherever the server lists it. */
  lemma {:induction false} InsertedIsFound<T>(items: seq<T>, k: nat, x: T, p: T -> bool)
    requires k <= |items| && LastMatch(items, p).None? && p(x)
    ensures LastMatch(Insert(items, k, x), p) == Some(x)
  {
    var n := |items|;
    var grown := Insert(items, k, x);
    if k < n {
      InsertedIsFound(items[..n - 1], k, x, p);
      assert grown[..n] == Insert(items[..n - 1], k, x);
      assert grown[n] == items[n - 1];
    }
  }

  lemma {:induction false} SameMatches<T>(items: seq<T>, p: T -> bool, q: T -> bool)
    requires forall i | 0 <= i < |items| :: p(items[i]) == q(items[i])
    ensures LastMatch(items, p) == LastMatch(items, q)
  {
    if items != [] { SameMatches(items[..|items| - 1], p, q); }
  }

  method FindLast<T>(items: seq<T>, p: T -> bool) returns (found: Option<T>)
    ensures found == LastMatch(items, p)
  {
    found := None;
    for i := 0 to |items|
      invariant found == LastMatch(items[..i], p)
    {
      assert items[..i + 1][..i] == items[..i];
      if p(items[i]) { found := Some(items[i]); }
    }
    assert items[..|items|] == items;
  }

  function Listed<T>(table: map<string, seq<T>>, id: string): seq<T> {
    if id in table then table[id] else []
  }

  // ------------------------------------------------------- the five lookups

  predicate IsReference(d: Definition) { d.kind == REFERENCE_KIND }

  /** A reference definition that is not approved stops the registration. */
  ghost predicate Refused(r: Registry) {
    exists i | 0 <= i < |r.definitions| :: IsReference(r.definitions[i]) && r.definitions[i].status != "approved"
  }

  predicate IsReferenceVersion(v: HarnessVersion) { v.version == REFERENCE_VERSION }

  predicate IsProfile(o: Options, harnessVersionId: string, p: Profile)
    requires ValidOptions(o)
  {
    p.name == ProfileName(o) && p.harnessVersionId == harnessVersionId && p.status == "approved"
  }

  predicate IsAgent(o: Options, a: Agent) { a.name == o.name && a.status == "active" }

  function ProfileTest(o: Options, harnessVersionId: string): Profile -> bool
    requires ValidOptions(o)
  {
    p => IsProfile(o, harnessVersionId, p)
  }

  function AgentTest(o: Options): Agent -> bool { a => IsAgent(o, a) }

  function Field(fields: map<string, Json>, key: string): Json {
    if key in fields then fields[key] else Null
  }

  /** What a published Agent version must pin to be reused. */
  datatype Pins = Pins(
    instructions: string, templateId: string, templateDigest: string,
    repository: string, commit: string, profileId: string, profileDigest: string)

  predicate SameAgentVersion(document: map<string, Json>, w: Pins) {
    var template, repository := Field(document, "template"), Field(document, "repository");
    var pins := Field(document, "allowedHarnessProfiles");
    && pins.Array? && |pins.items| == 1 && template.Object? && repository.Object?
    && Field(document, "instructions") == Text(w.instructions)
    && Field(template.fields, "versionId") == Text(w.templateId)
    && Field(template.fields, "digest") == Text(w.templateDigest)
    && Field(repository.fields, "url") == Text(w.repository)
    && Field(repository.fields, "commit") == Text(w.commit)
    && pins.items[0].Object?
    && Field(pins.items[0].fields, "id") == Text(w.profileId)
    && Field(pins.items[0].fields, "digest") == Text(w.profileDigest)
  }

  /** For every document: one pinned profile, and the seven pins where they belong. */
  lemma SamePins(document: map<string, Json>, w: Pins)
    ensures SameAgentVersion(document, w) <==> (
      && Found(document, [Pointer.Key("instructions")], w.instructions)
      && Found(document, [Pointer.Key("template"), Pointer.Key("versionId")], w.templateId)
      && Found(document, [Pointer.Key("template"), Pointer.Key("digest")], w.templateDigest)
      && Found(document, [Pointer.Key("repository"), Pointer.Key("url")], w.repository)
      && Found(document, [Pointer.Key("repository"), Pointer.Key("commit")], w.commit)
      && Found(document, [Pointer.Key(PROFILES), Pointer.Index(0), Pointer.Key("id")], w.profileId)
      && Found(document, [Pointer.Key(PROFILES), Pointer.Index(0), Pointer.Key("digest")], w.profileDigest)
      && Pointer.At(Object(document), [Pointer.Key(PROFILES), Pointer.Index(1)]).None?)
  {
    OneKey(document, "instructions", w.instructions);
    TwoKeys(document, "template", "versionId", w.templateId);
    TwoKeys(document, "template", "digest", w.templateDigest);
    TwoKeys(document, "repository", "url", w.repository);
    TwoKeys(document, "repository", "commit", w.commit);
    ItemKey(document, PROFILES, "id", w.profileId);
    ItemKey(document, PROFILES, "digest", w.profileDigest);
    SecondItem(document, PROFILES);
  }

  const PROFILES := "allowedHarnessProfiles"

  /** The string at a place of a document. */
  predicate Found(document: map<string, Json>, path: seq<Pointer.Place>, s: string) {
    Pointer.At(Object(document), path) == Some(Text(s))
  }

  lemma AtKey(v: Json, k: string, rest: seq<Pointer.Place>)
    ensures Pointer.At(v, [Pointer.Key(k)] + rest) ==
      if v.Object? && k in v.fields then Pointer.At(v.fields[k], rest) else None
  {
    assert ([Pointer.Key(k)] + rest)[1..] == rest;
  }

  lemma AtIndex(v: Json, i: nat, rest: seq<Pointer.Place>)
    ensures Pointer.At(v, [Pointer.Index(i)] + rest) ==
      if v.Array? && i < |v.items| then Pointer.At(v.items[i], rest) else None
  {
    assert ([Pointer.Index(i)] + rest)[1..] == rest;
  }

  lemma OneKey(document: map<string, Json>, k: string, s: string)
    ensures Found(document, [Pointer.Key(k)], s) <==> Field(document, k) == Text(s)
  {
    AtKey(Object(document), k, []);
    assert [Pointer.Key(k)] + [] == [Pointer.Key(k)];
  }

  lemma TwoKeys(document: map<string, Json>, j: string, k: string, s: string)
    ensures Found(document, [Pointer.Key(j), Pointer.Key(k)], s) <==>
      Field(document, j).Object? && Field(Field(document, j).fields, k) == Text(s)
  {
    AtKey(Object(document), j, [Pointer.Key(k)]);
    assert [Pointer.Key(j)] + [Pointer.Key(k)] == [Pointer.Key(j), Pointer.Key(k)];
    AtKey(Field(document, j), k, []);
    assert [Pointer.Key(k)] + [] == [Pointer.Key(k)];
  }

  lemma ItemKey(document: map<string, Json>, j: string, k: string, s: string)
    ensures Found(document, [Pointer.Key(j), Pointer.Index(0), Pointer.Key(k)], s) <==> (
      && Field(document, j).Array? && Field(document, j).items != [] && Field(document, j).items[0].Object?
      && Field(Field(document, j).items[0].fields, k) == Text(s))
  {
    var tail := [Pointer.Index(0), Pointer.Key(k)];
    AtKey(Object(document), j, tail);
    assert [Pointer.Key(j)] + tail == [Pointer.Key(j), Pointer.Index(0), Pointer.Key(k)];
    AtIndex(Field(document, j), 0, [Pointer.Key(k)]);
    assert [Pointer.Index(0)] + [Pointer.Key(k)] == tail;
    if Field(document, j).Array? && Field(document, j).items != [] {
      AtKey(Field(document, j).items[0], k, []);
      assert [Pointer.Key(k)] + [] == [Pointer.Key(k)];
    }
  }

  lemma SecondItem(document: map<string, Json>, j: string)
    ensures Pointer.At(Object(document), [Pointer.Key(j), Pointer.Index(1)]).None? <==>
      !Field(document, j).Array? || |Field(document, j).items| <= 1
  {
    AtKey(Object(document), j, [Pointer.Index(1)]);
    assert [Pointer.Key(j)] + [Pointer.Index(1)] == [Pointer.Key(j), Pointer.Index(1)];
    AtIndex(Field(document, j), 1, []);
    assert [Pointer.Index(1)] + [] == [Pointer.Index(1)];
  }

  function VersionTest(w: Pins): AgentVersion -> bool { (v: AgentVersion) => SameAgentVersion(v.document, w) }

  datatype TemplateVersion = TemplateVersion(id: Id, version: string, status: string, contentDigest: string)

  const SHA_PREFIX := "sha256:"

  function TemplateDigest(t: TemplateVersion): string {
    SHA_PREFIX +
    if |t.contentDigest| >= 7 && t.contentDigest[..7] == SHA_PREFIX then t.contentDigest[7..] else t.contentDigest
  }

  /** With or without the algorithm's name in front, a content digest is pinned in one form. */
  lemma TemplateDigestNormal(t: TemplateVersion, hex: string)
    requires |hex| < 7 || hex[..7] != "sha256:"
    ensures TemplateDigest(t.(contentDigest := hex)) == "sha256:" + hex
    ensures TemplateDigest(t.(contentDigest := "sha256:" + hex)) == "sha256:" + hex
  {
    assert ("sha256:" + hex)[..7] == "sha256:" && ("sha256:" + hex)[7..] == hex;
  }

  function Wanted(o: Options, t: TemplateVersion, p: Profile): Pins {
    Pins(o.instructions, t.id, TemplateDigest(t), o.repository, o.commit, p.id, p.digest)
  }

  // -------------------------------------------- the Agent version document

  /** Everything in the document that is neither an option nor looked up. */
  datatype Fresh = Fresh(
    id: string, policyId: string, evaluationId: string, workspaceId: string, agentId: string,
    createdBy: string, createdAt: string)

  function AgentDocument(o: Options, t: TemplateVersion, p: Profile, next: int, f: Fresh): map<string, Json> {
    map[
      "schemaVersion" := Text("blazn.dev/agent-version/v1alpha1"), "id" := Text(f.id), "agentId" := Text(f.agentId),
      "workspaceId" := Text(f.workspaceId), "version" := Number(next),
      "purpose" := Text(if o.purpose == "" then "Agent " + o.name else o.purpose),
      "instructions" := Text(o.instructions),
      "modelPolicy" := Object(map[
        "routeId" := Text(o.routeId), "routeVersion" := Number(o.routeVersion), "policyId" := Text(f.policyId),
        "policyVersion" := Number(1), "requiredProtocols" := Array([Text(REFERENCE_PROTOCOL)]),
        "fallback" := Text("disabled"), "fallbackRoute" := Null]),
      "tools" := Array([]),
      "template" := Object(map["versionId" := Text(t.id), "digest" := Text(TemplateDigest(t))]),
      "repository" := Object(map[
        "url" := Text(o.repository), "commit" := Text(o.commit),
        "writable" := Bool(true), "pushAllowed" := Bool(false)]),
      "resourceProfile" := Text("poc-agent-small"),
      "requiredCapabilities" := Array([Text("message.follow-up")]),
      "allowedHarnessProfiles" := Array([Object(map["id" := Text(p.id), "digest" := Text(p.digest)])]),
      "defaultHarnessProfileId" := Text(p.id), "evaluationId" := Text(f.evaluationId),
      "outputContract" := Object(map["summary" := Bool(true), "patch" := Bool(true), "artifacts" := Array([])]),
      "createdBy" := Text(f.createdBy), "createdAt" := Text(f.createdAt)]
  }

  /** A document published for one set of options is reused for another exactly
      when the pins agree: purpose and model route are not compared. */
  lemma ReusedExactlyWhen(
    o: Options, t: TemplateVersion, p: Profile, next: int, f: Fresh, digest: string, w: Pins)
    ensures SameAgentVersion(AgentDocument(o, t, p, next, f)["digest" := Text(digest)], w) <==> Wanted(o, t, p) == w
  {
    var d := AgentDocument(o, t, p, next, f)["digest" := Text(digest)];
    assert Field(d, "instructions") == Text(o.instructions);
    assert Field(d, "template").fields["versionId"] == Text(t.id);
    assert Field(d, "template").fields["digest"] == Text(TemplateDigest(t));
    assert Field(d, "repository").fields["url"] == Text(o.repository);
    assert Field(d, "repository").fields["commit"] == Text(o.commit);
    assert Field(d, "allowedHarnessProfiles").items[0].fields["id"] == Text(p.id);
    assert Field(d, "allowedHarnessProfiles").items[0].fields["digest"] == Text(p.digest);
  }

  // What a published document says beyond the pins, field by field.

  ghost predicate Identifies(document: map<string, Json>, o: Options, agentId: string, number: int) {
    && Field(document, "schemaVersion") == Text("blazn.dev/agent-version/v1alpha1")
    && Field(document, "agentId") == Text(agentId) && Field(document, "version") == Number(number)
    && Field(document, "instructions") == Text(o.instructions)
    && (o.purpose != "" ==> Field(document, "purpose") == Text(o.purpose))
    && (o.purpose == "" ==> Field(document, "purpose") == Text("Agent " + o.name))
  }

  /** The model route, with no fallback. */
  ghost predicate Routes(document: map<string, Json>, o: Options) {
    var policy := Field(document, "modelPolicy");
    && policy.Object? && Field(policy.fields, "routeId") == Text(o.routeId)
    && Field(policy.fields, "routeVersion") == Number(o.routeVersion)
    && Field(policy.fields, "requiredProtocols") == Array([Text("openai-chat")])
    && Field(policy.fields, "fallback") == Text("disabled") && Field(policy.fields, "fallbackRoute") == Null
  }

  /** The repository may be written and not pushed to; no tools; one harness profile, the default. */
  ghost predicate Confines(document: map<string, Json>, o: Options, profileId: string) {
    var repository := Field(document, "repository");
    && repository.Object? && Field(repository.fields, "url") == Text(o.repository)
    && Field(repository.fields, "commit") == Text(o.commit)
    && Field(repository.fields, "writable") == Bool(true) && Field(repository.fields, "pushAllowed") == Bool(false)
    && Field(document, "tools") == Array([])
    && Field(document, "requiredCapabilities") == Array([Text("message.follow-up")])
    && Field(document, "defaultHarnessProfileId") == Text(profileId)
  }

  /** Its digest is that of everything else in it. */
  ghost predicate IsSigned(document: map<string, Json>, sha256: string -> string) {
    Field(document, "digest") ==
    Text("sha256:" + sha256(DigestText("blazn-agent-version-v1", document, {"digest"})))
  }

  ghost predicate Made(
    document: map<string, Json>, o: Options, agentId: string, profileId: string, number: int,
    sha256: string -> string)
  {
    && Identifies(document, o, agentId, number) && Routes(document, o) && Confines(document, o, profileId)
    && IsSigned(document, sha256)
  }

  lemma DocumentIdentifies(o: Options, t: TemplateVersion, p: Profile, next: int, f: Fresh, digest: string)
    ensures Identifies(AgentDocument(o, t, p, next, f)["digest" := Text(digest)], o, f.agentId, next)
  {}

  lemma DocumentRoutes(o: Options, t: TemplateVersion, p: Profile, next: int, f: Fresh, digest: string)
    ensures Routes(AgentDocument(o, t, p, next, f)["digest" := Text(digest)], o)
  {}

  lemma DocumentConfines(o: Options, t: TemplateVersion, p: Profile, next: int, f: Fresh, digest: string)
    ensures Confines(AgentDocument(o, t, p, next, f)["digest" := Text(digest)], o, p.id)
  {}

  // ------------------------------------------------- how far a registry got

  /** The identifiers the lookups find, in order, up to the first that finds nothing. */
  ghost function Path(o: Options, t: TemplateVersion, r: Registry): (ids: seq<string>)
    requires ValidOptions(o)
    ensures |ids| <= 5
  {
    match LastMatch(r.definitions, IsReference)
    case None => []
    case Some(d) =>
    match LastMatch(Listed(r.versions, d.id), IsReferenceVersion)
    case None => [d.id]
    case Some(v) =>
    match LastMatch(r.profiles, ProfileTest(o, v.id))
    case None => [d.id, v.id]
    case Some(p) =>
    match LastMatch(r.agents, AgentTest(o))
    case None => [d.id, v.id, p.id]
    case Some(a) =>
    match LastMatch(Listed(r.agentVersions, a.id), VersionTest(Wanted(o, t, p)))
    case None => [d.id, v.id, p.id, a.id]
    case Some(x) => [d.id, v.id, p.id, a.id, x.id]
  }

  /** A registry together with the number of objects ever created in it. */
  datatype State = State(registry: Registry, created: nat)

  /** What any number of registrations with the same options may do: extend the
      path of reused identifiers, by at least one for every object created. */
  ghost predicate Evolves(o: Options, t: TemplateVersion, s: State, u: State)
    requires ValidOptions(o)
  {
    && Path(o, t, s.registry) <= Path(o, t, u.registry)
    && 0 <= u.created - s.created <= |Path(o, t, u.registry)| - |Path(o, t, s.registry)|
    && (u.created == s.created ==> u.registry == s.registry)
    && (Refused(u.registry) <==> Refused(s.registry))
  }

  lemma EvolvesTrans(o: Options, t: TemplateVersion, a: State, b: State, c: State)
    requires ValidOptions(o) && Evolves(o, t, a, b) && Evolves(o, t, b, c)
    ensures Evolves(o, t, a, c)
  {
  }

  /** Any number of registrations, failing or not, create at most five objects in
      all; once the path is complete nothing ever changes again. */
  lemma {:induction false} HistoryCreatesAtMostFive(o: Options, t: TemplateVersion, h: seq<State>)
    requires ValidOptions(o) && |h| > 0
    requires forall i | 0 <= i < |h| - 1 :: Evolves(o, t, h[i], h[i + 1])
    ensures Evolves(o, t, h[0], h[|h| - 1])
    ensures h[|h| - 1].created <= h[0].created + 5 - |Path(o, t, h[0].registry)|
    ensures |Path(o, t, h[0].registry)| == 5 ==> h[|h| - 1] == h[0]
  {
    var n := |h| - 1;
    if n > 0 {
      HistoryCreatesAtMostFive(o, t, h[..n]);
      assert h[..n][n - 1] == h[n - 1];
      assert Evolves(o, t, h[n - 1], h[n - 1 + 1]);
      EvolvesTrans(o, t, h[0], h[n - 1], h[n]);
    }
  }

  /** The Agent version at the end of a complete path. */
  ghost function Chosen(o: Options, t: TemplateVersion, r: Registry): (x: Option<AgentVersion>)
    requires ValidOptions(o)
    ensures x.Some? <==> |Path(o, t, r)| == 5
  {
    var d := LastMatch(r.definitions, IsReference);
    if d.None? then None else
    var v := LastMatch(Listed(r.versions, d.value.id), IsReferenceVersion);
    if v.None? then None else
    var p := LastMatch(r.profiles, ProfileTest(o, v.value.id));
    var a := LastMatch(r.agents, AgentTest(o));
    if p.None? || a.None? then None else
    LastMatch(Listed(r.agentVersions, a.value.id), VersionTest(Wanted(o, t, p.value)))
  }

  /** Everything a lookup compares; so a second route with the same first eight
      characters is silently served by the first route's profile and Agent version. */
  lemma RouteTailIsIgnored(o: Options, q: Options, t: TemplateVersion, r: Registry)
    requires ValidOptions(o) && ValidOptions(q)
    requires o.name == q.name && o.instructions == q.instructions
    requires o.repository == q.repository && o.commit == q.commit
    requires o.routeId[..8] == q.routeId[..8] && o.routeVersion == q.routeVersion
    ensures Path(o, t, r) == Path(q, t, r) && Chosen(o, t, r) == Chosen(q, t, r)
  {
    ProfileNameExactly(o, q);
    forall id: string ensures LastMatch(r.profiles, ProfileTest(o, id)) == LastMatch(r.profiles, ProfileTest(q, id)) {
      SameMatches(r.profiles, ProfileTest(o, id), ProfileTest(q, id));
    }
    SameMatches(r.agents, AgentTest(o), AgentTest(q));
  }

  /** Every choice of options has such a neighbour on a different route. */
  lemma EveryRouteIsShared(o: Options, t: TemplateVersion, r: Registry) returns (q: Options)
    requires ValidOptions(o)
    ensures ValidOptions(q) && q.routeId != o.routeId && Path(o, t, r) == Path(q, t, r)
  {
    q := o.(routeId := o.routeId[35 := if o.routeId[35] == '0' then '1' else '0']);
    RouteTailIsIgnored(o, q, t, r);
  }

  /** What a successful run reports is exactly what the lookups find. */
  ghost predicate Reports(o: Options, t: TemplateVersion, r: Registry, result: Outcome)
    requires ValidOptions(o)
  {
    && result.templateVersionId == t.id
    && Path(o, t, r) == result.Path()
    && Chosen(o, t, r).Some? && Chosen(o, t, r).value.number == result.agentVersion
  }

  /** What the identifiers of a successful run belong to, in the words of the API. */
  lemma ReportMeans(o: Options, t: TemplateVersion, r: Registry, result: Outcome)
    requires ValidOptions(o) && Reports(o, t, r, result)
    ensures exists d :: d in r.definitions && d.id == result.definitionId && d.kind == "blazn-agent"
    ensures exists v :: (
      v in Listed(r.versions, result.definitionId) && v.id == result.harnessVersionId && v.version == "0.1.0")
    ensures exists p :: (
      && p in r.profiles && p.id == result.profileId && p.harnessVersionId == result.harnessVersionId
      && p.status == "approved" && p.name == "blazn-agent-" + o.routeId[..8] + "-v" + Digits(o.routeVersion))
    ensures exists a :: a in r.agents && a.id == result.agentId && a.name == o.name && a.status == "active"
    ensures exists x :: (
      && x in Listed(r.agentVersions, result.agentId) && x.id == result.agentVersionId
      && x.number == result.agentVersion && Field(x.document, "instructions") == Text(o.instructions))
  {
    var d := LastMatch(r.definitions, IsReference).value;
    Matched(r.definitions, IsReference);
    var v := LastMatch(Listed(r.versions, d.id), IsReferenceVersion).value;
    Matched(Listed(r.versions, d.id), IsReferenceVersion);
    var p := LastMatch(r.profiles, ProfileTest(o, v.id)).value;
    Matched(r.profiles, ProfileTest(o, v.id));
    var a := LastMatch(r.agents, AgentTest(o)).value;
    Matched(r.agents, AgentTest(o));
    Matched(Listed(r.agentVersions, a.id), VersionTest(Wanted(o, t, p)));
  }

  lemma Matched<T>(items: seq<T>, p: T -> bool)
    requires LastMatch(items, p).Some?
    ensures LastMatch(items, p).value in items && p(LastMatch(items, p).value)
  {
    LastMatchMeaning(items, p);
  }

  /** A new version number, above every existing one. */
  ghost predicate Fits(existing: seq<AgentVersion>, number: int) {
    number >= 1 && forall i | 0 <= i < |existing| :: existing[i].number < number
  }

  /** Either no Agent version was published, or the new one got a higher number and the right document. */
  ghost predicate Numbered(
    o: Options, t: TemplateVersion, before: Registry, after: Registry, result: Outcome, sha256: string -> string)
    requires ValidOptions(o)
  {
    || after.agentVersions == before.agentVersions
    || (&& Fits(Listed(before.agentVersions, result.agentId), result.agentVersion)
        && Chosen(o, t, after).Some?
        && Made(Chosen(o, t, after).value.document, o, result.agentId, result.profileId, result.agentVersion, sha256))
  }

  /** The list with one more item, wherever the server puts it. */
  ghost predicate Grown<T(!new)>(items: seq<T>, x: T, grown: seq<T>) {
    exists k | 0 <= k <= |items| :: grown == Insert(items, k, x)
  }

  lemma GrownIsFound<T(!new)>(items: seq<T>, x: T, grown: seq<T>, p: T -> bool)
    requires Grown(items, x, grown) && LastMatch(items, p).None? && p(x)
    ensures LastMatch(grown, p) == Some(x)
  {
    var k :| 0 <= k <= |items| && grown == Insert(items, k, x);
    InsertedIsFound(items, k, x, p);
  }

  lemma ApprovedIsNotRefused(r: Registry, d: Definition, u: Registry)
    requires LastMatch(r.definitions, IsReference).None? && d.status == "approved"
    requires Grown(r.definitions, d, u.definitions)
    ensures !Refused(r) && !Refused(u)
  {
    var k :| 0 <= k <= |r.definitions| && u.definitions == Insert(r.definitions, k, d);
    LastMatchMeaning(r.definitions, IsReference);
    forall i | 0 <= i < |u.definitions| ensures u.definitions[i] == d || !IsReference(u.definitions[i]) {
      if i < k {
        assert u.definitions[i] == r.definitions[i];
      } else if i > k {
        assert u.definitions[i] == r.definitions[i - 1];
      }
    }
  }

  // One creation each: the lookups before it succeed, its own finds nothing.

  lemma DefinitionAdded(o: Options, t: TemplateVersion, s: State, d: Definition, grown: seq<Definition>)
    requires ValidOptions(o)
    requires LastMatch(s.registry.definitions, IsReference).None?
    requires IsReference(d) && d.status == "approved" && Grown(s.registry.definitions, d, grown)
    ensures Evolves(o, t, s, State(s.registry.(definitions := grown), s.created + 1))
    ensures LastMatch(grown, IsReference) == Some(d)
  {
    GrownIsFound(s.registry.definitions, d, grown, IsReference);
    ApprovedIsNotRefused(s.registry, d, s.registry.(definitions := grown));
  }

  lemma HarnessVersionAdded(
    o: Options, t: TemplateVersion, s: State, d: Definition, v: HarnessVersion, grown: seq<HarnessVersion>)
    requires ValidOptions(o)
    requires LastMatch(s.registry.definitions, IsReference) == Some(d)
    requires LastMatch(Listed(s.registry.versions, d.id), IsReferenceVersion).None?
    requires IsReferenceVersion(v) && Grown(Listed(s.registry.versions, d.id), v, grown)
    ensures Evolves(o, t, s, State(s.registry.(versions := s.registry.versions[d.id := grown]), s.created + 1))
    ensures LastMatch(grown, IsReferenceVersion) == Some(v)
  {
    GrownIsFound(Listed(s.registry.versions, d.id), v, grown, IsReferenceVersion);
  }

  lemma ProfileAdded(
    o: Options, t: TemplateVersion, s: State, d: Definition, v: HarnessVersion, p: Profile, grown: seq<Profile>)
    requires ValidOptions(o)
    requires LastMatch(s.registry.definitions, IsReference) == Some(d)
    requires LastMatch(Listed(s.registry.versions, d.id), IsReferenceVersion) == Some(v)
    requires LastMatch(s.registry.profiles, ProfileTest(o, v.id)).None?
    requires IsProfile(o, v.id, p) && Grown(s.registry.profiles, p, grown)
    ensures Evolves(o, t, s, State(s.registry.(profiles := grown), s.created + 1))
    ensures LastMatch(grown, ProfileTest(o, v.id)) == Some(p)
  {
    GrownIsFound(s.registry.profiles, p, grown, ProfileTest(o, v.id));
  }

  lemma AgentAdded(
    o: Options, t: TemplateVersion, s: State, d: Definition, v: HarnessVersion, p: Profile, a: Agent, grown: seq<Agent>)
    requires ValidOptions(o)
    requires LastMatch(s.registry.definitions, IsReference) == Some(d)
    requires LastMatch(Listed(s.registry.versions, d.id), IsReferenceVersion) == Some(v)
    requires LastMatch(s.registry.profiles, ProfileTest(o, v.id)) == Some(p)
    requires LastMatch(s.registry.agents, AgentTest(o)).None?
    requires IsAgent(o, a) && Grown(s.registry.agents, a, grown)
    ensures Evolves(o, t, s, State(s.registry.(agents := grown), s.created + 1))
    ensures LastMatch(grown, AgentTest(o)) == Some(a)
  {
    GrownIsFound(s.registry.agents, a, grown, AgentTest(o));
  }

  lemma AgentVersionAdded(
    o: Options, t: TemplateVersion, s: State, d: Definition, v: HarnessVersion, p: Profile, a: Agent,
    x: AgentVersion, grown: seq<AgentVersion>)
    requires ValidOptions(o)
    requires LastMatch(s.registry.definitions, IsReference) == Some(d)
    requires LastMatch(Listed(s.registry.versions, d.id), IsReferenceVersion) == Some(v)
    requires LastMatch(s.registry.profiles, ProfileTest(o, v.id)) == Some(p)
    requires LastMatch(s.registry.agents, AgentTest(o)) == Some(a)
    requires LastMatch(Listed(s.registry.agentVersions, a.id), VersionTest(Wanted(o, t, p))).None?
    requires SameAgentVersion(x.document, Wanted(o, t, p)) && Grown(Listed(s.registry.agentVersions, a.id), x, grown)
    ensures Evolves(o, t, s,
      State(s.registry.(agentVersions := s.registry.agentVersions[a.id := grown]), s.created + 1))
    ensures LastMatch(grown, VersionTest(Wanted(o, t, p))) == Some(x)
  {
    GrownIsFound(Listed(s.registry.agentVersions, a.id), x, grown, VersionTest(Wanted(o, t, p)));
  }

  // ------------------------------------------------------------ the templates

  datatype Template = Template(name: string, versions: seq<seq<TemplateVersion>>)
  datatype Lookup = Published(version: TemplateVersion) | Unpublished(version: TemplateVersion) | Missing | Unavailable

  ghost function Flatten<T>(pages: seq<seq<T>>): seq<T> {
    if pages == [] then [] else Flatten(pages[..|pages| - 1]) + pages[|pages| - 1]
  }

  ghost function Versions(templates: seq<Template>, name: string): seq<TemplateVersion> {
    if templates == [] then [] else
      var last := templates[|templates| - 1];
      Versions(templates[..|templates| - 1], name) + if last.name == name then Flatten(last.versions) else []
  }

  ghost function FirstWanted(versions: seq<TemplateVersion>, wanted: string): Option<TemplateVersion> {
    if versions == [] then None
    else if versions[0].version == wanted then Some(versions[0])
    else FirstWanted(versions[1..], wanted)
  }

  /** strings.Cut at the first '@'. */
  function Cut(s: string): (r: (string, string))
    ensures '@' in s ==> s == r.0 + "@" + r.1
    ensures '@' !in r.0
  {
    if s == [] then ("", "")
    else if s[0] == '@' then ("", s[1..])
    else
      var rest := Cut(s[1..]);
      ([s[0]] + rest.0, rest.1)
  }

  function Verdict(v: Option<TemplateVersion>): Lookup {
    match v
    case None => Missing
    case Some(v) => if v.status == "published" then Published(v) else Unpublished(v)
  }

  /** The first version with the wanted number among all templates of that name,
      whichever pages they are on. */
  ghost function Resolve(catalog: seq<seq<Template>>, reference: string): Lookup {
    Verdict(FirstWanted(Versions(Flatten(catalog), Cut(reference).0), Cut(reference).1))
  }

  lemma {:induction false} FirstWantedMeaning(versions: seq<TemplateVersion>, wanted: string)
    ensures FirstWanted(versions, wanted).None? ==> forall v | v in versions :: v.version != wanted
    ensures FirstWanted(versions, wanted).Some? ==>
      exists i | 0 <= i < |versions| :: (
        && versions[i] == FirstWanted(versions, wanted).value && versions[i].version == wanted
        && forall j | 0 <= j < i :: versions[j].version != wanted)
  {
    if versions != [] {
      if versions[0].version == wanted {
        assert versions[0] == FirstWanted(versions, wanted).value;
      } else {
        FirstWantedMeaning(versions[1..], wanted);
        if FirstWanted(versions, wanted).Some? {
          var i :| 0 <= i < |versions[1..]| && versions[1..][i] == FirstWanted(versions, wanted).value
            && versions[1..][i].version == wanted
            && forall j | 0 <= j < i :: versions[1..][j].version != wanted;
          assert versions[i + 1] == FirstWanted(versions, wanted).value;
          assert forall j | 0 <= j < i + 1 :: versions[j].version != wanted;
        }
      }
    }
  }

  /** A version offered under a template name, on whatever page. */
  ghost predicate Offered(catalog: seq<seq<Template>>, name: string, v: TemplateVersion) {
    exists i, j, k :: (
      && 0 <= i < |catalog| && 0 <= j < |catalog[i]| && catalog[i][j].name == name
      && 0 <= k < |catalog[i][j].versions| && v in catalog[i][j].versions[k])
  }

  lemma {:induction false} InFlatten<T>(pages: seq<seq<T>>, x: T)
    ensures x in Flatten(pages) <==> exists i :: 0 <= i < |pages| && x in pages[i]
  {
    if pages != [] {
      var n := |pages| - 1;
      InFlatten(pages[..n], x);
    }
  }

  lemma {:induction false} InVersions(templates: seq<Template>, name: string, v: TemplateVersion)
    ensures v in Versions(templates, name) <==>
      exists i :: 0 <= i < |templates| && templates[i].name == name && v in Flatten(templates[i].versions)
  {
    if templates != [] { InVersions(templates[..|templates| - 1], name, v); }
  }

  lemma OfferedExactly(catalog: seq<seq<Template>>, name: string, v: TemplateVersion)
    ensures v in Versions(Flatten(catalog), name) <==> Offered(catalog, name, v)
  {
    InVersions(Flatten(catalog), name, v);
    if v in Versions(Flatten(catalog), name) {
      var n :| 0 <= n < |Flatten(catalog)| && Flatten(catalog)[n].name == name
        && v in Flatten(Flatten(catalog)[n].versions);
      var template := Flatten(catalog)[n];
      InFlatten(catalog, template);
      InFlatten(template.versions, v);
      var i :| 0 <= i < |catalog| && template in catalog[i];
      var j :| 0 <= j < |catalog[i]| && catalog[i][j] == template;
    }
    if Offered(catalog, name, v) {
      var i, j, k :| 0 <= i < |catalog| && 0 <= j < |catalog[i]| && catalog[i][j].name == name
        && 0 <= k < |catalog[i][j].versions| && v in catalog[i][j].versions[k];
      InFlatten(catalog, catalog[i][j]);
      InFlatten(catalog[i][j].versions, v);
      var n :| 0 <= n < |Flatten(catalog)| && Flatten(catalog)[n] == catalog[i][j];
    }
  }

  /** NAME@VERSION resolves to an offered version of that number with status "published", is refused if the
      first such version has another status, and is missing exactly if none is offered. */
  lemma ResolveMeans(catalog: seq<seq<Template>>, name: string, wanted: string)
    requires '@' !in name
    ensures match Resolve(catalog, name + "@" + wanted)
      case Published(v) => v.version == wanted && v.status == "published" && Offered(catalog, name, v)
      case Unpublished(v) => v.version == wanted && v.status != "published" && Offered(catalog, name, v)
      case Missing => forall v :: Offered(catalog, name, v) ==> v.version != wanted
      case Unavailable => false
  {
    CutAt(name, wanted);
    var versions := Versions(Flatten(catalog), name);
    FirstWantedMeaning(versions, wanted);
    forall v: TemplateVersion ensures v in versions <==> Offered(catalog, name, v) { OfferedExactly(catalog, name, v); }
  }

  lemma {:induction false} CutAt(name: string, wanted: string)
    requires '@' !in name
    ensures Cut(name + "@" + wanted) == (name, wanted)
  {
    var s := name + "@" + wanted;
    if name == [] {
      assert s[0] == '@' && s[1..] == wanted;
    } else {
      assert s[1..] == name[1..] + "@" + wanted && s[0] == name[0];
      CutAt(name[1..], wanted);
      assert name == [name[0]] + name[1..];
    }
  }

  lemma {:induction false} FirstWantedAppend(a: seq<TemplateVersion>, b: seq<TemplateVersion>, wanted: string)
    ensures FirstWanted(a + b, wanted) ==
      if FirstWanted(a, wanted).Some? then FirstWanted(a, wanted) else FirstWanted(b, wanted)
  {
    if a == [] {
      assert a + b == b;
    } else {
      assert (a + b)[1..] == a[1..] + b;
      FirstWantedAppend(a[1..], b, wanted);
    }
  }

  lemma {:induction false} VersionsAppend(a: seq<Template>, b: seq<Template>, name: string)
    ensures Versions(a + b, name) == Versions(a, name) + Versions(b, name)
  {
    if b == [] {
      assert a + b == a;
    } else {
      var n := |b| - 1;
      assert (a + b)[..|a| + n] == a + b[..n];
      VersionsAppend(a, b[..n], name);
    }
  }

  lemma {:induction false} FlattenAppend<T>(a: seq<seq<T>>, b: seq<seq<T>>)
    ensures Flatten(a + b) == Flatten(a) + Flatten(b)
  {
    if b == [] {
      assert a + b == a;
    } else {
      var n := |b| - 1;
      assert (a + b)[..|a| + n] == a + b[..n];
      FlattenAppend(a, b[..n]);
    }
  }

  // ------------------------------------------------------------- the workflow

  /** The control API of one Workspace. Every call may fail, and a failed creation
      may nevertheless have taken place; `faults` counts the failures. */
  class Workspace {
    var state: State
    var faults: nat
    const catalog: seq<seq<Template>>

    constructor (state: State, catalog: seq<seq<Template>>)
      ensures this.state == state && this.catalog == catalog && faults == 0
    {
      this.state, this.catalog, faults := state, catalog, 0;
    }

    method Call() returns (ok: bool)
      modifies this`faults
      ensures faults == old(faults) + if ok then 0 else 1
    {
      ok := *;
      if !ok { faults := faults + 1; }
    }

    /** Walks one template's pages of versions. */
    method FindVersion(pages: seq<seq<TemplateVersion>>, wanted: string)
      returns (ok: bool, found: Option<TemplateVersion>)
      modifies this`faults
      ensures faults == old(faults) + if ok then 0 else 1
      ensures ok ==> found == FirstWanted(Flatten(pages), wanted)
    {
      for i := 0 to |pages|
        invariant faults == old(faults)
        invariant FirstWanted(Flatten(pages[..i]), wanted).None?
      {
        ok := Call();
        if !ok { return false, None; }
        assert pages[..i + 1][..i] == pages[..i];
        FirstWantedAppend(Flatten(pages[..i]), pages[i], wanted);
        found := FindOnPage(pages[i], wanted);
        if found.Some? {
          assert pages == pages[..i + 1] + pages[i + 1..];
          FlattenAppend(pages[..i + 1], pages[i + 1..]);
          FirstWantedAppend(Flatten(pages[..i + 1]), Flatten(pages[i + 1..]), wanted);
          return true, found;
        }
      }
      assert pages[..|pages|] == pages;
      return true, None;
    }

    method FindTemplateVersion(reference: string) returns (found: Lookup)
      modifies this`faults
      ensures if faults == old(faults) then found == Resolve(catalog, reference) else found == Unavailable
    {
      var name, wanted := Cut(reference).0, Cut(reference).1;
      for i := 0 to |catalog|
        invariant faults == old(faults)
        invariant FirstWanted(Versions(Flatten(catalog[..i]), name), wanted).None?
      {
        var ok := Call();
        if !ok { return Unavailable; }
        found := FindInPage(catalog[i], name, wanted);
        if found == Unavailable { return; }
        assert catalog[..i + 1][..i] == catalog[..i];
        VersionsAppend(Flatten(catalog[..i]), catalog[i], name);
        FirstWantedAppend(Versions(Flatten(catalog[..i]), name), Versions(catalog[i], name), wanted);
        if found != Missing {
          assert catalog == catalog[..i + 1] + catalog[i + 1..];
          FlattenAppend(catalog[..i + 1], catalog[i + 1..]);
          VersionsAppend(Flatten(catalog[..i + 1]), Flatten(catalog[i + 1..]), name);
          FirstWantedAppend(
            Versions(Flatten(catalog[..i + 1]), name), Versions(Flatten(catalog[i + 1..]), name), wanted);
          return;
        }
      }
      assert catalog[..|catalog|] == catalog;
      return Missing;
    }

    /** Walks one page of templates, skipping other names. */
    method FindInPage(page: seq<Template>, name: string, wanted: string) returns (found: Lookup)
      modifies this`faults
      ensures faults != old(faults) ==> found == Unavailable
      ensures faults == old(faults) ==> found == Verdict(FirstWanted(Versions(page, name), wanted))
    {
      for j := 0 to |page|
        invariant faults == old(faults)
        invariant FirstWanted(Versions(page[..j], name), wanted).None?
      {
        assert page[..j + 1][..j] == page[..j];
        if page[j].name == name {
          var ok, version := FindVersion(page[j].versions, wanted);
          if !ok { return Unavailable; }
          FirstWantedAppend(Versions(page[..j], name), Flatten(page[j].versions), wanted);
          if version.Some? {
            assert page == page[..j + 1] + page[j + 1..];
            VersionsAppend(page[..j + 1], page[j + 1..], name);
            FirstWantedAppend(Versions(page[..j + 1], name), Versions(page[j + 1..], name), wanted);
            return Verdict(version);
          }
        } else {
          assert Versions(page[..j + 1], name) == Versions(page[..j], name);
        }
      }
      assert page[..|page|] == page;
      return Missing;
    }

    // The creating calls: the object ends up anywhere in its listing, and a
    // failed call may or may not have stored it.

    method CreateDefinition(kind: string, status: string) returns (ok: bool, d: Definition)
      modifies this
      ensures faults == old(faults) + if ok then 0 else 1
      ensures d.kind == kind && d.status == status
      ensures (!ok && state == old(state)) ||
        (exists grown | Grown(old(state.registry.definitions), d, grown) ::
          state == old(State(state.registry.(definitions := grown), state.created + 1)))
    {
      var id := AssignId();
      d := Definition(id, kind, status);
      ok := Call();
      var applied: bool := *;
      if ok || applied {
        var grown := Listing(state.registry.definitions, d);
        state := State(state.registry.(definitions := grown), state.created + 1);
      }
    }

    method PublishHarnessVersion(definitionId: string, version: string) returns (ok: bool, v: HarnessVersion)
      modifies this
      ensures faults == old(faults) + if ok then 0 else 1
      ensures v.version == version
      ensures (!ok && state == old(state)) ||
        (exists grown | Grown(old(Listed(state.registry.versions, definitionId)), v, grown) ::
          state == old(State(
            state.registry.(versions := state.registry.versions[definitionId := grown]), state.created + 1)))
    {
      var id := AssignId();
      v := HarnessVersion(id, version);
      ok := Call();
      var applied: bool := *;
      if ok || applied {
        var grown := Listing(Listed(state.registry.versions, definitionId), v);
        state := State(state.registry.(versions := state.registry.versions[definitionId := grown]), state.created + 1);
      }
    }

    method CreateProfile(name: string, harnessVersionId: string, status: string) returns (ok: bool, p: Profile)
      modifies this
      ensures faults == old(faults) + if ok then 0 else 1
      ensures p.name == name && p.harnessVersionId == harnessVersionId && p.status == status
      ensures (!ok && state == old(state)) ||
        (exists grown | Grown(old(state.registry.profiles), p, grown) ::
          state == old(State(state.registry.(profiles := grown), state.created + 1)))
    {
      var id := AssignId();
      var digest: string := *;
      p := Profile(id, name, harnessVersionId, status, digest);
      ok := Call();
      var applied: bool := *;
      if ok || applied {
        var grown := Listing(state.registry.profiles, p);
        state := State(state.registry.(profiles := grown), state.created + 1);
      }
    }

    method CreateAgent(name: string) returns (ok: bool, a: Agent)
      modifies this
      ensures faults == old(faults) + if ok then 0 else 1
      ensures a.name == name && a.status == "active"
      ensures (!ok && state == old(state)) ||
        (exists grown | Grown(old(state.registry.agents), a, grown) ::
          state == old(State(state.registry.(agents := grown), state.created + 1)))
    {
      var id := AssignId();
      a := Agent(id, name, "active");
      ok := Call();
      var applied: bool := *;
      if ok || applied {
        var grown := Listing(state.registry.agents, a);
        state := State(state.registry.(agents := grown), state.created + 1);
      }
    }

    method PublishAgentVersion(agentId: string, number: int, document: map<string, Json>)
      returns (ok: bool, x: AgentVersion)
      modifies this
      ensures faults == old(faults) + if ok then 0 else 1
      ensures x.number == number && x.document == document
      ensures (!ok && state == old(state)) ||
        (exists grown | Grown(old(Listed(state.registry.agentVersions, agentId)), x, grown) ::
          state == old(State(
            state.registry.(agentVersions := state.registry.agentVersions[agentId := grown]), state.created + 1)))
    {
      var id := AssignId();
      x := AgentVersion(id, number, document);
      ok := Call();
      var applied: bool := *;
      if ok || applied {
        var grown := Listing(Listed(state.registry.agentVersions, agentId), x);
        state := State(
          state.registry.(agentVersions := state.registry.agentVersions[agentId := grown]), state.created + 1);
      }
    }

    // The five reuse-or-create steps.

    method EnsureDefinition(o: Options, ghost t: TemplateVersion) returns (ok: bool, d: Definition, reused: bool)
      requires ValidOptions(o)
      modifies this
      ensures Evolves(o, t, old(state), state)
      ensures ok <==> faults == old(faults) && !Refused(old(state.registry))
      ensures state.registry == old(state.registry).(definitions := state.registry.definitions)
      ensures ok ==> LastMatch(state.registry.definitions, IsReference) == Some(d)
      ensures ok ==> (reused <==> state == old(state))
    {
      d, reused := Definition("x", "", ""), true;
      ok := Call();
      if !ok { return; }
      var refused, found := ScanDefinitions(state.registry.definitions);
      if refused { return false, d, true; }
      if found.Some? { return true, found.value, true; }
      ghost var s := state;
      ok, d := CreateDefinition(REFERENCE_KIND, "approved");
      if state != s { DefinitionAdded(o, t, s, d, state.registry.definitions); }
      reused := !ok;
    }

    method EnsureHarnessVersion(o: Options, ghost t: TemplateVersion, d: Definition)
      returns (ok: bool, v: HarnessVersion, reused: bool)
      requires ValidOptions(o)
      requires LastMatch(state.registry.definitions, IsReference) == Some(d)
      modifies this
      ensures Evolves(o, t, old(state), state)
      ensures ok <==> faults == old(faults)
      ensures state.registry == old(state.registry).(versions := state.registry.versions)
      ensures ok ==> LastMatch(Listed(state.registry.versions, d.id), IsReferenceVersion) == Some(v)
      ensures ok ==> (reused <==> state == old(state))
    {
      v, reused := HarnessVersion("x", ""), true;
      ok := Call();
      if !ok { return; }
      var found := FindLast(Listed(state.registry.versions, d.id), IsReferenceVersion);
      if found.Some? { return true, found.value, true; }
      ghost var s := state;
      ok, v := PublishHarnessVersion(d.id, REFERENCE_VERSION);
      if state != s { HarnessVersionAdded(o, t, s, d, v, Listed(state.registry.versions, d.id)); }
      reused := !ok;
    }

    method EnsureProfile(o: Options, ghost t: TemplateVersion, ghost d: Definition, v: HarnessVersion)
      returns (ok: bool, p: Profile, reused: bool)
      requires ValidOptions(o)
      requires LastMatch(state.registry.definitions, IsReference) == Some(d)
      requires LastMatch(Listed(state.registry.versions, d.id), IsReferenceVersion) == Some(v)
      modifies this
      ensures Evolves(o, t, old(state), state)
      ensures ok <==> faults == old(faults)
      ensures state.registry == old(state.registry).(profiles := state.registry.profiles)
      ensures ok ==> LastMatch(state.registry.profiles, ProfileTest(o, v.id)) == Some(p)
      ensures ok ==> (reused <==> state == old(state))
    {
      p, reused := Profile("x", "", "", "", ""), true;
      ok := Call();
      if !ok { return; }
      var found := FindLast(state.registry.profiles, ProfileTest(o, v.id));
      if found.Some? { return true, found.value, true; }
      ghost var s := state;
      ok, p := CreateProfile(ProfileName(o), v.id, "approved");
      if state != s { ProfileAdded(o, t, s, d, v, p, state.registry.profiles); }
      reused := !ok;
    }

    method EnsureAgent(
      o: Options, ghost t: TemplateVersion, ghost d: Definition, ghost v: HarnessVersion, ghost p: Profile)
      returns (ok: bool, a: Agent, reused: bool)
      requires ValidOptions(o)
      requires LastMatch(state.registry.definitions, IsReference) == Some(d)
      requires LastMatch(Listed(state.registry.versions, d.id), IsReferenceVersion) == Some(v)
      requires LastMatch(state.registry.profiles, ProfileTest(o, v.id)) == Some(p)
      modifies this
      ensures Evolves(o, t, old(state), state)
      ensures ok <==> faults == old(faults)
      ensures state.registry == old(state.registry).(agents := state.registry.agents)
      ensures ok ==> LastMatch(state.registry.agents, AgentTest(o)) == Some(a)
      ensures ok ==> (reused <==> state == old(state))
    {
      a, reused := Agent("x", "", ""), true;
      ok := Call();
      if !ok { return; }
      var found := FindLast(state.registry.agents, AgentTest(o));
      if found.Some? { return true, found.value, true; }
      ghost var s := state;
      ok, a := CreateAgent(o.name);
      if state != s { AgentAdded(o, t, s, d, v, p, a, state.registry.agents); }
      reused := !ok;
    }

    method EnsureAgentVersion(
      o: Options, t: TemplateVersion, ghost d: Definition, ghost v: HarnessVersion, p: Profile, a: Agent, f: Fresh,
      sha256: string -> string)
      returns (ok: bool, x: AgentVersion, reused: bool)
      requires ValidOptions(o)
      requires LastMatch(state.registry.definitions, IsReference) == Some(d)
      requires LastMatch(Listed(state.registry.versions, d.id), IsReferenceVersion) == Some(v)
      requires LastMatch(state.registry.profiles, ProfileTest(o, v.id)) == Some(p)
      requires LastMatch(state.registry.agents, AgentTest(o)) == Some(a)
      modifies this
      ensures Evolves(o, t, old(state), state)
      ensures ok <==> faults == old(faults)
      ensures state.registry == old(state.registry).(agentVersions := state.registry.agentVersions)
      ensures ok ==> Chosen(o, t, state.registry) == Some(x)
      ensures ok ==> (reused <==> state == old(state))
      ensures ok && !reused ==> Fits(old(Listed(state.registry.agentVersions, a.id)), x.number)
      ensures ok && !reused ==> Made(x.document, o, a.id, p.id, x.number, sha256)
    {
      x, reused := AgentVersion("x", 0, map[]), true;
      ok := Call();
      if !ok { return; }
      var next, found := ScanAgentVersions(Listed(state.registry.agentVersions, a.id), Wanted(o, t, p));
      if found.Some? { return true, found.value, true; }
      ghost var s := state;
      var document := SignedDocument(o, t, p, next, f.(agentId := a.id), sha256);
      ok, x := PublishAgentVersion(a.id, next, document);
      if state != s { AgentVersionAdded(o, t, s, d, v, p, a, x, Listed(state.registry.agentVersions, a.id)); }
      reused := !ok;
    }

    /** The harness half: definition, version and profile. */
    method RegisterHarness(o: Options, t: TemplateVersion) returns (
        ok: bool, result: Outcome, d: Definition, v: HarnessVersion, p: Profile)
      requires ValidOptions(o)
      modifies this
      ensures Evolves(o, t, old(state), state)
      ensures ok <==> faults == old(faults) && !Refused(old(state.registry))
      ensures state.registry.agentVersions == old(state.registry.agentVersions)
      ensures ok ==> LastMatch(state.registry.definitions, IsReference) == Some(d)
      ensures ok ==> LastMatch(Listed(state.registry.versions, d.id), IsReferenceVersion) == Some(v)
      ensures ok ==> LastMatch(state.registry.profiles, ProfileTest(o, v.id)) == Some(p)
      ensures ok ==> (result.reused <==> state == old(state))
      ensures ok ==> result == Outcome("", "", 0, d.id, v.id, p.id, t.id, result.reused)
    {
      result := Outcome("", "", 0, "", "", "", t.id, true);
      v, p := HarnessVersion("x", ""), Profile("x", "", "", "", "");
      ghost var s0 := state;
      var reused;
      ok, d, reused := EnsureDefinition(o, t);
      if !ok { return; }
      result := result.(definitionId := d.id, reused := reused);
      ghost var s1 := state;
      ok, v, reused := EnsureHarnessVersion(o, t, d);
      EvolvesTrans(o, t, s0, s1, state);
      if !ok { return; }
      result := result.(harnessVersionId := v.id, reused := result.reused && reused);
      ghost var s2 := state;
      ok, p, reused := EnsureProfile(o, t, d, v);
      EvolvesTrans(o, t, s0, s2, state);
      if !ok { return; }
      result := result.(profileId := p.id, reused := result.reused && reused);
    }

    /** All five steps against one resolved template version. */
    method Register(o: Options, t: TemplateVersion, f: Fresh, sha256: string -> string)
      returns (ok: bool, result: Outcome)
      requires ValidOptions(o)
      modifies this
      ensures ok <==> faults == old(faults) && !Refused(old(state.registry))
      ensures Evolves(o, t, old(state), state)
      ensures ok ==> Reports(o, t, state.registry, result)
      ensures ok ==> (result.reused <==> state == old(state))
      ensures ok ==> Numbered(o, t, old(state.registry), state.registry, result, sha256)
    {
      ghost var s0 := state;
      var d, v, p, a, x, reused;
      ok, result, d, v, p := RegisterHarness(o, t);
      if !ok { return; }
      ghost var s3 := state;
      ok, a, reused := EnsureAgent(o, t, d, v, p);
      EvolvesTrans(o, t, s0, s3, state);
      if !ok { return; }
      result := result.(agentId := a.id, reused := result.reused && reused);
      ghost var s4 := state;
      ok, x, reused := EnsureAgentVersion(o, t, d, v, p, a, f, sha256);
      EvolvesTrans(o, t, s0, s4, state);
      if !ok { return; }
      result := result.(agentVersionId := x.id, agentVersion := x.number, reused := result.reused && reused);
    }

    /** Reuses or creates each object in turn; succeeds exactly when no call failed
        and nothing refused the registration. */
    method Quickstart(o: Options, f: Fresh, sha256: string -> string) returns (ok: bool, result: Outcome)
      modifies this
      ensures ok <==> (
        && faults == old(faults) && ValidOptions(o)
        && Resolve(catalog, o.template).Published? && !Refused(old(state.registry)))
      ensures !ValidOptions(o) || !Resolve(catalog, o.template).Published? ==> state == old(state)
      ensures ValidOptions(o) && Resolve(catalog, o.template).Published? ==>
        Evolves(o, Resolve(catalog, o.template).version, old(state), state)
      ensures ok ==> Reports(o, Resolve(catalog, o.template).version, state.registry, result)
      ensures ok ==> (result.reused <==> state == old(state))
      ensures ok ==>
        Numbered(o, Resolve(catalog, o.template).version, old(state.registry), state.registry, result, sha256)
    {
      result := Outcome("", "", 0, "", "", "", "", true);
      if !ValidOptions(o) { return false, result; }
      var found := FindTemplateVersion(o.template);
      if !found.Published? { return false, result; }
      ok, result := Register(o, found.version, f, sha256);
    }

    /** Any number of runs with the same options, failing or not: at most five objects are created in all,
        and none after a run succeeded. */
    method RunMany(o: Options, runs: nat, f: Fresh, sha256: string -> string) returns (done: bool, settled: State)
      modifies this
      ensures !ValidOptions(o) || !Resolve(catalog, o.template).Published? ==> state == old(state)
      ensures ValidOptions(o) && Resolve(catalog, o.template).Published? ==>
        var t := Resolve(catalog, o.template).version;
        && Evolves(o, t, old(state), state)
        && state.created <= old(state.created) + 5 - |Path(o, t, old(state.registry))|
      ensures done ==> state == settled
    {
      done, settled := false, state;
      for i := 0 to runs
        invariant !ValidOptions(o) || !Resolve(catalog, o.template).Published? ==> state == old(state) && !done
        invariant ValidOptions(o) && Resolve(catalog, o.template).Published? ==>
          Evolves(o, Resolve(catalog, o.template).version, old(state), state)
        invariant done ==> ValidOptions(o) && Resolve(catalog, o.template).Published? && state == settled
        invariant done ==> |Path(o, Resolve(catalog, o.template).version, state.registry)| == 5
      {
        ghost var before := state;
        var ok, result := Quickstart(o, f, sha256);
        if ValidOptions(o) && Resolve(catalog, o.template).Published? {
          EvolvesTrans(o, Resolve(catalog, o.template).version, old(state), before, state);
        }
        if ok && !done { done, settled := true, state; }
      }
    }

    /** A second run with the same options leaves the state between the two unchanged, fails only if a
        call does, and reports the same objects. */
    method RunTwice(o: Options, f: Fresh, g: Fresh, sha256: string -> string)
      returns (ok: bool, first: Outcome, middle: State, again: bool, second: Outcome)
      modifies this
      ensures ok ==> state == middle
      ensures ok && faults == old(faults) ==> again
      ensures ok && again ==> second == first.(reused := true)
      ensures first.reused && ok ==> middle == old(state)
      ensures ok ==> ValidOptions(o) && Resolve(catalog, o.template).Published?
      ensures ok ==> Reports(o, Resolve(catalog, o.template).version, state.registry, first)
    {
      ok, first := Quickstart(o, f, sha256);
      middle := state;
      again, second := Quickstart(o, g, sha256);
      assert ok ==> state == middle;
    }
  }

  /** The first loop: an unapproved reference definition stops it. */
  method ScanDefinitions(items: seq<Definition>) returns (refused: bool, found: Option<Definition>)
    ensures refused <==> exists i | 0 <= i < |items| :: IsReference(items[i]) && items[i].status != "approved"
    ensures !refused ==> found == LastMatch(items, IsReference)
  {
    found := None;
    for i := 0 to |items|
      invariant found == LastMatch(items[..i], IsReference)
      invariant forall j | 0 <= j < i :: !(IsReference(items[j]) && items[j].status != "approved")
    {
      assert items[..i + 1][..i] == items[..i];
      if items[i].kind == REFERENCE_KIND {
        if items[i].status != "approved" { return true, None; }
        found := Some(items[i]);
      }
    }
    assert items[..|items|] == items;
    refused := false;
  }

  /** Adds the digest of everything but the digest itself. */
  method Sign(domain: string, unsigned: map<string, Json>, sha256: string -> string)
    returns (digest: string)
    ensures digest == "sha256:" + sha256(DigestText(domain, unsigned["digest" := Text(digest)], {"digest"}))
  {
    digest := DocumentDigest(domain, unsigned, ["digest"], sha256);
    assert KeyOrder.Elements(["digest"]) == {"digest"};
    ExcludedKeyIsFree(domain, unsigned, {"digest"}, "digest", Text(digest));
  }

  method SignedDocument(o: Options, t: TemplateVersion, p: Profile, next: int, f: Fresh, sha256: string -> string)
    returns (document: map<string, Json>)
    ensures SameAgentVersion(document, Wanted(o, t, p))
    ensures Made(document, o, f.agentId, p.id, next, sha256)
  {
    var unsigned := AgentDocument(o, t, p, next, f);
    var digest := Sign("blazn-agent-version-v1", unsigned, sha256);
    ReusedExactlyWhen(o, t, p, next, f, digest, Wanted(o, t, p));
    DocumentIdentifies(o, t, p, next, f, digest);
    DocumentRoutes(o, t, p, next, f, digest);
    DocumentConfines(o, t, p, next, f, digest);
    document := Attach(unsigned, digest, sha256);
  }

  /** The digest goes under its own key. */
  method Attach(unsigned: map<string, Json>, digest: string, sha256: string -> string)
    returns (document: map<string, Json>)
    requires digest ==
      "sha256:" + sha256(DigestText("blazn-agent-version-v1", unsigned["digest" := Text(digest)], {"digest"}))
    ensures document == unsigned["digest" := Text(digest)] && IsSigned(document, sha256)
  {
    document := unsigned["digest" := Text(digest)];
  }

  /** The last loop: the next free number and the last matching version. */
  method ScanAgentVersions(items: seq<AgentVersion>, w: Pins) returns (next: int, found: Option<AgentVersion>)
    ensures Fits(items, next) && (next == 1 || exists i | 0 <= i < |items| :: items[i].number + 1 == next)
    ensures found == LastMatch(items, VersionTest(w))
  {
    next, found := 1, None;
    for i := 0 to |items|
      invariant Fits(items[..i], next) && (next == 1 || exists j | 0 <= j < i :: items[j].number + 1 == next)
      invariant found == LastMatch(items[..i], VersionTest(w))
    {
      assert items[..i + 1][..i] == items[..i];
      if items[i].number >= next { next := items[i].number + 1; }
      if SameAgentVersion(items[i].document, w) { found := Some(items[i]); }
    }
    assert items[..|items|] == items;
  }

  method AssignId() returns (id: Id)
  {
    assert |"x"| > 0;
    var s: string :| |s| > 0;
    id := s;
  }

  method Listing<T(!new)>(items: seq<T>, x: T) returns (grown: seq<T>)
    ensures Grown(items, x, grown)
  {
    var k: nat :| k <= |items|;
    grown := items[..k] + [x] + items[k..];
    assert grown == Insert(items, k, x);
  }

  method FindOnPage(versions: seq<TemplateVersion>, wanted: string) returns (found: Option<TemplateVersion>)
    ensures found == FirstWanted(versions, wanted)
  {
    for i := 0 to |versions|
      invariant FirstWanted(versions, wanted) == FirstWanted(versions[i..], wanted)
    {
      if versions[i].version == wanted { return Some(versions[i]); }
    }
    return None;
  }
}
