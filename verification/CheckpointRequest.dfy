/**
 * The requests of compute/checkpoint_agent.py: what `_parse_download_request` accepts, how a job stores it, and that a
 * stored request is accepted again as it is.
 */
module CheckpointRequest {
  import opened Basics
  import opened Texts

  /** A JSON value; Other is a list or a number that is no integer. */
  datatype Json = Null | Boolean(b: bool) | Number(n: int) | Text(s: string) | Object(fields: map<string, Json>) | Other

  datatype Source = Source(repo: string, filename: string, revision: string)

  /** A parsed request; its fingerprint is itself, SHA-256 being free of collisions. */
  datatype Request = Request(source: Source, target: string, sha256: string, size: Option<nat>, key: string)

  datatype Fault = InvalidRequest | InvalidSource

  datatype Parsed<+T> = Ok(value: T) | Err(fault: Fault) {
    predicate IsFailure() {
      Err?
    }
    function PropagateFailure<U>(): Parsed<U>
      requires Err?
    {
      Err(fault)
    }
    function Extract(): T
      requires Ok?
    {
      value
    }
  }

  // ----- text ------------------------------------------------------------------------------------

  predicate Alphanumeric(c: char) {
    'A' <= c <= 'Z' || 'a' <= c <= 'z' || '0' <= c <= '9'
  }

  predicate WordChar(c: char) {
    Alphanumeric(c) || c == '.' || c == '_' || c == '-'
  }

  /** REVISION_RE and PATH_PART_RE. */
  predicate Word(s: string) {
    1 <= |s| <= 128 && Alphanumeric(s[0]) && forall i | 0 <= i < |s| :: WordChar(s[i])
  }

  /** REPO_PART_RE. */
  predicate RepoPart(s: string) {
    1 <= |s| <= 96 && Alphanumeric(s[0]) && Alphanumeric(s[|s| - 1]) && forall i | 0 <= i < |s| :: WordChar(s[i])
  }

  /** IDEMPOTENCY_RE. */
  predicate Key(s: string) {
    1 <= |s| <= 128 && Alphanumeric(s[0]) && forall i | 0 <= i < |s| :: WordChar(s[i]) || s[i] == ':'
  }

  /** SHA256_RE. */
  predicate Digest(s: string) {
    |s| == 64 && forall i | 0 <= i < |s| :: '0' <= s[i] <= '9' || 'a' <= s[i] <= 'f' || 'A' <= s[i] <= 'F'
  }

  predicate TwoDots(s: string) {
    exists i :: 0 <= i < |s| - 1 && s[i] == s[i + 1] == '.'
  }

  function LowerChar(c: char): char {
    if 'A' <= c <= 'Z' then c - 'A' + 'a' else c
  }

  function Lower(s: string): (r: string)
    ensures |r| == |s| && forall i | 0 <= i < |s| :: r[i] == LowerChar(s[i])
  {
    seq(|s|, i requires 0 <= i < |s| => LowerChar(s[i]))
  }

  /** `"/".join`. */
  function Join(parts: seq<string>): string {
    if parts == [] then "" else if |parts| == 1 then parts[0] else parts[0] + "/" + Join(parts[1..])
  }

  lemma {:induction false} JoinSplit(s: string)
    ensures Join(Split(s)) == s
  {
    if s != "" {
      JoinSplit(s[1..]);
      var rest := Split(s[1..]);
      if s[0] == '/' {
        assert ([""] + rest)[1..] == rest;
        assert "" + "/" + s[1..] == s;
      } else {
        var parts := [[s[0]] + rest[0]] + rest[1..];
        assert parts[1..] == rest[1..];
        assert s == [s[0]] + s[1..];
      }
    }
  }

  predicate EndsWith(s: string, end: string) {
    |end| <= |s| && s[|s| - |end|..] == end
  }

  // ----- fields ----------------------------------------------------------------------------------

  predicate RepoId(s: string) {
    |s| <= 192 && var parts := Split(s);
    |parts| == 2 && (forall i | 0 <= i < 2 :: RepoPart(parts[i])) && !(exists i :: 0 <= i < 2 && TwoDots(parts[i]))
  }

  predicate Revision(s: string) {
    Word(s) && !TwoDots(s)
  }

  predicate Path(s: string) {
    s != "" && |s| <= 512 && '\\' !in s && var parts := Split(s);
    (forall i | 0 <= i < |parts| :: Word(parts[i])) && EndsWith(parts[|parts| - 1], ".safetensors")
  }

  /** No slash within, and at least one part: splitting undoes joining. */
  lemma {:induction false} SplitJoin(parts: seq<string>)
    requires parts != [] && forall part | part in parts :: '/' !in part
    ensures Split(Join(parts)) == parts
  {
    SplitNothing(parts[0]);
    if |parts| > 1 {
      SplitJoin(parts[1..]);
      assert parts == [parts[0]] + parts[1..];
      SplitConcat(parts[0], Join(parts[1..]));
      assert parts[0] + "/" + Join(parts[1..]) == Join(parts);
    } else {
      assert parts == [parts[0]];
    }
  }

  /** A path never leads out of the directory it is relative to, nor to a hidden file. */
  lemma PathStaysBelow(s: string)
    requires Path(s)
    ensures s[0] != '/' && '\\' !in s && |s| <= 512 && EndsWith(s, ".safetensors")
    ensures forall part | part in Split(s) :: part != "" && part != "." && part != ".." && part[0] != '.' && |part| <= 128
  {
    hide Split;
    var parts := Split(s);
    LastPartEnds(s);
    EndsTwice(s, parts[|parts| - 1], ".safetensors");
    FirstPart(s);
    forall part | part in parts
      ensures Word(part)
    {
      var i :| 0 <= i < |parts| && parts[i] == part;
    }
  }

  lemma FirstPart(s: string)
    requires s != "" && Split(s)[0] != ""
    ensures s[0] != '/'
  {
  }

  lemma {:induction false} LastPartEnds(s: string)
    ensures EndsWith(s, Split(s)[|Split(s)| - 1])
  {
    if s != "" {
      LastPartEnds(s[1..]);
      var rest, last := Split(s[1..]), Split(s)[|Split(s)| - 1];
      assert s == [s[0]] + s[1..];
      if |rest| > 1 || s[0] == '/' {
        assert last == rest[|rest| - 1];
        EndsAfter(s[0], s[1..], last);
      } else {
        OnePart(s[1..]);
        assert last == s;
      }
    }
  }

  lemma EndsAfter(c: char, s: string, end: string)
    requires EndsWith(s, end)
    ensures EndsWith([c] + s, end)
  {
    assert ([c] + s)[|s| + 1 - |end|..] == s[|s| - |end|..];
  }

  lemma EndsTwice(s: string, last: string, end: string)
    requires EndsWith(s, last) && EndsWith(last, end)
    ensures EndsWith(s, end)
  {
    assert s[|s| - |end|..] == s[|s| - |last|..][|last| - |end|..];
  }

  lemma {:induction false} OnePart(s: string)
    requires |Split(s)| == 1
    ensures Split(s) == [s]
  {
    if s != "" {
      OnePart(s[1..]);
      assert s == [s[0]] + s[1..];
    }
  }

  /** A repository is an owner and a name, and nothing else is one. */
  lemma RepoIdIff(s: string)
    ensures RepoId(s) ==> |s| <= 192 && exists owner, name ::
      s == owner + "/" + name && RepoPart(owner) && RepoPart(name) && !TwoDots(owner) && !TwoDots(name)
  {
    hide Split, RepoPart, TwoDots;
    if RepoId(s) {
      var parts := Split(s);
      JoinSplit(s);
      assert parts == [parts[0], parts[1]] && parts[1..] == [parts[1]];
      assert s == parts[0] + "/" + parts[1];
    }
  }

  lemma RepoIdOf(owner: string, name: string)
    requires RepoPart(owner) && RepoPart(name) && !TwoDots(owner) && !TwoDots(name) && |owner| + 1 + |name| <= 192
    ensures RepoId(owner + "/" + name)
  {
    hide Split, TwoDots;
    assert '/' !in owner && '/' !in name;
    SplitConcat(owner, name);
    SplitNothing(owner);
    SplitNothing(name);
  }

  /** And any file in any directories of such names is a path. */
  lemma PathsAreAccepted(parts: seq<string>)
    requires parts != [] && (forall i | 0 <= i < |parts| :: Word(parts[i])) && EndsWith(parts[|parts| - 1], ".safetensors")
    requires |Join(parts)| <= 512
    ensures Path(Join(parts))
  {
    hide Split;
    forall part | part in parts
      ensures '/' !in part && '\\' !in part
    {
      var i :| 0 <= i < |parts| && parts[i] == part;
      assert forall k | 0 <= k < |part| :: WordChar(part[k]);
    }
    SplitJoin(parts);
    JoinHasNo(parts);
  }

  lemma {:induction false} JoinHasNo(parts: seq<string>)
    requires parts != [] && forall part | part in parts :: '\\' !in part
    ensures '\\' !in Join(parts)
  {
    if |parts| > 1 {
      JoinHasNo(parts[1..]);
    }
  }

  function ValidateRepoId(value: Json): Parsed<string> {
    if value.Text? && RepoId(value.s) then Ok(value.s) else Err(InvalidSource)
  }

  function ValidateRevision(value: Json): Parsed<string> {
    if value.Text? && Revision(value.s) then Ok(value.s) else Err(InvalidSource)
  }

  /** `_validate_relative_path`. */
  function ValidatePath(value: Json): Parsed<string> {
    if value.Text? && Path(value.s) then Ok(Join(Split(value.s))) else Err(InvalidRequest)
  }

  function Get(fields: map<string, Json>, name: string): Json {
    if name in fields then fields[name] else Null
  }

  const FIELDS: set<string> := {"source", "target_name", "expected_sha256", "expected_size", "idempotency_key"}
  const SOURCE_FIELDS: set<string> := {"type", "repo_id", "filename", "revision"}

  predicate SizeOk(size: Json, maximum: nat) {
    size.Null? || (size.Number? && 1 <= size.n <= maximum)
  }

  function ParseSource(fields: map<string, Json>): Parsed<Source> {
    var repo :- ValidateRepoId(Get(fields, "repo_id"));
    var filename :- ValidatePath(Get(fields, "filename"));
    var revision :- ValidateRevision(Get(fields, "revision"));
    Ok(Source(repo, filename, revision))
  }

  /** `_parse_download_request`. */
  function Parse(body: Json, maximum: nat): Parsed<Request> {
    if !body.Object? || !(body.fields.Keys <= FIELDS) then Err(InvalidRequest)
    else
      var source, sha256 := Get(body.fields, "source"), Get(body.fields, "expected_sha256");
      var size, key := Get(body.fields, "expected_size"), Get(body.fields, "idempotency_key");
      if !source.Object? || source.fields.Keys != SOURCE_FIELDS || Get(source.fields, "type") != Text("huggingface") then
        Err(InvalidSource)
      else if !(sha256.Text? && Digest(sha256.s)) || !SizeOk(size, maximum) || !(key.Text? && Key(key.s)) then
        Err(InvalidRequest)
      else
        var from :- ParseSource(source.fields);
        var target :- ValidatePath(Get(body.fields, "target_name"));
        Ok(Request(from, target, Lower(sha256.s), if size.Number? then Some(size.n) else None, key.s))
  }

  // ----- stored requests -------------------------------------------------------------------------

  function SourceJson(source: Source): Json {
    Object(map["type" := Text("huggingface"), "repo_id" := Text(source.repo), "filename" := Text(source.filename),
               "revision" := Text(source.revision)])
  }

  /** The fields of a job that `_load_state` parses again. */
  function Stored(r: Request): Json {
    Object(map["source" := SourceJson(r.source), "target_name" := Text(r.target), "expected_sha256" := Text(r.sha256),
               "expected_size" := if r.size.Some? then Number(r.size.value) else Null, "idempotency_key" := Text(r.key)])
  }

  lemma StoredIsOne(a: Request, b: Request)
    requires Stored(a) == Stored(b)
    ensures a == b
  {
    var x, y := Stored(a).fields, Stored(b).fields;
    assert x["target_name"] == y["target_name"] && x["expected_sha256"] == y["expected_sha256"];
    assert x["expected_size"] == y["expected_size"] && x["idempotency_key"] == y["idempotency_key"];
    var s, u := x["source"].fields, y["source"].fields;
    assert x["source"] == y["source"];
    assert s["repo_id"] == u["repo_id"] && s["filename"] == u["filename"] && s["revision"] == u["revision"];
  }

  /** What every request of a job satisfies. */
  predicate RequestOk(r: Request, maximum: nat) {
    && RepoId(r.source.repo) && Path(r.source.filename) && Revision(r.source.revision) && Path(r.target)
    && Digest(r.sha256) && Lower(r.sha256) == r.sha256
    && (r.size.Some? ==> 1 <= r.size.value <= maximum)
    && Key(r.key)
  }

  lemma LowerTwice(s: string)
    ensures Lower(Lower(s)) == Lower(s)
    ensures Digest(s) ==> Digest(Lower(s))
  {
  }

  lemma PathIsKept(value: Json)
    ensures ValidatePath(value).Ok? ==> value == Text(ValidatePath(value).value) && Path(value.s)
  {
    hide Path;
    if value.Text? {
      JoinSplit(value.s);
    }
  }

  /** What is accepted is what the check asks for. */
  lemma ParsedIsOk(body: Json, maximum: nat)
    ensures Parse(body, maximum).Ok? ==> RequestOk(Parse(body, maximum).value, maximum)
    ensures Parse(body, maximum).Ok? ==> Parse(body, maximum).value.sha256 != "" && SmallHex(Parse(body, maximum).value.sha256)
  {
    hide Path, RepoId, Revision, Digest, Key, ValidatePath, SmallHex;
    if Parse(body, maximum).Ok? {
      var source := Get(body.fields, "source").fields;
      PathIsKept(Get(source, "filename"));
      PathIsKept(Get(body.fields, "target_name"));
      LowerTwice(Get(body.fields, "expected_sha256").s);
      LowerIsSmall(Get(body.fields, "expected_sha256").s);
    }
  }

  /** Digits, and letters without capitals. */
  predicate SmallHex(s: string) {
    forall i | 0 <= i < |s| :: '0' <= s[i] <= '9' || 'a' <= s[i] <= 'f'
  }

  /** Lower case changes capitals only, each into its own letter. */
  lemma LowerIsSmall(s: string)
    requires Digest(s)
    ensures SmallHex(Lower(s)) && Lower(s) != "" && (SmallHex(s) ==> Lower(s) == s)
    ensures forall i | 0 <= i < |s| && 'A' <= s[i] :: Lower(s)[i] as int - 'a' as int == if s[i] < 'a' then s[i] as int - 'A' as int else s[i] as int - 'a' as int
  {
  }

  /** Fields that are none of a request's, or of a source's, or a missing one of a source's are refused. */
  lemma OtherFieldsAreRefused(body: Json, maximum: nat, field: string)
    requires body.Object? && field in body.fields && field != "source" && field != "target_name"
    requires field != "expected_sha256" && field != "expected_size" && field != "idempotency_key"
    ensures Parse(body, maximum) == Err(InvalidRequest)
  {
    assert field in body.fields.Keys && field !in FIELDS;
  }

  lemma SourceFieldsAreExact(body: Json, maximum: nat)
    requires Parse(body, maximum).Ok?
    ensures Get(body.fields, "source").Object?
    ensures forall field :: field in Get(body.fields, "source").fields <==>
      field == "type" || field == "repo_id" || field == "filename" || field == "revision"
  {
    hide Path, RepoId, Revision, Digest, Key, ParseSource;
    var source := Get(body.fields, "source");
    assert source.fields.Keys == SOURCE_FIELDS;
  }

  lemma SourceReparses(source: Source)
    ensures ParseSource(SourceJson(source).fields) == Ok(source) <==>
      RepoId(source.repo) && Path(source.filename) && Revision(source.revision)
  {
    hide Path, RepoId, Revision;
    JoinSplit(source.filename);
  }

  /** Exactly the requests that satisfy it are read back from a job as they are. */
  lemma ReparsesIff(r: Request, maximum: nat)
    ensures Parse(Stored(r), maximum) == Ok(r) <==> RequestOk(r, maximum)
  {
    hide Path, RepoId, Revision, Digest, Key, ParseSource;
    var body, from := Stored(r).fields, SourceJson(r.source).fields;
    assert body.Keys == FIELDS && from.Keys == SOURCE_FIELDS;
    SourceReparses(r.source);
    JoinSplit(r.target);
    LowerTwice(r.sha256);
  }

  /** Parsing is idempotent: what an accepted request was stored as is accepted again, with the same result. */
  lemma ParseIsIdempotent(body: Json, maximum: nat)
    requires Parse(body, maximum).Ok?
    ensures Parse(Stored(Parse(body, maximum).value), maximum) == Parse(body, maximum)
  {
    hide Parse, RequestOk;
    ParsedIsOk(body, maximum);
    ReparsesIff(Parse(body, maximum).value, maximum);
  }

  /** A body with every field, null where it had none, and its digest in lower case. */
  function Normal(body: Json): Json
    requires body.Object?
  {
    var sha256 := Get(body.fields, "expected_sha256");
    Object(map["source" := Get(body.fields, "source"), "target_name" := Get(body.fields, "target_name"),
               "expected_sha256" := if sha256.Text? then Text(Lower(sha256.s)) else sha256,
               "expected_size" := Get(body.fields, "expected_size"), "idempotency_key" := Get(body.fields, "idempotency_key")])
  }

  lemma SourceIsStored(fields: map<string, Json>)
    requires fields.Keys == SOURCE_FIELDS && Get(fields, "type") == Text("huggingface") && ParseSource(fields).Ok?
    ensures SourceJson(ParseSource(fields).value) == Object(fields)
  {
    hide Path, RepoId, Revision, ValidatePath;
    PathIsKept(Get(fields, "filename"));
    assert SourceJson(ParseSource(fields).value).fields == fields;
  }

  /** Nothing else of a body is changed or lost. */
  lemma StoredIsNormal(body: Json, maximum: nat)
    requires Parse(body, maximum).Ok?
    ensures Stored(Parse(body, maximum).value) == Normal(body)
  {
    hide Path, RepoId, Revision, Digest, Key, ParseSource, ValidatePath, SourceJson;
    SourceIsStored(Get(body.fields, "source").fields);
    PathIsKept(Get(body.fields, "target_name"));
  }

  /** So two bodies make the same request, and share an idempotency key without conflict, exactly when they differ in
      nothing else. */
  lemma SameRequestIff(a: Json, b: Json, maximum: nat)
    requires Parse(a, maximum).Ok? && Parse(b, maximum).Ok?
    ensures Parse(a, maximum) == Parse(b, maximum) <==> Normal(a) == Normal(b)
  {
    hide Parse, Stored, Normal;
    StoredIsNormal(a, maximum);
    StoredIsNormal(b, maximum);
    ParseIsIdempotent(a, maximum);
    ParseIsIdempotent(b, maximum);
  }
}
