/**
 * What banana_backup/store.py uploads and downloads: the framing and encryption of banana_backup/crypto.py, the parts,
 * and the limits that banana_backup/git.py puts on a fetched branch.
 *
 * age, SHA-256 and the JSON parser are ideal (Ideal), which tools can be (SomeToolsAreIdeal).
 */
module BackupTransfer {
  import opened Basics
  import SnapshotIds
  import opened Texts

  newtype Byte = x: int | 0 <= x < 256
  type Bytes = seq<Byte>

  const MIB: nat := 1024 * 1024
  const PART_BYTES: nat := 32 * MIB
  const OVERHEAD: nat := 4 * MIB
  const INDEX_BYTES: nat := 128 * 1024
  const MAX_PARTS: nat := 34
  const MAX_ENTRIES: nat := 36
  const NEWLINE: Byte := 10

  // ----- what is printed -------------------------------------------------------------------------

  /** What crypto.py binds into a package: the product, the series' name and the snapshot's ID. */
  datatype Context = Context(product: string, series: string, snapshot: string)
  datatype Metadata = Metadata(schema: nat, context: Context, bytes: nat, sha256: string)

  /** Characters that a JSON string holds as they are. */
  predicate Plain(s: string) {
    forall i | 0 <= i < |s| :: ' ' <= s[i] <= '~' && s[i] != '"' && s[i] != '\\'
  }

  /** What `settings` and `context` let through. */
  predicate ContextFits(c: Context) {
    && (c.product == "BananaWiki" || c.product == "BananaChat" || c.product == "BananaVibe")
    && 1 <= |c.series| <= 48 && (forall i | 0 <= i < |c.series| :: 'a' <= c.series[i] <= 'z' || '0' <= c.series[i] <= '9' || c.series[i] == '-')
    && SnapshotIds.SnapshotId(c.snapshot)
  }

  predicate HexDigest(s: string) {
    |s| == 64 && Hex(s)
  }

  /** Metadata that an upload can make. */
  predicate Occurs(m: Metadata) {
    m.schema == 1 && ContextFits(m.context) && m.bytes <= 1024 * MIB && HexDigest(m.sha256)
  }

  /** ASCII text as bytes. */
  function Encoded(s: string): (r: Bytes)
    ensures |r| == |s|
  {
    seq(|s|, i requires 0 <= i < |s| => if s[i] as int < 128 then s[i] as int as Byte else 0)
  }

  function Pair(name: string, value: string): string {
    "\"" + name + "\": \"" + value + "\""
  }

  /** A value between what stands before it and its delimiter, and the rest. */
  function Field(before: string, value: string, delimiter: char, rest: string): string {
    before + (value + [delimiter] + rest)
  }

  /** `json.dumps` of the metadata, with sorted keys. */
  function Dumps(m: Metadata): string {
    Field("{\"bytes\": ", Decimal(m.bytes), ',', Field(" \"product\": \"", m.context.product, '"', DumpsRest(m)))
  }

  function DumpsRest(m: Metadata): string {
    Field(", \"schema\": ", Decimal(m.schema), ',', Field(" \"series\": \"", m.context.series, '"',
    Field(", \"sha256\": \"", m.sha256, '"', Field(", \"snapshot\": \"", m.context.snapshot, '"', "}"))))
  }

  function Magic(): Bytes {
    Encoded("BananaSuite backup v1") + [NEWLINE]
  }

  /** age for one recipient, SHA-256, and the JSON parser. */
  datatype Tools = Tools(
    header: nat,
    encrypt: Bytes -> Bytes,
    decrypt: Bytes -> Option<Bytes>,
    digest: Bytes -> string,
    loads: Bytes -> Option<Metadata>)

  /** The chunks of the payload of an age file: 64 KiB each, at least one. */
  function Chunks(n: nat): nat {
    if n == 0 then 1 else (n + 65_535) / 65_536
  }

  /** What age adds: a header, a 16-byte nonce, and a 16-byte tag for every chunk of the plaintext. */
  function Added(t: Tools, n: nat): nat {
    t.header + 16 + 16 * Chunks(n)
  }

  /** age decrypts what it encrypted; a digest is 64 hexadecimal digits; metadata that an upload prints reads back. */
  ghost predicate Ideal(t: Tools) {
    && t.header <= MIB
    && (forall x :: t.decrypt(t.encrypt(x)) == Some(x))
    && (forall x :: |t.encrypt(x)| == |x| + Added(t, |x|))
    && (forall x :: HexDigest(t.digest(x)))
    && (forall m | Occurs(m) :: t.loads(Encoded(Dumps(m)) + [NEWLINE]) == Some(m))
  }

  // ----- framing ---------------------------------------------------------------------------------

  /** `readline(limit)`: through the first newline, at most `limit` bytes. */
  function LineLength(s: Bytes, limit: nat): (n: nat)
    ensures n <= |s| && n <= limit
  {
    if s == [] || limit == 0 then 0
    else if s[0] == NEWLINE then 1
    else 1 + LineLength(s[1..], limit - 1)
  }

  lemma {:induction false} ReadsLine(line: Bytes, rest: Bytes, limit: nat)
    requires NEWLINE !in line && |line| + 1 <= limit
    ensures LineLength(line + [NEWLINE] + rest, limit) == |line| + 1
  {
    var s := line + [NEWLINE] + rest;
    if line != [] {
      assert s[1..] == line[1..] + [NEWLINE] + rest;
      ReadsLine(line[1..], rest, limit - 1);
    }
  }

  /** What `encrypt` pipes into age. */
  function Wrapped(t: Tools, package: Bytes, context: Context): Bytes {
    Magic() + (Encoded(Dumps(Metadata(1, context, |package|, t.digest(package)))) + [NEWLINE] + package)
  }

  function Sealed(t: Tools, package: Bytes, context: Context): Bytes {
    t.encrypt(Wrapped(t, package, context))
  }

  datatype Error = Failed | Unauthenticated | TooLarge | Format | Foreign | Damaged | BadTree | BadIndex | BadPart
  datatype Result<+T> = Ok(value: T) | Err(error: Error)

  /** `decrypt`. */
  function Unseal(t: Tools, ciphertext: Bytes, context: Context, maximum: nat): Result<Bytes> {
    match t.decrypt(ciphertext)
    case None => Err(Unauthenticated)
    case Some(wrapped) =>
      if |wrapped| > maximum + 16_384 then Err(TooLarge)
      else
        var first := LineLength(wrapped, 128);
        if wrapped[..first] != Magic() then Err(Format)
        else
          var rest := wrapped[first..];
          var second := LineLength(rest, 16_384);
          match t.loads(rest[..second])
          case None => Err(Failed)
          case Some(m) =>
            if m.schema != 1 || m.context != context || !(0 < m.bytes <= maximum) then Err(Foreign)
            else
              var payload := rest[second..];
              if |payload| != m.bytes || t.digest(payload) != m.sha256 then Err(Damaged) else Ok(payload)
  }

  /** What was decrypted is the first line, a line that reads as metadata for this context, and a package of the length and
      the digest it says. */
  ghost predicate Unwraps(t: Tools, ciphertext: Bytes, line: Bytes, m: Metadata, package: Bytes, context: Context, maximum: nat) {
    && t.decrypt(ciphertext) == Some(Magic() + line + package) && t.loads(line) == Some(m)
    && m == Metadata(1, context, |package|, t.digest(package)) && 0 < |package| <= maximum
  }

  /** Only a package sealed for this very context, product, series and snapshot, whole and unchanged, is given back. */
  lemma UnsealRefuses(t: Tools, ciphertext: Bytes, context: Context, maximum: nat)
    ensures var r := Unseal(t, ciphertext, context, maximum);
      r.Ok? ==> exists line, m :: Unwraps(t, ciphertext, line, m, r.value, context, maximum)
  {
    hide LineLength, Magic;
    var r := Unseal(t, ciphertext, context, maximum);
    if r.Ok? {
      var wrapped := t.decrypt(ciphertext).value;
      var first := LineLength(wrapped, 128);
      var rest := wrapped[first..];
      var second := LineLength(rest, 16_384);
      assert wrapped == Magic() + rest[..second] + rest[second..];
      assert Unwraps(t, ciphertext, rest[..second], t.loads(rest[..second]).value, r.value, context, maximum);
    }
  }

  /** A package sealed for another product, series or snapshot is refused. */
  lemma ForeignIsRefused(t: Tools, package: Bytes, context: Context, other: Context, maximum: nat)
    requires Ideal(t) && ContextFits(context) && 0 < |package| <= maximum <= 1024 * MIB && other != context
    ensures Unseal(t, Sealed(t, package, context), other, maximum) == Err(Foreign)
  {
    hide Dumps, ContextFits, LineLength, Magic;
    WrappedLines(t, package, context);
    var w := Wrapped(t, package, context);
    assert t.decrypt(t.encrypt(w)) == Some(w);
    assert Occurs(About(t, package, context)) by {
      AboutOccurs(t, package, context);
    }
    MagicIsShort();
  }

  lemma AboutOccurs(t: Tools, package: Bytes, context: Context)
    requires Ideal(t) && ContextFits(context) && |package| <= 1024 * MIB
    ensures Occurs(About(t, package, context))
  {
    hide ContextFits;
  }

  lemma PlainJoins(a: string, b: string)
    requires Plain(a) && Plain(b)
    ensures Plain(a + b)
  {
  }

  lemma SecondFormIsPlain(s: string)
    requires SnapshotIds.SecondForm(s)
    ensures Plain(s)
  {
    assert s == s[..8] + ("T" + s[9..]);
    PlainJoins("T", s[9..]);
    PlainJoins(s[..8], "T" + s[9..]);
  }

  lemma MicroFormIsPlain(s: string)
    requires SnapshotIds.MicroForm(s)
    ensures Plain(s)
  {
    assert s == s[..15] + ("." + s[16..]);
    SecondFormIsPlain(s[..15]);
    PlainJoins(".", s[16..]);
    PlainJoins(s[..15], "." + s[16..]);
  }

  /** Snapshot IDs need no escapes. */
  lemma IdIsPlain(id: string)
    requires SnapshotIds.SnapshotId(id)
    ensures Plain(id) && |id| <= 32
  {
    hide SnapshotIds.SecondForm, SnapshotIds.MicroForm;
    var n := |id| - 10;
    assert id == id[..n] + ("Z-" + id[n + 2..]);
    if n == 15 {
      SecondFormIsPlain(id[..n]);
    } else {
      MicroFormIsPlain(id[..n]);
    }
    PlainJoins("Z-", id[n + 2..]);
    PlainJoins(id[..n], "Z-" + id[n + 2..]);
  }

  /** No control characters. */
  predicate Printable(s: string) {
    forall i | 0 <= i < |s| :: ' ' <= s[i] <= '~'
  }

  lemma FieldIs(before: string, value: string, delimiter: char, rest: string)
    requires Printable(before) && Printable(value) && ' ' <= delimiter <= '~' && Printable(rest)
    ensures Printable(Field(before, value, delimiter, rest))
    ensures |Field(before, value, delimiter, rest)| == |before| + |value| + 1 + |rest|
  {
  }

  /** What Occurs says of the texts in the metadata. */
  lemma TextsFit(m: Metadata)
    requires Occurs(m)
    ensures |Decimal(m.bytes)| <= 10 && |Decimal(m.schema)| == 1 && |m.context.snapshot| <= 32
    ensures Plain(m.context.product) && Plain(m.context.series) && Plain(m.context.snapshot) && Plain(m.sha256)
    ensures |m.context.product| == 10 && |m.context.series| <= 48 && |m.sha256| == 64
  {
    hide SnapshotIds.SnapshotId;
    IdIsPlain(m.context.snapshot);
    assert Power10(10) == 10_000_000_000;
    DecimalLength(m.bytes, 10);
  }

  lemma RestLine(m: Metadata)
    requires Occurs(m)
    ensures Printable(DumpsRest(m)) && |DumpsRest(m)| <= 250
  {
    hide Occurs, Field, Decimal;
    TextsFit(m);
    FieldIs(", \"snapshot\": \"", m.context.snapshot, '"', "}");
    var d := Field(", \"snapshot\": \"", m.context.snapshot, '"', "}");
    FieldIs(", \"sha256\": \"", m.sha256, '"', d);
    var c := Field(", \"sha256\": \"", m.sha256, '"', d);
    FieldIs(" \"series\": \"", m.context.series, '"', c);
    var b := Field(" \"series\": \"", m.context.series, '"', c);
    FieldIs(", \"schema\": ", Decimal(m.schema), ',', b);
  }

  lemma MetadataLine(m: Metadata)
    requires Occurs(m)
    ensures Printable(Dumps(m)) && |Dumps(m)| <= 400
  {
    hide Occurs, Field, Decimal, DumpsRest;
    TextsFit(m);
    RestLine(m);
    FieldIs(" \"product\": \"", m.context.product, '"', DumpsRest(m));
    FieldIs("{\"bytes\": ", Decimal(m.bytes), ',', Field(" \"product\": \"", m.context.product, '"', DumpsRest(m)));
  }

  lemma PrintableHasNoNewline(s: string)
    requires Printable(s)
    ensures NEWLINE !in Encoded(s)
  {
  }

  /** The metadata of an upload. */
  function About(t: Tools, package: Bytes, context: Context): Metadata {
    Metadata(1, context, |package|, t.digest(package))
  }

  lemma WrappedLines(t: Tools, package: Bytes, context: Context)
    requires Ideal(t) && ContextFits(context) && |package| <= 1024 * MIB
    ensures var w, line := Wrapped(t, package, context), Encoded(Dumps(About(t, package, context))) + [NEWLINE];
      && LineLength(w, 128) == |Magic()| && w[..|Magic()|] == Magic() && w[|Magic()|..] == line + package
      && LineLength(line + package, 16_384) == |line| <= 401
      && (line + package)[..|line|] == line && (line + package)[|line|..] == package
  {
    hide Dumps, ContextFits;
    var text := Encoded(Dumps(About(t, package, context)));
    var rest := text + [NEWLINE] + package;
    var magic := Encoded("BananaSuite backup v1");
    MetadataLine(About(t, package, context));
    PrintableHasNoNewline(Dumps(About(t, package, context)));
    PrintableHasNoNewline("BananaSuite backup v1");
    ReadsLine(text, package, 16_384);
    ReadsLine(magic, rest, 128);
  }

  /** Decrypting what was encrypted gives the package back, whatever its bytes. */
  lemma UnsealSealed(t: Tools, package: Bytes, context: Context, maximum: nat)
    requires Ideal(t) && ContextFits(context) && 0 < |package| <= maximum <= 1024 * MIB
    ensures Unseal(t, Sealed(t, package, context), context, maximum) == Ok(package)
  {
    hide Dumps, ContextFits, LineLength, Magic;
    WrappedLines(t, package, context);
    var w := Wrapped(t, package, context);
    assert t.decrypt(t.encrypt(w)) == Some(w);
    assert Occurs(About(t, package, context));
    MagicIsShort();
  }

  lemma MagicIsShort()
    ensures |Magic()| == 22
  {
  }

  /** The encrypted package leaves room for the index below every limit. */
  lemma SealedFits(t: Tools, package: Bytes, context: Context, maximum: nat)
    requires Ideal(t) && ContextFits(context) && |package| <= maximum <= 1024 * MIB
    ensures 0 < |Sealed(t, package, context)| <= maximum + OVERHEAD - INDEX_BYTES
  {
    hide Dumps, ContextFits;
    WrappedLines(t, package, context);
    MagicIsShort();
    var w := Wrapped(t, package, context);
    assert |w| <= maximum + 423;
    assert Chunks(|w|) <= 16_385;
  }

  // ----- parts -----------------------------------------------------------------------------------

  function Split(s: Bytes): seq<Bytes> {
    if s == [] then []
    else if |s| <= PART_BYTES then [s]
    else [s[..PART_BYTES]] + Split(s[PART_BYTES..])
  }

  function Join(parts: seq<Bytes>): Bytes {
    if parts == [] then [] else parts[0] + Join(parts[1..])
  }

  lemma {:induction false} JoinAppends(parts: seq<Bytes>, last: Bytes)
    ensures Join(parts + [last]) == Join(parts) + last
  {
    if parts == [] {
      assert parts + [last] == [last];
      assert Join([last]) == last + Join([]);
    } else {
      assert (parts + [last])[1..] == parts[1..] + [last];
      JoinAppends(parts[1..], last);
    }
  }

  lemma {:induction false} SplitBounds(s: Bytes)
    ensures |Split(s)| == (|s| + PART_BYTES - 1) / PART_BYTES
    ensures forall i | 0 <= i < |Split(s)| :: 0 < |Split(s)[i]| <= PART_BYTES
    decreases |s|
  {
    if |s| > PART_BYTES {
      var rest := s[PART_BYTES..];
      SplitBounds(rest);
      assert |s| == |rest| + PART_BYTES;
      forall i | 0 < i < |Split(s)|
        ensures Split(s)[i] == Split(rest)[i - 1]
      {
      }
    }
  }

  /** Parts are not empty, within the part limit, as few as possible, and join to the whole. */
  lemma {:induction false} SplitJoins(s: Bytes)
    ensures Join(Split(s)) == s
    ensures |Split(s)| == (|s| + PART_BYTES - 1) / PART_BYTES
    ensures forall i | 0 <= i < |Split(s)| :: 0 < |Split(s)[i]| <= PART_BYTES
    decreases |s|
  {
    SplitBounds(s);
    if |s| > PART_BYTES {
      var rest := s[PART_BYTES..];
      SplitJoins(rest);
      assert Split(s)[1..] == Split(rest);
      assert s == s[..PART_BYTES] + rest;
    } else if s != [] {
      assert [s][1..] == [];
      assert Join([s]) == s;
    }
  }

  /** The loop of `upload` that writes the parts. */
  method WriteParts(sealed: Bytes) returns (parts: seq<Bytes>)
    ensures parts == Split(sealed)
  {
    parts := [];
    var at := 0;
    while at < |sealed|
      invariant at <= |sealed|
      invariant parts + Split(sealed[at..]) == Split(sealed)
    {
      var end := if |sealed| - at <= PART_BYTES then |sealed| else at + PART_BYTES;
      var chunk, rest := sealed[at..end], sealed[at..];
      assert end == |sealed| ==> rest == chunk;
      assert end < |sealed| ==> rest[..PART_BYTES] == chunk && rest[PART_BYTES..] == sealed[end..];
      assert Split(rest) == [chunk] + Split(sealed[end..]);
      assert parts + Split(rest) == (parts + [chunk]) + Split(sealed[end..]);
      parts := parts + [chunk];
      at := end;
    }
    assert Split(sealed[at..]) == [];
  }

  // ----- the branch ------------------------------------------------------------------------------

  datatype FileName = IndexJson | Part(number: nat) | Strange(text: nat)

  /** An entry of the branch's tree; regular: a blob of mode 100644. */
  datatype Entry = Entry(name: FileName, regular: bool, content: Bytes)

  datatype PartInfo = PartInfo(name: FileName, bytes: nat, sha256: string)
  datatype Index = Index(schema: nat, context: Context, parts: seq<PartInfo>)

  /** A snapshot branch, and what the text of its index.json says. */
  datatype Snapshot = Snapshot(tree: seq<Entry>, index: Option<Index>)

  predicate EntryOk(e: Entry) {
    && e.regular && (e.name.IndexJson? || (e.name.Part? && e.name.number < 100_000))
    && 0 < |e.content| <= (if e.name.IndexJson? then INDEX_BYTES else PART_BYTES)
  }

  function Total(tree: seq<Entry>): nat {
    if tree == [] then 0 else Total(tree[..|tree| - 1]) + |tree[|tree| - 1].content|
  }

  predicate Distinct(tree: seq<Entry>) {
    forall i, j | 0 <= i < j < |tree| :: tree[i].name != tree[j].name
  }

  predicate Has(tree: seq<Entry>, name: FileName) {
    exists i :: 0 <= i < |tree| && tree[i].name == name
  }

  /** What `fetch` lets through. */
  predicate FetchOk(tree: seq<Entry>, maximum: nat) {
    && (forall i | 0 <= i < |tree| :: EntryOk(tree[i])) && Distinct(tree)
    && Total(tree) <= maximum + OVERHEAD && |tree| <= MAX_ENTRIES && Has(tree, IndexJson)
  }

  /** `entries` are the tree's. */
  ghost predicate Lists(entries: map<FileName, Bytes>, tree: seq<Entry>) {
    && (forall name :: name in entries <==> Has(tree, name))
    && (forall i | 0 <= i < |tree| :: entries[tree[i].name] == tree[i].content)
  }

  /** `fetch`. */
  method Fetch(tree: seq<Entry>, maximum: nat) returns (r: Option<map<FileName, Bytes>>)
    ensures r.Some? <==> FetchOk(tree, maximum)
    ensures r.Some? ==> Lists(r.value, tree)
  {
    hide EntryOk, Distinct, Lists, Total;
    var entries: map<FileName, Bytes>, total: nat := map[], 0;
    FetchedNone(tree);
    for i := 0 to |tree|
      invariant Fetched(tree, i, entries, total)
    {
      var e := tree[i];
      FetchedMore(tree, i, entries, total);
      if !EntryOk(e) || e.name in entries {
        NotFetched(tree, i, entries, total, maximum);
        return None;
      }
      total := total + |e.content|;
      entries := entries[e.name := e.content];
    }
    FetchedAll(tree, entries, total, maximum);
    if total > maximum + OVERHEAD || |tree| > MAX_ENTRIES || IndexJson !in entries {
      return None;
    }
    return Some(entries);
  }

  /** The first `i` entries are read. */
  ghost predicate Fetched(tree: seq<Entry>, i: nat, entries: map<FileName, Bytes>, total: nat) {
    && i <= |tree| && (forall j | 0 <= j < i :: EntryOk(tree[j]))
    && Distinct(tree[..i]) && Lists(entries, tree[..i]) && total == Total(tree[..i])
  }

  lemma FetchedNone(tree: seq<Entry>)
    ensures Fetched(tree, 0, map[], 0)
  {
  }

  lemma FetchedMore(tree: seq<Entry>, i: nat, entries: map<FileName, Bytes>, total: nat)
    requires i < |tree| && Fetched(tree, i, entries, total)
    ensures EntryOk(tree[i]) && tree[i].name !in entries ==>
      Fetched(tree, i + 1, entries[tree[i].name := tree[i].content], total + |tree[i].content|)
  {
    if EntryOk(tree[i]) && tree[i].name !in entries {
      ListsMore(entries, tree, i);
      assert tree[..i + 1][..i] == tree[..i];
    }
  }

  lemma NotFetched(tree: seq<Entry>, i: nat, entries: map<FileName, Bytes>, total: nat, maximum: nat)
    requires i < |tree| && Fetched(tree, i, entries, total) && (!EntryOk(tree[i]) || tree[i].name in entries)
    ensures !FetchOk(tree, maximum)
  {
    if tree[i].name in entries {
      var j :| 0 <= j < |tree[..i]| && tree[..i][j].name == tree[i].name;
      assert tree[j].name == tree[i].name;
    }
  }

  lemma FetchedAll(tree: seq<Entry>, entries: map<FileName, Bytes>, total: nat, maximum: nat)
    requires Fetched(tree, |tree|, entries, total)
    ensures Lists(entries, tree)
    ensures FetchOk(tree, maximum) <==> total <= maximum + OVERHEAD && |tree| <= MAX_ENTRIES && IndexJson in entries
  {
    assert tree[..|tree|] == tree;
  }

  lemma ListsMore(entries: map<FileName, Bytes>, tree: seq<Entry>, i: nat)
    requires i < |tree| && Lists(entries, tree[..i]) && Distinct(tree[..i]) && tree[i].name !in entries
    ensures Lists(entries[tree[i].name := tree[i].content], tree[..i + 1]) && Distinct(tree[..i + 1])
  {
    var next := tree[..i + 1];
    assert next == tree[..i] + [tree[i]];
    assert next[i].name == tree[i].name;
    forall j | 0 <= j < i
      ensures next[j] == tree[..i][j] && next[j].name in entries
    {
      assert Has(tree[..i], tree[..i][j].name);
    }
    forall name | Has(tree[..i], name)
      ensures Has(next, name)
    {
      var j :| 0 <= j < |tree[..i]| && tree[..i][j].name == name;
      assert next[j].name == name;
    }
  }

  // ----- download --------------------------------------------------------------------------------

  predicate ContextOk(index: Index, context: Context) {
    index.schema == 1 && index.context == context && 1 <= |index.parts| <= MAX_PARTS
  }

  /** The branch holds the index and exactly the parts `0 .. n`. */
  ghost predicate Exactly(tree: seq<Entry>, n: nat) {
    forall name :: Has(tree, name) <==> name == IndexJson || (name.Part? && name.number < n)
  }

  function Content(tree: seq<Entry>, name: FileName): Bytes {
    if tree == [] then [] else if tree[0].name == name then tree[0].content else Content(tree[1..], name)
  }

  function Contents(tree: seq<Entry>, n: nat): (r: seq<Bytes>)
    ensures |r| == n && forall i | 0 <= i < n :: r[i] == Content(tree, Part(i))
  {
    seq(n, i requires 0 <= i < n => Content(tree, Part(i)))
  }

  /** A part is what the index says of it. */
  predicate PartOk(t: Tools, info: PartInfo, number: nat, content: Bytes) {
    info.name == Part(number) && info.bytes == |content| && t.digest(content) == info.sha256
  }

  /** Everything `_download` checks before it decrypts. */
  ghost predicate Acceptable(t: Tools, s: Snapshot, context: Context, maximum: nat, authentic: Index -> bool) {
    && FetchOk(s.tree, maximum) && s.index.Some? && ContextOk(s.index.value, context) && authentic(s.index.value)
    && Exactly(s.tree, |s.index.value.parts|)
    && forall i | 0 <= i < |s.index.value.parts| :: PartOk(t, s.index.value.parts[i], i, Content(s.tree, Part(i)))
  }

  lemma {:induction false} ContentIs(tree: seq<Entry>, i: nat)
    requires i < |tree| && Distinct(tree)
    ensures Content(tree, tree[i].name) == tree[i].content
  {
    if i > 0 {
      assert tree[1..][i - 1] == tree[i];
      ContentIs(tree[1..], i - 1);
    }
  }

  lemma ListedContent(entries: map<FileName, Bytes>, tree: seq<Entry>, name: FileName)
    requires Lists(entries, tree) && Distinct(tree) && name in entries
    ensures entries[name] == Content(tree, name)
  {
    var i :| 0 <= i < |tree| && tree[i].name == name;
    ContentIs(tree, i);
  }

  function Names(n: nat): (r: set<FileName>)
    ensures forall name :: name in r <==> name == IndexJson || (name.Part? && name.number < n)
  {
    if n == 0 then {IndexJson} else Names(n - 1) + {Part(n - 1)}
  }

  lemma JoinNothing()
    ensures Join([]) == []
  {
  }

  /** The loop of `_download` over the parts. */
  method Assemble(t: Tools, entries: map<FileName, Bytes>, parts: seq<PartInfo>, ghost tree: seq<Entry>) returns (r: Option<Bytes>)
    requires Lists(entries, tree) && Distinct(tree) && entries.Keys == Names(|parts|)
    ensures r.Some? <==> forall i | 0 <= i < |parts| :: PartOk(t, parts[i], i, Content(tree, Part(i)))
    ensures r.Some? ==> r.value == Join(Contents(tree, |parts|))
  {
    hide Lists, Distinct, Join, Content;
    var ciphertext := [];
    JoinNothing();
    for i := 0 to |parts|
      invariant forall j | 0 <= j < i :: PartOk(t, parts[j], j, Content(tree, Part(j)))
      invariant ciphertext == Join(Contents(tree, i))
    {
      ListedContent(entries, tree, Part(i));
      if !PartOk(t, parts[i], i, entries[Part(i)]) {
        return None;
      }
      ciphertext := ciphertext + entries[Part(i)];
      JoinAppends(Contents(tree, i), Content(tree, Part(i)));
      assert Contents(tree, i + 1) == Contents(tree, i) + [Content(tree, Part(i))];
    }
    return Some(ciphertext);
  }

  /** `_download`; `authentic` is what check_authentication says of an index. */
  method Download(t: Tools, s: Snapshot, context: Context, maximum: nat, authentic: Index -> bool) returns (r: Result<Bytes>)
    ensures r.Ok? == (Acceptable(t, s, context, maximum, authentic)
                      && Unseal(t, Join(Contents(s.tree, |s.index.value.parts|)), context, maximum).Ok?)
    ensures r.Ok? ==> r == Unseal(t, Join(Contents(s.tree, |s.index.value.parts|)), context, maximum)
    ensures r.Ok? ==> s.index.Some? && authentic(s.index.value)
    ensures r.Ok? ==> Total(s.tree) <= maximum + 4 * 1024 * 1024 && |s.tree| <= 36
    ensures r.Ok? ==>
      var index := s.index.value;
      && index.schema == 1 && index.context == context && 1 <= |index.parts| <= 34
      && (forall e | e in s.tree :: e.regular &&
            if e.name == IndexJson then 0 < |e.content| <= 128 * 1024
            else 0 < |e.content| <= 32 * 1024 * 1024 && e.name.Part? && e.name.number < |index.parts|
                 && index.parts[e.name.number] == PartInfo(e.name, |e.content|, t.digest(e.content)))
      && exists line, m :: Unwraps(t, Join(Contents(s.tree, |index.parts|)), line, m, r.value, context, maximum)
  {
    var entries := Fetch(s.tree, maximum);
    if entries.None? {
      return Err(BadTree);
    }
    if s.index.None? || !ContextOk(s.index.value, context) {
      return Err(BadIndex);
    }
    if !authentic(s.index.value) {
      return Err(Unauthenticated);
    }
    var parts := s.index.value.parts;
    assert Exactly(s.tree, |parts|) <==> forall name :: name in entries.value <==> name in Names(|parts|);
    if entries.value.Keys != Names(|parts|) {
      return Err(BadTree);
    }
    var ciphertext := Assemble(t, entries.value, parts, s.tree);
    if ciphertext.None? {
      return Err(BadPart);
    }
    r := Unseal(t, ciphertext.value, context, maximum);
    UnsealRefuses(t, ciphertext.value, context, maximum);
    AcceptableMeans(t, s, context, maximum, authentic);
  }

  lemma {:induction false} ContentOf(tree: seq<Entry>, e: Entry)
    requires Distinct(tree) && e in tree
    ensures Content(tree, e.name) == e.content
  {
    if tree[0] != e {
      assert e in tree[1..];
      var i :| 0 <= i < |tree[1..]| && tree[1..][i] == e;
      assert tree[0].name != tree[i + 1].name;
      ContentOf(tree[1..], e);
    } else {
      assert tree[0].name == e.name;
    }
  }

  /** What the checks before decryption mean, entry by entry. */
  lemma AcceptableMeans(t: Tools, s: Snapshot, context: Context, maximum: nat, authentic: Index -> bool)
    ensures Acceptable(t, s, context, maximum, authentic) ==> s.index.Some? && authentic(s.index.value)
    ensures Acceptable(t, s, context, maximum, authentic) ==>
      var index := s.index.value;
      && index.schema == 1 && index.context == context && 1 <= |index.parts| <= 34
      && (forall e | e in s.tree :: e.regular &&
            if e.name == IndexJson then 0 < |e.content| <= 128 * 1024
            else 0 < |e.content| <= 32 * 1024 * 1024 && e.name.Part? && e.name.number < |index.parts|
                 && index.parts[e.name.number] == PartInfo(e.name, |e.content|, t.digest(e.content)))
  {
    hide Content;
    if Acceptable(t, s, context, maximum, authentic) {
      forall e | e in s.tree && e.name != IndexJson
        ensures e.name.Part? && e.name.number < |s.index.value.parts|
        ensures s.index.value.parts[e.name.number] == PartInfo(e.name, |e.content|, t.digest(e.content))
      {
        assert Has(s.tree, e.name);
        ContentOf(s.tree, e);
      }
    }
  }

  // ----- upload, then download -------------------------------------------------------------------

  /** What `upload` records of the parts. */
  function Infos(t: Tools, parts: seq<Bytes>): (r: seq<PartInfo>)
    ensures |r| == |parts|
    ensures forall i | 0 <= i < |parts| :: r[i] == PartInfo(Part(i), |parts[i]|, t.digest(parts[i]))
  {
    seq(|parts|, i requires 0 <= i < |parts| => PartInfo(Part(i), |parts[i]|, t.digest(parts[i])))
  }

  function Tree(parts: seq<Bytes>, index: Bytes): (r: seq<Entry>)
    ensures |r| == |parts| + 1 && r[|parts|] == Entry(IndexJson, true, index)
    ensures forall i | 0 <= i < |parts| :: r[i] == Entry(Part(i), true, parts[i])
  {
    seq(|parts|, i requires 0 <= i < |parts| => Entry(Part(i), true, parts[i])) + [Entry(IndexJson, true, index)]
  }

  /** What the index records besides: the series' start, and the authentication tag. */
  datatype Seal = Seal(since: string, mac: string)

  predicate SealFits(seal: Seal) {
    SnapshotIds.SnapshotId(seal.since) && HexDigest(seal.mac)
  }

  function NameText(name: FileName): string {
    match name
    case IndexJson => "index.json"
    case Part(number) => "part-" + Digits(number, 5) + ".age"
    case Strange(_) => ""
  }

  function PartText(info: PartInfo): string {
    "    {\n      \"bytes\": " + Decimal(info.bytes) + ",\n      " + Pair("name", NameText(info.name)) + ",\n      "
    + Pair("sha256", info.sha256) + "\n    }"
  }

  function PartTexts(infos: seq<PartInfo>): string {
    if infos == [] then "" else PartText(infos[0]) + (if |infos| == 1 then "" else ",\n") + PartTexts(infos[1..])
  }

  /** The text of index.json: indented, with sorted keys. */
  function IndexText(index: Index, seal: Seal): string {
    "{\n  " + Pair("authenticated_since", seal.since)
    + ",\n  \"authentication\": {\n    " + Pair("mac", seal.mac) + ",\n    " + Pair("scheme", "hmac-sha256-v1") + "\n  },\n  "
    + "\"parts\": [\n" + PartTexts(index.parts) + "\n  ],\n  " + Pair("product", index.context.product)
    + ",\n  \"schema\": " + Decimal(index.schema) + ",\n  " + Pair("series", index.context.series)
    + ",\n  " + Pair("snapshot", index.context.snapshot) + "\n}\n"
  }

  lemma PairLength(name: string, value: string)
    ensures |Pair(name, value)| == |name| + |value| + 6
  {
  }

  lemma PartTextIsShort(info: PartInfo)
    requires info.bytes <= PART_BYTES && HexDigest(info.sha256)
    ensures |PartText(info)| <= 200
  {
    hide Pair, Decimal;
    assert Power10(8) == 100_000_000;
    DecimalLength(info.bytes, 8);
    PairLength("name", NameText(info.name));
    PairLength("sha256", info.sha256);
  }

  lemma {:induction false} PartTextsAreShort(infos: seq<PartInfo>)
    requires forall i | 0 <= i < |infos| :: infos[i].bytes <= PART_BYTES && HexDigest(infos[i].sha256)
    ensures |PartTexts(infos)| <= 202 * |infos|
  {
    hide PartText;
    if infos != [] {
      PartTextIsShort(infos[0]);
      PartTextsAreShort(infos[1..]);
    }
  }

  /** The index of at most 34 parts is far within its limit. */
  lemma IndexFits(index: Index, seal: Seal)
    requires index.schema == 1 && ContextFits(index.context) && SealFits(seal) && |index.parts| <= MAX_PARTS
    requires forall i | 0 <= i < |index.parts| :: index.parts[i].bytes <= PART_BYTES && HexDigest(index.parts[i].sha256)
    ensures 0 < |IndexText(index, seal)| <= INDEX_BYTES
  {
    hide Pair, Decimal, PartTexts, SnapshotIds.SnapshotId;
    PartTextsAreShort(index.parts);
    IdIsPlain(seal.since);
    IdIsPlain(index.context.snapshot);
    DecimalLength(1, 1);
    PairLength("authenticated_since", seal.since);
    PairLength("mac", seal.mac);
    PairLength("scheme", "hmac-sha256-v1");
    PairLength("product", index.context.product);
    PairLength("series", index.context.series);
    PairLength("snapshot", index.context.snapshot);
  }

  /** The index of an upload. */
  function IndexOf(t: Tools, package: Bytes, context: Context): Index {
    Index(1, context, Infos(t, Split(Sealed(t, package, context))))
  }

  /** The branch `upload` pushes. */
  function Uploaded(t: Tools, package: Bytes, context: Context, seal: Seal): Snapshot {
    var index := IndexOf(t, package, context);
    Snapshot(Tree(Split(Sealed(t, package, context)), Encoded(IndexText(index, seal))), Some(index))
  }

  /** The part of `upload` that builds the branch: refused for the package's size, or for the sealed size. */
  method Build(t: Tools, package: Bytes, context: Context, seal: Seal, maximum: nat) returns (s: Option<Snapshot>)
    ensures s.Some? ==> s.value == Uploaded(t, package, context, seal)
    ensures s.Some? <==> 0 < |package| <= maximum && |Sealed(t, package, context)| <= maximum + OVERHEAD
    ensures Ideal(t) && ContextFits(context) && maximum <= 1024 * MIB ==> (s.Some? <==> 0 < |package| <= maximum)
  {
    hide Ideal, ContextFits, Sealed, Split, IndexText, Encoded;
    if !(0 < |package| <= maximum) {
      return None;
    }
    if Ideal(t) && ContextFits(context) && maximum <= 1024 * MIB {
      SealedFits(t, package, context, maximum);
    }
    var sealed := Sealed(t, package, context);
    if |sealed| > maximum + OVERHEAD {
      return None;
    }
    var parts := WriteParts(sealed);
    var infos, tree := [], [];
    for i := 0 to |parts|
      invariant infos == Infos(t, parts)[..i]
      invariant |tree| == i && forall j | 0 <= j < i :: tree[j] == Entry(Part(j), true, parts[j])
    {
      infos := infos + [PartInfo(Part(i), |parts[i]|, t.digest(parts[i]))];
      tree := tree + [Entry(Part(i), true, parts[i])];
    }
    assert infos == Infos(t, parts);
    var index := Index(1, context, infos);
    var text := Encoded(IndexText(index, seal));
    assert tree + [Entry(IndexJson, true, text)] == Tree(parts, text);
    return Some(Snapshot(tree + [Entry(IndexJson, true, text)], Some(index)));
  }

  lemma {:induction false} TotalOfParts(parts: seq<Bytes>, index: Bytes)
    ensures Total(Tree(parts, index)) == |Join(parts)| + |index|
  {
    var tree := Tree(parts, index);
    assert Total(tree) == Total(tree[..|parts|]) + |index|;
    PartsTotal(parts, tree[..|parts|]);
  }

  lemma {:induction false} PartsTotal(parts: seq<Bytes>, tree: seq<Entry>)
    requires |tree| == |parts| && forall i | 0 <= i < |parts| :: tree[i].content == parts[i]
    ensures Total(tree) == |Join(parts)|
  {
    if parts != [] {
      var n := |parts| - 1;
      PartsTotal(parts[..n], tree[..n]);
      assert parts == parts[..n] + [parts[n]];
      JoinAppends(parts[..n], parts[n]);
    }
  }

  lemma TreeHas(parts: seq<Bytes>, text: Bytes)
    ensures Distinct(Tree(parts, text)) && Exactly(Tree(parts, text), |parts|)
    ensures Contents(Tree(parts, text), |parts|) == parts
  {
    var tree := Tree(parts, text);
    assert Has(tree, IndexJson) by {
      assert tree[|parts|].name == IndexJson;
    }
    forall i | 0 <= i < |parts|
      ensures Has(tree, Part(i)) && Content(tree, Part(i)) == parts[i]
    {
      assert tree[i].name == Part(i);
      ContentIs(tree, i);
    }
  }

  /** Every entry of an uploaded branch is within the limits. */
  lemma EntriesOk(parts: seq<Bytes>, text: Bytes)
    requires |parts| <= MAX_PARTS && (forall i | 0 <= i < |parts| :: 0 < |parts[i]| <= PART_BYTES) && 0 < |text| <= INDEX_BYTES
    ensures forall i | 0 <= i < |Tree(parts, text)| :: EntryOk(Tree(parts, text)[i])
  {
    var tree := Tree(parts, text);
    forall i | 0 <= i < |tree|
      ensures EntryOk(tree[i])
    {
      assert tree[i] == if i < |parts| then Entry(Part(i), true, parts[i]) else Entry(IndexJson, true, text);
    }
  }

  /** The text of an uploaded branch's index is within its limit. */
  lemma UploadedIndexFits(t: Tools, package: Bytes, context: Context, seal: Seal)
    requires Ideal(t) && ContextFits(context) && SealFits(seal) && |Split(Sealed(t, package, context))| <= MAX_PARTS
    ensures 0 < |Encoded(IndexText(IndexOf(t, package, context), seal))| <= INDEX_BYTES
  {
    hide Sealed, Split, IndexText, ContextFits, SealFits;
    SplitJoins(Sealed(t, package, context));
    IndexFits(IndexOf(t, package, context), seal);
  }

  lemma UploadedFetches(t: Tools, package: Bytes, context: Context, seal: Seal, maximum: nat)
    requires Ideal(t) && ContextFits(context) && SealFits(seal) && |package| <= maximum <= 1024 * MIB
    ensures FetchOk(Uploaded(t, package, context, seal).tree, maximum)
    ensures 1 <= |Split(Sealed(t, package, context))| <= MAX_PARTS
  {
    hide Ideal, ContextFits, SealFits, Sealed, Split, Join, Total, EntryOk, Distinct, Exactly, Tree, IndexText, Encoded;
    var sealed := Sealed(t, package, context);
    var parts := Split(sealed);
    SealedFits(t, package, context, maximum);
    SplitJoins(sealed);
    UploadedIndexFits(t, package, context, seal);
    var text := Encoded(IndexText(IndexOf(t, package, context), seal));
    EntriesOk(parts, text);
    TotalOfParts(parts, text);
    TreeHas(parts, text);
    ExactlyHasIndex(Tree(parts, text), |parts|);
  }

  lemma ExactlyHasIndex(tree: seq<Entry>, n: nat)
    requires Exactly(tree, n)
    ensures Has(tree, IndexJson)
  {
  }

  /** Every package `upload` accepts by size passes all limits of the download, which gives back the identical bytes. */
  lemma RoundTrip(t: Tools, package: Bytes, context: Context, seal: Seal, maximum: nat, authentic: Index -> bool)
    requires Ideal(t) && ContextFits(context) && SealFits(seal) && 0 < |package| <= maximum <= 1024 * MIB
    requires authentic(IndexOf(t, package, context))
    ensures var s := Uploaded(t, package, context, seal);
      && Acceptable(t, s, context, maximum, authentic)
      && Unseal(t, Join(Contents(s.tree, |s.index.value.parts|)), context, maximum) == Ok(package)
  {
    hide Ideal, ContextFits, SealFits, Sealed, Split, Join, Unseal, FetchOk, Distinct, Exactly, Tree, IndexText, Encoded;
    var sealed := Sealed(t, package, context);
    var parts := Split(sealed);
    UploadedFetches(t, package, context, seal, maximum);
    TreeHas(parts, Encoded(IndexText(IndexOf(t, package, context), seal)));
    SplitJoins(sealed);
    UnsealSealed(t, package, context, maximum);
  }

  /** SHA-256 does not take the branch's parts for the uploaded ones unless they are. */
  ghost predicate NoCollision(t: Tools, tree: seq<Entry>, parts: seq<Bytes>) {
    forall i | 0 <= i < |parts| :: t.digest(Content(tree, Part(i))) == t.digest(parts[i]) ==> Content(tree, Part(i)) == parts[i]
  }

  /** Whatever others put in the branch: under an index that this package's upload authenticated, a download is refused
      or gives back this package. */
  lemma OnlyThisPackage(t: Tools, package: Bytes, context: Context, s: Snapshot, maximum: nat, authentic: Index -> bool)
    requires Ideal(t) && ContextFits(context) && 0 < |package| <= maximum <= 1024 * MIB
    requires Acceptable(t, s, context, maximum, authentic) && s.index.value == IndexOf(t, package, context)
    requires NoCollision(t, s.tree, Split(Sealed(t, package, context)))
    ensures Unseal(t, Join(Contents(s.tree, |s.index.value.parts|)), context, maximum) == Ok(package)
  {
    hide Ideal, ContextFits, Sealed, Split, Join, Unseal, FetchOk, Exactly;
    var sealed := Sealed(t, package, context);
    var parts := Split(sealed);
    forall i | 0 <= i < |parts|
      ensures Content(s.tree, Part(i)) == parts[i]
    {
      assert PartOk(t, s.index.value.parts[i], i, Content(s.tree, Part(i)));
    }
    assert Contents(s.tree, |parts|) == parts;
    SplitJoins(sealed);
    UnsealSealed(t, package, context, maximum);
  }

  // ----- such tools can be -----------------------------------------------------------------------

  function Zeros(n: nat): (r: Bytes)
    ensures |r| == n && forall i | 0 <= i < n :: r[i] == 0
  {
    seq(n, i => 0 as Byte)
  }

  /** A ciphertext of the right size: the plaintext, a mark, and zeros. */
  function Padded(x: Bytes): Bytes {
    x + [1] + Zeros(15 + 16 * Chunks(|x|))
  }

  function Unpadded(s: Bytes): Option<Bytes> {
    if s == [] then None
    else if s[|s| - 1] == 0 then Unpadded(s[..|s| - 1])
    else Some(s[..|s| - 1])
  }

  lemma {:induction false} UnpadsZeros(x: Bytes, n: nat)
    ensures Unpadded(x + [1] + Zeros(n)) == Some(x)
  {
    var s := x + [1] + Zeros(n);
    if n == 0 {
      assert s[..|s| - 1] == x;
    } else {
      assert s[..|s| - 1] == x + [1] + Zeros(n - 1);
      UnpadsZeros(x, n - 1);
    }
  }

  /** A parser that reads what an upload can print. */
  ghost function Loads(b: Bytes): Option<Metadata> {
    if exists m :: Occurs(m) && b == Encoded(Dumps(m)) + [NEWLINE] then
      var m :| Occurs(m) && b == Encoded(Dumps(m)) + [NEWLINE];
      Some(m)
    else None
  }

  ghost function SomeTools(): Tools {
    Tools(0, x => Padded(x), s => Unpadded(s), x => Digits(0, 64), b => Loads(b))
  }

  lemma SameText(a: string, b: string)
    requires Printable(a) && Printable(b) && Encoded(a) + [NEWLINE] == Encoded(b) + [NEWLINE]
    ensures a == b
  {
    assert |a| == |b| by {
      assert |Encoded(a) + [NEWLINE]| == |a| + 1;
    }
    forall i | 0 <= i < |a|
      ensures a[i] == b[i]
    {
      assert (Encoded(a) + [NEWLINE])[i] == Encoded(a)[i] && (Encoded(b) + [NEWLINE])[i] == Encoded(b)[i];
    }
  }

  /** Up to the first delimiter two equal texts are equal, and so is the rest. */
  lemma {:induction false} CutsAlike(a: string, x: string, b: string, y: string, delimiter: char)
    requires delimiter !in a && delimiter !in b && a + [delimiter] + x == b + [delimiter] + y
    ensures a == b && x == y
  {
    var s, u := a + [delimiter] + x, b + [delimiter] + y;
    if a == "" || b == "" {
      assert s[0] == u[0];
      assert a == b == "";
      assert x == s[1..] && y == u[1..];
    } else {
      assert s[0] == a[0] && u[0] == b[0];
      assert s[1..] == a[1..] + [delimiter] + x && u[1..] == b[1..] + [delimiter] + y;
      CutsAlike(a[1..], x, b[1..], y, delimiter);
    }
  }

  lemma FieldCuts(before: string, v: string, w: string, delimiter: char, x: string, y: string)
    requires delimiter !in v && delimiter !in w && Field(before, v, delimiter, x) == Field(before, w, delimiter, y)
    ensures v == w && x == y
  {
    var s, u := v + [delimiter] + x, w + [delimiter] + y;
    assert (before + s)[|before|..] == s && (before + u)[|before|..] == u;
    CutsAlike(v, x, w, y, delimiter);
  }

  /** Metadata is determined by its text. */
  lemma DumpsDiffer(m: Metadata, n: Metadata)
    requires Occurs(m) && Occurs(n) && Dumps(m) == Dumps(n)
    ensures m == n
  {
    hide Field, Decimal, DumpsRest;
    TextsFit(m);
    TextsFit(n);
    FieldCuts("{\"bytes\": ", Decimal(m.bytes), Decimal(n.bytes), ',', Field(" \"product\": \"", m.context.product, '"', DumpsRest(m)),
              Field(" \"product\": \"", n.context.product, '"', DumpsRest(n)));
    DecimalValue(m.bytes);
    DecimalValue(n.bytes);
    FieldCuts(" \"product\": \"", m.context.product, n.context.product, '"', DumpsRest(m), DumpsRest(n));
    RestsDiffer(m, n);
  }

  lemma RestsDiffer(m: Metadata, n: Metadata)
    requires Occurs(m) && Occurs(n) && DumpsRest(m) == DumpsRest(n)
    ensures m.context.series == n.context.series && m.sha256 == n.sha256 && m.context.snapshot == n.context.snapshot
  {
    hide Field, Decimal, Occurs;
    TextsFit(m);
    TextsFit(n);
    var d, f := Field(", \"snapshot\": \"", m.context.snapshot, '"', "}"), Field(", \"snapshot\": \"", n.context.snapshot, '"', "}");
    var c, g := Field(", \"sha256\": \"", m.sha256, '"', d), Field(", \"sha256\": \"", n.sha256, '"', f);
    var b, h := Field(" \"series\": \"", m.context.series, '"', c), Field(" \"series\": \"", n.context.series, '"', g);
    FieldCuts(", \"schema\": ", Decimal(m.schema), Decimal(n.schema), ',', b, h);
    FieldCuts(" \"series\": \"", m.context.series, n.context.series, '"', c, g);
    FieldCuts(", \"sha256\": \"", m.sha256, n.sha256, '"', d, f);
    FieldCuts(", \"snapshot\": \"", m.context.snapshot, n.context.snapshot, '"', "}", "}");
  }

  lemma LoadsReads(m: Metadata)
    requires Occurs(m)
    ensures Loads(Encoded(Dumps(m)) + [NEWLINE]) == Some(m)
  {
    hide Dumps, Occurs;
    var b := Encoded(Dumps(m)) + [NEWLINE];
    var n := Loads(b).value;
    assert Occurs(n) && b == Encoded(Dumps(n)) + [NEWLINE];
    MetadataLine(m);
    MetadataLine(n);
    SameText(Dumps(m), Dumps(n));
    DumpsDiffer(m, n);
  }

  /** The results about transfers are about something: there are tools that are ideal. */
  lemma SomeToolsAreIdeal()
    ensures Ideal(SomeTools())
  {
    hide Occurs, Dumps;
    var t := SomeTools();
    forall x: Bytes
      ensures t.decrypt(t.encrypt(x)) == Some(x) && |t.encrypt(x)| == |x| + Added(t, |x|)
    {
      UnpadsZeros(x, 15 + 16 * Chunks(|x|));
    }
    forall m | Occurs(m)
      ensures t.loads(Encoded(Dumps(m)) + [NEWLINE]) == Some(m)
    {
      LoadsReads(m);
    }
  }
}
