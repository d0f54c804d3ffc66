/** `scripts/verify_gateway.py`: the second, independently written verifier of an evidence bundle. */
module StandaloneVerifier {
  import opened Text
  import opened Json
  import opened JsonLines
  import opened EventChain
  import opened Evidence
  import opened EvidenceVerify

  // ---------------------------------------------------------------- events

  /** `_payload_is_canonical`: unlike the library, text of several lines may not start like a path either. */
  predicate PayloadIsCanonical(v: Json) {
    match v
    case NonFinite(_) => false
    case Str(t) => !StartsAbsolute(t)
    case Arr(items) => forall i :: 0 <= i < |items| ==> PayloadIsCanonical(items[i])
    case Obj(fields) => forall k :: k in fields ==> PayloadIsCanonical(fields[k])
    case _ => true
  }

  ghost predicate Pathless(v: Json) { !v.NonFinite? && (v.Str? ==> forall drive, rest :: !AbsoluteText(v.text, drive, rest)) }

  lemma {:induction false} CanonicalThroughout(v: Json)
    ensures PayloadIsCanonical(v) <==> forall part :: Within(part, v) ==> Pathless(part)
    decreases v
  {
    hide StartsAbsolute, AbsoluteText;
    match v
    case Arr(items) =>
      forall i | 0 <= i < |items| ensures PayloadIsCanonical(items[i]) <==> forall part :: Within(part, items[i]) ==> Pathless(part) {
        CanonicalThroughout(items[i]);
      }
    case Obj(fields) =>
      forall k | k in fields ensures PayloadIsCanonical(fields[k]) <==> forall part :: Within(part, fields[k]) ==> Pathless(part) {
        CanonicalThroughout(fields[k]);
      }
    case Str(t) =>
      assert Within(v, v);
      AbsoluteForms(t);
    case _ => assert Within(v, v);
  }

  /** `COMPONENT_PATTERN.fullmatch(str(value))`: besides strings only `nan` and `inf` can match. */
  predicate IsComponentValue(v: Json) {
    (v.Str? && IsComponent(v.text)) || (v.NonFinite? && v.name != MinusInfinity)
  }

  /** What `str(value)` gives: for other numbers and for collections only its first character counts. */
  predicate StrGives(v: Json, t: string) {
    match v
    case Null => t == "None"
    case Bool(b) => t == if b then "True" else "False"
    case Int(n) => t == Decimal(n)
    case Float(_) => t != "" && (t[0] == '-' || IsDigit(t[0]))
    case NonFinite(name) => t == if name.NaN? then "nan" else if name.PlusInfinity? then "inf" else "-inf"
    case Str(text) => t == text
    case Arr(_) => t != "" && t[0] == '['
    case Obj(_) => t != "" && t[0] == '{'
  }

  /** A value names a component exactly if its Python text does. */
  lemma ComponentsByText(v: Json, t: string)
    requires StrGives(v, t)
    ensures IsComponentValue(v) <==> IsComponent(t)
  {
    hide Digits;
    match v
    case Int(n) => assert t[0] == '-' || IsDigit(t[0]);
    case Null => assert t[0] == 'N';
    case Bool(b) => assert t[0] == 'T' || t[0] == 'F';
    case _ =>
  }

  predicate EventAccepted(sha: Hash, event: Json, line: nat, previous: string, job: Json, project: Json) {
    IsEventObject(event) &&
    var f := event.fields;
    && EqualsIndex(f["sequence"], line)
    && f["schema_version"] == Str("1.0") && f["hash_algorithm"] == Str("sha256")
    && IsComponentValue(f["event_type"]) && IsComponentValue(f["actor"])
    && f["previous_event_hash"] == Str(previous)
    && PayloadIsCanonical(f["payload"]) && f["payload_hash"] == AsJson(Digest(sha, f["payload"]))
    && f["event_hash"].Str? && IsHexDigest(f["event_hash"].text)
    && f["event_hash"] == AsJson(Digest(sha, Material(event)))
    && (line == 1 || (f["job_id"] == job && f["project_id"] == project))
  }

  predicate EventAcceptedAt(sha: Hash, events: seq<Json>, i: nat)
    requires i < |events|
  {
    EventAccepted(sha, events[i], i + 1, PreviousHash(events, i),
                  ExpectedIdentity(events, "job_id"), ExpectedIdentity(events, "project_id"))
  }

  predicate EventsAccepted(sha: Hash, events: seq<Json>) {
    events != [] && forall i :: 0 <= i < |events| ==> EventAcceptedAt(sha, events, i)
  }

  // ---------------------------------------------------------------- lines

  predicate LineAccepted(line: string) {
    Loads(line).Some? && Canonical(Loads(line).value) == Some(line)
  }

  /** The chain file as this verifier reads it: every line the canonical text of one accepted event. */
  predicate ChainFileAccepted(sha: Hash, text: string) {
    (forall i :: 0 <= i < |SplitLines(text)| ==> LineAccepted(SplitLines(text)[i])) &&
    ReadEvents(text).Some? && EventsAccepted(sha, ReadEvents(text).value)
  }

  datatype Reason =
    | InvalidJson | NotCanonical | EmptyChain
    | InvalidFields | InvalidSequence | InvalidSchema | InvalidAlgorithm | InvalidComponent | Discontinuity
    | InvalidPayload | PayloadMismatch | HashMismatch | ForeignIdentity

  datatype Failure = Failure(line: nat, reason: Reason)

  /** What the first loop has against a line: it is no JSON, or not the canonical text of what it says. */
  predicate LineFault(lines: seq<string>, n: nat, f: Failure)
    requires n <= |lines|
  {
    1 <= f.line <= n &&
    var parsed := Loads(lines[f.line - 1]);
    if parsed.None? then f.reason == InvalidJson
    else f.reason == NotCanonical && !(AllFinite(parsed.value) && lines[f.line - 1] == Print(parsed.value, Compact, 0))
  }

  lemma LinesWithoutFault(lines: seq<string>)
    ensures (forall j :: 0 <= j < |lines| ==> LineAccepted(lines[j])) <==> forall f :: !LineFault(lines, |lines|, f)
  {
    hide Loads, AllFinite, Print;
    if forall f :: !LineFault(lines, |lines|, f) {
      forall j | 0 <= j < |lines| ensures LineAccepted(lines[j]) {
        assert !LineFault(lines, |lines|, Failure(j + 1, InvalidJson)) && !LineFault(lines, |lines|, Failure(j + 1, NotCanonical));
      }
    }
  }

  /** The first loop of `_verify_chain`: parse each line and compare it with its canonical text. */
  method ParseChainFile(lines: seq<string>) returns (events: seq<Json>, failures: seq<Failure>)
    ensures |events| == |lines| && forall j :: 0 <= j < |lines| ==> events[j] == Loads(lines[j]).GetOr(Null)
    ensures forall f :: f in failures <==> LineFault(lines, |lines|, f)
    ensures failures == [] <==> forall j :: 0 <= j < |lines| ==> LineAccepted(lines[j])
    ensures failures == [] ==> events == Values(ParseLines(lines))
  {
    hide Loads, AllFinite, Print, LineAccepted;
    LinesWithoutFault(lines);
    events, failures := [], [];
    for i := 0 to |lines|
      invariant |events| == i
      invariant forall j :: 0 <= j < i ==> events[j] == Loads(lines[j]).GetOr(Null)
      invariant forall f :: f in failures <==> LineFault(lines, i, f)
    {
      var parsed := Loads(lines[i]);
      if parsed.None? {
        failures := failures + [Failure(i + 1, InvalidJson)];
        events := events + [Null];
        continue;
      }
      events := events + [parsed.value];
      if Canonical(parsed.value) != Some(lines[i]) {
        failures := failures + [Failure(i + 1, NotCanonical)];
      }
    }
    assert failures != [] ==> failures[0] in failures;
    if failures == [] { AcceptedParse(lines, events); }
  }

  lemma AcceptedParse(lines: seq<string>, events: seq<Json>)
    requires |events| == |lines| && forall j :: 0 <= j < |lines| ==> events[j] == Loads(lines[j]).GetOr(Null)
    requires forall j :: 0 <= j < |lines| ==> LineAccepted(lines[j])
    ensures forall j :: 0 <= j < |lines| ==> ParseLines(lines)[j].Some?
    ensures events == Values(ParseLines(lines))
  {
    hide Loads, Canonical;
  }

  /** What the second loop has against an event. */
  predicate Complaint(sha: Hash, event: Json, line: nat, previous: string, job: Json, project: Json, r: Reason) {
    if !IsEventObject(event) then r == InvalidFields else
      var f := event.fields;
      match r
      case InvalidSequence => !EqualsIndex(f["sequence"], line)
      case InvalidSchema => f["schema_version"] != Str("1.0")
      case InvalidAlgorithm => f["hash_algorithm"] != Str("sha256")
      case InvalidComponent => !IsComponentValue(f["event_type"]) || !IsComponentValue(f["actor"])
      case Discontinuity => f["previous_event_hash"] != Str(previous)
      case InvalidPayload => !PayloadIsCanonical(f["payload"])
      case PayloadMismatch => f["payload_hash"] != AsJson(Digest(sha, f["payload"]))
      case HashMismatch =>
        !f["event_hash"].Str? || !IsHexDigest(f["event_hash"].text) || f["event_hash"] != AsJson(Digest(sha, Material(event)))
      case ForeignIdentity => line != 1 && (f["job_id"] != job || f["project_id"] != project)
      case _ => false
  }

  predicate ComplaintAt(sha: Hash, events: seq<Json>, i: nat, r: Reason)
    requires i < |events|
  {
    Complaint(sha, events[i], i + 1, PreviousHash(events, i),
              ExpectedIdentity(events, "job_id"), ExpectedIdentity(events, "project_id"), r)
  }

  lemma NoComplaint(sha: Hash, events: seq<Json>, i: nat, r: Reason)
    requires i < |events| && EventAcceptedAt(sha, events, i)
    ensures !ComplaintAt(sha, events, i, r)
  {
    hide IsComponentValue, EqualsIndex, PayloadIsCanonical, IsHexDigest, Digest, AsJson, Material, PreviousHash, ExpectedIdentity;
  }

  lemma SomeComplaint(sha: Hash, events: seq<Json>, i: nat) returns (r: Reason)
    requires i < |events| && !EventAcceptedAt(sha, events, i)
    ensures ComplaintAt(sha, events, i, r)
  {
    hide IsComponentValue, EqualsIndex, PayloadIsCanonical, IsHexDigest, Digest, AsJson, Material, PreviousHash, ExpectedIdentity;
    r :=
      if ComplaintAt(sha, events, i, InvalidFields) then InvalidFields
      else if ComplaintAt(sha, events, i, InvalidSequence) then InvalidSequence
      else if ComplaintAt(sha, events, i, InvalidSchema) then InvalidSchema
      else if ComplaintAt(sha, events, i, InvalidAlgorithm) then InvalidAlgorithm
      else if ComplaintAt(sha, events, i, InvalidComponent) then InvalidComponent
      else if ComplaintAt(sha, events, i, Discontinuity) then Discontinuity
      else if ComplaintAt(sha, events, i, InvalidPayload) then InvalidPayload
      else if ComplaintAt(sha, events, i, PayloadMismatch) then PayloadMismatch
      else if ComplaintAt(sha, events, i, HashMismatch) then HashMismatch
      else ForeignIdentity;
  }

  /** The complaints about the header of a mapping with the right fields, in the order of the checks. */
  function HeaderReasons(event: Json, line: nat, previous: string): seq<Reason>
    requires IsEventObject(event)
  {
    var f := event.fields;
    var r1 := Add([], !EqualsIndex(f["sequence"], line), InvalidSequence);
    var r2 := Add(r1, f["schema_version"] != Str("1.0"), InvalidSchema);
    var r3 := Add(r2, f["hash_algorithm"] != Str("sha256"), InvalidAlgorithm);
    var r4 := Add(r3, !IsComponentValue(f["event_type"]) || !IsComponentValue(f["actor"]), InvalidComponent);
    Add(r4, f["previous_event_hash"] != Str(previous), Discontinuity)
  }

  /** All complaints about it. */
  function EventReasons(sha: Hash, event: Json, line: nat, previous: string, job: Json, project: Json): seq<Reason>
    requires IsEventObject(event)
  {
    var f := event.fields;
    var r6 := Add(HeaderReasons(event, line, previous), !PayloadIsCanonical(f["payload"]), InvalidPayload);
    var r7 := Add(r6, f["payload_hash"] != AsJson(Digest(sha, f["payload"])), PayloadMismatch);
    var r8 := Add(r7, !f["event_hash"].Str? || !IsHexDigest(f["event_hash"].text)
                      || f["event_hash"] != AsJson(Digest(sha, Material(event))), HashMismatch);
    Add(r8, line != 1 && (f["job_id"] != job || f["project_id"] != project), ForeignIdentity)
  }

  lemma HeaderReasonsGiven(sha: Hash, event: Json, line: nat, previous: string, job: Json, project: Json, r: Reason)
    requires IsEventObject(event)
    ensures r in HeaderReasons(event, line, previous) <==>
      Complaint(sha, event, line, previous, job, project, r)
      && r in {InvalidSequence, InvalidSchema, InvalidAlgorithm, InvalidComponent, Discontinuity}
  {
    hide IsComponentValue, EqualsIndex, PayloadIsCanonical, IsHexDigest, Digest, AsJson, Material;
  }

  lemma AllReasonsGiven(sha: Hash, event: Json, line: nat, previous: string, job: Json, project: Json, r: Reason)
    requires IsEventObject(event)
    ensures r in EventReasons(sha, event, line, previous, job, project) <==> Complaint(sha, event, line, previous, job, project, r)
  {
    hide IsComponentValue, EqualsIndex, PayloadIsCanonical, IsHexDigest, Digest, AsJson, Material, HeaderReasons;
    HeaderReasonsGiven(sha, event, line, previous, job, project, r);
  }

  /** The body of the second loop for a mapping with the right fields. */
  method CheckEvent(sha: Hash, event: Json, line: nat, previous: string, job: Json, project: Json)
    returns (reasons: seq<Reason>)
    requires IsEventObject(event)
    ensures reasons == EventReasons(sha, event, line, previous, job, project)
  {
    hide IsComponentValue, EqualsIndex, PayloadIsCanonical, IsHexDigest, Digest, AsJson, Material, Add;
    var f := event.fields;
    reasons := Report([], !EqualsIndex(f["sequence"], line), InvalidSequence);
    reasons := Report(reasons, f["schema_version"] != Str("1.0"), InvalidSchema);
    reasons := Report(reasons, f["hash_algorithm"] != Str("sha256"), InvalidAlgorithm);
    reasons := Report(reasons, !IsComponentValue(f["event_type"]) || !IsComponentValue(f["actor"]), InvalidComponent);
    reasons := Report(reasons, f["previous_event_hash"] != Str(previous), Discontinuity);
    reasons := Report(reasons, !PayloadIsCanonical(f["payload"]), InvalidPayload);
    reasons := Report(reasons, f["payload_hash"] != AsJson(Digest(sha, f["payload"])), PayloadMismatch);
    var recorded := f["event_hash"];
    reasons := Report(reasons, !recorded.Str? || !IsHexDigest(recorded.text) || recorded != AsJson(Digest(sha, Material(event))),
                      HashMismatch);
    reasons := Report(reasons, line != 1 && (f["job_id"] != job || f["project_id"] != project), ForeignIdentity);
  }

  /** A failure that the second loop has to report. */
  predicate IsFailure(sha: Hash, events: seq<Json>, n: nat, f: Failure)
    requires n <= |events|
  {
    1 <= f.line <= n && ComplaintAt(sha, events, f.line - 1, f.reason)
  }

  /** The second loop reports, for every event, everything that is against it, and nothing else. */
  method CheckEvents(sha: Hash, events: seq<Json>) returns (failures: seq<Failure>)
    ensures forall f :: f in failures <==> IsFailure(sha, events, |events|, f) || (events == [] && f == Failure(0, EmptyChain))
    ensures failures == [] <==> EventsAccepted(sha, events)
  {
    hide EventAccepted, Complaint, EventReasons;
    failures := [];
    var previous, job, project := GENESIS, Null, Null;
    for i := 0 to |events|
      invariant forall f :: f in failures <==> IsFailure(sha, events, i, f)
      invariant previous == PreviousHash(events, i)
      invariant i > 0 ==> job == ExpectedIdentity(events, "job_id") && project == ExpectedIdentity(events, "project_id")
    {
      if !IsEventObject(events[i]) {
        OtherObjects(sha, events, i);
        failures := failures + [Failure(i + 1, InvalidFields)];
        if i == 0 { job, project := Null, Null; }
        continue;
      }
      var fields := events[i].fields;
      if i == 0 {
        job := if fields["job_id"].Str? then fields["job_id"] else Null;
        project := if fields["project_id"].Str? then fields["project_id"] else Null;
      }
      assert job == ExpectedIdentity(events, "job_id") && project == ExpectedIdentity(events, "project_id");
      var reasons := CheckEvent(sha, events[i], i + 1, previous, job, project);
      forall r ensures r in reasons <==> ComplaintAt(sha, events, i, r) {
        AllReasonsGiven(sha, events[i], i + 1, previous, job, project, r);
      }
      failures := failures + Each((r: Reason) => Failure(i + 1, r), reasons);
      previous := if fields["event_hash"].Str? then fields["event_hash"].text else "";
    }
    if events == [] {
      failures := failures + [Failure(0, EmptyChain)];
    }
    AcceptedWithoutFailure(sha, events);
    assert failures != [] ==> failures[0] in failures;
  }

  lemma OtherObjects(sha: Hash, events: seq<Json>, i: nat)
    requires i < |events| && !IsEventObject(events[i])
    ensures forall r :: ComplaintAt(sha, events, i, r) <==> r == InvalidFields
  {
  }

  /** The events are accepted exactly if there is nothing to report. */
  lemma AcceptedWithoutFailure(sha: Hash, events: seq<Json>)
    ensures EventsAccepted(sha, events) <==> events != [] && forall f :: !IsFailure(sha, events, |events|, f)
  {
    hide EventAcceptedAt, ComplaintAt;
    if EventsAccepted(sha, events) {
      forall f: Failure | 1 <= f.line <= |events| ensures !ComplaintAt(sha, events, f.line - 1, f.reason) {
        NoComplaint(sha, events, f.line - 1, f.reason);
      }
    } else if events != [] {
      var i :| 0 <= i < |events| && !EventAcceptedAt(sha, events, i);
      var r := SomeComplaint(sha, events, i);
      assert IsFailure(sha, events, |events|, Failure(i + 1, r));
    }
  }

  /** What the event part of `_verify_chain` has against a chain file. */
  predicate ChainFileFault(sha: Hash, text: string, f: Failure) {
    var events := Lenient(text);
    || LineFault(SplitLines(text), |events|, f) || IsFailure(sha, events, |events|, f)
    || (events == [] && f == Failure(0, EmptyChain))
  }

  /** The event part of `_verify_chain`. */
  method VerifyChainFile(sha: Hash, text: string) returns (failures: seq<Failure>, checked: nat)
    ensures failures == [] <==> ChainFileAccepted(sha, text)
    ensures forall f :: f in failures <==> ChainFileFault(sha, text, f)
    ensures checked == |SplitLines(text)|
  {
    hide EventsAccepted, Loads, Canonical, SplitLines, LineFault, IsFailure;
    var lines := SplitLines(text);
    var events, unreadable := ParseChainFile(lines);
    assert events == Lenient(text);
    var rejected := CheckEvents(sha, events);
    failures, checked := unreadable + rejected, |events|;
  }

  // ---------------------------------------------------------------- checksum entries

  function ReplaceBackslashes(t: string): (r: string)
    ensures |r| == |t| && forall i :: 0 <= i < |t| ==> r[i] == if t[i] == '\\' then '/' else t[i]
  {
    seq(|t|, i requires 0 <= i < |t| => if t[i] == '\\' then '/' else t[i])
  }

  /** `text.split("/")`. */
  function SplitSlashes(t: string): (r: seq<string>)
    ensures r != []
  {
    if t == "" then [""]
    else
      var rest := SplitSlashes(t[1..]);
      if t[0] == '/' then [""] + rest else [[t[0]] + rest[0]] + rest[1..]
  }

  function JoinSlashes(parts: seq<string>): string {
    if parts == [] then "" else if |parts| == 1 then parts[0] else parts[0] + "/" + JoinSlashes(parts[1..])
  }

  function DropTrivial(parts: seq<string>): seq<string> {
    if parts == [] then []
    else if parts[0] == "" || parts[0] == "." then DropTrivial(parts[1..])
    else [parts[0]] + DropTrivial(parts[1..])
  }

  /** The characters `str.strip` removes. */
  predicate IsSpace(c: char) {
    c == ' ' || IsLineBreak(c) || c == '\t' || c == '\U{1F}' || c == '\U{A0}' || c == '\U{1680}'
    || '\U{2000}' <= c <= '\U{200A}' || c == '\U{202F}' || c == '\U{205F}' || c == '\U{3000}'
  }

  predicate AllSpace(t: string) { forall i :: 0 <= i < |t| ==> IsSpace(t[i]) }

  /** `_normalize_relative_path`. */
  function NormalizePath(raw: string): Option<string> {
    var text := ReplaceBackslashes(raw);
    var parts := SplitSlashes(text);
    if AllSpace(raw) || StartsWith(text, "/") || ':' in parts[0] then None
    else
      var kept := DropTrivial(parts);
      if kept == [] || ".." in kept then None else Some(JoinSlashes(kept))
  }

  function LowerChar(c: char): char { if 'A' <= c <= 'Z' then (c as int + 32) as char else c }

  function Lower(t: string): (r: string)
    ensures |r| == |t| && forall i :: 0 <= i < |t| ==> r[i] == LowerChar(t[i])
  {
    seq(|t|, i requires 0 <= i < |t| => LowerChar(t[i]))
  }

  /** `_digest_from_value`. */
  function DigestFrom(v: Json): Option<string> {
    var digest := if v.Obj? then GetOr(v.fields, "sha256", Get(v.fields, "digest")) else v;
    if digest.Str? && IsHexDigest(Lower(digest.text)) then Some(Lower(digest.text)) else None
  }

  datatype Entry = Entry(path: Json, digest: Json)

  /** One pass over the entries; a bad path, a bad digest and a repeated path all refuse the manifest. */
  function Collect(entries: seq<Entry>): Option<map<string, string>> {
    if entries == [] then Some(map[]) else
      var last := entries[|entries| - 1];
      match Collect(entries[..|entries| - 1])
      case None => None
      case Some(seen) =>
        if !last.path.Str? || NormalizePath(last.path.text).None? then None
        else
          var path := NormalizePath(last.path.text).value;
          if path in seen || DigestFrom(last.digest).None? then None
          else Some(seen[path := DigestFrom(last.digest).value])
  }

  function EntriesOfMap(fields: map<string, Json>, keys: seq<string>): (r: seq<Entry>)
    requires forall k :: k in keys ==> k in fields
    ensures |r| == |keys| && forall i :: 0 <= i < |r| ==> r[i] == Entry(Str(keys[i]), fields[keys[i]])
  {
    seq(|keys|, i requires 0 <= i < |keys| => Entry(Str(keys[i]), fields[keys[i]]))
  }

  function EntriesOfList(items: seq<Json>): Option<seq<Entry>> {
    if forall i :: 0 <= i < |items| ==> items[i].Obj?
    then Some(seq(|items|, i requires 0 <= i < |items| && items[i].Obj? =>
      Entry(GetOr(items[i].fields, "path", Get(items[i].fields, "file")),
            GetOr(items[i].fields, "sha256", Get(items[i].fields, "digest")))))
    else None
  }

  /** `casefold`, as far as it can give a text of small letters of the alphabet and digits: the long s is an s. */
  function FoldChar(c: char): char { if c == '\U{017F}' then 's' else LowerChar(c) }

  function Folded(t: string): (r: string)
    ensures |r| == |t| && forall i :: 0 <= i < |t| ==> r[i] == FoldChar(t[i])
  {
    seq(|t|, i requires 0 <= i < |t| => FoldChar(t[i]))
  }

  function DropDashes(t: string): string {
    if t == "" then "" else (if t[0] == '-' then "" else [t[0]]) + DropDashes(t[1..])
  }

  /** `_entries_from_payload`. */
  function EntriesFrom(payload: Json): Option<map<string, string>> {
    if !payload.Obj? then None else
      var fields := payload.fields;
      var algorithm := GetOr(fields, "algorithm", Str("sha256"));
      if !algorithm.Str? || DropDashes(Folded(algorithm.text)) != "sha256" then None else
        var raw :=
          if "files" in fields then fields["files"]
          else if "checksums" in fields then fields["checksums"]
          else Obj(fields - {"algorithm", "schema_version", "created_at"});
        var listed :=
          if raw.Obj? then Some(EntriesOfMap(raw.fields, SortedKeys(raw.fields.Keys)))
          else if raw.Arr? then EntriesOfList(raw.items)
          else None;
        if listed.None? then None else
          match Collect(listed.value)
          case None => None
          case Some(entries) => if entries == map[] || CHECKSUM_FILE in entries then None else Some(entries)
  }

  // ---------------------------------------------------------------- what a manifest can name

  /** A part of a path that names something below the directory it stands in. */
  predicate Downward(part: string) {
    part != "" && part != "." && part != ".." && forall i :: 0 <= i < |part| ==> part[i] != '/' && part[i] != '\\'
  }

  predicate SafePath(path: string) {
    forall i :: 0 <= i < |SplitSlashes(path)| ==> Downward(SplitSlashes(path)[i])
  }

  predicate Slashless(parts: seq<string>) { forall i, j :: 0 <= i < |parts| && 0 <= j < |parts[i]| ==> parts[i][j] != '/' }

  lemma {:induction false} SplitIsSlashless(t: string)
    ensures Slashless(SplitSlashes(t))
    ensures forall i, j :: 0 <= i < |SplitSlashes(t)| && 0 <= j < |SplitSlashes(t)[i]| ==> SplitSlashes(t)[i][j] in t
  {
    if t != "" { SplitIsSlashless(t[1..]); }
  }

  lemma {:induction false} SplitBefore(part: string, rest: string)
    requires forall i :: 0 <= i < |part| ==> part[i] != '/'
    ensures SplitSlashes(part + "/" + rest) == [part] + SplitSlashes(rest)
    ensures SplitSlashes(part) == [part]
  {
    if part == "" {
      assert part + "/" + rest == "/" + rest && ("/" + rest)[1..] == rest;
    } else {
      SplitBefore(part[1..], rest);
      assert (part + "/" + rest)[1..] == part[1..] + "/" + rest;
      assert part == [part[0]] + part[1..];
    }
  }

  lemma {:induction false} SplitJoined(parts: seq<string>)
    requires parts != [] && Slashless(parts)
    ensures SplitSlashes(JoinSlashes(parts)) == parts
  {
    if |parts| == 1 {
      SplitBefore(parts[0], "");
    } else {
      forall i, j | 0 <= i < |parts[1..]| && 0 <= j < |parts[1..][i]| ensures parts[1..][i][j] != '/' {
        assert parts[1..][i] == parts[i + 1];
      }
      SplitJoined(parts[1..]);
      SplitBefore(parts[0], JoinSlashes(parts[1..]));
      assert parts == [parts[0]] + parts[1..];
    }
  }

  lemma {:induction false} KeptAre(parts: seq<string>, part: string)
    ensures part in DropTrivial(parts) <==> part in parts && part != "" && part != "."
  {
    if parts != [] {
      KeptAre(parts[1..], part);
      assert part in parts <==> part == parts[0] || part in parts[1..];
    }
  }

  /** A normalized path leads downward, by the parts of the recorded one that are neither empty nor a dot. */
  lemma NormalizedIsSafe(raw: string)
    requires NormalizePath(raw).Some?
    ensures SplitSlashes(NormalizePath(raw).value) == DropTrivial(SplitSlashes(ReplaceBackslashes(raw)))
    ensures SafePath(NormalizePath(raw).value)
  {
    hide SplitSlashes, DropTrivial, JoinSlashes;
    var text := ReplaceBackslashes(raw);
    var kept := DropTrivial(SplitSlashes(text));
    SplitIsSlashless(text);
    forall i | 0 <= i < |kept| ensures Downward(kept[i]) {
      assert kept[i] in kept;
      KeptAre(SplitSlashes(text), kept[i]);
      var n :| 0 <= n < |SplitSlashes(text)| && SplitSlashes(text)[n] == kept[i];
      forall j | 0 <= j < |kept[i]| ensures kept[i][j] != '\\' { assert SplitSlashes(text)[n][j] in text; }
    }
    SplitJoined(kept);
  }

  /** It is refused exactly if it is blank, absolute, names a drive, climbs, or has no part that counts. */
  lemma RefusedPaths(raw: string)
    ensures var parts := SplitSlashes(ReplaceBackslashes(raw));
      NormalizePath(raw).None? <==>
        AllSpace(raw) || raw[0] == '/' || raw[0] == '\\' || ':' in parts[0] || ".." in parts
        || forall i :: 0 <= i < |parts| ==> parts[i] == "" || parts[i] == "."
  {
    hide SplitSlashes, DropTrivial, JoinSlashes, IsSpace;
    var parts := SplitSlashes(ReplaceBackslashes(raw));
    KeptAre(parts, "..");
    var kept := DropTrivial(parts);
    if raw != "" { assert StartsWith(ReplaceBackslashes(raw), "/") <==> ReplaceBackslashes(raw)[0] == '/'; }
    if kept == [] {
      forall i | 0 <= i < |parts| ensures parts[i] == "" || parts[i] == "." { KeptAre(parts, parts[i]); }
    } else {
      KeptAre(parts, kept[0]);
      assert kept[0] in kept;
    }
  }

  lemma {:induction false} CollectedAreSafe(entries: seq<Entry>)
    requires Collect(entries).Some?
    ensures var found := Collect(entries).value;
      |found| == |entries| && forall name :: name in found ==> SafePath(name) && IsHexDigest(found[name])
    ensures forall i :: 0 <= i < |entries| ==>
      entries[i].path.Str? && NormalizePath(entries[i].path.text).Some? && NormalizePath(entries[i].path.text).value in Collect(entries).value
      && DigestFrom(entries[i].digest) == Some(Collect(entries).value[NormalizePath(entries[i].path.text).value])
  {
    hide NormalizePath, SafePath, IsHexDigest, DigestFrom;
    if entries != [] {
      var last := entries[|entries| - 1];
      CollectedAreSafe(entries[..|entries| - 1]);
      NormalizedIsSafe(last.path.text);
      DigestIsHex(last.digest);
    }
  }

  lemma DigestIsHex(v: Json)
    ensures DigestFrom(v).Some? ==> IsHexDigest(DigestFrom(v).value)
  {
    hide IsHexDigest, Lower;
  }

  /** Whatever a manifest says, it is read as at least one path below the bundle, each with a lower-case digest,
      and never as its own. */
  lemma EntriesAreSafe(payload: Json)
    requires EntriesFrom(payload).Some?
    ensures var entries := EntriesFrom(payload).value;
      && entries != map[] && CHECKSUM_FILE !in entries
      && forall name :: name in entries ==> SafePath(name) && IsHexDigest(entries[name])
  {
    hide Collect, SafePath, IsHexDigest, Folded, DropDashes, EntriesOfMap, EntriesOfList;
    forall listed | Collect(listed).Some?
      ensures forall name :: name in Collect(listed).value ==> SafePath(name) && IsHexDigest(Collect(listed).value[name])
    {
      CollectedAreSafe(listed);
    }
  }

  // ---------------------------------------------------------------- bundles

  function ManifestEntries(files: Files): Option<map<string, string>> {
    if CHECKSUM_FILE !in files then None else
      match Loads(files[CHECKSUM_FILE])
      case None => None
      case Some(payload) => EntriesFrom(payload)
  }

  predicate AttestationChecks(sha: Hash, a: map<string, Json>, events: seq<Json>, entries: map<string, string>) {
    var final := FinalEvent(events);
    var digests := map name | name in COMPATIBILITY_FILES && name in entries :: Str(entries[name]);
    && Get(final, "event_type") == Str("evidence_finalized")
    && Get(a, "contract_version") in [Null, Str("upg.evidence/v1")]
    && Get(a, "evidence_schema_version") == Str("2.0") && Get(a, "hash_algorithm") == Str("sha256")
    && Get(a, "final_event_hash") == Get(final, "event_hash")
    && Get(a, "job_id") == Get(final, "job_id") && Get(a, "project_id") == Get(final, "project_id")
    && COMPATIBILITY_FILES <= entries.Keys
    && AcceptsManifestChecksum(sha, Get(a, "manifest_checksum"), digests)
    && AcceptsSigner(Get(a, "signer"))
  }

  /** `verify_bundle` reports `ok`. */
  predicate BundleAccepted(sha: Hash, files: Files) {
    ManifestEntries(files).Some? &&
    var entries := ManifestEntries(files).value;
    && (forall name :: name in entries ==> name in files && sha(files[name]) == entries[name])
    && files.Keys - {CHECKSUM_FILE} <= entries.Keys
    && (CHAIN_FILE in files <==> ATTESTATION_FILE in files)
    && (CHAIN_FILE in files ==>
          ChainFileAccepted(sha, files[CHAIN_FILE]) && ReadMapping(files, ATTESTATION_FILE).Some? &&
          AttestationChecks(sha, ReadMapping(files, ATTESTATION_FILE).value, ReadEvents(files[CHAIN_FILE]).value, entries))
  }
}
