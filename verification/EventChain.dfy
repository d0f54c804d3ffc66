/** The evidence hash chain: building one event, and verifying a list of parsed events.
    SHA-256 is a parameter: `sha(t)` is the hexadecimal digest of the UTF-8 bytes of `t`. */
module EventChain {
  import opened Text
  import opened Json
  import opened JsonRoundTrip
  import JsonShortest

  predicate IsHexDigest(t: string) {
    |t| == 64 && forall i :: 0 <= i < 64 ==> IsDigit(t[i]) || 'a' <= t[i] <= 'f'
  }

  ghost predicate MakesDigests(sha: Hash) { forall t :: IsHexDigest(sha(t)) }

  const GENESIS: string := Repeat('0', 64)

  const EVENT_FIELDS: set<string> := {
    "schema_version", "hash_algorithm", "sequence", "event_type", "timestamp", "job_id",
    "project_id", "actor", "previous_event_hash", "payload", "payload_hash", "event_hash" }

  /** `canonical_sha256`; `None` when the value holds a non-finite number. */
  function Digest(sha: Hash, v: Json): Option<string> {
    match Canonical(v)
    case None => None
    case Some(t) => Some(sha(t))
  }

  /** A digest, or Python's `None`, as it compares with a JSON value. */
  function AsJson(t: Option<string>): Json { if t.Some? then Str(t.value) else Null }

  // ---------------------------------------------------------------- payloads

  predicate IsLetter(c: char) { 'a' <= c <= 'z' || 'A' <= c <= 'Z' }

  predicate StartsAbsolute(t: string) {
    StartsWith(t, "/") || StartsWith(t, "\\\\")
    || (|t| >= 3 && IsLetter(t[0]) && t[1] == ':' && (t[2] == '\\' || t[2] == '/'))
  }

  predicate HasNewline(t: string) { exists i :: 0 <= i < |t| && (t[i] == '\n' || t[i] == '\r') }

  /** `_looks_like_absolute_path`: text of several lines is never taken for a path. */
  predicate LooksAbsolute(t: string) { !HasNewline(t) && StartsAbsolute(t) }

  /** A slash, two backslashes, or a drive letter with a colon and either of them, and then anything. */
  predicate AbsoluteText(t: string, drive: char, rest: string) {
    t == "/" + rest || t == "\\\\" + rest || (IsLetter(drive) && (t == [drive] + ":/" + rest || t == [drive] + ":\\" + rest))
  }

  lemma AbsoluteForms(t: string)
    ensures StartsAbsolute(t) <==> exists drive, rest :: AbsoluteText(t, drive, rest)
  {
    hide StartsAbsolute, AbsoluteText;
    if StartsAbsolute(t) { var drive, rest := AbsoluteParts(t); }
    if drive, rest :| AbsoluteText(t, drive, rest) { AbsoluteWhole(t, drive, rest); }
  }

  lemma AbsoluteParts(t: string) returns (drive: char, rest: string)
    requires StartsAbsolute(t)
    ensures AbsoluteText(t, drive, rest)
  {
    drive := if IsLetter(t[0]) then t[0] else 'c';
    if StartsWith(t, "/") {
      rest := t[1..];
      assert t == "/" + rest;
    } else if StartsWith(t, "\\\\") {
      rest := t[2..];
      assert t == "\\\\" + rest;
    } else {
      rest := t[3..];
      assert t == [drive] + (if t[2] == '/' then ":/" else ":\\") + rest;
    }
  }

  lemma AbsoluteWhole(t: string, drive: char, rest: string)
    requires AbsoluteText(t, drive, rest)
    ensures StartsAbsolute(t)
  {
    if t == "/" + rest {
      assert t[..1] == "/";
    } else if t == "\\\\" + rest {
      assert t[..2] == "\\\\";
    } else {
      assert t[0] == drive && t[1] == ':' && (t[2] == '/' || t[2] == '\\');
    }
  }

  /** The values `normalize_event_payload` accepts; it returns them unchanged. */
  predicate IsNormalPayload(v: Json) {
    match v
    case NonFinite(_) => false
    case Str(t) => !LooksAbsolute(t)
    case Arr(items) => forall i :: 0 <= i < |items| ==> IsNormalPayload(items[i])
    case Obj(fields) => forall k :: k in fields ==> IsNormalPayload(fields[k])
    case _ => true
  }

  /** A value can be hashed exactly if nothing in it is infinite or not a number. */
  lemma {:induction false} FiniteThroughout(v: Json)
    ensures AllFinite(v) <==> forall part :: Within(part, v) ==> !part.NonFinite?
    decreases v
  {
    match v
    case Arr(items) =>
      forall i | 0 <= i < |items| ensures AllFinite(items[i]) <==> forall part :: Within(part, items[i]) ==> !part.NonFinite? {
        FiniteThroughout(items[i]);
      }
    case Obj(fields) =>
      forall k | k in fields ensures AllFinite(fields[k]) <==> forall part :: Within(part, fields[k]) ==> !part.NonFinite? {
        FiniteThroughout(fields[k]);
      }
    case _ => assert Within(v, v);
  }

  ghost predicate NoPath(t: string) { '\n' in t || '\r' in t || forall drive, rest :: !AbsoluteText(t, drive, rest) }

  lemma NoPathExactly(t: string)
    ensures NoPath(t) <==> !LooksAbsolute(t)
  {
    hide StartsAbsolute, AbsoluteText;
    AbsoluteForms(t);
  }

  /** A payload is normal exactly if nothing in it is a non-finite number or a text of one line that starts like an
      absolute path. */
  lemma {:induction false} NormalThroughout(v: Json)
    ensures IsNormalPayload(v) <==> forall part :: Within(part, v) ==> Plain(part)
    decreases v
  {
    hide LooksAbsolute, NoPath;
    match v
    case Arr(items) =>
      forall i | 0 <= i < |items| ensures IsNormalPayload(items[i]) <==> forall part :: Within(part, items[i]) ==> Plain(part) {
        NormalThroughout(items[i]);
      }
    case Obj(fields) =>
      forall k | k in fields ensures IsNormalPayload(fields[k]) <==> forall part :: Within(part, fields[k]) ==> Plain(part) {
        NormalThroughout(fields[k]);
      }
    case Str(t) =>
      assert Within(v, v);
      NoPathExactly(t);
    case _ => assert Within(v, v);
  }

  ghost predicate Plain(v: Json) { !v.NonFinite? && (v.Str? ==> NoPath(v.text)) }

  lemma {:induction false} NormalPayloadIsFinite(v: Json)
    requires IsNormalPayload(v)
    ensures AllFinite(v)
  {
    match v
    case Arr(items) => forall i | 0 <= i < |items| ensures AllFinite(items[i]) { NormalPayloadIsFinite(items[i]); }
    case Obj(fields) => forall k | k in fields ensures AllFinite(fields[k]) { NormalPayloadIsFinite(fields[k]); }
    case _ =>
  }

  function PayloadDigest(sha: Hash, payload: Json): Option<string> {
    if IsNormalPayload(payload) then Digest(sha, payload) else None
  }

  // ---------------------------------------------------------------- one event

  predicate IsEventObject(raw: Json) { raw.Obj? && raw.fields.Keys == EVENT_FIELDS }

  function Material(event: Json): Json
    requires event.Obj?
  {
    Obj(event.fields - {"event_hash"})
  }

  /** Python equality of a JSON value with a positive index: `True == 1` and `2.0 == 2`. */
  predicate EqualsIndex(v: Json, n: nat) {
    v == Int(n) || (n == 1 && v == Bool(true)) || (v.Float? && v.literal == Digits(n) + ".0")
  }

  /** The whole number that Python takes a value for: truth values count as 0 and 1, and a float that prints
      with nothing but a zero behind its point as the number before it. */
  function WholeNumber(v: Json): Option<int> {
    match v
    case Int(n) => Some(n)
    case Bool(b) => Some(if b then 1 else 0)
    case Float(t) =>
      if |t| > 2 && t[|t| - 2..] == ".0" && IsNaturalText(t[..|t| - 2]) then Some(NaturalValue(t[..|t| - 2])) else None
    case _ => None
  }

  lemma SequenceNumbers(v: Json, n: nat)
    requires n >= 1
    ensures EqualsIndex(v, n) <==> WholeNumber(v) == Some(n)
  {
    hide NaturalValue, Digits, IsFloatText;
    if v.Float? {
      var t := v.literal;
      DigitsValue(n);
      if |t| > 2 && t[|t| - 2..] == ".0" && IsNaturalText(t[..|t| - 2]) {
        JsonShortest.NaturalText(t[..|t| - 2]);
        assert t == t[..|t| - 2] + ".0";
      }
      if t == Digits(n) + ".0" { assert t[..|t| - 2] == Digits(n) && t[|t| - 2..] == ".0"; }
    }
  }

  datatype EventError =
    | EventInvalid | FieldsInvalid | SequenceInvalid | SchemaInvalid | AlgorithmInvalid | ChainBroken
    | PayloadInvalid | PayloadHashMismatch | EventHashMismatch | IdentityMismatch | ChainEmpty

  datatype Located = Located(error: EventError, line: nat)

  function Recorded(event: Json): string
    requires IsEventObject(event)
  {
    if event.fields["event_hash"].Str? then event.fields["event_hash"].text else ""
  }

  /** The hash that event `i` must continue: that of the closest earlier well-formed event. */
  function PreviousHash(events: seq<Json>, i: nat): string
    requires i <= |events|
  {
    if i == 0 then GENESIS
    else if IsEventObject(events[i - 1]) then Recorded(events[i - 1])
    else PreviousHash(events, i - 1)
  }

  /** The identity every later event must repeat; `Null` when the first event has none. */
  function ExpectedIdentity(events: seq<Json>, key: string): Json
    requires key == "job_id" || key == "project_id"
  {
    if events != [] && IsEventObject(events[0]) && events[0].fields[key].Str?
    then events[0].fields[key] else Null
  }

  function Add<E>(errors: seq<E>, c: bool, e: E): seq<E> {
    if c then errors + [e] else errors
  }

  /** What is wrong with a mapping that has exactly the event fields, in the order it is reported. */
  function FieldErrors(sha: Hash, event: Json, line: nat, previous: string, job: Json, project: Json)
    : seq<EventError>
    requires IsEventObject(event)
  {
    var f := event.fields;
    var e1 := Add([], !EqualsIndex(f["sequence"], line), SequenceInvalid);
    var e2 := Add(e1, f["schema_version"] != Str("1.0"), SchemaInvalid);
    var e3 := Add(e2, f["hash_algorithm"] != Str("sha256"), AlgorithmInvalid);
    var e4 := Add(e3, f["previous_event_hash"] != Str(previous), ChainBroken);
    var e5 := Add(e4, !IsNormalPayload(f["payload"]), PayloadInvalid);
    var e6 := Add(e5, f["payload_hash"] != AsJson(PayloadDigest(sha, f["payload"])), PayloadHashMismatch);
    var e7 := Add(e6, !f["event_hash"].Str? || f["event_hash"] != AsJson(Digest(sha, Material(event))),
                  EventHashMismatch);
    Add(e7, line != 1 && (f["job_id"] != job || f["project_id"] != project), IdentityMismatch)
  }

  function EventErrors(sha: Hash, events: seq<Json>, i: nat): seq<EventError>
    requires i < |events|
  {
    if !events[i].Obj? then [EventInvalid]
    else if !IsEventObject(events[i]) then [FieldsInvalid]
    else FieldErrors(sha, events[i], i + 1, PreviousHash(events, i),
                     ExpectedIdentity(events, "job_id"), ExpectedIdentity(events, "project_id"))
  }

  function Locate(errors: seq<EventError>, line: nat): seq<Located> {
    seq(|errors|, i requires 0 <= i < |errors| => Located(errors[i], line))
  }

  function ErrorsBefore(sha: Hash, events: seq<Json>, n: nat): seq<Located>
    requires n <= |events|
  {
    if n == 0 then [] else
      ErrorsBefore(sha, events, n - 1) + Locate(EventErrors(sha, events, n - 1), n)
  }

  function ChainErrors(sha: Hash, events: seq<Json>): seq<Located> {
    ErrorsBefore(sha, events, |events|) + if events == [] then [Located(ChainEmpty, 0)] else []
  }

  // ---------------------------------------------------------------- the verifier's loop

  method Report<E>(errors: seq<E>, c: bool, e: E) returns (all: seq<E>)
    ensures all == Add(errors, c, e)
  {
    all := errors;
    if c {
      all := all + [e];
    }
  }

  method CheckFields(sha: Hash, event: Json, line: nat, previous: string, job: Json, project: Json)
    returns (errors: seq<EventError>)
    requires IsEventObject(event)
    ensures errors == FieldErrors(sha, event, line, previous, job, project)
  {
    hide Add, EqualsIndex, IsNormalPayload, Digest, Material, AsJson;
    var f := event.fields;
    errors := Report([], !EqualsIndex(f["sequence"], line), SequenceInvalid);
    errors := Report(errors, f["schema_version"] != Str("1.0"), SchemaInvalid);
    errors := Report(errors, f["hash_algorithm"] != Str("sha256"), AlgorithmInvalid);
    errors := Report(errors, f["previous_event_hash"] != Str(previous), ChainBroken);
    var payloadDigest: Option<string> := None;
    if IsNormalPayload(f["payload"]) {
      payloadDigest := Digest(sha, f["payload"]);
    }
    errors := Report(errors, !IsNormalPayload(f["payload"]), PayloadInvalid);
    errors := Report(errors, f["payload_hash"] != AsJson(payloadDigest), PayloadHashMismatch);
    var recorded := f["event_hash"];
    var eventDigest := Digest(sha, Material(event));
    errors := Report(errors, !recorded.Str? || recorded != AsJson(eventDigest), EventHashMismatch);
    errors := Report(errors, line != 1 && (f["job_id"] != job || f["project_id"] != project), IdentityMismatch);
  }

  /** `verify_event_records`: everything that stands against an event is reported for its line, and nothing else. */
  method VerifyEventRecords(sha: Hash, events: seq<Json>) returns (errors: seq<Located>)
    ensures errors == ChainErrors(sha, events)
    ensures errors == [] <==> ValidChain(sha, events)
    ensures forall l :: l in errors <==> IsError(sha, events, |events|, l) || (events == [] && l == Located(ChainEmpty, 0))
  {
    hide FieldErrors, ValidEvent, IsError;
    ErrorsAreStanding(sha, events);
    errors := [];
    var previous, expectedJob, expectedProject := GENESIS, Null, Null;
    for i := 0 to |events|
      invariant errors == ErrorsBefore(sha, events, i)
      invariant previous == PreviousHash(events, i)
      invariant i > 0 ==> expectedJob == ExpectedIdentity(events, "job_id")
      invariant i > 0 ==> expectedProject == ExpectedIdentity(events, "project_id")
      invariant i == 0 ==> expectedJob == expectedProject == Null
    {
      var raw := events[i];
      if !raw.Obj? {
        errors := errors + Locate([EventInvalid], i + 1);
        continue;
      }
      if raw.fields.Keys != EVENT_FIELDS {
        errors := errors + Locate([FieldsInvalid], i + 1);
        continue;
      }
      if i == 0 {
        expectedJob := if raw.fields["job_id"].Str? then raw.fields["job_id"] else Null;
        expectedProject := if raw.fields["project_id"].Str? then raw.fields["project_id"] else Null;
      }
      var found := CheckFields(sha, raw, i + 1, previous, expectedJob, expectedProject);
      errors := errors + Locate(found, i + 1);
      previous := if raw.fields["event_hash"].Str? then raw.fields["event_hash"].text else "";
    }
    if events == [] {
      errors := errors + [Located(ChainEmpty, 0)];
    }
    ErrorsOfChain(sha, events);
  }

  // ---------------------------------------------------------------- what is reported

  /** The hash of the last well-formed event before event `i`, or the genesis hash. */
  predicate ContinuesFrom(events: seq<Json>, i: nat, previous: string)
    requires i <= |events|
  {
    || ((forall j :: 0 <= j < i ==> !IsEventObject(events[j])) && previous == GENESIS)
    || (exists j :: 0 <= j < i && IsEventObject(events[j]) && (forall k :: j < k < i ==> !IsEventObject(events[k]))
          && previous == Recorded(events[j]))
  }

  /** What stands against event `i`. */
  predicate Against(sha: Hash, events: seq<Json>, i: nat, e: EventError)
    requires i < |events|
  {
    if !events[i].Obj? then e == EventInvalid
    else if events[i].fields.Keys != EVENT_FIELDS then e == FieldsInvalid
    else
      var f := events[i].fields;
      match e
      case SequenceInvalid => !EqualsIndex(f["sequence"], i + 1)
      case SchemaInvalid => f["schema_version"] != Str("1.0")
      case AlgorithmInvalid => f["hash_algorithm"] != Str("sha256")
      case ChainBroken => !(f["previous_event_hash"].Str? && ContinuesFrom(events, i, f["previous_event_hash"].text))
      case PayloadInvalid => !IsNormalPayload(f["payload"])
      case PayloadHashMismatch =>
        f["payload_hash"] != (if IsNormalPayload(f["payload"]) then Str(sha(Print(f["payload"], Compact, 0))) else Null)
      case EventHashMismatch =>
        !AllFinite(Material(events[i])) || f["event_hash"] != Str(sha(Print(Material(events[i]), Compact, 0)))
      case IdentityMismatch => i > 0 && !(Repeats(events, f, "job_id") && Repeats(events, f, "project_id"))
      case _ => false
  }

  /** The event names what the first event names by a text; nothing, if that names nothing. */
  predicate Repeats(events: seq<Json>, f: map<string, Json>, key: string)
    requires events != [] && (key == "job_id" || key == "project_id") && key in f
  {
    if events[0].Obj? && events[0].fields.Keys == EVENT_FIELDS && events[0].fields[key].Str? then f[key] == events[0].fields[key]
    else f[key] == Null
  }

  predicate IsError(sha: Hash, events: seq<Json>, n: nat, l: Located)
    requires n <= |events|
  {
    1 <= l.line <= n && Against(sha, events, l.line - 1, l.error)
  }

  lemma {:induction false} PreviousContinues(events: seq<Json>, i: nat, previous: string)
    requires i <= |events|
    ensures ContinuesFrom(events, i, previous) <==> previous == PreviousHash(events, i)
  {
    hide IsEventObject, GENESIS;
    if i > 0 { PreviousContinues(events, i - 1, previous); }
  }

  lemma FourErrors<E>(errors: seq<E>, c1: bool, e1: E, c2: bool, e2: E, c3: bool, e3: E, c4: bool, e4: E, x: E)
    ensures x in Add(Add(Add(Add(errors, c1, e1), c2, e2), c3, e3), c4, e4) <==>
      x in errors || (c1 && x == e1) || (c2 && x == e2) || (c3 && x == e3) || (c4 && x == e4)
  {
    hide Add;
    AddIn(errors, c1, e1, x);
    AddIn(Add(errors, c1, e1), c2, e2, x);
    AddIn(Add(Add(errors, c1, e1), c2, e2), c3, e3, x);
    AddIn(Add(Add(Add(errors, c1, e1), c2, e2), c3, e3), c4, e4, x);
  }

  lemma AddIn<E>(errors: seq<E>, c: bool, e: E, x: E)
    ensures x in Add(errors, c, e) <==> x in errors || (c && x == e)
  {
  }

  /** One condition for each error of a mapping that has the event fields. */
  datatype Conditions = Conditions(sequence: bool, schema: bool, algorithm: bool, broken: bool, payload: bool,
                                   payloadHash: bool, eventHash: bool, identity: bool)

  predicate Chosen(c: Conditions, e: EventError) {
    match e
    case SequenceInvalid => c.sequence
    case SchemaInvalid => c.schema
    case AlgorithmInvalid => c.algorithm
    case ChainBroken => c.broken
    case PayloadInvalid => c.payload
    case PayloadHashMismatch => c.payloadHash
    case EventHashMismatch => c.eventHash
    case IdentityMismatch => c.identity
    case _ => false
  }

  /** The conditions, with the hash and the identity that the loop carries along. */
  function FieldConditions(sha: Hash, event: Json, line: nat, previous: string, job: Json, project: Json): Conditions
    requires IsEventObject(event)
  {
    var f := event.fields;
    Conditions(!EqualsIndex(f["sequence"], line), f["schema_version"] != Str("1.0"), f["hash_algorithm"] != Str("sha256"),
               f["previous_event_hash"] != Str(previous), !IsNormalPayload(f["payload"]),
               f["payload_hash"] != AsJson(PayloadDigest(sha, f["payload"])),
               !f["event_hash"].Str? || f["event_hash"] != AsJson(Digest(sha, Material(event))),
               line != 1 && (f["job_id"] != job || f["project_id"] != project))
  }

  /** The errors whose conditions hold, in the order of the checks. */
  function Listed(c: Conditions): seq<EventError> {
    var first := Add(Add(Add(Add([], c.sequence, SequenceInvalid), c.schema, SchemaInvalid), c.algorithm, AlgorithmInvalid),
                     c.broken, ChainBroken);
    Add(Add(Add(Add(first, c.payload, PayloadInvalid), c.payloadHash, PayloadHashMismatch), c.eventHash, EventHashMismatch),
        c.identity, IdentityMismatch)
  }

  lemma ListedAreChosen(c: Conditions, e: EventError)
    ensures e in Listed(c) <==> Chosen(c, e)
  {
    hide Add;
    var first := Add(Add(Add(Add([], c.sequence, SequenceInvalid), c.schema, SchemaInvalid), c.algorithm, AlgorithmInvalid),
                     c.broken, ChainBroken);
    FourErrors([], c.sequence, SequenceInvalid, c.schema, SchemaInvalid, c.algorithm, AlgorithmInvalid, c.broken, ChainBroken, e);
    FourErrors(first, c.payload, PayloadInvalid, c.payloadHash, PayloadHashMismatch, c.eventHash, EventHashMismatch,
               c.identity, IdentityMismatch, e);
  }

  lemma FieldErrorsListed(sha: Hash, event: Json, line: nat, previous: string, job: Json, project: Json)
    requires IsEventObject(event)
    ensures FieldErrors(sha, event, line, previous, job, project) == Listed(FieldConditions(sha, event, line, previous, job, project))
  {
    hide Add, EqualsIndex, IsNormalPayload, PayloadDigest, Digest, AsJson, Material;
  }

  lemma FieldErrorsGiven(sha: Hash, event: Json, line: nat, previous: string, job: Json, project: Json, e: EventError)
    requires IsEventObject(event)
    ensures e in FieldErrors(sha, event, line, previous, job, project) <==>
      Chosen(FieldConditions(sha, event, line, previous, job, project), e)
  {
    hide Listed, FieldErrors, Chosen, FieldConditions, EVENT_FIELDS;
    FieldErrorsListed(sha, event, line, previous, job, project);
    ListedAreChosen(FieldConditions(sha, event, line, previous, job, project), e);
  }

  lemma RepeatsExpected(events: seq<Json>, f: map<string, Json>, key: string)
    requires events != [] && (key == "job_id" || key == "project_id") && key in f
    ensures Repeats(events, f, key) <==> f[key] == ExpectedIdentity(events, key)
  {
    hide EVENT_FIELDS;
  }

  lemma FieldErrorsStand(sha: Hash, events: seq<Json>, i: nat, e: EventError)
    requires i < |events| && IsEventObject(events[i])
    ensures EventErrors(sha, events, i) ==
      FieldErrors(sha, events[i], i + 1, PreviousHash(events, i), ExpectedIdentity(events, "job_id"),
                  ExpectedIdentity(events, "project_id"))
    ensures e in EventErrors(sha, events, i) <==> Against(sha, events, i, e)
  {
    hide FieldErrors, EqualsIndex, PreviousHash, ExpectedIdentity, ContinuesFrom, Print, Material, IsNormalPayload, AllFinite,
      Repeats;
    RepeatsExpected(events, events[i].fields, "job_id");
    RepeatsExpected(events, events[i].fields, "project_id");
    var f := events[i].fields;
    FieldErrorsGiven(sha, events[i], i + 1, PreviousHash(events, i), ExpectedIdentity(events, "job_id"),
                     ExpectedIdentity(events, "project_id"), e);
    if IsNormalPayload(f["payload"]) { NormalPayloadIsFinite(f["payload"]); }
    if f["previous_event_hash"].Str? { PreviousContinues(events, i, f["previous_event_hash"].text); }
  }

  lemma EventErrorsStand(sha: Hash, events: seq<Json>, i: nat, e: EventError)
    requires i < |events|
    ensures e in EventErrors(sha, events, i) <==> Against(sha, events, i, e)
  {
    hide FieldErrors, EVENT_FIELDS;
    if IsEventObject(events[i]) { FieldErrorsStand(sha, events, i, e); } else { NoEventAgainst(sha, events, i, e); }
  }

  lemma NoEventAgainst(sha: Hash, events: seq<Json>, i: nat, e: EventError)
    requires i < |events| && !IsEventObject(events[i])
    ensures Against(sha, events, i, e) <==> e == if events[i].Obj? then FieldsInvalid else EventInvalid
  {
  }

  lemma {:induction false} ErrorsBeforeStand(sha: Hash, events: seq<Json>, n: nat, l: Located)
    requires n <= |events|
    ensures l in ErrorsBefore(sha, events, n) <==> IsError(sha, events, n, l)
  {
    hide EventErrors, Against;
    if n > 0 {
      ErrorsBeforeStand(sha, events, n - 1, l);
      var errors := EventErrors(sha, events, n - 1);
      EventErrorsStand(sha, events, n - 1, l.error);
      if l.line == n && l.error in errors {
        var k :| 0 <= k < |errors| && errors[k] == l.error;
        assert Locate(errors, n)[k] == l;
      }
    }
  }

  lemma ErrorsAreStanding(sha: Hash, events: seq<Json>)
    ensures forall l :: l in ChainErrors(sha, events) <==>
      IsError(sha, events, |events|, l) || (events == [] && l == Located(ChainEmpty, 0))
  {
    hide ErrorsBefore, IsError;
    forall l ensures l in ErrorsBefore(sha, events, |events|) <==> IsError(sha, events, |events|, l) {
      ErrorsBeforeStand(sha, events, |events|, l);
    }
  }

  // ---------------------------------------------------------------- valid chains

  /** Event `i` is well formed, hashes correctly, and continues the event before it. */
  predicate ValidEvent(sha: Hash, events: seq<Json>, i: nat)
    requires i < |events|
  {
    IsEventObject(events[i]) &&
    var f := events[i].fields;
    EqualsIndex(f["sequence"], i + 1) &&
    f["schema_version"] == Str("1.0") && f["hash_algorithm"] == Str("sha256") &&
    IsNormalPayload(f["payload"]) && AllFinite(Material(events[i])) &&
    f["payload_hash"] == Str(sha(Print(f["payload"], Compact, 0))) &&
    f["event_hash"] == Str(sha(Print(Material(events[i]), Compact, 0))) &&
    if i == 0 then f["previous_event_hash"] == Str(GENESIS)
    else
      IsEventObject(events[i - 1]) && f["previous_event_hash"] == events[i - 1].fields["event_hash"] &&
      f["job_id"] == ExpectedIdentity(events, "job_id") &&
      f["project_id"] == ExpectedIdentity(events, "project_id")
  }

  predicate ValidLinks(sha: Hash, events: seq<Json>) {
    forall i :: 0 <= i < |events| ==> ValidEvent(sha, events, i)
  }

  predicate ValidChain(sha: Hash, events: seq<Json>) { events != [] && ValidLinks(sha, events) }

  lemma ErrorsOfEvent(sha: Hash, events: seq<Json>, i: nat)
    requires i < |events|
    requires forall j :: 0 <= j < i ==> ValidEvent(sha, events, j)
    ensures EventErrors(sha, events, i) == [] <==> ValidEvent(sha, events, i)
  {
    hide EqualsIndex, GENESIS;
    if IsEventObject(events[i]) && IsNormalPayload(events[i].fields["payload"]) {
      NormalPayloadIsFinite(events[i].fields["payload"]);
    }
    if i > 0 { assert ValidEvent(sha, events, i - 1); }
  }

  lemma {:induction false} ErrorsOfPrefix(sha: Hash, events: seq<Json>, n: nat)
    requires n <= |events|
    ensures ErrorsBefore(sha, events, n) == [] <==> forall j :: 0 <= j < n ==> ValidEvent(sha, events, j)
  {
    hide EventErrors, ValidEvent;
    if n > 0 {
      ErrorsOfPrefix(sha, events, n - 1);
      if forall j :: 0 <= j < n - 1 ==> ValidEvent(sha, events, j) {
        ErrorsOfEvent(sha, events, n - 1);
      }
      assert |Locate(EventErrors(sha, events, n - 1), n)| == |EventErrors(sha, events, n - 1)|;
    }
  }

  /** The verifier reports nothing exactly on the valid chains. */
  lemma ErrorsOfChain(sha: Hash, events: seq<Json>)
    ensures ChainErrors(sha, events) == [] <==> ValidChain(sha, events)
  {
    ErrorsOfPrefix(sha, events, |events|);
  }

  // ---------------------------------------------------------------- building an event

  datatype CreateError = BadSequence | BadComponent | BadTimestamp | NoJob | NoProject | BadPrevious | BadPayload

  datatype Created = Event(event: Json) | Refused(error: CreateError)

  predicate IsComponent(t: string) {
    2 <= |t| <= 64 && 'a' <= t[0] <= 'z' &&
    forall i :: 0 <= i < |t| ==> 'a' <= t[i] <= 'z' || IsDigit(t[i]) || t[i] == '_'
  }

  /** A component is a small letter followed by 1 to 63 small letters, digits and underscores. */
  lemma ComponentForm(t: string)
    ensures IsComponent(t) <==> exists c, rest :: t == [c] + rest && 'a' <= c <= 'z' && ComponentRest(rest)
  {
    if IsComponent(t) {
      assert t == [t[0]] + t[1..];
      assert ComponentRest(t[1..]);
    }
    if c, rest :| t == [c] + rest && 'a' <= c <= 'z' && ComponentRest(rest) {
      assert forall i :: 0 < i < |t| ==> t[i] == rest[i - 1];
    }
  }

  predicate ComponentRest(rest: string) {
    1 <= |rest| <= 63 && forall i :: 0 <= i < |rest| ==> 'a' <= rest[i] <= 'z' || '0' <= rest[i] <= '9' || rest[i] == '_'
  }

  datatype Header = Header(sequence: int, eventType: string, timestamp: string, job: string,
                           project: string, actor: string, previous: string)

  /** Every field but the event hash. */
  function EventMaterial(sha: Hash, h: Header, payload: Json): map<string, Json> {
    map[ "schema_version" := Str("1.0"),
         "hash_algorithm" := Str("sha256"),
         "sequence" := Int(h.sequence),
         "event_type" := Str(h.eventType),
         "timestamp" := Str(h.timestamp),
         "job_id" := Str(h.job),
         "project_id" := Str(h.project),
         "actor" := Str(h.actor),
         "previous_event_hash" := Str(h.previous),
         "payload" := payload,
         "payload_hash" := AsJson(Digest(sha, payload)) ]
  }

  /** `create_event`. */
  function CreateEvent(sha: Hash, h: Header, payload: Json): (r: Created)
    ensures r.Event? ==> r.event.Obj?
  {
    if h.sequence < 1 then Refused(BadSequence)
    else if !IsComponent(h.eventType) || !IsComponent(h.actor) then Refused(BadComponent)
    else if h.timestamp == "" || h.timestamp[|h.timestamp| - 1] != 'Z' then Refused(BadTimestamp)
    else if h.job == "" then Refused(NoJob)
    else if h.project == "" then Refused(NoProject)
    else if !IsHexDigest(h.previous) then Refused(BadPrevious)
    else if !IsNormalPayload(payload) then Refused(BadPayload)
    else
      var material := EventMaterial(sha, h, payload);
      Event(Obj(material["event_hash" := AsJson(Digest(sha, Obj(material)))]))
  }

  /** Why an event is not created. */
  predicate WhyNotCreated(h: Header, payload: Json, e: CreateError) {
    match e
    case BadTimestamp => !EndsInZ(h.timestamp)
    case BadSequence => h.sequence < 1
    case BadComponent => !IsComponent(h.eventType) || !IsComponent(h.actor)
    case NoJob => h.job == ""
    case NoProject => h.project == ""
    case BadPrevious => !IsHexDigest(h.previous)
    case BadPayload => !IsNormalPayload(payload)
  }

  predicate EndsInZ(t: string) { |t| > 0 && t[|t| - 1..] == "Z" }

  /** An event is created exactly if nothing stands against it. */
  lemma CreationRefused(sha: Hash, h: Header, payload: Json)
    ensures CreateEvent(sha, h, payload).Refused? ==> WhyNotCreated(h, payload, CreateEvent(sha, h, payload).error)
    ensures CreateEvent(sha, h, payload).Event? ==> forall e :: !WhyNotCreated(h, payload, e)
  {
    hide IsComponent, IsHexDigest, IsNormalPayload, EventMaterial, Digest;
  }
}
