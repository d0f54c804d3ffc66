/** What the hash chain is for: a final hash determines the whole chain, and appending keeps it valid. */
module ChainProofs {
  import opened Text
  import opened Json
  import opened JsonRoundTrip
  import opened EventChain

  ghost predicate Collision(sha: Hash, a: string, b: string) { a != b && sha(a) == sha(b) }

  function MaterialText(event: Json): string
    requires event.Obj?
  {
    Print(Material(event), Compact, 0)
  }

  /** Two different hashed texts, one from each list, with one digest. */
  ghost predicate CollisionBetween(sha: Hash, a: seq<Json>, b: seq<Json>) {
    exists i, j :: 0 <= i < |a| && 0 <= j < |b| && a[i].Obj? && b[j].Obj? &&
      Collision(sha, MaterialText(a[i]), MaterialText(b[j]))
  }

  /** The hash in the last event; `Null` when there is no well-formed last event. */
  function LastHash(events: seq<Json>): Json {
    if events != [] && IsEventObject(events[|events| - 1]) then events[|events| - 1].fields["event_hash"]
    else Null
  }

  /** Whether an event is valid depends on nothing after it. */
  lemma ValidEventExtends(sha: Hash, events: seq<Json>, more: seq<Json>, i: nat)
    requires i < |events|
    ensures ValidEvent(sha, events, i) <==> ValidEvent(sha, events + more, i)
  {
    hide EqualsIndex, IsNormalPayload, AllFinite, Print;
    var all := events + more;
    assert all[i] == events[i] && all[0] == events[0];
    if i > 0 { assert all[i - 1] == events[i - 1]; }
  }

  lemma PrefixValid(sha: Hash, events: seq<Json>, n: nat)
    requires ValidLinks(sha, events) && n <= |events|
    ensures ValidLinks(sha, events[..n])
  {
    hide ValidEvent;
    forall i | 0 <= i < n ensures ValidEvent(sha, events[..n], i) {
      assert events == events[..n] + events[n..];
      ValidEventExtends(sha, events[..n], events[n..], i);
    }
  }

  lemma {:induction false} DigitsInjective(m: nat, n: nat)
    requires Digits(m) == Digits(n)
    ensures m == n
  {
    DigitsValue(m);
    DigitsValue(n);
  }

  /** One JSON value equals at most one list position. */
  lemma IndexUnique(v: Json, m: nat, n: nat)
    requires EqualsIndex(v, m) && EqualsIndex(v, n)
    ensures m == n
  {
    if v.Float? {
      var a, b := Digits(m), Digits(n);
      assert a == v.literal[..|v.literal| - 2] == b;
      DigitsInjective(m, n);
    }
  }

  /** Events with one material and one hash are the same event. */
  lemma SameMaterial(e: Json, f: Json)
    requires IsEventObject(e) && IsEventObject(f)
    requires Material(e) == Material(f) && e.fields["event_hash"] == f.fields["event_hash"]
    ensures e == f
  {
    forall k | k in EVENT_FIELDS ensures e.fields[k] == f.fields[k] {
      if k != "event_hash" {
        assert k in e.fields - {"event_hash"};
        assert (e.fields - {"event_hash"})[k] == (f.fields - {"event_hash"})[k];
      }
    }
    assert e.fields == f.fields;
  }

  lemma SameFinalEvent(sha: Hash, a: seq<Json>, b: seq<Json>)
    requires ValidChain(sha, a) && ValidChain(sha, b)
    requires LastHash(a) == LastHash(b)
    ensures (a[|a| - 1] == b[|b| - 1] && |a| == |b|) || CollisionBetween(sha, a, b)
  {
    hide IsNormalPayload, AllFinite;
    var i, j := |a| - 1, |b| - 1;
    assert ValidEvent(sha, a, i) && ValidEvent(sha, b, j);
    if MaterialText(a[i]) == MaterialText(b[j]) {
      PrintInjective(Material(a[i]), Material(b[j]), Compact);
      SameMaterial(a[i], b[j]);
      IndexUnique(a[i].fields["sequence"], |a|, |b|);
    } else {
      assert Collision(sha, MaterialText(a[i]), MaterialText(b[j]));
    }
  }

  lemma CollisionOfPrefixes(sha: Hash, a: seq<Json>, b: seq<Json>, m: nat, n: nat)
    requires m <= |a| && n <= |b| && CollisionBetween(sha, a[..m], b[..n])
    ensures CollisionBetween(sha, a, b)
  {
    hide MaterialText;
    var i, j :| 0 <= i < m && 0 <= j < n && a[..m][i].Obj? && b[..n][j].Obj? &&
      Collision(sha, MaterialText(a[..m][i]), MaterialText(b[..n][j]));
    assert a[..m][i] == a[i] && b[..n][j] == b[j];
  }

  lemma PreviousLinks(sha: Hash, a: seq<Json>)
    requires ValidChain(sha, a) && |a| > 1
    ensures IsEventObject(a[|a| - 1]) && IsEventObject(a[|a| - 2])
    ensures a[|a| - 1].fields["previous_event_hash"] == LastHash(a[..|a| - 1])
  {
    hide IsNormalPayload, AllFinite, EqualsIndex;
    assert ValidEvent(sha, a, |a| - 1);
  }

  /** Two valid chains that end in one event hash are the same list, event for event, or two of their
      hashed texts collide. */
  lemma {:induction false} FinalHashDeterminesChain(sha: Hash, a: seq<Json>, b: seq<Json>)
    requires ValidChain(sha, a) && ValidChain(sha, b)
    requires LastHash(a) == LastHash(b)
    ensures a == b || CollisionBetween(sha, a, b)
    decreases |a|
  {
    hide ValidEvent, CollisionBetween;
    SameFinalEvent(sha, a, b);
    if !CollisionBetween(sha, a, b) {
      var n := |a| - 1;
      assert a == a[..n] + [a[n]] && b == b[..n] + [b[n]];
      if n > 0 {
        PrefixValid(sha, a, n);
        PrefixValid(sha, b, n);
        PreviousLinks(sha, a);
        PreviousLinks(sha, b);
        FinalHashDeterminesChain(sha, a[..n], b[..n]);
        if CollisionBetween(sha, a[..n], b[..n]) {
          CollisionOfPrefixes(sha, a, b, n, n);
        }
      }
    }
  }

  // ---------------------------------------------------------------- appending

  predicate Holds(fields: map<string, Json>, key: string, v: Json) { key in fields && fields[key] == v }

  predicate HeaderFields(f: map<string, Json>, h: Header) {
    && Holds(f, "sequence", Int(h.sequence)) && Holds(f, "event_type", Str(h.eventType))
    && Holds(f, "timestamp", Str(h.timestamp)) && Holds(f, "job_id", Str(h.job))
    && Holds(f, "project_id", Str(h.project)) && Holds(f, "actor", Str(h.actor))
    && Holds(f, "previous_event_hash", Str(h.previous))
  }

  predicate ConstantFields(sha: Hash, f: map<string, Json>, payload: Json) {
    && Holds(f, "schema_version", Str("1.0")) && Holds(f, "hash_algorithm", Str("sha256"))
    && Holds(f, "payload", payload) && Holds(f, "payload_hash", AsJson(Digest(sha, payload)))
  }

  lemma MaterialKeys(sha: Hash, h: Header, payload: Json)
    ensures EventMaterial(sha, h, payload).Keys == EVENT_FIELDS - {"event_hash"}
  {
    hide Digest;
  }

  lemma MaterialHeader(sha: Hash, h: Header, payload: Json)
    ensures HeaderFields(EventMaterial(sha, h, payload), h)
  {
    hide Digest;
  }

  lemma MaterialConstants(sha: Hash, h: Header, payload: Json)
    ensures ConstantFields(sha, EventMaterial(sha, h, payload), payload)
  {
    hide Digest;
  }

  lemma MaterialFinite(sha: Hash, h: Header, payload: Json)
    requires AllFinite(payload)
    ensures AllFinite(Obj(EventMaterial(sha, h, payload)))
  {
    var f := EventMaterial(sha, h, payload);
    MaterialKeys(sha, h, payload);
    MaterialHeader(sha, h, payload);
    MaterialConstants(sha, h, payload);
    hide EventMaterial;
    forall k | k in f ensures AllFinite(f[k]) {
      assert k in EVENT_FIELDS;
    }
  }

  lemma FieldsKept(sha: Hash, f: map<string, Json>, v: Json, h: Header, payload: Json)
    requires f.Keys == EVENT_FIELDS - {"event_hash"} && HeaderFields(f, h) && ConstantFields(sha, f, payload)
    ensures f["event_hash" := v].Keys == EVENT_FIELDS
    ensures HeaderFields(f["event_hash" := v], h) && ConstantFields(sha, f["event_hash" := v], payload)
    ensures f["event_hash" := v] - {"event_hash"} == f
  {
    hide Digest;
  }

  /** A created event: its material, its two hashes, and the fields taken from its header. */
  lemma CreatedEvent(sha: Hash, h: Header, payload: Json, event: Json)
    requires CreateEvent(sha, h, payload) == Event(event)
    ensures IsEventObject(event) && Material(event) == Obj(EventMaterial(sha, h, payload))
    ensures HeaderFields(event.fields, h) && ConstantFields(sha, event.fields, payload)
    ensures IsNormalPayload(payload) && AllFinite(payload) && AllFinite(Material(event))
    ensures event.fields["event_hash"] == Str(sha(MaterialText(event)))
  {
    hide EventMaterial, IsComponent, IsHexDigest, IsNormalPayload, HeaderFields, ConstantFields, AllFinite, Print;
    var f := EventMaterial(sha, h, payload);
    MaterialKeys(sha, h, payload);
    MaterialHeader(sha, h, payload);
    MaterialConstants(sha, h, payload);
    NormalPayloadIsFinite(payload);
    MaterialFinite(sha, h, payload);
    FieldsKept(sha, f, AsJson(Digest(sha, Obj(f))), h, payload);
  }

  /** The header that continues a chain. */
  predicate Continues(h: Header, events: seq<Json>) {
    h.sequence == |events| + 1 &&
    if events == [] then h.previous == GENESIS
    else
      LastHash(events) == Str(h.previous) &&
      ExpectedIdentity(events, "job_id") == Str(h.job) &&
      ExpectedIdentity(events, "project_id") == Str(h.project)
  }

  /** Appending a created event that continues a valid chain gives a valid chain. */
  lemma AppendKeepsChain(sha: Hash, events: seq<Json>, h: Header, payload: Json, event: Json)
    requires ValidLinks(sha, events) && Continues(h, events)
    requires CreateEvent(sha, h, payload) == Event(event)
    ensures ValidChain(sha, events + [event])
    ensures LastHash(events + [event]) == event.fields["event_hash"]
  {
    hide ValidEvent, CreateEvent, Continues, HeaderFields, ConstantFields, EventMaterial, IsNormalPayload, AllFinite, Print;
    var all := events + [event];
    forall i | 0 <= i < |all| ensures ValidEvent(sha, all, i) {
      if i < |events| {
        ValidEventExtends(sha, events, [event], i);
      } else {
        AppendedEventValid(sha, events, h, payload, event);
      }
    }
    CreatedEvent(sha, h, payload, event);
  }

  lemma AppendedEventValid(sha: Hash, events: seq<Json>, h: Header, payload: Json, event: Json)
    requires ValidLinks(sha, events) && Continues(h, events)
    requires CreateEvent(sha, h, payload) == Event(event)
    ensures ValidEvent(sha, events + [event], |events|)
  {
    hide CreateEvent, IsNormalPayload, AllFinite, Print, GENESIS;
    CreatedEvent(sha, h, payload, event);
    var all := events + [event];
    if events != [] {
      assert all[|events| - 1] == events[|events| - 1] && all[0] == events[0];
      assert ValidEvent(sha, events, |events| - 1);
    }
  }
}
