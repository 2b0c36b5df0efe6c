/** Redaction of nested payloads, and what the audit trail stores of them
    (observability/redaction.py, security/audit.py). */
module Redaction {
  import opened Common
  import opened Text

  const REDACTED := "[REDACTED]"
  const MAX_DEPTH: nat := 12
  const MAX_STRING_LENGTH: nat := 8192

  const SENSITIVE_KEY_PARTS: seq<string> := [
    "api_key", "apikey", "auth", "authorization", "cookie", "credential", "passwd",
    "password", "private_key", "secret", "session", "signature", "token"]

  const NON_SECRET_KEYS: seq<string> := [
    "auth_method", "authentication_method", "credential_count", "credential_id", "rotated_from"]

  /** A payload. A mapping's keys need not be strings; `Shown` is how another key
      prints. */
  datatype Key = Name(text: string) | Shown(text: string)

  datatype Item = Item(key: Key, value: Value)

  datatype Value =
    | Null
    | Flag(on: bool)
    | Number(n: int)
    | Str(text: string)
    | Bytes(length: nat)
    | List(items: seq<Value>)
    | Mapping(entries: seq<Item>)

  /** What is taken from the host language as it is: full Unicode lower-casing,
      and masking by pattern. */
  datatype Host = Host(lower: string -> string, redactText: string -> string)
  {
    predicate IsSensitiveKey(key: string) {
      var lowered := lower(key);
      lowered !in NON_SECRET_KEYS && exists i :: 0 <= i < |SENSITIVE_KEY_PARTS| && Contains(lowered, SENSITIVE_KEY_PARTS[i])
    }

    function RedactString(text: string): string {
      var masked := redactText(text);
      if |masked| > MAX_STRING_LENGTH
      then masked[..MAX_STRING_LENGTH] + "... [truncated " + Decimal(|masked|) + " chars]" else masked
    }

    /** `_redact`. */
    function Redact(v: Value, depth: nat): Value
      decreases v, 0
    {
      if depth > MAX_DEPTH then Str("[TRUNCATED: max depth]")
      else
        match v
        case Mapping(entries) => Mapping(RedactEntries(entries, depth))
        case Str(text) => Str(RedactString(text))
        case Bytes(length) => Str("<" + Decimal(length) + " bytes>")
        case List(items) => List(seq(|items|, i requires 0 <= i < |items| => Redact(items[i], depth + 1)))
        case Null => v
        case Flag(_) => v
        case Number(_) => v
    }

    function RedactItem(e: Item, depth: nat): Value
      decreases e, 0
    {
      if IsSensitiveKey(e.key.text) then if e.value == Null then Null else Str(REDACTED)
      else Redact(e.value, depth + 1)
    }

    /** Keys that print alike collapse, and the last value stands. */
    function RedactEntries(entries: seq<Item>, depth: nat): seq<Item>
      decreases entries, 1
    {
      if entries == [] then []
      else
        var last := entries[|entries| - 1];
        Put(RedactEntries(entries[..|entries| - 1], depth), last.key.text, RedactItem(last, depth))
    }
  }

  function Digit(n: nat): string
    requires n < 10
  {
    ["0123456789"[n]]
  }

  function Decimal(n: nat): string {
    if n < 10 then Digit(n) else Decimal(n / 10) + Digit(n % 10)
  }

  /** `result[key] = value`: a known key keeps its place. */
  function Put(entries: seq<Item>, key: string, value: Value): seq<Item> {
    if entries == [] then [Item(Name(key), value)]
    else if entries[0].key.text == key then [Item(Name(key), value)] + entries[1..]
    else [entries[0]] + Put(entries[1..], key, value)
  }

  /** The loop that fills the result mapping. */
  method RedactMapping(host: Host, entries: seq<Item>, depth: nat) returns (result: seq<Item>)
    ensures result == host.RedactEntries(entries, depth)
    decreases entries, 1
  {
    result := [];
    for n := 0 to |entries|
      invariant result == host.RedactEntries(entries[..n], depth)
    {
      assert entries[..n + 1][..n] == entries[..n];
      var key := entries[n].key.text;
      if host.IsSensitiveKey(key) {
        result := Put(result, key, if entries[n].value == Null then Null else Str(REDACTED));
      } else {
        var e := entries[n];
        assert e.value < e;
        var item := RedactValue(host, e.value, depth + 1);
        result := Put(result, key, item);
      }
    }
    assert entries[..|entries|] == entries;
  }

  method RedactValue(host: Host, v: Value, depth: nat) returns (r: Value)
    ensures r == host.Redact(v, depth)
    decreases v, 0
  {
    if depth > MAX_DEPTH {
      return Str("[TRUNCATED: max depth]");
    }
    match v
    case Mapping(entries) =>
      var result := RedactMapping(host, entries, depth);
      return Mapping(result);
    case List(items) =>
      var out := [];
      for n := 0 to |items|
        invariant |out| == n && forall i :: 0 <= i < n ==> out[i] == host.Redact(items[i], depth + 1)
      {
        var item := RedactValue(host, items[n], depth + 1);
        out := out + [item];
      }
      return List(out);
    case Str(text) => return Str(host.RedactString(text));
    case Bytes(length) => return Str("<" + Decimal(length) + " bytes>");
    case Null => return v;
    case Flag(_) => return v;
    case Number(_) => return v;
  }

  // ---- non-interference

  /** Two payloads that differ only in non-null values under sensitive keys, and in
      whatever lies deeper than redaction looks. */
  predicate SameButSecrets(host: Host, a: Value, b: Value, depth: nat)
    decreases a
  {
    || depth > MAX_DEPTH
    || a == b
    || (a.Mapping? && b.Mapping? && |a.entries| == |b.entries|
        && forall i :: 0 <= i < |a.entries| ==> SameItem(host, a.entries[i], b.entries[i], depth))
    || (a.List? && b.List? && |a.items| == |b.items|
        && forall i :: 0 <= i < |a.items| ==> SameButSecrets(host, a.items[i], b.items[i], depth + 1))
  }

  predicate SameItem(host: Host, a: Item, b: Item, depth: nat)
    decreases a
  {
    && a.key == b.key
    && if host.IsSensitiveKey(a.key.text) then a.value == Null <==> b.value == Null
       else SameButSecrets(host, a.value, b.value, depth + 1)
  }

  /** Nothing that differs only there can be told apart once redacted. */
  lemma {:induction false} NonInterference(host: Host, a: Value, b: Value, depth: nat)
    requires SameButSecrets(host, a, b, depth)
    ensures host.Redact(a, depth) == host.Redact(b, depth)
    decreases a, 0
  {
    if depth <= MAX_DEPTH && a != b {
      if a.Mapping? {
        EntriesDoNotInterfere(host, a.entries, b.entries, depth);
      } else {
        forall i | 0 <= i < |a.items| ensures host.Redact(a.items[i], depth + 1) == host.Redact(b.items[i], depth + 1) {
          NonInterference(host, a.items[i], b.items[i], depth + 1);
        }
      }
    }
  }

  lemma {:induction false} EntriesDoNotInterfere(host: Host, a: seq<Item>, b: seq<Item>, depth: nat)
    requires |a| == |b| && depth <= MAX_DEPTH
    requires forall i :: 0 <= i < |a| ==> SameItem(host, a[i], b[i], depth)
    ensures host.RedactEntries(a, depth) == host.RedactEntries(b, depth)
    decreases a, 1
  {
    if a != [] {
      var n := |a| - 1;
      EntriesDoNotInterfere(host, a[..n], b[..n], depth);
      assert SameItem(host, a[n], b[n], depth);
      if !host.IsSensitiveKey(a[n].key.text) {
        var e := a[n];
        assert e.value < e;
        NonInterference(host, e.value, b[n].value, depth + 1);
      }
    }
  }

  // ---- what is left

  /** Under a sensitive key there is nothing but the marker or null. */
  predicate Clean(host: Host, v: Value)
    decreases v
  {
    match v
    case Mapping(entries) => forall i :: 0 <= i < |entries| ==> CleanItem(host, entries[i])
    case List(items) => forall i :: 0 <= i < |items| ==> Clean(host, items[i])
    case _ => true
  }

  predicate CleanItem(host: Host, e: Item)
    decreases e
  {
    if host.IsSensitiveKey(e.key.text) then e.value == Null || e.value == Str(REDACTED) else Clean(host, e.value)
  }

  predicate AllClean(host: Host, entries: seq<Item>) {
    forall i :: 0 <= i < |entries| ==> CleanItem(host, entries[i])
  }

  lemma {:induction false} PutIsClean(host: Host, entries: seq<Item>, e: Item)
    requires AllClean(host, entries) && CleanItem(host, e)
    ensures AllClean(host, Put(entries, e.key.text, e.value))
  {
    assert CleanItem(host, Item(Name(e.key.text), e.value));
    if entries != [] && entries[0].key.text != e.key.text {
      PutIsClean(host, entries[1..], e);
    }
  }

  /** No value that stood under a sensitive key survives, at any depth. */
  lemma {:induction false} RedactedIsClean(host: Host, v: Value, depth: nat)
    ensures Clean(host, host.Redact(v, depth))
    decreases v, 0
  {
    if depth <= MAX_DEPTH {
      if v.Mapping? {
        EntriesAreClean(host, v.entries, depth);
      } else if v.List? {
        forall i | 0 <= i < |v.items| ensures Clean(host, host.Redact(v.items[i], depth + 1)) {
          RedactedIsClean(host, v.items[i], depth + 1);
        }
      }
    }
  }

  lemma {:induction false} ItemIsClean(host: Host, e: Item, depth: nat)
    ensures CleanItem(host, Item(e.key, host.RedactItem(e, depth)))
    decreases e, 0
  {
    RedactedIsClean(host, e.value, depth + 1);
  }

  lemma {:induction false} EntriesAreClean(host: Host, entries: seq<Item>, depth: nat)
    ensures AllClean(host, host.RedactEntries(entries, depth))
    decreases entries, 1
  {
    if entries != [] {
      var last := entries[|entries| - 1];
      EntriesAreClean(host, entries[..|entries| - 1], depth);
      ItemIsClean(host, last, depth);
      PutIsClean(host, host.RedactEntries(entries[..|entries| - 1], depth), Item(last.key, host.RedactItem(last, depth)));
    }
  }

  /** Nested no deeper than this. */
  predicate WithinHeight(v: Value, height: nat)
    decreases v
  {
    match v
    case Mapping(entries) => height > 0 && forall i :: 0 <= i < |entries| ==> ItemWithin(entries[i], height - 1)
    case List(items) => height > 0 && forall i :: 0 <= i < |items| ==> WithinHeight(items[i], height - 1)
    case _ => true
  }

  predicate ItemWithin(e: Item, height: nat)
    decreases e
  {
    WithinHeight(e.value, height)
  }

  predicate AllWithin(entries: seq<Item>, height: nat) {
    forall i :: 0 <= i < |entries| ==> ItemWithin(entries[i], height)
  }

  lemma {:induction false} PutKeepsHeight(entries: seq<Item>, e: Item, height: nat)
    requires AllWithin(entries, height) && ItemWithin(e, height)
    ensures AllWithin(Put(entries, e.key.text, e.value), height)
  {
    assert ItemWithin(Item(Name(e.key.text), e.value), height);
    if entries != [] && entries[0].key.text != e.key.text {
      PutKeepsHeight(entries[1..], e, height);
    }
  }

  /** However deep the payload, what is stored is bounded. */
  lemma {:induction false} RedactedIsShallow(host: Host, v: Value, depth: nat, height: nat)
    requires depth + height == MAX_DEPTH + 1
    ensures WithinHeight(host.Redact(v, depth), height)
    decreases v, 0
  {
    if height > 0 {
      if v.Mapping? {
        EntriesAreShallow(host, v.entries, depth, height - 1);
      } else if v.List? {
        forall i | 0 <= i < |v.items| ensures WithinHeight(host.Redact(v.items[i], depth + 1), height - 1) {
          RedactedIsShallow(host, v.items[i], depth + 1, height - 1);
        }
      }
    }
  }

  lemma {:induction false} ItemIsShallow(host: Host, e: Item, depth: nat, height: nat)
    requires depth + height == MAX_DEPTH
    ensures ItemWithin(Item(e.key, host.RedactItem(e, depth)), height)
    decreases e, 0
  {
    RedactedIsShallow(host, e.value, depth + 1, height);
  }

  lemma {:induction false} EntriesAreShallow(host: Host, entries: seq<Item>, depth: nat, height: nat)
    requires depth + height == MAX_DEPTH
    ensures AllWithin(host.RedactEntries(entries, depth), height)
    decreases entries, 1
  {
    if entries != [] {
      var last := entries[|entries| - 1];
      EntriesAreShallow(host, entries[..|entries| - 1], depth, height);
      ItemIsShallow(host, last, depth, height);
      PutKeepsHeight(
        host.RedactEntries(entries[..|entries| - 1], depth), Item(last.key, host.RedactItem(last, depth)), height);
    }
  }

  // ---- what is hidden

  /** A key is sensitive exactly when it is not on the exempt list and, lower-cased,
      has one of the parts somewhere in it. */
  lemma SensitiveKeysAreThese(host: Host, key: string)
    ensures host.IsSensitiveKey(key) <==>
              && host.lower(key) !in NON_SECRET_KEYS
              && exists i, a, b :: 0 <= i < |SENSITIVE_KEY_PARTS| && Around(host.lower(key), a, SENSITIVE_KEY_PARTS[i], b)
  {
    forall i | 0 <= i < |SENSITIVE_KEY_PARTS|
      ensures Contains(host.lower(key), SENSITIVE_KEY_PARTS[i]) <==>
                exists a, b :: Around(host.lower(key), a, SENSITIVE_KEY_PARTS[i], b)
    {
      ContainsIsInfix(host.lower(key), SENSITIVE_KEY_PARTS[i]);
    }
    hide Contains, Around;
  }

  /** So under a key with a sensitive part in it, exempt keys aside, the marker stands
      for whatever the value was, and only null shows. */
  lemma SecretsAreMasked(host: Host, entries: seq<Item>, depth: nat, last: Item, i: nat, a: string, b: string)
    requires LastOf(entries, last.key.text) == Some(last) && i < |SENSITIVE_KEY_PARTS|
    requires host.lower(last.key.text) == a + SENSITIVE_KEY_PARTS[i] + b && host.lower(last.key.text) !in NON_SECRET_KEYS
    ensures Get(host.RedactEntries(entries, depth), last.key.text) ==
            Some(if last.value == Null then Null else Str("[REDACTED]"))
  {
    assert Around(host.lower(last.key.text), a, SENSITIVE_KEY_PARTS[i], b);
    SensitiveKeysAreThese(host, last.key.text);
    LastValueStands(host, entries, depth, last.key.text);
  }

  /** Text comes out as the patterns mask it, and a long one cut, with its length. */
  lemma TextIsMasked(host: Host, text: string, depth: nat)
    requires depth <= MAX_DEPTH
    ensures var masked := host.redactText(text);
            if |masked| <= 8192 then host.Redact(Str(text), depth) == Str(masked)
            else host.Redact(Str(text), depth) ==
                 Str(masked[..8192] + "... [truncated " + Decimal(|masked|) + " chars]")
    ensures forall n :: host.Redact(Bytes(n), depth) == Str("<" + Decimal(n) + " bytes>")
  {
  }

  /** The number a run of digits reads as. */
  function Reading(digits: string): nat
    requires forall i :: 0 <= i < |digits| ==> '0' <= digits[i] <= '9'
  {
    if digits == "" then 0
    else 10 * Reading(digits[..|digits| - 1]) + (digits[|digits| - 1] - '0') as nat
  }

  lemma {:induction false} DecimalReadsBack(n: nat)
    ensures forall i :: 0 <= i < |Decimal(n)| ==> '0' <= Decimal(n)[i] <= '9'
    ensures Decimal(n) != "" && Reading(Decimal(n)) == n
  {
    if n >= 10 {
      DecimalReadsBack(n / 10);
      var digits := Decimal(n);
      assert digits[..|digits| - 1] == Decimal(n / 10);
      DigitReads(n % 10);
    } else {
      DigitReads(n);
      assert Decimal(n)[..0] == "";
    }
  }

  lemma DigitReads(n: nat)
    requires n < 10
    ensures '0' <= Digit(n)[0] <= '9' && (Digit(n)[0] - '0') as nat == n
  {
  }

  // ---- what is kept

  /** `mapping.get(key)`. */
  function Get(entries: seq<Item>, key: string): Option<Value> {
    if entries == [] then None
    else if entries[0].key.text == key then Some(entries[0].value)
    else Get(entries[1..], key)
  }

  /** The last entry whose key prints as `key`. */
  function LastOf(entries: seq<Item>, key: string): Option<Item> {
    if entries == [] then None
    else if entries[|entries| - 1].key.text == key then Some(entries[|entries| - 1])
    else LastOf(entries[..|entries| - 1], key)
  }

  predicate DistinctKeys(entries: seq<Item>) {
    forall i, j :: 0 <= i < j < |entries| ==> entries[i].key.text != entries[j].key.text
  }

  lemma {:induction false} PutThenGet(entries: seq<Item>, key: string, value: Value, k: string)
    ensures Get(Put(entries, key, value), k) == if k == key then Some(value) else Get(entries, k)
  {
    if entries != [] && entries[0].key.text != key {
      PutThenGet(entries[1..], key, value, k);
      assert Put(entries, key, value)[1..] == Put(entries[1..], key, value);
    } else if entries != [] {
      assert Put(entries, key, value)[1..] == entries[1..];
    }
  }

  /** Under each key, the redaction of the last value given under it, and nothing
      under any other key. */
  lemma {:induction false} LastValueStands(host: Host, entries: seq<Item>, depth: nat, k: string)
    ensures var last := LastOf(entries, k);
            Get(host.RedactEntries(entries, depth), k) ==
            if last == None then None else Some(host.RedactItem(last.value, depth))
  {
    if entries != [] {
      var rest, e := entries[..|entries| - 1], entries[|entries| - 1];
      LastValueStands(host, rest, depth, k);
      PutThenGet(host.RedactEntries(rest, depth), e.key.text, host.RedactItem(e, depth), k);
    }
  }

  lemma {:induction false} PutAppends(entries: seq<Item>, key: string, value: Value)
    requires forall i :: 0 <= i < |entries| ==> entries[i].key.text != key
    ensures Put(entries, key, value) == entries + [Item(Name(key), value)]
  {
    if entries != [] {
      PutAppends(entries[1..], key, value);
      assert entries == [entries[0]] + entries[1..];
    }
  }

  /** Keys that print differently keep their places. */
  lemma {:induction false} DistinctKeysKeepTheirPlaces(host: Host, entries: seq<Item>, depth: nat)
    requires DistinctKeys(entries)
    ensures var r := host.RedactEntries(entries, depth);
            && |r| == |entries|
            && forall i :: 0 <= i < |r| ==> r[i] == Item(Name(entries[i].key.text), host.RedactItem(entries[i], depth))
  {
    if entries != [] {
      var rest, e := entries[..|entries| - 1], entries[|entries| - 1];
      DistinctKeysKeepTheirPlaces(host, rest, depth);
      PutAppends(host.RedactEntries(rest, depth), e.key.text, host.RedactItem(e, depth));
    }
  }

  /** Nothing to hide: string keys, each once, none sensitive; short strings that
      masking leaves alone; no bytes; not too deep. */
  predicate Plain(host: Host, v: Value, depth: nat)
    decreases v
  {
    && depth <= MAX_DEPTH
    && match v
       case Mapping(entries) =>
         DistinctKeys(entries) && forall i :: 0 <= i < |entries| ==> PlainItem(host, entries[i], depth)
       case List(items) => forall i :: 0 <= i < |items| ==> Plain(host, items[i], depth + 1)
       case Str(text) => host.redactText(text) == text && |text| <= MAX_STRING_LENGTH
       case Bytes(_) => false
       case _ => true
  }

  predicate PlainItem(host: Host, e: Item, depth: nat)
    decreases e
  {
    e.key.Name? && !host.IsSensitiveKey(e.key.text) && Plain(host, e.value, depth + 1)
  }

  /** Redaction hides no more than it must: a plain payload comes out as it went in. */
  lemma {:induction false} PlainIsUntouched(host: Host, v: Value, depth: nat)
    requires Plain(host, v, depth)
    ensures host.Redact(v, depth) == v
    decreases v
  {
    if v.Mapping? {
      DistinctKeysKeepTheirPlaces(host, v.entries, depth);
      forall i | 0 <= i < |v.entries| ensures host.RedactEntries(v.entries, depth)[i] == v.entries[i] {
        var e := v.entries[i];
        assert PlainItem(host, e, depth) && e.value < e;
        PlainIsUntouched(host, e.value, depth + 1);
      }
      assert host.RedactEntries(v.entries, depth) == v.entries;
    } else if v.List? {
      forall i | 0 <= i < |v.items| ensures host.Redact(v.items[i], depth + 1) == v.items[i] {
        PlainIsUntouched(host, v.items[i], depth + 1);
      }
      assert host.Redact(v, depth).items == v.items;
    }
  }

  // ---- what the trail stores

  const MAX_STORED_OUTPUT_CHARS: nat := 4000
  const PREVIEW_CHARS: nat := 500

  /** Encoding and digest, of which nothing is known. */
  datatype Codec = Codec(dumps: Value -> string, sha256: string -> string)

  /** The payload columns of an audit row. */
  datatype Stored = Stored(payload: string, digest: Option<string>)

  function Record(host: Host, codec: Codec, payload: Value): Stored {
    var encoded := codec.dumps(host.Redact(payload, 0));
    if |encoded| <= MAX_STORED_OUTPUT_CHARS then Stored(encoded, None)
    else
      var digest := codec.sha256(encoded);
      Stored(
        codec.dumps(Mapping([
          Item(Name("_hashed"), Flag(true)),
          Item(Name("_sha256"), Str(digest)),
          Item(Name("_bytes"), Number(|encoded|)),
          Item(Name("_preview"), Str(encoded[..PREVIEW_CHARS]))])),
        Some(digest))
  }

  /** The result columns of a ledger row. */
  function RecordOutput(host: Host, codec: Codec, output: Value): (string, string) {
    var encoded := codec.dumps(host.Redact(output, 0));
    (codec.sha256(encoded), if |encoded| <= MAX_STORED_OUTPUT_CHARS then encoded else encoded[..PREVIEW_CHARS])
  }

  /** A payload is stored whole up to 4000 characters of encoding; a longer one as a
      summary with its size, its digest and its first 500. */
  lemma StoredWholeOrSummed(host: Host, codec: Codec, payload: Value)
    ensures var encoded := codec.dumps(host.Redact(payload, 0));
            var stored := Record(host, codec, payload);
            if |encoded| <= 4000 then stored.payload == encoded && stored.digest == None
            else
              && stored.digest == Some(codec.sha256(encoded))
              && exists summary ::
                   && stored.payload == codec.dumps(Mapping(summary))
                   && Get(summary, "_sha256") == Some(Str(codec.sha256(encoded)))
                   && Get(summary, "_bytes") == Some(Number(|encoded|))
                   && Get(summary, "_preview") == Some(Str(encoded[..500]))
    ensures var encoded := codec.dumps(host.Redact(payload, 0));
            RecordOutput(host, codec, payload) ==
            (codec.sha256(encoded), if |encoded| <= 4000 then encoded else encoded[..500])
  {
    var encoded := codec.dumps(host.Redact(payload, 0));
    if |encoded| > 4000 {
      var summary := [
        Item(Name("_hashed"), Flag(true)), Item(Name("_sha256"), Str(codec.sha256(encoded))),
        Item(Name("_bytes"), Number(|encoded|)), Item(Name("_preview"), Str(encoded[..500]))];
      SummaryIsRead(summary);
      assert Record(host, codec, payload).payload == codec.dumps(Mapping(summary));
    }
  }

  lemma SummaryIsRead(summary: seq<Item>)
    requires |summary| == 4 && summary[0].key.text == "_hashed" && summary[1].key.text == "_sha256"
    requires summary[2].key.text == "_bytes" && summary[3].key.text == "_preview"
    ensures Get(summary, "_sha256") == Some(summary[1].value)
    ensures Get(summary, "_bytes") == Some(summary[2].value)
    ensures Get(summary, "_preview") == Some(summary[3].value)
  {
    var one, two, three := summary[1..], summary[2..], summary[3..];
    assert one[0] == summary[1] && two[0] == summary[2] && three[0] == summary[3];
    assert one[1..] == two && two[1..] == three;
    assert Get(two, "_preview") == Get(three, "_preview");
    assert Get(one, "_preview") == Get(two, "_preview") && Get(one, "_bytes") == Get(two, "_bytes");
  }

  /** Secrets leave no trace in what is stored: neither in the payload, nor in its
      preview, nor in the digest. */
  lemma StoredRowsDoNotInterfere(host: Host, codec: Codec, a: Value, b: Value)
    requires SameButSecrets(host, a, b, 0)
    ensures Record(host, codec, a) == Record(host, codec, b)
    ensures RecordOutput(host, codec, a) == RecordOutput(host, codec, b)
  {
    NonInterference(host, a, b, 0);
  }
}
