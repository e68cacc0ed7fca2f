/** Erasure of personal data from a log whose rows are never deleted. */
module Scrub {
  import opened Prelude
  import opened Tables
  import opened Redaction

  /** The jsonb text of a value that is neither null nor a string: a number, `true`, `[…`, `{…`. */
  type Rendered = s: string | s != "" && s[0] != '<' witness "0"

  /** A metadata value as `->>` sees it. */
  datatype Value = Null | Text(text: string) | Other(rendered: Rendered)

  type Metadata = map<string, Value>

  datatype Entry = Entry(
    org: Option<OrgId>, actor: ActorId, at: Time, action: string, entityType: string, entityId: nat,
    intentHash: string, diff: map<string, Json>, metadata: Metadata)

  const SENTINEL := "<scrubbed:gdpr>"
  const SCRUBBED_FIELDS := ["ip", "user_agent", "original_prompt", "path"]

  datatype Filter = Filter(actor: Option<ActorId>, ip: Option<string>, since: Option<Time>, until: Option<Time>)

  /** By truth value: an `ip` of "" does not count as a filter on its own. */
  predicate IsEmpty(f: Filter) {
    f.actor.None? && (f.ip.None? || f.ip.value == "") && f.since.None? && f.until.None?
  }

  /** `metadata->>key`: SQL null for an absent key and for a JSON null. */
  function TextAt(m: Metadata, key: string): Option<string> {
    if key !in m then None
    else
      match m[key]
      case Null => None
      case Text(t) => Some(t)
      case Other(t) => Some(t)
  }

  predicate Fits(f: Filter, e: Entry) {
    && (f.actor.Some? ==> e.actor == f.actor.value)
    && (f.ip.Some? ==> TextAt(e.metadata, "ip") == f.ip)
    && (f.since.Some? ==> f.since.value <= e.at)
    && (f.until.Some? ==> e.at <= f.until.value)
  }

  predicate Pending(m: Metadata, key: string) {
    TextAt(m, key).Some? && TextAt(m, key).value != SENTINEL
  }

  /** Something is left to erase. */
  predicate Unscrubbed(m: Metadata) {
    exists key :: key in SCRUBBED_FIELDS && Pending(m, key)
  }

  datatype Request = Request(org: OrgId, filter: Filter)

  /** The WHERE clause. */
  predicate Hits(r: Request, e: Entry) {
    e.org == Some(r.org) && Fits(r.filter, e) && Unscrubbed(e.metadata)
  }

  /** `jsonb_set(…, create_missing => false)`. */
  function JsonbSet(m: Metadata, key: string): Metadata {
    if key in m then m[key := Text(SENTINEL)] else m
  }

  /** The nested `jsonb_set` expression, one call wrapped around the next. */
  function Wrap(m: Metadata, keys: seq<string>): Metadata {
    if keys == [] then m else JsonbSet(Wrap(m, keys[..|keys| - 1]), keys[|keys| - 1])
  }

  function Erase(m: Metadata): Metadata {
    Wrap(m, SCRUBBED_FIELDS)
  }

  function ScrubEntry(r: Request, e: Entry): Entry {
    if Hits(r, e) then e.(metadata := Erase(e.metadata)) else e
  }

  function ScrubRows(r: Request, rows: seq<Entry>): seq<Entry> {
    seq(|rows|, i requires 0 <= i < |rows| => ScrubEntry(r, rows[i]))
  }

  function CountHits(r: Request, rows: seq<Entry>): nat {
    if rows == [] then 0
    else CountHits(r, rows[..|rows| - 1]) + if Hits(r, rows[|rows| - 1]) then 1 else 0
  }

  // ---- the audit row of the scrub itself ----

  datatype Intent = Intent(hash: string, metadata: Metadata)

  function IdText(n: nat): string {
    var digit := ['0' + (n % 10) as char];
    if n < 10 then digit else IdText(n / 10) + digit
  }

  function BuildMetadata(base: Metadata, extra: Metadata, org: Option<OrgId>): Metadata {
    (if org.Some? && "org_id" !in base then base["org_id" := Text(IdText(org.value))] else base) + extra
  }

  function FilterJson(f: Filter): Json {
    JObj((if f.actor.Some? then map["actor_id" := JStr(IdText(f.actor.value))] else map[])
      + (if f.ip.Some? then map["ip" := JStr(f.ip.value)] else map[])
      + (if f.since.Some? then map["since" := JNum(f.since.value)] else map[])
      + (if f.until.Some? then map["until" := JNum(f.until.value)] else map[]))
  }

  function MetaRow(r: Request, dpo: ActorId, count: nat, intent: Intent, id: nat, now: Time): Entry {
    var after := JObj(map["filter" := FilterJson(r.filter), "rows_scrubbed" := JNum(count)]);
    Entry(Some(r.org), dpo, now, "scrub", "audit_scrub", id, intent.hash,
          Redact(map["before" := JObj(map[]), "after" := after], {}),
          BuildMetadata(intent.metadata, map[], Some(r.org)))
  }

  datatype ScrubError = EmptyFilter | MissingIntent

  /** What one call does to the log. Without a request context the wet call fails and nothing is kept. */
  function Perform(r: Request, dry: bool, dpo: ActorId, intent: Option<Intent>, id: nat, now: Time, rows: seq<Entry>):
    (seq<Entry>, Result<nat, ScrubError>)
  {
    if IsEmpty(r.filter) then (rows, Err(EmptyFilter))
    else
      var count := CountHits(r, rows);
      if dry then (rows, Ok(count))
      else if intent.None? then (rows, Err(MissingIntent))
      else (ScrubRows(r, rows) + [MetaRow(r, dpo, count, intent.value, id, now)], Ok(count))
  }

  /** The log as it runs: rows rewritten in place, one meta row appended. */
  class AuditLog {
    var rows: seq<Entry>

    constructor ()
      ensures rows == []
    {
      rows := [];
    }

    /** The four `jsonb_set` calls of the UPDATE, applied one after another. */
    method EraseFields(m: Metadata) returns (erased: Metadata)
      ensures erased == Erase(m)
    {
      erased := m;
      for i := 0 to |SCRUBBED_FIELDS|
        invariant erased == Wrap(m, SCRUBBED_FIELDS[..i])
      {
        assert SCRUBBED_FIELDS[..i + 1][..i] == SCRUBBED_FIELDS[..i];
        erased := JsonbSet(erased, SCRUBBED_FIELDS[i]);
      }
      assert SCRUBBED_FIELDS[..|SCRUBBED_FIELDS|] == SCRUBBED_FIELDS;
    }

    /** The UPDATE: visits the rows in order and counts the ones it rewrites. */
    method Update(r: Request) returns (count: nat)
      modifies this
      ensures rows == ScrubRows(r, old(rows)) && count == CountHits(r, old(rows))
    {
      hide Hits, Erase;
      count := 0;
      ghost var was := rows;
      for i := 0 to |rows|
        invariant |rows| == |was| && count == CountHits(r, was[..i])
        invariant forall k :: 0 <= k < |was| ==> rows[k] == if k < i then ScrubEntry(r, was[k]) else was[k]
      {
        assert was[..i + 1][..i] == was[..i];
        if Hits(r, rows[i]) {
          var erased := EraseFields(rows[i].metadata);
          rows := rows[i := rows[i].(metadata := erased)];
          count := count + 1;
        }
      }
      assert was[..|was|] == was;
    }

    method Count(r: Request) returns (count: nat)
      ensures count == CountHits(r, rows)
    {
      count := 0;
      for i := 0 to |rows|
        invariant count == CountHits(r, rows[..i])
      {
        assert rows[..i + 1][..i] == rows[..i];
        if Hits(r, rows[i]) {
          count := count + 1;
        }
      }
      assert rows[..|rows|] == rows;
    }

    method Scrub(r: Request, dry: bool, dpo: ActorId, intent: Option<Intent>, id: nat, now: Time)
      returns (result: Result<nat, ScrubError>)
      modifies this
      ensures (rows, result) == Perform(r, dry, dpo, intent, id, now, old(rows))
    {
      if IsEmpty(r.filter) {
        return Err(EmptyFilter);
      }
      if dry {
        var count := Count(r);
        return Ok(count);
      }
      var before := rows;
      var count := Update(r);
      if intent.None? {
        rows := before;
        return Err(MissingIntent);
      }
      rows := rows + [MetaRow(r, dpo, count, intent.value, id, now)];
      return Ok(count);
    }
  }
}
