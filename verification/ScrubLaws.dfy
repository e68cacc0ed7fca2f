/** What a scrub changes, what a second one changes, and what any number of them in any order amount to. */
module ScrubLaws {
  import opened Prelude
  import opened Tables
  import opened Redaction
  import opened Scrub

  // ---- one scrub ----

  lemma {:induction false} WrapIsPointwise(m: Metadata, keys: seq<string>)
    ensures Wrap(m, keys).Keys == m.Keys
    ensures forall k :: k in m ==> Wrap(m, keys)[k] == if k in keys then Text(SENTINEL) else m[k]
  {
    if keys != [] {
      var rest := keys[..|keys| - 1];
      WrapIsPointwise(m, rest);
      assert keys == rest + [keys[|keys| - 1]];
    }
  }

  /** The erased keys carry the sentinel, absent keys stay absent, other keys keep their values. */
  lemma EraseIsPointwise(m: Metadata)
    ensures Erase(m).Keys == m.Keys
    ensures forall k :: k in m ==> Erase(m)[k] == if k in SCRUBBED_FIELDS then Text(SENTINEL) else m[k]
    ensures !Unscrubbed(Erase(m)) && Erase(Erase(m)) == Erase(m)
  {
    WrapIsPointwise(m, SCRUBBED_FIELDS);
    WrapIsPointwise(Erase(m), SCRUBBED_FIELDS);
  }

  /** A row is rewritten exactly when it is hit, and only its metadata is. */
  lemma HitsIffChanged(r: Request, e: Entry)
    ensures Hits(r, e) <==> ScrubEntry(r, e) != e
    ensures ScrubEntry(r, e) == e.(metadata := ScrubEntry(r, e).metadata)
    ensures e.org != Some(r.org) ==> ScrubEntry(r, e) == e
    ensures ScrubEntry(r, e).metadata.Keys == e.metadata.Keys
    ensures forall k :: k in e.metadata && k !in SCRUBBED_FIELDS ==> ScrubEntry(r, e).metadata[k] == e.metadata[k]
    ensures !Hits(r, ScrubEntry(r, e))
  {
    hide Erase;
    EraseIsPointwise(e.metadata);
    if Hits(r, e) {
      var key :| key in SCRUBBED_FIELDS && Pending(e.metadata, key);
      assert Erase(e.metadata)[key] == Text(SENTINEL);
    }
  }

  function Changed(before: seq<Entry>, after: seq<Entry>): set<nat>
    requires |before| == |after|
  {
    set i: nat | 0 <= i < |before| && before[i].metadata != after[i].metadata
  }

  /** The reported count, dry or wet, is the number of rows whose metadata the wet call changes. */
  lemma {:induction false} CountIsRowsChanged(r: Request, rows: seq<Entry>)
    ensures CountHits(r, rows) == |Changed(rows, ScrubRows(r, rows))|
  {
    hide Hits, ScrubEntry;
    if rows == [] {
      assert Changed(rows, ScrubRows(r, rows)) == {};
    } else {
      var n := |rows| - 1;
      CountIsRowsChanged(r, rows[..n]);
      HitsIffChanged(r, rows[n]);
      ChangedGrows(rows, ScrubRows(r, rows));
      assert ScrubRows(r, rows)[..n] == ScrubRows(r, rows[..n]);
    }
  }

  lemma ChangedGrows(before: seq<Entry>, after: seq<Entry>)
    requires |before| == |after| > 0
    ensures var n := |before| - 1;
      var fewer := Changed(before[..n], after[..n]);
      && n !in fewer
      && Changed(before, after) == if before[n].metadata != after[n].metadata then fewer + {n} else fewer
  {
  }

  /** A dry run promises what the wet run then does. */
  lemma DryRunForetells(r: Request, dpo: ActorId, intent: Option<Intent>, id: nat, now: Time, rows: seq<Entry>)
    ensures var dry := Perform(r, true, dpo, intent, id, now, rows);
      var wet := Perform(r, false, dpo, intent, id, now, rows);
      && dry.0 == rows
      && (wet.1.Ok? ==> dry.1 == wet.1 && |wet.0| == |rows| + 1 && wet.1.value == |Changed(rows, wet.0[..|rows|])|)
      && (wet.1.Err? ==> wet.0 == rows)
  {
    CountIsRowsChanged(r, rows);
    assert forall e :: (ScrubRows(r, rows) + [e])[..|rows|] == ScrubRows(r, rows);
  }

  // ---- the same scrub again ----

  lemma {:induction false} NothingLeftToHit(r: Request, rows: seq<Entry>)
    ensures CountHits(r, ScrubRows(r, rows)) == 0
    ensures ScrubRows(r, ScrubRows(r, rows)) == ScrubRows(r, rows)
  {
    if rows != [] {
      var n := |rows| - 1;
      NothingLeftToHit(r, rows[..n]);
      HitsIffChanged(r, rows[n]);
      assert ScrubRows(r, rows)[..n] == ScrubRows(r, rows[..n]);
      forall i | 0 <= i < |rows| ensures ScrubEntry(r, ScrubRows(r, rows)[i]) == ScrubRows(r, rows)[i] {
        HitsIffChanged(r, rows[i]);
      }
    }
  }

  /**
   Running a scrub again changes no earlier row. Its count is 0, or 1 when the filter catches the
   first run's own meta row, which carries the path of the request that ran it.
   */
  lemma RerunTouchesOnlyTheMetaRow(r: Request, dpo: ActorId, intent: Intent, id: nat, now: Time,
                                   dpo': ActorId, intent': Intent, id': nat, now': Time, rows: seq<Entry>)
    requires !IsEmpty(r.filter)
    ensures var first := Perform(r, false, dpo, Some(intent), id, now, rows);
      var second := Perform(r, false, dpo', Some(intent'), id', now', first.0);
      && |first.0| == |rows| + 1
      && second.0[..|rows|] == first.0[..|rows|]
      && second.1 == Ok(if Hits(r, first.0[|rows|]) then 1 else 0)
  {
    var done := ScrubRows(r, rows);
    var meta := MetaRow(r, dpo, CountHits(r, rows), intent, id, now);
    NothingLeftToHit(r, rows);
    assert (done + [meta])[..|rows|] == done;
    var again := ScrubRows(r, done + [meta]);
    assert again[..|rows|] == ScrubRows(r, done);
    var second := Perform(r, false, dpo', Some(intent'), id', now', done + [meta]);
    assert second.0[..|rows|] == again[..|rows|];
  }

  /** A scrub selects the meta row of an earlier one exactly when that request left something to erase and fits the filter. */
  lemma MetaRowIsHitIffMatched(r: Request, dpo: ActorId, count: nat, intent: Intent, id: nat, now: Time)
    ensures var meta := MetaRow(r, dpo, count, intent, id, now);
      Hits(r, meta) <==>
        && Unscrubbed(intent.metadata)
        && (r.filter.actor.Some? ==> r.filter.actor.value == dpo)
        && (r.filter.ip.Some? ==> TextAt(intent.metadata, "ip") == r.filter.ip)
        && (r.filter.since.Some? ==> r.filter.since.value <= now)
        && (r.filter.until.Some? ==> now <= r.filter.until.value)
  {
    hide IdText, FilterJson, Redact;
    var meta := MetaRow(r, dpo, count, intent, id, now).metadata;
    assert "org_id" !in SCRUBBED_FIELDS;
    forall key | key in SCRUBBED_FIELDS ensures TextAt(meta, key) == TextAt(intent.metadata, key) {
    }
    assert "ip" == SCRUBBED_FIELDS[0] && "ip" in SCRUBBED_FIELDS;
    assert forall key :: key in SCRUBBED_FIELDS ==> (Pending(meta, key) <==> Pending(intent.metadata, key));
  }

  /** A scrub of the caller's own rows, run twice on an empty log: the second run reports the first one's meta row. */
  lemma RerunReportsOne()
    ensures var r := Request(1, Filter(Some(5), None, None, None));
      var intent := Intent("req:1", map["path" := Text("/audit/scrub")]);
      var first := Perform(r, false, 5, Some(intent), 0, 10, []);
      first.1 == Ok(0) && Perform(r, false, 5, Some(intent), 1, 20, first.0).1 == Ok(1)
  {
    hide IdText, FilterJson, Redact, MetaRow;
    var r := Request(1, Filter(Some(5), None, None, None));
    var intent := Intent("req:1", map["path" := Text("/audit/scrub")]);
    assert "path" == SCRUBBED_FIELDS[3] && Pending(intent.metadata, "path");
    RerunTouchesOnlyTheMetaRow(r, 5, intent, 0, 10, 5, intent, 1, 20, []);
    MetaRowIsHitIffMatched(r, 5, 0, intent, 0, 10);
    assert Perform(r, false, 5, Some(intent), 0, 10, []).0 == [MetaRow(r, 5, 0, intent, 0, 10)];
  }

  // ---- many scrubs ----

  function ScrubAll(rs: seq<Request>, rows: seq<Entry>): seq<Entry> {
    if rs == [] then rows else ScrubRows(rs[|rs| - 1], ScrubAll(rs[..|rs| - 1], rows))
  }

  /** The counts the calls report over these rows, added up. */
  function TotalCount(rs: seq<Request>, rows: seq<Entry>): nat {
    if rs == [] then 0
    else TotalCount(rs[..|rs| - 1], rows) + CountHits(rs[|rs| - 1], ScrubAll(rs[..|rs| - 1], rows))
  }

  predicate AnyHits(rs: seq<Request>, e: Entry) {
    exists r :: r in rs && Hits(r, e)
  }

  /** One pass that erases every row some request catches as the row stood at the start. */
  function OnePass(rs: seq<Request>, rows: seq<Entry>): seq<Entry> {
    seq(|rows|, i requires 0 <= i < |rows| =>
      if AnyHits(rs, rows[i]) then rows[i].(metadata := Erase(rows[i].metadata)) else rows[i])
  }

  lemma AnyHitsGrows(rs: seq<Request>, r: Request, e: Entry)
    ensures AnyHits(rs + [r], e) <==> AnyHits(rs, e) || Hits(r, e)
  {
    hide Hits;
    if AnyHits(rs, e) {
      var q :| q in rs && Hits(q, e);
      assert q in rs + [r];
    }
    if Hits(r, e) {
      assert (rs + [r])[|rs|] == r;
    }
  }

  /** Scrubbing changes what an `ip` filter sees, yet a sequence of scrubs is one pass with their disjunction. */
  lemma {:induction false} ScrubsComposeAsOr(rs: seq<Request>, rows: seq<Entry>)
    ensures ScrubAll(rs, rows) == OnePass(rs, rows)
  {
    hide Hits, Erase;
    if rs != [] {
      var n := |rs| - 1;
      var r := rs[n];
      ScrubsComposeAsOr(rs[..n], rows);
      assert rs == rs[..n] + [r];
      forall i | 0 <= i < |rows| ensures ScrubAll(rs, rows)[i] == OnePass(rs, rows)[i] {
        AnyHitsGrows(rs[..n], r, rows[i]);
        ErasedIsNotHit(r, rows[i]);
      }
    } else {
      assert forall i :: 0 <= i < |rows| ==> OnePass(rs, rows)[i] == rows[i];
    }
  }

  lemma ErasedIsNotHit(r: Request, e: Entry)
    ensures !Hits(r, e.(metadata := Erase(e.metadata)))
  {
    hide Erase;
    EraseIsPointwise(e.metadata);
  }

  /** So the order of the scrubs does not matter. */
  lemma ScrubOrderIsIrrelevant(rs: seq<Request>, qs: seq<Request>, rows: seq<Entry>)
    requires multiset(rs) == multiset(qs)
    ensures ScrubAll(rs, rows) == ScrubAll(qs, rows)
    ensures TotalCount(rs, rows) == TotalCount(qs, rows)
  {
    hide Hits, Erase;
    ScrubsComposeAsOr(rs, rows);
    ScrubsComposeAsOr(qs, rows);
    assert forall r :: r in rs <==> r in multiset(rs);
    assert forall r :: r in qs <==> r in multiset(qs);
    forall i | 0 <= i < |rows| ensures AnyHits(rs, rows[i]) <==> AnyHits(qs, rows[i]) {
    }
    assert OnePass(rs, rows) == OnePass(qs, rows);
    CountsAddUp(rs, rows);
    CountsAddUp(qs, rows);
  }

  /** Each row is counted by at most one of the calls: the counts add up to the distinct rows changed. */
  lemma {:induction false} CountsAddUp(rs: seq<Request>, rows: seq<Entry>)
    ensures |ScrubAll(rs, rows)| == |rows|
    ensures TotalCount(rs, rows) == |Changed(rows, ScrubAll(rs, rows))|
  {
    hide Hits, Erase, CountHits;
    if rs == [] {
      assert Changed(rows, rows) == {};
    } else {
      var n := |rs| - 1;
      CountsAddUp(rs[..n], rows);
      var before := ScrubAll(rs[..n], rows);
      var after := ScrubAll(rs, rows);
      CountIsRowsChanged(rs[n], before);
      NeverBack(rs, rows);
      assert Changed(rows, after) == Changed(rows, before) + Changed(before, after);
      assert Changed(rows, before) !! Changed(before, after);
    }
  }

  /** A row one scrub changed is not changed by the next. */
  lemma NeverBack(rs: seq<Request>, rows: seq<Entry>)
    requires rs != []
    ensures var before := ScrubAll(rs[..|rs| - 1], rows);
      var after := ScrubAll(rs, rows);
      && |before| == |rows| == |after|
      && forall i :: 0 <= i < |rows| ==> rows[i].metadata == before[i].metadata || before[i].metadata == after[i].metadata
  {
    hide Hits, Erase;
    var n := |rs| - 1;
    ScrubsComposeAsOr(rs[..n], rows);
    var before := ScrubAll(rs[..n], rows);
    forall i | 0 <= i < |rows| ensures rows[i].metadata == before[i].metadata || before[i].metadata == ScrubEntry(rs[n], before[i]).metadata {
      ErasedIsNotHit(rs[n], rows[i]);
    }
  }

  // ---- the filter alone ----

  /** No text left to erase, but a JSON null under one of the keys. */
  predicate NullOnly(m: Metadata) {
    !Unscrubbed(m) && exists key :: key in SCRUBBED_FIELDS && key in m && m[key] == Null
  }

  lemma ErasesUnlessNullOnly(m: Metadata)
    ensures !Unscrubbed(m) ==> (Erase(m) == m <==> !NullOnly(m))
  {
    hide Erase;
    EraseIsPointwise(m);
    if !Unscrubbed(m) && !NullOnly(m) {
      forall k | k in m && k in SCRUBBED_FIELDS ensures m[k] == Text(SENTINEL) {
        assert !Pending(m, k);
        SentinelIsText(m[k]);
      }
      assert Erase(m) == m;
    }
  }

  /** Nothing but the string itself has the sentinel as its text. */
  lemma SentinelIsText(v: Value)
    ensures TextAt(map["" := v], "") == Some(SENTINEL) <==> v == Text(SENTINEL)
  {
    if v.Other? {
      var text: Rendered := v.rendered;
      assert text[0] != SENTINEL[0];
    }
  }

  predicate AnyMatches(rs: seq<Request>, e: Entry) {
    exists r :: r in rs && e.org == Some(r.org) && Fits(r.filter, e)
  }

  /** One pass that erases every row some filter matches, whatever is left in it. */
  function OnePassByFilter(rs: seq<Request>, rows: seq<Entry>): seq<Entry> {
    seq(|rows|, i requires 0 <= i < |rows| =>
      if AnyMatches(rs, rows[i]) then rows[i].(metadata := Erase(rows[i].metadata)) else rows[i])
  }

  /**
   A sequence of scrubs erases every row its filters match exactly when none of those rows holds only
   nulls; with string-valued personal data there is no such row.
   */
  lemma ScrubsEraseAllMatchesIff(rs: seq<Request>, rows: seq<Entry>)
    ensures ScrubAll(rs, rows) == OnePassByFilter(rs, rows) <==>
      forall i :: 0 <= i < |rows| ==> !(AnyMatches(rs, rows[i]) && NullOnly(rows[i].metadata))
  {
    hide Erase, Fits, Unscrubbed;
    ScrubsComposeAsOr(rs, rows);
    forall i | 0 <= i < |rows|
      ensures OnePass(rs, rows)[i] == OnePassByFilter(rs, rows)[i] <==> !(AnyMatches(rs, rows[i]) && NullOnly(rows[i].metadata))
    {
      ErasesUnlessNullOnly(rows[i].metadata);
      assert AnyHits(rs, rows[i]) <==> AnyMatches(rs, rows[i]) && Unscrubbed(rows[i].metadata);
      assert rows[i].(metadata := Erase(rows[i].metadata)) == rows[i] <==> Erase(rows[i].metadata) == rows[i].metadata;
    }
    if ScrubAll(rs, rows) != OnePassByFilter(rs, rows) {
      assert exists i :: 0 <= i < |rows| && OnePass(rs, rows)[i] != OnePassByFilter(rs, rows)[i];
    }
  }

  predicate StringData(m: Metadata) {
    forall k :: k in m && k in SCRUBBED_FIELDS ==> m[k].Text?
  }

  lemma StringsAreNeverNullOnly(m: Metadata)
    requires StringData(m)
    ensures !NullOnly(m)
  {
  }

  /** With string-valued personal data, any sequence of scrubs erases every row its filters match, and no other. */
  lemma StringRowsFollowTheFilters(rs: seq<Request>, rows: seq<Entry>)
    requires forall i :: 0 <= i < |rows| ==> StringData(rows[i].metadata)
    ensures ScrubAll(rs, rows) == OnePassByFilter(rs, rows)
  {
    hide ScrubAll, OnePassByFilter, AnyMatches, NullOnly, StringData;
    forall i | 0 <= i < |rows| ensures !NullOnly(rows[i].metadata) {
      StringsAreNeverNullOnly(rows[i].metadata);
    }
    ScrubsEraseAllMatchesIff(rs, rows);
  }

  // ---- whole runs of calls ----

  datatype Called = Called(request: Request, dry: bool, dpo: ActorId, intent: Option<Intent>, id: nat, now: Time)

  function PerformAll(cs: seq<Called>, rows: seq<Entry>): seq<Entry> {
    if cs == [] then rows
    else
      var c := cs[|cs| - 1];
      Perform(c.request, c.dry, c.dpo, c.intent, c.id, c.now, PerformAll(cs[..|cs| - 1], rows)).0
  }

  predicate Effective(c: Called) {
    !IsEmpty(c.request.filter) && !c.dry && c.intent.Some?
  }

  function Requests(cs: seq<Called>): seq<Request> {
    if cs == [] then []
    else Requests(cs[..|cs| - 1]) + if Effective(cs[|cs| - 1]) then [cs[|cs| - 1].request] else []
  }

  lemma OneCallOnPrefix(c: Called, before: seq<Entry>, n: nat)
    requires n <= |before|
    ensures var after := Perform(c.request, c.dry, c.dpo, c.intent, c.id, c.now, before).0;
      if Effective(c) then |after| == |before| + 1 && after[..n] == ScrubRows(c.request, before[..n]) else after == before
  {
    hide Hits, Erase, MetaRow, CountHits, IsEmpty, ScrubEntry;
    assert ScrubRows(c.request, before)[..n] == ScrubRows(c.request, before[..n]);
  }

  lemma NoCalls()
    ensures Requests([]) == []
  {
  }

  lemma RequestsOfLast(cs: seq<Called>)
    requires cs != []
    ensures var n := |cs| - 1;
      if Effective(cs[n]) then |Requests(cs)| == |Requests(cs[..n])| + 1 && Requests(cs)[..|Requests(cs)| - 1] == Requests(cs[..n])
        && Requests(cs)[|Requests(cs)| - 1] == cs[n].request
      else Requests(cs) == Requests(cs[..n])
  {
    hide Effective;
  }

  /** Over any run of calls the rows there at the start undergo one pass, and the log only grows behind them. */
  lemma {:induction false} CallsAreOnePass(cs: seq<Called>, rows: seq<Entry>)
    ensures |PerformAll(cs, rows)| == |rows| + |Requests(cs)|
    ensures PerformAll(cs, rows)[..|rows|] == OnePass(Requests(cs), rows)
  {
    hide Perform, ScrubRows, OnePass, Requests, Effective;
    ScrubsComposeAsOr(Requests(cs), rows);
    if cs == [] {
      assert Requests(cs) == [] by {
        NoCalls();
      }
      assert rows[..|rows|] == rows;
    } else {
      var n := |cs| - 1;
      CallsAreOnePass(cs[..n], rows);
      ScrubsComposeAsOr(Requests(cs[..n]), rows);
      OneCallOnPrefix(cs[n], PerformAll(cs[..n], rows), |rows|);
      RequestsOfLast(cs);
    }
  }

  /** Columns other than the metadata never change, in rows old and new. */
  lemma {:induction false} CallsKeepColumns(cs: seq<Called>, rows: seq<Entry>, i: nat)
    requires i < |rows|
    ensures |rows| <= |PerformAll(cs, rows)|
    ensures PerformAll(cs, rows)[i] == rows[i].(metadata := PerformAll(cs, rows)[i].metadata)
  {
    hide Hits, Erase, MetaRow, CountHits, IsEmpty;
    if cs != [] {
      CallsKeepColumns(cs[..|cs| - 1], rows, i);
    }
  }

  /**
   The record of a scrub keeps the address it filters by: it stands in the diff of the meta row, and no
   later scrub reaches a diff. A scrub by anything else records no address.
   */
  lemma AddressStaysInTheDiff(r: Request, dpo: ActorId, intent: Intent, id: nat, now: Time, rows: seq<Entry>, later: seq<Called>)
    requires !IsEmpty(r.filter)
    ensures var after := PerformAll(later, Perform(r, false, dpo, Some(intent), id, now, rows).0);
      && |rows| < |after| && "after" in after[|rows|].diff
      && At(after[|rows|].diff["after"], [Key("filter"), Key("ip")]) == Recorded(r.filter.ip)
  {
    hide Hits, CountHits, IsEmpty, Redact, FilterJson;
    var first := Perform(r, false, dpo, Some(intent), id, now, rows).0;
    CallsKeepColumns(later, first, |rows|);
    AddressInDiff(r, dpo, CountHits(r, rows), intent, id, now);
  }

  function Recorded(ip: Option<string>): Option<Json> {
    if ip.Some? then Some(JStr(ip.value)) else None
  }

  lemma AddressInFilter(f: Filter)
    ensures At(FilterJson(f), [Key("ip")]) == Recorded(f.ip)
  {
    hide IdText;
    OneStep(FilterJson(f), "ip");
  }

  lemma AddressInDiff(r: Request, dpo: ActorId, count: nat, intent: Intent, id: nat, now: Time)
    ensures var diff := MetaRow(r, dpo, count, intent, id, now).diff;
      "after" in diff && At(diff["after"], [Key("filter"), Key("ip")]) == Recorded(r.filter.ip)
  {
    hide BuildMetadata, FilterJson, RedactValue;
    var after := JObj(map["filter" := FilterJson(r.filter), "rows_scrubbed" := JNum(count)]);
    var path := [Key("filter"), Key("ip")];
    assert !Falsy(after) by {
      assert "filter" in after.fields;
    }
    assert path[1..] == [Key("ip")];
    AddressInFilter(r.filter);
    assert At(after, path) == At(after.fields["filter"], path[1..]);
    assert !Denied(path[0], GLOBAL_REDACT) && !Denied(path[1], GLOBAL_REDACT);
    assert GLOBAL_REDACT + {} == GLOBAL_REDACT;
    OutsideMasksNothingMoves(after, path, GLOBAL_REDACT);
    MaskedString(r.filter.ip);
  }

  lemma MaskedString(ip: Option<string>)
    ensures ip.Some? ==> RedactValue(Recorded(ip).value, GLOBAL_REDACT) == Recorded(ip).value
  {
  }

  // ---- the WHERE clause and the meta row, spelled out ----

  /** A value that is there to be erased: a string other than the literal, or anything else but null. */
  predicate Erasable(v: Value) {
    (v.Text? && v.text != "<scrubbed:gdpr>") || v.Other?
  }

  /** Which rows a scrub selects, column by column. */
  predicate Selected(org: OrgId, f: Filter, e: Entry) {
    && e.org == Some(org)
    && (f.actor == None || f.actor == Some(e.actor))
    && (f.since == None || f.since.value <= e.at)
    && (f.until == None || f.until.value >= e.at)
    && (f.ip == None || ("ip" in e.metadata && (e.metadata["ip"] == Text(f.ip.value)
                                                || (e.metadata["ip"].Other? && e.metadata["ip"].rendered == f.ip.value))))
    && ((("ip" in e.metadata && Erasable(e.metadata["ip"])) || ("user_agent" in e.metadata && Erasable(e.metadata["user_agent"])))
        || (("original_prompt" in e.metadata && Erasable(e.metadata["original_prompt"]))
            || ("path" in e.metadata && Erasable(e.metadata["path"]))))
  }

  lemma ErasableIffPending(m: Metadata, key: string)
    ensures Pending(m, key) <==> key in m && Erasable(m[key])
  {
    if key in m && m[key].Other? {
      var text: Rendered := m[key].rendered;
      assert text[0] != SENTINEL[0];
    }
  }

  lemma FieldsAre(key: string)
    ensures key in SCRUBBED_FIELDS <==> key == "ip" || key == "user_agent" || key == "original_prompt" || key == "path"
  {
    assert SCRUBBED_FIELDS[0] == "ip" && SCRUBBED_FIELDS[1] == "user_agent";
    assert SCRUBBED_FIELDS[2] == "original_prompt" && SCRUBBED_FIELDS[3] == "path";
  }

  lemma AddressIs(m: Metadata, ip: string)
    ensures TextAt(m, "ip") == Some(ip) <==>
      "ip" in m && (m["ip"] == Text(ip) || (m["ip"].Other? && m["ip"].rendered == ip))
  {
  }

  lemma UnscrubbedIs(m: Metadata)
    ensures Unscrubbed(m) <==>
      || ("ip" in m && Erasable(m["ip"])) || ("user_agent" in m && Erasable(m["user_agent"]))
      || ("original_prompt" in m && Erasable(m["original_prompt"])) || ("path" in m && Erasable(m["path"]))
  {
    hide Pending, Erasable, SCRUBBED_FIELDS;
    forall key ensures Pending(m, key) <==> key in m && Erasable(m[key]) {
      ErasableIffPending(m, key);
    }
    forall key ensures key in SCRUBBED_FIELDS <==> key == "ip" || key == "user_agent" || key == "original_prompt" || key == "path" {
      FieldsAre(key);
    }
    assert "ip" in m && Erasable(m["ip"]) ==> Pending(m, "ip");
    assert "user_agent" in m && Erasable(m["user_agent"]) ==> Pending(m, "user_agent");
    assert "original_prompt" in m && Erasable(m["original_prompt"]) ==> Pending(m, "original_prompt");
    assert "path" in m && Erasable(m["path"]) ==> Pending(m, "path");
  }

  lemma HitsIffSelected(org: OrgId, f: Filter, e: Entry)
    ensures Hits(Request(org, f), e) <==> Selected(org, f, e)
  {
    hide TextAt, Unscrubbed, Erasable;
    UnscrubbedIs(e.metadata);
    if f.ip.Some? {
      AddressIs(e.metadata, f.ip.value);
    }
  }

  /** A wet call is refused exactly for a filter without a field, an empty address counting as none, or without a context. */
  lemma RefusedIff(r: Request, dry: bool, dpo: ActorId, intent: Option<Intent>, id: nat, now: Time, rows: seq<Entry>)
    ensures var f, done := r.filter, Perform(r, dry, dpo, intent, id, now, rows);
      && (done.1 == Err(EmptyFilter) <==>
        f.actor == None && f.since == None && f.until == None && (f.ip == None || f.ip == Some("")))
      && (done.1 == Err(MissingIntent) <==> done.1 != Err(EmptyFilter) && !dry && intent == None)
      && (done.1.Err? ==> done.0 == rows)
  {
  }

  /** What the meta row says: who scrubbed, when and on what request. */
  lemma MetaRowSays(r: Request, dpo: ActorId, count: nat, intent: Intent, id: nat, now: Time)
    ensures var e := MetaRow(r, dpo, count, intent, id, now);
      && e.org == Some(r.org) && e.actor == dpo && e.at == now && e.entityId == id && e.intentHash == intent.hash
      && e.action == "scrub" && e.entityType == "audit_scrub"
      && (forall k :: k in intent.metadata ==> k in e.metadata && e.metadata[k] == intent.metadata[k])
      && "org_id" in e.metadata && ("org_id" !in intent.metadata ==> e.metadata["org_id"] == Text(IdText(r.org)))
      && (forall k :: k in e.metadata && k != "org_id" ==> k in intent.metadata)
  {
    hide IdText, FilterJson, Redact;
  }

  /** What its diff says: nothing before; after, the filter as it was given and the number of rows. */
  lemma MetaDiffSays(r: Request, dpo: ActorId, count: nat, intent: Intent, id: nat, now: Time)
    ensures var diff := MetaRow(r, dpo, count, intent, id, now).diff;
      diff == map["before" := JObj(map[]), "after" := JObj(map["filter" := FilterJson(r.filter), "rows_scrubbed" := JNum(count)])]
  {
    hide IdText, FilterJson, BuildMetadata, RedactValue;
    var after := JObj(map["filter" := FilterJson(r.filter), "rows_scrubbed" := JNum(count)]);
    assert "filter" in after.fields && !Falsy(after);
    assert GLOBAL_REDACT + {} == GLOBAL_REDACT;
    AfterIsClean(r.filter, count);
    EmptyIsClean();
  }

  lemma EmptyIsClean()
    ensures RedactValue(JObj(map[]), GLOBAL_REDACT) == JObj(map[])
  {
  }

  lemma AfterIsClean(f: Filter, count: nat)
    ensures var after := JObj(map["filter" := FilterJson(f), "rows_scrubbed" := JNum(count)]);
      RedactValue(after, GLOBAL_REDACT) == after
  {
    hide FilterJson;
    FilterIsClean(f);
    MaskedIffUnchanged(FilterJson(f), GLOBAL_REDACT);
    MaskedIffUnchanged(JObj(map["filter" := FilterJson(f), "rows_scrubbed" := JNum(count)]), GLOBAL_REDACT);
  }

  /** Nothing in a filter is ever masked, and it records exactly the fields that are set. */
  lemma FilterIsClean(f: Filter)
    ensures RedactValue(FilterJson(f), GLOBAL_REDACT) == FilterJson(f)
  {
    hide IdText;
    FilterSays(f);
    MaskedIffUnchanged(FilterJson(f), GLOBAL_REDACT);
  }

  lemma FilterSays(f: Filter)
    ensures FilterJson(f).JObj?
    ensures var m := FilterJson(f).fields;
      && (forall k :: k in m ==> k == "actor_id" || k == "ip" || k == "since" || k == "until")
      && ("actor_id" in m <==> f.actor != None) && (f.actor != None ==> m["actor_id"] == JStr(IdText(f.actor.value)))
      && ("ip" in m <==> f.ip != None) && (f.ip != None ==> m["ip"] == JStr(f.ip.value))
      && ("since" in m <==> f.since != None) && (f.since != None ==> m["since"] == JNum(f.since.value))
      && ("until" in m <==> f.until != None) && (f.until != None ==> m["until"] == JNum(f.until.value))
  {
    hide IdText;
  }

  /** The number a decimal text denotes. */
  function ReadId(text: string): nat
    requires forall i :: 0 <= i < |text| ==> '0' <= text[i] <= '9'
  {
    if text == "" then 0 else 10 * ReadId(text[..|text| - 1]) + (text[|text| - 1] as nat - '0' as nat)
  }

  /** An identifier can be read back from its text, so no two share one. */
  lemma {:induction false} IdsReadBack(n: nat)
    ensures forall i :: 0 <= i < |IdText(n)| ==> '0' <= IdText(n)[i] <= '9'
    ensures ReadId(IdText(n)) == n
  {
    var text := IdText(n);
    if n >= 10 {
      IdsReadBack(n / 10);
      assert text[..|text| - 1] == IdText(n / 10);
    } else {
      assert text[..|text| - 1] == "" && ReadId(text[..|text| - 1]) == 0;
    }
  }

  /** Metadata of a row: the request's, the organisation stamped if it names none, and the caller's own on top. */
  lemma MetadataIsBuilt(base: Metadata, extra: Metadata, org: Option<OrgId>, k: string)
    ensures var m := BuildMetadata(base, extra, org);
      && (k in m <==> k in extra || k in base || (k == "org_id" && org != None))
      && (k in extra ==> m[k] == extra[k])
      && (k !in extra && k in base ==> m[k] == base[k])
      && (k !in extra && k !in base && k in m ==> m[k] == Text(IdText(org.value)))
  {
    hide IdText;
  }
}
