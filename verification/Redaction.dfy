/** Masking of denied keys in audit diffs, at any depth of a JSON tree. */
module Redaction {
  import opened Prelude

  datatype Json =
    | JNull
    | JBool(b: bool)
    | JNum(n: int)
    | JStr(s: string)
    | JArr(items: seq<Json>)
    | JObj(fields: map<string, Json>)

  const GLOBAL_REDACT: set<string> := {
    "password_hash", "token_hash", "api_key_hash", "key_hash", "client_secret", "raw_token"
  }

  const REDACTED := JStr("<redacted>")

  function RedactValue(v: Json, deny: set<string>): Json {
    match v
    case JObj(fields) => JObj(map k | k in fields :: if k in deny then REDACTED else RedactValue(fields[k], deny))
    case JArr(items) => JArr(seq(|items|, i requires 0 <= i < |items| => RedactValue(items[i], deny)))
    case _ => v
  }

  /** What `or {}` replaces. */
  predicate Falsy(v: Json) {
    v == JNull || v == JBool(false) || v == JNum(0) || v == JStr("") || v == JArr([]) || v == JObj(map[])
  }

  function Side(diff: map<string, Json>, side: string): Json {
    if side !in diff || Falsy(diff[side]) then JObj(map[]) else diff[side]
  }

  function Redact(diff: map<string, Json>, extra: set<string>): map<string, Json> {
    var deny := GLOBAL_REDACT + extra;
    map["before" := RedactValue(Side(diff, "before"), deny), "after" := RedactValue(Side(diff, "after"), deny)]
  }

  // ---- what a reader of the redacted tree can see ----

  datatype Step = Key(key: string) | Item(index: nat)

  /** The value at a path, if the path leads anywhere. */
  function At(v: Json, path: seq<Step>): Option<Json> {
    if path == [] then Some(v)
    else
      match (v, path[0])
      case (JObj(fields), Key(k)) => if k in fields then At(fields[k], path[1..]) else None
      case (JArr(items), Item(i)) => if i < |items| then At(items[i], path[1..]) else None
      case _ => None
  }

  predicate Denied(step: Step, deny: set<string>) {
    step.Key? && step.key in deny
  }

  predicate Clear(path: seq<Step>, deny: set<string>) {
    forall i :: 0 <= i < |path| ==> !Denied(path[i], deny)
  }

  /** Above the masks nothing moves: the same paths lead to the same keys, lengths and leaves. */
  lemma {:induction false} OutsideMasksNothingMoves(v: Json, path: seq<Step>, deny: set<string>)
    requires Clear(path, deny)
    ensures At(v, path).None? ==> At(RedactValue(v, deny), path).None?
    ensures At(v, path).Some? ==> At(RedactValue(v, deny), path) == Some(RedactValue(At(v, path).value, deny))
    decreases |path|
  {
    if path != [] {
      var rest := path[1..];
      assert Clear(rest, deny) && !Denied(path[0], deny);
      match (v, path[0]) {
        case (JObj(fields), Key(k)) =>
          if k in fields {
            OutsideMasksNothingMoves(fields[k], rest, deny);
          }
        case (JArr(items), Item(i)) =>
          if i < |items| {
            OutsideMasksNothingMoves(items[i], rest, deny);
          }
        case _ =>
      }
    }
  }

  lemma {:induction false} AtComposes(v: Json, path: seq<Step>, rest: seq<Step>)
    ensures At(v, path + rest) == if At(v, path).None? then None else At(At(v, path).value, rest)
    decreases |path|
  {
    if path == [] {
      assert path + rest == rest;
    } else {
      assert (path + rest)[0] == path[0] && (path + rest)[1..] == path[1..] + rest;
      match (v, path[0]) {
        case (JObj(fields), Key(k)) =>
          if k in fields {
            AtComposes(fields[k], path[1..], rest);
          }
        case (JArr(items), Item(i)) =>
          if i < |items| {
            AtComposes(items[i], path[1..], rest);
          }
        case _ =>
      }
    }
  }

  /** At a denied key there is the literal, whatever was there before, and nothing below it. */
  lemma DeniedKeysShowOnlyTheMask(v: Json, above: seq<Step>, k: string, below: seq<Step>, deny: set<string>)
    requires Clear(above, deny) && k in deny
    ensures At(RedactValue(v, deny), above + [Key(k)] + below) ==
      if At(v, above + [Key(k)]).Some? && below == [] then Some(REDACTED) else None
  {
    OutsideMasksNothingMoves(v, above, deny);
    AtComposes(v, above, [Key(k)]);
    AtComposes(RedactValue(v, deny), above, [Key(k)]);
    AtComposes(RedactValue(v, deny), above + [Key(k)], below);
    if At(v, above).Some? {
      var u := At(v, above).value;
      assert At(u, [Key(k)]).Some? <==> u.JObj? && k in u.fields by {
        OneStep(u, k);
      }
      OneStep(RedactValue(u, deny), k);
    }
    if below != [] {
      assert At(REDACTED, below) == None;
    }
  }

  lemma OneStep(v: Json, k: string)
    ensures At(v, [Key(k)]) == if v.JObj? && k in v.fields then Some(v.fields[k]) else None
  {
    assert [Key(k)][1..] == [];
  }

  // ---- the algebra of masking ----

  /** Every denied key, at any depth, already carries the literal. */
  predicate Masked(v: Json, deny: set<string>) {
    match v
    case JObj(fields) => forall k :: k in fields ==> if k in deny then fields[k] == REDACTED else Masked(fields[k], deny)
    case JArr(items) => forall i :: 0 <= i < |items| ==> Masked(items[i], deny)
    case _ => true
  }

  /** Masked trees are exactly the ones redaction leaves alone. */
  lemma {:induction false} MaskedIffUnchanged(v: Json, deny: set<string>)
    ensures Masked(v, deny) <==> RedactValue(v, deny) == v
  {
    match v
    case JObj(fields) =>
      forall k | k in fields ensures Masked(fields[k], deny) <==> RedactValue(fields[k], deny) == fields[k] {
        MaskedIffUnchanged(fields[k], deny);
      }
      var r := RedactValue(v, deny).fields;
      if r == fields {
        assert forall k :: k in fields ==> r[k] == fields[k];
      }
    case JArr(items) =>
      forall i | 0 <= i < |items| ensures Masked(items[i], deny) <==> RedactValue(items[i], deny) == items[i] {
        MaskedIffUnchanged(items[i], deny);
      }
      var r := RedactValue(v, deny).items;
      if r == items {
        assert forall i :: 0 <= i < |items| ==> r[i] == items[i];
      }
    case _ =>
  }

  lemma FieldsCompose(fields: map<string, Json>, a: set<string>, b: set<string>)
    requires forall k :: k in fields ==> RedactValue(RedactValue(fields[k], a), b) == RedactValue(fields[k], a + b)
    ensures RedactValue(RedactValue(JObj(fields), a), b) == RedactValue(JObj(fields), a + b)
  {
    var once := RedactValue(JObj(fields), a).fields;
    var twice := RedactValue(JObj(once), b).fields;
    var both := RedactValue(JObj(fields), a + b).fields;
    assert twice.Keys == fields.Keys == both.Keys;
    forall k | k in fields ensures twice[k] == both[k] {
      assert once[k] == if k in a then REDACTED else RedactValue(fields[k], a);
      assert twice[k] == if k in b then REDACTED else RedactValue(once[k], b);
      assert RedactValue(REDACTED, b) == REDACTED;
    }
    assert twice == both;
  }

  lemma ItemsCompose(items: seq<Json>, a: set<string>, b: set<string>)
    requires forall i :: 0 <= i < |items| ==> RedactValue(RedactValue(items[i], a), b) == RedactValue(items[i], a + b)
    ensures RedactValue(RedactValue(JArr(items), a), b) == RedactValue(JArr(items), a + b)
  {
    var once := RedactValue(JArr(items), a).items;
    assert forall i :: 0 <= i < |items| ==> once[i] == RedactValue(items[i], a);
    assert RedactValue(JArr(once), b).items == RedactValue(JArr(items), a + b).items;
  }

  /** Masking A and then B masks the union. */
  lemma {:induction false} MasksCompose(v: Json, a: set<string>, b: set<string>)
    ensures RedactValue(RedactValue(v, a), b) == RedactValue(v, a + b)
  {
    match v
    case JObj(fields) =>
      forall k | k in fields ensures RedactValue(RedactValue(fields[k], a), b) == RedactValue(fields[k], a + b) {
        MasksCompose(fields[k], a, b);
      }
      FieldsCompose(fields, a, b);
    case JArr(items) =>
      forall i | 0 <= i < |items| ensures RedactValue(RedactValue(items[i], a), b) == RedactValue(items[i], a + b) {
        MasksCompose(items[i], a, b);
      }
      ItemsCompose(items, a, b);
    case _ =>
  }

  lemma {:induction false} RedactionMasks(v: Json, deny: set<string>)
    ensures Masked(RedactValue(v, deny), deny)
    ensures RedactValue(RedactValue(v, deny), deny) == RedactValue(v, deny)
  {
    MasksCompose(v, deny, deny);
    assert deny + deny == deny;
    MaskedIffUnchanged(RedactValue(v, deny), deny);
  }

  /** A diff keeps exactly its two sides; the global keys are masked whatever the caller passes. */
  lemma DiffsAreProtected(diff: map<string, Json>, extra: set<string>)
    ensures Redact(diff, extra).Keys == {"before", "after"}
    ensures forall side :: side in Redact(diff, extra) ==> Masked(Redact(diff, extra)[side], GLOBAL_REDACT + extra)
    ensures forall side :: side in Redact(diff, extra) ==> Masked(Redact(diff, extra)[side], GLOBAL_REDACT)
  {
    var deny := GLOBAL_REDACT + extra;
    RedactionMasks(Side(diff, "before"), deny);
    RedactionMasks(Side(diff, "after"), deny);
    FewerKeysStayMasked(RedactValue(Side(diff, "before"), deny), deny, GLOBAL_REDACT);
    FewerKeysStayMasked(RedactValue(Side(diff, "after"), deny), deny, GLOBAL_REDACT);
  }

  lemma {:induction false} FewerKeysStayMasked(v: Json, deny: set<string>, fewer: set<string>)
    requires Masked(v, deny) && fewer <= deny
    ensures Masked(v, fewer)
  {
    match v
    case JObj(fields) =>
      forall k | k in fields && k !in fewer ensures Masked(fields[k], fewer) {
        if k !in deny {
          FewerKeysStayMasked(fields[k], deny, fewer);
        }
      }
    case JArr(items) =>
      forall i | 0 <= i < |items| ensures Masked(items[i], fewer) {
        FewerKeysStayMasked(items[i], deny, fewer);
      }
    case _ =>
  }

  /** Redacting a diff twice, with one set of extra keys and then another, is redacting once with both. */
  lemma DiffRedactionsCompose(diff: map<string, Json>, a: set<string>, b: set<string>)
    ensures Redact(Redact(diff, a), b) == Redact(diff, a + b)
    ensures Redact(Redact(diff, a), a) == Redact(diff, a)
  {
    SidesCompose(diff, "before", a, b);
    SidesCompose(diff, "after", a, b);
    SidesCompose(diff, "before", a, a);
    SidesCompose(diff, "after", a, a);
    assert a + a == a;
  }

  lemma SidesCompose(diff: map<string, Json>, side: string, a: set<string>, b: set<string>)
    requires side == "before" || side == "after"
    ensures RedactValue(Side(Redact(diff, a), side), GLOBAL_REDACT + b) == RedactValue(Side(diff, side), GLOBAL_REDACT + (a + b))
  {
    var v := RedactValue(Side(diff, side), GLOBAL_REDACT + a);
    MasksCompose(Side(diff, side), GLOBAL_REDACT + a, GLOBAL_REDACT + b);
    assert GLOBAL_REDACT + a + (GLOBAL_REDACT + b) == GLOBAL_REDACT + (a + b);
    assert Redact(diff, a)[side] == v;
    assert Falsy(v) ==> v == JObj(map[]);
  }

  // ---- whole diffs, side by side ----

  /** The same constructor, keys and length; for a leaf, the same value. */
  predicate Alike(v: Json, u: Json) {
    match (v, u)
    case (JObj(f), JObj(g)) => f.Keys == g.Keys
    case (JArr(f), JArr(g)) => |f| == |g|
    case _ => v == u
  }

  /** What counts as an absent side. */
  predicate Absent(diff: map<string, Json>, side: string) {
    side !in diff || diff[side] in {JNull, JBool(false), JNum(0), JStr(""), JArr([]), JObj(map[])}
  }

  /** Both sides of a diff survive: along a path without denied keys nothing is lost, added or changed. */
  lemma SidesSurvive(diff: map<string, Json>, extra: set<string>, side: string, path: seq<Step>)
    requires side == "before" || side == "after"
    requires !Absent(diff, side) && Clear(path, GLOBAL_REDACT + extra)
    ensures side in Redact(diff, extra)
    ensures At(Redact(diff, extra)[side], path).Some? <==> At(diff[side], path).Some?
    ensures At(diff[side], path).Some? ==> Alike(At(diff[side], path).value, At(Redact(diff, extra)[side], path).value)
  {
    hide RedactValue, At, GLOBAL_REDACT;
    var deny := GLOBAL_REDACT + extra;
    OutsideMasksNothingMoves(diff[side], path, deny);
    assert Redact(diff, extra)[side] == RedactValue(diff[side], deny);
    if At(diff[side], path).Some? {
      RedactedIsAlike(At(diff[side], path).value, deny);
    }
  }

  lemma RedactedIsAlike(v: Json, deny: set<string>)
    ensures Alike(v, RedactValue(v, deny))
  {
  }

  /** On both sides a denied key shows the literal and hides everything below. */
  lemma SidesAreMasked(diff: map<string, Json>, extra: set<string>, side: string, above: seq<Step>, k: string, below: seq<Step>)
    requires side == "before" || side == "after"
    requires !Absent(diff, side) && Clear(above, GLOBAL_REDACT + extra)
    requires k in extra || k in {"password_hash", "token_hash", "api_key_hash", "key_hash", "client_secret", "raw_token"}
    ensures side in Redact(diff, extra)
    ensures At(Redact(diff, extra)[side], above + [Key(k)] + below) ==
      if At(diff[side], above + [Key(k)]).Some? && below == [] then Some(JStr("<redacted>")) else None
  {
    hide RedactValue, At;
    DeniedKeysShowOnlyTheMask(diff[side], above, k, below, GLOBAL_REDACT + extra);
    assert Redact(diff, extra)[side] == RedactValue(diff[side], GLOBAL_REDACT + extra);
  }

  /** An absent side is the empty object. */
  lemma AbsentSidesAreEmpty(diff: map<string, Json>, extra: set<string>, side: string)
    requires (side == "before" || side == "after") && Absent(diff, side)
    ensures side in Redact(diff, extra) && Redact(diff, extra)[side] == JObj(map[])
  {
  }

  /** And nothing but the listed keys and the caller's is masked. */
  lemma OnlyTheseKeysAreGlobal(k: string)
    ensures k in GLOBAL_REDACT <==>
      k in {"password_hash", "token_hash", "api_key_hash", "key_hash", "client_secret", "raw_token"}
  {
  }
}
