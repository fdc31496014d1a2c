/**
 * The rule model of the configuration (src/config/constructs.rs): which
 * request fields a rule names, how long its window lasts, what it does, and
 * the cache key built from the named fields.
 */
module Constructs {
  import opened Wrappers
  import ConfigJson

  /** The field names a rule selects from the body, the query and the headers. */
  datatype RuleFields = RuleFields(
    body: Option<seq<string>>,
    query: Option<seq<string>>,
    header: Option<seq<string>>)

  datatype RuleAction =
    | Redirect(uri: string)
    | Respond(success: ConfigJson.Json, failure: ConfigJson.Json)

  /** A rule; `ttl` is in milliseconds. */
  datatype Rule = Rule(ttl: nat, fields: RuleFields, action: RuleAction)

  // ---------------------------------------------------------------------------
  // Vec<String>::stringify

  /** `names.iter().fold(acc, |acc, s| acc + s)`. */
  function FoldConcat(acc: string, names: seq<string>): string
    decreases |names|
  {
    if names == [] then acc else FoldConcat(acc + names[0], names[1..])
  }

  /** `Vec<String>::stringify`: the fold started from the empty string. */
  function NamesKey(names: seq<string>): (r: string)
    ensures r == Concat(names)
  {
    FoldConcatIsConcat("", names);
    FoldConcat("", names)
  }

  /** The names one after another; the reference definition of NamesKey. */
  function Concat(names: seq<string>): string
    decreases |names|
  {
    if names == [] then "" else names[0] + Concat(names[1..])
  }

  lemma {:induction false} FoldConcatIsConcat(acc: string, names: seq<string>)
    ensures FoldConcat(acc, names) == acc + Concat(names)
    decreases |names|
  {
    if names != [] {
      FoldConcatIsConcat(acc + names[0], names[1..]);
      assert acc + names[0] + Concat(names[1..]) == acc + (names[0] + Concat(names[1..]));
    }
  }

  /** The names concatenated in order with no separator; no names give "". */
  lemma NamesKeyIsConcatenation(names: seq<string>)
    ensures NamesKey(names) == Concat(names)
    ensures names == [] ==> NamesKey(names) == ""
    ensures |names| > 0 ==> NamesKey(names) == names[0] + NamesKey(names[1..])
  {
    FoldConcatIsConcat("", names);
    if |names| > 0 {
      FoldConcatIsConcat("", names[1..]);
    }
  }

  /** Concatenation forgets where one name ends and the next begins. */
  lemma NamesKeyNotInjective()
    ensures ["ab", "c"] != ["a", "bc"]
    ensures NamesKey(["ab", "c"]) == NamesKey(["a", "bc"]) == "abc"
  {
    assert ["ab", "c"][0] != ["a", "bc"][0];
    NamesKeyIsConcatenation(["ab", "c"]);
    NamesKeyIsConcatenation(["c"]);
    NamesKeyIsConcatenation(["a", "bc"]);
    NamesKeyIsConcatenation(["bc"]);
  }

  // ---------------------------------------------------------------------------
  // RuleFields::stringify

  /** The part a selector contributes: nothing when absent, else the tag, the names and ",". */
  function Section(tag: string, names: Option<seq<string>>): string {
    match names
    case None => ""
    case Some(ns) => tag + NamesKey(ns) + ","
  }

  /** The key of a rule's fields, section by section in the order body, query, header. */
  function Key(fields: RuleFields): string {
    Section("body::", fields.body) + Section("query::", fields.query) + Section("header::", fields.header)
  }

  /** `RuleFields::stringify`, appending to `key` one present selector at a time. */
  method Stringify(fields: RuleFields) returns (key: string)
    ensures key == Key(fields)
  {
    key := "";
    if fields.body.Some? {
      key := key + "body::" + NamesKey(fields.body.value) + ",";
    }
    assert key == Section("body::", fields.body);
    if fields.query.Some? {
      key := key + "query::" + NamesKey(fields.query.value) + ",";
    }
    assert key == Section("body::", fields.body) + Section("query::", fields.query);
    if fields.header.Some? {
      key := key + "header::" + NamesKey(fields.header.value) + ",";
    }
  }

  /** The key is empty exactly when no selector is present. */
  lemma KeyEmptyIffNoSelectors(fields: RuleFields)
    ensures Key(fields) == "" <==> fields.body.None? && fields.query.None? && fields.header.None?
  {
    var b, q, h := Section("body::", fields.body), Section("query::", fields.query), Section("header::", fields.header);
    assert |Key(fields)| == |b| + |q| + |h|;
  }

  /** Where the key starts: the first present selector's section, in the order body, query, header. */
  lemma KeyStartsWithFirstPresentSection(fields: RuleFields)
    ensures fields.body.Some? ==>
      Key(fields)[..7 + |NamesKey(fields.body.value)|] == "body::" + NamesKey(fields.body.value) + ","
    ensures fields.body.None? && fields.query.Some? ==>
      Key(fields)[..8 + |NamesKey(fields.query.value)|] == "query::" + NamesKey(fields.query.value) + ","
    ensures fields.body.None? && fields.query.None? && fields.header.Some? ==>
      Key(fields) == "header::" + NamesKey(fields.header.value) + ","
  {
    var b, q, h := Section("body::", fields.body), Section("query::", fields.query), Section("header::", fields.header);
    assert Key(fields) == b + (q + h);
    if fields.body.Some? {
      assert Key(fields)[..|b|] == b;
    } else if fields.query.Some? {
      assert Key(fields) == q + h;
      assert Key(fields)[..|q|] == q;
    }
  }

  /** A non-empty key ends with ",". */
  lemma KeyEndsWithComma(fields: RuleFields)
    requires Key(fields) != ""
    ensures Key(fields)[|Key(fields)| - 1] == ','
  {
    var b, q, h := Section("body::", fields.body), Section("query::", fields.query), Section("header::", fields.header);
    if h != "" {
      assert Key(fields)[|Key(fields)| - 1] == h[|h| - 1];
    } else if q != "" {
      assert Key(fields) == b + q;
      assert Key(fields)[|Key(fields)| - 1] == q[|q| - 1];
    } else {
      assert Key(fields) == b;
    }
  }

  /** An empty selector list still contributes its tag, so it is keyed apart from an absent one. */
  lemma EmptySelectorIsNotAbsent(query: Option<seq<string>>, header: Option<seq<string>>)
    ensures Key(RuleFields(Some([]), query, header)) == "body::," + Key(RuleFields(None, query, header))
    ensures Key(RuleFields(Some([]), query, header)) != Key(RuleFields(None, query, header))
  {
    NamesKeyIsConcatenation([]);
    var rest := Key(RuleFields(None, query, header));
    assert |"body::," + rest| == 7 + |rest|;
  }

  /** Different selections can share a key: the encoding is not injective within a section. */
  lemma KeyNotInjective()
    ensures RuleFields(Some(["ab", "c"]), None, None) != RuleFields(Some(["a", "bc"]), None, None)
    ensures Key(RuleFields(Some(["ab", "c"]), None, None)) == Key(RuleFields(Some(["a", "bc"]), None, None))
  {
    NamesKeyNotInjective();
  }

  // ---------------------------------------------------------------------------
  // Defaults

  /** `default_ttl()`: one day, in milliseconds. */
  function DefaultTtl(): (ms: nat)
    ensures ms == 24 * 60 * 60 * 1000
  {
    86400000
  }

  /**
   * A rule as the configuration's deserializer builds it: a missing `ttl`
   * takes `default_ttl()`; the fields and the action have no default.
   */
  function DeserializeRule(ttl: Option<nat>, fields: RuleFields, action: RuleAction): (r: Rule)
    ensures ttl.None? ==> r.ttl == 86400000
    ensures ttl.Some? ==> r.ttl == ttl.value
    ensures r.fields == fields && r.action == action
  {
    Rule(ttl.UnwrapOr(DefaultTtl()), fields, action)
  }

  /** A JSON object with exactly a "status" and a "message" string member. */
  predicate IsStatusMessage(v: ConfigJson.Value, status: string, message: string) {
    v == ConfigJson.Object(map["status" := ConfigJson.String(status), "message" := ConfigJson.String(message)])
  }

  /**
   * `RuleAction::default()`: respond with a success and a failure payload.
   * The two payloads differ, yet `Json`'s equality holds them equal, as it
   * does any two objects.
   */
  function DefaultAction(): (a: RuleAction)
    ensures a.Respond?
    ensures IsStatusMessage(a.success.value, "success", "Idempotency guaranteed uniqueness.")
    ensures IsStatusMessage(a.failure.value, "failed", "Idempotency guarantee failed.")
    ensures a.success != a.failure && ConfigJson.Eq(a.success, a.failure)
  {
    var success := ConfigJson.Object(map[
      "status" := ConfigJson.String("success"),
      "message" := ConfigJson.String("Idempotency guaranteed uniqueness.")]);
    var failure := ConfigJson.Object(map[
      "status" := ConfigJson.String("failed"),
      "message" := ConfigJson.String("Idempotency guarantee failed.")]);
    assert success.members["status"] != failure.members["status"];
    Respond(ConfigJson.FromValue(success), ConfigJson.FromValue(failure))
  }
}
