/** The write payload for creating or editing a release (`ReleaseOptions`),
    the JSON fields it is serialised to, and the builder that stages it. */
module Options {

  import opened Wrappers

  /** A JSON value as the payload's fields produce it: strings and booleans. */
  datatype JsonValue = JString(s: string) | JBool(b: bool)

  /** One emitted key with its value, in emission order. */
  type Field = (string, JsonValue)

  /** The payload: a required tag name and five optional fields. */
  datatype ReleaseOptions = ReleaseOptions(
    tagName: string,
    targetCommitish: Option<string>,
    name: Option<string>,
    body: Option<string>,
    draft: Option<bool>,
    prerelease: Option<bool>)
  {
    /** `#[derive(Default)]`: an empty tag name and every option `None`. */
    static function Default(): (r: ReleaseOptions)
      ensures r.tagName == ""
      ensures r.targetCommitish.None? && r.name.None? && r.body.None?
      ensures r.draft.None? && r.prerelease.None?
    {
      ReleaseOptions("", None, None, None, None, None)
    }

    /** `ReleaseOptions::new`: each field is the corresponding argument. */
    static function New(tag: string, commit: Option<string>, name: Option<string>,
                        body: Option<string>, draft: Option<bool>,
                        prerelease: Option<bool>): (r: ReleaseOptions)
      ensures r.tagName == tag && r.targetCommitish == commit && r.name == name
      ensures r.body == body && r.draft == draft && r.prerelease == prerelease
    {
      ReleaseOptions(tag, commit, name, body, draft, prerelease)
    }

    /** `ReleaseOptions::builder`: a fresh builder staging only the tag. */
    static method Builder(tag: string) returns (b: ReleaseOptionsBuilder)
      ensures fresh(b)
      ensures b.opts == ReleaseOptions.Default().(tagName := tag)
    {
      b := new ReleaseOptionsBuilder(tag);
    }
  }

  // ---------------------------------------------------------------------------
  // Serialisation: `#[serde(skip_serializing_if = "Option::is_none")]`
  // ---------------------------------------------------------------------------

  /** Position of a key in the struct's declaration order; 6 for any key the
      struct does not declare. */
  function Rank(key: string): nat
  {
    if key == "tag_name" then 0
    else if key == "target_commitish" then 1
    else if key == "name" then 2
    else if key == "body" then 3
    else if key == "draft" then 4
    else if key == "prerelease" then 5
    else 6
  }

  function StrValue(v: Option<string>): Option<JsonValue>
  {
    match v
    case None => None
    case Some(s) => Some(JString(s))
  }

  function BoolValue(v: Option<bool>): Option<JsonValue>
  {
    match v
    case None => None
    case Some(b) => Some(JBool(b))
  }

  /** One optional field: emitted when present, skipped when `None`. */
  function SkipIfNone(key: string, v: Option<JsonValue>): seq<Field>
  {
    match v
    case None => []
    case Some(x) => [(key, x)]
  }

  /** The fields `json!(options)` emits, in declaration order. */
  function Serialize(o: ReleaseOptions): (fields: seq<Field>)
    ensures |fields| >= 1 && fields[0] == ("tag_name", JString(o.tagName))
    ensures forall i :: 0 <= i < |fields| ==> Rank(fields[i].0) < 6
    ensures forall i, j :: 0 <= i < j < |fields| ==> Rank(fields[i].0) < Rank(fields[j].0)
  {
    var f0 := [("tag_name", JString(o.tagName))];
    var f1 := SkipIfNone("target_commitish", StrValue(o.targetCommitish));
    var f2 := SkipIfNone("name", StrValue(o.name));
    var f3 := SkipIfNone("body", StrValue(o.body));
    var f4 := SkipIfNone("draft", BoolValue(o.draft));
    var f5 := SkipIfNone("prerelease", BoolValue(o.prerelease));
    RanksAppend(f0, 0, f1, 1);
    RanksAppend(f0 + f1, 1, f2, 2);
    RanksAppend(f0 + f1 + f2, 2, f3, 3);
    RanksAppend(f0 + f1 + f2 + f3, 3, f4, 4);
    RanksAppend(f0 + f1 + f2 + f3 + f4, 4, f5, 5);
    f0 + f1 + f2 + f3 + f4 + f5
  }

  /** Keys of `fs` are in strictly increasing declaration order and below `bound`. */
  ghost predicate RanksBelow(fs: seq<Field>, bound: nat)
  {
    && (forall i :: 0 <= i < |fs| ==> Rank(fs[i].0) <= bound)
    && (forall i, j :: 0 <= i < j < |fs| ==> Rank(fs[i].0) < Rank(fs[j].0))
  }

  lemma RanksAppend(a: seq<Field>, ra: nat, b: seq<Field>, rb: nat)
    requires RanksBelow(a, ra) && ra < rb
    requires |b| <= 1 && forall i :: 0 <= i < |b| ==> Rank(b[i].0) == rb
    ensures RanksBelow(a + b, rb)
  {
  }

  /** The value of the first field named `key`, if any. */
  function Lookup(fields: seq<Field>, key: string): (v: Option<JsonValue>)
    ensures v.Some? <==> exists i :: 0 <= i < |fields| && fields[i].0 == key
  {
    if fields == [] then None
    else if fields[0].0 == key then Some(fields[0].1)
    else Lookup(fields[1..], key)
  }

  /** What the payload holds under a JSON key: the tag always, an optional
      field exactly when it is set, nothing under an undeclared key. */
  function FieldValue(o: ReleaseOptions, key: string): Option<JsonValue>
  {
    if key == "tag_name" then Some(JString(o.tagName))
    else if key == "target_commitish" then StrValue(o.targetCommitish)
    else if key == "name" then StrValue(o.name)
    else if key == "body" then StrValue(o.body)
    else if key == "draft" then BoolValue(o.draft)
    else if key == "prerelease" then BoolValue(o.prerelease)
    else None
  }

  lemma {:induction false} LookupAppend(a: seq<Field>, b: seq<Field>, key: string)
    ensures Lookup(a + b, key) == if Lookup(a, key).Some? then Lookup(a, key) else Lookup(b, key)
    decreases |a|
  {
    if a == [] {
      assert a + b == b;
    } else {
      assert (a + b)[1..] == a[1..] + b;
      LookupAppend(a[1..], b, key);
    }
  }

  /** The serialised payload holds, under every key, exactly what the record
      holds: a set optional field is emitted with its value, an unset one is
      absent, and no other key appears. */
  lemma SerializeLookup(o: ReleaseOptions, key: string)
    ensures Lookup(Serialize(o), key) == FieldValue(o, key)
  {
    var f0 := [("tag_name", JString(o.tagName))];
    var f1 := SkipIfNone("target_commitish", StrValue(o.targetCommitish));
    var f2 := SkipIfNone("name", StrValue(o.name));
    var f3 := SkipIfNone("body", StrValue(o.body));
    var f4 := SkipIfNone("draft", BoolValue(o.draft));
    var f5 := SkipIfNone("prerelease", BoolValue(o.prerelease));
    assert Serialize(o) == f0 + f1 + f2 + f3 + f4 + f5;
    LookupAppend(f0 + f1 + f2 + f3 + f4, f5, key);
    LookupAppend(f0 + f1 + f2 + f3, f4, key);
    LookupAppend(f0 + f1 + f2, f3, key);
    LookupAppend(f0 + f1, f2, key);
    LookupAppend(f0, f1, key);
  }

  /** The emitted keys are `tag_name` plus exactly the optional fields that are
      set. */
  lemma SerializedKeys(o: ReleaseOptions, key: string)
    ensures (exists i :: 0 <= i < |Serialize(o)| && Serialize(o)[i].0 == key) <==>
      || key == "tag_name"
      || (key == "target_commitish" && o.targetCommitish.Some?)
      || (key == "name" && o.name.Some?)
      || (key == "body" && o.body.Some?)
      || (key == "draft" && o.draft.Some?)
      || (key == "prerelease" && o.prerelease.Some?)
  {
    SerializeLookup(o, key);
  }

  /** Setting one optional field changes the serialised payload under that key
      only; every other key keeps its value or its absence. */
  lemma {:induction false} SetterTouchesOneKey(o: ReleaseOptions, s: string, b: bool, key: string)
    ensures Lookup(Serialize(o.(targetCommitish := Some(s))), key) ==
      if key == "target_commitish" then Some(JString(s)) else Lookup(Serialize(o), key)
    ensures Lookup(Serialize(o.(name := Some(s))), key) ==
      if key == "name" then Some(JString(s)) else Lookup(Serialize(o), key)
    ensures Lookup(Serialize(o.(body := Some(s))), key) ==
      if key == "body" then Some(JString(s)) else Lookup(Serialize(o), key)
    ensures Lookup(Serialize(o.(draft := Some(b))), key) ==
      if key == "draft" then Some(JBool(b)) else Lookup(Serialize(o), key)
    ensures Lookup(Serialize(o.(prerelease := Some(b))), key) ==
      if key == "prerelease" then Some(JBool(b)) else Lookup(Serialize(o), key)
  {
    SerializeLookup(o, key);
    SerializeLookup(o.(targetCommitish := Some(s)), key);
    SerializeLookup(o.(name := Some(s)), key);
    SerializeLookup(o.(body := Some(s)), key);
    SerializeLookup(o.(draft := Some(b)), key);
    SerializeLookup(o.(prerelease := Some(b)), key);
  }

  // ---------------------------------------------------------------------------
  // Reading a payload back (the receiving side of the serialisation)
  // ---------------------------------------------------------------------------

  function AsStr(v: Option<JsonValue>): Option<string>
  {
    match v
    case Some(JString(s)) => Some(s)
    case _ => None
  }

  function AsBool(v: Option<JsonValue>): Option<bool>
  {
    match v
    case Some(JBool(b)) => Some(b)
    case _ => None
  }

  /** A payload read back from its fields; absent keys become `None`, and a
      payload without a string `tag_name` is rejected. */
  function Parse(fields: seq<Field>): Option<ReleaseOptions>
  {
    match Lookup(fields, "tag_name")
    case Some(JString(tag)) =>
      Some(ReleaseOptions(
        tag,
        AsStr(Lookup(fields, "target_commitish")),
        AsStr(Lookup(fields, "name")),
        AsStr(Lookup(fields, "body")),
        AsBool(Lookup(fields, "draft")),
        AsBool(Lookup(fields, "prerelease"))))
    case _ => None
  }

  /** Skipping the unset fields loses nothing: the payload is recovered. */
  lemma ParseSerialize(o: ReleaseOptions)
    ensures Parse(Serialize(o)) == Some(o)
  {
    var fs := Serialize(o);
    SerializeLookup(o, "tag_name");
    assert Lookup(fs, "tag_name") == Some(JString(o.tagName));
    SerializeLookup(o, "target_commitish");
    assert AsStr(Lookup(fs, "target_commitish")) == o.targetCommitish;
    SerializeLookup(o, "name");
    assert AsStr(Lookup(fs, "name")) == o.name;
    SerializeLookup(o, "body");
    assert AsStr(Lookup(fs, "body")) == o.body;
    SerializeLookup(o, "draft");
    assert AsBool(Lookup(fs, "draft")) == o.draft;
    SerializeLookup(o, "prerelease");
    assert AsBool(Lookup(fs, "prerelease")) == o.prerelease;
  }

  // ---------------------------------------------------------------------------
  // The builder
  // ---------------------------------------------------------------------------

  /** `ReleaseOptionsBuilder(ReleaseOptions)`: a payload in progress, changed in
      place by chained setters, each of which returns the builder itself. */
  class ReleaseOptionsBuilder {
    var opts: ReleaseOptions

    /** `ReleaseOptionsBuilder::new`: the tag, every option `None`. */
    constructor (tag: string)
      ensures opts == ReleaseOptions.Default().(tagName := tag)
    {
      opts := ReleaseOptions.Default().(tagName := tag);
    }

    method Commitish(commit: string) returns (self: ReleaseOptionsBuilder)
      modifies this
      ensures self == this
      ensures opts == old(opts).(targetCommitish := Some(commit))
    {
      opts := opts.(targetCommitish := Some(commit));
      self := this;
    }

    method Name(name: string) returns (self: ReleaseOptionsBuilder)
      modifies this
      ensures self == this
      ensures opts == old(opts).(name := Some(name))
    {
      opts := opts.(name := Some(name));
      self := this;
    }

    method Body(body: string) returns (self: ReleaseOptionsBuilder)
      modifies this
      ensures self == this
      ensures opts == old(opts).(body := Some(body))
    {
      opts := opts.(body := Some(body));
      self := this;
    }

    method Draft(draft: bool) returns (self: ReleaseOptionsBuilder)
      modifies this
      ensures self == this
      ensures opts == old(opts).(draft := Some(draft))
    {
      opts := opts.(draft := Some(draft));
      self := this;
    }

    method Prerelease(pre: bool) returns (self: ReleaseOptionsBuilder)
      modifies this
      ensures self == this
      ensures opts == old(opts).(prerelease := Some(pre))
    {
      opts := opts.(prerelease := Some(pre));
      self := this;
    }

    /** `build()`: a snapshot of the staged payload; the builder is unchanged. */
    method Build() returns (r: ReleaseOptions)
      ensures r == opts
    {
      r := ReleaseOptions.New(opts.tagName, opts.targetCommitish, opts.name,
                              opts.body, opts.draft, opts.prerelease);
    }
  }

  // ---------------------------------------------------------------------------
  // Uses of the builder
  // ---------------------------------------------------------------------------

  /** A builder given only a tag serialises to the tag alone. */
  method TagOnly(tag: string) returns (fields: seq<Field>)
    ensures fields == [("tag_name", JString(tag))]
  {
    var b := ReleaseOptions.Builder(tag);
    var r := b.Build();
    fields := Serialize(r);
  }

  /** Setting `draft` and `prerelease` emits those two keys after the tag and
      no other. */
  method DraftPrerelease(tag: string) returns (fields: seq<Field>)
    ensures fields == [("tag_name", JString(tag)), ("draft", JBool(true)), ("prerelease", JBool(false))]
  {
    var b := new ReleaseOptionsBuilder(tag);
    var b1 := b.Draft(true);
    var b2 := b1.Prerelease(false);
    var r := b2.Build();
    fields := Serialize(r);
  }

  /** Setting the same field twice keeps the last value only. */
  method LastWriteWins(tag: string, first: string, second: string) returns (r: ReleaseOptions)
    ensures r == ReleaseOptions.Default().(tagName := tag, name := Some(second))
  {
    var b := new ReleaseOptionsBuilder(tag);
    var b1 := b.Name(first);
    var b2 := b1.Name(second);
    r := b2.Build();
  }

  /** A payload already built is a value: setters called on the builder
      afterwards change the builder's next snapshot, not the earlier one. */
  method BuildThenSet(tag: string, body: string) returns (before: ReleaseOptions, after: ReleaseOptions)
    ensures before == ReleaseOptions.Default().(tagName := tag)
    ensures after == before.(body := Some(body))
  {
    var b := new ReleaseOptionsBuilder(tag);
    before := b.Build();
    var b1 := b.Body(body);
    after := b1.Build();
  }
}
