/** JSON values as JSON.parse produces them (the value grammar of section 3 of
    RFC 8259), and the JavaScript property reads and coercions the decoders use. */
module Json {
  import opened Wrappers
  import opened Text
  import opened Seqs

  /** Objects are maps: JSON.parse keeps the last of duplicated member names. */
  datatype JsonValue =
    | JNull
    | JBool(b: bool)
    | JNumber(n: real)
    | JString(s: string)
    | JArray(items: seq<JsonValue>)
    | JObject(members: map<string, JsonValue>)

  /** JavaScript truthiness of a parsed value (`!v` is its negation). */
  predicate Truthy(v: JsonValue)
  {
    match v
    case JNull => false
    case JBool(b) => b
    case JNumber(n) => n != 0.0
    case JString(s) => s != ""
    case _ => true
  }

  /** `v.key` on a non-null value: a member of an object, `undefined` (None) on
      anything else, since none of the keys read here is a property of strings,
      numbers, booleans or arrays. */
  function Field(v: JsonValue, key: string): (r: Option<JsonValue>)
    ensures r.Some? <==> v.JObject? && key in v.members
  {
    if v.JObject? && key in v.members then Some(v.members[key]) else None
  }

  /** `typeof x === "string" ? x.trim() : fallback`. */
  function TrimmedOr(x: Option<JsonValue>, fallback: string): (r: string)
    ensures (x.Some? && x.value.JString?) ==> IsTrimmed(r) && r == Trim(x.value.s)
    ensures !(x.Some? && x.value.JString?) ==> r == fallback
  {
    match x
    case Some(JString(s)) => Trim(s)
    case _ => fallback
  }

  /** A trimmed string is read back unchanged. */
  lemma TrimmedOrString(s: string)
    requires IsTrimmed(s)
    ensures TrimmedOr(Some(JString(s)), "") == s
  {
    TrimOfTrimmed(s);
  }

  /** A cleaned string list holds only non-empty trimmed strings. */
  predicate AllClean(xs: seq<string>)
  {
    forall i :: 0 <= i < |xs| ==> xs[i] != "" && IsTrimmed(xs[i])
  }

  /** A clean list stays clean when a non-empty trimmed string is added at its end. */
  lemma AllCleanAppend(xs: seq<string>, x: string)
    requires AllClean(xs) && x != "" && IsTrimmed(x)
    ensures AllClean(xs + [x])
  {
    forall i | 0 <= i < |xs| + 1 ensures (xs + [x])[i] != "" && IsTrimmed((xs + [x])[i]) {
      if i < |xs| {
        assert (xs + [x])[i] == xs[i];
      } else {
        assert (xs + [x])[i] == x;
      }
    }
  }

  function TrimmedElement(x: JsonValue): string
  {
    TrimmedOr(Some(x), "")
  }

  predicate NonEmpty(s: string)
  {
    s != ""
  }

  /** `Array.isArray(x) ? x.map((i) => (typeof i === "string" ? i.trim() : "")).filter(Boolean) : []`,
      the cleaning applied to recipe ingredients and detail steps. */
  function CleanStrings(x: Option<JsonValue>): (r: seq<string>)
    ensures AllClean(r)
    ensures !(x.Some? && x.value.JArray?) ==> r == []
    ensures x.Some? && x.value.JArray? ==> |r| <= |x.value.items|
  {
    match x
    case Some(JArray(items)) =>
      var r := Filter(Map(items, TrimmedElement), NonEmpty);
      assert forall i :: 0 <= i < |r| ==> r[i] in Map(items, TrimmedElement);
      r
    case _ => []
  }

  /** The JSON array of strings a cleaned list is sent as. */
  function StringArray(xs: seq<string>): JsonValue
  {
    JArray(Map(xs, (x: string) => JString(x)))
  }

  /** Cleaning the array of an already clean list gives the list back. */
  lemma CleanStringsRoundTrip(xs: seq<string>)
    requires AllClean(xs)
    ensures CleanStrings(Some(StringArray(xs))) == xs
  {
    var items := Map(xs, (x: string) => JString(x));
    var trimmed := Map(items, TrimmedElement);
    forall i | 0 <= i < |xs| ensures trimmed[i] == xs[i] {
      TrimOfTrimmed(xs[i]);
    }
    assert trimmed == xs;
    FilterAll(xs, NonEmpty);
  }

  /** Cleaning keeps the relative order of the surviving strings: a list split in
      two cleans to the concatenation of the two cleaned halves. */
  lemma CleanStringsAppend(a: seq<JsonValue>, b: seq<JsonValue>)
    ensures CleanStrings(Some(JArray(a + b)))
         == CleanStrings(Some(JArray(a))) + CleanStrings(Some(JArray(b)))
  {
    MapAppend(a, b, TrimmedElement);
    FilterAppend(Map(a, TrimmedElement), Map(b, TrimmedElement), NonEmpty);
  }

  /** A single element survives cleaning exactly when it is a string that does not
      trim to empty, and then it survives trimmed. */
  lemma CleanStringsSingle(x: JsonValue)
    ensures CleanStrings(Some(JArray([x])))
         == if x.JString? && Trim(x.s) != "" then [Trim(x.s)] else []
  {
    assert [x][1..] == [];
    assert Map([x], TrimmedElement) == [TrimmedElement(x)];
  }
}
