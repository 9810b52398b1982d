/**
 The text-analysis action of the search client: a fluent builder collects the
 options of an `_analyze` call, and building turns them into a relative URI, an
 HTTP verb and a JSON payload that holds only the options actually supplied.
 */
module Analyze {
  import opened Java

  /** The state of `Analyze.Builder`: an optional index, two append-only lists
      and three scalar options, every reference possibly null. */
  datatype Builder = Builder(
    index: JString,
    text: seq<JString>,
    analyzer: JString,
    field: JString,
    tokenizer: JString,
    filter: seq<JString>)

  /** A fresh builder: no index, empty lists, null scalars. */
  const EmptyBuilder := Builder(Null, [], Null, Null, Null, [])

  /** The options a builder call can touch. */
  datatype Setting =
    | IndexSetting
    | TextSetting
    | AnalyzerSetting
    | FieldSetting
    | TokenizerSetting
    | FilterSetting

  /** `b1` and `b2` agree on every option other than `s`. */
  predicate AgreeExcept(b1: Builder, b2: Builder, s: Setting) {
    && (s != IndexSetting ==> b1.index == b2.index)
    && (s != TextSetting ==> b1.text == b2.text)
    && (s != AnalyzerSetting ==> b1.analyzer == b2.analyzer)
    && (s != FieldSetting ==> b1.field == b2.field)
    && (s != TokenizerSetting ==> b1.tokenizer == b2.tokenizer)
    && (s != FilterSetting ==> b1.filter == b2.filter)
  }

  /** `index(String)`: the index name is overwritten, nothing else moves. */
  function WithIndex(b: Builder, index: JString): (r: Builder)
    ensures r.index == index
    ensures AgreeExcept(b, r, IndexSetting)
  {
    b.(index := index)
  }

  /** `text(String)`: one entry is appended after the earlier ones. */
  function AddText(b: Builder, t: JString): (r: Builder)
    ensures |r.text| == |b.text| + 1
    ensures r.text[..|b.text|] == b.text && r.text[|b.text|] == t
    ensures AgreeExcept(b, r, TextSetting)
  {
    b.(text := b.text + [t])
  }

  /** `text(Collection)`: the whole batch is appended, in its own order, after
      the earlier entries. */
  function AddTexts(b: Builder, ts: seq<JString>): (r: Builder)
    ensures |r.text| == |b.text| + |ts|
    ensures r.text[..|b.text|] == b.text && r.text[|b.text|..] == ts
    ensures AgreeExcept(b, r, TextSetting)
  {
    b.(text := b.text + ts)
  }

  /** `analyzer(String)`: overwrites the previous analyzer. */
  function WithAnalyzer(b: Builder, analyzer: JString): (r: Builder)
    ensures r.analyzer == analyzer
    ensures AgreeExcept(b, r, AnalyzerSetting)
  {
    b.(analyzer := analyzer)
  }

  /** `field(String)`: overwrites the previous field. */
  function WithField(b: Builder, field: JString): (r: Builder)
    ensures r.field == field
    ensures AgreeExcept(b, r, FieldSetting)
  {
    b.(field := field)
  }

  /** `tokenizer(String)`: overwrites the previous tokenizer. */
  function WithTokenizer(b: Builder, tokenizer: JString): (r: Builder)
    ensures r.tokenizer == tokenizer
    ensures AgreeExcept(b, r, TokenizerSetting)
  {
    b.(tokenizer := tokenizer)
  }

  /** `filter(String)`: one filter is appended after the earlier ones. */
  function AddFilter(b: Builder, f: JString): (r: Builder)
    ensures |r.filter| == |b.filter| + 1
    ensures r.filter[..|b.filter|] == b.filter && r.filter[|b.filter|] == f
    ensures AgreeExcept(b, r, FilterSetting)
  {
    b.(filter := b.filter + [f])
  }

  /** A payload value: a JSON string or a JSON array of (possibly null) strings. */
  datatype Value = JsonString(s: string) | JsonArray(items: seq<JString>)

  /** The payload keys; `KeyName` gives the JSON name of each. */
  datatype Key = AnalyzerKey | FieldKey | FilterKey | TextKey | TokenizerKey

  function KeyName(k: Key): string {
    match k
    case AnalyzerKey => "analyzer"
    case FieldKey => "field"
    case FilterKey => "filter"
    case TextKey => "text"
    case TokenizerKey => "tokenizer"
  }

  /** A payload maps keys to values; a key the builder did not supply is absent. */
  type Payload = map<Key, Value>

  /** The finished action: relative URI, HTTP verb and JSON payload. */
  datatype Request = Request(uri: string, verb: string, payload: Payload)

  const AnalyzeSuffix := "/_analyze"
  const Post := "POST"

  /** The omission policy for a scalar option: the key is present exactly when
      the option is non-null and non-empty, and then holds that string. */
  predicate ScalarEntry(p: Payload, key: Key, v: JString) {
    && (key in p <==> !IsNullOrEmpty(v))
    && (key in p ==> p[key] == JsonString(v.value))
  }

  /** Adds `key` unless the option is null or empty. */
  function PutUnlessEmpty(p: Payload, key: Key, v: JString): Payload {
    if IsNullOrEmpty(v) then p else p[key := JsonString(v.value)]
  }

  /** The payload the constructor assembles: `text` always, each scalar only
      when non-null and non-empty, `filter` only when non-empty. */
  function BuildPayload(b: Builder): (p: Payload)
    ensures TextKey in p && p[TextKey] == JsonArray(b.text)
    ensures ScalarEntry(p, AnalyzerKey, b.analyzer)
    ensures ScalarEntry(p, FieldKey, b.field)
    ensures ScalarEntry(p, TokenizerKey, b.tokenizer)
    ensures FilterKey in p <==> |b.filter| > 0
    ensures FilterKey in p ==> p[FilterKey] == JsonArray(b.filter)
  {
    var withText := map[TextKey := JsonArray(b.text)];
    var withAnalyzer := PutUnlessEmpty(withText, AnalyzerKey, b.analyzer);
    var withField := PutUnlessEmpty(withAnalyzer, FieldKey, b.field);
    var withTokenizer := PutUnlessEmpty(withField, TokenizerKey, b.tokenizer);
    if |b.filter| > 0 then withTokenizer[FilterKey := JsonArray(b.filter)] else withTokenizer
  }

  /** `Analyze(Builder)` together with `buildURI` and `getRestMethodName`.
      `indexSegment` stands for the superclass's `buildURI()`, the URI prefix
      derived from the index name, whose code is not part of this model. */
  function Build(b: Builder, indexSegment: JString -> string): (r: Request)
    ensures r.verb == Post
    ensures r.uri == indexSegment(b.index) + AnalyzeSuffix
    ensures r.payload == BuildPayload(b)
  {
    Request(indexSegment(b.index) + AnalyzeSuffix, Post, BuildPayload(b))
  }

  /** What the superclass's URI prefix is known to do: no index gives the
      empty prefix and the index "test" gives "test". */
  predicate PinnedByTests(indexSegment: JString -> string) {
    indexSegment(Null) == "" && indexSegment(Val("test")) == "test"
  }

  /** The URI is the index prefix then `/_analyze`: `/_analyze` with no index
      and `test/_analyze` for index "test". */
  lemma UriForPinnedIndexes(b: Builder, indexSegment: JString -> string)
    requires PinnedByTests(indexSegment)
    ensures b.index == Null ==> Build(b, indexSegment).uri == "/_analyze"
    ensures b.index == Val("test") ==> Build(b, indexSegment).uri == "test/_analyze"
  {
  }

  /** Scalars that are null and scalars that are empty are the same to the payload. */
  function NullIfEmpty(s: JString): (r: JString)
    ensures IsNullOrEmpty(s) ==> r == Null
    ensures !IsNullOrEmpty(s) ==> r == s
  {
    if IsNullOrEmpty(s) then Null else s
  }

  /** The part of a builder the payload can see: the index is dropped and an
      empty scalar is identified with a null one. */
  function Canonical(b: Builder): Builder {
    Builder(Null, b.text, NullIfEmpty(b.analyzer), NullIfEmpty(b.field),
            NullIfEmpty(b.tokenizer), b.filter)
  }

  function ScalarFrom(p: Payload, key: Key): JString {
    if key in p && p[key].JsonString? then Val(p[key].s) else Null
  }

  function ListFrom(p: Payload, key: Key): seq<JString> {
    if key in p && p[key].JsonArray? then p[key].items else []
  }

  /** Reads the options back out of a payload: the inverse of building one,
      up to what the omission policy forgets. */
  function Recover(p: Payload): (b: Builder)
    ensures b.index == Null
  {
    Builder(Null, ListFrom(p, TextKey), ScalarFrom(p, AnalyzerKey), ScalarFrom(p, FieldKey),
            ScalarFrom(p, TokenizerKey), ListFrom(p, FilterKey))
  }

  /** Reading a built payload back gives the canonical form of the builder. */
  lemma RecoverBuildPayload(b: Builder)
    ensures Recover(BuildPayload(b)) == Canonical(b)
  {
  }

  /** The payload depends on nothing but the canonical form. */
  lemma BuildPayloadOfCanonical(b: Builder)
    ensures BuildPayload(Canonical(b)) == BuildPayload(b)
  {
    var p, q := BuildPayload(Canonical(b)), BuildPayload(b);
    assert p.Keys == q.Keys;
  }

  /** Two builders give the same payload exactly when their canonical forms agree. */
  lemma PayloadEqualIff(b1: Builder, b2: Builder)
    ensures BuildPayload(b1) == BuildPayload(b2) <==> Canonical(b1) == Canonical(b2)
  {
    RecoverBuildPayload(b1);
    RecoverBuildPayload(b2);
    BuildPayloadOfCanonical(b1);
    BuildPayloadOfCanonical(b2);
  }

  /** Requests are equal exactly when the URI prefixes and the canonical
      options agree: equal builders give equal requests, and nothing but the
      index and the canonical options can tell two requests apart. */
  lemma BuildEqualIff(b1: Builder, b2: Builder, indexSegment: JString -> string)
    ensures Build(b1, indexSegment) == Build(b2, indexSegment)
      <==> indexSegment(b1.index) == indexSegment(b2.index) && Canonical(b1) == Canonical(b2)
  {
    PayloadEqualIff(b1, b2);
    var u1, u2 := indexSegment(b1.index) + AnalyzeSuffix, indexSegment(b2.index) + AnalyzeSuffix;
    if u1 == u2 {
      assert indexSegment(b1.index) == u1[..|u1| - |AnalyzeSuffix|];
      assert indexSegment(b2.index) == u2[..|u2| - |AnalyzeSuffix|];
    }
  }

  /** Builders whose text lists differ never give equal requests. */
  lemma BuildInjectiveInText(b1: Builder, b2: Builder, indexSegment: JString -> string)
    requires b1.text != b2.text
    ensures Build(b1, indexSegment) != Build(b2, indexSegment)
  {
    BuildEqualIff(b1, b2, indexSegment);
  }

  /** The index name never reaches the payload. */
  lemma IndexNotInPayload(b: Builder, index: JString)
    ensures BuildPayload(WithIndex(b, index)) == BuildPayload(b)
  {
    PayloadEqualIff(WithIndex(b, index), b);
  }

  /** A null scalar and an empty one build the same request. */
  lemma NullAndEmptyScalarsAgree(b: Builder, indexSegment: JString -> string)
    ensures Build(WithAnalyzer(b, Null), indexSegment) == Build(WithAnalyzer(b, Val("")), indexSegment)
    ensures Build(WithField(b, Null), indexSegment) == Build(WithField(b, Val("")), indexSegment)
    ensures Build(WithTokenizer(b, Null), indexSegment) == Build(WithTokenizer(b, Val("")), indexSegment)
  {
    BuildEqualIff(WithAnalyzer(b, Null), WithAnalyzer(b, Val("")), indexSegment);
    BuildEqualIff(WithField(b, Null), WithField(b, Val("")), indexSegment);
    BuildEqualIff(WithTokenizer(b, Null), WithTokenizer(b, Val("")), indexSegment);
  }
}
