/**
 The builder's documented cases: each fixes a chain of builder calls and the
 URI and sorted-key JSON payload it must produce. The payload is stated as
 the sequence of JSON tokens written.
 */
module AnalyzeTestCases {
  import opened Java
  import opened Analyze
  import opened PayloadJson

  /** Regrouping a two-member object into one flat sequence. */
  lemma FlatTwo<T>(a: T, b: T, c: T, d: T, e: T, f: T, g: T, h: T, i: T, j: T)
    ensures [a] + ([b, c, d] + [e] + [f, g, h, i]) + [j] == [a, b, c, d, e, f, g, h, i, j]
  {
  }

  /** Regrouping a three-member object into one flat sequence. */
  lemma FlatThree<T>(a: T, b: T, c: T, d: T, e: T, f: T, g: T, h: T, i: T, j: T, k: T, l: T, m: T, n: T, o: T, q: T)
    ensures [a] + ([b, c, d, e, f] + [g] + ([h, i, j, k] + [l] + [m, n, o])) + [q]
      == [a, b, c, d, e, f, g, h, i, j, k, l, m, n, o, q]
  {
  }

  /** Regrouping a one-array object around its items. */
  lemma FlatArray<T>(a: T, b: T, c: T, d: T, items: seq<T>, e: T, f: T)
    ensures [a] + ([b, c] + ([d] + items + [e])) + [f] == [a, b, c, d] + items + [e, f]
  {
  }

  /** Two members are written with a comma between them. */
  lemma MembersTwo(p: Payload, k1: Key, k2: Key)
    requires k1 in p && k2 in p
    ensures MembersTokens([k1, k2], p) == MemberTokens(k1, p) + [Comma] + MemberTokens(k2, p)
  {
    assert [k1, k2][1..] == [k2];
  }

  /** Three members are written with commas between them. */
  lemma MembersThree(p: Payload, k1: Key, k2: Key, k3: Key)
    requires k1 in p && k2 in p && k3 in p
    ensures MembersTokens([k1, k2, k3], p)
      == MemberTokens(k1, p) + [Comma] + (MemberTokens(k2, p) + [Comma] + MemberTokens(k3, p))
  {
    assert [k1, k2, k3][1..] == [k2, k3];
    MembersTwo(p, k2, k3);
  }

  /** A string member is its name, a colon and the string. */
  lemma StringMember(p: Payload, k: Key, s: string)
    requires k in p && p[k] == JsonString(s)
    ensures MemberTokens(k, p) == [StrLit(KeyName(k)), Colon, StrLit(s)]
  {
  }

  /** An array member is its name, a colon and the bracketed items. */
  lemma ArrayMember(p: Payload, k: Key, xs: seq<JString>)
    requires k in p && p[k] == JsonArray(xs)
    ensures MemberTokens(k, p) == [StrLit(KeyName(k)), Colon] + ([LBracket] + ItemsTokens(xs) + [RBracket])
  {
  }

  /** A scalar named before `text` is written before it. */
  lemma ScalarAndTextOrder(p: Payload, k: Key, s: string)
    requires k == AnalyzerKey || k == FieldKey
    requires p == map[TextKey := JsonArray([]), k := JsonString(s)]
    ensures KeysInOrder(p) == [k, TextKey]
  {
    KeysInOrderExplicit(p);
  }

  /** An empty array member is its name, a colon and two brackets. */
  lemma EmptyArrayMember(p: Payload, k: Key)
    requires k in p && p[k] == JsonArray([])
    ensures MemberTokens(k, p) == [StrLit(KeyName(k)), Colon, LBracket, RBracket]
  {
    ArrayMember(p, k, []);
  }

  /** An object of two members: braces around the members and a comma
      between them. */
  lemma ObjectOfTwo(p: Payload, k1: Key, k2: Key)
    requires k1 in p && k2 in p
    ensures [LBrace] + MembersTokens([k1, k2], p) + [RBrace]
      == [LBrace] + (MemberTokens(k1, p) + [Comma] + MemberTokens(k2, p)) + [RBrace]
  {
    MembersTwo(p, k1, k2);
  }

  /** Writing a payload of one scalar and an empty text array. */
  lemma ScalarAndNoText(p: Payload, k: Key, s: string)
    requires k == AnalyzerKey || k == FieldKey
    requires p == map[TextKey := JsonArray([]), k := JsonString(s)]
    ensures RenderTokens(p)
      == [LBrace, StrLit(KeyName(k)), Colon, StrLit(s), Comma, StrLit("text"), Colon, LBracket, RBracket, RBrace]
  {
    var m1, m2 := [StrLit(KeyName(k)), Colon, StrLit(s)], [StrLit("text"), Colon, LBracket, RBracket];
    assert RenderTokens(p) == [LBrace] + (m1 + [Comma] + m2) + [RBrace] by {
      StringMember(p, k, s);
      EmptyArrayMember(p, TextKey);
      ObjectOfTwo(p, k, TextKey);
      ScalarAndTextOrder(p, k, s);
      RenderTokensShape(p);
    }
    FlatTwo(LBrace, StrLit(KeyName(k)), Colon, StrLit(s), Comma, StrLit("text"), Colon, LBracket, RBracket, RBrace);
  }

  /** An object of three members: braces around the members and commas
      between them. */
  lemma ObjectOfThree(p: Payload, k1: Key, k2: Key, k3: Key)
    requires k1 in p && k2 in p && k3 in p
    ensures [LBrace] + MembersTokens([k1, k2, k3], p) + [RBrace]
      == [LBrace] + (MemberTokens(k1, p) + [Comma] + (MemberTokens(k2, p) + [Comma] + MemberTokens(k3, p))) + [RBrace]
  {
    MembersThree(p, k1, k2, k3);
  }

  /** A one-item array member. */
  lemma SingletonArrayMember(p: Payload, k: Key, s: string)
    requires k in p && p[k] == JsonArray([Val(s)])
    ensures MemberTokens(k, p) == [StrLit(KeyName(k)), Colon, LBracket, StrLit(s), RBracket]
  {
    ArrayMember(p, k, [Val(s)]);
  }

  /** A filter, an empty text array and a tokenizer are written in that
      order. */
  lemma FilterTextTokenizerOrder(p: Payload, f: JString, t: string)
    requires p == map[TextKey := JsonArray([]), TokenizerKey := JsonString(t), FilterKey := JsonArray([f])]
    ensures KeysInOrder(p) == [FilterKey, TextKey, TokenizerKey]
  {
    KeysInOrderExplicit(p);
  }

  /** Writing a payload of one filter, an empty text array and a tokenizer. */
  lemma FilterTextTokenizer(p: Payload, f: string, t: string)
    requires p == map[TextKey := JsonArray([]), TokenizerKey := JsonString(t), FilterKey := JsonArray([Val(f)])]
    ensures RenderTokens(p) == [LBrace, StrLit("filter"), Colon, LBracket, StrLit(f), RBracket, Comma,
                                StrLit("text"), Colon, LBracket, RBracket, Comma,
                                StrLit("tokenizer"), Colon, StrLit(t), RBrace]
  {
    var m1, m2, m3 := [StrLit("filter"), Colon, LBracket, StrLit(f), RBracket],
                      [StrLit("text"), Colon, LBracket, RBracket], [StrLit("tokenizer"), Colon, StrLit(t)];
    assert RenderTokens(p) == [LBrace] + (m1 + [Comma] + (m2 + [Comma] + m3)) + [RBrace] by {
      SingletonArrayMember(p, FilterKey, f);
      EmptyArrayMember(p, TextKey);
      StringMember(p, TokenizerKey, t);
      ObjectOfThree(p, FilterKey, TextKey, TokenizerKey);
      FilterTextTokenizerOrder(p, Val(f), t);
      RenderTokensShape(p);
    }
    FlatThree(LBrace, StrLit("filter"), Colon, LBracket, StrLit(f), RBracket, Comma,
              StrLit("text"), Colon, LBracket, RBracket, Comma,
              StrLit("tokenizer"), Colon, StrLit(t), RBrace);
  }

  /** A payload holding only text is written as that one array. */
  lemma TextOnly(p: Payload, xs: seq<JString>)
    requires p == map[TextKey := JsonArray(xs)]
    ensures RenderTokens(p) == [LBrace, StrLit("text"), Colon, LBracket] + ItemsTokens(xs) + [RBracket, RBrace]
  {
    var items := ItemsTokens(xs);
    assert RenderTokens(p) == [LBrace] + ([StrLit("text"), Colon] + ([LBracket] + items + [RBracket])) + [RBrace] by {
      KeysInOrderExplicit(p);
      assert KeysInOrder(p) == [TextKey];
      ArrayMember(p, TextKey, xs);
      RenderTokensShape(p);
    }
    FlatArray(LBrace, StrLit("text"), Colon, LBracket, items, RBracket, RBrace);
  }

  /** Items are written as string tokens separated by commas. */
  lemma OneItem(a: string)
    ensures ItemsTokens([Val(a)]) == [StrLit(a)]
  {
  }

  lemma TwoItems(a: string, b: string)
    ensures ItemsTokens([Val(a), Val(b)]) == [StrLit(a), Comma, StrLit(b)]
  {
    assert [Val(a), Val(b)][1..] == [Val(b)];
  }

  lemma ThreeItems(a: string, b: string, c: string)
    ensures ItemsTokens([Val(a), Val(b), Val(c)]) == [StrLit(a), Comma, StrLit(b), Comma, StrLit(c)]
  {
    assert [Val(a), Val(b), Val(c)][1..] == [Val(b), Val(c)];
    TwoItems(b, c);
  }

  /** `analyzer("standard")` alone: URI `/_analyze`, and `text` is written as
      an empty array although no text was added. */
  lemma BasicUrlGeneration(indexSegment: JString -> string)
    requires PinnedByTests(indexSegment)
    ensures Build(WithAnalyzer(EmptyBuilder, Val("standard")), indexSegment).uri == "/_analyze"
    ensures RenderTokens(Build(WithAnalyzer(EmptyBuilder, Val("standard")), indexSegment).payload) == [LBrace, StrLit("analyzer"), Colon, StrLit("standard"), Comma, StrLit("text"), Colon, LBracket, RBracket, RBrace]
  {
    var p := BuildPayload(WithAnalyzer(EmptyBuilder, Val("standard")));
    assert p == map[TextKey := JsonArray([]), AnalyzerKey := JsonString("standard")];
    ScalarAndNoText(p, AnalyzerKey, "standard");
  }

  /** `tokenizer("keyword")` then `filter("lowercase")`: URI `/_analyze`; the
      non-empty filter list is written, and the keys come out sorted. */
  lemma CustomTransientAnalyzer(indexSegment: JString -> string)
    requires PinnedByTests(indexSegment)
    ensures Build(AddFilter(WithTokenizer(EmptyBuilder, Val("keyword")), Val("lowercase")), indexSegment).uri
      == "/_analyze"
    ensures RenderTokens(Build(AddFilter(WithTokenizer(EmptyBuilder, Val("keyword")), Val("lowercase")), indexSegment).payload)
      == [LBrace, StrLit("filter"), Colon, LBracket, StrLit("lowercase"), RBracket, Comma,
          StrLit("text"), Colon, LBracket, RBracket, Comma,
          StrLit("tokenizer"), Colon, StrLit("keyword"), RBrace]
  {
    var b := AddFilter(WithTokenizer(EmptyBuilder, Val("keyword")), Val("lowercase"));
    assert b.filter == [Val("lowercase")];
    var p := BuildPayload(b);
    assert p == map[TextKey := JsonArray([]), TokenizerKey := JsonString("keyword"),
                    FilterKey := JsonArray([Val("lowercase")])];
    FilterTextTokenizer(p, "lowercase", "keyword");
  }

  /** `index("test")` alone: URI `test/_analyze`. */
  lemma UrlWithIndex(indexSegment: JString -> string)
    requires PinnedByTests(indexSegment)
    ensures Build(WithIndex(EmptyBuilder, Val("test")), indexSegment).uri == "test/_analyze"
  {
    UriForPinnedIndexes(WithIndex(EmptyBuilder, Val("test")), indexSegment);
  }

  /** `index("test")` then `analyzer("whitespace")`: the index goes into the
      URI and not into the payload. */
  lemma UrlWithIndexAndAnalyzer(indexSegment: JString -> string)
    requires PinnedByTests(indexSegment)
    ensures Build(WithAnalyzer(WithIndex(EmptyBuilder, Val("test")), Val("whitespace")), indexSegment).uri
      == "test/_analyze"
    ensures RenderTokens(Build(WithAnalyzer(WithIndex(EmptyBuilder, Val("test")), Val("whitespace")), indexSegment).payload)
      == [LBrace, StrLit("analyzer"), Colon, StrLit("whitespace"), Comma, StrLit("text"), Colon, LBracket, RBracket, RBrace]
  {
    var p := BuildPayload(WithAnalyzer(WithIndex(EmptyBuilder, Val("test")), Val("whitespace")));
    assert p == map[TextKey := JsonArray([]), AnalyzerKey := JsonString("whitespace")];
    ScalarAndNoText(p, AnalyzerKey, "whitespace");
    UriForPinnedIndexes(WithAnalyzer(WithIndex(EmptyBuilder, Val("test")), Val("whitespace")), indexSegment);
  }

  /** `index("test")` then `field("obj1.field1")`. */
  lemma UrlWithIndexAndFieldMapping(indexSegment: JString -> string)
    requires PinnedByTests(indexSegment)
    ensures Build(WithField(WithIndex(EmptyBuilder, Val("test")), Val("obj1.field1")), indexSegment).uri
      == "test/_analyze"
    ensures RenderTokens(Build(WithField(WithIndex(EmptyBuilder, Val("test")), Val("obj1.field1")), indexSegment).payload)
      == [LBrace, StrLit("field"), Colon, StrLit("obj1.field1"), Comma, StrLit("text"), Colon, LBracket, RBracket, RBrace]
  {
    var p := BuildPayload(WithField(WithIndex(EmptyBuilder, Val("test")), Val("obj1.field1")));
    assert p == map[TextKey := JsonArray([]), FieldKey := JsonString("obj1.field1")];
    ScalarAndNoText(p, FieldKey, "obj1.field1");
    UriForPinnedIndexes(WithField(WithIndex(EmptyBuilder, Val("test")), Val("obj1.field1")), indexSegment);
  }

  /** `text("foo")`. */
  lemma SingleTextEntry()
    ensures RenderTokens(BuildPayload(AddText(EmptyBuilder, Val("foo"))))
      == [LBrace, StrLit("text"), Colon, LBracket, StrLit("foo"), RBracket, RBrace]
  {
    var p := BuildPayload(AddText(EmptyBuilder, Val("foo")));
    assert p == map[TextKey := JsonArray([Val("foo")])];
    TextOnly(p, [Val("foo")]);
    OneItem("foo");
    assert [LBrace, StrLit("text"), Colon, LBracket] + [StrLit("foo")] + [RBracket, RBrace]
      == [LBrace, StrLit("text"), Colon, LBracket, StrLit("foo"), RBracket, RBrace];
  }

  /** `text("foo")` then `text("bar")`: the second call appends. */
  lemma MultipleTextEntries()
    ensures RenderTokens(BuildPayload(AddText(AddText(EmptyBuilder, Val("foo")), Val("bar"))))
      == [LBrace, StrLit("text"), Colon, LBracket, StrLit("foo"), Comma, StrLit("bar"), RBracket, RBrace]
  {
    var b := AddText(AddText(EmptyBuilder, Val("foo")), Val("bar"));
    assert b.text == [Val("foo"), Val("bar")];
    var p := BuildPayload(b);
    assert p == map[TextKey := JsonArray([Val("foo"), Val("bar")])];
    TextOnly(p, [Val("foo"), Val("bar")]);
    TwoItems("foo", "bar");
    assert [LBrace, StrLit("text"), Colon, LBracket] + [StrLit("foo"), Comma, StrLit("bar")] + [RBracket, RBrace]
      == [LBrace, StrLit("text"), Colon, LBracket, StrLit("foo"), Comma, StrLit("bar"), RBracket, RBrace];
  }

  /** `text(["foo", "bar"])` then `text("baz")`: batch and single calls
      append in call order. */
  lemma ListTextEntry()
    ensures RenderTokens(BuildPayload(AddText(AddTexts(EmptyBuilder, [Val("foo"), Val("bar")]), Val("baz"))))
      == [LBrace, StrLit("text"), Colon, LBracket, StrLit("foo"), Comma, StrLit("bar"), Comma, StrLit("baz"), RBracket, RBrace]
  {
    var b := AddText(AddTexts(EmptyBuilder, [Val("foo"), Val("bar")]), Val("baz"));
    assert b.text == [Val("foo"), Val("bar"), Val("baz")];
    var p := BuildPayload(b);
    assert p == map[TextKey := JsonArray([Val("foo"), Val("bar"), Val("baz")])];
    TextOnly(p, [Val("foo"), Val("bar"), Val("baz")]);
    ThreeItems("foo", "bar", "baz");
    assert [LBrace, StrLit("text"), Colon, LBracket] + [StrLit("foo"), Comma, StrLit("bar"), Comma, StrLit("baz")]
      + [RBracket, RBrace]
      == [LBrace, StrLit("text"), Colon, LBracket, StrLit("foo"), Comma, StrLit("bar"), Comma, StrLit("baz"), RBracket, RBrace];
  }

  /** Same index and analyzer, texts "source" and "source2": unequal requests. */
  lemma DifferentSourcesDiffer(indexSegment: JString -> string)
    ensures var base := WithAnalyzer(WithIndex(EmptyBuilder, Val("test")), Val("whitespace"));
      Build(AddText(base, Val("source")), indexSegment) != Build(AddText(base, Val("source2")), indexSegment)
  {
    var base := WithAnalyzer(WithIndex(EmptyBuilder, Val("test")), Val("whitespace"));
    assert AddText(base, Val("source")).text[0] != AddText(base, Val("source2")).text[0];
    BuildInjectiveInText(AddText(base, Val("source")), AddText(base, Val("source2")), indexSegment);
  }
}
