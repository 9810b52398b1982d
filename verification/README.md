# Analyze request builder — a Dafny model

This project models the `_analyze` action of the Jest Elasticsearch client. A
fluent `Analyze.Builder` collects these options:

- an index name;
- a list of texts, appended one at a time or in batches;
- the scalar options `analyzer`, `field` and `tokenizer`;
- a list of token filters.

`build()` turns the options into a relative URI, the verb `POST` and a JSON
payload. The payload follows an omission policy:

- `text` is always present, even when it is an empty array;
- each scalar is present only when it is non-null and non-empty;
- `filter` is present only when at least one filter was added;
- the index name never appears in the payload.

The model has four parts.

- `java.dfy` (module `Java`): nullable Java strings and Guava's `isNullOrEmpty`.
- `analyze.dfy` (module `Analyze`):
  - the builder state and its setters;
  - the payload the constructor assembles;
  - the request that `build()` yields.

  `Recover` reads options back out of a payload. It is the inverse of
  `BuildPayload`, up to what the omission policy forgets: reading a built
  payload gives the builder in canonical form, where the index is dropped and
  an empty scalar is identified with a null one.
  From this the file proves when two built requests are equal, in both
  directions.
- `builder_calls.dfy` (module `BuilderCalls`): whole chains of builder calls.
  The builder is the left fold of its calls. The fold is compared with
  call-order reference definitions:
  - texts and filters accumulate in call order;
  - for a scalar, the last call wins.
- `payload_json.dfy` (module `PayloadJson`): the payload written as compact
  JSON with keys in sorted order. This is what the client's tests compare
  against, since their `ObjectMapper` is configured with
  `ORDER_MAP_ENTRIES_BY_KEYS`. The writer produces JSON tokens. `Text` lays
  the tokens out as characters. A token reader `Parse` reads the writer's
  output back to the same payload. The writer `RenderTokens` and the
  character layout `Render` carry no table rows of their own: their
  properties are stated by `KeysInOrderSorted` (key order) and
  `ParseRenderTokens` (nothing is lost in writing).
- `analyze_test_cases.dfy` (module `AnalyzeTestCases`): the repository's
  documented cases, each with its expected URI and payload.

The superclass's `buildURI()` gives the URI prefix derived from the index. Its
code is not part of this model, so `Build` takes it as a parameter,
`indexSegment`. The only facts about it that the model uses are the two that
the repository's tests fix: no index gives `""`, and index `"test"` gives
`"test"` (`PinnedByTests`).

One might expect any two builders that differ in a single option to give
unequal requests. The code does not do this. `isNullOrEmpty`
(Analyze.java:31-39) treats a null scalar and an empty one alike, so
`analyzer(null)` and `analyzer("")` build equal requests. This model follows the code: see
`Analyze.NullAndEmptyScalarsAgree`, and `Analyze.BuildEqualIff` for the exact
condition.

## Model

| member | source | states |
|---|---|---|
| Analyze.WithIndex | jest-common/src/main/java/io/searchbox/indices/Analyze.java:67-70 | `index(String)` overwrites the index with the argument, null included; every other option is unchanged |
| Analyze.AddText | jest-common/src/main/java/io/searchbox/indices/Analyze.java:72-75 | `text(String)` appends exactly one entry, a null one too, after the unchanged earlier entries; nothing else changes |
| Analyze.AddTexts | jest-common/src/main/java/io/searchbox/indices/Analyze.java:77-80 | `text(Collection)` appends the whole batch in its own order after the unchanged earlier entries; nothing else changes |
| Analyze.WithAnalyzer | jest-common/src/main/java/io/searchbox/indices/Analyze.java:82-85 | `analyzer(String)` overwrites the analyzer; every other option is unchanged |
| Analyze.WithField | jest-common/src/main/java/io/searchbox/indices/Analyze.java:90-93 | `field(String)` overwrites the field; every other option is unchanged |
| Analyze.WithTokenizer | jest-common/src/main/java/io/searchbox/indices/Analyze.java:95-98 | `tokenizer(String)` overwrites the tokenizer; every other option is unchanged |
| Analyze.AddFilter | jest-common/src/main/java/io/searchbox/indices/Analyze.java:100-103 | `filter(String)` appends exactly one filter, a null one too, after the unchanged earlier filters; nothing else changes |
| Analyze.BuildPayload | jest-common/src/main/java/io/searchbox/indices/Analyze.java:28-44 | `text` is always present and holds the text list; `analyzer`, `field` and `tokenizer` are each present exactly when non-null and non-empty, and then hold that string; `filter` is present exactly when the filter list is non-empty, and then holds it |
| Analyze.Build | jest-common/src/main/java/io/searchbox/indices/Analyze.java:22-57 | the verb is always `POST`; the URI is the index prefix followed by `/_analyze`; the payload is the one the omission policy assembles |
| Analyze.UriForPinnedIndexes | jest-common/src/main/java/io/searchbox/indices/Analyze.java:49-52 | with no index the URI is `/_analyze`; with index `test` it is `test/_analyze` |
| Analyze.RecoverBuildPayload | jest-common/src/main/java/io/searchbox/indices/Analyze.java:28-44 | reading a built payload back yields the builder with the index dropped and empty scalars read as null, so the payload loses nothing else |
| Analyze.BuildPayloadOfCanonical | jest-common/src/main/java/io/searchbox/indices/Analyze.java:31-39 | the payload depends only on the canonical options: the index, and the difference between null and empty scalars, are invisible to it |
| Analyze.PayloadEqualIff | jest-common/src/main/java/io/searchbox/indices/Analyze.java:28-44 | two builders give equal payloads if and only if their canonical options are equal |
| Analyze.BuildEqualIff | jest-common/src/main/java/io/searchbox/indices/Analyze.java:22-52 | two built requests are equal if and only if their index prefixes and canonical options are equal |
| Analyze.BuildInjectiveInText | jest-common/src/test/java/io/searchbox/indices/AnalyzeTest.java:107-121 | builders whose text lists differ never give equal requests |
| Analyze.IndexNotInPayload | jest-common/src/main/java/io/searchbox/indices/Analyze.java:25-44 | setting the index leaves the payload unchanged: the index only feeds the URI |
| Analyze.NullAndEmptyScalarsAgree | jest-common/src/main/java/io/searchbox/indices/Analyze.java:31-39 | a null scalar and an empty one build the same request, for each of analyzer, field and tokenizer |
| BuilderCalls.Apply | jest-common/src/main/java/io/searchbox/indices/Analyze.java:67-103 | each builder call changes only the option it targets |
| BuilderCalls.ApplyAllConcat | jest-common/src/main/java/io/searchbox/indices/Analyze.java:67-103 | a chain of calls split into two chains gives the same builder |
| BuilderCalls.TextAccumulates | jest-common/src/main/java/io/searchbox/indices/Analyze.java:72-80 | after any chain of calls, the text list is the initial list followed by the entries of every single and batch text call, in call order |
| BuilderCalls.FilterAccumulates | jest-common/src/main/java/io/searchbox/indices/Analyze.java:100-103 | after any chain of calls, the filter list is the initial list followed by every filter call's argument, in call order |
| BuilderCalls.ScalarLastWins | jest-common/src/main/java/io/searchbox/indices/Analyze.java:67-98 | after any chain of calls, index, analyzer, field and tokenizer each hold the argument of the last call that set them, or their initial value if no call did |
| BuilderCalls.FiltersOfNonEmptyIff | jest-common/src/main/java/io/searchbox/indices/Analyze.java:40-42 | the filter list is non-empty if and only if some call in the chain was a filter call |
| BuilderCalls.PayloadFromCalls | jest-common/src/main/java/io/searchbox/indices/Analyze.java:28-44 | from a fresh builder, the payload's `text` is exactly the text of all calls, and `filter` is present if and only if a filter call was made, even one with a null argument |
| BuilderCalls.UriIgnoresOtherCalls | jest-common/src/main/java/io/searchbox/indices/Analyze.java:46-52 | calls that do not set the index never change the URI |
| BuilderCalls.BatchThenSingleText | jest-common/src/test/java/io/searchbox/indices/AnalyzeTest.java:82-89 | a batch `["foo","bar"]` followed by `"baz"` gives the text list `["foo","bar","baz"]` |
| PayloadJson.SortedKeysSorted | jest-common/src/test/java/io/searchbox/indices/AnalyzeTest.java:16 | the fixed key order analyzer, field, filter, text, tokenizer is strictly increasing in `String.compareTo` order and lists every payload key |
| PayloadJson.KeysInOrderSorted | jest-common/src/test/java/io/searchbox/indices/AnalyzeTest.java:16 | a payload's keys are written in strictly increasing name order, and the written keys are exactly the payload's keys |
| PayloadJson.KeyNamed | jest-common/src/main/java/io/searchbox/indices/Analyze.java:29-41 | reading a key name gives the key with that JSON name, and gives nothing when no payload key has that name |
| PayloadJson.ParseItemsRoundTrip | jest-common/src/test/java/io/searchbox/indices/AnalyzeTest.java:79 | reading a written non-empty array gives back its items, nulls included, and stops after the closing bracket |
| PayloadJson.ParseMembersRoundTrip | jest-common/src/test/java/io/searchbox/indices/AnalyzeTest.java:34 | reading written members gives back each written key with its value, and stops after the closing brace |
| PayloadJson.ParseRenderTokens | jest-common/src/test/java/io/searchbox/indices/AnalyzeTest.java:16 | reading the written JSON tokens of any payload gives back exactly that payload |
| AnalyzeTestCases.BasicUrlGeneration | jest-common/src/test/java/io/searchbox/indices/AnalyzeTest.java:18-25 | `analyzer("standard")` gives URI `/_analyze` and payload `{"analyzer":"standard","text":[]}` |
| AnalyzeTestCases.CustomTransientAnalyzer | jest-common/src/test/java/io/searchbox/indices/AnalyzeTest.java:27-35 | `tokenizer("keyword")` then `filter("lowercase")` gives URI `/_analyze` and payload `{"filter":["lowercase"],"text":[],"tokenizer":"keyword"}` |
| AnalyzeTestCases.UrlWithIndex | jest-common/src/test/java/io/searchbox/indices/AnalyzeTest.java:37-43 | `index("test")` gives URI `test/_analyze` |
| AnalyzeTestCases.UrlWithIndexAndAnalyzer | jest-common/src/test/java/io/searchbox/indices/AnalyzeTest.java:45-53 | `index("test")` then `analyzer("whitespace")` gives URI `test/_analyze` and payload `{"analyzer":"whitespace","text":[]}` |
| AnalyzeTestCases.UrlWithIndexAndFieldMapping | jest-common/src/test/java/io/searchbox/indices/AnalyzeTest.java:55-63 | `index("test")` then `field("obj1.field1")` gives URI `test/_analyze` and payload `{"field":"obj1.field1","text":[]}` |
| AnalyzeTestCases.SingleTextEntry | jest-common/src/test/java/io/searchbox/indices/AnalyzeTest.java:65-71 | `text("foo")` gives payload `{"text":["foo"]}` |
| AnalyzeTestCases.MultipleTextEntries | jest-common/src/test/java/io/searchbox/indices/AnalyzeTest.java:73-80 | `text("foo")` then `text("bar")` gives payload `{"text":["foo","bar"]}` |
| AnalyzeTestCases.ListTextEntry | jest-common/src/test/java/io/searchbox/indices/AnalyzeTest.java:82-89 | `text(["foo","bar"])` then `text("baz")` gives payload `{"text":["foo","bar","baz"]}` |
| AnalyzeTestCases.DifferentSourcesDiffer | jest-common/src/test/java/io/searchbox/indices/AnalyzeTest.java:107-121 | the same index and analyzer with texts `source` and `source2` give unequal requests |

## Left out

- AnalyzeTestCases.BasicUrlGeneration and the other payload cases: the expected payload is stated as the sequence of JSON tokens written, not as the character string. The characters are `PayloadJson.Text` of those tokens, and that step is not proved for each case.
- Analyze.Build — the source's payload shares the builder's `text` and `filter` lists (Analyze.java:29, :41), so builder calls made after `build()` still change an already built request; the model takes the lists' values at build time.
- Java strings as UTF-16 code units, surrogate pairs included, are not modelled: a Dafny `char` is a Unicode scalar value. Only length zero and the ASCII key names matter to the proved properties.
- `PayloadJson.Text` without escaping does not determine the tokens: the one item `a","b` and the two items `a` and `b` lay out as the same characters. The round trip is therefore stated on tokens.
- The superclass `AbstractAction.buildURI()` is not part of this model. It is the parameter `indexSegment`, and only its two values fixed by the tests are assumed (`PinnedByTests`).
- `format(String)` (Analyze.java:109-111) is left out: it sets a URL parameter through the superclass, and that code is not part of this model.
- The assignment of a singleton text map at Analyze.java:26 is left out: line 44 always overwrites it.
- `text(Collection)` with a null collection throws `NullPointerException` in Java. The model's batch is always a sequence, so this case is left out.
- Jackson string escaping is left out: string tokens are written between quotes as they are.
- `ImmutableMap` insertion order is left out: the payload is a map, and the writer orders keys by name, as the tests' mapper does.
- `equals`/`hashCode` of the action class are not modelled; requests are compared by structural equality of URI, verb and payload.
- The transport layer, the superclass's headers and parameters, and the result parsing of `GenericResultAbstractAction` are left out. Sending a request is I/O.
- The `SearchScroll` and `GetAliases` actions, whose tests sit next to these, are outside the modelled component.
