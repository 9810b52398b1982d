/**
 Sequences of fluent calls on the analyze builder. The builder is the left
 fold of its calls; the lemmas compare that fold with direct, call-order
 descriptions of what each option ends up holding.
 */
module BuilderCalls {
  import opened Java
  import opened Analyze

  /** One call on `Analyze.Builder`. */
  datatype Call =
    | Index(index: JString)
    | Text(text: JString)
    | Texts(texts: seq<JString>)
    | AnalyzerCall(analyzer: JString)
    | FieldCall(field: JString)
    | TokenizerCall(tokenizer: JString)
    | Filter(filter: JString)

  /** The option a call writes. */
  function Target(c: Call): Setting {
    match c
    case Index(_) => IndexSetting
    case Text(_) => TextSetting
    case Texts(_) => TextSetting
    case AnalyzerCall(_) => AnalyzerSetting
    case FieldCall(_) => FieldSetting
    case TokenizerCall(_) => TokenizerSetting
    case Filter(_) => FilterSetting
  }

  /** Performs one call; only the option it targets changes. */
  function Apply(b: Builder, c: Call): (r: Builder)
    ensures AgreeExcept(b, r, Target(c))
  {
    match c
    case Index(i) => WithIndex(b, i)
    case Text(t) => AddText(b, t)
    case Texts(ts) => AddTexts(b, ts)
    case AnalyzerCall(a) => WithAnalyzer(b, a)
    case FieldCall(f) => WithField(b, f)
    case TokenizerCall(t) => WithTokenizer(b, t)
    case Filter(f) => AddFilter(b, f)
  }

  /** Performs the calls in order, as a fluent chain does. */
  function ApplyAll(b: Builder, cs: seq<Call>): Builder
    decreases |cs|
  {
    if cs == [] then b else ApplyAll(Apply(b, cs[0]), cs[1..])
  }

  predicate IsScalar(s: Setting) {
    s == IndexSetting || s == AnalyzerSetting || s == FieldSetting || s == TokenizerSetting
  }

  /** The value of a scalar option. */
  function ScalarOf(b: Builder, s: Setting): JString
    requires IsScalar(s)
  {
    match s
    case IndexSetting => b.index
    case AnalyzerSetting => b.analyzer
    case FieldSetting => b.field
    case TokenizerSetting => b.tokenizer
  }

  /** The argument of a call that sets a scalar option. */
  function ScalarArg(c: Call): JString
    requires IsScalar(Target(c))
  {
    match c
    case Index(i) => i
    case AnalyzerCall(a) => a
    case FieldCall(f) => f
    case TokenizerCall(t) => t
  }

  /** Reference definition: the argument of the LAST call that sets `s`, or
      `init` when no call does. */
  function LastSet(cs: seq<Call>, s: Setting, init: JString): JString
    requires IsScalar(s)
    decreases |cs|
  {
    if cs == [] then init
    else if Target(cs[|cs| - 1]) == s then ScalarArg(cs[|cs| - 1])
    else LastSet(cs[..|cs| - 1], s, init)
  }

  /** The text entries a single call contributes. */
  function TextsOfCall(c: Call): seq<JString> {
    match c
    case Text(t) => [t]
    case Texts(ts) => ts
    case _ => []
  }

  /** Reference definition: the text entries of all calls, concatenated in call order. */
  function TextsOf(cs: seq<Call>): seq<JString>
    decreases |cs|
  {
    if cs == [] then [] else TextsOfCall(cs[0]) + TextsOf(cs[1..])
  }

  /** Reference definition: the filters of all calls, in call order. */
  function FiltersOf(cs: seq<Call>): seq<JString>
    decreases |cs|
  {
    if cs == [] then []
    else (if cs[0].Filter? then [cs[0].filter] else []) + FiltersOf(cs[1..])
  }

  /** Running calls in two batches is running them all at once. */
  lemma {:induction false} ApplyAllConcat(b: Builder, cs1: seq<Call>, cs2: seq<Call>)
    ensures ApplyAll(b, cs1 + cs2) == ApplyAll(ApplyAll(b, cs1), cs2)
    decreases |cs1|
  {
    if cs1 == [] {
      assert cs1 + cs2 == cs2;
    } else {
      assert (cs1 + cs2)[0] == cs1[0];
      assert (cs1 + cs2)[1..] == cs1[1..] + cs2;
      ApplyAllConcat(Apply(b, cs1[0]), cs1[1..], cs2);
    }
  }

  /** Text calls append: the text list is the initial one followed by every
      text entry of every call, single or batch, in call order. */
  lemma {:induction false} TextAccumulates(b: Builder, cs: seq<Call>)
    ensures ApplyAll(b, cs).text == b.text + TextsOf(cs)
    decreases |cs|
  {
    if cs == [] {
      assert b.text + [] == b.text;
    } else {
      var c, rest := cs[0], cs[1..];
      var next := Apply(b, c);
      var tail := ApplyAll(next, rest);
      assert tail.text == next.text + TextsOf(rest) by {
        TextAccumulates(next, rest);
      }
      assert next.text == b.text + TextsOfCall(c) by {
        TextStep(b, c);
      }
      assert (b.text + TextsOfCall(c)) + TextsOf(rest) == b.text + (TextsOfCall(c) + TextsOf(rest));
      assert ApplyAll(b, cs) == tail;
      assert TextsOf(cs) == TextsOfCall(c) + TextsOf(rest);
    }
  }

  /** One call appends its own text entries. */
  lemma TextStep(b: Builder, c: Call)
    ensures Apply(b, c).text == b.text + TextsOfCall(c)
  {
    if c.Text? {
      assert Apply(b, c).text == b.text + [c.text];
    } else if !c.Texts? {
      assert Apply(b, c).text == b.text;
    }
  }

  /** Filter calls append: the filter list is the initial one followed by
      every filter, in call order. */
  lemma {:induction false} FilterAccumulates(b: Builder, cs: seq<Call>)
    ensures ApplyAll(b, cs).filter == b.filter + FiltersOf(cs)
    decreases |cs|
  {
    if cs != [] {
      FilterAccumulates(Apply(b, cs[0]), cs[1..]);
      assert Apply(b, cs[0]).filter == b.filter + (if cs[0].Filter? then [cs[0].filter] else []);
    }
  }

  /** Scalar calls overwrite: each scalar ends up holding the argument of the
      last call that set it, or its initial value. */
  lemma {:induction false} ScalarLastWins(b: Builder, cs: seq<Call>, s: Setting)
    requires IsScalar(s)
    ensures ScalarOf(ApplyAll(b, cs), s) == LastSet(cs, s, ScalarOf(b, s))
    decreases |cs|
  {
    if cs != [] {
      var init, last := cs[..|cs| - 1], cs[|cs| - 1];
      assert cs == init + [last];
      ApplyAllConcat(b, init, [last]);
      ScalarLastWins(b, init, s);
      var before := ApplyAll(b, init);
      assert ApplyAll(before, [last]) == Apply(before, last);
    }
  }

  /** The filter key is in the payload exactly when some filter call was made,
      even a call with a null filter. */
  lemma {:induction false} FiltersOfNonEmptyIff(cs: seq<Call>)
    ensures |FiltersOf(cs)| > 0 <==> exists i :: 0 <= i < |cs| && cs[i].Filter?
    decreases |cs|
  {
    if cs != [] {
      FiltersOfNonEmptyIff(cs[1..]);
      if exists i :: 0 <= i < |cs| && cs[i].Filter? {
        var i :| 0 <= i < |cs| && cs[i].Filter?;
        if i > 0 {
          assert cs[1..][i - 1].Filter?;
        }
      }
      if exists i :: 0 <= i < |cs[1..]| && cs[1..][i].Filter? {
        var i :| 0 <= i < |cs[1..]| && cs[1..][i].Filter?;
        assert cs[i + 1].Filter?;
      }
    }
  }

  /** From a fresh builder the payload's text is exactly the text of all calls,
      and the filter key is present exactly when a filter call was made. */
  lemma PayloadFromCalls(cs: seq<Call>, indexSegment: JString -> string)
    ensures Build(ApplyAll(EmptyBuilder, cs), indexSegment).payload[TextKey] == JsonArray(TextsOf(cs))
    ensures FilterKey in Build(ApplyAll(EmptyBuilder, cs), indexSegment).payload
      <==> exists i :: 0 <= i < |cs| && cs[i].Filter?
  {
    TextAccumulates(EmptyBuilder, cs);
    FilterAccumulates(EmptyBuilder, cs);
    FiltersOfNonEmptyIff(cs);
  }

  /** Only index calls move the URI: calls that set no index leave it as it was. */
  lemma {:induction false} UriIgnoresOtherCalls(b: Builder, cs: seq<Call>, indexSegment: JString -> string)
    requires forall i :: 0 <= i < |cs| ==> !cs[i].Index?
    ensures Build(ApplyAll(b, cs), indexSegment).uri == Build(b, indexSegment).uri
    decreases |cs|
  {
    if cs != [] {
      UriIgnoresOtherCalls(Apply(b, cs[0]), cs[1..], indexSegment);
    }
  }

  /** A batch then a single text: `["foo","bar"]` then `"baz"` gives
      `["foo","bar","baz"]`. */
  lemma BatchThenSingleText()
    ensures ApplyAll(EmptyBuilder, [Texts([Val("foo"), Val("bar")]), Text(Val("baz"))]).text
      == [Val("foo"), Val("bar"), Val("baz")]
  {
    var cs := [Texts([Val("foo"), Val("bar")]), Text(Val("baz"))];
    TextAccumulates(EmptyBuilder, cs);
    assert cs[1..][1..] == [];
  }
}
