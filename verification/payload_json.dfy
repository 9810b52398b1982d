/**
 Writes an analyze payload as compact JSON with object keys in sorted order,
 the form the builder's expected payloads are written in, and reads it back.
 The writer produces JSON tokens; the text is the tokens' characters laid end
 to end. String tokens are written between quotes as they are, without
 escaping.
 */
module PayloadJson {
  import opened Java
  import opened Analyze

  /** Lexicographic order on strings by code unit, as `String.compareTo`
      orders the keys of a sorted map. */
  predicate LexLess(a: string, b: string)
    decreases |a|
  {
    if |a| == 0 then |b| > 0
    else if |b| == 0 then false
    else if a[0] != b[0] then a[0] < b[0]
    else LexLess(a[1..], b[1..])
  }

  /** Every later key's name is strictly greater than every earlier one's. */
  predicate StrictlyIncreasing(ks: seq<Key>) {
    forall i, j :: 0 <= i < j < |ks| ==> LexLess(KeyName(ks[i]), KeyName(ks[j]))
  }

  /** The payload keys in the order of their names. */
  const SortedKeys: seq<Key> := [AnalyzerKey, FieldKey, FilterKey, TextKey, TokenizerKey]

  /** The position of each key in `SortedKeys`. */
  function Rank(k: Key): nat {
    match k
    case AnalyzerKey => 0
    case FieldKey => 1
    case FilterKey => 2
    case TextKey => 3
    case TokenizerKey => 4
  }

  /** A key of lower rank has the lexicographically smaller name. */
  lemma RankOrdersNames(a: Key, b: Key)
    requires Rank(a) < Rank(b)
    ensures LexLess(KeyName(a), KeyName(b))
  {
    if a == FieldKey && b == FilterKey {
      assert "field"[1..][1..] == "eld" && "filter"[1..][1..] == "lter";
    }
  }

  /** `SortedKeys` lists every key once, in increasing order of names. */
  lemma SortedKeysSorted()
    ensures StrictlyIncreasing(SortedKeys)
    ensures forall k: Key :: k in SortedKeys
  {
    forall i, j | 0 <= i < j < |SortedKeys|
      ensures LexLess(KeyName(SortedKeys[i]), KeyName(SortedKeys[j]))
    {
      assert Rank(SortedKeys[i]) == i && Rank(SortedKeys[j]) == j;
      RankOrdersNames(SortedKeys[i], SortedKeys[j]);
    }
    forall k: Key ensures k in SortedKeys {
      assert SortedKeys[Rank(k)] == k;
    }
  }

  /** `[k]` when `k` is in the payload, otherwise nothing. */
  function IfPresent(k: Key, p: Payload): seq<Key> {
    if k in p then [k] else []
  }

  /** The keys of `keys` present in `p`, keeping their order. */
  function PresentKeys(keys: seq<Key>, p: Payload): seq<Key>
    decreases |keys|
  {
    if keys == [] then []
    else IfPresent(keys[0], p) + PresentKeys(keys[1..], p)
  }

  /** The selected keys are those of `keys` that `p` holds. */
  lemma {:induction false} PresentKeysMembers(keys: seq<Key>, p: Payload)
    ensures forall k :: k in PresentKeys(keys, p) <==> k in keys && k in p
    decreases |keys|
  {
    if keys != [] {
      PresentKeysMembers(keys[1..], p);
      assert keys == [keys[0]] + keys[1..];
    }
  }

  /** Selecting keys from an increasing list keeps them increasing. */
  lemma {:induction false} PresentKeysIncreasing(keys: seq<Key>, p: Payload)
    requires StrictlyIncreasing(keys)
    ensures StrictlyIncreasing(PresentKeys(keys, p))
    decreases |keys|
  {
    if keys != [] {
      PresentKeysIncreasing(keys[1..], p);
      PresentKeysMembers(keys[1..], p);
      var rest := PresentKeys(keys[1..], p);
      forall k | k in rest ensures LexLess(KeyName(keys[0]), KeyName(k)) {
        var j :| 0 <= j < |keys[1..]| && keys[1..][j] == k;
        assert keys[j + 1] == k;
      }
    }
  }

  /** The payload's keys in the order they are written. */
  function KeysInOrder(p: Payload): seq<Key> {
    PresentKeys(SortedKeys, p)
  }

  /** Keys are written sorted by name, each once, and they are exactly the
      payload's own keys. */
  lemma KeysInOrderSorted(p: Payload)
    ensures StrictlyIncreasing(KeysInOrder(p))
    ensures forall k :: k in KeysInOrder(p) <==> k in p
  {
    SortedKeysSorted();
    PresentKeysIncreasing(SortedKeys, p);
    PresentKeysMembers(SortedKeys, p);
  }

  /** Written order spelled out: analyzer, field, filter, text, tokenizer,
      each only when present. */
  lemma KeysInOrderExplicit(p: Payload)
    ensures KeysInOrder(p) == IfPresent(AnalyzerKey, p) + (IfPresent(FieldKey, p) + (IfPresent(FilterKey, p)
      + (IfPresent(TextKey, p) + IfPresent(TokenizerKey, p))))
  {
    var k1, k2, k3, k4 := SortedKeys[1..], SortedKeys[2..], SortedKeys[3..], SortedKeys[4..];
    assert k4[1..] == [];
    assert PresentKeys(k4, p) == IfPresent(TokenizerKey, p) + PresentKeys(k4[1..], p);
    assert k3[1..] == k4;
    assert PresentKeys(k3, p) == IfPresent(TextKey, p) + PresentKeys(k4, p);
    assert k2[1..] == k3;
    assert PresentKeys(k2, p) == IfPresent(FilterKey, p) + PresentKeys(k3, p);
    assert k1[1..] == k2;
    assert PresentKeys(k1, p) == IfPresent(FieldKey, p) + PresentKeys(k2, p);
    assert PresentKeys(SortedKeys, p) == IfPresent(AnalyzerKey, p) + PresentKeys(k1, p);
  }

  /** Compact JSON tokens: punctuation, `null` and string literals. */
  datatype Token = LBrace | RBrace | LBracket | RBracket | Colon | Comma | NullLit | StrLit(s: string)

  /** One array item. */
  function ItemTokens(t: JString): seq<Token> {
    match t
    case Null => [NullLit]
    case Val(s) => [StrLit(s)]
  }

  /** Array items separated by commas. */
  function ItemsTokens(ts: seq<JString>): seq<Token>
    decreases |ts|
  {
    if ts == [] then []
    else if |ts| == 1 then ItemTokens(ts[0])
    else ItemTokens(ts[0]) + [Comma] + ItemsTokens(ts[1..])
  }

  function ValueTokens(v: Value): seq<Token> {
    match v
    case JsonString(s) => [StrLit(s)]
    case JsonArray(ts) => [LBracket] + ItemsTokens(ts) + [RBracket]
  }

  /** One `"key":value` member. */
  function MemberTokens(k: Key, p: Payload): seq<Token>
    requires k in p
  {
    [StrLit(KeyName(k)), Colon] + ValueTokens(p[k])
  }

  /** The members for `ks`, separated by commas. */
  function MembersTokens(ks: seq<Key>, p: Payload): seq<Token>
    requires forall k :: k in ks ==> k in p
    decreases |ks|
  {
    if ks == [] then []
    else if |ks| == 1 then MemberTokens(ks[0], p)
    else MemberTokens(ks[0], p) + [Comma] + MembersTokens(ks[1..], p)
  }

  /** The payload as a JSON object with its keys sorted. */
  function RenderTokens(p: Payload): seq<Token> {
    PresentKeysMembers(SortedKeys, p);
    [LBrace] + MembersTokens(KeysInOrder(p), p) + [RBrace]
  }

  function TokenText(t: Token): string {
    match t
    case LBrace => "{"
    case RBrace => "}"
    case LBracket => "["
    case RBracket => "]"
    case Colon => ":"
    case Comma => ","
    case NullLit => "null"
    case StrLit(s) => "\"" + s + "\""
  }

  /** The characters of a token sequence, with no whitespace between tokens. */
  function Text(ts: seq<Token>): string
    decreases |ts|
  {
    if ts == [] then "" else TokenText(ts[0]) + Text(ts[1..])
  }

  /** The payload as compact JSON text. */
  function Render(p: Payload): string {
    Text(RenderTokens(p))
  }

  datatype Option<T> = None | Some(value: T)

  /** The key whose JSON name is `name`, if there is one. */
  function KeyNamed(name: string): (r: Option<Key>)
    ensures r.Some? ==> KeyName(r.value) == name
    ensures r.None? ==> forall k: Key :: KeyName(k) != name
  {
    if name == "analyzer" then Some(AnalyzerKey)
    else if name == "field" then Some(FieldKey)
    else if name == "filter" then Some(FilterKey)
    else if name == "text" then Some(TextKey)
    else if name == "tokenizer" then Some(TokenizerKey)
    else None
  }

  /** A single array item: a string or `null`. */
  function ParseItem(t: Token): Option<JString> {
    match t
    case NullLit => Some(Null)
    case StrLit(s) => Some(Val(s))
    case _ => None
  }

  /** One or more comma-separated items and the closing bracket; returns the
      items and the tokens after the bracket. */
  function ParseItems(ts: seq<Token>): (r: Option<(seq<JString>, seq<Token>)>)
    ensures r.Some? ==> |r.value.1| < |ts|
    decreases |ts|
  {
    if |ts| < 2 then None
    else match ParseItem(ts[0])
      case None => None
      case Some(x) =>
        if ts[1] == RBracket then Some(([x], ts[2..]))
        else if ts[1] != Comma then None
        else match ParseItems(ts[2..])
          case None => None
          case Some((xs, rest)) => Some(([x] + xs, rest))
  }

  /** The body of an array after its opening bracket. */
  function ParseArray(ts: seq<Token>): (r: Option<(seq<JString>, seq<Token>)>)
    ensures r.Some? ==> |r.value.1| < |ts|
  {
    if |ts| > 0 && ts[0] == RBracket then Some(([], ts[1..])) else ParseItems(ts)
  }

  /** A member value: a string or an array of items. */
  function ParseValue(ts: seq<Token>): (r: Option<(Value, seq<Token>)>)
    ensures r.Some? ==> |r.value.1| < |ts|
  {
    if ts == [] then None
    else match ts[0]
      case StrLit(s) => Some((JsonString(s), ts[1..]))
      case LBracket =>
        (match ParseArray(ts[1..])
         case None => None
         case Some((xs, rest)) => Some((JsonArray(xs), rest)))
      case _ => None
  }

  /** One or more comma-separated members and the closing brace; a key
      written twice keeps its later value. */
  function ParseMembers(ts: seq<Token>): Option<(Payload, seq<Token>)>
    decreases |ts|, 1
  {
    if |ts| < 2 || !ts[0].StrLit? || ts[1] != Colon then None
    else match KeyNamed(ts[0].s)
      case None => None
      case Some(k) =>
        match ParseValue(ts[2..])
        case None => None
        case Some((v, rest)) => ParseMoreMembers(k, v, rest)
  }

  /** What follows the member `k`: the closing brace or a comma and more
      members. */
  function ParseMoreMembers(k: Key, v: Value, ts: seq<Token>): Option<(Payload, seq<Token>)>
    decreases |ts|, 0
  {
    if |ts| == 0 then None
    else if ts[0] == RBrace then Some((map[k := v], ts[1..]))
    else if ts[0] != Comma then None
    else match ParseMembers(ts[1..])
      case None => None
      case Some((m, after)) => Some((map[k := v] + m, after))
  }

  /** Reads a whole token sequence as a payload object. */
  function Parse(ts: seq<Token>): Option<Payload> {
    if |ts| < 2 || ts[0] != LBrace then None
    else if ts[1] == RBrace then (if |ts| == 2 then Some(map[]) else None)
    else match ParseMembers(ts[1..])
      case Some((m, after)) => if after == [] then Some(m) else None
      case None => None
  }

  /** How `ParseItems` reads an item followed by `tail`. */
  lemma ParseItemsHead(x: JString, tail: seq<Token>)
    ensures ParseItems(ItemTokens(x) + tail) ==
      if |tail| == 0 then None
      else if tail[0] == RBracket then Some(([x], tail[1..]))
      else if tail[0] != Comma then None
      else match ParseItems(tail[1..])
        case None => None
        case Some((xs, rest)) => Some(([x] + xs, rest))
  {
    var ts := ItemTokens(x) + tail;
    assert ParseItem(ts[0]) == Some(x);
    if |tail| > 0 {
      assert ts[1] == tail[0] && ts[2..] == tail[1..];
    }
  }

  /** Regrouping a five-part concatenation to the right. */
  lemma RegroupItems(a: seq<Token>, c: seq<Token>, d: seq<Token>, e: seq<Token>, f: seq<Token>)
    ensures (((a + c) + d) + e) + f == a + (c + ((d + e) + f))
  {
  }

  /** The written items split after the first one. */
  lemma ItemsTokensSplit(xs: seq<JString>, rest: seq<Token>)
    requires |xs| > 1
    ensures ItemsTokens(xs) + [RBracket] + rest == ItemTokens(xs[0]) + ([Comma] + (ItemsTokens(xs[1..]) + [RBracket] + rest))
  {
    assert ItemsTokens(xs) == (ItemTokens(xs[0]) + [Comma]) + ItemsTokens(xs[1..]);
    RegroupItems(ItemTokens(xs[0]), [Comma], ItemsTokens(xs[1..]), [RBracket], rest);
  }

  /** Reading an item followed by further items, given how the further items
      read. */
  lemma ParseItemThenMore(xs: seq<JString>, rest: seq<Token>)
    requires |xs| > 1
    requires ParseItems(ItemsTokens(xs[1..]) + [RBracket] + rest) == Some((xs[1..], rest))
    ensures ParseItems(ItemsTokens(xs) + [RBracket] + rest) == Some((xs, rest))
  {
    var more := ItemsTokens(xs[1..]) + [RBracket] + rest;
    ItemsTokensSplit(xs, rest);
    ParseItemsHead(xs[0], [Comma] + more);
    assert ([Comma] + more)[1..] == more;
    assert [xs[0]] + xs[1..] == xs;
  }

  /** Reading written items back gives the items and leaves what follows. */
  lemma {:induction false} ParseItemsRoundTrip(xs: seq<JString>, rest: seq<Token>)
    requires xs != []
    ensures ParseItems(ItemsTokens(xs) + [RBracket] + rest) == Some((xs, rest))
    decreases |xs|
  {
    if |xs| == 1 {
      assert ItemsTokens(xs) == ItemTokens(xs[0]) && [xs[0]] == xs;
      assert ItemsTokens(xs) + [RBracket] + rest == ItemTokens(xs[0]) + ([RBracket] + rest);
      ParseItemsHead(xs[0], [RBracket] + rest);
      assert ([RBracket] + rest)[1..] == rest;
    } else {
      ParseItemsRoundTrip(xs[1..], rest);
      ParseItemThenMore(xs, rest);
    }
  }

  lemma ParseValueRoundTrip(v: Value, rest: seq<Token>)
    ensures ParseValue(ValueTokens(v) + rest) == Some((v, rest))
  {
    var ts := ValueTokens(v) + rest;
    match v
    case JsonString(s) =>
      assert ts[1..] == rest;
    case JsonArray(xs) =>
      assert ts[1..] == ItemsTokens(xs) + [RBracket] + rest;
      if xs == [] {
        assert ts[1..][1..] == rest;
      } else {
        assert ts[1..][0] == ItemTokens(xs[0])[0];
        ParseItemsRoundTrip(xs, rest);
      }
  }

  /** How `ParseMembers` reads a member whose value is written out. */
  lemma ParseMembersHead(k: Key, v: Value, tail: seq<Token>)
    ensures ParseMembers([StrLit(KeyName(k)), Colon] + (ValueTokens(v) + tail)) == ParseMoreMembers(k, v, tail)
  {
    var ts := [StrLit(KeyName(k)), Colon] + (ValueTokens(v) + tail);
    assert ts[2..] == ValueTokens(v) + tail;
    assert KeyNamed(KeyName(k)) == Some(k);
    ParseValueRoundTrip(v, tail);
  }

  /** The members `ks` of `p` gathered into a payload, in the way the reader
      gathers them. */
  function Gather(ks: seq<Key>, p: Payload): Payload
    requires forall k :: k in ks ==> k in p
    decreases |ks|
  {
    if ks == [] then map[] else map[ks[0] := p[ks[0]]] + Gather(ks[1..], p)
  }

  /** Gathering keeps exactly the listed keys with their values in `p`. */
  lemma {:induction false} GatherContents(ks: seq<Key>, p: Payload)
    requires forall k :: k in ks ==> k in p
    ensures forall k :: k in Gather(ks, p) <==> k in ks
    ensures forall k :: k in Gather(ks, p) ==> Gather(ks, p)[k] == p[k]
    decreases |ks|
  {
    if ks != [] {
      GatherContents(ks[1..], p);
      assert ks == [ks[0]] + ks[1..];
    }
  }

  /** Reading the last written member back. */
  lemma ParseLastMember(ks: seq<Key>, p: Payload, rest: seq<Token>)
    requires |ks| == 1 && ks[0] in p
    ensures ParseMembers(MembersTokens(ks, p) + [RBrace] + rest) == Some((Gather(ks, p), rest))
  {
    var k := ks[0];
    var tail := [RBrace] + rest;
    assert MembersTokens(ks, p) == MemberTokens(k, p);
    assert MembersTokens(ks, p) + [RBrace] + rest == [StrLit(KeyName(k)), Colon] + (ValueTokens(p[k]) + tail);
    ParseMembersHead(k, p[k], tail);
    assert tail[1..] == rest;
    assert ks[1..] == [];
    assert map[k := p[k]] + map[] == map[k := p[k]];
  }

  /** Regrouping a six-part concatenation to the right. */
  lemma RegroupRight(a: seq<Token>, b: seq<Token>, c: seq<Token>, d: seq<Token>, e: seq<Token>, f: seq<Token>)
    ensures ((((a + b) + c) + d) + e) + f == a + (b + (c + ((d + e) + f)))
  {
  }

  /** The written members split after the first one. */
  lemma MembersTokensSplit(ks: seq<Key>, p: Payload, rest: seq<Token>)
    requires |ks| > 1 && forall k :: k in ks ==> k in p
    ensures MembersTokens(ks, p) + [RBrace] + rest
      == [StrLit(KeyName(ks[0])), Colon] + (ValueTokens(p[ks[0]]) + ([Comma] + (MembersTokens(ks[1..], p) + [RBrace] + rest)))
  {
    var head := [StrLit(KeyName(ks[0])), Colon];
    assert MembersTokens(ks, p) == ((head + ValueTokens(p[ks[0]])) + [Comma]) + MembersTokens(ks[1..], p);
    RegroupRight(head, ValueTokens(p[ks[0]]), [Comma], MembersTokens(ks[1..], p), [RBrace], rest);
  }

  /** Reading a member followed by further members, given how the further
      members read. */
  lemma ParseMemberThenMore(ks: seq<Key>, p: Payload, rest: seq<Token>)
    requires |ks| > 1 && forall k :: k in ks ==> k in p
    requires ParseMembers(MembersTokens(ks[1..], p) + [RBrace] + rest) == Some((Gather(ks[1..], p), rest))
    ensures ParseMembers(MembersTokens(ks, p) + [RBrace] + rest) == Some((Gather(ks, p), rest))
  {
    var k := ks[0];
    var more := MembersTokens(ks[1..], p) + [RBrace] + rest;
    MembersTokensSplit(ks, p, rest);
    ParseMembersHead(k, p[k], [Comma] + more);
    assert ([Comma] + more)[1..] == more;
  }

  /** Reading written members back gathers them and leaves what follows the
      closing brace. */
  lemma {:induction false} ParseMembersRoundTrip(ks: seq<Key>, p: Payload, rest: seq<Token>)
    requires ks != []
    requires forall k :: k in ks ==> k in p
    ensures ParseMembers(MembersTokens(ks, p) + [RBrace] + rest) == Some((Gather(ks, p), rest))
    decreases |ks|
  {
    if |ks| == 1 {
      ParseLastMember(ks, p, rest);
    } else {
      ParseMembersRoundTrip(ks[1..], p, rest);
      ParseMemberThenMore(ks, p, rest);
    }
  }

  /** The written form of a payload as an opening brace, its members in
      written order and a closing brace. */
  lemma RenderTokensShape(p: Payload)
    ensures forall k :: k in KeysInOrder(p) ==> k in p
    ensures RenderTokens(p) == [LBrace] + MembersTokens(KeysInOrder(p), p) + [RBrace]
  {
    PresentKeysMembers(SortedKeys, p);
  }

  /** Gathering a list holding exactly the payload's keys gives the payload. */
  lemma GatherAll(ks: seq<Key>, p: Payload)
    requires forall k :: k in ks <==> k in p
    ensures Gather(ks, p) == p
  {
    GatherContents(ks, p);
    assert Gather(ks, p).Keys == p.Keys;
  }

  /** Reading an object whose members list exactly the payload's keys gives
      back the payload. */
  lemma ParseObject(ks: seq<Key>, p: Payload)
    requires forall k :: k in ks <==> k in p
    ensures Parse([LBrace] + MembersTokens(ks, p) + [RBrace]) == Some(p)
  {
    GatherAll(ks, p);
    if ks == [] {
      assert [LBrace] + MembersTokens(ks, p) + [RBrace] == [LBrace, RBrace];
    } else {
      ParseNonEmptyObject(ks, p);
    }
  }

  lemma ParseNonEmptyObject(ks: seq<Key>, p: Payload)
    requires ks != [] && forall k :: k in ks ==> k in p
    ensures Parse([LBrace] + MembersTokens(ks, p) + [RBrace]) == Some(Gather(ks, p))
  {
    var ms := MembersTokens(ks, p);
    var ts := [LBrace] + ms + [RBrace];
    assert ParseMembers(ms + [RBrace] + []) == Some((Gather(ks, p), [])) by {
      ParseMembersRoundTrip(ks, p, []);
    }
    assert ts[1..] == ms + [RBrace] + [];
    assert ts[1] == StrLit(KeyName(ks[0])) by {
      MembersTokensStart(ks, p);
    }
    ParseObjectBody(ts, Gather(ks, p));
  }

  /** A non-empty member list starts with the first key's name. */
  lemma MembersTokensStart(ks: seq<Key>, p: Payload)
    requires ks != [] && forall k :: k in ks ==> k in p
    ensures |MembersTokens(ks, p)| > 0 && MembersTokens(ks, p)[0] == StrLit(KeyName(ks[0]))
  {
  }

  /** An opening brace followed by members that end the input. */
  lemma ParseObjectBody(ts: seq<Token>, m: Payload)
    requires |ts| >= 2 && ts[0] == LBrace && ts[1] != RBrace
    requires ParseMembers(ts[1..]) == Some((m, []))
    ensures Parse(ts) == Some(m)
  {
  }

  /** Reading the written payload gives back exactly that payload. */
  lemma ParseRenderTokens(p: Payload)
    ensures Parse(RenderTokens(p)) == Some(p)
  {
    RenderTokensShape(p);
    KeysInOrderSorted(p);
    ParseObject(KeysInOrder(p), p);
  }
}
