/** The strict request decoders, over the tokens of the JSON reader. */
module Decoding {
  import opened Options
  import opened Tables

  /** `Num(None)` is a number that is no integer literal; `Bad` stands for any error of the lexer,
      misplaced or missing punctuation included. */
  datatype Token =
    | OpenObject | CloseObject | OpenArray | CloseArray
    | Str(text: string) | Num(value: Option<int>) | Bool(flag: bool) | Null
    | Bad
  {
    predicate Scalar() { Str? || Num? || Bool? || Null? }
  }

  const MIN_INT64 := -0x8000_0000_0000_0000

  predicate IsInt64(t: Token) { t.Num? && t.value.Some? && MIN_INT64 <= t.value.value <= MAX_INT64 }

  /** The reader: every call advances the same position. */
  class Decoder {
    const tokens: seq<Token>
    var pos: nat

    ghost predicate Valid() reads this { pos <= |tokens| }

    constructor (tokens: seq<Token>)
      ensures this.tokens == tokens && pos == 0 && Valid()
    {
      this.tokens, pos := tokens, 0;
    }

    /** None is the end of the input; a lexical error is `Bad`. */
    method Next() returns (t: Option<Token>)
      requires Valid()
      modifies this
      ensures Valid()
      ensures old(pos) == |tokens| ==> t == None && pos == old(pos)
      ensures old(pos) < |tokens| ==> t == Some(tokens[old(pos)]) && pos == old(pos) + 1
    {
      if pos == |tokens| {
        return None;
      }
      t := Some(tokens[pos]);
      pos := pos + 1;
    }

    method More() returns (more: bool)
      requires Valid()
      ensures more <==> pos < |tokens| && !tokens[pos].CloseObject? && !tokens[pos].CloseArray?
    {
      more := pos < |tokens| && !tokens[pos].CloseObject? && !tokens[pos].CloseArray?;
    }

    /** Reads one whole value, nested ones included; fails exactly when none starts here. */
    method Decode() returns (raw: seq<Token>, ok: bool)
      requires Valid()
      modifies this
      ensures Valid()
      ensures ok ==> old(pos) < pos && raw == tokens[old(pos)..pos] && Value(raw)
      ensures !ok ==> forall n :: old(pos) < n <= |tokens| ==> !Value(tokens[old(pos)..n])
    {
      var start, stack, done := pos, [], false;
      while !done
        invariant Valid() && start <= pos
        invariant Nesting(tokens[start..pos]) == Some(stack)
        invariant done <==> pos > start && stack == []
        invariant Unclosed(tokens, start, if done then pos - 1 else pos)
        decreases |tokens| - pos, !done
      {
        var t := Next();
        if t.None? {
          return [], false;
        }
        NestingNext(tokens, start, pos - 1);
        var nested := Nest(stack, t.value);
        if nested.None? {
          NothingCloses(tokens, start, pos);
          return [], false;
        }
        stack := nested.value;
        done := stack == [];
      }
      UnclosedPrefixes(tokens, start, pos);
      return tokens[start..pos], true;
    }
  }

  // ------------------------------------------------------------ whole values

  /** The open brackets after one more token; None where it closes the wrong one. */
  function Nest(stack: seq<Token>, t: Token): Option<seq<Token>> {
    match t
    case OpenObject => Some(stack + [t])
    case OpenArray => Some(stack + [t])
    case CloseObject => if stack != [] && stack[|stack| - 1] == OpenObject then Some(stack[..|stack| - 1]) else None
    case CloseArray => if stack != [] && stack[|stack| - 1] == OpenArray then Some(stack[..|stack| - 1]) else None
    case Bad => None
    case _ => Some(stack)
  }

  function Nesting(tokens: seq<Token>): Option<seq<Token>> {
    if tokens == [] then Some([])
    else
      match Nesting(tokens[..|tokens| - 1])
      case None => None
      case Some(stack) => Nest(stack, tokens[|tokens| - 1])
  }

  /** One value: all its brackets match, and no shorter prefix is one. */
  ghost predicate Value(raw: seq<Token>) {
    && raw != [] && Nesting(raw) == Some([])
    && forall n :: 0 < n < |raw| ==> Nesting(raw[..n]).Some? && Nesting(raw[..n]) != Some([])
  }

  /** From `start` on, no prefix up to `upto` closes all its brackets. */
  ghost predicate Unclosed(tokens: seq<Token>, start: nat, upto: int)
    requires upto <= |tokens|
  {
    forall n :: start < n <= upto ==> Nesting(tokens[start..n]).Some? && Nesting(tokens[start..n]) != Some([])
  }

  lemma NestingNext(tokens: seq<Token>, start: nat, n: nat)
    requires start <= n < |tokens|
    ensures Nesting(tokens[start..n + 1]) ==
            if Nesting(tokens[start..n]).None? then None else Nest(Nesting(tokens[start..n]).value, tokens[n])
  {
    var longer := tokens[start..n + 1];
    assert longer[..|longer| - 1] == tokens[start..n] && longer[|longer| - 1] == tokens[n];
  }

  lemma {:induction false} MismatchStays(tokens: seq<Token>, start: nat, at: nat, n: nat)
    requires start <= at <= n <= |tokens| && Nesting(tokens[start..at]).None?
    ensures Nesting(tokens[start..n]).None?
    decreases n
  {
    if at < n {
      MismatchStays(tokens, start, at, n - 1);
      NestingNext(tokens, start, n - 1);
    }
  }

  lemma NothingCloses(tokens: seq<Token>, start: nat, at: nat)
    requires start < at <= |tokens| && Nesting(tokens[start..at]).None? && Unclosed(tokens, start, at - 1)
    ensures forall n :: start < n <= |tokens| ==> !Value(tokens[start..n])
  {
    forall n | start < n <= |tokens| ensures !Value(tokens[start..n]) {
      if at <= n {
        MismatchStays(tokens, start, at, n);
      }
    }
  }

  lemma UnclosedPrefixes(tokens: seq<Token>, start: nat, end: nat)
    requires start < end <= |tokens| && Unclosed(tokens, start, end - 1) && Nesting(tokens[start..end]) == Some([])
    ensures Value(tokens[start..end])
  {
    var raw := tokens[start..end];
    forall n | 0 < n < |raw| ensures Nesting(raw[..n]).Some? && Nesting(raw[..n]) != Some([]) {
      assert raw[..n] == tokens[start..start + n];
    }
  }

  /** A value starts with a scalar exactly when that is all of it. */
  lemma ScalarValue(raw: seq<Token>)
    requires Value(raw)
    ensures raw[0].Scalar() <==> |raw| == 1
  {
    assert raw[..1] == [raw[0]] && Nesting([]) == Some([]);
    assert Nesting(raw[..1]) == Nest([], raw[0]) by {
      assert [raw[0]][..0] == [];
    }
    assert |raw| == 1 ==> raw == raw[..1];
  }

  /** While a value is open, its first bracket is the outermost. */
  lemma {:induction false} FirstStaysOpen(raw: seq<Token>, n: nat)
    requires Value(raw) && 0 < n < |raw|
    ensures Nesting(raw[..n]).Some? && Nesting(raw[..n]).value != [] && Nesting(raw[..n]).value[0] == raw[0]
    ensures raw[0] == OpenObject || raw[0] == OpenArray
    ensures raw[n - 1] != Bad
  {
    NestingNext(raw, 0, n - 1);
    assert raw[0..n] == raw[..n] && raw[0..n - 1] == raw[..n - 1];
    if n > 1 {
      FirstStaysOpen(raw, n - 1);
    } else {
      assert raw[..0] == [] && Nesting([]) == Some([]);
    }
  }

  /** The brackets of a value: it contains no error, and what opens it is closed by its own kind. */
  lemma ValueBrackets(raw: seq<Token>)
    requires Value(raw) && |raw| > 1
    ensures (raw[0] == OpenObject && raw[|raw| - 1] == CloseObject) || (raw[0] == OpenArray && raw[|raw| - 1] == CloseArray)
    ensures forall i :: 0 <= i < |raw| ==> raw[i] != Bad
  {
    var n := |raw| - 1;
    FirstStaysOpen(raw, n);
    NestingNext(raw, 0, n);
    assert raw[0..n] == raw[..n] && raw[0..n + 1] == raw;
    forall i | 0 <= i < n ensures raw[i] != Bad {
      FirstStaysOpen(raw, i + 1);
    }
  }

  lemma ScalarIsValue(t: Token)
    requires t.Scalar()
    ensures Value([t])
  {
    assert [t][..0] == [] && Nesting([]) == Some([]);
  }

  // ---------------------------------------------------------------- retries

  /** Exactly one member, the generation, as a non-negative 64-bit integer, and nothing else. */
  method DecodeRetry(tokens: seq<Token>) returns (generation: Option<int>)
    ensures forall g :: generation == Some(g) <==>
              0 <= g <= 9223372036854775807 && tokens == [OpenObject, Str("retry_generation"), Num(Some(g)), CloseObject]
  {
    var d := new Decoder(tokens);
    var token := d.Next();
    if token != Some(OpenObject) {
      return None;
    }
    token := d.Next();
    if token != Some(Str("retry_generation")) {
      return None;
    }
    token := d.Next();
    if token.None? || !token.value.Num? {
      return None;
    }
    var number := token.value;
    if !IsInt64(number) || number.value.value < 0 {
      return None;
    }
    token := d.Next();
    if token != Some(CloseObject) {
      return None;
    }
    token := d.Next();
    if token.Some? {
      return None;
    }
    assert tokens == [OpenObject, Str("retry_generation"), number, CloseObject];
    return Some(number.value.value);
  }

  // ------------------------------------------------------------- usage input

  datatype Member = Member(key: string, value: Token)

  const KEYS: set<string> := {"event_id", "customer_id", "meter", "units"}

  function Flat(ms: seq<Member>): seq<Token> {
    if ms == [] then [] else Flat(ms[..|ms| - 1]) + [Str(ms[|ms| - 1].key), ms[|ms| - 1].value]
  }

  /** A flat object with the members in this order. */
  function Render(ms: seq<Member>): seq<Token> { [OpenObject] + Flat(ms) + [CloseObject] }

  predicate WellTyped(m: Member) {
    if m.key == "units" then IsInt64(m.value) else m.value.Str?
  }

  ghost predicate Distinct(ms: seq<Member>) {
    forall i, j :: 0 <= i < j < |ms| ==> ms[i].key != ms[j].key
  }

  ghost predicate Known(ms: seq<Member>) {
    forall i :: 0 <= i < |ms| ==> ms[i].key in KEYS && WellTyped(ms[i])
  }

  /** Each of the four keys once, with a well-typed value. */
  ghost predicate Complete(ms: seq<Member>) { |ms| == |KEYS| && Distinct(ms) && Known(ms) }

  /** The member's field of `input` has the member's value. */
  predicate Carries(input: Input, m: Member) {
    if m.key == "event_id" then m.value == Str(input.eventId)
    else if m.key == "customer_id" then m.value == Str(input.customerId)
    else if m.key == "meter" then m.value == Str(input.meter)
    else m.value == Num(Some(input.units))
  }

  ghost predicate CarriesAll(input: Input, ms: seq<Member>) {
    forall i :: 0 <= i < |ms| ==> Carries(input, ms[i])
  }

  /** What a token stream stands for, without saying how it is read. */
  ghost predicate Means(tokens: seq<Token>, input: Input) {
    exists ms :: Complete(ms) && tokens == Render(ms) && CarriesAll(input, ms)
  }

  function KeysOf(ms: seq<Member>): set<string> { set i | 0 <= i < |ms| :: ms[i].key }

  lemma {:induction false} KeysCount(ms: seq<Member>)
    requires Distinct(ms)
    ensures |KeysOf(ms)| == |ms|
  {
    if ms != [] {
      var last, rest := ms[|ms| - 1], ms[..|ms| - 1];
      KeysCount(rest);
      assert KeysOf(ms) == KeysOf(rest) + {last.key};
      assert last.key !in KeysOf(rest);
    }
  }

  lemma SameSize(a: set<string>, b: set<string>)
    requires a <= b && |a| == |b|
    ensures a == b
  {
    assert b == a + (b - a);
  }

  /** Four distinct known keys are all of them. */
  lemma EveryKeyPresent(ms: seq<Member>)
    requires Complete(ms)
    ensures KeysOf(ms) == KEYS
  {
    KeysCount(ms);
    SameSize(KeysOf(ms), KEYS);
  }

  lemma {:induction false} FlatAt(ms: seq<Member>, i: nat)
    requires i < |ms|
    ensures |Flat(ms)| == 2 * |ms|
    ensures Flat(ms)[2 * i] == Str(ms[i].key) && Flat(ms)[2 * i + 1] == ms[i].value
  {
    if |ms| > 1 {
      FlatAt(ms[..|ms| - 1], if i < |ms| - 1 then i else 0);
    }
  }

  lemma RenderAt(ms: seq<Member>, i: nat)
    requires i < |ms|
    ensures |Render(ms)| == 2 * |ms| + 2
    ensures Render(ms)[2 * i + 1] == Str(ms[i].key) && Render(ms)[2 * i + 2] == ms[i].value
  {
    FlatAt(ms, i);
  }

  lemma RenderInjective(a: seq<Member>, b: seq<Member>)
    requires |a| == |b| && Render(a) == Render(b)
    ensures a == b
  {
    forall i | 0 <= i < |a| ensures a[i] == b[i] {
      RenderAt(a, i);
      RenderAt(b, i);
    }
  }

  /** The value of a member as the request defines it. */
  ghost predicate FieldIs(key: string, value: Token, input: Input) {
    || (key == "event_id" && value == Str(input.eventId))
    || (key == "customer_id" && value == Str(input.customerId))
    || (key == "meter" && value == Str(input.meter))
    || (key == "units" && value == Num(Some(input.units))
        && -9223372036854775808 <= input.units <= 9223372036854775807)
  }

  /** The `i`th member of the stream: a string key with the value of its field. */
  ghost predicate SpellsAt(tokens: seq<Token>, i: int, input: Input)
    requires |tokens| == 10 && 0 <= i < 4
  {
    tokens[2 * i + 1].Str? && FieldIs(tokens[2 * i + 1].text, tokens[2 * i + 2], input)
  }

  /** What a stream stands for, token by token: ten tokens, four string keys that are the four of them, each
      followed by the value of its field. */
  ghost predicate Spells(tokens: seq<Token>, input: Input) {
    && |tokens| == 10 && tokens[0] == OpenObject && tokens[9] == CloseObject
    && SpellsAt(tokens, 0, input) && SpellsAt(tokens, 1, input) && SpellsAt(tokens, 2, input) && SpellsAt(tokens, 3, input)
    && {tokens[1].text, tokens[3].text, tokens[5].text, tokens[7].text} == {"event_id", "customer_id", "meter", "units"}
  }

  lemma FieldCarries(m: Member, input: Input)
    ensures FieldIs(m.key, m.value, input) <==> m.key in KEYS && WellTyped(m) && Carries(input, m)
  {
  }

  lemma CarriesUnique(ms: seq<Member>, a: Input, b: Input)
    requires Complete(ms) && CarriesAll(a, ms) && CarriesAll(b, ms)
    ensures a == b
  {
    EveryKeyPresent(ms);
    assert "event_id" in KeysOf(ms) && "customer_id" in KeysOf(ms) && "meter" in KeysOf(ms) && "units" in KeysOf(ms);
  }

  /** A stream stands for at most one input. */
  lemma MeansUnique(tokens: seq<Token>, a: Input, b: Input)
    requires Means(tokens, a) && Means(tokens, b)
    ensures a == b
  {
    var m :| Complete(m) && tokens == Render(m) && CarriesAll(a, m);
    var n :| Complete(n) && tokens == Render(n) && CarriesAll(b, n);
    RenderInjective(m, n);
    CarriesUnique(m, a, b);
  }

  /** Every permutation of the members stands for the same input. */
  lemma OrderIrrelevant(ms: seq<Member>, ns: seq<Member>, input: Input)
    requires Complete(ms) && multiset(ms) == multiset(ns)
    ensures Means(Render(ms), input) <==> Means(Render(ns), input)
  {
    PermutationComplete(ms, ns);
    if Means(Render(ms), input) {
      PermutationMeans(ms, ns, input);
    }
    if Means(Render(ns), input) {
      PermutationMeans(ns, ms, input);
    }
  }

  lemma PermutationMeans(ms: seq<Member>, ns: seq<Member>, input: Input)
    requires Complete(ms) && Complete(ns) && multiset(ms) == multiset(ns) && Means(Render(ms), input)
    ensures Means(Render(ns), input)
  {
    var m :| Complete(m) && Render(ms) == Render(m) && CarriesAll(input, m);
    RenderInjective(ms, m);
    forall i | 0 <= i < |ns| ensures Carries(input, ns[i]) {
      SameMember(ms, ns, i);
    }
  }

  lemma SameMember(ms: seq<Member>, ns: seq<Member>, i: nat)
    requires multiset(ms) == multiset(ns) && i < |ns|
    ensures ns[i] in ms
  {
    assert ns[i] in multiset(ns);
  }

  lemma PermutationComplete(ms: seq<Member>, ns: seq<Member>)
    requires Complete(ms) && multiset(ms) == multiset(ns)
    ensures Complete(ns)
  {
    assert |ns| == |multiset(ns)| == |multiset(ms)| == |ms|;
    forall i | 0 <= i < |ns| ensures ns[i].key in KEYS && WellTyped(ns[i]) {
      SameMember(ms, ns, i);
    }
    forall k <- KeysOf(ms) ensures k in KeysOf(ns) {
      var i :| 0 <= i < |ms| && ms[i].key == k;
      SameMember(ns, ms, i);
    }
    EveryKeyPresent(ms);
    assert KeysOf(ns) == KEYS;
    DistinctByCount(ns);
  }

  lemma DistinctNext(ms: seq<Member>, m: Member)
    requires Distinct(ms) && m.key !in KeysOf(ms)
    ensures Distinct(ms + [m]) && KeysOf(ms + [m]) == KeysOf(ms) + {m.key}
  {
    forall i | 0 <= i < |ms| ensures ms[i].key != m.key {
      assert ms[i].key in KeysOf(ms);
    }
    var all := ms + [m];
    assert KeysOf(ms) + {m.key} <= KeysOf(all) by {
      assert all[|ms|] == m;
      forall k <- KeysOf(ms) ensures k in KeysOf(all) {
        var i :| 0 <= i < |ms| && ms[i].key == k;
        assert all[i].key == k;
      }
    }
  }

  lemma {:induction false} KeysAtMost(ms: seq<Member>)
    ensures |KeysOf(ms)| <= |ms|
  {
    if ms != [] {
      KeysAtMost(ms[..|ms| - 1]);
      assert KeysOf(ms) == KeysOf(ms[..|ms| - 1]) + {ms[|ms| - 1].key};
    }
  }

  lemma {:induction false} DistinctByCount(ms: seq<Member>)
    requires |KeysOf(ms)| == |ms|
    ensures Distinct(ms)
  {
    if ms != [] {
      var last, rest := ms[|ms| - 1], ms[..|ms| - 1];
      assert KeysOf(ms) == KeysOf(rest) + {last.key};
      KeysAtMost(rest);
      assert last.key !in KeysOf(rest);
      DistinctByCount(rest);
      DistinctNext(rest, last);
      assert ms == rest + [last];
    }
  }

  function Encode(input: Input): seq<Token> {
    Render([Member("event_id", Str(input.eventId)), Member("customer_id", Str(input.customerId)),
            Member("meter", Str(input.meter)), Member("units", Num(Some(input.units)))])
  }

  lemma EncodeMeans(input: Input)
    requires MIN_INT64 <= input.units <= MAX_INT64
    ensures Means(Encode(input), input)
  {
    var ms := [Member("event_id", Str(input.eventId)), Member("customer_id", Str(input.customerId)),
               Member("meter", Str(input.meter)), Member("units", Num(Some(input.units)))];
    assert Complete(ms) && CarriesAll(input, ms);
  }

  /** Decoding an encoded input can only give that input back. */
  lemma RoundTrip(input: Input, decoded: Option<Input>)
    requires MIN_INT64 <= input.units <= MAX_INT64 && Decodes(Encode(input), decoded)
    ensures decoded == Some(input)
  {
    EncodeMeans(input);
    MeansUnique(Encode(input), input, decoded.value);
  }

  /** The result of a decoder that accepts exactly the streams that stand for some input. */
  ghost predicate Decodes(tokens: seq<Token>, r: Option<Input>) {
    if r.Some? then Means(tokens, r.value) else forall input :: !Means(tokens, input)
  }

  /** json.Unmarshal into a string; null would leave the target alone. */
  function UnmarshalString(raw: seq<Token>, target: string): Option<string>
    requires raw != []
  {
    if raw[0].Null? then Some(target) else if raw[0].Str? then Some(raw[0].text) else None
  }

  /** json.Unmarshal into an int64. */
  function UnmarshalInt64(raw: seq<Token>, target: int): Option<int>
    requires raw != []
  {
    if raw[0].Null? then Some(target) else if IsInt64(raw[0]) then Some(raw[0].value.value) else None
  }

  /** The members read so far fill the stream up to the reader's position. */
  ghost predicate Read(tokens: seq<Token>, ms: seq<Member>) {
    && 2 * |ms| + 1 <= |tokens| && tokens[0] == OpenObject
    && (forall i :: 0 <= i < |ms| ==> tokens[2 * i + 1] == Str(ms[i].key) && tokens[2 * i + 2] == ms[i].value)
    && Distinct(ms) && Known(ms)
  }

  /** What must follow them in any stream that stands for an input. */
  ghost predicate Continues(tokens: seq<Token>, ms: seq<Member>)
    requires Read(tokens, ms)
  {
    var at := 2 * |ms| + 1;
    && |tokens| == 2 * |KEYS| + 2
    && if |ms| == |KEYS| then tokens[at] == CloseObject
       else
         && at + 1 < |tokens| && tokens[at].Str? && tokens[at].text in KEYS && tokens[at].text !in KeysOf(ms)
         && WellTyped(Member(tokens[at].text, tokens[at + 1]))
  }

  lemma ReadIsPrefix(tokens: seq<Token>, ms: seq<Member>, all: seq<Member>)
    requires Read(tokens, ms) && tokens == Render(all) && |ms| <= |all|
    ensures ms == all[..|ms|]
  {
    forall i | 0 <= i < |ms| ensures ms[i] == all[i] {
      RenderAt(all, i);
    }
  }

  lemma CompleteContinues(tokens: seq<Token>, ms: seq<Member>, all: seq<Member>)
    requires Read(tokens, ms) && Complete(all) && tokens == Render(all)
    ensures Continues(tokens, ms)
  {
    RenderAt(all, 0);
    assert |ms| <= |all|;
    ReadIsPrefix(tokens, ms, all);
    if |ms| < |all| {
      RenderAt(all, |ms|);
    }
  }

  lemma Refused(tokens: seq<Token>, ms: seq<Member>)
    requires Read(tokens, ms) && !Continues(tokens, ms)
    ensures forall input :: !Means(tokens, input)
  {
    forall input ensures !Means(tokens, input) {
      if Means(tokens, input) {
        var all :| Complete(all) && tokens == Render(all) && CarriesAll(input, all);
        CompleteContinues(tokens, ms, all);
      }
    }
  }

  lemma NotAnObject(tokens: seq<Token>)
    requires tokens == [] || tokens[0] != OpenObject
    ensures forall input :: !Means(tokens, input)
  {
  }

  lemma {:induction false} ReadRenders(tokens: seq<Token>, ms: seq<Member>)
    requires Read(tokens, ms) && Complete(ms) && Continues(tokens, ms)
    ensures tokens == Render(ms)
  {
    RenderAt(ms, 0);
    var all := Render(ms);
    forall n | 0 <= n < |tokens| ensures tokens[n] == all[n] {
      if 0 < n < 2 * |ms| + 1 {
        RenderAt(ms, (n - 1) / 2);
      }
    }
  }

  /** A member at its place. */
  lemma MemberSpells(tokens: seq<Token>, input: Input, ms: seq<Member>, i: nat)
    requires Complete(ms) && tokens == Render(ms) && CarriesAll(input, ms) && i < 4
    ensures |tokens| == 10 && SpellsAt(tokens, i, input) && tokens[2 * i + 1].text == ms[i].key
  {
    RenderAt(ms, i);
    FieldCarries(ms[i], input);
  }

  lemma FourKeys(ms: seq<Member>)
    requires Complete(ms)
    ensures |ms| == 4 && {ms[0].key, ms[1].key, ms[2].key, ms[3].key} == {"event_id", "customer_id", "meter", "units"}
  {
    EveryKeyPresent(ms);
    KeysOfFour(ms);
  }

  lemma KeysOfFour(ms: seq<Member>)
    requires |ms| == 4
    ensures KeysOf(ms) == {ms[0].key, ms[1].key, ms[2].key, ms[3].key}
  {
    forall k | k in KeysOf(ms) ensures k in {ms[0].key, ms[1].key, ms[2].key, ms[3].key} {
      var i :| 0 <= i < |ms| && ms[i].key == k;
      assert i == 0 || i == 1 || i == 2 || i == 3;
    }
  }

  lemma MeansSpells(tokens: seq<Token>, input: Input, ms: seq<Member>)
    requires Complete(ms) && tokens == Render(ms) && CarriesAll(input, ms)
    ensures Spells(tokens, input)
  {
    MemberSpells(tokens, input, ms, 0);
    MemberSpells(tokens, input, ms, 1);
    MemberSpells(tokens, input, ms, 2);
    MemberSpells(tokens, input, ms, 3);
    FourKeys(ms);
  }

  lemma FourDiffer(a: string, b: string, c: string, d: string)
    requires {a, b, c, d} == KEYS
    ensures a != b && a != c && a != d && b != c && b != d && c != d
  {
    assert |{a, b, c, d}| == 4;
  }

  lemma FourMembers(a: Member, b: Member, c: Member, d: Member, input: Input)
    requires {a.key, b.key, c.key, d.key} == KEYS
    requires FieldIs(a.key, a.value, input) && FieldIs(b.key, b.value, input)
    requires FieldIs(c.key, c.value, input) && FieldIs(d.key, d.value, input)
    ensures Complete([a, b, c, d]) && CarriesAll(input, [a, b, c, d])
  {
    FourDiffer(a.key, b.key, c.key, d.key);
    FieldCarries(a, input);
    FieldCarries(b, input);
    FieldCarries(c, input);
    FieldCarries(d, input);
  }

  lemma FourRead(tokens: seq<Token>, a: Member, b: Member, c: Member, d: Member)
    requires |tokens| == 10 && tokens[0] == OpenObject && tokens[9] == CloseObject && Complete([a, b, c, d])
    requires tokens[1] == Str(a.key) && tokens[2] == a.value && tokens[3] == Str(b.key) && tokens[4] == b.value
    requires tokens[5] == Str(c.key) && tokens[6] == c.value && tokens[7] == Str(d.key) && tokens[8] == d.value
    ensures Read(tokens, [a, b, c, d]) && Continues(tokens, [a, b, c, d])
  {
  }

  lemma SpellsMeans(tokens: seq<Token>, input: Input)
    requires Spells(tokens, input)
    ensures Means(tokens, input)
  {
    var a, b, c, d := Member(tokens[1].text, tokens[2]), Member(tokens[3].text, tokens[4]),
                      Member(tokens[5].text, tokens[6]), Member(tokens[7].text, tokens[8]);
    FourMembers(a, b, c, d, input);
    FourRead(tokens, a, b, c, d);
    ReadRenders(tokens, [a, b, c, d]);
  }

  /** The streams that stand for an input are exactly those that spell it. */
  lemma MeansExactly(tokens: seq<Token>, input: Input)
    ensures Means(tokens, input) <==> Spells(tokens, input)
  {
    if Means(tokens, input) {
      var ms :| Complete(ms) && tokens == Render(ms) && CarriesAll(input, ms);
      MeansSpells(tokens, input, ms);
    }
    if Spells(tokens, input) {
      SpellsMeans(tokens, input);
    }
  }

  /** A decoder that accepts exactly the streams that stand for an input gives that input. */
  lemma DecodesSpelled(tokens: seq<Token>, r: Option<Input>)
    requires Decodes(tokens, r)
    ensures forall input :: r == Some(input) <==> Spells(tokens, input)
  {
    forall input ensures r == Some(input) <==> Spells(tokens, input) {
      MeansExactly(tokens, input);
      if r.Some? && Means(tokens, input) {
        MeansUnique(tokens, input, r.value);
      }
      if r.Some? {
        MeansExactly(tokens, r.value);
      }
    }
  }

  lemma ReadNext(tokens: seq<Token>, ms: seq<Member>, m: Member)
    requires Read(tokens, ms) && 2 * |ms| + 3 <= |tokens|
    requires tokens[2 * |ms| + 1] == Str(m.key) && tokens[2 * |ms| + 2] == m.value
    requires m.key in KEYS && m.key !in KeysOf(ms) && WellTyped(m)
    ensures Read(tokens, ms + [m]) && KeysOf(ms + [m]) == KeysOf(ms) + {m.key}
  {
    DistinctNext(ms, m);
  }

  /** The member `m` sets its own field and no other. */
  function Assign(input: Input, m: Member): Input
    requires WellTyped(m)
  {
    match m.key
    case "event_id" => input.(eventId := m.value.text)
    case "customer_id" => input.(customerId := m.value.text)
    case "meter" => input.(meter := m.value.text)
    case "units" => input.(units := m.value.value.value)
    case _ => input
  }

  lemma AssignCarries(input: Input, ms: seq<Member>, m: Member)
    requires CarriesAll(input, ms) && Known(ms) && m.key in KEYS && m.key !in KeysOf(ms) && WellTyped(m)
    ensures CarriesAll(Assign(input, m), ms + [m])
  {
    forall i | 0 <= i < |ms| ensures Carries(Assign(input, m), ms[i]) {
      assert ms[i].key in KeysOf(ms);
    }
  }

  lemma {:induction false} SomeInputCarries(ms: seq<Member>) returns (input: Input)
    requires Distinct(ms) && Known(ms)
    ensures CarriesAll(input, ms)
  {
    if ms == [] {
      input := Input("", "", "", 0);
    } else {
      var rest, last := ms[..|ms| - 1], ms[|ms| - 1];
      input := SomeInputCarries(rest);
      AssignCarries(input, rest, last);
      input := Assign(input, last);
      assert ms == rest + [last];
    }
  }

  /** Any permutation of the four members is accepted, and all of them decode to one input. */
  lemma PermutationsDecodeAlike(ms: seq<Member>, ns: seq<Member>, a: Option<Input>, b: Option<Input>)
    requires Complete(ms) && multiset(ms) == multiset(ns)
    requires Decodes(Render(ms), a) && Decodes(Render(ns), b)
    ensures a.Some? && a == b
  {
    var input := SomeInputCarries(ms);
    assert Means(Render(ms), input);
    OrderIrrelevant(ms, ns, input);
    MeansUnique(Render(ms), input, a.value);
    MeansUnique(Render(ns), input, b.value);
  }

  /** One value, unmarshalled into the field its key selects. */
  method ReadValue(d: Decoder, key: string, input: Input) returns (r: Option<Input>)
    requires d.Valid()
    modifies d
    ensures d.Valid()
    ensures r.Some? <==> old(d.pos) < |d.tokens| && key in KEYS && WellTyped(Member(key, d.tokens[old(d.pos)]))
    ensures r.Some? ==> r.value == Assign(input, Member(key, d.tokens[old(d.pos)])) && d.pos == old(d.pos) + 1
  {
    if key !in KEYS {
      return None;
    }
    ghost var at := d.pos;
    var raw, ok := d.Decode();
    if !ok {
      if at < |d.tokens| && d.tokens[at].Scalar() {
        ScalarIsValue(d.tokens[at]);
        assert d.tokens[at..at + 1] == [d.tokens[at]];
      }
      return None;
    }
    ScalarValue(raw);
    if raw == [Null] {
      return None;
    }
    match key {
      case "event_id" =>
        var v := UnmarshalString(raw, input.eventId);
        return if v.None? then None else Some(input.(eventId := v.value));
      case "customer_id" =>
        var v := UnmarshalString(raw, input.customerId);
        return if v.None? then None else Some(input.(customerId := v.value));
      case "meter" =>
        var v := UnmarshalString(raw, input.meter);
        return if v.None? then None else Some(input.(meter := v.value));
      case _ =>
        var v := UnmarshalInt64(raw, input.units);
        return if v.None? then None else Some(input.(units := v.value));
    }
  }

  /** One pass of the member loop. */
  method ReadMember(d: Decoder, seen: set<string>, input: Input, ghost ms: seq<Member>)
    returns (key: string, r: Option<Input>, ghost all: seq<Member>)
    requires d.pos == 2 * |ms| + 1 < |d.tokens| && Read(d.tokens, ms) && seen == KeysOf(ms) && CarriesAll(input, ms)
    modifies d
    ensures d.Valid()
    ensures r.Some? ==> && |all| == |ms| + 1 && d.pos == 2 * |all| + 1 && Read(d.tokens, all)
                        && KeysOf(all) == seen + {key} && CarriesAll(r.value, all)
    ensures r.None? ==> |ms| < |KEYS| ==> !Continues(d.tokens, ms)
  {
    all := ms;
    key, r := "", None;
    var token := d.Next();
    if token.None? || !token.value.Str? || token.value.text in seen {
      return;
    }
    key := token.value.text;
    r := ReadValue(d, key, input);
    if r.Some? {
      var m := Member(key, d.tokens[2 * |ms| + 2]);
      all := ms + [m];
      ReadNext(d.tokens, ms, m);
      AssignCarries(input, ms, m);
    }
  }

  /** The member loop, with the checks before and after it. */
  method ReadObject(tokens: seq<Token>) returns (r: Option<Input>)
    ensures Decodes(tokens, r)
  {
    var d := new Decoder(tokens);
    var token := d.Next();
    if token != Some(OpenObject) {
      NotAnObject(tokens);
      return None;
    }
    var input, seen: set<string> := Input("", "", "", 0), {};
    ghost var ms: seq<Member>, all := [], [];
    var more := d.More();
    while more
      invariant d.tokens == tokens && d.Valid() && d.pos == 2 * |ms| + 1
      invariant Read(tokens, ms) && seen == KeysOf(ms) && CarriesAll(input, ms)
      invariant more <==> d.pos < |tokens| && !tokens[d.pos].CloseObject? && !tokens[d.pos].CloseArray?
      decreases |tokens| - d.pos
    {
      var key, next;
      key, next, all := ReadMember(d, seen, input, ms);
      if next.None? {
        Refused(tokens, ms);
        return None;
      }
      input, seen, ms := next.value, seen + {key}, all;
      more := d.More();
    }
    KeysCount(ms);
    token := d.Next();
    if token != Some(CloseObject) {
      Refused(tokens, ms);
      return None;
    }
    if |seen| != 4 {
      Refused(tokens, ms);
      return None;
    }
    token := d.Next();
    if token.Some? {
      Refused(tokens, ms);
      return None;
    }
    ReadRenders(tokens, ms);
    return Some(input);
  }

  /** Accepts exactly the streams that spell an input, and returns that input. */
  method DecodeInput(tokens: seq<Token>) returns (r: Option<Input>)
    ensures forall input :: r == Some(input) <==> Spells(tokens, input)
    ensures Decodes(tokens, r)
  {
    r := ReadObject(tokens);
    DecodesSpelled(tokens, r);
  }
}
