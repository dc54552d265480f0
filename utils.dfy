/**
 * src/utils.ts: normalising and merging a data-source description
 * (`mergeDataSource`) and deriving default options from a GUI schema
 * (`getOptionsFromConfig`).
 */
module Utils {
  import opened Json
  import opened Lodash
  import opened Interfaces

  // ---------------------------------------------------------------------
  // Carriers: the four data-source fields that hold either JSON text or a
  // structured value.
  // ---------------------------------------------------------------------

  datatype Carrier = Headers | Body | Params | TingyunConfig

  /** The order in which the shared try block parses the carriers. */
  const ParseOrder: seq<Carrier> := [Headers, Body, Params, TingyunConfig]

  /** The property name of a carrier that lives inside `api`. */
  function ApiName(c: Carrier): string
    requires c != TingyunConfig
  {
    match c
    case Headers => HeadersKey
    case Body => BodyKey
    case Params => ParamsKey
  }

  /** `dataSource.api?.headers` and friends: `undefined` when unreachable. */
  function Read(ds: map<string, Json>, c: Carrier): Json
  {
    if c == TingyunConfig then Lookup(ds, TingyunConfigKey)
    else if ApiKey in ds && ds[ApiKey].Obj? then Lookup(ds[ApiKey].props, ApiName(c))
    else Undefined
  }

  /** `dataSource.api.headers = v` and friends; only done on a carrier holding a value. */
  function Write(ds: map<string, Json>, c: Carrier, v: Json): map<string, Json>
    requires Read(ds, c) != Undefined
  {
    if c == TingyunConfig then ds[TingyunConfigKey := v]
    else ds[ApiKey := Obj(ds[ApiKey].props[ApiName(c) := v])]
  }

  /** No carrier holds an object or an array. */
  predicate NoObjectCarrier(ds: map<string, Json>) {
    forall c: Carrier :: !IsObject(Read(ds, c))
  }

  /** Writing one carrier changes that carrier only, and no top-level key outside `api`/`tingyunConfig`. */
  lemma ReadWrite(ds: map<string, Json>, c: Carrier, v: Json, c': Carrier)
    requires Read(ds, c) != Undefined
    ensures Read(Write(ds, c, v), c') == if c' == c then v else Read(ds, c')
    ensures Write(ds, c, v).Keys == ds.Keys
    ensures forall k :: k in ds && k != ApiKey && k != TingyunConfigKey ==> Write(ds, c, v)[k] == ds[k]
  {
  }

  // ---- Step 1: the try block ------------------------------------------

  /** `JSON.parse` of a carrier's text; an empty `tingyunConfig` is read as `'{}'`. */
  function ParseText(c: Carrier, s: string, codec: Codec): Option<Json>
  {
    codec.parse(if c == TingyunConfig && s == "" then "{}" else s)
  }

  /** One `if (isString(...)) x = JSON.parse(x)` statement; `None` when the parse throws. */
  function ParseOne(ds: map<string, Json>, c: Carrier, codec: Codec): Option<map<string, Json>>
  {
    match Read(ds, c)
    case Str(s) =>
      (match ParseText(c, s, codec)
       case None => None
       case Some(v) => Some(Write(ds, c, v)))
    case _ => Some(ds)
  }

  datatype ParseState = ParseState(props: map<string, Json>, caught: bool)

  /**
   * The try block over the carriers `cs`, in order: the first parse that
   * throws ends the block (`caught`), keeping what the earlier ones wrote.
   */
  function ParseCarriers(ds: map<string, Json>, cs: seq<Carrier>, codec: Codec): (r: ParseState)
    ensures r.props.Keys == ds.Keys
    ensures forall k :: k in ds && k != ApiKey && k != TingyunConfigKey ==> r.props[k] == ds[k]
    ensures cs == [] ==> !r.caught
    decreases |cs|
  {
    if cs == [] then ParseState(ds, false)
    else
      match ParseOne(ds, cs[0], codec)
      case None => ParseState(ds, true)
      case Some(next) => ParseCarriers(next, cs[1..], codec)
  }

  predicate Distinct(cs: seq<Carrier>) {
    forall i, j :: 0 <= i < j < |cs| ==> cs[i] != cs[j]
  }

  /** What a carrier holds once parsing succeeded: the parsed text, or the untouched non-string. */
  function ParsedValue(v: Json, c: Carrier, codec: Codec): Option<Json>
  {
    if v.Str? then ParseText(c, v.s, codec) else Some(v)
  }

  /** When the try block completes, each listed carrier holds its parsed value and the others are untouched. */
  lemma {:induction false} ParseCarriersRead(ds: map<string, Json>, cs: seq<Carrier>, codec: Codec, c: Carrier)
    requires Distinct(cs)
    requires !ParseCarriers(ds, cs, codec).caught
    ensures c !in cs ==> Read(ParseCarriers(ds, cs, codec).props, c) == Read(ds, c)
    ensures c in cs ==> ParsedValue(Read(ds, c), c, codec) == Some(Read(ParseCarriers(ds, cs, codec).props, c))
    decreases |cs|
  {
    if cs != [] {
      var next := ParseOne(ds, cs[0], codec).value;
      var tail := cs[1..];
      assert Distinct(tail);
      ParseCarriersRead(next, tail, codec, c);
      if Read(ds, cs[0]).Str? {
        ReadWrite(ds, cs[0], ParseText(cs[0], Read(ds, cs[0]).s, codec).value, c);
      }
      if c == cs[0] {
        assert c !in tail by {
          forall j | 0 <= j < |tail| ensures tail[j] != c {
            assert tail[j] == cs[j + 1];
          }
        }
      } else {
        assert c in cs <==> c in tail;
      }
    }
  }

  /** The first parse that throws ends the try block: the carriers from it on are left as they were. */
  lemma {:induction false} FirstFailureSkipsRest(ds: map<string, Json>, cs: seq<Carrier>, codec: Codec, i: nat)
    requires i < |cs|
    requires !ParseCarriers(ds, cs[..i], codec).caught
    requires ParseOne(ParseCarriers(ds, cs[..i], codec).props, cs[i], codec).None?
    ensures ParseCarriers(ds, cs, codec) == ParseState(ParseCarriers(ds, cs[..i], codec).props, true)
    decreases i
  {
    if i > 0 {
      assert cs[..i][0] == cs[0] && cs[..i][1..] == cs[1..][..i - 1];
      var next := ParseOne(ds, cs[0], codec).value;
      FirstFailureSkipsRest(next, cs[1..], codec, i - 1);
    } else {
      assert cs[..i] == [];
    }
  }

  // ---- Step 3: re-serialisation ---------------------------------------

  /** What a carrier holds after `if (isObject(x)) x = JSON.stringify(x)`. */
  function Serialized(v: Json, codec: Codec): Json
  {
    if IsObject(v) then Str(codec.stringify(v)) else v
  }

  function SerializeOne(ds: map<string, Json>, c: Carrier, codec: Codec): map<string, Json>
  {
    if IsObject(Read(ds, c)) then Write(ds, c, Serialized(Read(ds, c), codec)) else ds
  }

  /**
   * The four serialisation statements in order: each carrier ends as its
   * own value serialised, so none is left holding an object or an array.
   */
  function SerializeCarriers(ds: map<string, Json>, codec: Codec): (r: map<string, Json>)
    ensures forall c: Carrier :: Read(r, c) == Serialized(Read(ds, c), codec)
    ensures NoObjectCarrier(r)
  {
    var d1 := SerializeOne(ds, Headers, codec);
    var d2 := SerializeOne(d1, Body, codec);
    var d3 := SerializeOne(d2, Params, codec);
    SerializeOneReadAll(ds, Headers, codec);
    SerializeOneReadAll(d1, Body, codec);
    SerializeOneReadAll(d2, Params, codec);
    SerializeOneReadAll(d3, TingyunConfig, codec);
    SerializeOne(d3, TingyunConfig, codec)
  }

  /** Re-serialisation keeps the key set and touches no top-level key but `api`/`tingyunConfig`. */
  lemma SerializeCarriersRead(ds: map<string, Json>, codec: Codec, c: Carrier)
    ensures SerializeCarriers(ds, codec).Keys == ds.Keys
    ensures forall k :: k in ds && k != ApiKey && k != TingyunConfigKey ==> SerializeCarriers(ds, codec)[k] == ds[k]
  {
    var d1 := SerializeOne(ds, Headers, codec);
    var d2 := SerializeOne(d1, Body, codec);
    var d3 := SerializeOne(d2, Params, codec);
    SerializeOneRead(ds, Headers, codec, c);
    SerializeOneRead(d1, Body, codec, c);
    SerializeOneRead(d2, Params, codec, c);
    SerializeOneRead(d3, TingyunConfig, codec, c);
  }

  lemma SerializeOneRead(ds: map<string, Json>, c: Carrier, codec: Codec, c': Carrier)
    ensures Read(SerializeOne(ds, c, codec), c') == if c' == c then Serialized(Read(ds, c), codec) else Read(ds, c')
    ensures SerializeOne(ds, c, codec).Keys == ds.Keys
    ensures forall k :: k in ds && k != ApiKey && k != TingyunConfigKey ==> SerializeOne(ds, c, codec)[k] == ds[k]
  {
    if IsObject(Read(ds, c)) {
      ReadWrite(ds, c, Serialized(Read(ds, c), codec), c');
    }
  }

  lemma SerializeOneReadAll(ds: map<string, Json>, c: Carrier, codec: Codec)
    ensures forall c': Carrier :: Read(SerializeOne(ds, c, codec), c') == if c' == c then Serialized(Read(ds, c), codec) else Read(ds, c')
  {
    forall c': Carrier
      ensures Read(SerializeOne(ds, c, codec), c') == if c' == c then Serialized(Read(ds, c), codec) else Read(ds, c')
    {
      SerializeOneRead(ds, c, codec, c');
    }
  }

  // ---- Step 2: the deep merge, seen from a carrier ----------------------

  /** The override does not replace `api` by a non-object (which would drop every api carrier). */
  predicate KeepsApiShape(src: map<string, Json>, c: Carrier) {
    c == TingyunConfig || ApiKey !in src || src[ApiKey].Obj?
  }

  /** After the deep merge, a carrier holds its base value merged with the override's. */
  lemma ReadMergeProps(dst: map<string, Json>, src: map<string, Json>, c: Carrier)
    requires KeepsApiShape(src, c)
    ensures Read(MergeProps(dst, src), c) == Merge(Read(dst, c), Read(src, c))
  {
    if c != TingyunConfig && ApiKey in src {
      var m := MergeProps(dst, src);
      assert m[ApiKey] == Merge(Lookup(dst, ApiKey), src[ApiKey]);
    }
  }

  // ---- The whole of mergeDataSource -------------------------------------

  /** The data source after the call, and whether an error was logged. */
  datatype MergeOutcome = MergeOutcome(props: map<string, Json>, logged: bool)

  /** `mergeDataSource` on a defined base: parse, merge the override (when given), re-serialise. */
  function MergedDataSource(ds: map<string, Json>, config: Option<map<string, Json>>, codec: Codec): (r: MergeOutcome)
    ensures NoObjectCarrier(r.props)
  {
    var parsed := ParseCarriers(ds, ParseOrder, codec);
    var merged := if config.Some? then MergeProps(parsed.props, config.value) else parsed.props;
    MergeOutcome(SerializeCarriers(merged, codec), parsed.caught)
  }

  /** The override, or `{}` when none is given. */
  function Override(config: Option<map<string, Json>>): map<string, Json>
  {
    if config.Some? then config.value else map[]
  }

  /** The position of a carrier's parse in the try block. */
  function Position(c: Carrier): (i: nat)
    ensures i < |ParseOrder| && ParseOrder[i] == c
  {
    match c
    case Headers => 0
    case Body => 1
    case Params => 2
    case TingyunConfig => 3
  }

  /** No parse up to and including the one of carrier `c` throws. */
  predicate ParsedThrough(ds: map<string, Json>, c: Carrier, codec: Codec) {
    !ParseCarriers(ds, ParseOrder[..Position(c) + 1], codec).caught
  }

  /** Nothing is logged exactly when every parse, the last one included, succeeds. */
  lemma NotLoggedIsParsedThroughAll(ds: map<string, Json>, config: Option<map<string, Json>>, codec: Codec)
    ensures !MergedDataSource(ds, config, codec).logged <==> ParsedThrough(ds, TingyunConfig, codec)
  {
    assert ParseOrder[..Position(TingyunConfig) + 1] == ParseOrder;
  }

  /** A try block that completes on a prefix goes on from where that prefix left the data source. */
  lemma {:induction false} ParseCarriersSplit(ds: map<string, Json>, cs: seq<Carrier>, codec: Codec, i: nat)
    requires i <= |cs|
    requires !ParseCarriers(ds, cs[..i], codec).caught
    ensures ParseCarriers(ds, cs, codec) == ParseCarriers(ParseCarriers(ds, cs[..i], codec).props, cs[i..], codec)
    decreases i
  {
    if i == 0 {
      assert cs[..i] == [] && cs[i..] == cs;
    } else {
      assert cs[..i][0] == cs[0] && cs[..i][1..] == cs[1..][..i - 1];
      assert cs[1..][i - 1..] == cs[i..];
      ParseCarriersSplit(ParseOne(ds, cs[0], codec).value, cs[1..], codec, i - 1);
    }
  }

  /** Parsing carriers other than `c`, whether or not a parse throws, leaves `c` as it was. */
  lemma {:induction false} ParseKeepsOther(ds: map<string, Json>, cs: seq<Carrier>, codec: Codec, c: Carrier)
    requires c !in cs
    ensures Read(ParseCarriers(ds, cs, codec).props, c) == Read(ds, c)
    decreases |cs|
  {
    if cs != [] && ParseOne(ds, cs[0], codec).Some? {
      if Read(ds, cs[0]).Str? {
        ReadWrite(ds, cs[0], ParseText(cs[0], Read(ds, cs[0]).s, codec).value, c);
      }
      assert c !in cs[1..];
      ParseKeepsOther(ParseOne(ds, cs[0], codec).value, cs[1..], codec, c);
    }
  }

  /**
   * A carrier whose parse, and every parse before it, succeeds holds its
   * parsed value after the try block, even when a later parse throws.
   */
  lemma CarrierParsed(ds: map<string, Json>, codec: Codec, c: Carrier)
    requires ParsedThrough(ds, c, codec)
    ensures ParsedValue(Read(ds, c), c, codec) == Some(Read(ParseCarriers(ds, ParseOrder, codec).props, c))
  {
    var n := Position(c) + 1;
    var prefix := ParseOrder[..n];
    ParseCarriersSplit(ds, ParseOrder, codec, n);
    assert Distinct(prefix);
    ParseCarriersRead(ds, prefix, codec, c);
    assert c !in ParseOrder[n..];
    ParseKeepsOther(ParseCarriers(ds, prefix, codec).props, ParseOrder[n..], codec, c);
  }

  /**
   * When no parse up to and including its own throws, a carrier ends as
   * the serialisation of its parsed base value deep-merged with the
   * override's value.
   */
  lemma CarrierAfterMerge(ds: map<string, Json>, config: Option<map<string, Json>>, codec: Codec, c: Carrier)
    requires ParsedThrough(ds, c, codec)
    requires KeepsApiShape(Override(config), c)
    ensures ParsedValue(Read(ds, c), c, codec).Some?
    ensures Read(MergedDataSource(ds, config, codec).props, c)
         == Serialized(Merge(ParsedValue(Read(ds, c), c, codec).value, Read(Override(config), c)), codec)
  {
    var parsed := ParseCarriers(ds, ParseOrder, codec);
    CarrierParsed(ds, codec, c);
    var merged := if config.Some? then MergeProps(parsed.props, config.value) else parsed.props;
    if config.Some? {
      ReadMergeProps(parsed.props, config.value, c);
    } else {
      assert Read(map[], c) == Undefined;
    }
    SerializeCarriersRead(merged, codec, c);
  }

  /** Override keys are merged into the parsed base object, which is then serialised again. */
  lemma OverrideMergedIntoParsedBase(ds: map<string, Json>, config: map<string, Json>, codec: Codec, c: Carrier,
                                     text: string, base: map<string, Json>, delta: map<string, Json>)
    requires ParsedThrough(ds, c, codec)
    requires Read(ds, c) == Str(text) && ParseText(c, text, codec) == Some(Obj(base))
    requires KeepsApiShape(config, c) && Read(config, c) == Obj(delta)
    ensures Read(MergedDataSource(ds, Some(config), codec).props, c) == Str(codec.stringify(Obj(MergeProps(base, delta))))
  {
    CarrierAfterMerge(ds, Some(config), codec, c);
  }

  /** With an empty override, a carrier holding JSON object text ends as `stringify(parse(text))`: still a string. */
  lemma EmptyOverrideReserialises(ds: map<string, Json>, codec: Codec, c: Carrier, text: string, parsed: Json)
    requires ParsedThrough(ds, c, codec)
    requires Read(ds, c) == Str(text) && ParseText(c, text, codec) == Some(parsed) && IsObject(parsed)
    ensures Read(MergedDataSource(ds, Some(map[]), codec).props, c) == Str(codec.stringify(parsed))
  {
    CarrierAfterMerge(ds, Some(map[]), codec, c);
    assert Read(map[], c) == Undefined;
  }

  /**
   * Valid headers text is still parsed and serialised again when the body
   * after it is malformed: the error is logged, the headers are not lost.
   */
  lemma HeadersSurviveLaterFailure(text: string, bodyText: string, parsed: Json, codec: Codec)
    requires codec.parse(text) == Some(parsed) && IsObject(parsed) && codec.parse(bodyText).None?
    ensures var ds := map[ApiKey := Obj(map[HeadersKey := Str(text), BodyKey := Str(bodyText)])];
            var r := MergedDataSource(ds, Some(map[]), codec);
            r.logged && Read(r.props, Headers) == Str(codec.stringify(parsed))
  {
    var ds := map[ApiKey := Obj(map[HeadersKey := Str(text), BodyKey := Str(bodyText)])];
    var next := map[ApiKey := Obj(map[HeadersKey := parsed, BodyKey := Str(bodyText)])];
    assert Read(ds, Headers) == Str(text);
    assert ApiName(Headers) == HeadersKey && ParseText(Headers, text, codec) == Some(parsed);
    assert ds[ApiKey].props[HeadersKey := parsed] == next[ApiKey].props;
    assert Write(ds, Headers, parsed) == next;
    assert ParseOne(ds, Headers, codec) == Some(next);
    assert ParseOrder[..Position(Headers) + 1] == [Headers];
    assert ParseCarriers(ds, [Headers], codec) == ParseCarriers(next, [], codec);
    assert Read(next, Body) == Str(bodyText);
    assert ParseCarriers(ds, ParseOrder, codec) == ParseState(next, true) by {
      assert ParseOrder[1..][0] == Body;
    }
    EmptyOverrideReserialises(ds, codec, Headers, text, parsed);
  }

  /**
   * An empty `tingyunConfig` is parsed as `'{}'` and, under any override
   * that does not mention it (such as the `{}` `requestData` passes),
   * comes back as the string `"{}"`.
   */
  lemma EmptyTingyunConfig(ds: map<string, Json>, config: Option<map<string, Json>>, codec: Codec)
    requires codec.parse("{}") == Some(Obj(map[])) && codec.stringify(Obj(map[])) == "{}"
    requires Read(ds, TingyunConfig) == Str("")
    requires Read(Override(config), TingyunConfig) == Undefined
    requires !MergedDataSource(ds, config, codec).logged
    ensures Read(MergedDataSource(ds, config, codec).props, TingyunConfig) == Str("{}")
  {
    NotLoggedIsParsedThroughAll(ds, config, codec);
    CarrierAfterMerge(ds, config, codec, TingyunConfig);
  }

  /**
   * Malformed headers text is logged, never thrown, and under any override
   * that keeps `api` an object and does not mention `api.headers` the
   * headers keep that text.
   */
  lemma MalformedHeadersKept(ds: map<string, Json>, config: Option<map<string, Json>>, codec: Codec, text: string)
    requires Read(ds, Headers) == Str(text) && codec.parse(text).None?
    requires KeepsApiShape(Override(config), Headers) && Read(Override(config), Headers) == Undefined
    ensures MergedDataSource(ds, config, codec).logged
    ensures Read(MergedDataSource(ds, config, codec).props, Headers) == Str(text)
  {
    assert ParseCarriers(ds, ParseOrder, codec) == ParseState(ds, true);
    if config.Some? {
      ReadMergeProps(ds, config.value, Headers);
    }
  }

  /**
   * Because the four parses share one try block, malformed headers leave
   * JSON text in `params` unparsed; an object override for `params` then
   * replaces that text instead of being merged into it.
   */
  lemma MalformedHeadersSkipParamsParse(text: string, paramsText: string, delta: map<string, Json>, codec: Codec)
    requires codec.parse(text).None?
    ensures var ds := map[ApiKey := Obj(map[HeadersKey := Str(text), ParamsKey := Str(paramsText)])];
            var config := map[ApiKey := Obj(map[ParamsKey := Obj(delta)])];
            var r := MergedDataSource(ds, Some(config), codec);
            r.logged && Read(r.props, Params) == Str(codec.stringify(Obj(MergeProps(map[], delta))))
  {
    var ds := map[ApiKey := Obj(map[HeadersKey := Str(text), ParamsKey := Str(paramsText)])];
    var config := map[ApiKey := Obj(map[ParamsKey := Obj(delta)])];
    assert Read(ds, Headers) == Str(text);
    assert ParseCarriers(ds, ParseOrder, codec) == ParseState(ds, true);
    assert Read(ds, Params) == Str(paramsText);
    assert Read(config, Params) == Obj(delta);
    ReadMergeProps(ds, config, Params);
    SerializeCarriersRead(MergeProps(ds, config), codec, Params);
  }

  /** The worked example: base headers `'{"a":1}'`, override `{api: {headers: {b: 2}}}`. */
  lemma HeadersExample(codec: Codec)
    requires codec.parse("{\"a\":1}") == Some(Obj(map["a" := Num(1)]))
    ensures var ds := map[ApiKey := Obj(map[HeadersKey := Str("{\"a\":1}")])];
            var config := map[ApiKey := Obj(map[HeadersKey := Obj(map["b" := Num(2)])])];
            MergedDataSource(ds, Some(config), codec)
              == MergeOutcome(map[ApiKey := Obj(map[HeadersKey := Str(codec.stringify(Obj(map["a" := Num(1), "b" := Num(2)])))])], false)
  {
    var ds := map[ApiKey := Obj(map[HeadersKey := Str("{\"a\":1}")])];
    var config := map[ApiKey := Obj(map[HeadersKey := Obj(map["b" := Num(2)])])];
    var parsed := map[ApiKey := Obj(map[HeadersKey := Obj(map["a" := Num(1)])])];
    var merged := map[ApiKey := Obj(map[HeadersKey := Obj(map["a" := Num(1), "b" := Num(2)])])];
    var final := map[ApiKey := Obj(map[HeadersKey := Str(codec.stringify(Obj(map["a" := Num(1), "b" := Num(2)])))])];
    ExampleParse(ds, parsed, codec);
    ExampleMerge(parsed, config, merged);
    ExampleSerialize(merged, final, codec);
  }

  lemma ExampleParse(ds: map<string, Json>, parsed: map<string, Json>, codec: Codec)
    requires codec.parse("{\"a\":1}") == Some(Obj(map["a" := Num(1)]))
    requires ds == map[ApiKey := Obj(map[HeadersKey := Str("{\"a\":1}")])]
    requires parsed == map[ApiKey := Obj(map[HeadersKey := Obj(map["a" := Num(1)])])]
    ensures ParseCarriers(ds, ParseOrder, codec) == ParseState(parsed, false)
  {
    assert Read(ds, Headers) == Str("{\"a\":1}");
    assert ParseText(Headers, "{\"a\":1}", codec) == Some(Obj(map["a" := Num(1)]));
    assert ApiName(Headers) == HeadersKey;
    assert ds[ApiKey].props[HeadersKey := Obj(map["a" := Num(1)])] == map[HeadersKey := Obj(map["a" := Num(1)])];
    assert Write(ds, Headers, Obj(map["a" := Num(1)])) == parsed;
    assert ParseOne(ds, Headers, codec) == Some(parsed);
    assert Read(parsed, Body) == Undefined && Read(parsed, Params) == Undefined && Read(parsed, TingyunConfig) == Undefined;
    NothingToParse(parsed, ParseOrder[1..], codec);
  }

  lemma ExampleMerge(parsed: map<string, Json>, config: map<string, Json>, merged: map<string, Json>)
    requires parsed == map[ApiKey := Obj(map[HeadersKey := Obj(map["a" := Num(1)])])]
    requires config == map[ApiKey := Obj(map[HeadersKey := Obj(map["b" := Num(2)])])]
    requires merged == map[ApiKey := Obj(map[HeadersKey := Obj(map["a" := Num(1), "b" := Num(2)])])]
    ensures MergeProps(parsed, config) == merged
  {
    ExampleMergeHeaders();
    var m := MergeProps(parsed, config);
    assert m.Keys == {ApiKey};
    assert m[ApiKey] == Merge(parsed[ApiKey], config[ApiKey]);
  }

  lemma ExampleMergeHeaders()
    ensures Merge(Obj(map[HeadersKey := Obj(map["a" := Num(1)])]), Obj(map[HeadersKey := Obj(map["b" := Num(2)])]))
         == Obj(map[HeadersKey := Obj(map["a" := Num(1), "b" := Num(2)])])
  {
    ExampleMergeInner();
    var api := MergeProps(map[HeadersKey := Obj(map["a" := Num(1)])], map[HeadersKey := Obj(map["b" := Num(2)])]);
    assert api.Keys == {HeadersKey};
    assert api[HeadersKey] == Merge(Obj(map["a" := Num(1)]), Obj(map["b" := Num(2)]));
  }

  lemma ExampleMergeInner()
    ensures Merge(Obj(map["a" := Num(1)]), Obj(map["b" := Num(2)])) == Obj(map["a" := Num(1), "b" := Num(2)])
  {
    var inner := MergeProps(map["a" := Num(1)], map["b" := Num(2)]);
    assert inner.Keys == {"a", "b"};
    assert inner["b"] == Merge(Undefined, Num(2));
    assert inner == map["a" := Num(1), "b" := Num(2)];
  }

  lemma ExampleSerialize(merged: map<string, Json>, final: map<string, Json>, codec: Codec)
    requires merged == map[ApiKey := Obj(map[HeadersKey := Obj(map["a" := Num(1), "b" := Num(2)])])]
    requires final == map[ApiKey := Obj(map[HeadersKey := Str(codec.stringify(Obj(map["a" := Num(1), "b" := Num(2)])))])]
    ensures SerializeCarriers(merged, codec) == final
  {
    assert ApiName(Headers) == HeadersKey;
    var v := Obj(map["a" := Num(1), "b" := Num(2)]);
    assert Read(merged, Headers) == v;
    assert merged[ApiKey].props[HeadersKey := Str(codec.stringify(v))] == map[HeadersKey := Str(codec.stringify(v))];
    assert SerializeOne(merged, Headers, codec) == final;
    assert Read(final, Body) == Undefined && Read(final, Params) == Undefined && Read(final, TingyunConfig) == Undefined;
  }

  /** Parsing carriers none of which holds text changes nothing and catches nothing. */
  lemma {:induction false} NothingToParse(ds: map<string, Json>, cs: seq<Carrier>, codec: Codec)
    requires forall i :: 0 <= i < |cs| ==> !Read(ds, cs[i]).Str?
    ensures ParseCarriers(ds, cs, codec) == ParseState(ds, false)
    decreases |cs|
  {
    if cs != [] {
      assert ParseOne(ds, cs[0], codec) == Some(ds);
      NothingToParse(ds, cs[1..], codec);
    }
  }

  /**
   * Top-level fields other than `api` and `tingyunConfig` that the
   * override does not mention keep their values, and no key is lost.
   */
  lemma OtherFieldsPreserved(ds: map<string, Json>, config: Option<map<string, Json>>, codec: Codec)
    ensures MergedDataSource(ds, config, codec).props.Keys == ds.Keys + Override(config).Keys
    ensures forall k :: k in ds && k !in Override(config) && k != ApiKey && k != TingyunConfigKey
              ==> MergedDataSource(ds, config, codec).props[k] == ds[k]
  {
    var parsed := ParseCarriers(ds, ParseOrder, codec);
    var merged := if config.Some? then MergeProps(parsed.props, config.value) else parsed.props;
    SerializeCarriersRead(merged, codec, Headers);
  }

  /** `dataSource.api` is an object holding `x` under `k`. */
  predicate HoldsApiField(ds: map<string, Json>, k: string, x: Json) {
    ApiKey in ds && ds[ApiKey].Obj? && k in ds[ApiKey].props && ds[ApiKey].props[k] == x
  }

  /** A property of `api` that is none of the three api carriers (`url`, `method`, `proxy`, ...). */
  predicate IsPlainApiField(k: string) {
    k != HeadersKey && k != BodyKey && k != ParamsKey
  }

  /**
   * The other properties of `api` survive the call whenever the override
   * leaves `api` an object and does not mention them.
   */
  lemma ApiFieldsPreserved(ds: map<string, Json>, config: Option<map<string, Json>>, codec: Codec, k: string)
    requires IsPlainApiField(k)
    requires ApiKey in ds && ds[ApiKey].Obj? && k in ds[ApiKey].props
    requires ApiKey !in Override(config) || (Override(config)[ApiKey].Obj? && k !in Override(config)[ApiKey].props)
    ensures HoldsApiField(MergedDataSource(ds, config, codec).props, k, ds[ApiKey].props[k])
  {
    var x := ds[ApiKey].props[k];
    var parsed := ParseCarriers(ds, ParseOrder, codec);
    ParseKeepsApiField(ds, ParseOrder, codec, k, x);
    var merged := if config.Some? then MergeProps(parsed.props, config.value) else parsed.props;
    if config.Some? {
      MergeKeepsApiField(parsed.props, config.value, k, x);
    }
    SerializeKeepsApiField(merged, codec, k, x);
  }

  lemma WriteKeepsApiField(ds: map<string, Json>, c: Carrier, v: Json, k: string, x: Json)
    requires Read(ds, c) != Undefined && IsPlainApiField(k) && HoldsApiField(ds, k, x)
    ensures HoldsApiField(Write(ds, c, v), k, x)
  {
  }

  lemma {:induction false} ParseKeepsApiField(ds: map<string, Json>, cs: seq<Carrier>, codec: Codec, k: string, x: Json)
    requires IsPlainApiField(k) && HoldsApiField(ds, k, x)
    ensures HoldsApiField(ParseCarriers(ds, cs, codec).props, k, x)
    decreases |cs|
  {
    if cs != [] && ParseOne(ds, cs[0], codec).Some? {
      if Read(ds, cs[0]).Str? {
        WriteKeepsApiField(ds, cs[0], ParseText(cs[0], Read(ds, cs[0]).s, codec).value, k, x);
      }
      ParseKeepsApiField(ParseOne(ds, cs[0], codec).value, cs[1..], codec, k, x);
    }
  }

  lemma MergeKeepsApiField(dst: map<string, Json>, src: map<string, Json>, k: string, x: Json)
    requires HoldsApiField(dst, k, x)
    requires ApiKey !in src || (src[ApiKey].Obj? && k !in src[ApiKey].props)
    ensures HoldsApiField(MergeProps(dst, src), k, x)
  {
    if ApiKey in src {
      var api := Merge(dst[ApiKey], src[ApiKey]);
      assert MergeProps(dst, src)[ApiKey] == api;
      assert api.props[k] == x;
    }
  }

  lemma SerializeKeepsApiField(ds: map<string, Json>, codec: Codec, k: string, x: Json)
    requires IsPlainApiField(k) && HoldsApiField(ds, k, x)
    ensures HoldsApiField(SerializeCarriers(ds, codec), k, x)
  {
    var d1 := SerializeOne(ds, Headers, codec);
    var d2 := SerializeOne(d1, Body, codec);
    var d3 := SerializeOne(d2, Params, codec);
    assert HoldsApiField(d1, k, x);
    assert HoldsApiField(d2, k, x);
    assert HoldsApiField(d3, k, x);
  }

  /** One parse statement of the try block, in place; `ok` is false when `JSON.parse` throws. */
  method ParseCarrier(dataSource: JsObject, c: Carrier, codec: Codec) returns (ok: bool)
    modifies dataSource
    ensures ok == ParseOne(old(dataSource.props), c, codec).Some?
    ensures dataSource.props == if ok then ParseOne(old(dataSource.props), c, codec).value else old(dataSource.props)
  {
    ok := true;
    var v := Read(dataSource.props, c);
    if IsString(v) {
      var parsed := ParseText(c, v.s, codec);
      if parsed.None? {
        ok := false;
      } else {
        dataSource.props := Write(dataSource.props, c, parsed.value);
      }
    }
  }

  /** One re-serialisation statement, in place. */
  method SerializeCarrier(dataSource: JsObject, c: Carrier, codec: Codec)
    modifies dataSource
    ensures dataSource.props == SerializeOne(old(dataSource.props), c, codec)
  {
    var v := Read(dataSource.props, c);
    if IsObject(v) {
      dataSource.props := Write(dataSource.props, c, Str(codec.stringify(v)));
    }
  }

  /**
   * `mergeDataSource(dataSource, config)`: an absent base is left alone;
   * otherwise the base object is updated in place, and `logged` says
   * whether the caught parse error was reported.
   */
  method MergeDataSource(dataSource: JsObject?, config: Option<map<string, Json>>, codec: Codec) returns (logged: bool)
    modifies dataSource
    ensures dataSource == null ==> !logged
    ensures dataSource != null ==> MergeOutcome(dataSource.props, logged) == MergedDataSource(old(dataSource.props), config, codec)
    ensures dataSource != null ==> NoObjectCarrier(dataSource.props)
  {
    logged := false;
    if dataSource != null {
      ghost var base := dataSource.props;
      var ok := ParseCarrier(dataSource, Headers, codec);
      if ok {
        ok := ParseCarrier(dataSource, Body, codec);
        if ok {
          ok := ParseCarrier(dataSource, Params, codec);
          if ok {
            ok := ParseCarrier(dataSource, TingyunConfig, codec);
          }
        }
      }
      logged := !ok;
      assert ParseCarriers(base, ParseOrder, codec) == ParseState(dataSource.props, logged) by {
        assert ParseOrder[1..] == [Body, Params, TingyunConfig];
        assert ParseOrder[1..][1..] == [Params, TingyunConfig];
        assert ParseOrder[1..][1..][1..] == [TingyunConfig];
        assert ParseOrder[1..][1..][1..][1..] == [];
      }
      if config.Some? {
        dataSource.props := MergeProps(dataSource.props, config.value);
      }
      SerializeCarrier(dataSource, Headers, codec);
      SerializeCarrier(dataSource, Body, codec);
      SerializeCarrier(dataSource, Params, codec);
      SerializeCarrier(dataSource, TingyunConfig, codec);
    }
  }

  // ---------------------------------------------------------------------
  // getOptionsFromConfig
  // ---------------------------------------------------------------------

  /** A GUI field descriptor: its default (`undefined` when none), its `type` tag, its children. */
  datatype Field = Field(default: Json, kind: string, children: Option<Schema>)

  /** A GUI schema (`GuiFields`): field descriptors by option key. */
  datatype Schema = Schema(fields: map<string, Field>)

  /** `fieldCfg.default != null`: a loose comparison, so `undefined` is no default either. */
  predicate HasDefault(f: Field) {
    f.default != Undefined && f.default != Null
  }

  predicate IsContainer(f: Field) {
    f.kind == "group" || f.kind == "menu" || f.kind == "menuItem"
  }

  /**
   * Every container field without a default has `children`; otherwise
   * `Object.keys(undefined)` throws.
   */
  predicate FieldResolvable(f: Field)
    decreases f
  {
    !HasDefault(f) && IsContainer(f) ==> f.children.Some? && Resolvable(f.children.value)
  }

  predicate Resolvable(s: Schema)
    decreases s
  {
    forall k :: k in s.fields ==> FieldResolvable(s.fields[k])
  }

  /** The value one schema field contributes. */
  function FieldDefault(f: Field): Json
    requires FieldResolvable(f)
    decreases f
  {
    if HasDefault(f) then f.default
    else if IsContainer(f) then Obj(Defaults(f.children.value))
    else if f.kind == "tabs" then Arr([])
    else Null
  }

  /** The options a schema yields on its own: one entry per schema key. */
  function Defaults(s: Schema): (r: map<string, Json>)
    requires Resolvable(s)
    ensures r.Keys == s.fields.Keys
    ensures forall k :: k in s.fields && HasDefault(s.fields[k]) ==> r[k] == s.fields[k].default
    ensures forall k :: k in s.fields && !HasDefault(s.fields[k]) && IsContainer(s.fields[k])
              ==> s.fields[k].children.Some? && r[k].Obj? && r[k].props.Keys == s.fields[k].children.value.fields.Keys
    ensures forall k :: k in s.fields && !HasDefault(s.fields[k]) && !IsContainer(s.fields[k])
              ==> r[k] == if s.fields[k].kind == "tabs" then Arr([]) else Null
    decreases s
  {
    assert forall k :: k in s.fields ==> FieldResolvable(s.fields[k]);
    map k | k in s.fields :: FieldDefault(s.fields[k])
  }

  /** The options map after the schema has been written into `options`. */
  function Filled(s: Schema, options: map<string, Json>): (r: map<string, Json>)
    requires Resolvable(s)
    ensures r.Keys == options.Keys + s.fields.Keys
    ensures forall k :: k in options && k !in s.fields ==> r[k] == options[k]
    ensures forall k :: k in s.fields && HasDefault(s.fields[k]) ==> r[k] == s.fields[k].default
  {
    options + Defaults(s)
  }

  /** The derived options mirror the schema's key structure at every depth of group/menu nesting. */
  predicate Covers(s: Schema, m: map<string, Json>)
    decreases s
  {
    m.Keys == s.fields.Keys &&
    forall k :: k in s.fields && !HasDefault(s.fields[k]) && IsContainer(s.fields[k]) ==>
      s.fields[k].children.Some? && m[k].Obj? && Covers(s.fields[k].children.value, m[k].props)
  }

  lemma {:induction false} DefaultsCover(s: Schema)
    requires Resolvable(s)
    ensures Covers(s, Defaults(s))
    decreases s
  {
    var m := Defaults(s);
    forall k | k in s.fields && !HasDefault(s.fields[k]) && IsContainer(s.fields[k])
      ensures m[k].Obj? && Covers(s.fields[k].children.value, m[k].props)
    {
      DefaultsCover(s.fields[k].children.value);
    }
  }

  /** Filling an empty options object yields exactly the schema's defaults. */
  lemma FilledEmpty(s: Schema)
    requires Resolvable(s)
    ensures Filled(s, map[]) == Defaults(s)
  {
    AssignEmpty(Defaults(s));
  }

  /** A map holding every schema default over the untouched rest of `options` is the filled options. */
  lemma FilledPointwise(s: Schema, options: map<string, Json>, m: map<string, Json>)
    requires Resolvable(s)
    requires m.Keys == options.Keys + s.fields.Keys
    requires forall k :: k in s.fields ==> m[k] == FieldDefault(s.fields[k])
    requires forall k :: k in options && k !in s.fields ==> m[k] == options[k]
    ensures m == Filled(s, options)
  {
    assert m.Keys == Filled(s, options).Keys;
  }

  /**
   * `getOptionsFromConfig(config, options)`: writes one entry per schema
   * key into `options` (recursing into a fresh `{}` for containers) and
   * returns that same object.
   */
  method GetOptionsFromConfig(config: Schema, options: JsObject) returns (r: JsObject)
    requires Resolvable(config)
    modifies options
    ensures r == options
    ensures options.props == Filled(config, old(options.props))
    decreases config
  {
    ghost var before := options.props;
    var keys := config.fields.Keys;
    while keys != {}
      invariant keys <= config.fields.Keys
      invariant options.props.Keys == before.Keys + (config.fields.Keys - keys)
      invariant forall k :: k in config.fields && k !in keys ==> options.props[k] == FieldDefault(config.fields[k])
      invariant forall k :: k in before && (k !in config.fields || k in keys) ==> options.props[k] == before[k]
      decreases keys
    {
      var key :| key in keys;
      var value := FieldValue(config.fields[key]);
      options.props := options.props[key := value];
      keys := keys - {key};
    }
    FilledPointwise(config, before, options.props);
    r := options;
  }

  /** The value the loop of `getOptionsFromConfig` stores for one field. */
  method FieldValue(fieldCfg: Field) returns (value: Json)
    requires FieldResolvable(fieldCfg)
    ensures value == FieldDefault(fieldCfg)
    decreases fieldCfg
  {
    if HasDefault(fieldCfg) {
      value := fieldCfg.default;
    } else if IsContainer(fieldCfg) {
      var nested := new JsObject(map[]);
      var filled := GetOptionsFromConfig(fieldCfg.children.value, nested);
      value := Obj(filled.props);
      FilledEmpty(fieldCfg.children.value);
    } else if fieldCfg.kind == "tabs" {
      value := Arr([]);
    } else {
      value := Null;
    }
  }
}
