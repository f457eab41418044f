/**
 * The transfer-function element bridge (feFuncR, feFuncG, feFuncB, feFuncA):
 * reading the `type` attribute, the `tableValues` list and the numeric
 * parameters of one function element, and building the transfer function it
 * describes. Numbers are converted by a parser the caller supplies, standing
 * for the SVG number converter, whose source is not part of this model.
 */
module FeFunc {
  import opened Wrappers
  import opened Dom
  import Tokenizer

  const TypeAttribute: string := "type"
  const TableValuesAttribute: string := "tableValues"
  const SlopeAttribute: string := "slope"
  const InterceptAttribute: string := "intercept"
  const AmplitudeAttribute: string := "amplitude"
  const ExponentAttribute: string := "exponent"
  const OffsetAttribute: string := "offset"

  /** The five values of the `type` attribute. */
  datatype Kind = Discrete | Identity | Gamma | Linear | Table

  /** The lexical value of the `type` attribute that denotes a kind. */
  function KindName(k: Kind): string
  {
    match k
    case Discrete => "discrete"
    case Identity => "identity"
    case Gamma => "gamma"
    case Linear => "linear"
    case Table => "table"
  }

  /** The component transfer functions the bridge can build; the values are
      those the factory methods of the concrete transfer function receive. */
  datatype TransferFn =
    | IdentityTransfer
    | TableTransfer(values: seq<real>)
    | DiscreteTransfer(values: seq<real>)
    | LinearTransfer(slope: real, intercept: real)
    | GammaTransfer(amplitude: real, exponent: real, offset: real)

  /** A bridge exception: the element it is about, the error code and its
      arguments. */
  datatype BridgeError =
    | AttributeMissing(elem: Element, attr: string)
    | AttributeMalformed(elem: Element, attr: string, value: string)

  /** The SVG number converter: a number, or None where it would throw
      NumberFormatException. */
  type NumberParser = string -> Option<real>

  /** convertType: the kind named by the `type` attribute. */
  function ConvertType(e: Element): (r: Result<Kind, BridgeError>)
    ensures Attr(e, TypeAttribute) == "" <==> r == Err(AttributeMissing(e, TypeAttribute))
    ensures r.Ok? ==> KindName(r.value) == Attr(e, TypeAttribute)
    ensures r.Err? && Attr(e, TypeAttribute) != "" ==>
              r.error == AttributeMalformed(e, TypeAttribute, Attr(e, TypeAttribute))
  {
    var s := Attr(e, TypeAttribute);
    if |s| == 0 then Err(AttributeMissing(e, TypeAttribute))
    else if s == "discrete" then Ok(Discrete)
    else if s == "identity" then Ok(Identity)
    else if s == "gamma" then Ok(Gamma)
    else if s == "linear" then Ok(Linear)
    else if s == "table" then Ok(Table)
    else Err(AttributeMalformed(e, TypeAttribute, s))
  }

  /** `type` is matched exactly: it is accepted as kind k if and only if it is
      the name of k, so every other value (a different case included) is
      malformed. */
  lemma ConvertTypeExact(e: Element, k: Kind)
    ensures ConvertType(e) == Ok(k) <==> Attr(e, TypeAttribute) == KindName(k)
  {
  }

  /** For instance `Gamma` is not `gamma`: it is reported as malformed. */
  lemma TypeIsCaseSensitive()
    ensures var e := Element(map[TypeAttribute := "Gamma"], []);
      ConvertType(e) == Err(AttributeMalformed(e, TypeAttribute, "Gamma"))
  {
  }

  /** Converts every token, or gives None as soon as one does not convert. */
  function ParseAll(tokens: seq<string>, parse: NumberParser): (r: Option<seq<real>>)
    ensures r.Some? <==> forall i :: 0 <= i < |tokens| ==> parse(tokens[i]).Some?
    ensures r.Some? ==>
              && |r.value| == |tokens|
              && forall i :: 0 <= i < |tokens| ==> parse(tokens[i]) == Some(r.value[i])
  {
    if tokens == [] then Some([])
    else
      match parse(tokens[0])
      case None => None
      case Some(x) =>
        match ParseAll(tokens[1..], parse)
        case None =>
          assert forall i :: 1 <= i < |tokens| ==> tokens[i] == tokens[1..][i - 1];
          None
        case Some(xs) =>
          assert forall i :: 1 <= i < |tokens| ==> tokens[i] == tokens[1..][i - 1];
          Some([x] + xs)
  }

  /** Some token of s does not convert. */
  predicate SomeTokenFails(s: string, parse: NumberParser)
  {
    exists i :: 0 <= i < |Tokenizer.Tokens(s)| && parse(Tokenizer.Tokens(s)[i]).None?
  }

  /**
   * The value of convertTableValues: Ok(None) for the Java null, Ok(Some(v))
   * for the array v, Err for the exception.
   */
  function TableValues(e: Element, parse: NumberParser): (r: Result<Option<seq<real>>, BridgeError>)
    // an empty attribute, and only an empty one, gives null
    ensures r == Ok(None) <==> Attr(e, TableValuesAttribute) == ""
    // one failing token makes the whole raw attribute malformed
    ensures r.Err? <==> Attr(e, TableValuesAttribute) != "" && SomeTokenFails(Attr(e, TableValuesAttribute), parse)
    ensures r.Err? ==> r.error == AttributeMalformed(e, TableValuesAttribute, Attr(e, TableValuesAttribute))
    // otherwise entry i is the conversion of token i
    ensures r.Ok? && r.value.Some? ==>
              var tokens := Tokenizer.Tokens(Attr(e, TableValuesAttribute));
              |r.value.value| == |tokens| &&
              forall i :: 0 <= i < |tokens| ==> parse(tokens[i]) == Some(r.value.value[i])
  {
    var s := Attr(e, TableValuesAttribute);
    if |s| == 0 then Ok(None)
    else
      match ParseAll(Tokenizer.Tokens(s), parse)
      case None =>
        Err(AttributeMalformed(e, TableValuesAttribute, s))
      case Some(v) => Ok(Some(v))
  }

  /** A `tableValues` made only of spaces and commas gives an empty array, not
      null. */
  lemma DelimitersOnlyGiveEmptyTable(e: Element, parse: NumberParser)
    requires Attr(e, TableValuesAttribute) != ""
    requires forall i :: 0 <= i < |Attr(e, TableValuesAttribute)| ==>
               Tokenizer.IsDelimiter(Attr(e, TableValuesAttribute)[i])
    ensures TableValues(e, parse) == Ok(Some([]))
  {
    Tokenizer.TokensEmptyIffDelimitersOnly(Attr(e, TableValuesAttribute));
  }

  /** So `table` and `discrete` with a delimiter-only `tableValues` build a
      function with no values, not the identity. */
  lemma DelimitersOnlyGiveEmptyLookup(e: Element, parse: NumberParser)
    requires Attr(e, TypeAttribute) == "table" || Attr(e, TypeAttribute) == "discrete"
    requires Attr(e, TableValuesAttribute) != ""
    requires forall i :: 0 <= i < |Attr(e, TableValuesAttribute)| ==>
               Tokenizer.IsDelimiter(Attr(e, TableValuesAttribute)[i])
    ensures Attr(e, TypeAttribute) == "table" ==> CreateFunction(e, parse) == Ok(TableTransfer([]))
    ensures Attr(e, TypeAttribute) == "discrete" ==> CreateFunction(e, parse) == Ok(DiscreteTransfer([]))
  {
    DelimitersOnlyGiveEmptyTable(e, parse);
  }

  /** convertTableValues: fills the array v token by token. */
  method ConvertTableValues(e: Element, parse: NumberParser) returns (res: Result<Option<seq<real>>, BridgeError>)
    ensures res == TableValues(e, parse)
  {
    var s := Attr(e, TableValuesAttribute);
    if |s| == 0 {
      return Ok(None);
    }
    var tokens := Tokenizer.Tokens(s);
    var v := new real[|tokens|];
    var i := 0;
    while i < |tokens|
      invariant 0 <= i <= |tokens|
      invariant forall j :: 0 <= j < i ==> parse(tokens[j]) == Some(v[j])
    {
      var x := parse(tokens[i]);
      if x.None? {
        return Err(AttributeMalformed(e, TableValuesAttribute, s));
      }
      v[i] := x.value;
      i := i + 1;
    }
    var r := ParseAll(tokens, parse);
    assert r.Some? && |r.value| == |v[..]|;
    assert forall j :: 0 <= j < |tokens| ==> r.value[j] == v[..][j];
    assert r.value == v[..];
    assert TableValues(e, parse) == Ok(Some(r.value));
    return Ok(Some(v[..]));
  }

  /**
   * convertNumber (inherited, its source is not part of this model): an absent
   * or empty attribute gives the default, otherwise the converted number; a
   * value that does not convert is malformed.
   */
  function ConvertNumber(e: Element, attr: string, default: real, parse: NumberParser): (r: Result<real, BridgeError>)
    ensures Attr(e, attr) == "" ==> r == Ok(default)
    ensures Attr(e, attr) != "" && r.Ok? ==> parse(Attr(e, attr)) == Some(r.value)
    ensures r.Err? <==> Attr(e, attr) != "" && parse(Attr(e, attr)).None?
    ensures r.Err? ==> r.error == AttributeMalformed(e, attr, Attr(e, attr))
  {
    var s := Attr(e, attr);
    if |s| == 0 then Ok(default)
    else
      match parse(s)
      case None => Err(AttributeMalformed(e, attr, s))
      case Some(x) => Ok(x)
  }

  /** Whether f is a function that the dispatch arm of kind k can return. */
  predicate BuiltBy(k: Kind, f: TransferFn)
  {
    match k
    case Identity => f.IdentityTransfer?
    case Table => f.IdentityTransfer? || f.TableTransfer?
    case Discrete => f.IdentityTransfer? || f.DiscreteTransfer?
    case Gamma => f.GammaTransfer?
    case Linear => f.LinearTransfer?
  }

  /** createComponentTransferFunction: dispatch on the kind. A `type` error
      comes first; a built function is of the variant its `type` names
      (table and discrete may fall back to the identity); every error is about
      the function element. */
  function CreateFunction(e: Element, parse: NumberParser): (r: Result<TransferFn, BridgeError>)
    ensures ConvertType(e).Err? ==> r == Err(ConvertType(e).error)
    ensures r.Ok? ==> ConvertType(e).Ok? && BuiltBy(ConvertType(e).value, r.value)
    ensures r.Err? ==> r.error.elem == e
  {
    var kind :- ConvertType(e);
    match kind
    case Discrete =>
      var v :- TableValues(e, parse);
      if v.None? then Ok(IdentityTransfer) else Ok(DiscreteTransfer(v.value))
    case Identity =>
      Ok(IdentityTransfer)
    case Gamma =>
      var amplitude :- ConvertNumber(e, AmplitudeAttribute, 1.0, parse);
      var exponent :- ConvertNumber(e, ExponentAttribute, 1.0, parse);
      var offset :- ConvertNumber(e, OffsetAttribute, 0.0, parse);
      Ok(GammaTransfer(amplitude, exponent, offset))
    case Linear =>
      var slope :- ConvertNumber(e, SlopeAttribute, 1.0, parse);
      var intercept :- ConvertNumber(e, InterceptAttribute, 0.0, parse);
      Ok(LinearTransfer(slope, intercept))
    case Table =>
      var v :- TableValues(e, parse);
      if v.None? then Ok(IdentityTransfer) else Ok(TableTransfer(v.value))
  }

  /** Whether the parameters a kind reads all convert. */
  predicate ParametersConvert(k: Kind, e: Element, parse: NumberParser)
  {
    match k
    case Identity => true
    case Table => TableValues(e, parse).Ok?
    case Discrete => TableValues(e, parse).Ok?
    case Gamma =>
      && ConvertNumber(e, AmplitudeAttribute, 1.0, parse).Ok?
      && ConvertNumber(e, ExponentAttribute, 1.0, parse).Ok?
      && ConvertNumber(e, OffsetAttribute, 0.0, parse).Ok?
    case Linear =>
      && ConvertNumber(e, SlopeAttribute, 1.0, parse).Ok?
      && ConvertNumber(e, InterceptAttribute, 0.0, parse).Ok?
  }

  /** The attributes whose errors a kind can raise besides `type`. */
  function ParameterAttributes(k: Kind): set<string>
  {
    match k
    case Identity => {}
    case Table => {TableValuesAttribute}
    case Discrete => {TableValuesAttribute}
    case Gamma => {AmplitudeAttribute, ExponentAttribute, OffsetAttribute}
    case Linear => {SlopeAttribute, InterceptAttribute}
  }

  /**
   * The dispatch is total: a function is built for every kind convertType
   * returns unless one of that kind's parameters fails to convert, so no
   * input reaches a default arm; and every error is about the function
   * element, naming `type` or one of the attributes the kind reads.
   */
  lemma DispatchTotal(e: Element, parse: NumberParser)
    ensures CreateFunction(e, parse).Ok? <==>
              ConvertType(e).Ok? && ParametersConvert(ConvertType(e).value, e, parse)
    ensures ConvertType(e).Err? ==> CreateFunction(e, parse) == Err(ConvertType(e).error)
    ensures CreateFunction(e, parse).Err? && ConvertType(e).Ok? ==>
              CreateFunction(e, parse).error.AttributeMalformed? &&
              CreateFunction(e, parse).error.elem == e &&
              CreateFunction(e, parse).error.attr in ParameterAttributes(ConvertType(e).value)
  {
  }

  /** `identity` gives the identity whatever the other attributes say. */
  lemma IdentityIgnoresParameters(e: Element, parse: NumberParser)
    requires Attr(e, TypeAttribute) == "identity"
    ensures CreateFunction(e, parse) == Ok(IdentityTransfer)
  {
  }

  /** `table` and `discrete` without values fall back to the identity. */
  lemma LookupWithoutValuesIsIdentity(e: Element, parse: NumberParser)
    requires Attr(e, TypeAttribute) == "table" || Attr(e, TypeAttribute) == "discrete"
    requires Attr(e, TableValuesAttribute) == ""
    ensures CreateFunction(e, parse) == Ok(IdentityTransfer)
  {
  }

  /** With values, `table` and `discrete` carry entry i = token i converted,
      and a bad token makes the whole raw attribute malformed. */
  lemma LookupFromTokens(e: Element, parse: NumberParser)
    requires Attr(e, TypeAttribute) == "table" || Attr(e, TypeAttribute) == "discrete"
    requires Attr(e, TableValuesAttribute) != ""
    ensures var tokens := Tokenizer.Tokens(Attr(e, TableValuesAttribute));
      if forall i :: 0 <= i < |tokens| ==> parse(tokens[i]).Some? then
        var r := CreateFunction(e, parse);
        && r.Ok?
        && (if Attr(e, TypeAttribute) == "table" then r.value.TableTransfer? else r.value.DiscreteTransfer?)
        && |r.value.values| == |tokens|
        && forall i :: 0 <= i < |tokens| ==> parse(tokens[i]) == Some(r.value.values[i])
      else
        CreateFunction(e, parse) == Err(AttributeMalformed(e, TableValuesAttribute, Attr(e, TableValuesAttribute)))
  {
  }

  /** `gamma` defaults: amplitude 1, exponent 1, offset 0. */
  lemma GammaDefaults(e: Element, parse: NumberParser)
    requires Attr(e, TypeAttribute) == "gamma"
    requires Attr(e, AmplitudeAttribute) == "" && Attr(e, ExponentAttribute) == "" && Attr(e, OffsetAttribute) == ""
    ensures CreateFunction(e, parse) == Ok(GammaTransfer(1.0, 1.0, 0.0))
  {
  }

  /** `linear` defaults: slope 1, intercept 0. */
  lemma LinearDefaults(e: Element, parse: NumberParser)
    requires Attr(e, TypeAttribute) == "linear"
    requires Attr(e, SlopeAttribute) == "" && Attr(e, InterceptAttribute) == ""
    ensures CreateFunction(e, parse) == Ok(LinearTransfer(1.0, 0.0))
  {
  }

  /** The gamma parameters are read in the order amplitude, exponent, offset:
      the first one that does not convert is the one reported. */
  lemma GammaFirstBadParameterReported(e: Element, parse: NumberParser)
    requires Attr(e, TypeAttribute) == "gamma"
    ensures ConvertNumber(e, AmplitudeAttribute, 1.0, parse).Err? ==>
              CreateFunction(e, parse) == Err(AttributeMalformed(e, AmplitudeAttribute, Attr(e, AmplitudeAttribute)))
    ensures ConvertNumber(e, AmplitudeAttribute, 1.0, parse).Ok? && ConvertNumber(e, ExponentAttribute, 1.0, parse).Err? ==>
              CreateFunction(e, parse) == Err(AttributeMalformed(e, ExponentAttribute, Attr(e, ExponentAttribute)))
    ensures && ConvertNumber(e, AmplitudeAttribute, 1.0, parse).Ok?
            && ConvertNumber(e, ExponentAttribute, 1.0, parse).Ok?
            && ConvertNumber(e, OffsetAttribute, 0.0, parse).Err? ==>
              CreateFunction(e, parse) == Err(AttributeMalformed(e, OffsetAttribute, Attr(e, OffsetAttribute)))
  {
  }

  /** The linear parameters are read in the order slope, intercept: the first
      one that does not convert is the one reported. */
  lemma LinearFirstBadParameterReported(e: Element, parse: NumberParser)
    requires Attr(e, TypeAttribute) == "linear"
    ensures ConvertNumber(e, SlopeAttribute, 1.0, parse).Err? ==>
              CreateFunction(e, parse) == Err(AttributeMalformed(e, SlopeAttribute, Attr(e, SlopeAttribute)))
    ensures ConvertNumber(e, SlopeAttribute, 1.0, parse).Ok? && ConvertNumber(e, InterceptAttribute, 0.0, parse).Err? ==>
              CreateFunction(e, parse) == Err(AttributeMalformed(e, InterceptAttribute, Attr(e, InterceptAttribute)))
  {
  }

  /** A numeric parameter that is absent or converts. */
  predicate Converts(e: Element, attr: string, parse: NumberParser)
  {
    Attr(e, attr) == "" || parse(Attr(e, attr)).Some?
  }

  /** The value of a parameter that is absent (the default) or converts. */
  function ParameterValue(e: Element, attr: string, default: real, parse: NumberParser): real
    requires Converts(e, attr, parse)
  {
    if Attr(e, attr) == "" then default else parse(Attr(e, attr)).value
  }

  /** `gamma` defaults each parameter on its own: amplitude 1, exponent 1,
      offset 0 where absent, the converted value where present. */
  lemma GammaFromParameters(e: Element, parse: NumberParser)
    requires Attr(e, TypeAttribute) == "gamma"
    requires Converts(e, AmplitudeAttribute, parse)
    requires Converts(e, ExponentAttribute, parse)
    requires Converts(e, OffsetAttribute, parse)
    ensures CreateFunction(e, parse) ==
              Ok(GammaTransfer(ParameterValue(e, AmplitudeAttribute, 1.0, parse),
                               ParameterValue(e, ExponentAttribute, 1.0, parse),
                               ParameterValue(e, OffsetAttribute, 0.0, parse)))
  {
  }

  /** `linear` defaults each parameter on its own: slope 1, intercept 0 where
      absent, the converted value where present. */
  lemma LinearFromParameters(e: Element, parse: NumberParser)
    requires Attr(e, TypeAttribute) == "linear"
    requires Converts(e, SlopeAttribute, parse)
    requires Converts(e, InterceptAttribute, parse)
    ensures CreateFunction(e, parse) ==
              Ok(LinearTransfer(ParameterValue(e, SlopeAttribute, 1.0, parse),
                                ParameterValue(e, InterceptAttribute, 0.0, parse)))
  {
  }

  /** For instance `type="gamma" exponent="2"` gives amplitude 1, exponent 2
      and offset 0. */
  lemma GammaExponentOnly(parse: NumberParser)
    requires parse("2") == Some(2.0)
    ensures CreateFunction(Element(map[TypeAttribute := "gamma", ExponentAttribute := "2"], []), parse) ==
              Ok(GammaTransfer(1.0, 2.0, 0.0))
  {
    GammaFromParameters(Element(map[TypeAttribute := "gamma", ExponentAttribute := "2"], []), parse);
  }

  /** The attribute text of a list of numbers: a leading space, then every
      number followed by a space, so that even the empty list is a non-empty
      attribute. */
  function ValuesText(vs: seq<real>, format: real -> string): string
  {
    " " + Tokenizer.JoinTokens(seq(|vs|, i requires 0 <= i < |vs| => format(vs[i])))
  }

  /** A function element that describes f, numbers written by format. */
  function Describe(f: TransferFn, format: real -> string): Element
  {
    match f
    case IdentityTransfer => Element(map[TypeAttribute := "identity"], [])
    case TableTransfer(vs) =>
      Element(map[TypeAttribute := "table", TableValuesAttribute := ValuesText(vs, format)], [])
    case DiscreteTransfer(vs) =>
      Element(map[TypeAttribute := "discrete", TableValuesAttribute := ValuesText(vs, format)], [])
    case LinearTransfer(s, i) =>
      Element(map[TypeAttribute := "linear", SlopeAttribute := format(s), InterceptAttribute := format(i)], [])
    case GammaTransfer(a, x, o) =>
      Element(map[TypeAttribute := "gamma", AmplitudeAttribute := format(a),
                  ExponentAttribute := format(x), OffsetAttribute := format(o)], [])
  }

  /** The numbers f carries. */
  function Numbers(f: TransferFn): set<real>
  {
    match f
    case IdentityTransfer => {}
    case TableTransfer(vs) => set x | x in vs
    case DiscreteTransfer(vs) => set x | x in vs
    case LinearTransfer(s, i) => {s, i}
    case GammaTransfer(a, x, o) => {a, x, o}
  }

  /** format writes x as a single token that parse reads back as x. */
  predicate WritesToken(format: real -> string, parse: NumberParser, x: real)
  {
    parse(format(x)) == Some(x) && format(x) != [] && Tokenizer.NoDelimiter(format(x))
  }

  lemma {:induction false} ValuesTextRoundTrip(vs: seq<real>, format: real -> string, parse: NumberParser)
    requires forall x :: x in vs ==> WritesToken(format, parse, x)
    ensures ParseAll(Tokenizer.Tokens(ValuesText(vs, format)), parse) == Some(vs)
  {
    var ts := seq(|vs|, i requires 0 <= i < |vs| => format(vs[i]));
    forall k | 0 <= k < |ts|
      ensures ts[k] != [] && Tokenizer.NoDelimiter(ts[k]) && parse(ts[k]) == Some(vs[k])
    {
      var y := vs[k];
      assert y in vs;
      assert ts[k] == format(y);
      assert WritesToken(format, parse, y);
    }
    Tokenizer.TokensOfJoin(ts);
    Tokenizer.LeadingDelimiterIgnored(Tokenizer.JoinTokens(ts));
    var r := ParseAll(ts, parse);
    assert r.Some?;
    assert r.value == vs;
  }

  /**
   * Every transfer function is built from the element that describes it:
   * the attribute names, the `type` names and the list syntax agree, given a
   * number formatter that writes each number of f as a single token the
   * number parser reads back.
   */
  lemma {:induction false} CreateDescribeRoundTrip(f: TransferFn, format: real -> string, parse: NumberParser)
    requires forall x :: x in Numbers(f) ==> WritesToken(format, parse, x)
    ensures CreateFunction(Describe(f, format), parse) == Ok(f)
  {
    match f
    case IdentityTransfer =>
    case TableTransfer(vs) =>
      assert forall x :: x in vs ==> x in Numbers(f);
      ValuesTextRoundTrip(vs, format, parse);
    case DiscreteTransfer(vs) =>
      assert forall x :: x in vs ==> x in Numbers(f);
      ValuesTextRoundTrip(vs, format, parse);
    case LinearTransfer(sl, i) =>
      assert sl in Numbers(f) && i in Numbers(f);
    case GammaTransfer(a, x, o) =>
      assert a in Numbers(f) && x in Numbers(f) && o in Numbers(f);
  }

  /** The round trip applies to real formatters: for instance the element
      `type="linear" slope="2" intercept="0"`, with a parser reading "2" and
      "0", gives slope 2 and intercept 0. */
  lemma LinearRoundTripExample()
    ensures var parse := (s: string) => if s == "2" then Some(2.0) else if s == "0" then Some(0.0) else None;
      CreateFunction(Element(map[TypeAttribute := "linear", SlopeAttribute := "2", InterceptAttribute := "0"], []), parse)
        == Ok(LinearTransfer(2.0, 0.0))
  {
    var format := (x: real) => if x == 2.0 then "2" else "0";
    var parse := (s: string) => if s == "2" then Some(2.0) else if s == "0" then Some(0.0) else None;
    var f := LinearTransfer(2.0, 0.0);
    assert forall x :: x in Numbers(f) ==> WritesToken(format, parse, x);
    CreateDescribeRoundTrip(f, format, parse);
    assert Describe(f, format) ==
           Element(map[TypeAttribute := "linear", SlopeAttribute := "2", InterceptAttribute := "0"], []);
  }
}
