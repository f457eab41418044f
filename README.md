# feComponentTransfer bridge, modelled in Dafny

This project models the Batik bridge for the SVG 1.1 `feComponentTransfer`
filter primitive (section 15.11 of the SVG 1.1 recommendation), including the
primitive-subregion default of section 15.7.3. The bridge turns an
`feComponentTransfer` element and its `feFuncR`, `feFuncG`, `feFuncB` and
`feFuncA` children into a filter node. The model proves what the bridge
promises about that translation.

The model has five modules:

- `Wrappers` (`wrappers.dfy`) holds `Option`, which stands for a Java
  reference that may be null. It also holds `Result`, which stands for a
  value or the exception the Java code throws.
- `Dom` (`dom.dfy`) holds abstract records in place of the DOM.
  - An `Element` is its attributes in the null namespace plus its children.
  - A child `Node` is either a non-element, or an element paired with the
    bridge that the bridge context returns for it.
  - `Attr` is `getAttributeNS(null, name)`: it gives `""` for an absent
    attribute.
- `Tokenizer` (`tokenizer.dfy`) is the `java.util.StringTokenizer` split with
  delimiters `" ,"`. It proves:
  - the tokens, concatenated, are the non-delimiter characters of the text;
  - a text has no token exactly when it consists of delimiters only;
  - joining delimiter-free tokens and splitting again gives the tokens back.
- `FeFunc` (`fefunc.dfy`) models the transfer-function element bridge:
  - `ConvertType` is `convertType`;
  - `TableValues` and the array-filling method `ConvertTableValues` are
    `convertTableValues`;
  - `ConvertNumber` is the inherited `convertNumber`;
  - `CreateFunction` is `createComponentTransferFunction`;
  - it ends with lemmas for the defaults, the identity fall-backs and the
    error cases, and a round trip from each transfer function to an element
    that describes it.
- `ComponentTransfer` (`component_transfer.dfy`) models `createFilter`:
  - `Filter` is a class, because the bridge compares the input with the
    `SourceGraphic` entry by reference;
  - `FilterMap` is a class whose `entries` are updated in place;
  - `CollectFunctions` is the child walk, as a loop over the children;
  - `CreateFilter` does the input check, picks the default region, walks the
    children, assembles the nodes and publishes the result;
  - lemmas cover last-child-wins, skipped children, null slots and channel
    independence.

Outside collaborators become parameters:

- `getIn` becomes the parameter `input: Filter?`.
- `SVGUtilities.convertFilterPrimitiveRegion` becomes
  `primitiveRegionOf: (Rect, Rect) -> Rect`. Its arguments are the default
  region and the filter region.
- `SVGUtilities.convertSVGNumber` becomes `parse: string -> Option<real>`.
  `None` stands for `NumberFormatException`.
- `ctx.getBridge(e)` becomes the `BridgeTag` stored with each child.

The child walk takes its function builder as the parameter `build`.
`CreateFilter` passes `FunctionBuilder(parse)`, which is `createComponentTransferFunction`.

Some of the code's behaviour is easy to misread:

- An empty `type` attribute is treated the same as an absent one, because
  `getAttributeNS` returns `""` for both. Either one raises the missing-attribute
  error.
- The only `tableValues` delimiters are space and comma. A tab or a newline
  is part of a token.
- A `tableValues` that is not empty but holds only delimiters gives an empty
  array. The bridge then builds a table (or discrete) function with no values,
  not the identity. `DelimitersOnlyGiveEmptyLookup` proves this.
- A missing channel is passed to the transfer node as null. The identity
  default for that channel is applied inside `ComponentTransferRable8Bit`,
  which is not part of this model.
- The first function child that fails to convert stops the walk with its
  exception. Later children are never read, and the filter map is left
  unchanged.

## Model

| member | source | states |
|---|---|---|
| `FeFunc.ConvertType` | sources/org/apache/batik/bridge/SVGFeComponentTransferElementBridge.java:335-358 | An empty `type` raises attribute-missing, naming `type`, and nothing else raises it. An accepted value is the name of the returned kind. Any other non-empty value raises attribute-malformed with (`type`, raw value). |
| `FeFunc.ConvertTypeExact` | sources/org/apache/batik/bridge/SVGFeComponentTransferElementBridge.java:341-357 | `type` is accepted as kind k if and only if it equals k's name exactly (`discrete`, `identity`, `gamma`, `linear`, `table`). |
| `FeFunc.TypeIsCaseSensitive` | sources/org/apache/batik/bridge/SVGFeComponentTransferElementBridge.java:347-357 | `Gamma` is malformed: the match is case-sensitive. |
| `FeFunc.ParseAll` | sources/org/apache/batik/bridge/SVGFeComponentTransferElementBridge.java:316-324 | Converting a token list succeeds exactly when every token converts. On success it has one entry per token, and entry i is the conversion of token i. |
| `FeFunc.TableValues` | sources/org/apache/batik/bridge/SVGFeComponentTransferElementBridge.java:310-327 | null if and only if the attribute is empty. An error if and only if the attribute is non-empty and some token fails to convert. The error is attribute-malformed carrying the whole raw attribute. Otherwise entry i is the conversion of token i. |
| `FeFunc.DelimitersOnlyGiveEmptyTable` | sources/org/apache/batik/bridge/SVGFeComponentTransferElementBridge.java:312-316 | A non-empty attribute made only of spaces and commas gives an empty array, not null. |
| `FeFunc.DelimitersOnlyGiveEmptyLookup` | sources/org/apache/batik/bridge/SVGFeComponentTransferElementBridge.java:245-288 | With such an attribute, `table` builds a table function with no values and `discrete` a discrete function with no values; neither falls back to the identity. |
| `FeFunc.ConvertTableValues` | sources/org/apache/batik/bridge/SVGFeComponentTransferElementBridge.java:310-327 | The in-place fill of the token-count array computes exactly `TableValues`, including the early exception at the first bad token. |
| `FeFunc.ConvertNumber` | sources/org/apache/batik/bridge/SVGFeComponentTransferElementBridge.java:258-276 | An absent attribute gives the default. A present one gives its conversion, or attribute-malformed with (name, raw value) when it does not convert. |
| `FeFunc.DispatchTotal` | sources/org/apache/batik/bridge/SVGFeComponentTransferElementBridge.java:243-291 | A function is built if and only if `type` converts and that kind's parameters convert, so no kind reaches the default arm. A `type` error is passed on unchanged. Every other error is attribute-malformed, is about the function element, and names an attribute the kind reads. |
| `FeFunc.IdentityIgnoresParameters` | sources/org/apache/batik/bridge/SVGFeComponentTransferElementBridge.java:253-255 | `identity` always gives the identity function. |
| `FeFunc.LookupWithoutValuesIsIdentity` | sources/org/apache/batik/bridge/SVGFeComponentTransferElementBridge.java:245-288 | `table` and `discrete` with an empty `tableValues` give the identity function. |
| `FeFunc.LookupFromTokens` | sources/org/apache/batik/bridge/SVGFeComponentTransferElementBridge.java:245-288 | With values, `table` gives a table function and `discrete` a discrete one. Entry i is the conversion of token i. If a token fails, the error is attribute-malformed with (`tableValues`, whole raw string). |
| `FeFunc.CreateFunction` | sources/org/apache/batik/bridge/SVGFeComponentTransferElementBridge.java:240-293 | A `type` error is reported before anything else. A built function is of the variant its `type` names; only `table` and `discrete` may fall back to the identity. Every error is about the function element. |
| `FeFunc.GammaFromParameters` | sources/org/apache/batik/bridge/SVGFeComponentTransferElementBridge.java:256-268 | `gamma` defaults each parameter on its own. Absent amplitude, exponent and offset give 1, 1 and 0; a present one gives its converted value. |
| `FeFunc.GammaExponentOnly` | sources/org/apache/batik/bridge/SVGFeComponentTransferElementBridge.java:256-268 | `type="gamma" exponent="2"` gives amplitude 1, exponent 2 and offset 0. |
| `FeFunc.LinearFromParameters` | sources/org/apache/batik/bridge/SVGFeComponentTransferElementBridge.java:270-279 | `linear` defaults each parameter on its own. Absent slope and intercept give 1 and 0; a present one gives its converted value. |
| `FeFunc.LinearFirstBadParameterReported` | sources/org/apache/batik/bridge/SVGFeComponentTransferElementBridge.java:272-276 | The linear parameters are read in the order slope, intercept. The first one that does not convert is the one reported, with its raw value. |
| `FeFunc.GammaDefaults` | sources/org/apache/batik/bridge/SVGFeComponentTransferElementBridge.java:256-268 | `gamma` with no parameters gives amplitude 1, exponent 1 and offset 0. |
| `FeFunc.GammaFirstBadParameterReported` | sources/org/apache/batik/bridge/SVGFeComponentTransferElementBridge.java:258-265 | The gamma parameters are read in the order amplitude, exponent, offset. The first one that does not convert is the one reported, with its raw value; this covers amplitude, exponent and offset in turn. |
| `FeFunc.LinearDefaults` | sources/org/apache/batik/bridge/SVGFeComponentTransferElementBridge.java:270-279 | `linear` with no parameters gives slope 1 and intercept 0. |
| `FeFunc.CreateDescribeRoundTrip` | sources/org/apache/batik/bridge/SVGFeComponentTransferElementBridge.java:240-293 | Every transfer function is rebuilt exactly from an element that describes it. The formatter need only write each number the function carries as a single token that the converter reads back. |
| `FeFunc.LinearRoundTripExample` | sources/org/apache/batik/bridge/SVGFeComponentTransferElementBridge.java:270-279 | A concrete formatter and parser meet the round trip's precondition: `type="linear" slope="2" intercept="0"` gives slope 2 and intercept 0. |
| `Tokenizer.Tokens` | sources/org/apache/batik/bridge/SVGFeComponentTransferElementBridge.java:315 | Every token is non-empty and contains no space or comma. |
| `Tokenizer.TokensSplit` | sources/org/apache/batik/bridge/SVGFeComponentTransferElementBridge.java:315-316 | A space or comma separates tokens: the tokens of `a`, a delimiter, then `b` are the tokens of `a` followed by those of `b`. So tokens are the maximal delimiter-free runs. |
| `Tokenizer.TokensOfToken` | sources/org/apache/batik/bridge/SVGFeComponentTransferElementBridge.java:315-316 | A non-empty text without delimiters is exactly one token. |
| `Tokenizer.TokensExample` | sources/org/apache/batik/bridge/SVGFeComponentTransferElementBridge.java:315-316 | `1,,2` has the two tokens `1` and `2`. |
| `Tokenizer.TokensEmptyIffDelimitersOnly` | sources/org/apache/batik/bridge/SVGFeComponentTransferElementBridge.java:315-316 | There are no tokens if and only if the text is made only of spaces and commas. |
| `Tokenizer.TokensCoverText` | sources/org/apache/batik/bridge/SVGFeComponentTransferElementBridge.java:315-319 | The tokens, concatenated in order, are exactly the non-delimiter characters of the text. |
| `Tokenizer.TokensOfJoin` | sources/org/apache/batik/bridge/SVGFeComponentTransferElementBridge.java:315-319 | Splitting joined delimiter-free tokens gives the same tokens back. |
| `ComponentTransfer.LastOnChannel` | sources/org/apache/batik/bridge/SVGFeComponentTransferElementBridge.java:129-137 | Gives the position of a child on the channel with no later child on that channel, or none when no child is on the channel. |
| `ComponentTransfer.CollectFunctions` | sources/org/apache/batik/bridge/SVGFeComponentTransferElementBridge.java:107-138 | The walk succeeds if and only if every function child converts. Each slot then holds the function of the last child of its channel, or null. On failure the error is that of the first failing function child. |
| `ComponentTransfer.LastChildWins` | sources/org/apache/batik/bridge/SVGFeComponentTransferElementBridge.java:129-137 | With duplicate children, the slot holds the function of the last child of that channel. |
| `ComponentTransfer.NullIffNoChild` | sources/org/apache/batik/bridge/SVGFeComponentTransferElementBridge.java:107-138 | A slot stays null if and only if no child targets its channel. |
| `ComponentTransfer.SkippedChildIgnored` | sources/org/apache/batik/bridge/SVGFeComponentTransferElementBridge.java:116-124 | A non-element child, or a child without a function bridge, inserted anywhere changes neither a slot nor whether the walk fails. |
| `ComponentTransfer.ChannelIndependence` | sources/org/apache/batik/bridge/SVGFeComponentTransferElementBridge.java:129-137 | Replacing a child that does not target channel ch by another such child leaves ch's slot unchanged. |
| `ComponentTransfer.NoFunctionChildren` | sources/org/apache/batik/bridge/SVGFeComponentTransferElementBridge.java:107-110 | Without function children, every slot is null. |
| `ComponentTransfer.SourceGraphicEntry` | sources/org/apache/batik/bridge/SVGFeComponentTransferElementBridge.java:88 | Gives the `SourceGraphic` entry of the filter map, or null if and only if there is none. |
| `ComponentTransfer.CreateFilter` | sources/org/apache/batik/bridge/SVGFeComponentTransferElementBridge.java:75-147 | A null input gives null and leaves the map untouched. A failing child gives its error and also leaves the map untouched. Otherwise the result is a fresh ZERO_PAD node over `primitiveRegionOf(default, filterRegion)`. The default is `filterRegion` when the input is the `SourceGraphic` entry, and the input's bounds otherwise. The pad wraps a fresh transfer node over the input with the A, R, G, B slot functions. The map is then the old map with the result published. |
| `ComponentTransfer.UpdateFilterMap` | sources/org/apache/batik/bridge/SVGFeComponentTransferElementBridge.java:145 | The filter is put under a non-empty `result` name, and nothing else in the map changes. |
| `ComponentTransfer.Filter.ComponentTransferRable` | sources/org/apache/batik/bridge/SVGFeComponentTransferElementBridge.java:140-141 | Builds the transfer node over `in` with the functions in A, R, G, B order. |
| `ComponentTransfer.Filter.PadRable` | sources/org/apache/batik/bridge/SVGFeComponentTransferElementBridge.java:142 | Builds the pad node over the transfer node, with the primitive region and the pad mode. |

## Left out

- Pixel semantics are modelled only as the constructors `Filter.ComponentTransferRable` and `Filter.PadRable`. They are raster and floating-point code whose source is not part of this model. This covers:
  - sampling the transfer functions (`ConcreteComponentTransferFunction`);
  - clamping;
  - rendering of `ComponentTransferRable8Bit` and `PadRable8Bit`.
- Numbers are `real`. The Java `float` rounding and the SVG number grammar are not modelled: the number converter is the parameter `parse`.
- `ConvertNumber`: `convertNumber` is inherited and its source is not part of this model. It is modelled as "empty gives the default, a value that does not convert is malformed with (name, raw value)".
- `UpdateFilterMap`: `updateFilterMap` is inherited and its source is not part of this model. It is modelled as publishing under a non-empty `result` attribute. Any trimming of that name is not modelled.
- `getIn`, `convertFilterPrimitiveRegion` and `ctx.getBridge` are foreign helpers. They are parameters, or the tag on a child. The filtered element, the filtered node and the bridge context appear only through them.
- `CreateFilter`: `input` and `primitiveRegionOf` are total, so the model cannot express an exception raised by `getIn` or `convertFilterPrimitiveRegion`. In particular it does not capture that a region error (line 96) would come before any error of the child walk.
- `update(BridgeMutationEvent)` (lines 300-302) only throws "Not implemented", so it is not modelled.
- The per-channel subclasses and their `getLocalName` (lines 153-220), and the bridge's own `getLocalName` (lines 44-46), return constants. They appear only as the channel of a `FuncBridge` tag.
- `DocumentLoader.java` is an interface with a single I/O method, so it is not part of this model.
- Elements are values, so two elements with equal attributes and children are indistinguishable. This matters only for the element that an error carries.
- A filter-map entry that is null or not a `Filter` (a cast failure in Java) is not modelled: the map holds filters only.
- The `default: throw new Error()` arm of the type switch has no counterpart. `Kind` has exactly the five kinds, so the match is exhaustive.
