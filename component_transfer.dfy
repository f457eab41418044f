/**
 * The feComponentTransfer bridge: resolving the default region, walking the
 * function children of the element, building the component transfer node
 * wrapped in a zero-pad node, and publishing it in the filter map.
 */
module ComponentTransfer {
  import opened Wrappers
  import opened Dom
  import opened FeFunc

  const ResultAttribute: string := "result"
  const SourceGraphicValue: string := "SourceGraphic"

  /** A rectangle in user space. */
  datatype Rect = Rect(x: real, y: real, width: real, height: real)

  datatype PadMode = ZeroPad | Replicate

  /** What a filter node is: one built elsewhere (SourceGraphic, an earlier
      primitive), a component transfer over an input with the functions in
      the constructor's A, R, G, B order, or a pad node. */
  datatype FilterNode =
    | OpaqueNode
    | ComponentTransferNode(input: Filter, funcA: Option<TransferFn>, funcR: Option<TransferFn>,
                            funcG: Option<TransferFn>, funcB: Option<TransferFn>)
    | PadNode(source: Filter, region: Rect, mode: PadMode)

  /** A filter of the rendering graph. It is a class because the bridge
      compares filters by reference; pixel rendering is not modelled. */
  class Filter {
    const node: FilterNode
    const bounds: Rect

    constructor Opaque(bounds: Rect)
      ensures this.node == OpaqueNode && this.bounds == bounds
    {
      this.node := OpaqueNode;
      this.bounds := bounds;
    }

    /** ComponentTransferRable8Bit: its bounds are those of its input. */
    constructor ComponentTransferRable(input: Filter, funcA: Option<TransferFn>, funcR: Option<TransferFn>,
                                       funcG: Option<TransferFn>, funcB: Option<TransferFn>)
      ensures node == ComponentTransferNode(input, funcA, funcR, funcG, funcB)
      ensures bounds == input.bounds
    {
      node := ComponentTransferNode(input, funcA, funcR, funcG, funcB);
      bounds := input.bounds;
    }

    /** PadRable8Bit: its bounds are the pad region. */
    constructor PadRable(source: Filter, region: Rect, mode: PadMode)
      ensures node == PadNode(source, region, mode) && bounds == region
    {
      node := PadNode(source, region, mode);
      bounds := region;
    }
  }

  /** The map from names to filters shared by the primitives of a chain. */
  class FilterMap {
    var entries: map<string, Filter>

    constructor (entries: map<string, Filter>)
      ensures this.entries == entries
    {
      this.entries := entries;
    }
  }

  /** The filter map after publishing f under the element's `result` name. */
  function Published(entries: map<string, Filter>, filterElement: Element, f: Filter): map<string, Filter>
  {
    var name := Attr(filterElement, ResultAttribute);
    if name == "" then entries else entries[name := f]
  }

  /**
   * updateFilterMap (inherited, its source is not part of this model): a
   * primitive with a non-empty `result` name is published under it; nothing
   * else in the map changes.
   */
  method UpdateFilterMap(filterElement: Element, filter: Filter, filterMap: FilterMap)
    modifies filterMap
    ensures Attr(filterElement, ResultAttribute) != "" ==>
              filterMap.entries == old(filterMap.entries)[Attr(filterElement, ResultAttribute) := filter]
    ensures Attr(filterElement, ResultAttribute) == "" ==> filterMap.entries == old(filterMap.entries)
  {
    var name := Attr(filterElement, ResultAttribute);
    if name != "" {
      filterMap.entries := filterMap.entries[name := filter];
    }
  }

  /** The four slots of the child walk; None stands for the Java null. */
  datatype Functions = Functions(r: Option<TransferFn>, g: Option<TransferFn>,
                                 b: Option<TransferFn>, a: Option<TransferFn>)
  {
    function Get(ch: Channel): Option<TransferFn>
    {
      match ch
      case Red => r
      case Green => g
      case Blue => b
      case Alpha => a
    }
  }

  /** A child the walk builds a function for: an element whose bridge is a
      transfer-function bridge. */
  predicate IsFuncChild(n: Node)
  {
    n.ElementNode? && (n.bridge.FuncBridge? || n.bridge.OtherFuncBridge?)
  }

  /** A child whose function goes into the slot of ch. */
  predicate OnChannel(n: Node, ch: Channel)
  {
    n.ElementNode? && n.bridge == FuncBridge(ch)
  }

  /** The position of the last child of cs on channel ch, if any. */
  function LastOnChannel(cs: seq<Node>, ch: Channel): (k: Option<nat>)
    ensures k.Some? ==>
              && k.value < |cs|
              && OnChannel(cs[k.value], ch)
              && forall j :: k.value < j < |cs| ==> !OnChannel(cs[j], ch)
    ensures k.None? ==> forall j :: 0 <= j < |cs| ==> !OnChannel(cs[j], ch)
  {
    if cs == [] then None
    else if OnChannel(cs[|cs| - 1], ch) then Some(|cs| - 1)
    else
      var k := LastOnChannel(cs[..|cs| - 1], ch);
      assert forall j :: 0 <= j < |cs| - 1 ==> cs[..|cs| - 1][j] == cs[j];
      k
  }

  /** How a function child is turned into a transfer function: the
      transfer-function bridge's createComponentTransferFunction. */
  type Builder = Element -> Result<TransferFn, BridgeError>

  /** Every function child of cs converts without error. */
  predicate AllBuild(cs: seq<Node>, build: Builder)
  {
    forall k :: 0 <= k < |cs| && IsFuncChild(cs[k]) ==> build(cs[k].elem).Ok?
  }

  /** The function of the last child of cs on ch, or None if there is none. */
  function ChannelFunction(cs: seq<Node>, ch: Channel, build: Builder): Option<TransferFn>
    requires AllBuild(cs, build)
  {
    match LastOnChannel(cs, ch)
    case None => None
    case Some(k) => Some(build(cs[k].elem).value)
  }

  /** The walk stops at child k with error err: child k is the first function
      child that does not convert, and err is its error. */
  predicate FailsAt(cs: seq<Node>, build: Builder, k: int, err: BridgeError)
  {
    && 0 <= k < |cs|
    && IsFuncChild(cs[k])
    && build(cs[k].elem) == Err(err)
    && AllBuild(cs[..k], build)
  }

  lemma ChannelFunctionStep(cs: seq<Node>, i: nat, ch: Channel, build: Builder)
    requires i < |cs|
    requires AllBuild(cs[..i + 1], build)
    ensures AllBuild(cs[..i], build)
    ensures ChannelFunction(cs[..i + 1], ch, build) ==
              if OnChannel(cs[i], ch) then Some(build(cs[i].elem).value)
              else ChannelFunction(cs[..i], ch, build)
  {
  }

  /**
   * The child walk of createFilter: each slot ends up holding the function
   * of the last child of its channel, or null if there is none; non-element
   * children and children without a transfer-function bridge are skipped;
   * the first function child that does not convert ends the walk with its
   * error.
   */
  method CollectFunctions(filterElement: Element, build: Builder) returns (res: Result<Functions, BridgeError>)
    ensures res.Ok? <==> AllBuild(filterElement.children, build)
    ensures res.Ok? ==>
              && AllBuild(filterElement.children, build)
              && forall ch :: res.value.Get(ch) == ChannelFunction(filterElement.children, ch, build)
    ensures res.Err? ==> exists k :: FailsAt(filterElement.children, build, k, res.error)
  {
    var cs := filterElement.children;
    var funcR: Option<TransferFn> := None;
    var funcG: Option<TransferFn> := None;
    var funcB: Option<TransferFn> := None;
    var funcA: Option<TransferFn> := None;
    var i := 0;
    while i < |cs|
      invariant 0 <= i <= |cs|
      invariant AllBuild(cs[..i], build)
      invariant funcR == ChannelFunction(cs[..i], Red, build)
      invariant funcG == ChannelFunction(cs[..i], Green, build)
      invariant funcB == ChannelFunction(cs[..i], Blue, build)
      invariant funcA == ChannelFunction(cs[..i], Alpha, build)
    {
      var n := cs[i];
      if n.ElementNode? && (n.bridge.FuncBridge? || n.bridge.OtherFuncBridge?) {
        var func := build(n.elem);
        if func.Err? {
          assert FailsAt(cs, build, i, func.error);
          assert !AllBuild(cs, build);
          return Err(func.error);
        }
        match n.bridge {
          case FuncBridge(Red) => funcR := Some(func.value);
          case FuncBridge(Green) => funcG := Some(func.value);
          case FuncBridge(Blue) => funcB := Some(func.value);
          case FuncBridge(Alpha) => funcA := Some(func.value);
          case _ =>
        }
      }
      assert AllBuild(cs[..i + 1], build) by {
        assert forall k :: 0 <= k < i ==> cs[..i + 1][k] == cs[..i][k];
      }
      ChannelFunctionStep(cs, i, Red, build);
      ChannelFunctionStep(cs, i, Green, build);
      ChannelFunctionStep(cs, i, Blue, build);
      ChannelFunctionStep(cs, i, Alpha, build);
      i := i + 1;
    }
    assert cs[..i] == cs;
    res := Ok(Functions(funcR, funcG, funcB, funcA));
    assert forall ch :: res.value.Get(ch) == ChannelFunction(cs, ch, build) by {
      forall ch ensures res.value.Get(ch) == ChannelFunction(cs, ch, build) {
        match ch
        case Red =>
        case Green =>
        case Blue =>
        case Alpha =>
      }
    }
  }

  /** The builder the bridge uses: createComponentTransferFunction with the
      chain's number converter. */
  function FunctionBuilder(parse: NumberParser): Builder
  {
    e => CreateFunction(e, parse)
  }

  /** filterMap.get("SourceGraphic"), null when there is no such entry. */
  function SourceGraphicEntry(entries: map<string, Filter>): (r: Filter?)
    ensures r == null <==> SourceGraphicValue !in entries
    ensures r != null ==> entries[SourceGraphicValue] == r
  {
    if SourceGraphicValue in entries then entries[SourceGraphicValue] else null
  }

  /**
   * createFilter. The resolved `in` filter (getIn) is the parameter input,
   * and the primitive-region conversion is the parameter primitiveRegionOf,
   * applied to the default region and the filter region.
   */
  method CreateFilter(filterElement: Element, input: Filter?, filterRegion: Rect, filterMap: FilterMap,
                      primitiveRegionOf: (Rect, Rect) -> Rect, parse: NumberParser)
    returns (res: Result<Filter?, BridgeError>)
    modifies filterMap
    // no input: the primitive is disabled and the map is not updated
    ensures input == null ==> res == Ok(null) && filterMap.entries == old(filterMap.entries)
    // a function child that does not convert ends construction with its error
    ensures input != null ==> (res.Ok? <==> AllBuild(filterElement.children, FunctionBuilder(parse)))
    ensures res.Err? ==>
              && filterMap.entries == old(filterMap.entries)
              && exists k :: FailsAt(filterElement.children, FunctionBuilder(parse), k, res.error)
    // otherwise: a zero-pad node over the primitive region, around a component
    // transfer node over the input with the functions in A, R, G, B order,
    // published in the filter map
    ensures input != null && res.Ok? ==>
              var f := res.value;
              var build := FunctionBuilder(parse);
              var cs := filterElement.children;
              var defaultRegion :=
                if input == SourceGraphicEntry(old(filterMap.entries)) then filterRegion else input.bounds;
              && AllBuild(cs, build)
              && f != null && fresh(f)
              && f.node.PadNode?
              && f.node.region == primitiveRegionOf(defaultRegion, filterRegion)
              && f.node.mode == ZeroPad
              && fresh(f.node.source)
              && f.node.source.node ==
                   ComponentTransferNode(input, ChannelFunction(cs, Alpha, build), ChannelFunction(cs, Red, build),
                                         ChannelFunction(cs, Green, build), ChannelFunction(cs, Blue, build))
              && filterMap.entries == Published(old(filterMap.entries), filterElement, f)
  {
    if input == null {
      return Ok(null);
    }
    var sourceGraphics := SourceGraphicEntry(filterMap.entries);
    var defaultRegion: Rect;
    if input == sourceGraphics {
      defaultRegion := filterRegion;
    } else {
      defaultRegion := input.bounds;
    }
    var primitiveRegion := primitiveRegionOf(defaultRegion, filterRegion);
    var funcs := CollectFunctions(filterElement, FunctionBuilder(parse));
    if funcs.Err? {
      return Err(funcs.error);
    }
    var fs := funcs.value;
    var transfer := new Filter.ComponentTransferRable(input, fs.a, fs.r, fs.g, fs.b);
    var filter := new Filter.PadRable(transfer, primitiveRegion, ZeroPad);
    UpdateFilterMap(filterElement, filter, filterMap);
    assert fs.a == fs.Get(Alpha) && fs.r == fs.Get(Red) && fs.g == fs.Get(Green) && fs.b == fs.Get(Blue);
    return Ok(filter);
  }

  /** The contract of LastOnChannel determines its result. */
  lemma LastOnChannelUnique(cs: seq<Node>, ch: Channel, k: nat)
    requires k < |cs| && OnChannel(cs[k], ch)
    requires forall j :: k < j < |cs| ==> !OnChannel(cs[j], ch)
    ensures LastOnChannel(cs, ch) == Some(k)
  {
  }

  /** Duplicate children: the last child of a channel is the one whose
      function the slot holds. */
  lemma LastChildWins(cs: seq<Node>, k: nat, ch: Channel, build: Builder)
    requires k < |cs| && OnChannel(cs[k], ch)
    requires forall j :: k < j < |cs| ==> !OnChannel(cs[j], ch)
    requires AllBuild(cs, build)
    ensures ChannelFunction(cs, ch, build) == Some(build(cs[k].elem).value)
  {
    LastOnChannelUnique(cs, ch, k);
  }

  /** A slot stays null exactly when no child targets its channel. */
  lemma NullIffNoChild(cs: seq<Node>, ch: Channel, build: Builder)
    requires AllBuild(cs, build)
    ensures ChannelFunction(cs, ch, build) == None <==> forall j :: 0 <= j < |cs| ==> !OnChannel(cs[j], ch)
  {
    if ChannelFunction(cs, ch, build) == None {
      assert LastOnChannel(cs, ch).None?;
    }
  }

  /** A child that is not a function child, inserted anywhere, changes no
      slot and no outcome. */
  lemma SkippedChildIgnored(pre: seq<Node>, n: Node, post: seq<Node>, ch: Channel, build: Builder)
    requires !IsFuncChild(n)
    ensures AllBuild(pre + [n] + post, build) <==> AllBuild(pre + post, build)
    ensures AllBuild(pre + post, build) ==>
              ChannelFunction(pre + [n] + post, ch, build) == ChannelFunction(pre + post, ch, build)
  {
    var cs, cs' := pre + post, pre + [n] + post;
    assert forall j :: 0 <= j < |pre| ==> cs'[j] == cs[j];
    assert forall j :: |pre| < j < |cs'| ==> cs'[j] == cs[j - 1];
    assert cs'[|pre|] == n;
    if AllBuild(cs, build) {
      assert AllBuild(cs', build) by {
        forall k | 0 <= k < |cs'| && IsFuncChild(cs'[k]) ensures build(cs'[k].elem).Ok? {
          if k > |pre| {
            assert cs'[k] == cs[k - 1];
          }
        }
      }
    }
    if AllBuild(cs', build) {
      assert AllBuild(cs, build) by {
        forall k | 0 <= k < |cs| && IsFuncChild(cs[k]) ensures build(cs[k].elem).Ok? {
          if k < |pre| {
            assert cs[k] == cs'[k];
          } else {
            assert cs[k] == cs'[k + 1];
          }
        }
      }
      match LastOnChannel(cs, ch)
      case None =>
        assert forall j :: 0 <= j < |cs'| ==> !OnChannel(cs'[j], ch);
      case Some(m) =>
        var m' := if m < |pre| then m else m + 1;
        assert cs'[m'] == cs[m];
        LastOnChannelUnique(cs', ch, m');
    }
  }

  /** Channel independence: replacing a child that does not target ch by
      another such child leaves the slot of ch unchanged. */
  lemma ChannelIndependence(cs: seq<Node>, k: nat, x: Node, ch: Channel, build: Builder)
    requires k < |cs|
    requires !OnChannel(cs[k], ch) && !OnChannel(x, ch)
    requires AllBuild(cs, build) && AllBuild(cs[k := x], build)
    ensures ChannelFunction(cs[k := x], ch, build) == ChannelFunction(cs, ch, build)
  {
    var cs' := cs[k := x];
    match LastOnChannel(cs, ch)
    case None =>
      assert forall j :: 0 <= j < |cs'| ==> !OnChannel(cs'[j], ch);
    case Some(m) =>
      assert cs'[m] == cs[m];
      LastOnChannelUnique(cs', ch, m);
  }

  /** Without function children every slot is null, so every channel gets the
      transfer node's identity default. */
  lemma NoFunctionChildren(cs: seq<Node>, build: Builder)
    requires forall j :: 0 <= j < |cs| ==> !IsFuncChild(cs[j])
    ensures AllBuild(cs, build)
    ensures forall ch :: ChannelFunction(cs, ch, build) == None
  {
  }
}
