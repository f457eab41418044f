/**
 * Abstract records standing for the DOM: an element is its attributes (in the
 * null namespace) and its ordered children; a child node is either not an
 * element (text, comment, ...) or an element together with the bridge the
 * bridge context registers for it.
 */
module Dom {

  datatype Element = Element(attrs: map<string, string>, children: seq<Node>)

  datatype Node =
    | NonElementNode
    | ElementNode(elem: Element, bridge: BridgeTag)

  /** The four colour channels a transfer function element can target. */
  datatype Channel = Red | Green | Blue | Alpha

  /**
   * What the bridge context returns for an element child: no bridge, a bridge
   * that is not a transfer-function bridge, one of the feFuncR/G/B/A bridges,
   * or some other subclass of the transfer-function bridge.
   */
  datatype BridgeTag =
    | NoBridge
    | OtherBridge
    | FuncBridge(channel: Channel)
    | OtherFuncBridge

  /** getAttributeNS(null, name): the value, or "" when the attribute is absent. */
  function Attr(e: Element, name: string): string
  {
    if name in e.attrs then e.attrs[name] else ""
  }
}
