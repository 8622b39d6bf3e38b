/** Names shared by every component: optional values and the two payment gateways. */
module Types {
  datatype Option<+T> = None | Some(value: T)

  datatype Gateway = Default | Fallback

  function Other(g: Gateway): Gateway {
    match g
    case Default => Fallback
    case Fallback => Default
  }

  /** What a register holds after a sequence of stores, given what it held before. */
  function Latest(start: Gateway, stores: seq<Gateway>): Gateway {
    if stores == [] then start else stores[|stores| - 1]
  }
}
