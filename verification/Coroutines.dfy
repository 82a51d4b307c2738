/** What the bodies of asyncio tasks have in common. */
module Coroutines {
  /** How a block was left at one of its awaits. */
  datatype Exit = Normally | ByCancellation | ByError
}
