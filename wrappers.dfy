/** Optional values: a host record without a MAC address, a device name with no saved state. */
module Wrappers {
  datatype Option<+T> = None | Some(value: T)
}
