/** Optional values: a reading that may be missing (a NaN from the humidity
    sensor, a short I2C read). */
module Wrappers {
  datatype Option<+T> = None | Some(value: T)
}
