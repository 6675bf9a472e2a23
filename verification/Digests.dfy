/** SHA-256 as the code relies on it: equal digests come from equal content. */
module Digests {
  datatype Digest<T> = Sha(of: T)
}
