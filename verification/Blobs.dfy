// Bytes and their digests. A digest is injective: it stands for the bytes it was computed from.
module Blobs {

  type Bytes = seq<nat>

  datatype Digest = Sha256(data: Bytes)
}
