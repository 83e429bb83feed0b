/** Failure-carrying datatypes shared by every component of the model. */
module Common {
  datatype Option<+T> = None | Some(value: T)

  datatype Result<+T, +E> = Ok(value: T) | Err(error: E)

  newtype Byte = b: int | 0 <= b < 256

  type Bytes = seq<Byte>

  // A 32-byte secret, as drawn from the operating system.
  type Key = k: Bytes | |k| == 32 witness seq(32, _ => 0)

  // An ideal authenticated box (AES-GCM): it opens under the key and the associated data it
  // was made with, and under no others.
  datatype Sealed<+T> = Sealed(cipherKey: Key, salt: nat, payload: T, aad: string)

  function Unseal<T>(box: Sealed<T>, cipherKey: Key, aad: string): Option<T> {
    if box.cipherKey == cipherKey && box.aad == aad then Some(box.payload) else None
  }
}
