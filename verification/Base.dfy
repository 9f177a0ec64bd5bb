/** Types and constants shared by every part of the node. */
module Base {

  datatype Option<+T> = None | Some(value: T)

  datatype Result<+T, +E> = Ok(value: T) | Err(error: E)

  /** One octet of a file, a packet or an account's userdata. */
  type byte = b: int | 0 <= b < 256

  /** The three kinds of opaque identifier: 32-byte keys and hashes, 64-byte signatures. */
  datatype Pubkey = Pubkey(bytes: seq<byte>)
  datatype Hash = Hash(bytes: seq<byte>)
  datatype Signature = Signature(bytes: seq<byte>)

  function Zeros(n: nat): (z: seq<byte>)
    ensures |z| == n
  {
    seq(n, _ => 0)
  }

  function Min(a: nat, b: nat): nat { if a < b then a else b }
  function Max(a: nat, b: nat): nat { if a > b then a else b }

  predicate NoDuplicates<T(==)>(s: seq<T>) {
    forall i, j :: 0 <= i < j < |s| ==> s[i] != s[j]
  }

  function Flatten<T>(parts: seq<seq<T>>): seq<T> {
    if parts == [] then [] else parts[0] + Flatten(parts[1..])
  }

  const DEFAULT_PUBKEY := Pubkey(Zeros(32))
  const DEFAULT_HASH := Hash(Zeros(32))

  datatype Transaction = Transaction(
    signature: Signature,
    keys: seq<Pubkey>,
    programId: Pubkey,
    lastId: Hash,
    fee: int,
    userdata: seq<byte>)

  datatype Entry = Entry(numHashes: nat, id: Hash, transactions: seq<Transaction>)

  function Ids(es: seq<Entry>): seq<Hash> {
    seq(|es|, i requires 0 <= i < |es| => es[i].id)
  }

  /** Slots of the receive window, and length of the ledger tail kept at boot. */
  const WINDOW_SIZE: nat := 2048

  const BLOB_SIZE: nat := 64 * 1024 - 128
  const BLOB_HEADER_SIZE: nat := 64
  const BLOB_DATA_SIZE: nat := BLOB_SIZE - 2 * BLOB_HEADER_SIZE
}
