/**
 * The encoders the transport serialises trace batches with, and the pool it
 * borrows them from. The encoder implementations and the pool itself live in
 * files that are not part of this model: a format is an abstract kind with a
 * MIME type, an encoding attempt is an outcome supplied by the caller, and the
 * pool keeps a ghost ledger of the encoders it has lent and got back.
 */
module Encoders {

  newtype byte = x: int | 0 <= x < 256

  /** The two wire formats an encoder pool can be bound to. */
  datatype EncoderKind = Msgpack | Json

  /** The Content-Type a pool reports for the format it is bound to. */
  function ContentType(kind: EncoderKind): string
  {
    match kind
    case Msgpack => "application/msgpack"
    case Json => "application/json"
  }

  /** What serialising one trace batch in one format produced. */
  datatype Encoding = Encoded(payload: seq<byte>) | EncodeFailed(reason: string)

  /** A borrowed encoder; it serialises in the format of `lender`, the pool that lent it. */
  datatype Encoder = Encoder(kind: EncoderKind, ghost lender: EncoderPool)

  /**
   * A pool of encoders of one format. `borrowed` and `returned` count the
   * encoders lent and given back over the pool's life.
   */
  class EncoderPool {
    const kind: EncoderKind
    const size: nat
    ghost var borrowed: nat
    ghost var returned: nat

    constructor (kind: EncoderKind, size: nat)
      ensures this.kind == kind && this.size == size
      ensures borrowed == 0 && returned == 0
    {
      this.kind := kind;
      this.size := size;
      borrowed, returned := 0, 0;
    }

    /** Lends one encoder bound to the pool's format. */
    method Borrow() returns (e: Encoder)
      modifies this
      ensures e.kind == kind && e.lender == this
      ensures borrowed == old(borrowed) + 1 && returned == old(returned)
    {
      e := Encoder(kind, this);
      borrowed := borrowed + 1;
    }

    /** Takes back an encoder this pool lent and has not had back yet. */
    method Return(e: Encoder)
      requires e.lender == this
      requires returned < borrowed
      modifies this
      ensures returned == old(returned) + 1 && borrowed == old(borrowed)
    {
      returned := returned + 1;
    }
  }

  /** A fresh pool of `size` encoders of `kind`, with the Content-Type of that format. */
  method NewEncoderPool(kind: EncoderKind, size: nat) returns (pool: EncoderPool, contentType: string)
    ensures fresh(pool) && pool.kind == kind && pool.size == size
    ensures pool.borrowed == 0 && pool.returned == 0
    ensures contentType == ContentType(kind)
  {
    pool := new EncoderPool(kind, size);
    contentType := ContentType(kind);
  }
}
