/** Result types, write outcomes and small arithmetic shared by the modules of this project. */
module Common {

  datatype Option<+T> = None | Some(value: T)

  datatype Result<+T, +E> = Ok(value: T) | Err(error: E)

  /** A durable write reaches the file, or it does not, or it does and is reported as failed. */
  datatype Write = Good | Lost | Torn

  function Bit(b: bool): nat { if b then 1 else 0 }

  function Min(a: int, b: int): int { if a < b then a else b }

  function Max(a: int, b: int): int { if a < b then b else a }

  /** Two sets that differ in one element at most. */
  lemma OneApart<T>(a: set<T>, b: set<T>, x: T)
    requires a - {x} == b - {x}
    ensures |b| == |a| - Bit(x in a) + Bit(x in b)
  {
    assert a == if x in a then (a - {x}) + {x} else a - {x};
    assert b == if x in b then (b - {x}) + {x} else b - {x};
  }

  /** The int64 bound the accounting code checks its totals against. */
  const MAX_INT64: int := 0x7FFF_FFFF_FFFF_FFFF
}
