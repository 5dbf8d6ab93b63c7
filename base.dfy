/** Small value types shared by every part of the bridge model. */
module Base {

  /** An optional value: `None` stands for Python's `None`. */
  datatype Option<+T> = None | Some(value: T)

  /** One byte on the display link. */
  type byte = b: int | 0 <= b < 256

  /** The bytes of one write on the display link. */
  type Frame = seq<byte>

  /** A 16-bit display register id (`int.to_bytes(2, "big")` accepts exactly these). */
  predicate IsRegister(vpin: int)
  {
    0 <= vpin < 0x1_0000
  }

  /** A value representable as a signed 16-bit integer. */
  predicate IsInt16(v: int)
  {
    -0x8000 <= v < 0x8000
  }

  /** Appending two parts in turn appends their concatenation. */
  lemma AppendTwo<T>(l: seq<T>, a: seq<T>, b: seq<T>)
    ensures l + a + b == l + (a + b)
  {
  }

  /** Appending three parts in turn appends their concatenation. */
  lemma AppendThree<T>(l: seq<T>, a: seq<T>, b: seq<T>, c: seq<T>)
    ensures l + a + b + c == l + (a + b + c)
  {
  }
}
