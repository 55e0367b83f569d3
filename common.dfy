/** Small failure-carrying datatypes shared by every module of the model. */
module Common {

  /** A value that may be absent: `undefined` where the source reads a missing property. */
  datatype Option<T> = None | Some(value: T)

  /** The outcome of an operation that can throw: `Err` carries the thrown error. */
  datatype Result<T, E> = Ok(value: T) | Err(error: E)

  /** Concatenation regrouped to the right. */
  lemma Regroup<T>(a: seq<T>, b: seq<T>, c: seq<T>)
    ensures a + b + c == a + (b + c)
  {
  }

  /** A non-empty sequence followed by another, split after its first element. */
  lemma ConsAppend<T>(front: seq<T>, back: seq<T>)
    requires front != []
    ensures front + back == [front[0]] + (front[1..] + back)
  {
    assert front == [front[0]] + front[1..];
  }

  /** A prefix one longer is the prefix and the next element. */
  lemma TakeOneMore<T>(s: seq<T>, i: nat)
    requires i < |s|
    ensures s[..i + 1] == s[..i] + [s[i]]
  {
  }
}
