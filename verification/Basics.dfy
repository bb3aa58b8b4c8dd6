/** Values shared by every part of the model. */
module Basics {

  datatype Option<+T> = None | Some(value: T)

  /** The identity of one affine value (an environment, an action value, a settlement,
      an event, a panic payload, an error, ...). Copying such a value is impossible in
      the modelled program, so its identity is all that has to be tracked. */
  type Token = nat

  function One(b: bool): nat {
    if b then 1 else 0
  }

  /** How many copies of `t` a slot, or a sequence, owns. */
  function InSlot(slot: Option<Token>, t: Token): nat {
    One(slot == Some(t))
  }

  function InSeq(tokens: seq<Token>, t: Token): nat {
    if tokens == [] then 0 else One(tokens[0] == t) + InSeq(tokens[1..], t)
  }

  lemma Reassociate<T>(a: seq<T>, b: seq<T>, c: seq<T>)
    ensures a + b + c == a + (b + c)
  {
  }
}
