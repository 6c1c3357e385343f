/** A bounded FIFO seen from outside: what was popped so far and what is still inside.
    Spsc shows that the ring buffer behaves like this. */
module Rings {
  datatype Option<+T> = None | Some(value: T)

  datatype Ring<T> = Ring(popped: nat, live: seq<T>)
  {
    function Pushed(): nat {
      popped + |live|
    }

    function Push(x: T): Ring<T> {
      Ring(popped, live + [x])
    }

    function Pop(): Ring<T>
      requires live != []
    {
      Ring(popped + 1, live[1..])
    }
  }

  /** One value for each of the two layers of a stage. */
  datatype Two<T> = Two(zero: T, one: T)
  {
    function Get(l: nat): T {
      if l == 0 then zero else one
    }

    function Set(l: nat, x: T): Two<T> {
      if l == 0 then Two(x, one) else Two(zero, x)
    }
  }
}
