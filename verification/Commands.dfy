/** What a producer does, as a list of commands: push_one, push_marker, wait_marker. */
module Commands {
  import opened Sequential

  datatype Cmd = Push(e: Event) | Mark | Wait

  /** Events among the first i commands, inside the sensor or not: the sequence number of a marker. */
  function SeqNo(program: seq<Cmd>, i: nat): nat
    requires i <= |program|
  {
    if i == 0 then 0 else SeqNo(program, i - 1) + if program[i - 1].Push? then 1 else 0
  }

  /** The events the first i commands push. */
  function Pushed(program: seq<Cmd>, i: nat): seq<Event>
    requires i <= |program|
  {
    if i == 0 then []
    else if program[i - 1].Push? then Pushed(program, i - 1) + [program[i - 1].e]
    else Pushed(program, i - 1)
  }

  /** So a marker carries the number of events pushed before it. */
  lemma {:induction false} SeqNoCounts(program: seq<Cmd>, i: nat)
    requires i <= |program|
    ensures SeqNo(program, i) == |Pushed(program, i)|
  {
    if i == 0 {
    } else {
      SeqNoCounts(program, i - 1);
    }
  }

  /** Every wait comes right behind its marker. */
  predicate WaitsMarked(program: seq<Cmd>) {
    forall i :: 0 <= i < |program| && program[i].Wait? ==> i > 0 && program[i - 1].Mark?
  }

  lemma {:induction false} SeqNoMonotone(program: seq<Cmd>, i: nat, j: nat)
    requires i <= j <= |program|
    ensures SeqNo(program, i) <= SeqNo(program, j)
    ensures SeqNo(program, i) == SeqNo(program, j) ==> Pushed(program, i) == Pushed(program, j)
  {
    if i < j { SeqNoMonotone(program, i, j - 1); }
  }
}
