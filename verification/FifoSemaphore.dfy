/** The plain FIFO semaphore the admission gate is meant to be: whoever waits longest is served
    next, nobody is served while someone waits, and a waiter may give up. */
module FifoSemaphore {

  datatype Semaphore = Semaphore(waiting: seq<nat>, held: int)

  datatype Step =
    | Idle
    | Take               // granted on the spot
    | Queue(waiter: nat)
    | Serve              // granted to the longest waiting
    | GiveUp(waiter: nat)
    | Return
    | Reset(all: bool)   // forget what is held, and with all the waiters too

  ghost predicate Without(waiting: seq<nat>, waiting': seq<nat>, waiter: nat) {
    exists i :: 0 <= i < |waiting| && waiting[i] == waiter && waiting' == waiting[..i] + waiting[i + 1..]
  }

  ghost predicate Allowed(a: Semaphore, step: Step, b: Semaphore) {
    match step
    case Idle => b == a
    case Take => a.waiting == [] && b == a.(held := a.held + 1)
    case Queue(waiter) => waiter !in a.waiting && b == a.(waiting := a.waiting + [waiter])
    case Serve => a.waiting != [] && b == Semaphore(a.waiting[1..], a.held + 1)
    case GiveUp(waiter) => Without(a.waiting, b.waiting, waiter) && b.held == a.held
    case Return => a.held > 0 && b == a.(held := a.held - 1)
    case Reset(all) => b == Semaphore(if all then [] else a.waiting, 0)
  }
}
