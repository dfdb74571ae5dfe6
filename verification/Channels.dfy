/** Go channels with a buffer, as the gateway uses them: a bounded FIFO queue and a closed flag. */
module Channels {

  datatype Chan<T> = Chan(cap: nat, buf: seq<T>, closed: bool) {

    /** A send can proceed without waiting. */
    predicate HasRoom() {
      |buf| < cap
    }

    /** A receive yields a value (values left in a closed channel are still delivered). */
    predicate HasItem() {
      buf != []
    }

    /** A receive yields `ok == false`. */
    predicate Ended() {
      closed && buf == []
    }

    function Push(x: T): Chan<T> {
      this.(buf := buf + [x])
    }

    function Pop(): Chan<T>
      requires HasItem()
    {
      this.(buf := buf[1..])
    }
  }
}
