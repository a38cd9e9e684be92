/** The delay primitive the back-off policies hand their intervals to. */
module Sleeping {
  import opened JavaLong

  datatype Option<T> = None | Some(value: T)

  /**
   * A stand-in for the thread-suspending sleeper: it does not wait, it
   * records every period it is asked to sleep, oldest first.
   */
  class DummySleeper {
    var backOffs: seq<Long>

    constructor ()
      ensures backOffs == []
    {
      backOffs := [];
    }

    /** Records one request to sleep for `backOffPeriod` time units. */
    method Sleep(backOffPeriod: Long)
      modifies this
      ensures backOffs == old(backOffs) + [backOffPeriod]
    {
      backOffs := backOffs + [backOffPeriod];
    }

    /** The most recently requested period; `None` before the first request. */
    function GetLastBackOff(): (last: Option<Long>)
      reads this
      ensures last.None? <==> backOffs == []
      ensures last.Some? ==> last.value == backOffs[|backOffs| - 1]
    {
      if backOffs == [] then None else Some(backOffs[|backOffs| - 1])
    }
  }
}
