/** The older tree's per-client request-id counter. */
module ClientIncrement {

  /** The counter is a `u128`. */
  const U128_LIMIT: nat := 0x1_0000_0000_0000_0000_0000_0000_0000_0000

  class Increment {
    var count: nat

    /** `new`: the counter starts at 0. */
    constructor ()
      ensures count == 0
    {
      count := 0;
    }

    /** `get_request_id`: adds one to the counter and returns the new value;
        the counter is the only state. Unchecked 128-bit arithmetic, so the
        counter must not be at its maximum. */
    method GetRequestId() returns (id: nat)
      requires count < U128_LIMIT - 1
      modifies this
      ensures id == old(count) + 1 && count == id
    {
      count := count + 1;
      id := count;
    }
  }

  /** Successive ids from a new counter are 1, 2, 3: strictly increasing,
      starting at 1. */
  method FirstThreeIds() returns (a: nat, b: nat, c: nat)
    ensures a == 1 && b == 2 && c == 3
  {
    var counter := new Increment();
    a := counter.GetRequestId();
    b := counter.GetRequestId();
    c := counter.GetRequestId();
  }
}
