/**
 * The I2C transfer the driver depends on, as an oracle: the bus answers each
 * attempt with the next reply of a fixed, unknown stream, and a ghost log
 * records every transfer and every delay requested, in order.
 */
module I2c {
  import opened OpenLcd

  /** Result of one i2c_master_write_to_device call. */
  datatype Status = Ok | Timeout | Failed

  /** What the driver did on the bus side: a transfer attempt or a requested delay. */
  datatype Event =
    | Transfer(address: byte, data: seq<byte>, ticks: nat, status: Status)
    | Delay(ms: nat)

  /** Attempt budget of the retrying write. */
  const MAX_ATTEMPTS := 3
  /** FreeRTOS tick period; the ESP-IDF default tick rate is 100 Hz. */
  const PORT_TICK_PERIOD_MS := 10
  /** Per-attempt bus timeout, 10 ms expressed in ticks. */
  const BUS_TIMEOUT_TICKS := 10 / PORT_TICK_PERIOD_MS

  class Bus {
    /** replies(n) is the answer the bus gives to the n-th transfer attempt. */
    const replies: nat -> Status
    /** Number of transfer attempts made so far. */
    var next: nat
    ghost var log: seq<Event>

    constructor (replies: nat -> Status)
      ensures this.replies == replies && next == 0 && log == []
    {
      this.replies := replies;
      next := 0;
      log := [];
    }

    /** One attempt to write data to the device at address. */
    method WriteToDevice(address: byte, data: seq<byte>, ticks: nat) returns (status: Status)
      modifies this
      ensures status == replies(old(next)) && next == old(next) + 1
      ensures log == old(log) + [Transfer(address, data, ticks, status)]
    {
      status := replies(next);
      next := next + 1;
      log := log + [Transfer(address, data, ticks, status)];
    }

    /** A task delay of ms milliseconds; only its request is recorded. */
    method DelayMs(ms: nat)
      modifies this`log
      ensures log == old(log) + [Delay(ms)]
    {
      log := log + [Delay(ms)];
    }
  }

  /**
   * Number of attempts the retrying write makes when the replies from index
   * `from` on are those of the stream: it stops at the first reply that is
   * not a timeout, or when the budget is spent.
   */
  function Attempts(replies: nat -> Status, from: nat, budget: nat): (k: nat)
    requires budget >= 1
    ensures 1 <= k <= budget
    ensures forall j :: from <= j < from + k - 1 ==> replies(j) == Timeout
    ensures k < budget ==> replies(from + k - 1) != Timeout
    decreases budget
  {
    if replies(from) != Timeout || budget == 1 then 1
    else 1 + Attempts(replies, from + 1, budget - 1)
  }

  /** The events of k attempts to send data: each transfer followed by its delay. */
  function WriteTrace(address: byte, data: seq<byte>, ms: nat, replies: nat -> Status, from: nat, k: nat): seq<Event>
  {
    if k == 0 then []
    else WriteTrace(address, data, ms, replies, from, k - 1)
         + [Transfer(address, data, BUS_TIMEOUT_TICKS, replies(from + k - 1)), Delay(ms)]
  }

  /** The shape of a write trace: attempt j is a transfer of the whole buffer, then a delay of ms. */
  lemma {:induction false} WriteTraceAt(address: byte, data: seq<byte>, ms: nat, replies: nat -> Status, from: nat, k: nat, j: nat)
    requires j < k
    ensures |WriteTrace(address, data, ms, replies, from, k)| == 2 * k
    ensures WriteTrace(address, data, ms, replies, from, k)[2 * j]
         == Transfer(address, data, BUS_TIMEOUT_TICKS, replies(from + j))
    ensures WriteTrace(address, data, ms, replies, from, k)[2 * j + 1] == Delay(ms)
  {
    WriteTraceLength(address, data, ms, replies, from, k - 1);
    if j < k - 1 {
      WriteTraceAt(address, data, ms, replies, from, k - 1, j);
    }
  }

  lemma {:induction false} WriteTraceLength(address: byte, data: seq<byte>, ms: nat, replies: nat -> Status, from: nat, k: nat)
    ensures |WriteTrace(address, data, ms, replies, from, k)| == 2 * k
  {
    if k > 0 {
      WriteTraceLength(address, data, ms, replies, from, k - 1);
    }
  }

  /** Timeouts on the first n < budget attempts and then any other reply: exactly n + 1 attempts. */
  lemma {:induction false} RetryStopsAfterTimeouts(replies: nat -> Status, from: nat, budget: nat, n: nat)
    requires n < budget
    requires forall j :: from <= j < from + n ==> replies(j) == Timeout
    requires replies(from + n) != Timeout
    ensures Attempts(replies, from, budget) == n + 1
    decreases n
  {
    if n > 0 {
      assert replies(from) == Timeout;
      RetryStopsAfterTimeouts(replies, from + 1, budget - 1, n - 1);
    }
  }

  /** Timeouts on every attempt: the whole budget is spent. */
  lemma {:induction false} RetryExhausted(replies: nat -> Status, from: nat, budget: nat)
    requires budget >= 1
    requires forall j :: from <= j < from + budget ==> replies(j) == Timeout
    ensures Attempts(replies, from, budget) == budget
    decreases budget
  {
    if budget > 1 {
      assert replies(from) == Timeout;
      RetryExhausted(replies, from + 1, budget - 1);
    }
  }

  /** A first reply that is not a timeout (success or another error) ends the write at once. */
  lemma NoRetryUnlessTimeout(replies: nat -> Status, from: nat, budget: nat)
    requires budget >= 1
    requires replies(from) != Timeout
    ensures Attempts(replies, from, budget) == 1
  {
  }
}
