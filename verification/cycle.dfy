/**
 * The oven of one account as a value, and the two rules that drive it: when
 * the scheduler tick finds an account due, and what one `bake` does to it.
 */
module Cycle {
  import opened Wrappers
  import opened JsBuiltins
  import opened Forms
  import opened Dispatch

  /** The fields of a `Nagazap` account that the oven reads and writes. */
  datatype OvenState = OvenState(
    stack: seq<WhatsappForm>,
    blacklist: seq<string>,
    frequency: string,
    batchSize: int,
    lastMessageTime: string,
    paused: bool,
    sentMessages: seq<SentLog>,
    failedMessages: seq<FailedLog>)

  /** The oven of a newly created account. */
  function NewOven(): (s: OvenState)
    ensures s.stack == [] && s.blacklist == [] && s.sentMessages == [] && s.failedMessages == []
    ensures s.paused && s.batchSize == 20 && s.frequency == "60000" && s.lastMessageTime == ""
  {
    OvenState([], [], "60000", 20, "", true, [], [])
  }

  // ---------------------------------------------------------------- dueness

  /** `Number(lastMessageTime || 0)`: the empty string stands for 0, and a
      stored timestamp reads back as a non-negative number. */
  function LastTime(lastMessageTime: string): (r: Option<int>)
    ensures lastMessageTime == "" ==> r == Some(0)
    ensures AllDigits(lastMessageTime) ==> r.Some? && r.value >= 0
  {
    if lastMessageTime == "" then Some(0) else JsNumber(lastMessageTime)
  }

  /** The tick's test: a non-empty stack, not paused, and
      `now >= Number(lastMessageTime || 0) + Number(frequency)`, where a NaN
      operand makes the comparison false. */
  predicate IsDue(s: OvenState, now: nat)
    ensures IsDue(s, now) ==> |s.stack| > 0 && !s.paused && JsNumber(s.frequency).Some?
    ensures IsDue(s, now) ==>
      LastTime(s.lastMessageTime).Some? && now >= LastTime(s.lastMessageTime).value + JsNumber(s.frequency).value
  {
    |s.stack| > 0 && !s.paused &&
    match (LastTime(s.lastMessageTime), JsNumber(s.frequency))
    case (Some(last), Some(freq)) => now >= last + freq
    case _ => false
  }

  /** A paused account, or one with an empty stack, is never due. */
  lemma IdleNeverDue(s: OvenState, now: nat)
    requires s.paused || s.stack == []
    ensures !IsDue(s, now)
  {
  }

  /** Once due, an account stays due as the clock advances. */
  lemma DueIsMonotone(s: OvenState, now: nat, later: nat)
    requires IsDue(s, now) && now <= later
    ensures IsDue(s, later)
  {
  }

  /** After a cycle stamped at `t`, an active account with a queued message and a
      numeric frequency `f` is due exactly from `t + f` on. */
  lemma {:induction false} DueExactlyAfterFrequency(s: OvenState, t: nat, f: int, now: nat)
    requires s.lastMessageTime == NatToString(t) && JsNumber(s.frequency) == Some(f)
    requires |s.stack| > 0 && !s.paused
    ensures IsDue(s, now) <==> now >= t + f
  {
    NumberOfNatToString(t);
  }

  /** The default frequency: 59999 ms after a cycle nothing fires; at 60000 ms it does. */
  lemma DefaultFrequencyThreshold(s: OvenState, t: nat)
    requires s.lastMessageTime == NatToString(t) && s.frequency == "60000"
    requires |s.stack| > 0 && !s.paused
    ensures !IsDue(s, t + 59999)
    ensures IsDue(s, t + 60000)
  {
    DefaultFrequencyValue();
    DueExactlyAfterFrequency(s, t, 60000, t + 59999);
    DueExactlyAfterFrequency(s, t, 60000, t + 60000);
  }

  lemma DefaultFrequencyValue()
    ensures JsNumber("60000") == Some(60000)
  {
    assert "60000" == NatToString(60000);
    NumberOfNatToString(60000);
  }

  /** A frequency that is not a number (NaN) keeps the account from ever baking. */
  lemma NaNFrequencyNeverDue(s: OvenState, now: nat)
    requires JsNumber(s.frequency).None?
    ensures !IsDue(s, now)
  {
  }

  // ---------------------------------------------------------------- bake

  /** `stack.slice(0, batchSize)`: the messages one cycle attempts. */
  function Batch(stack: seq<WhatsappForm>, batchSize: int): (r: seq<WhatsappForm>)
    ensures |r| <= |stack| && r == stack[..|r|]
    ensures 0 <= batchSize <= |stack| ==> |r| == batchSize
  {
    Slice(stack, 0, batchSize)
  }

  /** `stack.slice(batchSize)`: what is left queued after a cycle. */
  function Rest(stack: seq<WhatsappForm>, batchSize: int): (r: seq<WhatsappForm>)
    ensures |r| == |stack| - |Batch(stack, batchSize)|
    ensures r == stack[|Batch(stack, batchSize)|..]
  {
    SliceFrom(stack, batchSize)
  }

  /** A cycle attempts a prefix of the stack and leaves exactly the remainder,
      in order; with a non-negative batch size the prefix has
      `min(batchSize, |stack|)` messages. */
  lemma BatchIsPrefix(stack: seq<WhatsappForm>, batchSize: int)
    ensures Batch(stack, batchSize) + Rest(stack, batchSize) == stack
    ensures Rest(stack, batchSize) == stack[|Batch(stack, batchSize)|..]
    ensures 0 <= batchSize ==> |Batch(stack, batchSize)| == if batchSize <= |stack| then batchSize else |stack|
  {
    SliceSplits(stack, batchSize);
  }

  /** The oven after one `bake` started at `now` whose sends had all settled at
      `finished`: the batch is sent, its outcomes are logged, the batch is
      dropped from the stack whatever the outcomes, and `saveStack` stamps
      `lastMessageTime` with `finished`. */
  function AfterBake(s: OvenState, now: nat, finished: nat, outcome: nat -> SendOutcome): (r: OvenState)
    ensures s.stack == Batch(s.stack, s.batchSize) + r.stack
    ensures s.sentMessages <= r.sentMessages && s.failedMessages <= r.failedMessages
    ensures r.lastMessageTime == NatToString(finished)
    ensures r.blacklist == s.blacklist && r.batchSize == s.batchSize
    ensures r.frequency == s.frequency && r.paused == s.paused
  {
    var batch := Batch(s.stack, s.batchSize);
    s.(stack := Rest(s.stack, s.batchSize),
       lastMessageTime := NatToString(finished),
       sentMessages := s.sentMessages + SentRecords(batch, s.blacklist, outcome, now),
       failedMessages := s.failedMessages + FailedRecords(batch, s.blacklist, outcome, now))
  }

  /** A cycle never logs more entries than it posted messages, and logs exactly
      as many when no send of its batch ended in a non-Axios error. */
  lemma BakeEffect(s: OvenState, now: nat, finished: nat, outcome: nat -> SendOutcome)
    ensures var r := AfterBake(s, now, finished, outcome);
      var batch := Batch(s.stack, s.batchSize);
      (|r.sentMessages| - |s.sentMessages|) + (|r.failedMessages| - |s.failedMessages|)
        <= |Posted(batch, s.blacklist)| &&
      ((forall i :: 0 <= i < |batch| ==> !outcome(i).OtherFailure?) ==>
        (|r.sentMessages| - |s.sentMessages|) + (|r.failedMessages| - |s.failedMessages|)
          == |Posted(batch, s.blacklist)|)
  {
    BatchLogAccounting(Batch(s.stack, s.batchSize), s.blacklist, outcome, now);
  }

  /** With a positive batch size, a cycle on a non-empty stack shortens it. */
  lemma BakeMakesProgress(s: OvenState, now: nat, finished: nat, outcome: nat -> SendOutcome)
    requires s.batchSize >= 1 && |s.stack| > 0
    ensures |AfterBake(s, now, finished, outcome).stack| < |s.stack|
  {
    BatchIsPrefix(s.stack, s.batchSize);
  }

  /** After a cycle whose sends settled at `finished`, the account is not due
      again until the frequency has elapsed from `finished`: slow sends push the
      next cycle back. */
  lemma NoSecondCycleWithinFrequency(s: OvenState, now: nat, finished: nat, later: nat, outcome: nat -> SendOutcome)
    requires JsNumber(s.frequency).Some? && later < finished + JsNumber(s.frequency).value
    ensures !IsDue(AfterBake(s, now, finished, outcome), later)
  {
    NumberOfNatToString(finished);
  }

  /** When messages remain after a cycle that settled at `finished`, an active
      account with a numeric frequency `f` is due again exactly from
      `finished + f` on, however long after the tick's `now` that is. */
  lemma NextCycleDueAt(s: OvenState, now: nat, finished: nat, f: int, later: nat, outcome: nat -> SendOutcome)
    requires JsNumber(s.frequency) == Some(f) && !s.paused
    requires |Rest(s.stack, s.batchSize)| > 0
    ensures IsDue(AfterBake(s, now, finished, outcome), later) <==> later >= finished + f
  {
    DueExactlyAfterFrequency(AfterBake(s, now, finished, outcome), finished, f, later);
  }

  /** What `k` successive cycles leave queued, with nothing enqueued meanwhile. */
  function RestAfter(stack: seq<WhatsappForm>, batchSize: int, k: nat): seq<WhatsappForm> {
    if k == 0 then stack else Rest(RestAfter(stack, batchSize, k - 1), batchSize)
  }

  /** The messages `k` successive cycles attempt, concatenated in cycle order. */
  function Drained(stack: seq<WhatsappForm>, batchSize: int, k: nat): seq<WhatsappForm> {
    if k == 0 then [] else Drained(stack, batchSize, k - 1) + Batch(RestAfter(stack, batchSize, k - 1), batchSize)
  }

  /** How many messages `k` cycles of batch size `b` take from a stack of `len`. */
  function Taken(len: nat, b: nat, k: nat): (n: nat)
    ensures n <= len
  {
    if k == 0 then 0 else if Taken(len, b, k - 1) + b <= len then Taken(len, b, k - 1) + b else len
  }

  /** `k` cycles of batch size `b` take `min(k * b, len)` messages. */
  lemma {:induction false} TakenIsMin(len: nat, b: nat, k: nat)
    ensures Taken(len, b, k) == if k * b <= len then k * b else len
  {
    if k > 0 {
      TakenIsMin(len, b, k - 1);
      MulStep(k, b);
    }
  }

  lemma MulStep(k: nat, b: nat)
    requires k > 0
    ensures k * b == (k - 1) * b + b
  {
  }

  /** FIFO: `k` cycles of batch size `b >= 0` attempt exactly the first
      `min(k * b, |stack|)` messages, in queue order, and leave the rest. */
  lemma {:induction false} CyclesDrainInOrder(stack: seq<WhatsappForm>, b: nat, k: nat)
    ensures var n := Taken(|stack|, b, k);
      Drained(stack, b, k) == stack[..n] && RestAfter(stack, b, k) == stack[n..]
  {
    if k > 0 {
      CyclesDrainInOrder(stack, b, k - 1);
      var m := Taken(|stack|, b, k - 1);
      var n := Taken(|stack|, b, k);
      var left := RestAfter(stack, b, k - 1);
      BatchIsPrefix(left, b);
      PrefixExtends(stack, m, n, left, Batch(left, b), Rest(left, b));
    }
  }

  /** Cutting the next `n - m` items off the remainder `stack[m..]`. */
  lemma PrefixExtends<T>(stack: seq<T>, m: nat, n: nat, left: seq<T>, batch: seq<T>, rest: seq<T>)
    requires m <= n <= |stack| && left == stack[m..]
    requires batch == left[..n - m] && rest == left[n - m..]
    ensures stack[..m] + batch == stack[..n] && rest == stack[n..]
  {
    assert stack[..n] == stack[..m] + stack[m..n];
  }

  /** With a positive batch size, `k` cycles with `k * b >= |stack|` attempt
      every queued message and empty the stack. */
  lemma EnoughCyclesEmptyStack(stack: seq<WhatsappForm>, b: nat, k: nat)
    requires k * b >= |stack|
    ensures Drained(stack, b, k) == stack
    ensures RestAfter(stack, b, k) == []
  {
    CyclesDrainInOrder(stack, b, k);
    TakenIsMin(|stack|, b, k);
  }

  /** Enqueueing while messages wait never disturbs what the next cycle attempts
      once the stack already holds a full batch. */
  lemma EnqueueKeepsNextBatch(stack: seq<WhatsappForm>, added: seq<WhatsappForm>, b: nat)
    requires b <= |stack|
    ensures Batch(stack + added, b) == Batch(stack, b)
    ensures Rest(stack + added, b) == Rest(stack, b) + added
  {
  }

  /** The scenario of a batch size of 2 and five queued messages: one cycle
      attempts the first two and leaves the last three. */
  lemma BatchOfTwoFromFive(m1: WhatsappForm, m2: WhatsappForm, m3: WhatsappForm, m4: WhatsappForm, m5: WhatsappForm)
    ensures Batch([m1, m2, m3, m4, m5], 2) == [m1, m2]
    ensures Rest([m1, m2, m3, m4, m5], 2) == [m3, m4, m5]
  {
  }

  /** The same scenario for a whole account: one cycle attempts only the first
      two messages, keeps the last three queued, stamps the time its sends
      settled, and its log entries come from the first two messages only. */
  lemma OneCycleOfTwo(s: OvenState, now: nat, finished: nat, outcome: nat -> SendOutcome)
    requires s.batchSize == 2 && |s.stack| == 5
    ensures var r := AfterBake(s, now, finished, outcome);
      r.stack == s.stack[2..] &&
      r.lastMessageTime == NatToString(finished) &&
      r.sentMessages == s.sentMessages + SentRecords(s.stack[..2], s.blacklist, outcome, now) &&
      r.failedMessages == s.failedMessages + FailedRecords(s.stack[..2], s.blacklist, outcome, now)
  {
    BatchIsPrefix(s.stack, 2);
  }
}
