/**
 * A `Nagazap` account and the scheduler tick over all accounts. Every write to
 * the record store is a no-op here, `emit` publishes nothing, and the clock is
 * the `now` parameter (milliseconds since the epoch).
 */
module Accounts {
  import opened Wrappers
  import opened JsBuiltins
  import opened Suppression
  import opened Forms
  import opened Dispatch
  import opened Cycle

  /** The registration request of `Nagazap.new`. */
  datatype NagazapForm = NagazapForm(token: string, appId: string, phoneId: string, businessId: string, userId: string)

  /** An inbound message as `saveMessage` receives it. */
  datatype InboundMessage = InboundMessage(from: string, timestamp: string, text: string, name: string)

  class Nagazap {
    const token: string
    const appId: string
    const phoneId: string
    const businessId: string
    const userId: string
    const lastUpdated: string

    var stack: seq<WhatsappForm>
    var blacklist: seq<string>
    var frequency: string
    var batchSize: int
    var lastMessageTime: string
    var paused: bool
    var sentMessages: seq<SentLog>
    var failedMessages: seq<FailedLog>

    /** The oven fields as one value. */
    function State(): OvenState
      reads this
    {
      OvenState(stack, blacklist, frequency, batchSize, lastMessageTime, paused, sentMessages, failedMessages)
    }

    /** `Nagazap.new`: paused, batch size 20, frequency "60000", never baked,
        and empty stack, blacklist and logs. */
    constructor (form: NagazapForm, now: nat)
      ensures State() == NewOven()
      ensures token == form.token && appId == form.appId && phoneId == form.phoneId
      ensures businessId == form.businessId && userId == form.userId
      ensures lastUpdated == NatToString(now)
    {
      token, appId, phoneId, businessId, userId := form.token, form.appId, form.phoneId, form.businessId, form.userId;
      lastUpdated := NatToString(now);
      batchSize, frequency, paused, lastMessageTime := 20, "60000", true, "";
      blacklist, failedMessages, sentMessages, stack := [], [], [], [];
    }

    // ------------------------------------------------------------ blacklist

    /** `addToBlacklist`: stores the number as given, once. */
    method AddToBlacklist(number: string)
      modifies this
      ensures State() == old(State()).(blacklist := Added(old(blacklist), number))
      ensures Distinct(old(blacklist)) ==> Distinct(blacklist)
    {
      if number in blacklist {
        return;
      }
      blacklist := blacklist + [number];
    }

    /** `removeFromBlacklist`: drops every occurrence of the number as given. */
    method RemoveFromBlacklist(number: string)
      modifies this
      ensures State() == old(State()).(blacklist := Removed(old(blacklist), number))
      ensures Distinct(old(blacklist)) ==> Distinct(blacklist)
    {
      if number !in blacklist {
        return;
      }
      if Distinct(blacklist) {
        WithoutKeepsDistinct(blacklist, number);
      }
      blacklist := Without(blacklist, number);
    }

    /** `saveMessage`: an inbound text equal to the stop phrase, ignoring case,
        puts its sender on the blacklist. */
    method SaveMessage(message: InboundMessage)
      modifies this
      ensures State() == if IsStopPhrase(message.text)
        then old(State()).(blacklist := Added(old(blacklist), message.from))
        else old(State())
    {
      if LowerCase(message.text) == StopPhrase {
        AddToBlacklist(message.from);
      }
    }

    // ------------------------------------------------------------ logs

    /** `log`: appends one delivery record. */
    method Log(data: Payload, now: nat)
      modifies this
      ensures State() == old(State()).(sentMessages := old(sentMessages) + [SentLog(NatToString(now), data)])
    {
      sentMessages := sentMessages + [SentLog(NatToString(now), data)];
    }

    /** `errorLog`: appends one failure record. */
    method ErrorLog(data: Option<Payload>, number: string, now: nat)
      modifies this
      ensures State() == old(State()).(failedMessages := old(failedMessages) + [FailedLog(NatToString(now), data, number)])
    {
      failedMessages := failedMessages + [FailedLog(NatToString(now), data, number)];
    }

    // ------------------------------------------------------------ sending

    /** `sendMessage`: skips a suppressed recipient without a trace; otherwise
        posts the wire form and logs the outcome (a non-Axios error leaves no entry).
        Returns the form handed to the provider. */
    method SendMessage(m: WhatsappForm, o: SendOutcome, now: nat) returns (posted: Option<ApiForm>)
      modifies this
      ensures posted == PostedForm(m, blacklist)
      ensures sentMessages == old(sentMessages) + SentEntry(m, blacklist, o, now)
      ensures failedMessages == old(failedMessages) + FailedEntry(m, blacklist, o, now)
      ensures stack == old(stack) && blacklist == old(blacklist) && batchSize == old(batchSize)
      ensures frequency == old(frequency) && paused == old(paused) && lastMessageTime == old(lastMessageTime)
    {
      var number := StripNonDigits(m.number);
      if BlacklistKey(number) in blacklist {
        return None;
      }
      var form := WireForm(m);
      posted := Some(form);
      match o {
        case Delivered(data) =>
          Log(data, now);
        case AxiosFailure(data) =>
          ErrorLog(data, number, now);
        case OtherFailure =>
      }
    }

    // ------------------------------------------------------------ queue

    /** `queueMessage`: appends one message; returns the new stack. */
    method QueueMessage(m: WhatsappForm) returns (queued: seq<WhatsappForm>)
      modifies this
      ensures State() == old(State()).(stack := old(stack) + [m])
      ensures queued == stack
    {
      stack := stack + [m];
      queued := stack;
    }

    /** `queueBatch`: appends the messages in their order; returns the new stack. */
    method QueueBatch(ms: seq<WhatsappForm>) returns (queued: seq<WhatsappForm>)
      modifies this
      ensures State() == old(State()).(stack := old(stack) + ms)
      ensures queued == stack
    {
      stack := stack + ms;
      queued := stack;
    }

    /** `prepareBatch`: queues one form per recipient, or throws (and queues
        nothing) when there are recipients but no template. */
    method PrepareBatch(data: OvenForm, imageId: string) returns (ok: bool)
      modifies this
      ensures ok <==> BatchForms(data, imageId).Ok?
      ensures State() == if ok
        then old(State()).(stack := old(stack) + BatchForms(data, imageId).value)
        else old(State())
    {
      var forms := BatchForms(data, imageId);
      if forms.Err? {
        return false;
      }
      var _ := QueueBatch(forms.value);
      ok := true;
    }

    /** `clearOven`: empties the stack. */
    method ClearOven()
      modifies this
      ensures State() == old(State()).(stack := [])
    {
      stack := [];
    }

    // ------------------------------------------------------------ settings

    /** `updateOvenSettings`: a missing field keeps its stored value. */
    method UpdateOvenSettings(newBatchSize: Option<int>, newFrequency: Option<string>)
      modifies this
      ensures State() == old(State()).(
        batchSize := if newBatchSize.Some? then newBatchSize.value else old(batchSize),
        frequency := if newFrequency.Some? then newFrequency.value else old(frequency))
    {
      if newBatchSize.Some? {
        batchSize := newBatchSize.value;
      }
      if newFrequency.Some? {
        frequency := newFrequency.value;
      }
    }

    /** `pause` */
    method Pause()
      modifies this
      ensures State() == old(State()).(paused := true)
    {
      paused := true;
    }

    /** `start` */
    method Start()
      modifies this
      ensures State() == old(State()).(paused := false)
    {
      paused := false;
    }

    // ------------------------------------------------------------ the cycle

    /** `saveStack`: stamps the time the sends finished. */
    method SaveStack(now: nat)
      modifies this
      ensures State() == old(State()).(lastMessageTime := NatToString(now))
    {
      lastMessageTime := NatToString(now);
    }

    /** The `Promise.all` of `bake`, in queue order: sends every message of
        `batch` (the i-th ends with `outcome(i)`) and returns the forms posted. */
    method SendBatch(batch: seq<WhatsappForm>, now: nat, outcome: nat -> SendOutcome) returns (posted: seq<ApiForm>)
      modifies this
      ensures posted == Posted(batch, blacklist)
      ensures sentMessages == old(sentMessages) + SentRecords(batch, blacklist, outcome, now)
      ensures failedMessages == old(failedMessages) + FailedRecords(batch, blacklist, outcome, now)
      ensures stack == old(stack) && blacklist == old(blacklist) && batchSize == old(batchSize)
      ensures frequency == old(frequency) && paused == old(paused) && lastMessageTime == old(lastMessageTime)
    {
      posted := [];
      var i := 0;
      while i < |batch|
        invariant 0 <= i <= |batch|
        invariant stack == old(stack) && blacklist == old(blacklist) && batchSize == old(batchSize)
        invariant frequency == old(frequency) && paused == old(paused) && lastMessageTime == old(lastMessageTime)
        invariant posted == Posted(batch[..i], blacklist)
        invariant sentMessages == old(sentMessages) + SentRecords(batch[..i], blacklist, outcome, now)
        invariant failedMessages == old(failedMessages) + FailedRecords(batch[..i], blacklist, outcome, now)
      {
        BatchStep(batch, blacklist, outcome, now, i);
        var form := SendMessage(batch[i], outcome(i), now);
        if form.Some? {
          posted := posted + [form.value];
        }
        Regroup(old(sentMessages), SentRecords(batch[..i], blacklist, outcome, now), SentEntry(batch[i], blacklist, outcome(i), now));
        Regroup(old(failedMessages), FailedRecords(batch[..i], blacklist, outcome, now), FailedEntry(batch[i], blacklist, outcome(i), now));
        i := i + 1;
      }
      assert batch[..i] == batch;
    }

    /** `bake`: sends the first `batchSize` messages (the i-th ends with
        `outcome(i)`), drops them from the stack whatever happened, and stamps
        `finished`, the time at which all its sends had settled. Returns the
        forms handed to the provider. */
    method Bake(now: nat, finished: nat, outcome: nat -> SendOutcome) returns (posted: seq<ApiForm>)
      modifies this
      ensures State() == AfterBake(old(State()), now, finished, outcome)
      ensures posted == Posted(Batch(old(stack), batchSize), blacklist)
    {
      var batch := Slice(stack, 0, batchSize);
      posted := SendBatch(batch, now, outcome);
      stack := SliceFrom(stack, batchSize);
      SaveStack(finished);
    }
  }

  /** Concatenation regroups: appending to a log one entry at a time. */
  lemma Regroup<T>(a: seq<T>, b: seq<T>, c: seq<T>)
    ensures (a + b) + c == a + (b + c)
  {
  }

  /** The body of the tick's `forEach` for one account: unless its evaluation
      throws, an account with a non-empty stack that is due is baked. */
  method EvaluateAccount(account: Nagazap, now: nat, finished: nat, fails: bool, outcome: nat -> SendOutcome)
    returns (fire: bool)
    modifies account
    ensures fire == (!fails && old(IsDue(account.State(), now)))
    ensures account.State() == if fire then AfterBake(old(account.State()), now, finished, outcome) else old(account.State())
  {
    fire := false;
    if fails || |account.stack| == 0 {
      return;
    }
    fire := IsDue(account.State(), now);
    if fire {
      var _ := account.Bake(now, finished, outcome);
    }
  }

  /** `Nagazap.shouldBake`: one tick over the accounts in listing order. An
      account whose evaluation throws (`evaluationFails(i)`) is left as it was and
      the tick goes on; every other account bakes exactly when it is due, with
      the i-th account's sends ending as `outcomes(i)` says and settling at
      `finishedAt(i)`, the time its `saveStack` stamps. */
  method ShouldBake(accounts: seq<Nagazap>, now: nat, finishedAt: nat -> nat, evaluationFails: nat -> bool,
                    outcomes: nat -> (nat -> SendOutcome))
    returns (baked: seq<bool>)
    requires forall i, j :: 0 <= i < j < |accounts| ==> accounts[i] != accounts[j]
    modifies set a | a in accounts
    ensures |baked| == |accounts|
    ensures forall i :: 0 <= i < |accounts| ==>
      baked[i] == (!evaluationFails(i) && old(IsDue(accounts[i].State(), now)))
    ensures forall i :: 0 <= i < |accounts| ==>
      accounts[i].State() ==
        if baked[i] then AfterBake(old(accounts[i].State()), now, finishedAt(i), outcomes(i)) else old(accounts[i].State())
  {
    ghost var before := seq(|accounts|, k requires 0 <= k < |accounts| reads accounts => accounts[k].State());
    baked := [];
    var i := 0;
    while i < |accounts|
      invariant 0 <= i <= |accounts| && |baked| == i
      invariant forall k :: 0 <= k < i ==> baked[k] == (!evaluationFails(k) && IsDue(before[k], now))
      invariant forall k :: 0 <= k < i ==>
        accounts[k].State() == if baked[k] then AfterBake(before[k], now, finishedAt(k), outcomes(k)) else before[k]
      invariant forall k :: i <= k < |accounts| ==> accounts[k].State() == before[k]
    {
      label Tick:
      var fire := EvaluateAccount(accounts[i], now, finishedAt(i), evaluationFails(i), outcomes(i));
      assert fire == (!evaluationFails(i) && IsDue(before[i], now));
      assert accounts[i].State() == if fire then AfterBake(before[i], now, finishedAt(i), outcomes(i)) else before[i];
      forall k | 0 <= k < |accounts| && k != i
        ensures accounts[k].State() == old@Tick(accounts[k].State())
      {
        assert accounts[k] != accounts[i];
      }
      baked := baked + [fire];
      i := i + 1;
    }
  }
}
