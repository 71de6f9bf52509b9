/**
 * What `sendMessage` does for one queued message, and what the sends of one
 * batch add up to. The provider's answer is an input (`SendOutcome`), and the
 * batch is sent in queue order with the outcome of the i-th message given by
 * `outcome(i)`.
 */
module Dispatch {
  import opened Wrappers
  import opened JsBuiltins
  import opened Suppression
  import opened Forms

  /** The provider's raw JSON answer, kept verbatim. */
  type Payload = string

  /** How the POST ends: a response, an AxiosError (with the response data,
      absent for transport failures), or any other exception. */
  datatype SendOutcome = Delivered(data: Payload) | AxiosFailure(response: Option<Payload>) | OtherFailure

  /** An entry of `sentMessages`. */
  datatype SentLog = SentLog(timestamp: string, data: Payload)

  /** An entry of `failedMessages`; `number` is the digits-only recipient. */
  datatype FailedLog = FailedLog(timestamp: string, data: Option<Payload>, number: string)

  // ---------------------------------------------------------------- one message

  /** The form handed to the provider, if any. */
  function PostedForm(m: WhatsappForm, blacklist: seq<string>): (r: Option<ApiForm>)
    ensures r.None? <==> Suppressed(blacklist, m.number)
    ensures r.Some? ==> r.value == WireForm(m)
  {
    if BlacklistKey(StripNonDigits(m.number)) in blacklist then None else Some(WireForm(m))
  }

  /** What one send appends to `sentMessages`: one entry carrying the response,
      exactly when the recipient is not suppressed and the POST answered. */
  function SentEntry(m: WhatsappForm, blacklist: seq<string>, o: SendOutcome, now: nat): (r: seq<SentLog>)
    ensures |r| <= 1
    ensures |r| == 1 <==> !Suppressed(blacklist, m.number) && o.Delivered?
    ensures |r| == 1 ==> r[0] == SentLog(NatToString(now), o.data)
  {
    if Suppressed(blacklist, m.number) then []
    else match o
      case Delivered(data) => [SentLog(NatToString(now), data)]
      case _ => []
  }

  /** What one send appends to `failedMessages`: one entry naming the stripped
      number, exactly when the recipient is not suppressed and the POST ended
      in an AxiosError. */
  function FailedEntry(m: WhatsappForm, blacklist: seq<string>, o: SendOutcome, now: nat): (r: seq<FailedLog>)
    ensures |r| <= 1
    ensures |r| == 1 <==> !Suppressed(blacklist, m.number) && o.AxiosFailure?
    ensures |r| == 1 ==> r[0] == FailedLog(NatToString(now), o.response, StripNonDigits(m.number))
  {
    if Suppressed(blacklist, m.number) then []
    else match o
      case AxiosFailure(data) => [FailedLog(NatToString(now), data, StripNonDigits(m.number))]
      case _ => []
  }

  /** A send logs at most one entry: none when suppressed or for a non-Axios
      error, otherwise exactly one, in the log the outcome selects. */
  lemma SendLogsAtMostOnce(m: WhatsappForm, blacklist: seq<string>, o: SendOutcome, now: nat)
    ensures |SentEntry(m, blacklist, o, now)| + |FailedEntry(m, blacklist, o, now)| <= 1
    ensures Suppressed(blacklist, m.number) ==> SentEntry(m, blacklist, o, now) == [] && FailedEntry(m, blacklist, o, now) == []
    ensures !Suppressed(blacklist, m.number) ==>
      (|SentEntry(m, blacklist, o, now)| == 1 <==> o.Delivered?) &&
      (|FailedEntry(m, blacklist, o, now)| == 1 <==> o.AxiosFailure?)
  {
  }

  /** The recipient the provider sees keeps every digit of the queued number,
      so an 11-digit number goes out with its extra mobile digit although its
      blacklist key lacks it. */
  lemma WireRecipientIsNotKey(m: WhatsappForm)
    requires |StripNonDigits(m.number)| == 11
    ensures WireForm(m).to[3..] == StripNonDigits(m.number)
    ensures |WireForm(m).to[3..]| == |BlacklistKey(StripNonDigits(m.number))| + 1
  {
  }

  // ---------------------------------------------------------------- one batch

  /** The forms handed to the provider for a batch, in queue order: at most one
      per message. */
  function Posted(batch: seq<WhatsappForm>, blacklist: seq<string>): (r: seq<ApiForm>)
    ensures |r| <= |batch|
  {
    if batch == [] then []
    else
      var last := batch[|batch| - 1];
      Posted(batch[..|batch| - 1], blacklist) + (if Suppressed(blacklist, last.number) then [] else [WireForm(last)])
  }

  /** What a batch appends to `sentMessages`: at most one entry per message,
      each stamped with the cycle's time. */
  function SentRecords(batch: seq<WhatsappForm>, blacklist: seq<string>, outcome: nat -> SendOutcome, now: nat): (r: seq<SentLog>)
    ensures |r| <= |batch|
    ensures forall e :: e in r ==> e.timestamp == NatToString(now)
  {
    if batch == [] then []
    else
      var i := |batch| - 1;
      SentRecords(batch[..i], blacklist, outcome, now) + SentEntry(batch[i], blacklist, outcome(i), now)
  }

  /** What a batch appends to `failedMessages`: at most one entry per message,
      each naming a digits-only number. */
  function FailedRecords(batch: seq<WhatsappForm>, blacklist: seq<string>, outcome: nat -> SendOutcome, now: nat): (r: seq<FailedLog>)
    ensures |r| <= |batch|
    ensures forall e :: e in r ==> AllDigits(e.number)
  {
    if batch == [] then []
    else
      var i := |batch| - 1;
      FailedRecords(batch[..i], blacklist, outcome, now) + FailedEntry(batch[i], blacklist, outcome(i), now)
  }

  /** Sending one more message of a batch extends each of the three results by
      what that send alone produces. */
  lemma BatchStep(batch: seq<WhatsappForm>, blacklist: seq<string>, outcome: nat -> SendOutcome, now: nat, i: nat)
    requires i < |batch|
    ensures Posted(batch[..i + 1], blacklist) == Posted(batch[..i], blacklist) +
      (match PostedForm(batch[i], blacklist) case Some(f) => [f] case None => [])
    ensures SentRecords(batch[..i + 1], blacklist, outcome, now)
         == SentRecords(batch[..i], blacklist, outcome, now) + SentEntry(batch[i], blacklist, outcome(i), now)
    ensures FailedRecords(batch[..i + 1], blacklist, outcome, now)
         == FailedRecords(batch[..i], blacklist, outcome, now) + FailedEntry(batch[i], blacklist, outcome(i), now)
  {
    assert batch[..i + 1][..i] == batch[..i];
  }

  /** Exactly the unsuppressed messages of a batch reach the provider. */
  lemma {:induction false} PostedExactlyUnsuppressed(batch: seq<WhatsappForm>, blacklist: seq<string>)
    ensures forall m :: m in batch && !Suppressed(blacklist, m.number) ==> WireForm(m) in Posted(batch, blacklist)
    ensures forall f :: f in Posted(batch, blacklist) ==>
      exists m :: m in batch && !Suppressed(blacklist, m.number) && f == WireForm(m)
  {
    if batch != [] {
      var init := batch[..|batch| - 1];
      PostedExactlyUnsuppressed(init, blacklist);
      assert batch == init + [batch[|batch| - 1]];
    }
  }

  /** When no recipient of a batch is suppressed, every message is posted, in
      queue order. */
  lemma {:induction false} NoneSuppressedAllPosted(batch: seq<WhatsappForm>, blacklist: seq<string>)
    requires forall i :: 0 <= i < |batch| ==> !Suppressed(blacklist, batch[i].number)
    ensures |Posted(batch, blacklist)| == |batch|
    ensures forall i :: 0 <= i < |batch| ==> Posted(batch, blacklist)[i] == WireForm(batch[i])
  {
    if batch != [] {
      NoneSuppressedAllPosted(batch[..|batch| - 1], blacklist);
    }
  }

  /** When every message of a batch is suppressed, nothing is posted or logged. */
  lemma {:induction false} AllSuppressedSilent(batch: seq<WhatsappForm>, blacklist: seq<string>, outcome: nat -> SendOutcome, now: nat)
    requires forall i :: 0 <= i < |batch| ==> Suppressed(blacklist, batch[i].number)
    ensures Posted(batch, blacklist) == []
    ensures SentRecords(batch, blacklist, outcome, now) == []
    ensures FailedRecords(batch, blacklist, outcome, now) == []
  {
    if batch != [] {
      AllSuppressedSilent(batch[..|batch| - 1], blacklist, outcome, now);
    }
  }

  /** Each posted message logs at most one entry, and exactly one unless its
      send ended in a non-Axios error. */
  lemma {:induction false} BatchLogAccounting(batch: seq<WhatsappForm>, blacklist: seq<string>, outcome: nat -> SendOutcome, now: nat)
    ensures |SentRecords(batch, blacklist, outcome, now)| + |FailedRecords(batch, blacklist, outcome, now)|
         <= |Posted(batch, blacklist)|
    ensures (forall i :: 0 <= i < |batch| ==> !outcome(i).OtherFailure?) ==>
      |SentRecords(batch, blacklist, outcome, now)| + |FailedRecords(batch, blacklist, outcome, now)|
      == |Posted(batch, blacklist)|
  {
    if batch != [] {
      var i := |batch| - 1;
      BatchLogAccounting(batch[..i], blacklist, outcome, now);
      SendLogsAtMostOnce(batch[i], blacklist, outcome(i), now);
    }
  }

  /** Every failure entry names the digits of an unsuppressed message of the batch. */
  lemma {:induction false} FailuresNameBatchRecipients(batch: seq<WhatsappForm>, blacklist: seq<string>, outcome: nat -> SendOutcome, now: nat)
    ensures forall r :: r in FailedRecords(batch, blacklist, outcome, now) ==>
      r.timestamp == NatToString(now) &&
      exists m :: m in batch && !Suppressed(blacklist, m.number) && r.number == StripNonDigits(m.number)
  {
    if batch != [] {
      var init := batch[..|batch| - 1];
      FailuresNameBatchRecipients(init, blacklist, outcome, now);
      assert batch == init + [batch[|batch| - 1]];
    }
  }
}
