# Nagazap message oven, modelled in Dafny

This project models the account-scoped "message oven" of the Nagazap WhatsApp
Business integration. The oven is the `Nagazap` class in `src/class/Nagazap.ts`.
It covers four things:

- **The stack.** This is the FIFO queue of pending template messages.
  `queueMessage`, `queueBatch` and `prepareBatch` append to it. `bake` drops the
  first `batchSize` messages after sending them, whatever the sends returned.
  `clearOven` empties it.
- **The blacklist.** `sendMessage` strips a recipient number to its digits and
  derives a key from them: a 10-digit number is its own key, and any other length
  drops the digit at index 2. A send whose key is on the blacklist is skipped
  without a trace. `addToBlacklist` and `removeFromBlacklist` edit the array
  without normalising the number they are given. An inbound text equal to
  "parar promoções", ignoring case, blacklists its sender.
- **The audit logs.** `sentMessages` and `failedMessages` are only ever appended to.
- **The scheduler tick.** `shouldBake` bakes every account whose stack is
  non-empty, that is not paused, and for which
  `now >= Number(lastMessageTime || 0) + Number(frequency)`.

The model also covers `getNumbers` from `src/rest/nagazap.ts`. It builds the two
chat ids of a phone number, with and without the extra mobile digit.

Modules, leaves first:

- `Wrappers`: `Option` and `Result`.
- `JsBuiltins`: the JavaScript built-ins the source relies on. These are `slice`
  with its index clamping, `replace(/\D/g, "")`, `toLowerCase`, `Number()` and
  `toString()`.
- `Suppression`: the blacklist key, the blacklist edits and the stop phrase.
- `Forms`: the queued form, the posted form, and the `prepareBatch` builder.
- `Dispatch`: what one send and one batch of sends post and log.
- `Cycle`: the oven as a value (`OvenState`), the dueness rule, and the effect
  of one bake (`AfterBake`).
- `Accounts`: the `Nagazap` class, whose methods update its fields in place,
  and the `ShouldBake` tick over a sequence of accounts.
- `ChatIds`: `getNumbers`.

Each state-changing method of `Accounts.Nagazap` states its whole new state in
terms of the old one, through `State()` or field by field. The lemmas in the other modules
state what those new states mean.

Inputs that the source takes from its environment become parameters:

- `now`: the clock, in milliseconds.
- `SendOutcome`: how the provider POST ends. It is a response, an `AxiosError`
  (with or without response data), or any other exception.
- `outcome(i)` (per batch) and `outcomes(i)` (per account): the outcome of the
  i-th send.
- `finished` (per cycle) and `finishedAt(i)` (per account): the time at which
  all sends of a cycle had settled, which `saveStack` stamps.
- `evaluationFails(i)`: whether evaluating account i throws inside the tick's
  try/catch.

Behaviour of the code that the model keeps, although a reader might not expect it:

- The blacklist stores numbers exactly as given, not normalised keys.
  `Suppression.RawEntryMissesKey` shows the effect: blacklisting the raw
  11-digit number does not suppress sends to that same number.
- There is no re-entrancy guard. The tick calls `bake()` without awaiting it.
- `lastMessageTime` is stamped by `saveStack` once every send of the batch has
  settled (`finished`), not when the cycle starts. Slow sends therefore push the
  next cycle back: it is due from `finished + frequency` (`Cycle.NextCycleDueAt`).
- `batchSize` is any integer. `slice` clamps it, and a cycle still removes
  exactly the prefix it attempted (`Cycle.BatchIsPrefix`).

## Model

| member | source | states |
|---|---|---|
| JsBuiltins.Slice | src/class/Nagazap.ts:235 | `slice(start, end)` with indices inside the sequence is the ordinary sub-sequence; an end past the length stops at the length; an empty range gives the empty sequence |
| JsBuiltins.SliceFrom | src/class/Nagazap.ts:317-320 | `slice(start)` from an index inside the sequence is its suffix; past the length it is empty; a negative start keeps that many elements from the end |
| JsBuiltins.LowerCase | src/class/Nagazap.ts:187 | `toLowerCase` keeps the length, leaves no upper-case letter, keeps every other character, and moves A-Z to a-z |
| JsBuiltins.LowerCaseIdempotent | src/class/Nagazap.ts:187 | Lower-casing twice is lower-casing once |
| JsBuiltins.StripNonDigits | src/class/Nagazap.ts:234 | The stripped number holds only the digits 0-9 and is no longer than the input |
| JsBuiltins.StripKeepsDigits | src/class/Nagazap.ts:234 | A number that is already digits-only passes through the strip unchanged |
| JsBuiltins.StripDistributes | src/class/Nagazap.ts:234 | The strip works character by character: stripping `a + b` is stripping `a`, then `b` |
| JsBuiltins.StripIdempotent | src/class/Nagazap.ts:234 | Stripping twice gives the same result as stripping once |
| JsBuiltins.JsNumber | src/class/Nagazap.ts:116-118 | `Number("")` is 0, and a digits-only string is a non-negative number (not NaN) |
| JsBuiltins.NatToString | src/class/Nagazap.ts:308 | `getTime().toString()` is a non-empty string of decimal digits |
| JsBuiltins.NumberOfNatToString | src/class/Nagazap.ts:308 | `Number` reads back the exact time that `saveStack` wrote with `toString` |
| JsBuiltins.SliceSplits | src/class/Nagazap.ts:317-320 | `slice(0, k)` and `slice(k)` split a sequence into two parts for every integer k, and for k >= 0 the first part has min(k, length) elements |
| Suppression.BlacklistKey | src/class/Nagazap.ts:235 | A 10-digit number is its own key; a number of 3 or more digits of any other length loses its index-2 digit; a shorter number is its own key |
| Suppression.Suppressed | src/class/Nagazap.ts:234-235 | A recipient with 10 digits is skipped exactly when those digits are listed; one with 3 or more digits of any other length exactly when its digits without index 2 are |
| Suppression.MobileDigitCollapses | src/class/Nagazap.ts:235 | An 11-digit number and the same number without its index-2 digit share one key, and that key is the 10-digit form |
| Suppression.KeyExample | src/class/Nagazap.ts:235 | "11987654321" and "1187654321" both have the key "1187654321" |
| Suppression.FormattingIgnored | src/class/Nagazap.ts:234-235 | Two numbers with the same digits get the same suppression verdict |
| Suppression.Added | src/class/Nagazap.ts:193-195 | After `addToBlacklist`, the blacklist holds the number plus the old entries, with the old array as a prefix |
| Suppression.Without | src/class/Nagazap.ts:203 | The filter removes every occurrence of the number and keeps every other entry |
| Suppression.Removed | src/class/Nagazap.ts:202-203 | After `removeFromBlacklist` the number is absent and every other entry keeps its membership; an absent number leaves the array unchanged |
| Suppression.AddIdempotent | src/class/Nagazap.ts:193-195 | Adding twice is adding once; an absent number then occurs exactly once; adding a present number changes nothing |
| Suppression.AddKeepsDistinct | src/class/Nagazap.ts:193-195 | Adding keeps a duplicate-free blacklist duplicate-free |
| Suppression.WithoutAbsent | src/class/Nagazap.ts:202-203 | Filtering out an absent number leaves the array unchanged |
| Suppression.WithoutDistributes | src/class/Nagazap.ts:203 | The filter keeps the remaining entries in their original order |
| Suppression.WithoutKeepsDistinct | src/class/Nagazap.ts:203 | Removing keeps a duplicate-free blacklist duplicate-free |
| Suppression.RemoveIdempotent | src/class/Nagazap.ts:201-203 | After `removeFromBlacklist` the number is absent and every other entry keeps its membership; removing an absent number is a no-op; removing twice is removing once |
| Suppression.TenDigitEntrySuppresses | src/class/Nagazap.ts:233-238 | Blacklisting a raw 10-digit number suppresses later sends to it |
| Suppression.RawEntryMissesKey | src/class/Nagazap.ts:233-238 | Blacklisting a raw number of any other length (3 or more digits) does not suppress sends to that same number, because its key drops index 2 |
| Suppression.IsStopPhrase | src/class/Nagazap.ts:187 | Only a text as long as "parar promoções" can match the stop phrase |
| Suppression.StopPhraseIgnoresCase | src/class/Nagazap.ts:187 | A text matches the stop phrase exactly when its lower-cased form does |
| Suppression.StopPhraseExamples | src/class/Nagazap.ts:187 | "parar promoções" and "PARAR PROMOÇÕES" match the stop phrase; "parar promocoes" and the phrase with a trailing space do not |
| Forms.WireForm | src/class/Nagazap.ts:240-249 | The posted form carries the template name, language and components unchanged, and `to` is "+55" followed by the digits of the number |
| Forms.WireRecipientDigits | src/class/Nagazap.ts:234-248 | After the "+" the recipient is digits only, and the digits the provider sees are "55" followed by the queued number's digits |
| Forms.WireComponent | src/class/Nagazap.ts:287-292 | A component goes out with its type lower-cased; an image component carries exactly the shared image id, any other none |
| Forms.FormsFor | src/class/Nagazap.ts:280-295 | One form per recipient, and form i is the form built for recipient i |
| Forms.ImageOnly | src/class/Nagazap.ts:286 | The filter keeps exactly the components whose format is "IMAGE" |
| Forms.ImageOnlyDistributes | src/class/Nagazap.ts:286 | The filter keeps the image components in template order |
| Forms.BatchForms | src/class/Nagazap.ts:279-295 | `prepareBatch` throws exactly when there are recipients but no template; otherwise it builds one form per recipient |
| Forms.BatchFormsPerRecipient | src/class/Nagazap.ts:280-295 | Form i goes to recipient i and carries the template's name and language and its image components |
| Forms.ImageComponentsShape | src/class/Nagazap.ts:285-293 | Component k of a campaign form is the template's k-th image component, with its type lower-cased and exactly one parameter: the shared image id |
| Forms.NoImageNoComponents | src/class/Nagazap.ts:285-286 | A template without image components gives forms without components |
| Dispatch.PostedForm | src/class/Nagazap.ts:233-249 | A send hands nothing to the provider exactly when the recipient's key is blacklisted; otherwise it hands over the wire form |
| Dispatch.SentEntry | src/class/Nagazap.ts:251-254 | A send adds one sent entry, carrying the response data and the time, exactly when the recipient is not suppressed and the POST answered |
| Dispatch.FailedEntry | src/class/Nagazap.ts:255-258 | A send adds one failed entry, carrying the error's response data, the time and the digits-only number, exactly when the recipient is not suppressed and the POST ended in an AxiosError |
| Dispatch.SendLogsAtMostOnce | src/class/Nagazap.ts:251-262 | A suppressed send logs nothing; otherwise a response adds exactly one sent entry, an AxiosError exactly one failed entry, and any other error none |
| Dispatch.WireRecipientIsNotKey | src/class/Nagazap.ts:234-248 | An 11-digit number goes out with all 11 digits, one more than its blacklist key |
| Dispatch.Posted | src/class/Nagazap.ts:318 | A batch hands at most one form per message to the provider |
| Dispatch.SentRecords | src/class/Nagazap.ts:318 | A batch adds at most one sent entry per message, each stamped with the cycle's time |
| Dispatch.FailedRecords | src/class/Nagazap.ts:318 | A batch adds at most one failed entry per message, each naming a digits-only number |
| Dispatch.NoneSuppressedAllPosted | src/class/Nagazap.ts:233-249 | When no recipient of a batch is suppressed, every message is posted, form i being the wire form of message i |
| Dispatch.PostedExactlyUnsuppressed | src/class/Nagazap.ts:316-318 | Within a batch, every unsuppressed message's wire form is posted, and every posted form comes from an unsuppressed message |
| Dispatch.AllSuppressedSilent | src/class/Nagazap.ts:233-238 | A batch of suppressed messages posts nothing and logs nothing |
| Dispatch.BatchLogAccounting | src/class/Nagazap.ts:251-262 | A batch never logs more entries than it posted messages, and logs exactly as many when no send ended in a non-Axios error |
| Dispatch.FailuresNameBatchRecipients | src/class/Nagazap.ts:255-258 | Every failure entry is stamped with the cycle's time and names the digits of an unsuppressed message of the batch |
| Cycle.NewOven | src/class/Nagazap.ts:82-91 | A new account is paused, with batch size 20, frequency "60000", lastMessageTime "", and empty stack, blacklist and logs |
| Cycle.LastTime | src/class/Nagazap.ts:116 | The stored stamp read as a number, with the empty stamp standing for 0; a stamp of digits reads as a non-negative number |
| Cycle.IsDue | src/class/Nagazap.ts:114-118 | A due account has messages queued, is not paused, has a numeric frequency and a numeric stamp, and now is at least stamp + frequency |
| Cycle.IdleNeverDue | src/class/Nagazap.ts:114-118 | A paused account, or one with an empty stack, is never due |
| Cycle.DueIsMonotone | src/class/Nagazap.ts:118 | An account that is due stays due as the clock advances |
| Cycle.DueExactlyAfterFrequency | src/class/Nagazap.ts:116-118 | After a cycle stamped at t, an active account with a non-empty stack and a numeric frequency f is due exactly when now >= t + f |
| Cycle.DefaultFrequencyThreshold | src/class/Nagazap.ts:116-118 | With frequency "60000", nothing fires at t + 59999 and a cycle fires at t + 60000 |
| Cycle.NaNFrequencyNeverDue | src/class/Nagazap.ts:118 | A frequency that is NaN to `Number` means the account is never baked |
| Cycle.Batch | src/class/Nagazap.ts:317 | The batch is a prefix of the stack, of exactly `batchSize` messages when 0 <= batchSize <= stack length |
| Cycle.Rest | src/class/Nagazap.ts:320 | What stays queued is the stack after the batch: exactly the messages the batch did not take |
| Cycle.BatchIsPrefix | src/class/Nagazap.ts:317-320 | The batch plus the remaining stack is the old stack, and for batchSize >= 0 the batch has min(batchSize, stack length) messages |
| Cycle.AfterBake | src/class/Nagazap.ts:316-322 | After a cycle the old stack is the batch followed by the new stack; the logs only grow; `lastMessageTime` is the time the sends settled; the blacklist and the settings are kept |
| Cycle.BakeEffect | src/class/Nagazap.ts:251-262 | A cycle never logs more entries than it posted messages, and exactly as many when no send ended in a non-Axios error |
| Cycle.BakeMakesProgress | src/class/Nagazap.ts:317-320 | With batchSize >= 1, a cycle on a non-empty stack makes the stack shorter |
| Cycle.NoSecondCycleWithinFrequency | src/class/Nagazap.ts:307-311 | After a cycle whose sends settled at `finished`, the account is not due again before `finished + frequency` |
| Cycle.NextCycleDueAt | src/class/Nagazap.ts:118 | When messages remain after a cycle that settled at `finished`, an active account with numeric frequency f is due again exactly from `finished + f` on |
| Cycle.TakenIsMin | src/class/Nagazap.ts:317-320 | k cycles of batch size b take min(k * b, stack length) messages |
| Cycle.CyclesDrainInOrder | src/class/Nagazap.ts:316-322 | k successive cycles attempt exactly the first messages of the stack, in queue order, and leave the rest |
| Cycle.EnoughCyclesEmptyStack | src/class/Nagazap.ts:316-322 | Once k * b reaches the stack length, k cycles have attempted every queued message and the stack is empty |
| Cycle.EnqueueKeepsNextBatch | src/class/Nagazap.ts:265-277 | Appending to a stack that already holds a full batch changes neither the next batch nor the order of what remains |
| Cycle.BatchOfTwoFromFive | src/class/Nagazap.ts:317-320 | With batch size 2 and stack [m1..m5], the batch is [m1, m2] and [m3, m4, m5] remain |
| Cycle.OneCycleOfTwo | src/class/Nagazap.ts:316-322 | With batch size 2 and five messages, one cycle keeps the last three, stamps the time its sends settled, and logs only for the first two |
| Accounts.Nagazap.constructor | src/class/Nagazap.ts:73-98 | `Nagazap.new` stores the credentials and creates the oven with its defaults |
| Accounts.Nagazap.AddToBlacklist | src/class/Nagazap.ts:193-199 | Only the blacklist changes: the number is appended unless already present, and a duplicate-free blacklist stays duplicate-free |
| Accounts.Nagazap.RemoveFromBlacklist | src/class/Nagazap.ts:201-207 | Only the blacklist changes: it is unchanged when the number is absent, otherwise every occurrence is removed; it stays duplicate-free |
| Accounts.Nagazap.SaveMessage | src/class/Nagazap.ts:175-191 | An inbound text equal to the stop phrase, ignoring case, blacklists the sender; any other text changes nothing in the oven |
| Accounts.Nagazap.Log | src/class/Nagazap.ts:342-345 | Appends exactly one `{timestamp, data}` entry to `sentMessages` and changes nothing else |
| Accounts.Nagazap.ErrorLog | src/class/Nagazap.ts:347-350 | Appends exactly one `{timestamp, data, number}` entry to `failedMessages` and changes nothing else |
| Accounts.Nagazap.SendMessage | src/class/Nagazap.ts:233-263 | Returns the form handed to the provider (none when suppressed); only the two logs change, each by at most the one entry the outcome selects |
| Accounts.Nagazap.QueueMessage | src/class/Nagazap.ts:265-270 | The new stack is the old stack followed by the message, and the method returns it; nothing else changes |
| Accounts.Nagazap.QueueBatch | src/class/Nagazap.ts:272-277 | The new stack is the old stack followed by the messages in order, and the method returns it; nothing else changes |
| Accounts.Nagazap.PrepareBatch | src/class/Nagazap.ts:279-298 | Queues the campaign's forms after the existing stack; when there are recipients but no template it throws and queues nothing |
| Accounts.Nagazap.ClearOven | src/class/Nagazap.ts:336-340 | Empties the stack and changes nothing else |
| Accounts.Nagazap.UpdateOvenSettings | src/class/Nagazap.ts:300-305 | Sets the batch size and the frequency that are given and keeps the ones that are not |
| Accounts.Nagazap.Pause | src/class/Nagazap.ts:324-328 | Sets `paused` and changes nothing else |
| Accounts.Nagazap.Start | src/class/Nagazap.ts:330-334 | Clears `paused` and changes nothing else |
| Accounts.Nagazap.SaveStack | src/class/Nagazap.ts:307-314 | Stamps `lastMessageTime` with the current time and changes nothing else |
| Accounts.Nagazap.SendBatch | src/class/Nagazap.ts:317-318 | Returns exactly the forms of the batch's unsuppressed messages, in queue order; the logs grow by the batch's records; the stack, the blacklist and the settings are unchanged |
| Accounts.Nagazap.Bake | src/class/Nagazap.ts:316-322 | The new oven is `AfterBake` of the old one: the batch prefix is sent, its outcomes are logged in queue order, the prefix is dropped, and the time the sends settled is stamped; it returns the forms posted |
| Accounts.EvaluateAccount | src/class/Nagazap.ts:113-124 | One account of the tick fires exactly when its evaluation does not throw and it was due; it is then baked with its settle time stamped, and otherwise left unchanged |
| Accounts.ShouldBake | src/class/Nagazap.ts:110-128 | Every account is evaluated in listing order; an account bakes exactly when its evaluation does not throw and it is due, and is stamped with the time its own sends settled; any other account is left unchanged |
| ChatIds.GetNumbers | src/rest/nagazap.ts:12-18 | Always exactly two ids; the first is "55" + original + "@c.us"; both begin with "55" |
| ChatIds.SecondDropsFifthChar | src/rest/nagazap.ts:13-16 | For every original, the second id is the first without its fifth character, so it is one character shorter |
| ChatIds.SecondDropsThirdOfOriginal | src/rest/nagazap.ts:15-16 | For an original of 3 or more characters, the second id is "55" + original[..2] + original[3..] + "@c.us" |
| ChatIds.IdsCarryBlacklistKey | src/rest/nagazap.ts:13-16 | The second id of an 11-digit number, and the first id of a 10-digit number, carry that number's blacklist key |

## Left out

- Record-store persistence is not modelled. Every `prisma` read and write is a no-op, and so is the JSON blob encoding of the stack, blacklist and logs. A failed write is not modelled either.
- The provider HTTP calls (`getInfo`, `getTemplates`, `uploadMedia` and the POST in `sendMessage`) are foreign network calls. The POST is replaced by the `SendOutcome` parameter. `buildHeaders` and the bearer token header are not modelled.
- `emit` publishes to socket.io and holds no state. It is left out.
- The `console.log` calls in `sendMessage`, `addToBlacklist`, `removeFromBlacklist` and `getTemplates`, and the logging of caught errors in `shouldBake`, write to the console only and are left out.
- The timer is left out: `initialize`, `setInterval` and `new Date()`. A tick is one call of `ShouldBake` with `now` as a parameter, and the time each account's sends settled is the parameter `finishedAt(i)`. The model does not relate `finishedAt(i)` to `now`. All log entries of a cycle carry the tick's `now`, whereas the source stamps each entry when its response arrives.
- `Promise.all` in `bake` runs the sends concurrently. The model sends in queue order, so log entries appear in queue order; the source appends them in completion order.
- The tick does not await `bake`, and nothing stops two cycles of one account from overlapping. Overlapping cycles, and edits racing with a running cycle, are not modelled.
- Accounts.ShouldBake: the model does not say which exceptions can arise. `evaluationFails(i)` stands for an exception thrown while account i is evaluated. A rejected `bake` promise is not caught by the source's try/catch and is not modelled.
- JsBuiltins.JsNumber: the model treats whitespace, decimals, exponents, hexadecimal and "Infinity" as NaN. `Number()` reads them as numbers. The model also ignores the range limit of `Date`.
- JsBuiltins.LowerCase: only ASCII and Latin-1 letters are lower-cased. Other Unicode case mappings are not modelled.
- `getNumbers` receives a string in the model. The numeric argument the source also accepts is not modelled.
- Accounts.Nagazap.SaveMessage: only the stop-phrase branch is modelled. Storing the inbound message, its timestamp conversion and the returned record belong to persistence.
- `getAll`, `getByUserId`, `getMessages` and `updateToken` are left out. They load accounts or edit credentials and are not part of the oven. The credentials are constants of the class.
- The Express route handlers in `src/rest/nagazap.ts` only map requests to responses and are left out. So are the browser-session handlers in `src/rest/washima/`.
