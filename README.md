# wahlin-notifier-bot, modelled in Dafny

The Telegram bot in `src/index.ts` tells a few authorised users when new listings (apartments,
storage units, parking spaces) appear in the Wåhlin catalog. It avoids both duplicate
notifications and refetching detail pages. The core of the bot is:

- three module-level maps:
  - `objects_per_chat` holds the links each chat has seen;
  - `references_in_chats` holds the chats that hold each link;
  - `objects` holds the cached detail record of each link;
- one lazily launched puppeteer browser that every chat shares. It is closed once no record is
  cached;
- the fetch-and-publish loop run by `/apartments`, `/storage`, `/parking` and the poll job;
- `/clear` and the daily reset job, which empty a chat's seen set and tear the browser down.

The model has these parts:

- `Types`: the entities. These are chats, links, listing records, messages, and the calls the bot
  makes into Telegram and the browser.
- `Text`: every text the bot sends and how it is formatted:
  - the summary `sendPreview` sends;
  - the `clearObjects` reply;
  - the refusal;
  - the holiday notice;
  - the photo caption built by `caption`;
  - the decimal rendering of numbers (`"" + msg.from.id`, `${n}`);
  - the `split(",")` of the `PARENTS` variable.
- `Auth`: `isFromParent`, over the allow-list that `PARENTS` yields.
- `Cache`: the three maps as one value `Store`. It has the get-or-create accessors, `putObject`,
  `clearObject`, clearing a chat, and the browser-teardown reset. It also states the invariant the
  maps keep. A chat holds a link exactly when the link is in that chat's seen set. A record is
  cached exactly when some chat holds its link.
- `Notifier`: each command and each scheduled job as a function. It takes the cache, the browser
  state and the outcomes of the external calls. It returns the new cache, the new browser state,
  the calls made in order, and what the command throws.
- `Bot`: the class `NotifierBot`. Its fields are the module-level variables of `src/index.ts`, and
  its methods are the functions of the file:
  - the methods change the fields step by step as the TypeScript does;
  - the loops in `fetchAndPublishObjects` and `clearObjects` are loops here too;
  - each method is proved to leave exactly the state and the call trace that its `Notifier`
    function describes. The properties proved about those functions also hold for the class.

External effects are not performed. Each one is recorded as an attempted `Call` appended to the
bot's `calls` trace. The bot's decisions depend on whether an external call succeeds, and on what
it returns. These are inputs of type `Outcomes`:

- the browser launch;
- the catalog listing;
- the summary send;
- the detail fetch and the photo send of the listing at each position;
- the browser close.

The `Outcomes` type holds these inputs. The holiday calendar's answer for today is an input too.

## Model

| member | source | states |
|---|---|---|
| Text.NatToString | src/index.ts:89 | the decimal form of a count is non-empty, all digits, and has no leading zero |
| Text.ParseNatToString | src/index.ts:89 | reading the decimal form back gives the number |
| Text.NatToStringInjective | src/index.ts:89 | different counts have different decimal forms |
| Text.IntToString | src/index.ts:67 | `"" + msg.from.id` is non-empty, all digits for a non-negative id, and starts with `-` for a negative one |
| Text.IntToStringInjective | src/index.ts:67 | different user ids have different string forms, so the allow-list check cannot confuse two users |
| Text.PreviewTextInjective | src/index.ts:79-91 | the summary names the count unambiguously: different numbers of new links give different texts, across the none, singular and plural wordings |
| Text.PreviewTextTwoThree | src/index.ts:88-89 | the plural wording written out for two and three new links |
| Text.ClearedTextInjective | src/index.ts:133 | the `/clear` reply names the number of cleared links unambiguously |
| Text.PreviewText | src/index.ts:83-90 | the summary for a count of new links. `Text.PreviewTextInjective` proves that it determines the count, and `Text.PreviewTextTwoThree` writes out the plural wording |
| Text.ClearedText | src/index.ts:133 | the `/clear` reply for a count. `Text.ClearedTextInjective` proves that it determines the count |
| Text.HolidayText | src/index.ts:234 | the holiday notice quotes the holiday's name at a fixed offset |
| Text.Split | src/index.ts:11 | `split` always yields at least one piece |
| Text.SplitNoSeparator | src/index.ts:11 | a string without the separator splits into itself alone |
| Text.SplitAtSeparator | src/index.ts:11 | splitting at the first separator yields the part before it, then the split of the rest |
| Text.SplitJoin | src/index.ts:76 | `join` then `split` gives back the lines, if no line contains the separator |
| Text.FactLines | src/index.ts:74 | one caption line per fact, in order, each formatted as `*key:* value` |
| Text.CaptionReadsBack | src/index.ts:72-77 | a caption whose fields are single lines splits back into the name, then one line per fact in order, then the link line |
| Text.Caption | src/index.ts:72-77 | the photo caption: the name, one line per fact, the link line, joined by newlines. `Text.FactLines` fixes the fact lines, and `Text.CaptionReadsBack` proves the caption splits back into its parts |
| Auth.IndexOf | src/index.ts:67 | `indexOf` is -1 exactly when the value is absent; otherwise it is the first position holding the value |
| Auth.Parents | src/index.ts:11 | the allow-list is the `PARENTS` variable split at commas, or `""` split when it is unset. `Auth.UnconfiguredRefusesAll` shows that the unset or empty variable admits nobody, and `Auth.GateIsExact` that a single id admits exactly that user |
| Auth.IsFromParent | src/index.ts:65-70 | a message is from a parent if and only if it has a sender whose id, as a string, is on the allow-list |
| Auth.UnconfiguredRefusesAll | src/index.ts:65-70 | with `PARENTS` unset or empty (line 11) the allow-list is `[""]`, and every message is refused, including one without a sender |
| Auth.GateIsExact | src/index.ts:65-70 | with a single id on the allow-list, exactly that user passes |
| Cache.TouchChat | src/index.ts:174-183 | the get-or-create lookup adds the chat to the map's keys and changes no chat's seen set, no link's holders and no record |
| Cache.TouchChatPreservesInv | src/index.ts:174-183 | the get-or-create lookup keeps the cache invariant |
| Cache.Has | src/index.ts:144-147 | what `hasObject` answers: the link is in the chat's seen set. `Cache.Put`, `Cache.ClearOne` and `Cache.ClearChatSpec` state how each update changes it, and `Cache.PutIsolation` that one chat's put leaves it unchanged for every other chat |
| Cache.Get | src/index.ts:160-162 | what `getObject` answers: the cached record, whichever chat asks. `Cache.PutIsolation` proves that another chat's put makes the record visible, and `Cache.ClearOneKeepsShared` that a record another chat has seen survives a clear |
| Cache.Put | src/index.ts:149-158 | after `putObject` the chat has seen the link, the chat holds the link, and the record is cached under it. The chat's seen set and the link's holders each grow by exactly that element |
| Cache.PutFrame | src/index.ts:149-158 | `putObject` leaves every other chat's seen set unchanged, and every other link's holders and record unchanged |
| Cache.PutIdempotent | src/index.ts:149-158 | putting the same record twice is the same as putting it once |
| Cache.PutPreservesInv | src/index.ts:149-158 | `putObject` keeps the cache invariant |
| Cache.PutIsolation | src/index.ts:149-158 | a put by one chat does not change what another chat has seen; the shared record is visible to all chats |
| Cache.ClearOne | src/index.ts:164-172 | after `clearObject`: the chat no longer sees the link and no longer holds it; the link's record stays exactly when it was cached and some other chat still holds it, and a kept record is unchanged |
| Cache.ClearOneFrame | src/index.ts:164-172 | `clearObject` leaves every other chat's seen set unchanged, and every other link's holders and record unchanged |
| Cache.ClearOnePreservesInv | src/index.ts:164-172 | `clearObject` keeps the cache invariant |
| Cache.ClearOneEvictsIffUnshared | src/index.ts:167-171 | under the invariant, clearing evicts a cached record if and only if no other chat has seen the link |
| Cache.ClearOneKeepsShared | src/index.ts:167-171 | a record that another chat has seen survives the clear, unchanged |
| Cache.ClearLinksNone | src/index.ts:131 | clearing no links changes nothing |
| Cache.ClearLinksStep | src/index.ts:131 | clearing the links one at a time, in any order, adds up to clearing the whole set |
| Cache.ClearChat | src/index.ts:129-132 | after the `forEach` of `clearObject` and the `clear()`, the chat's seen set is empty and its key remains |
| Cache.ClearChatSpec | src/index.ts:129-132 | clearing a chat changes no other chat's seen set. Each link the chat had seen loses only that chat as a holder. A record is evicted exactly when the chat had seen it and held it alone. The records kept are unchanged |
| Cache.ClearChatPreservesInv | src/index.ts:129-132 | clearing a chat keeps the cache invariant |
| Cache.ClearReleasesOnlyOwned | src/index.ts:164-172 | a link two chats hold stays cached, still seen by the other chat, after one chat clears; it is evicted once both have cleared |
| Cache.ResetKeepsView | src/index.ts:136-141 | with no record cached, the reset is invisible: every seen set and holder set reads as before, and the invariant holds |
| Notifier.NewLinks | src/index.ts:102 | the filtered links are no more than the listed ones, and none of them has been seen by the chat; if the chat has seen none of the listed links, all of them are kept |
| Notifier.NewLinksExact | src/index.ts:102 | a listing is kept by the filter if and only if it is listed and its link has not been seen by the chat |
| Notifier.NewLinksCounts | src/index.ts:102 | the filter keeps each unseen link exactly as many times as it is listed and drops every seen one, so the summary counts a repeated listing once per occurrence |
| Notifier.NewLinksNoneWhenAllSeen | src/index.ts:102 | when the chat has seen every listed link, nothing is new |
| Notifier.Step | src/index.ts:105-122 | one iteration changes no other chat's seen set, only adds to this chat's, and keeps every cached record. It only fetches or sends to this chat, and it fetches only the current link, and only when that link is neither cached nor seen |
| Notifier.StepPreservesInv | src/index.ts:105-122 | one iteration keeps the cache invariant |
| Notifier.StepContainment | src/index.ts:105-122 | for an unseen link: a failed fetch leaves the cache as it was and sends exactly the bare link. A cached or fetched record is put, then its photo is sent; the fetch happens only when nothing is cached, and the bare link follows only when the photo send fails |
| Notifier.StepSkipsSeen | src/index.ts:105 | a link the chat has already seen is skipped: no fetch, no put, no send |
| Notifier.Deliver | src/index.ts:111-120 | the put and the photo send for a record, with the bare link after a failed send. `Notifier.StepContainment` states what it leaves and sends |
| Notifier.Admit | src/index.ts:106-121 | an unseen link: reuse the cached record, or fetch it and fall back to the bare link when the fetch fails. `Notifier.StepContainment` proves the fetch happens only when nothing is cached, and that a failed fetch leaves the cache unchanged |
| Notifier.Walk | src/index.ts:104-123 | the loop changes no other chat's seen set, only adds to this chat's, keeps every cached record, only fetches or sends to this chat, and afterwards the chat has seen every link whose record was cached or fetched |
| Notifier.WalkPreservesInv | src/index.ts:104-123 | the whole loop keeps the cache invariant |
| Notifier.WalkExtends | src/index.ts:104-123 | the calls of the first i iterations are a prefix of the calls of any longer run: an iteration only appends calls |
| Notifier.WalkDelivers | src/index.ts:104-123 | a failing iteration never cuts the loop short: every listed link the chat has not seen when its turn comes gets its photo sent, or its bare link when neither the cache nor the fetch gives a record, and that call is in every longer run of the loop |
| Notifier.CachedNeverFetched | src/index.ts:107-110 | the loop fetches a detail page only for a listed link that was neither cached nor seen by the chat when the run began: a record another chat has cached is reused, never refetched |
| Notifier.AllSeenIsQuiet | src/index.ts:104-105 | when the chat has seen every listed link, the loop makes no call and only creates the chat's seen set |
| Notifier.LoopLeavesBrowser | src/index.ts:104-123 | the loop never launches or closes the browser |
| Notifier.Filtered | src/index.ts:102 | the cache after the filter: the `hasObject` calls create the chat's seen set when the listing is non-empty. `Cache.TouchChat` shows that it changes no seen set, holder set or record |
| Notifier.PublishListing | src/index.ts:102-123 | the filter, one summary, then the loop; a failed summary send aborts before the loop. `Notifier.PublishRunSummary` and `Notifier.PublishRunAllSeen` state its calls |
| Notifier.PublishRun | src/index.ts:93-124 | `fetchAndPublishObjects`. `Notifier.PublishRunLaunch`, `Notifier.PublishRunKeeps`, `Notifier.PublishRunSummary`, `Notifier.RerunIsQuiet` and `Notifier.CachedNeverFetched` carry its properties |
| Notifier.PublishRunLaunch | src/index.ts:97-99 | the browser is launched if and only if it was not live, a run never closes it, and afterwards it is live unless the launch failed |
| Notifier.PublishRunKeeps | src/index.ts:93-124 | a run keeps the cache invariant, changes no other chat's seen set, and only adds to this chat's |
| Notifier.PublishRunKeepsInv | src/index.ts:93-124 | a run keeps the cache invariant |
| Notifier.PublishRunSummary | src/index.ts:100-104 | after the optional launch comes the listing, and the call after the listing is the summary, counting the listed links the chat had not seen. Every listed link that was seen, cached or fetched is seen afterwards |
| Notifier.PublishRunAllSeen | src/index.ts:100-105 | when every listed link is already seen, a run with a live browser sends only "Found no new objects." and changes nothing |
| Notifier.RerunIsQuiet | src/index.ts:93-124 | after a run whose fetches all succeed, the same listing run again sends only "Found no new objects." and changes nothing: no duplicate notification |
| Notifier.WalkRepeatedLink | src/index.ts:104-111 | a link listed twice is fetched and sent once: the second occurrence is skipped because the first iteration's put marked it seen |
| Notifier.DuplicateCountedOnceDelivered | src/index.ts:102-111 | a link listed twice is counted twice by the summary ("Found 2 new objects."), yet fetched and sent once |
| Notifier.PutKeepsOthersFresh | src/index.ts:111 | putting one link leaves every other unseen and uncached link unseen and uncached |
| Notifier.WalkMiddleFailure | src/index.ts:104-123 | three links, each unseen by the chat and uncached, whose second fetch fails: photo, bare link, photo; the first and third are seen afterwards, the second is not |
| Notifier.PublishFromEmpty | src/index.ts:93-124 | from the empty cache with a live browser, a run sends the listing call, a summary that counts every listed link, then the loop |
| Notifier.MiddleFailureContained | src/index.ts:93-124 | a whole run over three new listings whose second fetch fails, written out call by call: the failing item degrades to its bare link and the batch goes on |
| Notifier.ClearedEmptyIffNoOtherHolder | src/index.ts:129-136 | under the invariant, clearing a chat leaves the record cache empty if and only if no other chat has seen anything |
| Notifier.ClearRun | src/index.ts:126-142 | `clearObjects`. `Notifier.ClearRunClears`, `Notifier.ClearRunKeepsInv`, `Notifier.ClearRunCloses` and `Notifier.ClearRunTeardown` carry its properties |
| Notifier.Teardown | src/index.ts:136-141 | the browser teardown after a clear. `Notifier.ClearRunCloses` proves that it closes exactly when the browser is live and nothing is cached, and `Notifier.ClearRunTeardown` what a failed close leaves |
| Notifier.ClearRunClears | src/index.ts:126-142 | `/clear` first replies with the number of links the chat had seen. The chat's seen set is empty afterwards, no other chat's changes, and the invariant holds |
| Notifier.ClearRunKeepsInv | src/index.ts:126-142 | `clearObjects` keeps the cache invariant |
| Notifier.ClearRunCloses | src/index.ts:136-137 | under the invariant, `clearObjects` closes the browser if and only if it was live and no other chat has seen anything |
| Notifier.ClearRunTeardown | src/index.ts:136-141 | the browser is gone afterwards exactly when it was already absent or it was closed successfully; after a successful close both index maps are empty |
| Notifier.CommandRun | src/index.ts:34-43 | the command each handler hands to `execute`: a publish run for a category, or a clear. Its properties are those of `Notifier.PublishRun` and `Notifier.ClearRun` |
| Notifier.ExecuteRun | src/index.ts:45-63 | `execute`. `Notifier.ExecuteGate` proves that only parents run commands and that a thrown error becomes a reply |
| Notifier.ExecuteGate | src/index.ts:45-63 | a sender who is not a parent gets only the refusal and nothing else changes; a message without a sender is refused. For a parent the command runs, and a thrown error is reported to the chat; `execute` ends `Done` when its reply is delivered |
| Notifier.IsSwedishHoliday | src/index.ts:196-202 | only a public holiday counts, and it yields its name. `Notifier.HolidaySuppression` uses it |
| Notifier.PollRun | src/index.ts:204-214 | the poll job. `Notifier.HolidaySuppression` proves that it does nothing on a public holiday and is the publish run for the operator chat otherwise |
| Notifier.ResetRun | src/index.ts:216-224 | the reset job. `Notifier.HolidaySuppression` proves that it does nothing on a public holiday and is the clear of the operator chat otherwise |
| Notifier.HolidayNoticeRun | src/index.ts:227-237 | the notice job. `Notifier.HolidaySuppression` proves that it sends one notice naming the holiday on a public holiday, and nothing otherwise |
| Notifier.HolidaySuppression | src/index.ts:196-241 | on a public holiday the poll and reset jobs do nothing, and the notice job sends one message to the operator chat naming the holiday. On any other day the poll job calls `fetchAndPublishObjects` for the operator chat and the reset job calls `clearObjects` for it, directly: there is no parent check and no error reply. The notice job sends nothing |
| Bot.NotifierBot.constructor | src/index.ts:10-28 | the bot starts with empty maps and no browser, the allow-list split from `PARENTS`, and the operator chat from `CHAT_ID` or `""` |
| Bot.NotifierBot.GetObjectLinks | src/index.ts:174-183 | returns the chat's seen set, and creates an empty one under the chat's key when there was none |
| Bot.NotifierBot.GetReferences | src/index.ts:185-194 | returns the link's holders, and creates an empty set under the link when there was none |
| Bot.NotifierBot.HasObject | src/index.ts:144-147 | answers whether the chat has seen the link, and leaves the state as the get-or-create lookup does |
| Bot.NotifierBot.GetObject | src/index.ts:160-162 | returns the cached record when there is one, and changes nothing |
| Bot.NotifierBot.PutObject | src/index.ts:149-158 | leaves the maps as `Cache.Put` says |
| Bot.NotifierBot.ClearObject | src/index.ts:164-172 | leaves the maps as `Cache.ClearOne` says |
| Bot.NotifierBot.ForgetLink | src/index.ts:166 | drops the link from the chat's seen set, creating the set if needed |
| Bot.NotifierBot.ReleaseLink | src/index.ts:167-171 | drops the chat from the link's holders, and evicts the record when no holder is left |
| Bot.NotifierBot.ClearEach | src/index.ts:131 | the `forEach` over the seen set leaves the maps as clearing those links one by one does, in any order |
| Bot.NotifierBot.ClearSeen | src/index.ts:128-132 | returns the size of the chat's seen set before clearing, and leaves the maps as `Cache.ClearChat` says |
| Bot.NotifierBot.CloseIfEmpty | src/index.ts:136-141 | when no record is cached and the browser is live, attempts the close. On success it forgets the browser and empties both index maps; on failure it throws and changes nothing else |
| Bot.NotifierBot.ClearObjects | src/index.ts:126-142 | leaves the state, the browser and the calls as `Notifier.ClearRun` says, and keeps the invariant |
| Bot.NotifierBot.NewLinksOf | src/index.ts:102 | returns the filtered links, and leaves the state as the `hasObject` calls of the filter do |
| Bot.NotifierBot.SendPreview | src/index.ts:79-91 | sends exactly one summary for the number of new links, and passes on its outcome |
| Bot.NotifierBot.PublishOne | src/index.ts:105-122 | one pass of the loop leaves the state and the calls as `Notifier.Step` says |
| Bot.NotifierBot.PublishUnseen | src/index.ts:106-121 | for an unseen link, reuses the cached record or fetches it, then puts it and sends the photo; the bare link is sent when the fetch or the send throws |
| Bot.NotifierBot.PublishLoop | src/index.ts:104-123 | the loop leaves the state and the calls as `Notifier.Walk` says |
| Bot.NotifierBot.PublishListed | src/index.ts:102-123 | the filter, the summary and the loop. A failed summary send aborts the run before the loop |
| Bot.NotifierBot.FetchAndPublishObjects | src/index.ts:93-124 | leaves the state, the browser and the calls as `Notifier.PublishRun` says, and keeps the invariant |
| Bot.NotifierBot.Execute | src/index.ts:45-63 | leaves the state, the browser and the calls as `Notifier.ExecuteRun` says, and keeps the invariant |
| Bot.NotifierBot.RunCommand | src/index.ts:34-43 | runs the command named by the handler, and does what `Notifier.CommandRun` says |
| Bot.NotifierBot.PollTrigger | src/index.ts:204-215 | the poll job does what `Notifier.PollRun` says, and keeps the invariant |
| Bot.NotifierBot.ResetTrigger | src/index.ts:216-226 | the reset job does what `Notifier.ResetRun` says, and keeps the invariant |
| Bot.NotifierBot.HolidayNoticeTrigger | src/index.ts:227-241 | the notice job appends what `Notifier.HolidayNoticeRun` says and changes nothing else |

## Left out

- Telegram, puppeteer and the `wahlin` scraper are not part of this model, and the model makes no
  external call. Each call is recorded as an attempt in the `calls` trace. What the calls return,
  or whether they throw, is an input (`Outcomes`).
- Message options are left out: `reply_markup`, `reply_to_message_id` and `parse_mode: "Markdown"`.
  The model keeps only the chat and the text, or the photo and the caption.
- Sends whose failure changes no state of the bot are taken as delivered; only their attempt is
  recorded. These are the refusal, the error report, the `/clear` reply, the holiday notice and the
  fallback link. Only the fallback link's failure is swallowed, by `.catch` (src/index.ts:118-120).
  When the refusal or the error report fails (src/index.ts:54, 59), `execute` rejects and the
  `onText` handler (src/index.ts:34-43) leaves that rejection unhandled. The `/clear` reply and the
  holiday notice (src/index.ts:133, 232) are neither awaited nor caught, so their failure is an
  unhandled rejection too. The model does not represent these rejections.
- Concurrency is left out: runs that interleave at their `await`s. A run here is one atomic step
  on the state. There is also no single-flight browser launch. The code does not provide one
  either: two overlapping runs that both find `browser` undefined each launch a browser.
- How `bot.onText` matches commands is left out (src/index.ts:34-43). It is a regular-expression
  match anywhere in the text, and a message matching several patterns starts several commands.
  The model receives the matched command directly.
- The cron schedules and the time zone are left out (src/index.ts:206, 217, 228, 214). The model
  has one trigger method per job, and the holiday calendar's answer for today is an input.
- `TOKEN` and `PUPPETEER_EXECUTABLE` are left out (src/index.ts:10, 13). They only configure the
  external libraries.
- The JavaScript `Set` objects are not aliased; each mutation of a stored set is an update of its
  map entry here. The code has two aliases:
  - `getObjectLinks` and `getReferences` (src/index.ts:174-194) return the stored set, and
    `putObject` (src/index.ts:155-156) and `clearObject` (src/index.ts:166-168) mutate it in place.
    A value of the model is what the stored set then holds, so nothing is lost.
  - `clearObjects` runs `forEach` over the chat's seen set (src/index.ts:131), and each
    `clearObject` deletes from that same set (src/index.ts:166). The model visits a snapshot of
    the set. This is equivalent, because a JavaScript `Set.forEach` visits every element present
    when it starts unless it is deleted before its turn, and each `clearObject` deletes only the
    element being visited.
- Errors in the scheduled jobs are left out. The poll and reset jobs call `fetchAndPublishObjects`
  and `clearObjects` without `await` or `catch` (src/index.ts:209, 220), so an error they throw is
  an unhandled promise rejection. `Bot.NotifierBot.PollTrigger` and
  `Bot.NotifierBot.ResetTrigger` drop that status; the calls made before it are still recorded.
- `Text.IntToString` renders every integer id in plain decimal. JavaScript's `"" + id` does so for
  a number only below 10^21 in magnitude, and a number is an exact integer only up to 2^53.
  Telegram user ids fit in 52 bits, so both limits lie outside the ids that occur.
- The seen set is visited in an arbitrary order rather than insertion order. This does not affect
  the result, because each `clearObject` call removes only its own link (`Cache.ClearLinksStep`,
  `Bot.NotifierBot.ClearEach`).

## Behaviour worth noting

The model follows `src/index.ts` in each of these cases.

- Failed browser close: when `browser.close()` throws in `clearObjects`, the browser stays set and
  the index maps are not cleared (`Notifier.ClearRunTeardown`). For `/clear` the error reaches
  `execute`, which replies with it; for the reset job it is an unhandled rejection.
- Failed photo send: it is followed by the bare-link fallback, like a failed fetch
  (`Bot.NotifierBot.PublishUnseen`). The put before the send is not undone.
- Failed summary send: the code awaits it, so a failure aborts the run before the loop
  (`Notifier.PublishListing`, `Bot.NotifierBot.PublishListed`).
- Overwriting a record: `putObject` always overwrites the cached record, as `objects.set` does
  (`Cache.Put`). A record is fetched only after `getObject` found none, so this never replaces a
  different record within one run.
