# klaus-gateway: verified model

A Dafny model of the parts of klaus-gateway where several writers meet on shared
state, and of its streaming and text algorithms, with proofs of what they keep.
`dafny verify dfyconfig.toml` checks all of it.

## What is modelled

**Refresh-token rotation across gateway processes** (`pkg/auth/musterlink`).
`RefreshProtocol` is the step machine: any number of processes, one person, one
store, one muster (a rotated token presented again revokes the family, section
4.14.2 of RFC 9700; the refresh request is section 6 of RFC 6749) and one clock.
A step is one atomic section of the code: what runs under the links mutex, inside
one `Store.Update` closure, or at muster. `RefreshSafety` has the inductive
invariant, `RefreshRuns` the theorems over whole runs, `RefreshLedger` where every
token goes and upon what it is given up, `Staleness` how old a link served without the
store can be, and `RefreshScenarios` the runs that do not keep what the comments
promise. `LinkManager.Linker` is the code again, as methods over the `links` map; each
section it executes is checked to be a step of the machine, with anything other
processes, other users' turns and the clock may do between two sections. It counts what
stood in its way, so that each answer comes with its reason. The assumptions about the world are built into
the steps and named there: muster's tokens are fresh, a store operation that fails
has not landed, a request without an answer had no effect at muster, deletes of a
link whose newest token is at stake succeed, and a process does not die between
muster's answer and its recording. The one assumption on time is the predicate
`RefreshSafety.Timely`. `RefreshRuns.LapseReplays` shows it is exact: every state
of the invariant that breaks it has a continuation with a replay. `LeaseTiming` derives
it from bounds on the parts of the work under a lease.

**The link store on one Kubernetes Secret** (`SecretStore`): the optimistic
read-modify-write loop refines the in-memory store's one-step update, between any
writes of others.

**A thread's row** (`ThreadRow`, `ThreadLives`, `ThreadFacade`): every writer of the
row as a closure run by the routing store's atomic per-key update, the row's
invariant over all histories of writes, and thread lives.

**Shares of a session** (`ShareProtocol`, `RowShares`, `ShareFacade`, `ShareAnswers`):
collaborator turns that mint, race, store and revoke shares, over every interleaving
with one another and with the row's other writers. What the turns hold at any moment is
in the machine; `ShareFacade.Sharing` is the code of `shareFor` over it, and
`ShareAnswers` says when a turn uses a share, mints one or is turned away.

**Reply streaming** (`Streaming`, `EventMapper`, `Turns`, `LateJoin`, `Continuation`,
`Replies`, `Asides`): artifact updates rendered as deltas, the mapping of events, one
turn's pump with its record in the row and its second attempt, and the continuation of a
reply over restarts. `Replies` puts them together: what a listener reads of a turn is the
finished task's answer, in one process, resubscribed, and over restarts; `LateJoin` is
what a tracker that joined late leaves of a finished task, and `Asides` what a listener
gets beside the answer: tools, narration, usage and how the turn ended.
Text is a sequence of bytes here, so rune boundaries matter as they do in the code.

**Algorithms**: `Markdown` and `MarkdownSplitter` (fence state machine under a byte
budget), `Watcher` (counting refusals over failing reads), `ContextId`
(length-prefixed encoding), `Escape` (escape, unescape and cut, on runes).

The method bodies follow the Go functions they name. Where Go code works in place,
the class has the same fields; `Meanwhile`, `Interleave` and the other methods with
an empty body stand for what others may do at that point, and callers know of them
only what their contracts say. `*` stands for a result of the network, the store or
the controller.

Where the code and its comments differ the model follows the code:

- `pkg/auth/musterlink/links.go:54-57` says an entry of a sign-in has no stored
  refresh token; `put` (68-73) carries it over when the entry it replaces was dirty,
  and the sign-in is then flushed conditionally. `musterlink.go:609-613` promises that
  a store that is briefly away does not make the person sign in twice;
  `RefreshScenarios.KeptSignInLost` is a run in which it does, and
  `RefreshLedger.FlushOfKeptSignIn` says exactly when.
- `pkg/auth/musterlink/links.go:49` says an entry's `checked` is when the store was last
  consulted. After a write, `markClean` and `adopt` stamp the time they run at, which is
  later than the store's answer by whatever the process took to get there.
  `Staleness.ServedIsRecent` bounds the age of a served link by the cache's lifetime and
  that lag; `RefreshScenarios.NotedLateServedLong` shows the lag counts in full.
- `pkg/auth/musterlink/links.go:194-195` says that a sign-in that landed meanwhile wins
  over a rotated link. What landed meanwhile need not be newer: a sign-in kept back in
  another process is flushed without a comparison. `RefreshScenarios.OlderLinkAdopted`
  is a run in which an older one wins, and `RefreshLedger.AdoptedIsNewer` the exact
  condition.
- `pkg/auth/musterlink/musterlink.go:95` calls `tokenRefreshSkew` the least lifetime of
  any token `TokenFor` hands out; a freshly refreshed id_token is returned unchecked.
  `RefreshScenarios.ShortTokenServed` is the input, and `TokenForLocked` promises that
  only a token fetched in that very call can have less than the skew left.
- `pkg/channels/facade.go:615` says that a task arriving whole carries its full answer.
  A resubscribed turn holds back what streams since it joined, and its mapper, whose
  tracker began with that tail, cuts off the arriving task the prefix the two share.
  `Replies.ResumedTailIsMutilated` is the input: the listener joined behind "a", "ab"
  streams, "aab" arrives, and it reads "ab". `Replies.ResumedWholeIsAnswer` is the exact
  condition for any events and any task, `Replies.ResumedWordedTask` a plainer one where
  each artifact with text has more than newlines: nothing is cut, but for newlines
  that the first artifact's paragraph break puts in front again.
- `pkg/channels/slack/mrkdwn.go:41-43` says a dropped buffer holds a reopened fence
  line; a reopened line always has a content line behind it, so what is dropped is an
  original opening fence line left alone. It shows again with the next chunk, when it
  can be reopened; a text's last line is lost so when it opens a fence on a fresh
  buffer (`MarkdownSplitter.SplitMarkdown` says for which texts, where the lines fit).
- `pkg/channels/facade.go:958-963` promises that the streamed text and the finished
  task's text agree byte for byte; `StreamEqualsWhole` has the exact condition.

## Model

| member | source | states |
|---|---|---|
| RefreshRuns.NoReplay | pkg/auth/musterlink/lease.go:12-50 | over every run within the leases, nothing muster rotated is ever presented to it again, and a rotated token in the store lies under an unexpired lease of the one process that carries its successor |
| RefreshRuns.MutualExclusion | pkg/auth/musterlink/lease.go:54-66 | no two processes ever have a request in flight for the same refresh token; one presented without a lease is known to no other process and is not in the store |
| RefreshRuns.LapseReplays | pkg/auth/musterlink/lease.go:45-50 | the timing assumption is exact: any state that breaks it leads on to a replay by the next process that starts |
| LeaseTiming.PromptIsTimely | pkg/auth/musterlink/lease.go:45-66 | every state of a run is timely when each lease is written within a bound of the clock reading it is dated from, muster answers within the request timeout, a rotated token is out of the store within a bound of its rotation, and the two bounds together are below the other half of the lease |
| LeaseTiming.PromptNeverReplays | pkg/auth/musterlink/lease.go:64-66 | so in such a run nothing muster rotated is ever presented to it again |
| LeaseTiming.WorkHasALease | pkg/auth/musterlink/lease.go:92-144 | whatever a process presents or carries on under a lease in the store goes back to the one step by which it took that lease, dated from the clock reading before it |
| RefreshRuns.NewcomerPresents | pkg/auth/musterlink/lease.go:92-121 | a process that starts while no unexpired lease stands on the stored link gets to present its token |
| RefreshLedger.NoTokenLost | pkg/auth/musterlink/lease.go:167-207 | every refresh token muster issued is spent, in the store or carried by a live process, or was given up at a step that is named: by the person's sign-out or own new sign-in there, upon muster's refusal of it in the request just answered, upon what a conditional write of it had just found in the store, or out of the store by a write that does not compare |
| RefreshLedger.SecretLeaves | pkg/auth/musterlink/links.go:196-246 | a rotated token leaves the process that carries it only for the store by its own successful write, by being rotated on, or given up by one of those steps |
| RefreshLedger.AdoptedIsNewer | pkg/auth/musterlink/links.go:222-246 | the link a conditional write finds in place of the one its token was rotated from was issued after that one, exactly unless it is a kept-back sign-in or unleased save that its process had before and has flushed since |
| RefreshLedger.LateIsOlder | pkg/auth/musterlink/links.go:206-212 | a link so kept back was not issued after the one it goes over |
| RefreshScenarios.OlderLinkAdopted | pkg/auth/musterlink/links.go:222-246 | the input: a timely run in which a process gives up a rotated token for an older sign-in another process flushed |
| RefreshLedger.FlushOfKeptSignIn | pkg/auth/musterlink/links.go:65-75 | the flush of a sign-in kept here discards it exactly when the entry it replaced was dirty with a stored token and the store then holds neither that token nor the sign-in's; otherwise the store has it |
| RefreshScenarios.KeptSignInLost | pkg/auth/musterlink/links.go:222-246 | the input: a timely run in which a sign-in kept here is lost though nobody signed out after it |
| RefreshRuns.CompareBeforeWrite | pkg/auth/musterlink/lease.go:181-206 | a leased or flushed rotation replaces the store's link exactly when the store still holds the token it was rotated from, and never by a spent token |
| RefreshRuns.SignInsSurvive | pkg/auth/musterlink/links.go:222-245 | a sign-in in the store stays until muster rotates its token, through any leased refreshes, conditional flushes and removals of other tokens by any process |
| RefreshRuns.SignOutsSurvive | pkg/auth/musterlink/links.go:222-245 | a sign-out stays through any number of conditional writes by any process |
| RefreshRuns.SlowReadKeepsNewer | pkg/auth/musterlink/links.go:83-120 | a slow store read that began before this process's own write finished never puts an older link over it |
| RefreshRuns.LoadKeepsDirty | pkg/auth/musterlink/links.go:77-120 | load neither replaces nor deletes an entry the store has not got |
| RefreshRuns.CheckedGrows | pkg/auth/musterlink/links.go:60-75 | the time an entry was checked at never goes back while the entry exists |
| RefreshRuns.FailedReadServesCopy | pkg/auth/musterlink/links.go:110-118 | a read that fails leaves a process that has a copy with it, and serves it |
| RefreshRuns.StampsStay | pkg/auth/musterlink/links.go:60-75 | however the copy is replaced, when its token was last served and refreshed is remembered |
| RefreshRuns.ReleaseFrees | pkg/auth/musterlink/lease.go:148-165 | once the store took the release, no lease of this process stands on the token it presented; another process's lease and every link stay |
| Staleness.ServedIsRecent | pkg/auth/musterlink/links.go:77-90 | over every run, a clean link answered from the copy without the store: within the cache's lifetime, and the time this process takes to note its own writes, the store held that link or failed this process's read |
| Staleness.CleanIsVouched | pkg/auth/musterlink/links.go:46-50 | behind every clean entry stands a moment of the store, or a failed read, that its check time does not run ahead of but for a write still to be noted |
| RefreshScenarios.NotedLateServedLong | pkg/auth/musterlink/links.go:140-147 | the input: a link the store took and gave up at once is served the cache's lifetime from the late note on, so the bound is exact |
| RefreshSafety.StepKeepsInv | pkg/auth/musterlink/lease.go:12-50 | every atomic section of every process, every tick, start and crash keeps the invariant |
| RefreshSafety.SectionClaims | pkg/auth/musterlink/lease.go:92-121 | a section gives a process the right to present a token only where the store's lease or its own dirty entry does |
| RefreshSafety.PresentedIsUnspent | pkg/auth/musterlink/musterlink.go:831-837 | the token of a request about to be sent is not spent |
| LinkManager.ClusterNeverReplays | pkg/auth/musterlink/lease.go:12-50 | whatever the processes' methods did in any order, muster saw no replay, and every token is carried or was given up as above |
| LinkManager.MeanwhilesKeep | pkg/auth/musterlink/links.go:77-120 | over any sequence of other processes' sections, ticks and loads, the lock holder's place stands, a dirty entry keeps its link and no entry gets dirty: what every method here relies on between two of its sections |
| LinkManager.Linker.AcquireRefreshLease | pkg/auth/musterlink/lease.go:92-146 | skipped just for a dirty entry; otherwise the store at one moment held the token and holds this process's lease after it, or held another link, or none |
| LinkManager.Linker.TryLeaseOnce | pkg/auth/musterlink/lease.go:99-132 | one round of the poll, decided at one moment of the store |
| LinkManager.Linker.SaveRotated | pkg/auth/musterlink/lease.go:172-207 | the rotated link is stored only over the presented token, kept dirty with that token when the store fails, and another link or none is followed |
| LinkManager.Linker.DropRefused | pkg/auth/musterlink/lease.go:216-239 | after a refusal no unsaved link is left here, and the link another writer stored meanwhile is adopted |
| LinkManager.Linker.AdoptStored | pkg/auth/musterlink/lease.go:242-246 | the store's link becomes the clean local copy |
| LinkManager.Linker.PutDirty | pkg/auth/musterlink/links.go:65-75 | the link is recorded before the store has it, with the token the store holds kept or set |
| LinkManager.Linker.Load | pkg/auth/musterlink/links.go:83-120 | an unsaved copy, or one checked within the cache's lifetime, is answered as it is; for any other, not linked is answered only when the store held no link at a moment of the call, an error only when the read failed, and a link only if the store held it at that moment, the read failed, or this process came to note it meanwhile. What is answered the copy has unsaved, or the store held it, or failed this process's read, within the cache's lifetime |
| LinkManager.Linker.EndLoad | pkg/auth/musterlink/links.go:96-120 | the copy afterwards is what a read begun then may leave: a newer or unsaved entry stays |
| LinkManager.Linker.Save | pkg/auth/musterlink/links.go:127-137 | the link is in the store and clean, or kept dirty here with the stored token the entry before it had |
| LinkManager.Linker.MarkCopyClean | pkg/auth/musterlink/links.go:140-147 | only the dirt and the check time of the entry change |
| LinkManager.Linker.Unlink | pkg/auth/musterlink/links.go:151-157 | no unsaved link is left here either way, and deleted is reported only when the store held nothing after it |
| LinkManager.Linker.FlushOne | pkg/auth/musterlink/links.go:196-217 | a kept link reaches the store, or the newer link there is followed; a failed flush leaves the entry as it was |
| LinkManager.Linker.FlushRotated | pkg/auth/musterlink/links.go:222-246 | a rotated link goes only over the token it was rotated from, and a store that moved on is followed |
| LinkManager.Linker.TokenForLocked | pkg/auth/musterlink/musterlink.go:744-764 | not linked only when the store held no link at a moment of the call or muster refused this process's token in it; an error to be retried only when a store call failed, the lease was not to be had, muster brought no id_token, or the link moved away in each of the three attempts; at most three requests, and none when the copy's token will do; a served token is the copy's: the very id_token and expiry that muster's answer brought at a moment of this call, or long enough lived; only the former can have less than the skew left |
| LinkManager.Linker.LoadLocked | pkg/auth/musterlink/links.go:83-120 | the same under the user's lock, with the store asked at a moment of the call, or not at all |
| LinkManager.Linker.Renew | pkg/auth/musterlink/musterlink.go:749-764 | a token that will do is served without a request, and any other refreshed, with the reason when that fails |
| LinkManager.Linker.TokenForFast | pkg/auth/musterlink/musterlink.go:735-742 | a token served from the cache is the copy's, of a link no older than the cache's lifetime, and covers a turn or was refreshed here within the last minute; a copy that may be used has its token served |
| LinkManager.Linker.RefreshLink | pkg/auth/musterlink/musterlink.go:773-823 | at most refreshAttempts requests, and one at least unless the lease was not to be had or the store had no link or another; a served token is the copy's, as muster brought it at a moment of this call or long enough lived; not linked and retry for the reasons of TokenForLocked |
| LinkManager.Linker.RefreshOnce | pkg/auth/musterlink/musterlink.go:779-808 | one attempt, with the moment of the store or the answer of muster that decided it |
| LinkManager.Linker.PollLease | pkg/auth/musterlink/lease.go:92-146 | the rounds of the poll: contended exactly when every round found the lease taken or the write in conflict |
| LinkManager.Linker.SendRefreshRequest | pkg/auth/musterlink/musterlink.go:831-886 | exactly one request; its outcome is muster's token however short it lives, now the copy's and stamped, or what the store held at a moment of the call, or a failure exactly when muster brought no id_token; an id_token muster brought stood in this process's answer at a moment of the call |
| LinkManager.Linker.RecordRotation | pkg/auth/musterlink/musterlink.go:858-886 | the rotation muster answered with is recorded before anything else, and handed on unless the store had moved on |
| RefreshScenarios.ShortTokenServed | pkg/auth/musterlink/musterlink.go:95-100 | the input: a timely run of one TokenFor whose request brings an id_token with less than the skew left, which is handed out though no process would reuse it |
| LinkManager.Linker.ReusableToken | pkg/auth/musterlink/musterlink.go:921-933 | a cached token is reused exactly when it covers a turn, or this process just refreshed it and more than the skew is left |
| LinkManager.Linker.CompleteSignIn | pkg/auth/musterlink/musterlink.go:609-617 | on return the sign-in is stored, or kept here with the stored token it inherits, which decides its flush |
| LinkManager.Linker.RefreshAheadOfExpiry | pkg/auth/musterlink/refresh.go:140-154 | refreshes, and sends requests, only when the entry was due at a moment of the call under the lock; an entry then due has a request sent unless the lease was not to be had or the store had no link or another |
| LinkManager.DueExactly | pkg/auth/musterlink/refresh.go:80-92 | due are exactly the tokens that some turn up to the next sweep would find with no more than the minimum left, five minutes after their last refresh at the earliest |
| LinkManager.Linker.NoteRefreshed | pkg/auth/musterlink/refresh.go:61-67 | stamps the entry there is with the time and changes nothing else of it |
| LinkManager.Linker.NoteServed | pkg/auth/musterlink/refresh.go:52-58 | stamps the entry there is with the time and changes nothing else of it |
| SecretStore.MemStore.Update | pkg/auth/musterlink/store.go:117-133 | the simple form: one application of the closure, to the one user's link |
| SecretStore.UpdateAttemptRefines | pkg/auth/musterlink/store_secret.go:166-198 | one run of the sealed closure is the simple update of the links it opens to, and touches no other record |
| SecretStore.SecretStore.Mutate | pkg/auth/musterlink/store_secret.go:242-267 | a success is exactly one application of the closure to the data at its commit, with the values captured by that very run; it gives up with a failed read or write exactly when the API failed one of this call, and with a conflict only after as many commits of others as it makes attempts |
| SecretStore.SecretStore.Update | pkg/auth/musterlink/store_secret.go:166-198 | takes effect at one moment exactly as the in-memory store's update does there |
| SecretStore.SecretStore.Store | pkg/auth/musterlink/store_secret.go:134-146 | the put link is the user's at its commit, and a failure left nothing |
| SecretStore.SecretStore.Delete | pkg/auth/musterlink/store_secret.go:150-161 | the user has no record at some moment of the call, and a failure left nothing |
| SecretStore.SecretStore.Import | pkg/auth/musterlink/store_secret.go:204-229 | adds all missing records in one update and never overwrites one |
| SecretStore.ImportAdds | pkg/auth/musterlink/store_secret.go:204-229 | the imported data has every old record unchanged and every missing one |
| SecretStore.OthersUntouched | pkg/auth/musterlink/store_secret.go:239-267 | over any stretch of the Secret's history, a record no commit touched is unchanged |
| ThreadLives.RowAlwaysConsistent | pkg/channels/facade.go:378-407 | after any history of any writers, a stored share and refusal name the session the row is bound to, and every workspace reader passed the check for the row's workspace |
| ThreadLives.WriteKeepsConsistent | pkg/channels/share.go:132-148 | one write of any writer keeps that, the minted share's compare-and-set and the refusal included |
| ThreadLives.MutationKeepsConsistent | pkg/channels/slack/collaborator_workspace.go:158-170 | a concurrent reader is added only while the row has the workspace checked |
| ThreadLives.BindKeepsConsistent | pkg/channels/facade.go:378-407 | a rebind drops what names another session or another workspace |
| ThreadLives.LastSeenIsAStamp | pkg/channels/threadrecord.go:123-149 | a row's last-seen time is the clock reading of a write that slid it and whose closure wrote |
| ThreadLives.BookkeepingKeepsLife | pkg/channels/facade.go:732-743 | bookkeeping never extends a life or changes its initiator and grants |
| ThreadLives.SilenceStartsOver | pkg/channels/threadrecord.go:43-68 | after more than the lifetime with no write that slid the thread, whatever bookkeeping went on and whoever tried in vain, a record or new binding is what it is on a thread never seen |
| ThreadLives.ClosedIsAbsent | pkg/channels/threadrecord.go:62-68 | a write on an ended conversation is handed an empty row |
| ThreadLives.LifeNeedsNoSilence | pkg/channels/threadrecord.go:24-48 | a thread used within its lifetime never starts over |
| ThreadLives.InitiatorStays | pkg/channels/slack/access.go:48-68 | the first initiator of a life stays, and its grants stay |
| ThreadLives.WithinLife | pkg/channels/slack/access.go:98-111 | within a life only a grant's own write adds a grant |
| ThreadLives.NewLife | pkg/channels/threadrecord.go:62-68 | a new life has nobody granted, and an initiator and a session only by the write that began it |
| ThreadLives.GrantOfThisLife | pkg/channels/slack/access.go:98-111 | whoever is granted was granted in this life |
| ThreadLives.InitiatorOfThisLife | pkg/channels/slack/access.go:48-68 | the initiator launched this life |
| ThreadLives.BindingOfThisLife | pkg/channels/facade.go:319-417 | the session and the creator the row names are those of one write of this life, the binding that moved the row to that session |
| ThreadLives.CreatorWithinLife | pkg/channels/facade.go:394-396 | within a life the creator changes only with the session, to that of the binding |
| ThreadLives.TaskOfThisSession | pkg/channels/facade.go:704-730 | the task in flight was remembered in this life and for the session the row is bound to |
| ThreadLives.DeliveredOfThisTask | pkg/channels/slack/continuation.go:99-114 | what the row says was delivered was recorded in this life while a task was in flight, and no other was remembered since |
| ThreadLives.MutedOfThisLife | pkg/channels/slack/mute.go:217-237 | a muted thread was muted in this life, and nobody spoke to it later while it lived |
| ThreadLives.MuteStep | pkg/channels/slack/mute.go:72-85 | a live thread somebody launched is muted by the first stop and unmuted by what is written after it, and by nothing else |
| ThreadLives.RecordTakesEffect | pkg/channels/threadrecord.go:123-149 | what a record puts on a live thread is there afterwards, and the binding, the share and the task in flight are as they were |
| ThreadLives.RowOutlives | pkg/channels/threadrecord.go:24-48 | the store serves a row for as long again as its conversation may be silent, and what it no longer serves has ended |
| ThreadFacade.Thread.UpdateThreadRecord | pkg/channels/threadrecord.go:123-149 | the row becomes what the write closure makes of it, and the history has that write |
| ThreadFacade.Thread.RecordInitiator | pkg/channels/slack/access.go:48-68 | returns the effective initiator, which the live row has then |
| ThreadFacade.Thread.Allowed | pkg/channels/slack/access.go:89-96 | allowed exactly for the initiator and those granted on the live thread |
| ThreadFacade.Thread.GrantAccess | pkg/channels/slack/access.go:98-111 | adds that user to the live thread and nobody else, and does nothing on an ended one |
| ThreadFacade.Thread.SessionOwner | pkg/channels/slack/access.go:78-87 | the creator of the live session with that agent, else the initiator |
| ThreadFacade.Thread.SessionFor | pkg/channels/facade.go:319-417 | the session returned was slid when the live row's fitted, or newly bound for this agent, creator and workspace, and a chosen workspace needs the grant; after the binding write the row has this creator if its session changed and the old one if not; exactly the shares an ended conversation or the binding left are revoked, and only under their creator's identity; an error comes of the one call that failed |
| ThreadFacade.Thread.StartAndBind | pkg/channels/facade.go:346-417 | the session started or kept, and its binding, with the call that failed when one did |
| ThreadFacade.FitsExactly | pkg/channels/facade.go:337-341 | a turn goes on in the thread's session exactly unless it names another agent or chooses another workspace; one that chooses none keeps the agent's recorded one |
| ThreadFacade.RevokesAs | pkg/channels/share.go:234-250 | a share left behind is revoked exactly when its session's creator is unknown or is who the turn acts for |
| ThreadFacade.LeavesShare | pkg/channels/facade.go:387-391 | what a binding leaves behind is the live row's share of another session, and its creator the one recorded or else the initiator |
| ThreadFacade.Thread.BindSession | pkg/channels/facade.go:376-414 | the write of a new binding, and the share it leaves behind as the row had it at that write |
| ShareProtocol.SharesConserved | pkg/channels/share.go:81-178 | once no turn runs, every share minted is the row's, revoked, replaced for renewal while still valid, or gone with its binding, exactly unless its row write failed |
| ShareProtocol.StepKeepsInv | pkg/channels/share.go:81-178 | every step of any turn and any other writer keeps the invariant |
| ShareProtocol.PutDecides | pkg/channels/share.go:130-162 | the compare-and-set stores, yields to the share that won, whose token is the answer, or sees the thread moved; what it displaces is the share read or one that does not open |
| ShareProtocol.TokensAreShares | pkg/channels/share.go:215-232 | a token answered is that of a share minted for the turn's session under its own key |
| ShareProtocol.RowShareIsGood | pkg/channels/share.go:163-174 | the row never keeps a share that a turn revoked or is about to, as long as row writes succeed |
| RowShares.RowShareRevoked | pkg/channels/share.go:149-171 | the exact condition: the row keeps a share that a turn revoked or is about to exactly when a turn whose row write failed had read that share, and found when it came to revoke what its own had taken the place of that it opens no longer |
| ShareProtocol.FailedWriteRevokesRowShare | pkg/channels/share.go:149-171 | that condition is needed: a run in which a failed row write leaves the row a revoked share |
| ShareProtocol.OthersKeepOrDrop | pkg/channels/facade.go:290-299 | no other writer of the row gives it a share |
| ShareFacade.Sharing.ShareFor | pkg/channels/share.go:81-111 | the whole of shareFor ends with the answer its steps decide, which ShareAnswers.ShareForAnswers explains |
| ShareAnswers.ShareForAnswers | pkg/channels/share.go:81-178 | every answer of shareFor goes back to one step of the turn and what it saw there |
| ShareAnswers.ReadDecides | pkg/channels/share.go:82-111 | at its read a turn is answered the token of the row's share if that is of its session, under its key and outlives five minutes or half the thread's lifetime, an hour or half of it with the creator's token at hand; without a share like that it is turned away, or mints; the creator's own turn gets none, and a remembered refusal is repeated |
| ShareAnswers.AnswerIsDecided | pkg/channels/share.go:81-178 | over any run, whatever a turn is answered was decided at one of its steps by what that step saw |
| ShareAnswers.MintIsNeeded | pkg/channels/share.go:97-113 | a share is minted only by a turn with the creator's token whose read found none valid for long enough |
| ShareAnswers.RefusalIsRemembered | pkg/channels/share.go:180-205 | a refusal a turn recorded is what the next turn of that session is answered, without asking again |
| ShareFacade.Sharing.CreateShare | pkg/channels/share.go:112-123 | minting, refusal and failure, each a step of the protocol |
| ShareFacade.Sharing.StoreShare | pkg/channels/share.go:130-148 | the update closure is the protocol's compare-and-set, and writes nothing when it yields |
| ShareFacade.Sharing.Settle | pkg/channels/share.go:163-177 | a displaced share is revoked, and the held one unless it was still valid when looked at |
| ShareFacade.Sharing.Open | pkg/channels/share.go:218-232 | opens exactly a share of the session with the margin left, under this key |
| ShareFacade.NoShareLost | pkg/channels/share.go:76-178 | the conservation theorem for any interleaving of the methods |
| Streaming.StreamEqualsWhole | pkg/channels/facade.go:958-970 | the streamed deltas are the finished task's text exactly when no replace extends its artifact inside a rune and no newline stays hidden at an artifact's end; they are never shorter |
| Streaming.PlainEndsSettle | pkg/channels/facade.go:1039-1060 | the second condition holds whenever no artifact ends in two newlines with the last a piece of its own |
| Streaming.HiddenNewlineIsRepeated | pkg/channels/facade.go:1046-1046 | it is needed: such an artifact before another one streams a newline too many |
| Streaming.ArtifactRenders | pkg/channels/facade.go:1021-1048 | one artifact's updates render its break and its text, the text itself just when every replace cuts at a rune |
| Streaming.WholeAfterStreamAddsNothing | pkg/channels/facade.go:922-939 | after any stream of updates, in any order, the finished task renders nothing more |
| Streaming.DeliveredIsText | pkg/channels/facade.go:996-1011 | the tracker holds for each artifact the text the update semantics define |
| Streaming.CommonPrefixIs | pkg/channels/facade.go:1062-1074 | the common prefix is where two texts agree before and not after |
| Streaming.CommonPrefixLen | pkg/channels/facade.go:1062-1074 | the loops give the longest common prefix backed off to a rune |
| Streaming.OpensParagraph | pkg/channels/facade.go:1039-1060 | behind the break a new artifact starts on a blank line, with no newline too many |
| Streaming.ArtifactText.Delta | pkg/channels/facade.go:1021-1035 | one update in place is one step of the tracker |
| Streaming.ArtifactText.Render | pkg/channels/facade.go:1039-1048 | break and tail as the tracker has them |
| EventMapper.OneTerminalAndLast | pkg/channels/facade.go:830-920 | one event gives at most one terminal delta, last of its deltas, and exactly for the states that end or pause a turn |
| EventMapper.RerenderIsStream | pkg/channels/facade.go:928-939 | a task's result deltas carry the text its artifacts stream as whole replaces |
| EventMapper.StreamEqualsAnswer | pkg/channels/facade.go:958-970 | what the artifact updates stream is the answer read back from the finished task, exactly under the condition of StreamEqualsWhole |
| EventMapper.StreamedTaskAddsNoText | pkg/channels/facade.go:922-927 | a completed task whose artifacts were streamed renders no text again |
| EventMapper.Events.Deltas | pkg/channels/facade.go:841-882 | one event in place is one step of the mapper |
| EventMapper.Events.ResultDeltas | pkg/channels/facade.go:928-939 | the loop over the artifacts |
| EventMapper.Events.UsageDeltas | pkg/channels/facade.go:944-956 | usage of exactly the artifacts not counted yet |
| EventMapper.LastAgentAnswers | pkg/channels/facade.go:973-981 | a task without artifacts is answered with the last message its history has from the agent |
| Asides.UsageCountedOnce | pkg/channels/facade.go:944-956 | over a turn, a completed task that comes whole reports the usage of each of its artifacts that no update of the stream reported, once and in order, and of no other |
| Asides.TaskUsageIs | pkg/channels/facade.go:944-956 | the same of any mapper and any artifacts |
| Asides.UpdateUsage | pkg/channels/facade.go:846-851 | an artifact's update passes its usage on each time, behind its text and tools |
| Asides.EventTools | pkg/channels/facade.go:843-859 | an event reports exactly the tool activity of its artifact or of an interim message, in order |
| Asides.EventNarrates | pkg/channels/facade.go:852-859 | the text of an interim message is narration exactly when the message calls a tool, and comes first |
| Asides.EndSays | pkg/channels/facade.go:884-920 | the delta that ends a turn is done, a prompt or an error exactly by the state the task is in, with that state, its account and the prompt's text as the status has them |
| Asides.ShownOrNot | pkg/channels/facade.go:217-242 | every delta the mapper makes shows something unless it is usage or ends the turn |
| Asides.FreshHears | pkg/channels/facade.go:598-678 | a listener from the start gets every delta of every event up to the one that ends the turn, and only then; of a stream that ends before, its own error or that there was none |
| Asides.ResumedHearsBeside | pkg/channels/facade.go:616-637 | a resubscribed listener gets, the answer's text apart, everything too, and ahead of the end of a task that completed the usage the stream had not reported |
| EventMapper.TaskResultText | pkg/channels/facade.go:964-970 | the finished answer, rendered by a new mapper |
| Turns.HeardIsComplete | pkg/channels/facade.go:551-568 | a listening consumer gets exactly one terminal delta, and it is last, whatever the events and however the stream ends |
| Turns.Turn.StreamTask | pkg/channels/facade.go:569-678 | delivers exactly that to a listener and a prefix of it to one that leaves; the record is cleared unless a shutdown cut a running task; at most one cancel, only for a plainly cancelled task that is not terminal |
| Turns.Turn.Pump | pkg/channels/facade.go:598-646 | the loop over the events, and the record of the first task id seen |
| Turns.Turn.Pass | pkg/channels/facade.go:616-637 | one event's deltas, up to the terminal one |
| Turns.Turn.EmitFinal | pkg/channels/facade.go:685-702 | the answer read back and the usage not yet counted |
| Turns.Turn.Emit | pkg/channels/facade.go:747-754 | delivers unless the context is done |
| Turns.Turn.RetryUnshown | pkg/channels/facade.go:217-242 | sends again exactly when the task failed retryably before anything was shown, and then forwards that attempt, or the first failure when it is refused |
| Turns.Turn.SendCompletion | pkg/channels/facade.go:192-208 | at most two sends, one for a resume; a listener's fresh turn is sent again exactly when the first was refused, or failed before it showed anything, on a failure another may get past; everything shown comes from one attempt; a listener gets exactly one terminal delta, last; an error exactly when the last attempt made of a refused one was refused |
| Turns.TaskNamedLast | pkg/channels/facade.go:601-608 | the task cancelled is the one the last event that names one has, or the one known from the start |
| Turns.TaskNamedFirst | pkg/channels/facade.go:604-608 | the task recorded is the one named first |
| Turns.RetryIsOneAttempt | pkg/channels/facade.go:210-216 | what the channel gets of two attempts shows only one of them, and is complete |
| Replies.HeardIsStream | pkg/channels/facade.go:841-882 | through any interleaving with status updates, tool calls and usage, the text deltas a listener hears are what the artifact updates stream, and the text of a reply that ends the turn |
| Replies.ListenerGetsAnswer | pkg/channels/facade.go:958-970 | a listener of a whole turn, ended by a status update or by the task arriving whole, reads the answer of the finished task exactly under the condition of StreamEqualsWhole |
| Replies.ResumedHears | pkg/channels/facade.go:559-562 | a resubscribed listener reads the answer read back when a status completes the task, whatever streamed before, and of a task arriving whole what the updates seen since leave of it |
| Replies.ResumedWholeIsAnswer | pkg/channels/facade.go:614-623 | whatever streamed since it joined and whatever the task, such a listener reads the answer of a task arriving whole exactly when, by counting, no letter of an artifact is cut off and the newlines between the letters come out even |
| Replies.ResumedMisses | pkg/channels/facade.go:1021-1035 | what it misses of the answer is, letter for letter, what the tracker cuts off |
| Replies.ResumedWordedTask | pkg/channels/facade.go:1021-1048 | where each artifact with text has more than newlines: exactly when nothing is cut but, of the first with text, just the newlines its paragraph break puts in front |
| Replies.ResumedOneArtifact | pkg/channels/facade.go:1021-1048 | of one artifact it reads the text behind the cut, behind the break; the whole exactly when the break is what was cut |
| Replies.ResumedOwnUpdates | pkg/channels/facade.go:1021-1035 | joined behind some of its own updates, the text from where it parts with what they come to; the whole exactly when that is at its start |
| Replies.ResumedBehindStream | pkg/channels/facade.go:922-927 | behind all of its updates the task says nothing, and before any of them everything |
| Replies.ResumedTailIsMutilated | pkg/channels/facade.go:557-560 | the input: a tail of the answer streams, the task arrives whole, and the listener reads neither the answer nor nothing |
| LateJoin.WholeTextIsLeft | pkg/channels/facade.go:1021-1048 | the same of the tracker: any tracker renders the finished task as a new one does exactly when the two come out even |
| LateJoin.WordedTextIsLeft | pkg/channels/facade.go:1021-1048 | and the plainer condition where every artifact says something |
| LateJoin.LettersAreKeptOrCut | pkg/channels/facade.go:1021-1035 | every letter of the finished task is rendered or cut off, each once |
| LateJoin.NothingIsCut | pkg/channels/facade.go:1062-1074 | nothing is cut exactly when the two texts part inside the first rune |
| Replies.RestartedReply | pkg/channels/slack/continuation.go:11-18 | when the first process posts from its stream and later ones from the answer read back, the thread shows the answer up to the recorded place exactly when what the first one posted begins it |
| Replies.RestartsKeepAnswer | pkg/channels/slack/continuation.go:11-18 | so it does whenever the stream is the answer |
| Continuation.RestartsContinue | pkg/channels/slack/continuation.go:35-97 | over any number of restarts and any chunking, the recorded length is an exact position in the answer, and the posted pieces with the dropped gaps are the answer up to it |
| Continuation.CutsDropSpaceOnly | pkg/channels/slack/continuation.go:54-77 | what is dropped at a cut is whitespace only, and nothing in the first process |
| Continuation.ContinuationOpensClean | pkg/channels/slack/continuation.go:54-60 | with chunks cut at runes a continued reply never opens with whitespace |
| Continuation.ProcessContinues | pkg/channels/slack/continuation.go:79-97 | one process continues the answer exactly where the record says |
| Continuation.Writer.SkipDelivered | pkg/channels/slack/continuation.go:61-77 | one delta in place is one step of the specification |
| Continuation.Writer.ContinueAfter | pkg/channels/slack/continuation.go:35-46 | the writer takes over the recorded length, and the message left open with its length, as one of the turn's |
| Continuation.Writer.NoteDelivered | pkg/channels/slack/continuation.go:85-97 | the length recorded is where in the answer seen this process's bytes end: behind what earlier processes posted come only dropped whitespace and then exactly the bytes that landed |
| Continuation.RecordedLands | pkg/channels/slack/continuation.go:85-97 | that place, for any chunks and any number of landed bytes |
| Continuation.TrimLeft | pkg/channels/slack/continuation.go:69-69 | strips exactly the leading UTF-8 whitespace |
| Continuation.SpaceIsUnicode | pkg/channels/slack/continuation.go:69-69 | what counts as whitespace is Unicode's white space, byte for byte in UTF-8 |
| MarkdownSplitter.SplitMarkdown | pkg/channels/slack/mrkdwn.go:20-135 | every chunk fits; taking out what was inserted gives the text back but for opening fence lines left alone; a chunk reopens exactly the fence open where it begins, when there is room, and is closed exactly when a fence that shows in it is open at its end; a line left alone opens one there; where the lines fit their budgets every chunk is balanced, no chunk had room for the first line of the next, and only the text's last line can be left alone, exactly when it opens a fence on a fresh buffer; a text shorter than a chunk by a close is one |
| MarkdownSplitter.Splitter.Emit | pkg/channels/slack/mrkdwn.go:44-59 | the buffer becomes one fitting chunk, closed when its fence is open, or is an opening line alone and dropped |
| MarkdownSplitter.Splitter.MakeRoom | pkg/channels/slack/mrkdwn.go:98-117 | after it the line fits behind the buffer with the close it may need |
| MarkdownSplitter.Splitter.HardSplit | pkg/channels/slack/mrkdwn.go:80-97 | a line over its budget becomes fitting chunks of its own, each in the fence open before it and closed, cut where splitAtLines cuts what is left of the line at the length there is room for; and toggles the fence |
| MarkdownSplitter.Splitter.AddLine | pkg/channels/slack/mrkdwn.go:61-128 | takes the line, keeps the fence state and the balance |
| MarkdownSplitter.StepTracked | pkg/channels/slack/mrkdwn.go:61-128 | whatever a line's step flushes or cuts begins where the fence state of the text before it says |
| MarkdownSplitter.StepTight | pkg/channels/slack/mrkdwn.go:98-117 | a line is put on a fresh buffer only when it does not fit behind the one there was |
| MarkdownSplitter.LineTells | pkg/channels/slack/mrkdwn.go:114-127 | the buffer is known to have an open fence exactly when one is open behind it that was reopened or opened in it |
| MarkdownSplitter.AppendKeepsEven | pkg/channels/slack/mrkdwn.go:114-127 | a line leaves the buffer balanced exactly but for the fence it is in |
| Markdown.ClosedIsBalanced | pkg/channels/slack/mrkdwn.go:32-38 | closing a buffer with an open fence balances it |
| Markdown.LinesJoin | pkg/channels/slack/mrkdwn.go:61-61 | the lines of joined texts are counted once each |
| Markdown.FenceLineMeans | pkg/channels/slack/mrkdwn.go:74-74 | a fence line is three backticks behind nothing but spaces and tabs |
| Markdown.FirstNewline | pkg/channels/slack/mrkdwn.go:61-61 | a line goes up to the first newline |
| Markdown.CutsAtLast | pkg/channels/slack/mrkdwn.go:195-209 | no cut leaves out a later newline in reach, nor, without one, a later rune |
| Markdown.SplitAtLines | pkg/channels/slack/mrkdwn.go:188-214 | non-empty pieces within the limit that make up the text, cut where CutLen cuts what is left |
| Markdown.CutsAreGood | pkg/channels/slack/mrkdwn.go:195-209 | each cut is behind the last newline in reach, else at a rune unless not one fits, in the text that was left |
| Markdown.CutAt | pkg/channels/slack/mrkdwn.go:195-209 | cuts behind the last newline in reach, else at a rune unless none fits |
| Watcher.Run | pkg/refusals/watcher.go:142-208 | over any run of reads with any failures, the notifier gets exactly the groups of the successful reads that it takes, each read continuing from what the one before it left |
| Watcher.Watcher.Observe | pkg/refusals/watcher.go:146-208 | one read hands on exactly the series somebody is to be told of, each in one group with its sum, agent, destination and Sessions; the notifier gets those it takes, each once; a series is remembered as counted unless its resolving or its group failed |
| Watcher.NothingLostOrToldTwice | pkg/refusals/watcher.go:136-208 | over any stretch of observations, what was told of a series and what concerned nobody are together what is remembered of it more than before, and what its restarts count anew |
| Watcher.NeverMoreThanCounted | pkg/refusals/watcher.go:142-208 | of a counter that never goes back that is never more than it counted |
| Watcher.OneOfThree | pkg/refusals/watcher.go:156-206 | a series' increase is told, dismissed or put off to the next read: exactly one of the three |
| Watcher.Watcher.Take | pkg/refusals/watcher.go:156-197 | one series is skipped, put back, or counted into its one group |
| Watcher.Watcher.Restore | pkg/refusals/watcher.go:202-204 | a group that was not noted gets its previous values back, and no other series |
| Watcher.KeepPrevious | pkg/refusals/watcher.go:212-218 | the key's previous value, or none, and every other as it was |
| Watcher.GroupedMore | pkg/refusals/watcher.go:185-196 | a series joins the one group of its agent and destination, which counts the sum and names its Session once |
| Watcher.OfferSettles | pkg/refusals/watcher.go:199-206 | a group handed on or put back settles its series and touches no other |
| Watcher.EligibleMeans | pkg/refusals/watcher.go:163-170 | somebody is told exactly of an increase at a destination that can be named, by the actor of a Session |
| Watcher.SeriesApart | pkg/refusals/watcher.go:275-277 | series with different labels have different keys |
| Watcher.GroupsApart | pkg/refusals/watcher.go:185-190 | series share a group only when they are of one agent and one destination |
| ContextId.EncodingInjective | pkg/channels/contextid.go:24-34 | two sequences of strings have the same encoding only when they are the same |
| ContextId.DecodeEncode | pkg/channels/contextid.go:29-32 | a decoder of the length prefixes undoes the encoding |
| ContextId.ContextsApart | pkg/channels/contextid.go:16-28 | two conversations are hashed from the same bytes exactly when all their parts agree and both chose the same workspace, or neither chose one |
| ContextId.Decimal | pkg/channels/contextid.go:31-31 | decimal digits that read back as the number |
| ContextId.ContextBytes | pkg/channels/contextid.go:24-34 | the bytes fed to the hash |
| Escape.RoundTrip | pkg/channels/slack/decision.go:492-494 | unescaping an escaped text restores it, whatever it holds |
| Escape.EscapedEach | pkg/channels/slack/mrkdwn.go:144-149 | the three passes escape each rune exactly once |
| Escape.CutIsCapped | pkg/channels/slack/inspect.go:465-489 | cutting the escaped text and escaping under the cap give the same, for every text and limit |
| Escape.Capped | pkg/channels/slack/mrkdwn.go:151-153 | the capped text has at most max runes |
| Escape.FitIsLongest | pkg/channels/slack/mrkdwn.go:161-168 | what is kept is the longest prefix that fits |
| Escape.CappedReadsBack | pkg/channels/slack/mrkdwn.go:151-170 | a capped text is the escape of the source, or of a proper prefix and the ellipsis, so no entity is split and what stands before the ellipsis reads back |
| Escape.EscapeMrkdwnCapped | pkg/channels/slack/mrkdwn.go:154-170 | the loop gives the capped text |
| Escape.CutEscaped | pkg/channels/slack/inspect.go:471-489 | the backward scan gives the cut |
| Escape.PartialGoes | pkg/channels/slack/inspect.go:477-487 | a cut inside an entity backs off to its start |
| Escape.WholeEntitiesStay | pkg/channels/slack/inspect.go:477-487 | a cut of whole entities stays |

## Left out

- RefreshRuns.NoReplay: assumes the environment described above; a store write whose outcome is unknown, a request whose answer is lost after muster acted, and a process that dies between the answer and its record are outside it, as the source's own comment says.
- Staleness.ServedIsRecent: a served link is known by its refresh token, which no two links share, and an unsaved one is served however old it is, as the code says.
- RefreshRuns.SignInsSurvive: excludes the writes that force, a sign-in's own save and the unleased save, and a sign-out, which the code makes unconditionally.
- LeaseTiming.PromptIsTimely: the processes read one clock; clocks that drift apart (`lease.go:37-38`) are not modelled.
- RefreshLedger.AdoptedIsNewer: newer is by the order in which muster issued the tokens, which is all the model knows of age.
- RefreshRuns.CheckedGrows: needs the clock of one process not to go back, which the model's clock does not.
- LinkManager.Linker.AcquireRefreshLease: the wall-clock wait is a number of rounds (`patience`).
- LinkManager.Linker.SendRefreshRequest: a muster that answers without a refresh token (no rotation) is not modelled.
- LinkManager.Linker.Unlink: a load of this process that is under way may bring a copy back, so that there is none is not promised.
- LinkManager.Linker.RefreshAheadOfExpiry: which users were served lately, the refresher's timer and its concurrency bound are not modelled.
- SecretStore.SecretStore.Update: the API server is a versioned record that refuses a stale version; a write of unknown outcome is not modelled, and sealing is any function that opens to what was sealed.
- SecretStore.SecretStore.Delete: a delete of an absent user writes nothing, so absence is stated for some moment of the call.
- ThreadFacade.Thread.SessionFor: what the controller does with the session key is not modelled; a started session is any id.
- ShareProtocol.SharesConserved: revokes succeed, and a share dropped with its binding by another writer counts as gone whether or not its creator's identity was there to revoke it (`revokeLeftShare`).
- Streaming.StreamEqualsWhole: artifacts are addressable, come one after the other and only grow; an update without an id is rendered as sent and again with the whole task.
- Continuation.RestartsContinue: what a process landed after its last successful record is not counted as posted.
- Continuation.Writer.NoteAppended: which batches a stream takes, its roll-over and recovery are not modelled.
- MarkdownSplitter.SplitMarkdown: balance, and which line is left alone, is stated for texts whose lines fit their budgets; a longer opening fence line degrades to a plain split, as the code says.
- Watcher.Watcher.Observe: values are reals, a port is its decimal string, and two series of one read have different keys; what the cluster, muster and Slack answer during a read is a parameter.
- Escape.RoundTrip: strings are sequences of runes, so bytes that are not UTF-8 are not modelled.
- HTTP handlers, OAuth redirects, OIDC discovery, sealing, hashing, JSON and the gRPC client: foreign code and plumbing; they appear as parameters and arbitrary results.
- The routing store's backends, BoltStore, and the turn slots: only the atomic per-key update and one turn per thread are assumed.
- The background flush's timers and backoff, `recordLastWorkspace`, preferences and notices: bookkeeping with nothing hard to state.
- The rest of the Slack writer (rollover, recovery, tool log), modals, commands, configuration and metrics: user interface and flat branch lists.
