# Epic Wallet: verified model

A Dafny model of the hard parts of the Epic wallet, and proofs about it. `dafny verify dfyconfig.toml` checks all of it.

- **The Owner V3 session** (`SecureSession`, `SecureCalls`, `SessionRefinement`, `EncryptedBody`, `JsonRpc`, `Encoding`). `SecureSession` is
  a transition system: any number of requests in flight, one atomic step per lock acquisition, two key cells and the
  guard that the copy statement keeps on the Owner's cell. `SecureCalls` is one call after the other, with contents: the
  handler as a class with its cells, key exchange, sealed requests and replies, error replies, and runs of any number of
  clients that start and renew sessions. `SessionRefinement` shows that such calls are runs of the transition system.
  `EncryptedBody` and `Encoding` are what is inside a sealed request.
- **Locks** (`LockOrder`, `OwnerLocks`). A general theorem: threads whose code takes scoped locks in increasing rank
  never deadlock and can all finish. Then the lock scopes of the Owner methods, the V3 handler, the updater threads and
  the listeners, to which it applies.
- **The configuration text** (`Replacement`, `ConfigLevels`, `Lines`, `Comments`, `CommentTable`, `ConfigFile`).
  Chained substring replacements are shown equal to a single pass over the text; from this follow what is left in the
  text, the round trip from memory to file and back, that every setting stands behind its comment, and that comments
  never touch a data line.
- **The search page** (`EditDistance`, `MergeResults`, `QueryTokens`). The one-row edit distance with its reused global
  row against the recursive definition, which is shown to be the least cost of an edit script and a metric; the
  de-duplicating merge with its exact order; the bracket-aware tokenizer.
- **Transactions** (`SendFlow`, `SlateProtocol`, `ImportTx`). The order of effects in `send` and `init_send_tx` over
  every method and every failure: each method's script, how far a run gets in it, and what that means; the two-party slate protocol over all runs of any number of wallets; the import that
  avoids duplicates.

Foreign code is passed in as functions, and the laws it is expected to obey are stated where it is used: opening undoes
sealing (section 5.2 of RFC 5116), parsing undoes printing, UTF-8 decoding undoes encoding, the key exchange commutes.
Hexadecimal and base64 are written out, as in sections 8 and 4 of RFC 4648. In the transaction part the outside world
answers each step, and every answer is considered.

Things the proofs bring out about the code:

- The handler's key agrees with the Owner's in every interleaving unless the last request that wrote the Owner's key is
  still at work or did not succeed. An init sent as a notification writes the Owner's key and is never copied, so the
  two stay apart when all is at rest: `SecureSession.NotificationLeavesCellsApart`; `SecureSession.CellsAgreeIff` says
  when they agree.
- With several clients, a call may be answered under another key than it was made with:
  `SecureSession.ReplyKeyMatchesIff` says when, `SecureSession.ReplyKeyCanDiffer` gives a run. One call after the other,
  the session always belongs to the client whose init succeeded last (`SecureCalls.RunsAgree`).
- The documentation of `init_secure_api` (api/src/owner_rpc_s.rs:1481-1491) shows sealed replies with a
  `"method": "encrypted_response_v3"` and the body under a top-level `"Ok"`. The code sends no method and puts the body
  under `result.Ok`. The model follows the code.
- Errors are turned into the -32099 form only in sealed replies: the reply to a plaintext init is sent as it is.
- A configuration survives writing and reading back, up to the case of four levels, exactly if it does not contain the
  word "Warning" (`ConfigLevels.RoundTripIffNoWarning`).
- `Owner::init_send_tx` can post a transaction that was not finalized, exactly if the method is "http" or "keybase" and
  the caller asks to post and not to finalize; then every run that ends well does so (`SendFlow.InitSendTx`).
- With every send method but "self" the slate leaves the wallet before its outputs are locked. A run can stop between
  the two: when the lock takes no effect, and when a transport fails or panics on the answer to a slate that was
  delivered (impls/src/adapters/http.rs:168-190). `SendFlow.Send` says exactly when.
- The finalize command tells invoices by the missing signature of participant 1. For answered slates this is right; a
  finalized invoice is taken for an ordinary transaction (`SlateProtocol.DispatchIff`;
  `SlateProtocol.TransactionCompletes` has the run).
- Updating the mask and the listeners take their locks in orders that do not fit together. The two run in different
  processes, each without deadlocks; in one process on one mask cell they could deadlock
  (`OwnerLocks.SharedMaskDeadlocks`).
- The import compares the entries of a file with the log, not with one another: `ImportTx.IdsStayUniqueIff` and
  `ImportTx.SlatesStayUniqueIff` say which files break uniqueness.

## Model

| member | source | states |
|---|---|---|
| SecureSession.NextIsValid | controller/src/controller.rs:618-682 | every atomic step of every request keeps the session invariant: both cells hold the key of some write, one guard at most, each request's history fits the log of writes |
| SecureSession.RunsAreValid | controller/src/controller.rs:618-682 | the invariant holds after any sequence of steps, and the log of writes and the copy count only grow |
| SecureSession.OpenedWithItsOwnKey | controller/src/controller.rs:467-491 | in every reachable state, a request that was opened was sealed, and with the very key that opened it |
| SecureSession.AdmittedIff | controller/src/controller.rs:467-491 | an enabled opening step admits the request exactly if the handler's key is the key that sealed it; otherwise the request ends with -32002 |
| SecureSession.CellsAgreeOrLastWriterIsUnsettled | controller/src/controller.rs:667-673 | in every interleaving the two cells are equal, or the request that wrote last has not yet copied or did not succeed |
| SecureSession.CellsAgreeAtRest | controller/src/controller.rs:667-673 | when every request that wrote a key has ended with a success reply, the two cells are equal |
| SecureSession.CellsAgreeIff | controller/src/controller.rs:667-673 | with different keys for different inits, the two cells are equal exactly when the last write has been copied |
| SecureSession.NotificationLeavesCellsApart | controller/src/controller.rs:676-680 | an init sent as a notification ends with a key in the Owner's cell and none in the handler's |
| SecureSession.SessionNeverEnds | controller/src/controller.rs:414-445 | once there is a handler key there is always one, it is one that was written, and neither `unwrap` of it ever fails |
| SecureSession.ReplyKeyMatchesIff | controller/src/controller.rs:465-515 | a reply is sealed with the key that opened the request exactly if no newer key was copied in between |
| SecureSession.CopyInstallsOwnKeyIff | controller/src/controller.rs:667-673 | a copy installs the requester's own key exactly if nobody wrote the Owner's cell after it |
| SecureSession.ReplyKeyCanDiffer | controller/src/controller.rs:618-682 | a run of two clients in which a reply is sealed with another key than its request |
| SecureCalls.LastEntry | controller/src/controller.rs:525-556 | the loop over an error object leaves one of its entries as the message, or "" if there is none |
| SecureCalls.CheckErrorResponse | controller/src/controller.rs:521-580 | a reply is converted exactly if its error is text or an object; then it consists of the version, code -32099, the message and the same id |
| SecureCalls.Session.InitSecureApi | api/src/owner_rpc_s.rs:2422-2444 | the Owner's key becomes the shared key of the peer's point and the fresh secret; the reply is the fresh secret's own point; each failure leaves what was done before it |
| SecureCalls.PlainInitSucceedsIff | api/src/owner_rpc_s.rs:2422-2444 | a plaintext init of a readable point is answered with the point of the fresh secret exactly if that point and the shared key exist; then both cells hold that key; without an id it is written but never copied |
| SecureCalls.SealedInitSucceedsIff | controller/src/controller.rs:655-675 | what a sealed init leaves in the two cells; the handler moves to the new key exactly if the exchange succeeds, there is an id, and the reply can be sealed |
| SecureCalls.UnreadablePointIsRefused | api/src/owner_rpc_s.rs:2422-2444 | a plaintext init whose point is missing or cannot be read is -32602 with its id, or nothing for a notification, and no cell changes |
| SecureCalls.Session.HandleRequest | api/src/owner_rpc_s.rs:2422-2444 | an init runs and replies with success or error, a notification runs without a reply; any other request has the reply of the API itself and leaves the Owner's key |
| SecureCalls.Session.UpdateMask | controller/src/controller.rs:448-463 | the mask is replaced by the key that the text in the reply spells, and kept if there is none |
| SecureCalls.MaskIs | controller/src/controller.rs:448-463 | after a successful open_wallet while the foreign API runs, the mask is the key read from the text of the reply; in all other cases it is unchanged |
| SecureCalls.Session.UpdateOwnerApiSharedKey | controller/src/controller.rs:436-445 | the handler's key is replaced only if the reply is a success with a text |
| SecureCalls.Session.DecryptRequest | controller/src/controller.rs:467-491 | the request's id and what its body opens to under the handler's key |
| SecureCalls.Session.EncryptResponse | controller/src/controller.rs:494-518 | the reply sealed under the handler's key with the request's id |
| SecureCalls.Session.CallApi | controller/src/controller.rs:618-682 | new cells and reply of one call, with the error message that the intercepted error gives |
| SecureCalls.ReplyOpensUnderRequestKey | controller/src/controller.rs:625-675 | every reply to an opened request has its id and opens, under the key that opened it, to the reply of the API with errors converted, also when the call replaced that key; a reply that cannot be sealed is -32003, a missing one an empty array |
| SecureCalls.RefusedChangesNothing | controller/src/controller.rs:625-640 | without a session the code is -32001, with one and an unreadable request -32002, nothing is sealed, and nothing changes |
| SecureCalls.AnsweredChangesOnlyBy | controller/src/controller.rs:645-675 | which cells a request that reached the API can change |
| SecureCalls.CellsChangeOnlyBy | controller/src/controller.rs:618-682 | the handler's key changes only by an init with a success reply, the Owner's only by an init, the mask only by a successful open_wallet while the foreign API runs |
| SecureCalls.InitReplyTellsKey | api/src/owner_rpc_s.rs:2422-2444 | from a success reply to its init a client computes exactly the key that the server wrote, from any other reply none |
| SecureCalls.PlainInitTells | controller/src/controller.rs:618-682 | from arbitrary cells, a plaintext init of anybody leaves the handler with the key that this client computes from the reply, or with what it had if the client computes none |
| SecureCalls.SealedInitTells | controller/src/controller.rs:618-682 | the same for a sealed init under the handler's key, whose reply the client opens under the old key |
| SecureCalls.SealedArrives | controller/src/controller.rs:467-491 | what a client seals under the handler's key is what the API gets |
| SecureCalls.SealedInitMoves | controller/src/controller.rs:655-675 | the reply to a re-keying init opens under the old key; the handler moves to the new key only if the reply was sealed and is a success |
| SecureCalls.EventAgrees | controller/src/controller.rs:618-682 | whatever client sends an init in plaintext or sealed, a call, or a stray request, and whether it succeeds or fails: the handler keeps the key of the client whose init succeeded last |
| SecureCalls.RunsAgree | controller/src/controller.rs:618-682 | after any run of any number of clients, the handler holds the key of the client whose init succeeded last, and none if there was none |
| SecureCalls.CallsAreAnswered | controller/src/controller.rs:618-682 | after any run, every call that this client seals reaches the API, and the client reads the API's own reply, an empty array if there is none, or -32003 if it cannot be sealed |
| SessionRefinement.CallIsARun | controller/src/controller.rs:618-682 | a call that runs alone takes these steps of the transition system, and both end with the same keys and the same kind of reply |
| SessionRefinement.CallsAreARun | controller/src/controller.rs:618-682 | any calls one after the other are a run of the transition system that leaves the same keys |
| SessionRefinement.SessionStays | controller/src/controller.rs:414-445 | whatever calls follow, a session that was started is not taken away |
| JsonRpc.RequestSurvives | api/src/types.rs:165-203 | a written sealed request is read back, and is seen as encrypted_request_v3 |
| JsonRpc.IncompleteRequestIsNone | api/src/types.rs:165-203 | a request with a member missing or of the wrong kind, or a number out of range as its id, is not read |
| JsonRpc.ResponseSurvives | api/src/types.rs:211-252 | the sealed body is read back from the written response, whose id is the request's |
| JsonRpc.ErrorReplyHasCode | api/src/types.rs:271-289 | an error reply has its code, its message and its id, and neither result nor sealed body |
| EncryptedBody.FromJson | api/src/types.rs:69-97 | the nonce in hex and the sealed JSON text in base64, or the error of the step that failed |
| EncryptedBody.Decrypt | api/src/types.rs:115-149 | what the body opens to, with the pop loop removing the 16 tag bytes, or the first of six errors in the code's order |
| EncryptedBody.OpenedFailsAt | api/src/types.rs:115-149 | which of the six errors is reported, by the first thing that is wrong with the body |
| EncryptedBody.SealedFailsAt | api/src/types.rs:69-97 | sealing fails exactly when the value cannot be written as text or the cipher refuses it, with the error of that step |
| EncryptedBody.OpenedUndoesSealed | api/src/types.rs:69-149 | for every key, nonce and JSON value, what was sealed is read back |
| EncryptedBody.LongNonceIsCut | api/src/types.rs:124-133 | hex digits behind the first 12 nonce bytes change nothing |
| EncryptedBody.SpellingIsUnique | api/src/types.rs:116-126 | bodies that hand the cipher the same bytes are the same text, up to letter case of the nonce |
| EncryptedBody.RequestFromJson | api/src/types.rs:179-187 | the request carries the id and a body that opens to the JSON value |
| EncryptedBody.ResponseFromJson | api/src/types.rs:224-235 | the result has the one entry "Ok", whose body opens to the JSON value |
| Encoding.FromHexOfToHex | api/src/types.rs:95 | reading hex undoes writing it, for all bytes |
| Encoding.ToHexOfFromHex | api/src/types.rs:124 | accepted hex text is the encoding of its bytes up to letter case |
| Encoding.FromHexAppend | api/src/types.rs:124-133 | hex text is read byte by byte |
| Encoding.FromBase64OfToBase64 | api/src/types.rs:96 | reading base64 undoes writing it, for all bytes |
| Encoding.ToBase64OfFromBase64 | api/src/types.rs:116-118 | accepted base64 text is the one encoding of its bytes |
| LockOrder.DisciplinedExecutesOrdered | api/src/owner.rs:738-793 | code whose scopes nest in increasing rank takes and releases locks in that order on every path and at every early return |
| LockOrder.NoDeadlock | api/src/owner.rs:738-793 | in every reachable state of any number of such threads, if one is unfinished then one can go on |
| LockOrder.EveryoneCanFinish | api/src/owner.rs:738-793 | from every reachable state all threads can be brought to their ends with no lock held |
| OwnerLocks.CallsAreDisciplined | api/src/owner.rs:731-798 | under any ranking that keeps the order updater or tor, epicbox before wallet, secp, Owner's key, handler's key, and secp before mask, every Owner method takes its locks in increasing rank, with one wallet scope or several |
| OwnerLocks.TasksAreDisciplined | controller/src/controller.rs:618-682 | so does every V3 request around them, every V2 and foreign request, and both updater threads |
| OwnerLocks.OwnerOrderIsForced | controller/src/controller.rs:618-682 | a ranking serves all tasks of the owner process exactly if it keeps these inequalities: each stands for a nesting in the code |
| OwnerLocks.ListenersAreDisciplined | impls/src/tor/tor_manager.rs:33-34 | the listeners keep an order of their own, in which the mask comes first: tor here, epicbox at impls/src/adapters/epicbox.rs:139-140 and 187, Keybase at impls/src/adapters/keybase.rs:364-366 |
| OwnerLocks.ListenerOrderIsForced | impls/src/tor/tor_manager.rs:33-34 | a ranking serves all listeners exactly if it has the mask before the wallet and the wallet before secp |
| OwnerLocks.OwnerNeverDeadlocks | controller/src/command.rs:371-389 | no interleaving of any number of requests, updaters and log threads deadlocks the owner process |
| OwnerLocks.ListenersNeverDeadlock | controller/src/command.rs:301-355 | nor do any number of listeners in theirs |
| OwnerLocks.NoCommonOrder | controller/src/controller.rs:448-463 | no single order serves updating the mask, the tor listener and wallet work |
| OwnerLocks.SharedMaskDeadlocks | controller/src/controller.rs:448-463 | in one process on one mask cell, an open_wallet request, the start of the tor listener and a wallet call reach a state in which none can go on |
| Replacement.Fusion | config/src/config.rs:299-305 | a single pass followed by a replacement is a single pass with one more rule, if the rules keep apart |
| ConfigLevels.FixLogLevelIsOnePass | config/src/config.rs:298-305 | the five chained replacements act as one pass over the text, although TRACE and ERROR can overlap |
| ConfigLevels.ReadBackIsOnePass | config/src/config.rs:293-305 | writing and reading back act as one pass |
| ConfigLevels.NoLevelIsLeft | config/src/config.rs:298-305 | none of the five levels in capitals is left, inside or across replaced words |
| ConfigLevels.WrittenLevelsAreSettled | config/src/config.rs:298-305 | the written text contains no level in capitals, and writing it again changes nothing |
| ConfigLevels.RoundTripIffNoWarning | config/src/config.rs:293-305 | writing and reading back only recases TRACE, DEBUG, INFO and ERROR, exactly for texts without "Warning" |
| ConfigLevels.RecasingOnlyChangesCase | config/src/config.rs:298-305 | the recasing pass changes only the case of letters and leaves none of the four levels in capitals |
| ConfigLevels.RoundTripIsExactIff | config/src/config.rs:293-305 | the text comes back unchanged exactly if it contains none of five words |
| ConfigLevels.WarnComesBackIff | config/src/config.rs:294-303 | replacing WARN by Warning and that by WARN is the identity exactly on texts without "Warning" |
| Lines.SplitOfJoin | config/src/comments.rs:295 | splitting at line breaks gives back the lines that were joined |
| Lines.ReplaceAcrossBreak | config/src/config.rs:293-305 | a replacement works on each side of a line break on its own |
| Comments.InsertComments | config/src/comments.rs:293-311 | the text is each line behind the comment of its key, each line ended |
| Comments.GetKeyIff | config/src/comments.rs:283-291 | the key of a line: a header itself; of an assignment, what stands in front of the first "=" without the white space around it; else "NOT_FOUND" |
| Comments.LineStandsBehindItsComment | config/src/comments.rs:293-311 | in the re-split text a line whose key is in the table stands directly behind a blank line and the comment of that key, any other line behind nothing |
| Comments.SettingHasItsComment | config/src/comments.rs:293-311 | the usual "key = value" line of a known key stands directly behind the comment of that key |
| Comments.CommentsStandOnTheirOwnLines | config/src/comments.rs:293-311 | re-splitting the text gives the original lines interleaved with the comments' own lines |
| Comments.CommentsKeepData | config/src/comments.rs:293-311 | the data lines are the same, in the same order |
| CommentTable.KeylessLinesGetNoComment | config/src/comments.rs:19-291 | with the thirty comments as they are, a line that is neither a header nor an assignment gets none |
| ConfigFile.Store | config/src/config.rs:283-291 | the stored text is the fixed text with the comments of the table inserted |
| ConfigFile.DataLinesComeBack | config/src/config.rs:214-219 | after writing with comments and reading, each data line is what one write and one read make of it |
| ConfigFile.DataLinesAreOnlyRecased | config/src/config.rs:214-219 | for a text without "Warning" the data lines come back with only TRACE, DEBUG, INFO and ERROR recased |
| EditDistance.RowBuffer.Put | doc/search.js:1 | writing an array element inside the row or right behind its end leaves the others |
| EditDistance.RowBuffer.Levenshtein | doc/search.js:1 | whatever the reused row held before, the result is the recursive edit distance |
| EditDistance.NoScriptIsCheaper | doc/search.js:1 | no edit script between two texts costs less than their distance |
| EditDistance.BestScript | doc/search.js:1 | some edit script costs exactly the distance |
| EditDistance.DistanceIsLeastCost | doc/search.js:1 | the distance is the least cost of an edit script |
| EditDistance.DistanceIsAMetric | doc/search.js:1 | zero only on equal texts, symmetric, triangle inequality |
| MergeResults.GetSmallest | doc/search.js:1 | the least distance among the entries that can be taken next, none if there is none |
| MergeResults.MergeArrays | doc/search.js:1 | ends; at most 200 entries, no path twice, exactly the front parts read from the lists; stops only when full or when every list is at its end or at an entry already taken; for sorted lists the order is fixed altogether: by distance, then by the place among the equals of a list, then by list |
| MergeResults.ReadRound | doc/search.js:1 | a round reads something, and takes at most one entry of each list, in the order of the lists, at the least distance |
| MergeResults.NextRound | doc/search.js:1 | between two rounds, what is left is at a greater distance, or at the same distance one place further in its list |
| MergeResults.TakeIsConsistent | doc/search.js:1 | taking an entry keeps the result free of repeats and equal to what was read |
| MergeResults.TakeIsInOrder | doc/search.js:1 | taking an entry in its turn keeps the whole order and ends the turn |
| QueryTokens.TokenizeQuery | doc/search.js:1 | the loop with its depth and lookahead cuts exactly at the commas that no '<' and '>' enclose, and the depth stays 0 or 1 |
| QueryTokens.CutsIff | doc/search.js:1 | a comma cuts exactly if there is no "<" before it and ">" behind it with no bracket between the two |
| QueryTokens.TokensJoin | doc/search.js:1 | the tokens joined by commas are the query, but for one cutting comma at its end |
| QueryTokens.PieceIsBetweenCuts | doc/search.js:1 | the k-th piece runs from the k-th cut to the next |
| SendFlow.Try | controller/src/command.rs:463-640 | the next step of the script, tried on the current slate, is prepared and keeps the run orderly and on its script; the slate it returns becomes the current one |
| SendFlow.SendEstimate | controller/src/command.rs:482-503 | an estimate takes the two estimating steps and no other, and panics if one fails |
| SendFlow.HandOverAndLock | controller/src/command.rs:540-597 | hand-over, then the lock of the slate that came back, which is the one to go on with; a run that goes on has taken both steps |
| SendFlow.ReceiveOwn | controller/src/command.rs:550-565 | sending to oneself locks first, then receives, and goes on with the received slate |
| SendFlow.Deliver | controller/src/command.rs:504-597 | each method follows its script up to the lock and the answer of the counterparty; epicbox without a tor configuration stops after creation |
| SendFlow.SendSlate | controller/src/command.rs:504-633 | each method follows its script, and a run that ends well followed all of it; epicbox without a tor configuration panics after creation |
| SendFlow.VerifyAndFinalize | controller/src/command.rs:598-602 | the answered slate is verified, then finalized, and the finalized slate is the one to post |
| SendFlow.WatchMempool | controller/src/command.rs:605-613 | after a post the mempool is watched, and marked if the transaction is found; no error of either fails the run |
| SendFlow.PostAndMark | controller/src/command.rs:603-632 | the finalized slate is posted; a run that fails here has not posted successfully |
| SendFlow.Complete | controller/src/command.rs:598-632 | verify, finalize, post, and the mempool in this order; a run that ends well has posted |
| SendFlow.Send | controller/src/command.rs:463-640 | every run is orderly and follows the script of its method: what is verified was answered, what is finalized was verified, what is posted was finalized; exactly how it ends; which methods hand over, receive and post when it ends well; and when a slate is out unlocked, whatever step fails or panics, before or after it took effect |
| SendFlow.ScriptsAreSafe | controller/src/command.rs:504-633 | whatever follows a method's script verifies and finalizes only what was received or sent and answered, finalizes only what it verified, posts only what it finalized |
| SendFlow.FullRunsDo | controller/src/command.rs:504-633 | a run that followed a whole script took each step that its method has, and none that it has not |
| SendFlow.MempoolIsWatched | controller/src/command.rs:605-613 | a run that went to its end after posting looked into the mempool, and marked the transaction exactly if it was found |
| SendFlow.SlateOutUnlockedIff | controller/src/command.rs:504-597 | a slate is out with its outputs unlocked exactly if the run stopped between hand-over and lock; with "self" it never leaves |
| SendFlow.FailedRunsPostNothing | controller/src/command.rs:603-632 | a run that fails has not posted |
| SendFlow.FinalizeAndPost | api/src/owner.rs:786-794 | after the lock, finalizing and posting are done as asked, and the whole script is followed if nothing fails |
| SendFlow.SendCreated | api/src/owner.rs:745-796 | channel, hand-over and lock, then the rest of the script: an epicbox send ends with the lock |
| SendFlow.InitSendTx | api/src/owner.rs:731-800 | every run is orderly and follows the script of the arguments, which a run that ends well followed to its end; it locks only what it handed over, posts and finalizes as asked; unless the arguments ask to post without finalizing over http or Keybase, nothing is posted unfinalized; if they do, every run that ends well has posted unfinalized |
| SendFlow.HelperPosts | api/src/owner.rs:786-794 | without such arguments no run, however it stops, posts what it did not finalize |
| SendFlow.FullHelperRuns | api/src/owner.rs:745-796 | a run that went to the end of the script took exactly its steps |
| SendFlow.UnlockedMeansUntouched | controller/src/command.rs:479-633 | nothing that comes after a lock is tried without a successful one |
| SendFlow.TriedOnce | controller/src/command.rs:479-633 | no step, and so no lock, is tried twice in a run |
| SendFlow.LeftLockedIff | controller/src/command.rs:479-633 | a run that ends badly leaves outputs locked exactly if it ended in a step after the lock, or in the lock after it took effect |
| SendFlow.EffectsAreDone | controller/src/command.rs:463-640 | what took effect without success ended the run |
| SendFlow.CurrentIsFinalized | controller/src/command.rs:602-603 | once a finalization succeeded, what it returned stays the slate that all later steps use |
| SendFlow.PostedWasLockedAndFinalized | controller/src/command.rs:479-633 | before every post there is a finalization that returned this slate, and before that a successful lock |
| SlateProtocol.ParticipantWithId | libwallet/src/slate.rs:392-400 | the first participant with the id |
| SlateProtocol.VerifyPartSigs | libwallet/src/slate.rs:566-582 | true exactly if every signature present is good for the keys and the kernel on the slate |
| SlateProtocol.FillSlot | libwallet/src/slate.rs:351-379 | signs the first slot of the id; fails on a bad signature; panics past the participants |
| SlateProtocol.CompleteSlate | libwallet/src/internal/tx.rs:252-274 | signing, then the final signature and the kernel, with the panic on a missing signature |
| SlateProtocol.Wallet.InitSendTx | libwallet/src/api_impl/owner.rs:372-469 | a slate with the sender alone, unsigned, and a context for it |
| SlateProtocol.Wallet.IssueInvoiceTx | libwallet/src/api_impl/owner.rs:472-527 | a slate with the receiver alone, unsigned, and a context for it |
| SlateProtocol.Wallet.ReceiveTx | libwallet/src/api_impl/foreign.rs:75-160 | the receiver joins and signs |
| SlateProtocol.Wallet.ProcessInvoiceTx | libwallet/src/api_impl/owner.rs:531-616 | the payer joins and signs, and keeps a context |
| SlateProtocol.Wallet.FinalizeCommand | controller/src/command.rs:702-766 | the path by participant 1, the context it needs, and the context gone if it succeeds |
| SlateProtocol.ReceiveOnShapes | libwallet/src/internal/tx.rs:204-249 | receiving answers open sends, spoils open invoices, fails on everything else |
| SlateProtocol.PaidOnShapes | libwallet/src/internal/tx.rs:136-201 | paying answers open invoices, spoils open sends, fails on everything else |
| SlateProtocol.FinishOnShapes | controller/src/command.rs:721-766 | finalizing succeeds only on answered or final slates, gives a final one, and never panics |
| SlateProtocol.FinishUsesUpContext | libwallet/src/api_impl/owner.rs:657 | a successful finalization removes the context of its slate and no other: the same slate cannot be finalized again |
| SlateProtocol.SecondFinishChangesNothing | controller/src/command.rs:736-766 | in any run, after a wallet finished a slate, its second attempt at the same slate changes nothing |
| SlateProtocol.CompletedIff | libwallet/src/slate.rs:351-379 | any slate whatever is completed by its participant exactly if every signature on it is good, the key is that of the slot, all others have signed, and the amounts balance; a missing signature is the panic; what the completed slate is |
| SlateProtocol.OutsiderCompletesIff | libwallet/src/slate.rs:351-379 | somebody who is not on the slate completes it only if it needs no further signature, and panics if an entry or a signature is missing |
| SlateProtocol.NextIsValid | controller/src/command.rs:702-766 | every step of every wallet on any slate in circulation keeps all slates in shape |
| SlateProtocol.DispatchIff | controller/src/command.rs:721-734 | with both participants on the slate, the invoice path is taken exactly for invoices that are not final |
| SlateProtocol.FinalizedIsSignedByBoth | libwallet/src/slate.rs:643-672 | whatever is finalized in any run has the good signatures of one sender and one receiver over both keys, and the amount once in and once out |
| SlateProtocol.NothingPanics | libwallet/src/slate.rs:429-434 | no run reaches a missing signature or a missing participant |
| SlateProtocol.AnsweredIsFinishedIff | controller/src/command.rs:736-766 | an answered slate is completed exactly by a wallet that holds the initiator's context |
| SlateProtocol.TransactionCompletes | controller/src/command.rs:702-766 | for either flow, a run of any two wallets that reaches an answered and then a final slate with the kernel it began with; the final one is taken for an ordinary transaction |
| ImportTx.TxLog.ExistingIds | controller/src/command.rs:50-60 | the two sets are the ids and the slates of the log |
| ImportTx.TxLog.Import | controller/src/command.rs:50-77 | the log with the entries that are not skipped, and their number; unchanged if any write fails |
| ImportTx.SavedAreTheNew | controller/src/command.rs:62-76 | what is saved, position by position of the file: the entries that share neither their id nor, if they have one, their slate with an entry of the log, in the order of the file |
| ImportTx.NothingIsOverwritten | controller/src/command.rs:62-76 | no existing entry is changed or lost, and what is new comes from the file |
| ImportTx.NothingIsForgotten | controller/src/command.rs:62-76 | each entry of the file is in the log by its id afterwards, or its slate was there before |
| ImportTx.SecondImportIsNothing | controller/src/command.rs:62-76 | importing the same file again does nothing, even if it repeats ids |
| ImportTx.IdsStayUniqueIff | controller/src/command.rs:62-76 | ids stay unique exactly if saved entries that share an id share the account |
| ImportTx.SlatesStayUniqueIff | controller/src/command.rs:62-76 | slates stay unique exactly if no two entries of the file that are saved and not replaced by a later one share a slate |
| ImportTx.SurvivorIsImported | controller/src/command.rs:62-76 | a saved entry that no later one replaces is in the log afterwards |
| ImportTx.NewEntrySurvives | controller/src/command.rs:62-76 | whatever is new in the log is such an entry |
| ImportTx.RepeatedSlateIsImportedTwice | controller/src/command.rs:62-76 | a file with one slate under two ids puts it into the log twice |

## Left out

- TOML parsing and printing, paths and files of the configuration.
- AES-256-GCM beyond "opening undoes sealing". SecureSession takes a request to be readable under the one key that sealed it. SecureCalls asks less: an init sealed under another key than the handler's is not opened, and a call sealed under another key brings no init.
- `to_hex` and `from_hex` come from epic_util, which is not part of this model; the hexadecimal here is that of RFC 4648.
- Sealed requests given as a JSON array instead of an object, and JSON numbers that are not integers.
- The dispatcher's checks of the JSON-RPC envelope other than the parameters of an init, which are read as an object; JSON-RPC batches.
- The texts of the -32001, -32002, -32003 and -32602 messages.
- The wallet lock inside `libwallet` is one scope per use in OwnerLocks, with the secp context inside it; the waiting of a second updater for the first one, and the updater's endless loop, are finite rounds.
- HTTP, TLS, authentication, the node client, Tor, epicbox and Keybase transports.
- Completeness of `mergeArrays`: a list whose next entry is taken already is never advanced, so entries behind it may be missing; the stop condition says so.
- MergeResults.MergeArrays: `lev` is an integer.
- OwnerLocks.ListenersAreDisciplined: the mutexes inside the epicbox adapter (its container, handler and sender) are not modelled.
- SlateProtocol.Wallet.ReceiveTx: the refusals for time to live, fees and repeated receipt, and the payment proof, are not modelled; a refused step changes no slate.
- SlateProtocol.Wallet.ProcessInvoiceTx: the refusals for time to live, fees and repeated payment are not modelled.
- SlateProtocol.Wallet.FinalizeCommand: the refusals for time to live, messages, fees and the payment proof are not modelled.
- In SlateProtocol slates that no wallet produced are not considered.
- Files, formats and parsing of the import; the log's other columns are one text.
