# Ladon in Dafny

This project models the three parts of Ladon that decide whether secrets stay where they belong, and
proves what they promise.

**The redaction pipeline** (`Bytes`, `Hex`, `Utf8`, `Encodings`, `Needles`, `Capture`, `Escaper`,
`Redactor`, `RunOutput`). A child's output goes through a chunked leftmost-longest replacer, an
incremental UTF-8 escaper and a bounded head/tail buffer. Each stage has a batch meaning on whole
streams; the streaming objects are proved to compute it however the stream is cut. The batch meaning is
described once more without the way it is computed (`Redactor.Answers`, `Capture.Shows`,
`Needles.LeftmostLongest`), leaves no choice, and is proved to hide every needle. The needles are tied to
readers of the encodings they are in.

**The vault on disk** (`Model`, `Cbor`, `Codec`, `CodecProofs`, `Cursor`, `VaultCodec`, `Crypto`,
`Layout`, `Session`, `EditResults`, `Store`, `Persistence`, `CopyOrder`, `Controller`, `FullVault`). A
canonical CBOR printer and parser, the encrypted file around it, edits guarded by revisions, and a commit
of two copies. `Codec` and `Cbor` are the printer and parser as functions; `VaultCodec` is the code's
cursor form, tied to them. The disk is what is durable plus the renames not yet synced; after a power
loss each directory entry is, independently, one of these. `Persistence` is the controller as a state
machine over payloads, and `Controller` proves that the methods over real sealed files take its steps.

**Grants, runs and locks** (`Grants`, `Approval`, `ApprovalMeaning`, `ApprovalTrace`,
`ApprovalLifetimes`, `Coordinator`, `Runs`, `Protocol`, `ProtocolSafety`, `ProtocolResults`,
`ProtocolProgress`, `RevokeAllResults`, `Broker`, `UiGate`). Every section that holds a mutex is one
step, a blocking call is cut into taking, noticing that the wait is over, and letting go, and all steps
interleave freely. `Approval` says what each section of the approval coordinator does, `ApprovalMeaning`
what it comes to for its callers, `Coordinator` proves the object against it, `ApprovalTrace` proves what
every interleaving of sections keeps, with a log of consents, grants and revocations. `Protocol` adds the
run lease, the blocks and the lock threads, and `Broker` has the pieces of the broker that use several of
the objects together.

## What the code does not promise after all

Four properties one would expect fail in corners; the model keeps the code's behaviour.

- `decode_payload` refuses more than 10,000 records, but `VaultSession::add` does not check that bound.
  A payload reads back exactly when it is within it (`CodecProofs.RoundTripExactly`). `FullVault` shows
  it on a vault of exactly 10,000 records: one more add succeeds and seals to a file that does not open,
  which `Controller.VaultController.AddSecret` writes over both copies. While the session lasts, removing a
  record mends both copies (`FullVault.OneLessIsBack`, `Controller.VaultController.DeleteSecret`).
- If the last directory sync of a commit fails, an unlock in the same session of the machine reads the
  renamed primary although an older one is still what is durable. After a power loss the primary can
  then be older than what the session showed (`CopyOrder.NearnessCanFail`).
  `CopyOrder.UnlockStaysNearExactly` gives the exact condition.
- If a restore fails in its last sync, `continue_with_primary` still offers the primary read before it.
  Edits on top of it can leave a backup older than the primary (`CopyOrder.OrderCanFail`,
  `CopyOrder.UnguardedRunBreaksOrder`); the exact condition for one edit is
  `CopyOrder.ChangeKeepsOrderExactly`. No committed payload is lost in any of this
  (`Persistence.NothingIsLost`).
- `revoke_all` does not overwrite a decision that has been made, so the waiter can still turn it into
  grants (`ApprovalTrace.RevokeAllAloneExactly`, and a run in `ApprovalTrace.RevokeAllAloneCanGrant`);
  `revoke_grants` cancels the pending request first, and once it has revoked under its block nothing of
  what was consented to before is left (`RevokeAllResults.RevokeEverythingIsFinal`).

`restore_backup` and `continue_with_primary` leave the vault locked when they are called outside a
recovery, because they take the state out before they look at it; the model does the same.

## What is taken as given

- The cipher: `decrypt` accepts exactly what `encrypt` produces, and a tag is 16 bytes (`Crypto.Ideal`;
  `Crypto.IdealIsPossible` shows that all of it can hold at once).
  Key derivation is some function with 32-byte results. Unicode normalization is idempotent and keeps
  text well formed (`Model.IdealNormalizer`).
- Random draws (ids, keys, nonces, file names) are parameters; a draw can fail. New record ids, connection
  ids and request ids are unused ones.
- A clock is a parameter and each section reads it once. The wall clock may go back.
- The base64 and JSON libraries write what `Encodings` describes.
- A run returns only after its child has been reaped.

## Model

| member | source | states |
|---|---|---|
| `Utf8.FromUtf8IsExact` | crates/ladon-core/src/redact.rs:285-312 | the validity check finds exactly the longest well-formed prefix, and names an error length only where no continuation could help |
| `Utf8.EscapeIsWellFormed` | crates/ladon-core/src/redact.rs:285-320 | the batch escape of any bytes is well-formed UTF-8 (section 4 of RFC 3629) |
| `Utf8.EscapeKeepsWellFormed` | crates/ladon-core/src/redact.rs:288-296 | text that is already well formed passes unchanged |
| `Utf8.EscapeError` | crates/ladon-core/src/redact.rs:297-307 | inside the bytes reported as one error every byte becomes a hex escape, whatever follows |
| `Utf8.HexAllReads` | crates/ladon-core/src/redact.rs:304-306 | each escaped byte is a backslash, an x and two lower-case hex digits that read back as it |
| `Utf8.DrainRefines` | crates/ladon-core/src/redact.rs:285-312 | what one push emits, followed by the escape of what it keeps, is the escape of the whole, for every continuation: the escaper does not depend on how the stream is cut |
| `Utf8.IncompleteShape` | crates/ladon-core/src/redact.rs:297-312 | at most 3 bytes stay pending, a character cut off by the end of the input |
| `Escaper.Utf8Escaper.Push` | crates/ladon-core/src/redact.rs:285-312 | the loop over validity checks appends exactly the streaming escape to the capture and keeps its rest |
| `Escaper.Utf8Escaper.Finish` | crates/ladon-core/src/redact.rs:314-318 | the pending bytes become hex escapes at the end |
| `Capture.WholeTextExactly` | crates/ladon-core/src/redact.rs:346-368 | when a text is kept whole, exactly; a text of at most limit - 3 bytes always is |
| `Capture.WholeTextIsReturned` | crates/ladon-core/src/redact.rs:363-368 | a text that is kept whole comes back unchanged and nothing is reported omitted; otherwise it is reported truncated |
| `Capture.CutShape` | crates/ladon-core/src/redact.rs:363-385 | otherwise the result is prefix, marker, suffix, cut between characters, with kept plus omitted bytes equal to the total |
| `Capture.CaptureShows` | crates/ladon-core/src/redact.rs:346-385 | the whole text when what follows the longest head of whole characters fits the second half, otherwise that head, the marker, and the longest tail of whole characters that leaves room for it, with the missing bytes reported |
| `Capture.ShowsOne` | crates/ladon-core/src/redact.rs:363-385 | there is only one such result |
| `Capture.MarkerReads` | crates/ladon-core/src/redact.rs:375 | the marker reads "...[N bytes omitted]..." on a line of its own, N in decimal |
| `Capture.CaptureFits` | crates/ladon-core/src/redact.rs:363-385 | the result never exceeds the limit and is well-formed UTF-8 |
| `Capture.TrimIsLongest` | crates/ladon-core/src/redact.rs:346-361 | the tail buffer is the longest suffix that starts at a character and fits its half |
| `Capture.FitTailIsLongest` | crates/ladon-core/src/redact.rs:363-385 | finish gives up no more of the tail than the marker needs |
| `Capture.EmptyTailFits` | crates/ladon-core/src/redact.rs:54-56 | a limit of at least 128 leaves room for the head and the longest marker, which is why the trimming loop of finish ends |
| `Capture.BoundedCapture.PushStr` | crates/ladon-core/src/redact.rs:346-361 | head, tail, total and the started flag mirror the whole text pushed so far |
| `Capture.BoundedCapture.PopFrontCharacter` | crates/ladon-core/src/redact.rs:387-400 | drops exactly the first character of the tail |
| `Capture.BoundedCapture.Finish` | crates/ladon-core/src/redact.rs:363-385 | the bounded buffer returns what the batch capture of the whole text returns, which is the head, marker and tail just described |
| `Needles.ReplaceIsSplice` | crates/ladon-core/src/redact.rs:161-189 | the batch replacement is the raw text with exactly the reported intervals replaced, one count for each |
| `Needles.EveryOccurrenceIsHit` | crates/ladon-core/src/redact.rs:161-189 | every occurrence of a needle in the raw stream overlaps a replaced interval |
| `Needles.IntervalsAreLeftmostLongest` | crates/ladon-core/src/redact.rs:199-230 | the replaced intervals are the leftmost matches, the longest at each place, one after the other, and none is left after them |
| `Needles.OneLeftmostLongest` | crates/ladon-core/src/redact.rs:199-230 | there is only one such list |
| `Needles.FeedRefines` | crates/ladon-core/src/redact.rs:161-189 | one call of process that holds back the longest needle less one byte is a step of the batch leftmost-longest replacement, whatever is still to come |
| `Encodings.EncodeHex` | crates/ladon-core/src/redact.rs:246-258 | the loop writes the hex text that reads back as the bytes, in the asked case |
| `Encodings.HexExactly` | crates/ladon-core/src/redact.rs:246-258 | a text reads back as these bytes, two digits of one case for each, exactly when it is their encoding |
| `Encodings.PercentEncode` | crates/ladon-core/src/redact.rs:260-277 | the loop writes the percent-encoding that reads back as the bytes |
| `Encodings.PercentExactly` | crates/ladon-core/src/redact.rs:260-277 | exactly letters, digits, hyphen, full stop, underscore and tilde stand for themselves, and everything else is a percent sign and two digits (section 2.3 of RFC 3986) |
| `Encodings.Base64Exactly` | crates/ladon-core/src/redact.rs:71-86 | the four base64 forms (sections 4 and 5 of RFC 4648), read back bit by bit |
| `Encodings.JsonExactly` | crates/ladon-core/src/redact.rs:88-91 | the text between the quotes of a JSON string (section 7 of RFC 8259) with the short escapes where there are any, read back |
| `Encodings.FormsExactly` | crates/ladon-core/src/redact.rs:69-95 | the needles of a secret are exactly the texts that read back as it |
| `Redactor.PatternsAreTheForms` | crates/ladon-core/src/redact.rs:57-104 | the table holds exactly the texts that spell out a non-empty secret: its bytes, or what reads back to them as hex of one case, base64 in either alphabet with or without padding, and for text as JSON or percent-encoding |
| `Redactor.ConfigExactly` | crates/ladon-core/src/redact.rs:57-118 | the output is suppressed exactly when a secret has one, two or three bytes, and the marker is "[REDACTED]" unless that would spell out a secret, and then empty |
| `Redactor.FindNext` | crates/ladon-core/src/redact.rs:199-230 | the leftmost match that starts before the safe end, and among those the longest |
| `Redactor.StreamingRedactor.Process` | crates/ladon-core/src/redact.rs:161-189 | the loop emits and keeps what the batch step says |
| `Redactor.StreamingRedactor.Push` | crates/ladon-core/src/redact.rs:121-127 | pushing keeps the pipeline on course for the batch answer over everything pushed |
| `Redactor.StreamingRedactor.Finish` | crates/ladon-core/src/redact.rs:130-159 | the answer is the batch redaction of all bytes pushed, so it does not depend on how they were cut; and it is the one `Answers` describes |
| `Redactor.RedactAnswers` | crates/ladon-core/src/redact.rs:130-159 | unless everything is suppressed: the leftmost-longest matches replaced and counted, what is not text escaped, the outcome captured, and held back exactly when a needle is still in it |
| `Redactor.OneAnswer` | crates/ladon-core/src/redact.rs:130-159 | there is only one such answer |
| `Redactor.CleanTextComesBack` | crates/ladon-core/src/redact.rs:130-159 | text without needles and within limit - 3 bytes comes back as it is, with nothing counted, cut, omitted or suppressed |
| `Redactor.RedactReader` | crates/ladon-app/src/supervisor.rs:767-782 | the read loop returns the batch redaction of the concatenated chunks |
| `Redactor.RedactedTextIsClean` | crates/ladon-core/src/redact.rs:130-159 | a redacted text contains no needle, is well formed and fits the limit |
| `RunOutput.TruncateUtf8` | crates/ladon-app/src/supervisor.rs:821-830 | the string is cut at the last character boundary within the limit |
| `RunOutput.BalanceKeepsWhole` | crates/ladon-app/src/supervisor.rs:798-812 | popping characters off the longer stream stops as soon as the two fit |
| `RunOutput.EnforceCombinedLimit` | crates/ladon-app/src/supervisor.rs:784-819 | the in-place loop computes the balanced pair |
| `RunOutput.CombinedFits` | crates/ladon-app/src/supervisor.rs:784-819 | both streams are character-aligned prefixes, together they fit the limit, and the extra omitted count is exactly the bytes cut |
| `RunOutput.CombinedExactly` | crates/ladon-app/src/supervisor.rs:784-819 | both streams whole when they fit together, otherwise of each the longest prefix of whole characters within its half; with any accepted limit nothing is left to balance |
| `RunOutput.BalanceStopsInTime` | crates/ladon-app/src/supervisor.rs:798-812 | for any limit: characters go off the longer stream, the first one when equal, and the last one that went had to go |
| `RunOutput.RunOutputIsClean` | crates/ladon-app/src/supervisor.rs:289-308 | whatever the child writes, neither returned stream contains a text that spells out a bound secret in any of the forms, and both together fit the limit |
| `RunOutput.ReportMeans` | crates/ladon-app/src/supervisor.rs:289-308 | the result is made of the answers for the two streams and the shared limit: counts and omitted bytes add up, truncated and suppressed hold when they hold for either |
| `RunOutput.CleanRunIsUnchanged` | crates/ladon-app/src/supervisor.rs:289-308 | a child that writes text, reveals nothing and stays within the limit has its output returned unchanged |
| `RunOutput.CollectOutput` | crates/ladon-app/src/supervisor.rs:289-308 | the two read loops, the combined limit and the numbers of the result, end to end over any chunks; refused exactly outside 128 bytes to 2 MiB |
| `Cbor.ReadHeadOfEncode` | crates/ladon-core/src/codec.rs:95-134 | a shortest head (section 4.2.1 of RFC 8949) is read back with its major type and argument |
| `Layout.HeadLayout` | crates/ladon-core/src/codec.rs:95-134 | the bytes of a head (section 3 of RFC 8949): major type and length class, then the argument, most significant byte first |
| `Layout.EmptyVaultLayout` | crates/ladon-core/src/codec.rs:95-134 | the payload of a vault without records, byte by byte, as crates/ladon-core/tests/codec_roundtrip.rs has it |
| `Layout.FieldLayout` | crates/ladon-core/src/codec.rs:367-387 | a field, byte by byte |
| `Layout.RecordLayout` | crates/ladon-core/src/codec.rs:356-390 | a record, byte by byte |
| `Cbor.KeyOrderIsTotal` | crates/ladon-core/src/codec.rs:352-354 | the length-first key order (section 4.2.3 of RFC 8949) is a strict total order, so a strictly ordered map has no repeated key |
| `Cbor.CanonicalExactly` | crates/ladon-core/src/codec.rs:200-346 | a raw unknown value is accepted exactly when it is the definite, shortest encoding of an item whose maps are strictly ordered and whose depth stays below 16 |
| `Cbor.SkipCanonical` | crates/ladon-core/src/codec.rs:173-183 | skipping an unknown value consumes exactly that value |
| `CodecProofs.RoundTripExactly` | crates/ladon-core/src/codec.rs:95-198 | decode(encode(p)) = p, unknown fields included, exactly when p has at most 10,000 records |
| `CodecProofs.DecodeExactly` | crates/ladon-core/src/codec.rs:136-198 | an input is accepted as p if and only if p is well formed, has at most 10,000 records and the input is its encoding |
| `FullVault.FullVaultTakesOneMore` | crates/ladon-core/src/vault.rs:134-151 | a session of exactly 10,000 records adds one more, and the result is encoded |
| `FullVault.OneMoreIsLost` | crates/ladon-core/src/store.rs:125-139 | the file of the full vault opens; the file sealed after one more add does not |
| `FullVault.OneLessIsBack` | crates/ladon-core/src/vault.rs:192-199 | in the same session the removal of any one record succeeds, and what is left seals to a file that opens |
| `VaultCodec.Encode` | crates/ladon-core/src/codec.rs:95-134 | the encoder, entry by entry, writes the specified bytes or refuses a payload that is too large |
| `VaultCodec.EncodeRecordTo` | crates/ladon-core/src/codec.rs:356-390 | a record and its fields are appended in their canonical form |
| `VaultCodec.Decode` | crates/ladon-core/src/codec.rs:136-198 | the decoder loop, its cursor and its final comparison compute the specified parse |
| `VaultCodec.DecodeEntryAt` | crates/ladon-core/src/codec.rs:149-184 | one turn of the entry loop: ascending keys, each known key at most once, unknown values only when canonical |
| `VaultCodec.DecodeRecordsAt` | crates/ladon-core/src/codec.rs:392-399 | the record loop reads the announced number of records |
| `VaultCodec.DecodeRecordAt` | crates/ladon-core/src/codec.rs:401-425 | a record is accepted with exactly its three keys in order and at least one field |
| `VaultCodec.DecodeFieldAt` | crates/ladon-core/src/codec.rs:427-448 | a field is accepted with exactly its three keys in order |
| `VaultCodec.CanonicalizeItem` | crates/ladon-core/src/codec.rs:208-346 | the recursive rewriting appends the canonical encoding of the item it reads and leaves the cursor after it |
| `VaultCodec.IsCanonicalUnknownValue` | crates/ladon-core/src/codec.rs:200-206 | comparing the rewritten bytes with the input decides canonicity |
| `Crypto.HeaderExactly` | crates/ladon-core/src/crypto.rs:351-412 | a header is accepted if and only if it is within its bounds and its own encoding |
| `Layout.NewHeaderLayout` | crates/ladon-core/src/crypto.rs:351-372 | the header of a new vault: Argon2id, 64 MiB, three passes, four lanes, 73 bytes in this order |
| `Layout.NewVaultFile` | crates/ladon-core/src/crypto.rs:169-242 | the file of a new vault part by part, and what the wrapped key and the payload are each encrypted with and bound to |
| `Crypto.LaidIsParsed` | crates/ladon-core/src/crypto.rs:286-349 | a file laid out from its parts is cut into exactly those parts |
| `Crypto.ParsedIsLaid` | crates/ladon-core/src/crypto.rs:286-349 | an accepted file is the concatenation of the parts it is cut into |
| `Crypto.NewKeyMaterial` | crates/ladon-core/src/crypto.rs:169-214 | the buffer built step by step is a prefix that wraps the drawn key under the passphrase; it fails exactly when a draw, the key derivation or the cipher does |
| `Crypto.SealPayload` | crates/ladon-core/src/crypto.rs:216-242 | the buffer built step by step is the sealing of the payload |
| `Crypto.SealSucceeds` | crates/ladon-core/src/crypto.rs:216-242 | sealing succeeds exactly when the payload has at most 64 MiB and the cipher takes it |
| `Crypto.UnlockOfSeal` | crates/ladon-core/src/crypto.rs:136-242 | a file sealed under a passphrase opens with it, to the same payload and keys, exactly when it holds at most 10,000 records |
| `Crypto.SealOfUnlock` | crates/ladon-core/src/crypto.rs:136-167 | whatever opens with a passphrase is the sealing of what it opens to |
| `Crypto.SealedFileFits` | crates/ladon-core/src/crypto.rs:216-242 | a sealed file never exceeds the size open_copy accepts |
| `Session.Find` | crates/ladon-core/src/vault.rs:228-236 | the first record the reference names, or none does |
| `Session.EditKeeps` | crates/ladon-core/src/vault.rs:98-199 | every edit that succeeds raises the revision by exactly one, changes nothing but the records, and keeps ids and names unique |
| `Session.EditMeans` | crates/ladon-core/src/vault.rs:98-199 | seen as a map from ids, an edit adds, changes or removes exactly the entry it names |
| `Model.ParseNameExactly` | crates/ladon-core/src/model.rs:51-64 | a name is accepted as its normal form, exactly when that has 1 to 128 bytes, no "::", no "id:" in front and none of the forbidden code points |
| `EditResults.EditExactly` | crates/ladon-core/src/vault.rs:98-199 | when an edit succeeds, exactly, and the payload it then leads to |
| `EditResults.RefusalExplains` | crates/ladon-core/src/vault.rs:72-236 | the error of a refused edit is true of the payload and the edit |
| `Session.PrepareExactly` | crates/ladon-core/src/vault.rs:72-96 | an update is prepared exactly for the first record the reference names, when the name parses and no other record has it and the fields fit; it carries the new name, the new fields and the revision shown |
| `EditResults.UpdateMeans` | crates/ladon-core/src/vault.rs:72-114 | preparing an update and applying it at the same revision puts the new name and fields in place of those of the record named, and changes nothing else |
| `Session.PreparedIsCurrent` | crates/ladon-core/src/vault.rs:72-114 | an edit prepared from any payload shown before that meets an equal revision was prepared from the very payload it is applied to, so names stay unique unchecked |
| `Session.VaultSession.Add` | crates/ladon-core/src/vault.rs:134-151 | the payload becomes the added one, or nothing changes and the error says why |
| `Session.VaultSession.Rename` | crates/ladon-core/src/vault.rs:153-175 | likewise for a rename; an id reference is refused as a name |
| `Session.VaultSession.ReplaceFields` | crates/ladon-core/src/vault.rs:177-190 | likewise for replacing the fields |
| `Session.VaultSession.Delete` | crates/ladon-core/src/vault.rs:192-199 | likewise for a deletion |
| `Session.VaultSession.PrepareRecordReplacement` | crates/ladon-core/src/vault.rs:72-96 | preparing changes nothing and records the revision it was made at |
| `Session.VaultSession.ApplyRecordReplacement` | crates/ladon-core/src/vault.rs:98-114 | an edit prepared from any payload shown since the process started is applied, or refused when the revision has moved |
| `Store.VaultStore.CommitEncrypted` | crates/ladon-core/src/store.rs:65-87 | it succeeds if and only if both writes, both reads back, both renames and both directory syncs go well, and then both copies are the new file and durable; otherwise exactly the effects before the first failure have happened, and no candidate is left |
| `Persistence.StepKeeps` | crates/ladon-app/src/ui.rs:428-623 | every operation, completed or cut short at any effect, keeps the invariant of the copies |
| `Persistence.NothingIsLost` | crates/ladon-app/src/ui.rs:428-623 | in every run with power lost anywhere, each copy found opens, holds the last committed payload or something edited from it, and both are durable after the first acknowledged commit |
| `Persistence.BackupStays` | crates/ladon-core/src/store.rs:65-87 | once a backup is durable there is always a durable backup |
| `Persistence.CommitIsFinal` | crates/ladon-core/src/store.rs:65-110 | an acknowledged commit is what the session goes on with, and what every unlock finds, after a lock and after any power loss |
| `Persistence.UnlockShowsNewest` | crates/ladon-core/src/store.rs:89-110 | an unlock never opens silently over a newer copy of the same vault, offers that copy first, and fails only when nothing opens |
| `Persistence.SameRevisionSamePayload` | crates/ladon-app/src/ui.rs:414-442 | through any locks, unlocks, recoveries and failed commits of one process, two sessions that show the same revision show the same payload |
| `Persistence.PrimaryNeverFallsBelow` | crates/ladon-app/src/ui.rs:480-583 | once a session has shown a revision, the visible primary is never below it, and at that revision it is what was shown |
| `CopyOrder.BackupIsNeverBehind` | crates/ladon-core/src/store.rs:65-110 | the backup is never older than a primary, in every run that continues with a primary only while no failed restore has been renamed over it |
| `CopyOrder.ChangeKeepsOrderExactly` | crates/ladon-core/src/store.rs:65-87 | an edit keeps that order at every point of its commit if and only if no primary copy is more than one revision ahead of the payload edited |
| `CopyOrder.UnguardedRunBreaksOrder` | crates/ladon-app/src/ui.rs:520-583 | without the guard the order fails: a failed sync, a power loss, a failed restore, then continuing with the primary |
| `CopyOrder.CopiesStayNear` | crates/ladon-app/src/ui.rs:480-623 | each copy is the acknowledged payload or one edit ahead of it (or the empty vault of a creation that failed), in every run whose sessions open over a primary that is firmly stored |
| `CopyOrder.UnlockStaysNearExactly` | crates/ladon-app/src/ui.rs:480-518 | an unlock keeps that property if and only if the primary is firm; unlocking over an unsynced rename loses it |
| `CopyOrder.ContinueOverRestored` | crates/ladon-app/src/ui.rs:558-583 | continuing with a primary over which a failed restore was renamed loses it too |
| `CopyOrder.NearnessCanFail` | crates/ladon-app/src/ui.rs:480-518 | a concrete run: one commit whose last sync fails, and an unlock |
| `CopyOrder.OrderCanFail` | crates/ladon-app/src/ui.rs:520-583 | a concrete run that ends with a primary newer than the backup |
| `Controller.SealedOpens` | crates/ladon-core/src/store.rs:125-139 | a sealed vault is accepted by open_copy and comes back as it was, exactly when it has at most 10,000 records |
| `Controller.NothingOpens` | crates/ladon-core/src/store.rs:89-110 | once both copies are a file that does not open, unlocking fails with nothing to restore |
| `Controller.FoundFilesAreGood` | crates/ladon-core/src/store.rs:125-139 | after any run, each file found after a power loss opens and holds the last committed payload or something edited from it |
| `Controller.PowerLossOfFiles` | crates/ladon-core/src/store.rs:125-139 | a power loss of the files and a new start is, through what the files open to, the power loss of the system, and every file found still opens |
| `Controller.CommitVault` | crates/ladon-core/src/store.rs:60-63 | sealing and committing succeeds exactly when the nonce is drawn, the payload can be sealed and nothing goes wrong on the disk; it moves the two copies to a stage of the commit, with a file that opens to the vault exactly when it is within the bound |
| `Controller.VaultController.Create` | crates/ladon-app/src/ui.rs:456-478 | creating is one step of the persistence system, with revision 0 and no records; it succeeds exactly when the passphrase is confirmed, all draws, key wrapping and sealing succeed and the commit goes through |
| `Controller.VaultController.UnlockVault` | crates/ladon-app/src/ui.rs:480-518 | unlocking is one step: a session, a recovery, or an error when neither copy opens |
| `Controller.VaultController.RestoreBackup` | crates/ladon-app/src/ui.rs:520-546 | restoring is one step and succeeds exactly when the commit goes through; outside a recovery it is refused but leaves the vault locked |
| `Controller.VaultController.ContinueWithPrimary` | crates/ladon-app/src/ui.rs:558-583 | continuing is one step; outside a recovery it is refused but leaves the vault locked |
| `Controller.VaultController.AddSecret` | crates/ladon-app/src/ui.rs:585-610 | adding is one step, succeeds exactly when the edit does and the commit goes through, and a failed commit locks the vault; past 10,000 records the session goes on, and the file committed is one that does not open |
| `Controller.VaultController.DeleteSecret` | crates/ladon-app/src/ui.rs:612-623 | likewise for a deletion; from a session past the bound, one that brings it back within it and is committed puts a file that opens in both copies and makes all well again |
| `Controller.VaultController.PrepareSecretUpdate` | crates/ladon-app/src/ui.rs:414-426 | preparing changes nothing and notes the revision shown |
| `Controller.VaultController.ApplySecretUpdate` | crates/ladon-app/src/ui.rs:428-442 | likewise for an update prepared at any earlier moment of the process, with whatever locks, unlocks and recoveries in between |
| `Controller.VaultController.LockVault` | crates/ladon-app/src/ui.rs:742-749 | locking ends the session, except on the first run |
| `Grants.LiveExactly` | crates/ladon-core/src/grants.rs:99-288 | a pair is live with a deadline if and only if it was granted with that deadline and no later call revoked it, granted it anew or observed it expired |
| `Grants.GrantLastsExactly` | crates/ladon-core/src/grants.rs:24-39 | a grant that no later call touches is there if and only if every later look came before its end: the lifetime in whole milliseconds, the wall time, both for an unattended one, none for a session |
| `Grants.MissingStaysMissing` | crates/ladon-core/src/grants.rs:207-223 | a pair that is missing stays missing until it is granted again, whatever the clocks do |
| `Grants.UnattendedIsBounded` | crates/ladon-core/src/grants.rs:24-39 | while an unattended grant is live every look at it was before both its wall and its monotonic bound |
| `Grants.UseNeverExtends` | crates/ladon-core/src/grants.rs:225-230 | a deadline changes only by granting again |
| `Grants.GrantStore.GrantUnattendedUntil` | crates/ladon-core/src/grants.rs:149-170 | the store records the grant with both bounds |
| `Grants.GrantStore.Missing` | crates/ladon-core/src/grants.rs:207-223 | the distinct requested secrets that are not live |
| `Grants.GrantStore.RevokePair` | crates/ladon-core/src/grants.rs:265-270 | the pair is gone, and the answer says whether it was live |
| `ApprovalTrace.NextKeeps` | crates/ladon-app/src/approval.rs:275-1046 | every section keeps the invariant of the coordinator |
| `ApprovalTrace.NoStaleDecision` | crates/ladon-app/src/approval.rs:344-442 | in every interleaving a live grant of a connected client rests on a consent that no covering revocation, save, deletion, lock, vault lock or disconnection has followed |
| `ApprovalLifetimes.ApprovalEnds` | crates/ladon-app/src/approval.rs:370-415 | in every run, after an approval has become grants and until a new one is made, the secret is released without asking only before the end that was chosen: a lifetime, 30 minutes by default, a wall time, or the session |
| `ApprovalLifetimes.ApprovalHolds` | crates/ladon-app/src/approval.rs:370-415 | in every run, until then, while nothing undoes it, the pair stays granted and a request for it is answered at once |
| `ApprovalTrace.LockedKeepsOnlyUnattended` | crates/ladon-app/src/approval.rs:591-612 | while the app is not active every grant is unattended and a pending request is already cancelled |
| `ApprovalTrace.RevokeAllAloneExactly` | crates/ladon-app/src/approval.rs:679-688 | revoke_all alone lets the waiter grant afterwards if and only if the decision on its request is positive |
| `ApprovalTrace.RevokeAllAloneCanGrant` | crates/ladon-app/src/approval.rs:679-688 | a run from the beginning: an approval, then revoke_all, then a live grant |
| `ApprovalTrace.CancelThenRevokeAll` | crates/ladon-app/src/agent_broker.rs:937-939 | cancelling the pending request and then revoking, with nothing in between, leaves the waiter nothing to grant |
| `ApprovalTrace.UnattendedOnlyIfUndisturbed` | crates/ladon-app/src/approval.rs:882-961 | grant_unattended succeeds only if since the capture nothing was revoked, saved or deleted, no lock begun or vault locked, and the client kept its connection and vault session |
| `ApprovalMeaning.ActivePublishExactly` | crates/ladon-app/src/approval.rs:300-336 | asking while the app is active: busy exactly beside another request, answered at once exactly when all is granted, otherwise published for exactly what is not |
| `ApprovalMeaning.LockedPublishExactly` | crates/ladon-app/src/approval.rs:281-299 | asking under a lock: answered exactly when unattended grants of the same vault session cover it |
| `ApprovalMeaning.DecideExactly` | crates/ladon-app/src/approval.rs:764-797 | a decision is taken exactly when this very request is pending and undecided and its client is still there, and then it is what is recorded |
| `ApprovalMeaning.PollExactly` | crates/ladon-app/src/approval.rs:344-442 | what a waiter is told, for every decision |
| `ApprovalMeaning.ApprovalGives` | crates/ladon-app/src/approval.rs:370-415 | the secrets asked for get the deadline that goes with the way of approving, and no other grant changes |
| `ApprovalMeaning.RegisterExactly` | crates/ladon-app/src/approval.rs:445-476 | a session is registered exactly when registration is open, the client is not connected and fewer than 32 are; it starts without grants |
| `ApprovalMeaning.CloseExactly` | crates/ladon-app/src/approval.rs:485-494 | closing cancels every registered connection and leaves nobody and no grant of theirs |
| `ApprovalMeaning.BeginLockExactly` | crates/ladon-app/src/approval.rs:591-612 | a lock begins exactly while the app is active, cancels the request, and leaves exactly the unattended grants that it spares and that are not over |
| `ApprovalMeaning.RevokePairExactly` | crates/ladon-app/src/approval.rs:690-710 | that pair and no other is taken away, the answer says whether it was granted, and a request that asked for it is cancelled |
| `ApprovalMeaning.RevokeClientExactly` | crates/ladon-app/src/approval.rs:994-1011 | likewise for a client |
| `ApprovalMeaning.MutateExactly` | crates/ladon-app/src/approval.rs:712-737 | likewise for a secret that is changed, exactly when the change could be prepared; the outcome is that of the change |
| `ApprovalMeaning.ValidExactly` | crates/ladon-app/src/approval.rs:739-762 | a ticket is good exactly when it is for the present vault session and all on it is granted, under a lock by unattended grants of a connected client |
| `ApprovalMeaning.AccessExactly` | crates/ladon-app/src/approval.rs:963-992 | when a client has access, and when unattended grants cover a run |
| `ApprovalMeaning.CaptureExactly` | crates/ladon-app/src/approval.rs:882-919 | when an unattended consent can be captured, and what it notes |
| `ApprovalMeaning.GrantUnattendedExactly` | crates/ladon-app/src/approval.rs:921-961 | unattended grants are made exactly within the next 24 hours and with nothing changed since the consent, with these deadlines, and answer a request they cover |
| `Coordinator.ApprovalCoordinator.PurgeDisconnectedClients` | crates/ladon-app/src/approval.rs:1026-1046 | the loop drops exactly the disconnected clients, their grants and the decision on their request |
| `Coordinator.ApprovalCoordinator.Authorize` | crates/ladon-app/src/approval.rs:275-343 | asking: refused, answered at once, or published for a decision |
| `Coordinator.ApprovalCoordinator.PollOnce` | crates/ladon-app/src/approval.rs:344-442 | one turn of the waiting loop |
| `Coordinator.ApprovalCoordinator.SetDecision` | crates/ladon-app/src/approval.rs:764-797 | a decision is recorded once, for the published request |
| `Coordinator.ApprovalCoordinator.RegisterClientSession` | crates/ladon-app/src/approval.rs:445-476 | a new session starts without grants |
| `Coordinator.ApprovalCoordinator.CloseClientSessions` | crates/ladon-app/src/approval.rs:485-494 | every registered connection is cancelled and dropped |
| `Coordinator.ApprovalCoordinator.BeginAppLockWithPolicy` | crates/ladon-app/src/approval.rs:591-612 | a lock begins a new epoch, cancels the pending request and drops the grants it does not spare |
| `Coordinator.ApprovalCoordinator.ResetAfterVaultLock` | crates/ladon-app/src/approval.rs:634-647 | a vault lock begins a new epoch and drops everything |
| `Coordinator.ApprovalCoordinator.RevokePair` | crates/ladon-app/src/approval.rs:690-710 | the pair and a decision that covers it are revoked |
| `Coordinator.ApprovalCoordinator.RevokeClient` | crates/ladon-app/src/approval.rs:994-1011 | the client and a decision on its request are revoked |
| `Coordinator.ApprovalCoordinator.CoordinateSecretMutation` | crates/ladon-app/src/approval.rs:712-737 | the secret is revoked everywhere before it is changed |
| `Coordinator.ApprovalCoordinator.WithValidGrant` | crates/ladon-app/src/approval.rs:739-762 | when a ticket is still good |
| `Coordinator.ApprovalCoordinator.CaptureUnattendedWith` | crates/ladon-app/src/approval.rs:882-919 | what an unattended consent is tied to |
| `Coordinator.ApprovalCoordinator.GrantUnattended` | crates/ladon-app/src/approval.rs:921-961 | the checks before an unattended grant, and its effect |
| `Runs.RunCoordinator.BlockForRevoke` | crates/ladon-app/src/agent_broker.rs:446-481 | the block is taken, and a run bound to the pair or not yet known not to be is cancelled |
| `Runs.RunCoordinator.BlockNewRuns` | crates/ladon-app/src/agent_broker.rs:387-408 | the block is taken and the active run is cancelled |
| `Runs.RunCoordinator.Spawn` | crates/ladon-app/src/agent_broker.rs:531-547 | a child starts only with its secrets known and its token alive; otherwise nothing is spawned at all |
| `Runs.RunCancellation.Launch` | crates/ladon-app/src/supervisor.rs:60-73 | behind a cancelled gate the callback is not called: the record of its calls does not grow |
| `Broker.ReserveRun` | crates/ladon-app/src/agent_broker.rs:1352-1360 | a run is reserved and its access checked; a refused one leaves no lease |
| `Broker.FinishRevokeGrant` | crates/ladon-app/src/agent_broker.rs:1124-1128 | under the block the pair is revoked, nothing bound to it runs, and the block is released |
| `Broker.RevokeSession` | crates/ladon-app/src/agent_broker.rs:1091-1103 | a session without a run is revoked at once; with one, it is cancelled and waited for under the block |
| `Broker.CancelUncovered` | crates/ladon-app/src/agent_broker.rs:783-805 | an automatic lock cancels the active run exactly when unattended grants do not cover it |
| `Broker.BeginManualLock` | crates/ladon-app/src/agent_broker.rs:749-758 | a manual lock takes the local operation, begins and cancels the active run, or gives the operation back |
| `Broker.FinishManualLock` | crates/ladon-app/src/agent_broker.rs:763-770 | the lock is complete, and the local operation and the block are given back |
| `Broker.AutoLockControllerIfIdle` | crates/ladon-app/src/agent_broker.rs:872-887 | nothing happens beside a run or another block; otherwise an idle vault resets the coordinator, and the block is always released |
| `ProtocolProgress.ApprovedRunGoesThrough` | crates/ladon-app/src/agent_broker.rs:1356-1408 | from any state with nothing in the way, a run that asks and is approved in any of the ways there are is launched, if the approval is not over by then |
| `ProtocolProgress.GrantedRunIsTicketed` | crates/ladon-app/src/approval.rs:300-320 | a run whose secrets are all granted gets its ticket without asking |
| `ProtocolProgress.PlainRunGoesThrough` | crates/ladon-app/src/agent_broker.rs:1408-1417 | a run without bindings is launched after its access checks |
| `ProtocolProgress.UnrelatedRunGoesOn` | crates/ladon-app/src/agent_broker.rs:446-481 | revoking a grant leaves a run that is not bound to it alone, and does not wait for it |
| `ProtocolProgress.RevocationGoesThrough` | crates/ladon-app/src/agent_broker.rs:1091-1129 | a revocation of a pair or a client cancels the run it hits, and once that has ended revokes and gives the block back |
| `ProtocolProgress.ManualLockGoesThrough` | crates/ladon-app/src/agent_broker.rs:749-774 | a manual lock completes with no grant left, and with its epoch the app can be unlocked |
| `ProtocolProgress.CoveredRunIsSpared` | crates/ladon-app/src/agent_broker.rs:777-834 | an automatic lock completes beside a run whose secrets are all granted unattended, and leaves it alone |
| `ProtocolSafety.TakeKeeps` | crates/ladon-app/src/agent_broker.rs:1356-1417 | every step of every thread keeps the invariant of the protocol |
| `ProtocolSafety.ValidIsConsent` | crates/ladon-app/src/approval.rs:739-762 | a ticket that is still valid rests, pair by pair, on a consent no revocation has followed |
| `ProtocolResults.RevocationIsFinal` | crates/ladon-app/src/agent_broker.rs:1110-1129 | in every interleaving, after a revocation of a pair or its client a child bound to the pair runs or is launched only after a new consent to that pair |
| `ProtocolResults.NothingRunsAtRevocation` | crates/ladon-app/src/agent_broker.rs:1091-1129 | when revoke_grant revokes, no child bound to the pair is running, even if the run was caught before its secrets were known; when revoke_session revokes, the client has no run at all |
| `RevokeAllResults.NothingIsLeft` | crates/ladon-app/src/agent_broker.rs:937-953 | in every interleaving, when the thread that holds the block revokes all grants or resets after a vault lock, there is no grant, no pending request and no run |
| `RevokeAllResults.RevokeEverythingIsFinal` | crates/ladon-app/src/agent_broker.rs:567-611 | in every continuation, each grant and each launched child rests on a consent given after it |
| `ProtocolResults.ManualLockIsComplete` | crates/ladon-app/src/agent_broker.rs:749-774 | when a manual lock is complete there is no grant, no child and no run past its reservation |
| `ProtocolResults.NoLaunchUntilUnlock` | crates/ladon-app/src/agent_broker.rs:1408-1417 | after that no child is launched before the app is unlocked or the vault lock is reset, though a plain run checks and spawns in separate steps |
| `ProtocolResults.OnlyUnattendedUnderLock` | crates/ladon-app/src/approval.rs:591-612 | in the protocol too, every grant under a lock is unattended and the pending request cancelled |
| `ProtocolResults.ClearedWasCovered` | crates/ladon-app/src/approval.rs:979-992 | an entry of the log that clears a run was written by a step that had just found its client connected and its secrets covered by unattended grants |
| `ProtocolResults.AutoLockSparesOnlyCovered` | crates/ladon-app/src/agent_broker.rs:777-834 | when an automatic lock is complete, a running child was cleared by an entry written since the lock began, at a step that found it covered: the check of the lock, or the one before its own launch |
| `UiGate.GateIsExclusive` | crates/ladon-app/src/agent_broker.rs:218-356 | acknowledged <= requested <= acknowledged + 1, no local operation beside an unacknowledged external lock, at most one local operation, and ready names only the outstanding request |
| `UiGate.FinishedWasAcknowledged` | crates/ladon-app/src/agent_broker.rs:280-302 | finish_request returns Ok only after that request was acknowledged |
| `UiGate.AnswerIsUndisturbed` | crates/ladon-app/src/unlock_request.rs:69-77 | in the very step that takes the answer Ok nothing has been cancelled since the sample: a decision already made does not survive a cancellation, however late the waiter looks |
| `UiGate.ContinuedWasAllowed` | crates/ladon-app/src/unlock_request.rs:48-131 | an unlock wait was answered Ok only if its own id was allowed, and nothing was cancelled between its epoch sample and the moment it took the answer |
| `UiGate.NoLockBeganMeanwhile` | crates/ladon-app/src/agent_broker.rs:1426-1472 | no external lock began between the sample of the epoch and the moment the answer was taken, so a caller that sampled before one began never continues |
| `UiGate.UnlockGoesThrough` | crates/ladon-app/src/unlock_request.rs:48-131 | a caller that asks while no request is pending, and is allowed, goes on |
| `UiGate.UnlockExactly` | crates/ladon-app/src/unlock_request.rs:48-131 | when a request is published and when it is decided, and that the waiter finds that decision unless it was cancelled since |
| `UiGate.ExternalLockGoesThrough` | crates/ladon-app/src/agent_broker.rs:218-337 | an external lock begins, keeps local operations out until the window acknowledges it, and is then finished |
| `UiGate.LocalOperationGoesThrough` | crates/ladon-app/src/agent_broker.rs:237-278 | a local operation begins, and until it ends there is no other one and external locks wait |
| `UiGate.WithoutWindow` | crates/ladon-app/src/agent_broker.rs:339-345 | without the window everything fails at once instead of waiting |
| `UiGate.UiLockCoordinator.BeginExternal` | crates/ladon-app/src/agent_broker.rs:218-235 | beginning an external lock also cancels every unlock request |
| `UiGate.UiLockCoordinator.BeginLocalOperation` | crates/ladon-app/src/agent_broker.rs:237-278 | a local operation begins only with no other one and no outstanding external lock |
| `UiGate.UiLockCoordinator.MarkReady` | crates/ladon-app/src/agent_broker.rs:280-288 | only the outstanding request can be made ready |
| `UiGate.UiLockCoordinator.PendingRequest` | crates/ladon-app/src/agent_broker.rs:305-311 | what the window is shown is exactly what is ready |
| `UiGate.UiLockCoordinator.AcknowledgeRequest` | crates/ladon-app/src/agent_broker.rs:325-337 | only the ready request can be acknowledged |
| `UiGate.UiLockCoordinator.DisconnectWindow` | crates/ladon-app/src/agent_broker.rs:339-345 | a lost window also cancels every unlock request |
| `UiGate.UiLockCoordinator.ResolveUnlock` | crates/ladon-app/src/unlock_request.rs:48-67 | a request is resolved once, by its own id |
| `UiGate.UiLockCoordinator.PublishUnlock` | crates/ladon-app/src/unlock_request.rs:79-107 | a request is published only at the sampled epoch and when none is pending |
| `UiGate.UiLockCoordinator.TurnUnlock` | crates/ladon-app/src/unlock_request.rs:109-131 | one turn of the wait, and clearing the request |

## Left out

- Redactor.FindNext: the substring search library is specified by its first occurrence.
- Cbor.CanonicalExactly: a two-byte simple value below 32 is refused, as section 3.3 of RFC 8949 requires of a decoder; the library's own reading of that byte pair is not part of this model.
- Cbor.SkipCanonical: indefinite items are refused by the model's skip, where the library steps over them; they can never be canonical, so the same inputs are refused in the end.
- Codec: the unknown top-level fields are a list in ascending key order where the code has an ordered map.
- Session.VaultSession.Add: a vector holds fewer than 2^64 records.
- Activity timestamps, idle timeouts, and reading a single field or record out of a session.
- Crypto: `rotate_passphrase`, which the controller does not use.
- Controller: one passphrase; what a wrong passphrase opens depends on the cipher in ways not assumed here. Drafts of records are given as their checked fields.
- Controller.VaultController.LockVault: what unlocking finds after a session past 10,000 records was locked is stated by `Controller.NothingOpens` and not followed further.
- Store.VaultStore.CommitEncrypted: removing a candidate file after a failure always works. Other processes do not touch the directory.
- Grants: the list of active grants with their display fields.
- Approval: client labels, session annotations and other display data. Dropping expired grants while labels are pruned is kept.
- ApprovalTrace: which vault session a request names is a parameter; the controller's plan for a run is not part of it.
- Protocol: the gate for local operations and the unlock prompt are proved on their own in `UiGate`; here any thread may start at any time, which only adds interleavings. That every thread gets its turn is not stated; `ProtocolProgress` gives the runs that get through.
- Protocol: `revoke_grants`, the hard lock and cancel-and-wait are threads that take the block while the sections they run are free to happen at any time.
- UiGate.ContinuedWasAllowed: the counter of cancellations does not wrap around.
- Mutex poisoning, socket and process handling, temporary files, the desktop, tray, clipboard and Touch ID code, the command line and JSON glue, exposure scanning, and session authentication.
