# StreamLift in Dafny

A model of the parts of StreamLift where a small slip loses data, and proofs about it. One module models one component:

| module | models |
|---|---|
| `Basics` | what several of the models share |
| `NumberTheory`, `MegaRsa` | the BigInt arithmetic of the MEGA login: modular exponentiation, RSA by the Chinese remainder theorem, multi-precision integers |
| `Hashcash` | the proof of work of the MEGA login |
| `AesTables`, `Aes`, `AesCipher`, `AesExample` | AES-128 (FIPS 197) on a 16-byte state in place, its block-by-block use, and the standard's worked example |
| `Decimal`, `ByteRanges` | cutting a file into byte ranges in the browser, serving one range on the worker |
| `Transfer`, `TransferSafety`, `TransferResults`, `TransferProgress`, `TransferFinish`, `EarlyClicks`, `DownloadObject` | the parallel resumable download: the protocol, what it keeps, what it saves, when a call goes on and when it gives up, that it can be finished, runs in which it goes wrong, and the shared variables that follow it |
| `SegmentGrid` | HLS segment lengths on a frame grid or on real keyframes |
| `Scheduler`, `SchedulerSafety`, `SchedulerWaits`, `SchedulerRuns`, `SchedulerProgress`, `SessionObject` | encoder batches, validation, fallbacks and slots of a session: the steps, when they keep what is published, what the waits for a watcher have to do with it, runs in which it is lost, that every segment can be published, and the session's fields with the render driver |
| `RenderStore`, `RenderProgress`, `StaleEntry` | queueing, publishing, cancelling and deleting pre-rendered qualities |
| `KeyedSort`, `Bencode`, `TorrentFiles`, `TorrentExample` | the bencode encoder, both decoders, the file list and the info-hash bytes of a torrent, and one .torrent in full |
| `RateLimit` | the fixed-window request limiter |
| `Pairing`, `PairingStore` | pairing a TV: codes, devices, tokens |
| `SyncReplica` | the delta sync with periodic orphan reconciliation |

Protocols are step systems: an event may come in any order, a run is any sequence of events, and an event that cannot
happen where it stands is skipped. What the network, ffmpeg, a user or a clock does is an event or a parameter. Beside
the step system stands a class that changes its fields in place as the program does, each method proved to be one step.

## Where the code does less than it says

- `_ensure_batch` promises never to overwrite a segment a player may be reading. It does not look again at the requested
  segment after it has waited for the old batch; if that batch published the segment meanwhile, the new batch starts at it
  (`SchedulerRuns.StaleRestartHappens`). For a transcoded session this is the only exception as long as no wait for a
  watcher gives up (`SchedulerWaits.TranscodedIsCareful`, `SchedulerWaits.TranscodedRunKeeps`).
- The wait for the old batch's watcher gives up after ten seconds (streaming.py:1768), and the watcher goes on reading. A
  segment it has under validation may lose its file to the clean-up and is then published without one
  (`SchedulerRuns.LostWhileChecked`), or it publishes what the next batch has only half written
  (`SchedulerRuns.PublishedWhileWritten`).
- The render driver gives up after thirty seconds (renders.py:805). It may then take a segment that is still under
  validation for done and finish the rendition, before the validation removes the file (`SchedulerRuns.DriverGivesUp`).
- On a copied session a later batch may cover a segment that was given up. It then writes over the fallback that was
  published for the segment (`SchedulerRuns.FallbackReplacementHappens`), or its own half-written file is published in
  place of one (`SchedulerRuns.AcceptReplacementHappens`).
- The parts of a download can be restarted as soon as they are cut, while the picked file is still being opened. What
  such a call receives goes to memory and never reaches the file (`EarlyClicks.FetchedTooEarly`); a call that is still
  alive when the file is open gets a second one beside it (`TransferResults.TwoCallsIff`), and the two together write one
  part twice over (`EarlyClicks.FetchedTwice`). Without such clicks the download is right
  (`TransferResults.FinishedIsSource`).
- A delete removes the directory of a pre-rendered quality before its manifest entry. If the worker dies in between, the
  next render of the quality looks ready by the old entry before it is finished (`StaleEntry.ReadyByLeftover`).
- The comments on the download tunables (8 restarts, 6 parts, 10 MB) differ from the defaults in the code (6, 4, 5 MB);
  the proofs hold for all positive values.
- The browser cannot hold the dictionary key `__proto__`, so the info-hash of a torrent with such a key is wrong
  (`Bencode.InfoSliceRebuilt`), or cannot be taken at all: if the value is a byte string, the encoder takes the dictionary
  for a byte array and throws.
- A file without a length has the size 0 on the worker and none in the browser; an empty path is the name `file` on the
  worker and makes the browser refuse the torrent (`TorrentFiles.SameFile`, `TorrentFiles.BrowserListsIff`).
- A range that runs backwards (`bytes=5-2`) is answered with status 206 and a length that is not the length sent
  (`ByteRanges.RangeResponse`).
- The sync worker says the first reconciliation finds orphans even on a fresh worker. If the first row request fails, the
  next sync takes the rows it gets for all there is, and the orphans are never found while that worker lives
  (`SyncReplica.FirstFailureForgets`, `SyncReplica.ForgottenForever`).
- Revoking a TV between the two statements of a poll leaves a token on the revoked device
  (`Pairing.InterleavedPollRevives`).
- The key operation of the MEGA login loses a ciphertext that is a multiple of a prime r when r-1 divides the exponent
  (`MegaRsa.CrtIsModularPower`).

## Model

| member | source | states |
|---|---|---|
| MegaRsa.CrtIsModularPower | next-frontend/app/lib/megaLogin.ts:176-189 | for distinct primes p and q and u·p ≡ 1 (mod q), the operation returns c^d mod p·q if and only if neither prime r has r dividing c, d > 0 and (r-1) dividing d |
| MegaRsa.DecryptUndoesEncrypt | next-frontend/app/lib/megaLogin.ts:176-189 | every message below p·q is recovered from m^e mod p·q when d inverts e modulo p-1 and q-1 |
| MegaRsa.CrtLosesMultipleOfPrime | next-frontend/app/lib/megaLogin.ts:177 | the excluded case is real: p = 3, q = 5, c = 3, d = 2 |
| MegaRsa.RecombineResidues | next-frontend/app/lib/megaLogin.ts:179-187 | both sign branches return the one number below p·q with the two given remainders |
| MegaRsa.ResidueCorrect | next-frontend/app/lib/megaLogin.ts:177-178 | reducing the exponent modulo r-1 is right for one prime exactly when c is not lost to it |
| MegaRsa.ModPow | next-frontend/app/lib/megaLogin.ts:162-173 | square-and-multiply returns base^exp mod mod; a zero modulus is the RangeError BigInt throws |
| MegaRsa.CrtDecryptToSid | next-frontend/app/lib/megaLogin.ts:176-189 | returns the shortest bytes of the recombined value, and fails exactly when a modulus it divides by is zero |
| MegaRsa.DecryptRsa | next-frontend/app/lib/megaLogin.ts:191-215 | the private-key operation on the ciphertext bytes the code picks |
| MegaRsa.CiphertextRead | next-frontend/app/lib/megaLogin.ts:201-211 | an encoded ciphertext is read as its own value if and only if it fills the modulus width or is an empty zero |
| MegaRsa.CiphertextWhich | next-frontend/app/lib/megaLogin.ts:201-211 | a ciphertext that begins with an encoded number of the modulus width is read as that number, every other one as it stands |
| MegaRsa.ModulusWidth | next-frontend/app/lib/megaLogin.ts:198 | the width of the modulus is the least number of bytes it fits in |
| MegaRsa.BytesToBigInt | next-frontend/app/lib/megaLogin.ts:65-69 | the big-endian value of the bytes |
| MegaRsa.BigIntToBytesMinimal | next-frontend/app/lib/megaLogin.ts:71-79 | the bytes without a leading zero whose value is n |
| MegaRsa.MinimalFormUnique | next-frontend/app/lib/megaLogin.ts:71-79 | a number has one such form, so the conversions lose nothing |
| MegaRsa.DecodePrivKey | next-frontend/app/lib/megaLogin.ts:140-160 | four integers, each behind its bit length in two bytes, big end first, are returned whatever follows; null unless the blob begins with four such pieces |
| MegaRsa.KeyBlobReadBack | next-frontend/app/lib/megaLogin.ts:140-160 | four numbers without leading zeros, each written behind its own bit length, are read back: the bit length fixes the number of bytes |
| MegaRsa.PrivKeyReadBack | next-frontend/app/lib/megaLogin.ts:140-160 | a blob of encoded integers, whatever padding follows, is read back as exactly those integers |
| MegaRsa.PrivKeyAccepted | next-frontend/app/lib/megaLogin.ts:140-160 | only such blobs are accepted |
| Hashcash.SolveHashcash | next-frontend/app/lib/megaLogin.ts:219-247 | the search returns the smallest nonce, read as a number, whose digest is below the threshold of the challenge's easiness, whenever there is one |
| Hashcash.ThresholdSteps | next-frontend/app/lib/megaLogin.ts:226-229 | the threshold is 8 for easiness 0, rises by equal steps within 64 easinesses, and is 128 times as high 64 further on |
| Hashcash.RepeatAt | next-frontend/app/lib/megaLogin.ts:234-235 | the buffer behind the nonce is the token over and over |
| Hashcash.IncrementNonce | next-frontend/app/lib/megaLogin.ts:241-245 | the carry loop adds one modulo 2^32 to the four-byte counter and touches nothing else |
| Hashcash.NonceOnce | next-frontend/app/lib/megaLogin.ts:241-245 | different numbers below 2^32 are different nonces, and every nonce is one of them |
| NumberTheory.Fermat | next-frontend/app/lib/megaLogin.ts:177-178 | Fermat's little theorem, which the shortened exponent relies on |
| NumberTheory.CoprimeProductDivides | next-frontend/app/lib/megaLogin.ts:186-187 | what two distinct primes divide, their product divides: the recombination's uniqueness |
| AesCipher.EcbInverse | next-frontend/app/lib/aesEcb.ts:170-195 | for every 16-byte key and every block-aligned input, decrypting undoes encrypting and the other way round |
| AesCipher.CipherInverse | next-frontend/app/lib/aesEcb.ts:137-166 | for every key and block, the ten rounds and the ten inverse rounds undo each other in both orders |
| AesCipher.UndoRounds | next-frontend/app/lib/aesEcb.ts:152-166 | after undoing down to round k the state is what enciphering had before it |
| AesCipher.RedoRounds | next-frontend/app/lib/aesEcb.ts:137-151 | enciphering retraces the states deciphering went through |
| AesCipher.Aes128EcbEncrypt | next-frontend/app/lib/aesEcb.ts:170-181 | both length errors, else every block enciphered in its place |
| AesCipher.Aes128EcbDecrypt | next-frontend/app/lib/aesEcb.ts:184-195 | both length errors, else every block deciphered in its place |
| AesCipher.BlockwiseAt | next-frontend/app/lib/aesEcb.ts:170-181 | block i of the output is the image of block i of the input |
| AesCipher.Aes128.EncryptBlock | next-frontend/app/lib/aesEcb.ts:138-151 | the in-place rounds compute the cipher of FIPS 197 section 5.1 and write only the 16 target bytes |
| AesCipher.Aes128.DecryptBlock | next-frontend/app/lib/aesEcb.ts:152-165 | the in-place inverse rounds compute the inverse cipher of section 5.3 |
| AesCipher.Aes128.constructor | next-frontend/app/lib/aesEcb.ts:133-135 | the stored schedule is the expansion of the key |
| AesCipher.ExpandKey | next-frontend/app/lib/aesEcb.ts:47-65 | the 44 packed words, byte by byte: each byte is that byte of the word four places back plus the same byte of the word before, or, in every fourth word, the substitute of its next byte and a power of x for the first |
| AesExample.ExampleEnciphered | next-frontend/app/lib/aesEcb.ts:170-195 | the worked example of FIPS 197, appendix B: its key and block give its ciphertext, through all eleven round keys and ten rounds, and back |
| AesCipher.RconIsPowerOfX | next-frontend/app/lib/aesEcb.ts:36 | the round constants are the powers of x in the field |
| AesCipher.AddRoundKey | next-frontend/app/lib/aesEcb.ts:122-131 | adds the four words of the round column by column |
| AesTables.SboxIsFieldInversion | next-frontend/app/lib/aesEcb.ts:11-28 | the table is the affine image of inversion in GF(2^8), with zero for itself |
| AesTables.BuildInvSbox | next-frontend/app/lib/aesEcb.ts:30-34 | the start-up loop fills the inverse table whatever the buffer held |
| AesTables.SboxOfInvSbox | next-frontend/app/lib/aesEcb.ts:11-34 | the two tables are inverse, one direction |
| AesTables.InvSboxOfSbox | next-frontend/app/lib/aesEcb.ts:11-34 | the two tables are inverse, the other direction |
| AesTables.Gmul | next-frontend/app/lib/aesEcb.ts:92-100 | the shift-and-add loop is multiplication in the field |
| AesTables.MulLowXor | next-frontend/app/lib/aesEcb.ts:92-100 | that multiplication distributes over addition |
| Aes.MixColumnsInverse | next-frontend/app/lib/aesEcb.ts:102-120 | the two column mixes undo each other in both orders |
| Aes.TwiceIsOnce | next-frontend/app/lib/aesEcb.ts:102-120 | multiplying by two coefficients in turn is multiplying by their product in the field |
| Aes.MixColumns | next-frontend/app/lib/aesEcb.ts:102-110 | the in-place loop multiplies each column by the polynomial of section 5.1.3 |
| Aes.InvMixColumns | next-frontend/app/lib/aesEcb.ts:112-120 | the in-place loop multiplies each column by the inverse polynomial |
| Aes.ShiftRows | next-frontend/app/lib/aesEcb.ts:75-81 | the in-place cell moves shift row r by r columns |
| Aes.InvShiftRows | next-frontend/app/lib/aesEcb.ts:83-89 | and back |
| Aes.ShiftRowsInverse | next-frontend/app/lib/aesEcb.ts:75-89 | the two shifts undo each other |
| Aes.SubBytes | next-frontend/app/lib/aesEcb.ts:67-69 | every cell goes through the table |
| Aes.InvSubBytes | next-frontend/app/lib/aesEcb.ts:71-73 | every cell goes through the inverse table |
| Aes.SubBytesInverse | next-frontend/app/lib/aesEcb.ts:67-73 | the two substitutions undo each other |
| ByteRanges.BuildParts | next-frontend/app/lib/workerConnection.ts:188-209 | non-empty contiguous ranges that cover [0, total) exactly, all of one size except a shorter last one, the least size with which the number of parts aimed at reaches the end |
| ByteRanges.TilesOnce | next-frontend/app/lib/workerConnection.ts:188-209 | every byte of the file lies in exactly one part, and nothing else does |
| ByteRanges.SharesAreBigEnough | next-frontend/app/lib/workerConnection.ts:145-149 | whenever a file is split, an even share is at least the smallest part allowed |
| ByteRanges.MostParts | next-frontend/app/lib/workerConnection.ts:145-149 | and there are as many parts as that allows, up to the most |
| ByteRanges.AsManyAsAllowed | next-frontend/app/lib/workerConnection.ts:190 | a file is cut into what was asked for, or the most if that is less |
| ByteRanges.StreamFileRange | python-worker/streamlift_worker/server.py:299-309 | the chunks, each non-empty and at most 1 MB, concatenate to exactly the slice of the file |
| ByteRanges.RangeResponse | python-worker/streamlift_worker/server.py:312-334 | 400 exactly for a malformed range, 416 exactly for a start beyond the file, else the clamped slice; the announced length is the length sent if and only if the range does not run backwards |
| ByteRanges.RangeReadIff | python-worker/streamlift_worker/server.py:295-319 | a range is read exactly if it is bytes=, digits, a dash and digits or nothing; nothing stands for the last byte |
| ByteRanges.RangeQueryRead | python-worker/streamlift_worker/server.py:295-319 | the worker reads exactly the two numbers the browser wrote into the query |
| ByteRanges.FetchRange | next-frontend/app/lib/workerConnection.ts:1226-1236 | the halves meet: asking for any stretch of the stored file delivers exactly those bytes, and each chunk is the slice that starts where the ones before it ended |
| TransferResults.FinishedIsSource | next-frontend/app/lib/workerConnection.ts:1503-1562 | for every interleaving of chunks, failed writes, breaks, slow reconnects, aborts, clicks and the second phase, a transfer that finishes has saved the source (followed, in a longer old file, by that file's tail), if bodies end only after their last byte and nobody clicks while a picked file is being opened |
| TransferResults.FinishedIsSourceIff | next-frontend/app/lib/workerConnection.ts:1557-1562 | and if somebody clicks then: as long as no call was alive when the file was opened, the finished file is right if and only if it already held every byte that had arrived, and reaches its end without them |
| TransferResults.SavedFile | next-frontend/app/lib/workerConnection.ts:1472-1475 | byte by byte, for a picked file whose parts are full: what came before the file was open is still what was there before, the rest is the source, and behind it the tail of a longer old file |
| TransferResults.SavedBlob | next-frontend/app/lib/workerConnection.ts:1476-1488 | without a picked file, clean ends or not: the assembled blob is the source if and only if every part got all its bytes |
| TransferResults.EarlyIsReceived | next-frontend/app/lib/workerConnection.ts:1111-1119 | at the moment the file is opened, what is in memory is exactly what each part has received |
| TransferResults.NeverAWrongByte | next-frontend/app/lib/workerConnection.ts:1111-1119 | at every moment of every run that found no call alive when the target was opened: each byte of the target is the old one or the right one, received bytes are right bytes, those before the opening in memory and those after it in the target, and the total shown is their number |
| TransferResults.OneCallPerPart | next-frontend/app/lib/workerConnection.ts:1159-1182 | in those runs no part is ever fetched by two live calls |
| TransferResults.TwoCallsIff | next-frontend/app/lib/workerConnection.ts:1503-1516 | in any run: after the target is opened some part has two live calls if and only if some part that still lacks bytes had one before |
| TransferResults.OpenSoundIff | next-frontend/app/lib/workerConnection.ts:1503-1516 | opening the target keeps the whole invariant if and only if no call is alive at that moment |
| EarlyClicks.FetchedTooEarly | next-frontend/app/lib/workerConnection.ts:1458-1467 | a run of clean bodies without a second call whose saved file lacks the part that was clicked early |
| EarlyClicks.FetchedTwice | next-frontend/app/lib/workerConnection.ts:1458-1467 | a run of clean bodies in which two calls fetch one part: the second overwrites the next part, and the file is too long |
| EarlyClicks.FetchedOnceAfterAll | next-frontend/app/lib/workerConnection.ts:1458-1467 | after the same click and opening a run of clean bodies may also save the right file, so the state at the opening does not decide it |
| Transfer.AttemptsBounded | next-frontend/app/lib/workerConnection.ts:1186-1445 | in every run, early clicks or not, one call connects at most 8·(MAX_SLOW_RESTARTS+1) times, as much again per click and eight more per unexplained abort; the error after the loop is unreachable |
| Transfer.ClickWithin | next-frontend/app/lib/workerConnection.ts:1593-1605 | a click adds exactly one more full budget to the bound |
| Transfer.CallsBounded | next-frontend/app/lib/workerConnection.ts:1503-1555 | in every run, a part is fetched at most twice on its own account, plus once per click |
| Transfer.StepLinked | next-frontend/app/lib/workerConnection.ts:1173-1182 | in every run, an entry of either map belongs to a live call for its part |
| TransferResults.CleanRunFull | next-frontend/app/lib/workerConnection.ts:1339-1340 | a finished transfer has every byte of every part when bodies end only after their last byte |
| TransferSafety.StepSound | next-frontend/app/lib/workerConnection.ts:1186-1445 | every step keeps one registered call per part, resume offsets and contents, if no call is alive when the target is opened |
| TransferResults.RunSound | next-frontend/app/lib/workerConnection.ts:1159-1562 | so does every run that finds no call alive when the target is opened |
| DownloadObject.Begin | next-frontend/app/lib/workerConnection.ts:1093-1107 | the parts the file is cut into are what the protocol starts from; a single part needs no protocol |
| TransferProgress.FailureSpends | next-frontend/app/lib/workerConnection.ts:1421-1432 | a broken body, a failed write, an unreachable host or an HTML page ends the call exactly if it has no restart left or is at its eighth attempt, leaving its count for the next call; otherwise one restart is used up and the call goes on |
| TransferProgress.RetryConnects | next-frontend/app/lib/workerConnection.ts:1186-1213 | after such a failure the call connects again where its bytes end, exactly unless it had to give up |
| TransferProgress.WakeConnects | next-frontend/app/lib/workerConnection.ts:1186-1213 | a waiting call asks for the first byte its part lacks, or completes the part if there is none |
| TransferProgress.ReconnectIsFree | next-frontend/app/lib/workerConnection.ts:1385-1432 | an abort, and every end of a body after a reconnect was asked for, starts the attempts over and costs nothing |
| TransferProgress.FinishCompletes | next-frontend/app/lib/workerConnection.ts:1434-1439 | a body that ends without an error completes the part, unless a reconnect was asked for |
| TransferProgress.ReplyDecides | next-frontend/app/lib/workerConnection.ts:1238-1327 | a bad status uses up an attempt but no restart; a wrong range or the whole file ends the call, and the transfer if the loop waits for the call |
| TransferProgress.WrittenCounts | next-frontend/app/lib/workerConnection.ts:1341-1419 | a stored chunk counts for its part and the total; a slow connection is dropped for a new one while a restart is left |
| TransferProgress.ClickActs | next-frontend/app/lib/workerConnection.ts:1593-1609 | a click asks a live call to reconnect with a full budget, starts a call for a part without one, and leaves a completed part alone |
| TransferProgress.OpenStarts | next-frontend/app/lib/workerConnection.ts:1503-1516 | opening the target starts every part that is not completed, from its first missing byte, with a full budget |
| TransferProgress.PollDecides | next-frontend/app/lib/workerConnection.ts:1518-1555 | the loop stops at a refusal, finishes when every part is completed, and starts the failed parts once more, with the restarts they have used, when nothing else is left |
| TransferProgress.CallSurvives | next-frontend/app/lib/workerConnection.ts:1186-1445 | in every run, whatever happens to other parts and by clicks: a call that meets fewer failures than min(8, MAX_SLOW_RESTARTS) and no refusal lives, or has completed its part |
| TransferFinish.MishapsThenBody | next-frontend/app/lib/workerConnection.ts:1186-1445 | after fewer mishaps than attempts and restarts the call asks for its first missing byte, and a whole body then completes the part |
| TransferFinish.CanFinish | next-frontend/app/lib/workerConnection.ts:1503-1562 | from every state after the opening that is neither over nor refused, some continuation finishes the transfer with every byte of every part |
| TransferFinish.TransferCanFinish | next-frontend/app/lib/workerConnection.ts:1503-1562 | so every run without early clicks that is neither over nor refused can be continued until the source is saved |
| DownloadObject.Download.OnHeaders | next-frontend/app/lib/workerConnection.ts:1215-1327 | each kind of reply changes the shared variables as the protocol step does; like every callback it keeps what was received at its place, in memory or in the target, and the rest of the target as it was |
| DownloadObject.Download.OnChunk | next-frontend/app/lib/workerConnection.ts:1111-1119 | a chunk is handed to the file at the part's offset, or to memory while no file is open; the place is fixed before the write is awaited |
| DownloadObject.Download.OnWritten | next-frontend/app/lib/workerConnection.ts:1341-1419 | counters after a write, then the speed check with its restart or give-up |
| DownloadObject.Download.OnWriteFailed | next-frontend/app/lib/workerConnection.ts:1384-1432 | a failed positional write, part of which may have landed |
| DownloadObject.Download.OnDone | next-frontend/app/lib/workerConnection.ts:1339-1439 | the end of a body completes the part unless a reconnect was asked for |
| DownloadObject.Download.OnBreak | next-frontend/app/lib/workerConnection.ts:1421-1432 | a broken stream uses both budgets or ends the call |
| DownloadObject.Download.OnAbort | next-frontend/app/lib/workerConnection.ts:1385-1402 | an aborted read reconnects without using the attempts |
| DownloadObject.Download.OnWake | next-frontend/app/lib/workerConnection.ts:1186-1213 | the head of the next attempt: fresh flags, done check, resume offset |
| DownloadObject.Download.RestartPart | next-frontend/app/lib/workerConnection.ts:1593-1609 | a click, also before the target is open: sets the flag of one entry and aborts the controller of the other, or runs the part again |
| DownloadObject.Download.Open | next-frontend/app/lib/workerConnection.ts:1503-1516 | starts every part that is not completed, and keeps the contents in order if no call is alive |
| DownloadObject.Download.Poll | next-frontend/app/lib/workerConnection.ts:1518-1555 | stops, finalizes, starts the second phase once, or idles |
| SegmentGrid.SegmentLengths | python-worker/streamlift_worker/streaming.py:406-433 | equal frame-aligned lengths up to the last, a last one of at least a second and less than a second over nominal, adding up to the duration if and only if it is at least a millisecond |
| SegmentGrid.NominalIsFrameAligned | python-worker/streamlift_worker/streaming.py:416-419 | the nominal length is a whole number of frames, and none is closer to six seconds |
| SegmentGrid.NominalOtherwise | python-worker/streamlift_worker/streaming.py:416-419 | without a usable frame rate it is six seconds |
| SegmentGrid.ForcedKeyframes | python-worker/streamlift_worker/streaming.py:1434-1462 | every forced keyframe time of a batch is a segment start of the playlist |
| SegmentGrid.BatchTiming | python-worker/streamlift_worker/streaming.py:1432-1447 | a batch seeks to its first segment's start, lasts to its last segment's end, and reads a millisecond less |
| SegmentGrid.Dedupe | python-worker/streamlift_worker/streaming.py:537-541 | kept keyframes are more than 0.01 s apart, all real, and near every dropped one |
| SegmentGrid.CopySegmentLengths | python-worker/streamlift_worker/streaming.py:550-573 | starts are 0 or real keyframes, each the first one due 5.99 s after the one before; all but the last at least 5.99 s, the last at least a second; the sum is the duration if and only if that is at least a millisecond |
| Scheduler.RunCore | python-worker/streamlift_worker/streaming.py:1623-1772 | in every run, with failing watchers, kills, timeouts, waits that give up and starts that did not happen: free slots, batches not released, other sessions' slots and a running fallback add up to HLS_MAX_CONCURRENT, at most one encoder process runs, and it is the session's |
| Scheduler.StepCore | python-worker/streamlift_worker/streaming.py:1623-2233 | every step keeps that, the batches' ranges and the bound on retries |
| Scheduler.ThirdVersionPublished | python-worker/streamlift_worker/streaming.py:1550-1577 | a transcoded segment that fails validation is dropped and encoded again exactly twice, then published |
| Scheduler.WatcherFailureCounts | python-worker/streamlift_worker/streaming.py:1648-1677 | a failing watcher lets go of its batch with lines unread: nothing of them is published, the slot comes back, and the failure counts even after a good exit or a stop |
| Scheduler.PrefetchGoesOn | python-worker/streamlift_worker/streaming.py:1831-1876 | a prefetch starts a batch if and only if it is wanted, nothing runs, was stopped or has failed, and the first segment the finished batch left out is not its very first, exists and lies within the look-ahead; and then at that segment |
| Scheduler.EnsureDecides | python-worker/streamlift_worker/streaming.py:2183-2233 | what a request comes to: nothing if the segment is there, given up or covered by a running batch; else the batch that is there is stopped first; else a batch from the segment on is asked for, unless the session backs off |
| Scheduler.RangeChosen | python-worker/streamlift_worker/streaming.py:2218-2230 | where the next batch ends: before the first published segment in its way if that is still there, else at its full length, and the missing one is forgotten |
| Scheduler.FailuresCount | python-worker/streamlift_worker/streaming.py:1648-1677 | a batch counts as a failure if it ran out of time, its watcher failed, or its encoder ended badly unstopped; every other end resets the count |
| Scheduler.LineTakenUp | python-worker/streamlift_worker/streaming.py:1510-1531 | a listed line goes under validation exactly if its segment has a file and is neither published nor given up |
| SchedulerProgress.AnySegmentCanBePublished | python-worker/streamlift_worker/streaming.py:1953-2233 | from every state of a session on demand, every segment is published, with its file, in some continuation |
| SchedulerProgress.Unlocks | python-worker/streamlift_worker/streaming.py:1758-2233 | whatever holds the lock of a session lets go of it |
| SchedulerSafety.StepSafeIff | python-worker/streamlift_worker/streaming.py:1496-2233 | a step keeps every published segment with its content, and out of reach of batches and watchers, if and only if it is careful: a verdict, an accepted file, a fallback and a request that has waited each have their condition |
| SchedulerSafety.RunKeeps | python-worker/streamlift_worker/streaming.py:2183-2233 | a careful run keeps every published segment with its content, and every published segment has a non-empty file |
| SchedulerSafety.CarelessLoses | python-worker/streamlift_worker/streaming.py:1496-2233 | the converse: a step that is not careful publishes a segment without its file, or loses a published one, or some continuation of the run does |
| SchedulerSafety.StartFreshSure | python-worker/streamlift_worker/streaming.py:2203-2232 | starting a batch forgets nothing published, and the new range holds no published segment, exactly if the requested one is not published or the session backs off |
| SchedulerSafety.NewBatchIs | python-worker/streamlift_worker/streaming.py:2215-2232 | which batch is started: from the requested segment to the first published one after it or to full length, with nothing published in between, when a slot comes in time and the session has not just failed |
| SchedulerWaits.AloneIff | python-worker/streamlift_worker/streaming.py:1758-1772 | one watcher at a time, with the file it has under validation in place, stays so over a step if and only if no wait for a watcher gives up in it |
| SchedulerWaits.AloneVerdict | python-worker/streamlift_worker/streaming.py:1510-1584 | then every verdict is careful |
| SchedulerWaits.TranscodedIsCareful | python-worker/streamlift_worker/streaming.py:2201-2232 | and a transcoded session is careful if and only if a request that waited for the old batch finds its segment still unpublished, or backs off |
| SchedulerWaits.TranscodedRunKeeps | python-worker/streamlift_worker/streaming.py:2183-2233 | so a transcoded session keeps every published segment over every run in which no wait gives up and no such request finds its segment published |
| SchedulerSafety.RestartReplaces | python-worker/streamlift_worker/streaming.py:2200-2233 | where it is published already, the new batch's first write replaces it, in every such state with a slot to be had |
| SchedulerRuns.StaleRestartHappens | python-worker/streamlift_worker/streaming.py:2200-2233 | and such a state is reached, though no wait gives up |
| SchedulerRuns.LostWhileChecked | python-worker/streamlift_worker/streaming.py:1758-1772 | the wait gives up while a segment is under validation: the clean-up deletes its file, then it is published without one, and two watchers are alive |
| SchedulerRuns.PublishedWhileWritten | python-worker/streamlift_worker/streaming.py:1510-1584 | the wait gives up with a line unread: the watcher left behind publishes what the next batch has written so far, and that batch writes on |
| SchedulerSafety.FallbackReplaced | python-worker/streamlift_worker/streaming.py:1953-2090 | on a copied session a batch about to write a segment replaces the fallback just published for it, in every such state |
| SchedulerRuns.FallbackReplacementHappens | python-worker/streamlift_worker/streaming.py:1953-2090 | and such a state is reached: a later batch covers a segment that was given up |
| SchedulerRuns.AcceptReplacementHappens | python-worker/streamlift_worker/streaming.py:1962-1967 | a half-written file of such a batch is found, taken for the finished segment and published, and then written on |
| SchedulerWaits.RenderIsCareful | python-worker/streamlift_worker/renders.py:768-828 | the render driver, copied or transcoded, is always careful as long as no wait gives up |
| SchedulerWaits.TurnIff | python-worker/streamlift_worker/renders.py:797-813 | the driver finds the watcher finished before its next task if and only if its own wait does not give up |
| SchedulerWaits.RenderRunKeeps | python-worker/streamlift_worker/renders.py:768-828 | so a render session never loses or replaces a published segment in a run in which no wait gives up |
| SchedulerRuns.DriverGivesUp | python-worker/streamlift_worker/renders.py:803-813 | with a wait that gives up it does: the driver takes a segment under validation for done, the rendition is complete, then the validation removes the file |
| SessionObject.Session.DriveVideo | python-worker/streamlift_worker/renders.py:768-828 | when the driver returns normally every segment of the rendition is published and on disk, unless a wait gave up; and it does return normally if the job is not cancelled, fewer than three tries are refused, the encoders end, no fallback comes to nothing and no wait gives up |
| SessionObject.Session.DriveBatch | python-worker/streamlift_worker/renders.py:775-824 | one round is done, or there is the reason why not: cancelled, exactly three refused tries, an encoder still running, or, unless a wait gave up, a segment of the round whose fallback got no slot or failed |
| SessionObject.Session.TryBatch | python-worker/streamlift_worker/renders.py:780-795 | a try succeeds exactly if the segment is there or given up, or the session does not back off and a slot comes in time |
| SessionObject.Session.FallBack | python-worker/streamlift_worker/streaming.py:1953-2090 | a file that is there is taken for the segment; otherwise the fallback gives one exactly if it gets a slot and its encode succeeds |
| SessionObject.Session.CleanPartialSegments | python-worker/streamlift_worker/streaming.py:1879-1890 | exactly the unpublished files go |
| SessionObject.Session.ChooseRange | python-worker/streamlift_worker/streaming.py:2218-2230 | the range of a new batch, forgetting a published segment whose file is gone |
| SessionObject.Session.StartFresh | python-worker/streamlift_worker/streaming.py:2204-2233 | clean-up, back-off and range of a new batch, as the protocol step |
| SessionObject.Session.EnsureBatch | python-worker/streamlift_worker/streaming.py:2183-2233 | covered, given up, stop and wait, or start afresh |
| SessionObject.Session.PrefetchNext | python-worker/streamlift_worker/streaming.py:1843-1876 | resumes at the first segment the batch left out, within the look-ahead |
| SessionObject.Session.TakeUp | python-worker/streamlift_worker/streaming.py:1510-1531 | a listed segment goes under validation unless it has no file, is published or given up |
| SessionObject.Session.Judge | python-worker/streamlift_worker/streaming.py:1533-1584 | what its validation leads to: published, dropped, or given up |
| SessionObject.Session.Perform | python-worker/streamlift_worker/streaming.py:1496-2233 | every event changes the session's fields as the protocol step does |
| RenderStore.ReadyIsComplete | python-worker/streamlift_worker/renders.py:203-213 | at every step of publishing, cancelling, deleting and crashing, a quality that looks ready by its last segment has all of them |
| RenderStore.ReadyStays | python-worker/streamlift_worker/renders.py:661-700 | a ready quality disappears only by being published anew or deleted |
| RenderStore.BecomesReadyIff | python-worker/streamlift_worker/renders.py:969-1040 | a quality that is not ready becomes ready if and only if its job writes the manifest with the last segment in place, or moves the segment that a left-over entry names as its last |
| RenderProgress.RenderMakesReady | python-worker/streamlift_worker/renders.py:969-1100 | a quality that is neither ready nor under way, asked for on an idle worker and rendered without a failure, is ready with all its segments |
| RenderProgress.StartAccepts | python-worker/streamlift_worker/renders.py:585-636 | with space, every quality asked for is ready or under way afterwards, whatever became of earlier jobs; none gets a second job; without space nothing is queued |
| RenderProgress.DispatchTakes | python-worker/streamlift_worker/renders.py:717-737 | jobs are taken in the order they were asked for, and rendered unless cancelled |
| RenderProgress.CancelEnds | python-worker/streamlift_worker/renders.py:645-658 | a cancelled job is over at once if queued, else at its next step unless all its segments have been moved; the manifest stays as it is |
| RenderProgress.FailureEnds | python-worker/streamlift_worker/renders.py:1043-1100 | a step that fails ends the job as failed and leaves the manifest as it is |
| RenderProgress.DeleteWaits | python-worker/streamlift_worker/renders.py:661-680 | a delete is refused exactly while a job is under way |
| RenderProgress.DeleteRemoves | python-worker/streamlift_worker/renders.py:682-694 | a delete takes the quality away, files first, leaves the others, and with the last one the whole store |
| StaleEntry.ReadyByLeftover | python-worker/streamlift_worker/renders.py:682-694 | such an entry is left when the worker dies inside a delete; the quality then is ready with one of two segments moved, and stays so when its job is cancelled |
| RenderStore.Store.PublishQuality | python-worker/streamlift_worker/renders.py:969-1040 | unless cancelled or a replacement or the manifest fails, all segments end up in the store and only then the manifest names the quality; the job's final state says which |
| RenderStore.Store.Start | python-worker/streamlift_worker/renders.py:585-636 | of all qualities asked for, those that are neither ready nor active are queued; without space, checked once for all of them, none is |
| RenderStore.Store.Cancel | python-worker/streamlift_worker/renders.py:645-658 | sets the flag, and a queued job is canceled at once |
| RenderStore.Store.Delete | python-worker/streamlift_worker/renders.py:682-694 | directory first, then the manifest entry, and with the last entry the whole store |
| Bencode.RoundTrip | next-frontend/app/lib/torrentParser.ts:13-107 | on every legal value and whatever follows it, the worker's decoder gives back the value and stops at the end of the encoding; the browser's does if and only if no dictionary has the key __proto__ |
| Bencode.DecodersAgree | python-worker/streamlift_worker/torrent_metadata.py:38-62 | both decoders stop at the same place, and agree on the value if and only if no dictionary has that key |
| Bencode.PrefixFree | next-frontend/app/lib/torrentParser.ts:62-107 | no encoding is the beginning of another |
| Bencode.InfoSliceRebuilt | next-frontend/app/lib/torrentParser.ts:172-178 | re-encoding the decoded info dictionary yields the very slice of the file if and only if the browser dropped nothing |
| Bencode.EncodeCanon | next-frontend/app/lib/torrentParser.ts:88-107 | the encoding does not depend on the order a dictionary's entries were added in |
| Bencode.DecodeAt | next-frontend/app/lib/torrentParser.ts:13-55 | wherever the encoding of a canonical value stands, decoding there gives that value, less what the browser drops |
| Bencode.DecodeBencode | next-frontend/app/lib/torrentParser.ts:13-55 | the recursive decoder with its loops is the grammar with the browser's assignment |
| Bencode.Bdecode | python-worker/streamlift_worker/torrent_metadata.py:38-62 | the worker's decoder with its loops is the grammar with every key kept |
| Bencode.EncodeBencode | next-frontend/app/lib/torrentParser.ts:62-107 | the buffer-filling encoder produces the encoding |
| Bencode.Frame | next-frontend/app/lib/torrentParser.ts:77-86 | opening letter, parts in order and closing letter end up in the buffer |
| KeyedSort.SortAscending | next-frontend/app/lib/torrentParser.ts:89 | sorting puts distinct keys in order and loses nothing |
| KeyedSort.LessIs | next-frontend/app/lib/torrentParser.ts:89 | the order of keys is the lexicographic one |
| Decimal.ValueOfDigits | next-frontend/app/lib/torrentParser.ts:19 | reading a written decimal number gives it back |
| TorrentFiles.SameFile | next-frontend/app/lib/torrentParser.ts:202-217 | from the bytes of one .torrent: file i has the same index on both sides, the same size if and only if it has a length, and the same path below the torrent's name if and only if no part of it starts with a byte order mark; the worker's offsets are the prefix sums |
| TorrentFiles.InfoHashed | next-frontend/app/lib/torrentParser.ts:177-178 | the info-hash is taken of the very bytes of the file that stand behind the key info, if and only if no dictionary in them has the key __proto__ |
| TorrentExample.ExampleListed | next-frontend/app/lib/torrentParser.ts:168-247 | one .torrent in full: from its bytes, the browser's name, files, total and info bytes and the worker's piece length, paths, sizes and offsets |
| TorrentExample.TorrentWritten | next-frontend/app/lib/torrentParser.ts:62-105 | and the encoder writes exactly those bytes for its value |
| TorrentExample.ExampleSwallowed | next-frontend/app/lib/torrentParser.ts:20-60 | d9:__proto__i3ee is an empty dictionary to the browser and a full one to the worker |
| TorrentFiles.Defaults | python-worker/streamlift_worker/torrent_metadata.py:65-85 | what stands for what is missing: file, download and 0 on the worker, unknown in the browser |
| TorrentFiles.OddPaths | python-worker/streamlift_worker/torrent_metadata.py:75-77 | what the worker's loop visits if a path is an empty text or a dictionary |
| TorrentFiles.BrowserListsIff | next-frontend/app/lib/torrentParser.ts:205-216 | for a .torrent the worker reads, the browser lists files if and only if every path is a non-empty list and every tier of trackers can be read |
| TorrentFiles.SameTotal | next-frontend/app/lib/torrentParser.ts:236 | the total the browser shows is the worker's payload if every file has a length, and no number otherwise |
| TorrentFiles.SameSingleFile | python-worker/streamlift_worker/torrent_metadata.py:81-84 | a single-file torrent: same size if and only if there is a length, same name if and only if there is one without a mark |
| TorrentFiles.NoListOfFiles | python-worker/streamlift_worker/torrent_metadata.py:72-80 | if something else than a list stands under files, the browser shows one file and the worker none |
| TorrentFiles.ParseTorrentFile | next-frontend/app/lib/torrentParser.ts:168-247 | the browser's parser from bytes to the numbered list, with its refusals |
| TorrentFiles.ParseTorrentMeta | python-worker/streamlift_worker/torrent_metadata.py:65-85 | the worker's parser from bytes to the list with offsets, with its defaults and refusals |
| RateLimit.GrantedBounded | next-frontend/app/lib/tvRateLimit.ts:31-47 | any half-open stretch as long as the window lets at most 2·limit − 1 requests of a key through |
| RateLimit.BoundIsReached | next-frontend/app/lib/tvRateLimit.ts:31-47 | for every limit and every window of more than one moment that bound is reached |
| RateLimit.MomentBounded | next-frontend/app/lib/tvRateLimit.ts:31-47 | in a window of a single moment the limit is the bound |
| RateLimit.PruningInvisible | next-frontend/app/lib/tvRateLimit.ts:18-23 | no answer of any run changes if old buckets are never pruned |
| RateLimit.RetryAfterExact | next-frontend/app/lib/tvRateLimit.ts:41-43 | a refused request is let through at a later moment if and only if the announced waiting time is over |
| RateLimit.RemainingExact | next-frontend/app/lib/tvRateLimit.ts:45-46 | the remaining count is exactly how many more requests would get through at once |
| RateLimit.Limiter.CheckRateLimit | next-frontend/app/lib/tvRateLimit.ts:31-47 | prunes, then answers and counts as specified |
| RateLimit.Limiter.Prune | next-frontend/app/lib/tvRateLimit.ts:18-23 | nothing below the size limit, else exactly the buckets that have run out go |
| RateLimit.PrunedIs | next-frontend/app/lib/tvRateLimit.ts:18-23 | pruning keeps what is still counting and, from the size limit on, nothing else |
| Pairing.RunSound | next-frontend/app/lib/tvPairing.ts:65-340 | over every serial run: active codes unique, at most five per address, at most eight live devices per workspace, devices and approvals one to one within a workspace, no token on a revoked device |
| Pairing.RevokedForever | next-frontend/app/lib/tvPairing.ts:316-333 | once revoked, a device stays revoked and without a token for the rest of every run |
| Pairing.TokenGoesHome | next-frontend/app/lib/tvPairing.ts:146-203 | a token goes only to the TV whose secret started the approved code, for the approving workspace, within fifteen minutes, while the device is live |
| Pairing.PairingWorks | next-frontend/app/lib/tvPairing.ts:65-288 | start, approve in time with room left and poll in time gives that TV a token for a new device of that workspace |
| Pairing.OthersUntouched | next-frontend/app/lib/tvPairing.ts:65-340 | no request touches a row that does not concern it and is not an hour out of date, nor another device |
| Pairing.StartedWaits | next-frontend/app/lib/tvPairing.ts:146-203 | until somebody approves, a TV that has started is told to wait for ten minutes and then that its code has expired, and the code cannot be approved from then on |
| Pairing.PollTells | next-frontend/app/lib/tvPairing.ts:146-203 | which of the five replies a poll gets, exactly, by the newest row of its secret |
| Pairing.PollLeaves | next-frontend/app/lib/tvPairing.ts:146-203 | what a poll changes: a new token, a closed row, or nothing |
| Pairing.StartRefused | next-frontend/app/lib/tvPairing.ts:65-133 | which of the four replies a start gets, exactly; a code that is handed out was free and one of the first twelve tried |
| Pairing.StartReplaces | next-frontend/app/lib/tvPairing.ts:65-133 | a TV that starts again has no other code waiting, and rows an hour out of date are gone |
| Pairing.ApproveRefused | next-frontend/app/lib/tvPairing.ts:213-288 | which of the three replies an approval gets, exactly |
| Pairing.RevokeTells | next-frontend/app/lib/tvPairing.ts:316-333 | a device is revoked exactly by its own workspace while it is live, and its rows go with it |
| Pairing.InterleavedPollRevives | next-frontend/app/lib/tvPairing.ts:175-193 | without the serial steps it fails: revoking between a poll's check and its update leaves a token on the revoked device |
| PairingStore.Store.StartPairing | next-frontend/app/lib/tvPairing.ts:65-133 | clean-up, address limit, at most twelve candidate codes, insert; no other TV has the code that is handed out |
| PairingStore.Store.PollPairing | next-frontend/app/lib/tvPairing.ts:146-203 | every status of the newest row of the secret, and the token of an approved one: for a live device that an approval of a code of this secret made, in the workspace that approved |
| PairingStore.Store.ApprovePairing | next-frontend/app/lib/tvPairing.ts:213-288 | claims one active code and makes one new device; the code cannot be claimed again |
| PairingStore.Store.RevokeTvDevice | next-frontend/app/lib/tvPairing.ts:316-333 | revokes a live device of the workspace and drops its rows, after which no poll gives a token for it |
| PairingStore.Store.ConsumeApprovedPairings | next-frontend/app/lib/tvPairing.ts:336-340 | drops the approved rows of a device, after which no poll gives a token for it |
| SyncReplica.NoUpdateLost | next-frontend/public/sync-worker.js:301-347 | over every run, a server row the replica does not hold in its current form was written at or after the saved cursor |
| SyncReplica.SyncCatchesUp | next-frontend/public/sync-worker.js:301-347 | an undisturbed sync brings every server row to the replica, and one that reconciles makes the replica equal to the server |
| SyncReplica.DeclareInforms | next-frontend/public/sync-worker.js:185-218 | what a tab declares comes on top of what others did and, if it has all ids, tells a new worker all it needs; its cursor is where the next request starts if the worker has none |
| SyncReplica.FreshWorkerReconciles | next-frontend/public/sync-worker.js:301-347 | a worker that was just started and is told the ids makes the replica equal to the server with its first sync |
| SyncReplica.ReconciledBounds | next-frontend/public/sync-worker.js:325-345 | after a reconciliation the replica's ids lie within the server's list and that sync's rows, if the worker knew all of them |
| SyncReplica.KnowledgeKept | next-frontend/public/sync-worker.js:311-345 | a step keeps the worker's knowledge of the replica's ids if and only if it is neither a first ordinary sync over a non-empty replica nor a delivery after a failed id request with unknown rows |
| SyncReplica.ForgottenForever | next-frontend/public/sync-worker.js:325-345 | an orphan the worker does not know outlives every reconciliation of every run in which no row with its id is written |
| SyncReplica.FirstFailureForgets | next-frontend/public/sync-worker.js:306-321 | that happens to every orphan when the first request of a fresh worker fails, whatever ids the tabs declared |
| SyncReplica.StartIsSound | next-frontend/public/sync-worker.js:185-218 | the invariant holds at the start and whenever the worker is started again |
| SyncReplica.LateWriteLost | next-frontend/app/actions/downloads.ts:118-141 | a row that becomes visible with a stamp before the cursor is not fetched and stays missing |
| SyncReplica.SyncWorker.HandleDeclare | next-frontend/public/sync-worker.js:185-218 | when a tab's cursor, saved at any time before, is taken over, and how its ids are merged; no update is lost by it, nor any knowledge of ids |
| SyncReplica.SyncWorker.RunSync | next-frontend/public/sync-worker.js:285-303 | one sync at a time, the first and every fifth reconciling |
| SyncReplica.SyncWorker.OnRows | next-frontend/public/sync-worker.js:306-321 | cursor, known ids and broadcast of an ordinary sync, which loses no update |
| SyncReplica.SyncWorker.OnIds | next-frontend/public/sync-worker.js:325-346 | seeding, orphans, known ids and broadcast of a reconciling sync; the replica ends within the server's ids and the rows, if the worker knew all its ids |
| SyncReplica.SyncWorker.OnFailure | next-frontend/public/sync-worker.js:308-328 | a failed row request changes nothing, a failed id request still delivers the rows; no update is lost |

## Left out

- TransferResults.FinishedIsSource: assumes that a 206 body ends without an error only after its last byte, because the code completes a part without checking its length; `TransferResults.SavedBlob` and `TransferResults.SavedFile` say what holds without the assumption. It excludes clicks while a picked file is being opened; `TransferResults.FinishedIsSourceIff` and `TransferResults.TwoCallsIff` say exactly what those cost.
- TransferResults.FinishedIsSourceIff: for runs in which no call is alive when the file is opened; with one alive, `EarlyClicks.FetchedTwice` and `EarlyClicks.FetchedOnceAfterAll` show that the state at that moment does not decide the outcome.
- TransferResults.NeverAWrongByte: a reply that passes the range check is taken to carry the bytes it announces; `ByteRanges.FetchRange` proves that of the worker's endpoint. A file that cannot be opened ends the transfer and is not modelled.
- Transfer.AttemptsBounded: counts connections, not time; backoff delays, the reconnect gate and the refresh of a stale tunnel address are not modelled.
- SchedulerSafety.RunKeeps: holds for careful runs; for each condition on a step a run that breaks it, and loses a published segment, is given (`SchedulerRuns.StaleRestartHappens`, `SchedulerRuns.FallbackReplacementHappens`, `SchedulerRuns.AcceptReplacementHappens`, `SchedulerRuns.LostWhileChecked`, `SchedulerRuns.PublishedWhileWritten`).
- Scheduler.RunCore: a kill, a clean-up (the look at what is published and the deletes after it), a removal with its entry among the given-up segments, and a replacement of a file with its publication are single steps; nobody but the worker touches the segment files.
- SessionObject.Session.DriveBatch: a cancelled job is noticed at the start of a round, not while it waits or falls back; both end the job.
- SessionObject.Session.DriveVideo: published does not mean validated, because an existing non-empty file is accepted as it is.
- Pairing.RunSound: each function is one serial step; hashes are taken to be injective, and codes and tokens are given from outside.
- SyncReplica.ForgottenForever: while one worker lives; a new one asks the tabs for their ids again.
- SyncReplica.NoUpdateLost: one sync in flight, so the overlapping syncs that `resetCursor` can cause are not covered; a write is stamped with the time it becomes visible.
- RenderStore.ReadyIsComplete: removing a directory is one step; taking a job from the queue and marking it as rendering are one step. Readiness also asks that the last file is not empty; file sizes are not modelled, so what is called ready here may be refused for that.
- RenderStore.Store.PublishQuality: with nobody deleting in between; the step system has such deletes, and `RenderStore.ReadyIsComplete` covers them.
- SegmentGrid.SegmentLengths: times are exact reals, so floating-point rounding and six-decimal formatting are not modelled.
- Bencode.RoundTrip: for safe integers and distinct ASCII keys; what the decoders do with text that is not bencode is not modelled.
- Bencode.InfoSliceRebuilt: a swallowed entry whose value is a byte string makes the browser's encoder throw, where the model encodes the rest; in neither case is the slice rebuilt.
- TorrentFiles.SameFile: for torrents whose info dictionary has no key `__proto__`, because the value of such a key would lend its own entries to the reads, a lookup the model does not have; text is compared as the bytes it is decoded from; a length that is a byte string, which Python may still read as a number, is refused.
- ByteRanges.RangeResponse: digits are the ASCII digits, and a trailing newline is not accepted.
- The MEGA cloud download, whose refresh computes its offset while chunks are still queued.
- The single-stream download and its use when the worker ignores ranges; cancelling a whole transfer; progress counters and speed averages.
- Hashcash.SolveHashcash: asks for a challenge that has a solution, because the search goes round for ever without one; the digest is a parameter.
- Password key derivation, hashing, base64, the format of the challenge and the MEGA API transport.
- ffmpeg and ffprobe invocations other than batch timing, audio segments, progressive playback, session expiry.
- Audio readiness, disk estimates, playlists and option lists of pre-renders.
- Magnet links, padding files and the size order of the metadata reply.
- Code normalisation, display names and last-seen times of TVs; HTTP routes, authentication, database drivers and user interface.
- The timers, ports and dispatcher of the sync worker; its other entities, which follow the same code.
