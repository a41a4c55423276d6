# Verified model of the qlappcom core

qlappcom is the shared part of a chat client. This project models five pieces of it in Dafny and proves what they are
for. Paths below are relative to the root of the repository.

* **Digest and date** (`qlappcom/edgedrm.cpp`). The digest is SHA-256 of a hidden 57-byte prefix followed by the data,
  computed from a state in which the first fourteen rounds have been run already, with the remaining byte of the prefix
  folded into four constants. `Sha256Spec` is FIPS 180-4; `EdgeDrm.Sha256Digest` is proved equal to it on every input of
  at least seven bytes, and the prefix turns out to be
  `Copyright (C) Microsoft Corporation. All rights reserved.` Program and standard read the same constants, so
  `Sha256Constants` proves them to be the roots of the first 64 primes, and `Sha256Vector` holds the specification to the
  standard's two-block example. `HttpDate` proves the closed-form day number exact for
  every valid date of every year, before and after the epoch, against counting one day at a time.
* **AES-128-CBC and base64** (`qlappcom/fanyibot.cpp`, `qlappcom/aigptbot.cpp`). The program only deciphers. `Fips197`
  writes both directions of FIPS 197; the two S-box tables, the two column mixtures (through the arithmetic of GF(2^8))
  and the two ciphers are proved inverse to each other, the in-place methods are proved equal to the inverse cipher, and
  CBC mode, padding and base64 are undone for plaintexts of any length. What is inverted is held to the standards as
  well: the S-box table is the affine image of the inverse in the field, the expanded key is that of section 5.2 over
  words, and the key and the block of Appendices A.1 and B come out as printed there.
* **Media cache** (`qlappcom/cache_db.cpp`, `qlappcom/cache_fs.cpp`). Three tables and a directory of files are proved to
  agree with a plain function from keys to bytes over every run, whatever statement fails. The exceptions are exact, and
  each is shown at an input: which torn file write breaks the agreement, which insertion stores a content twice, which
  accepted stores are not read back (a large avatar, and a duplicate under a key whose alias is stranded). `CacheUse` says
  through later lookups what clearing, removing and evicting take away and what they leave.
* **Requests** (`qlappcom/eventpoller.cpp`, `qlappcom/fanyibot.cpp`, `qlappcom/aigptbot.cpp`,
  `qlappcom/pasteuploader.cpp`). The HTTP pump conserves requests and calls each callback once; which requests wait and
  which ones the watchdog ends is said by the times of events alone (`PumpDelays`, `PumpTimes`). The three bots are
  instances of one failover protocol; driven by callbacks, also by callbacks that run before `addRequest` returns, a
  session does exactly what trying its candidates one after the other does. `EndToEnd` puts all three bots on one pump
  that others use as well: each live session of each bot is carried by exactly one request in flight or callback due,
  each start leads to one result or one discard, and a bot handles no more callbacks than the candidates of its starts are
  bounded by. `PumpLocks` and `BotLocks` say exactly which runs come to a halt because a callback waits for the lock that
  its own thread holds.
* **Streams and transport** (`qlappcom/aigptbot.cpp`). Gemini's frames, DeepSeek's delta operations, and the way of a
  prompt through two levels of JSON and percent-encoding. The delta operations are proved about unbounded indices first,
  and `DeltaIndices` says exactly where the program's 32-bit indices depart from that. An answer, printed as the lines of
  a stream, is read back as what it says (`DeltaBodies.SentAnswerIsParsed`).

Objects whose fields callbacks or operations change are classes (`CacheDb.CacheDb`, `EventPoller.EventPoller`, the three
sessions, `DeepseekSse.DsAgg`); in-place loops over arrays are methods with invariants. Each method is tied to a function
of its inputs or of the old state, and the results are proved about that function. What libcurl, SQLite, the file system,
the clock and the servers do is a parameter or part of the request, chosen freely.

## Where the code differs from what its comments say

* `aigptbot.cpp:917` compares seven characters of a line with the six of `event:`. It never matches a line that names an
  event, so event names are never seen, and on a line `event:` by itself `substr(7)` throws
  (`DeepseekSse.EventNeverNamed`, `DeepseekSse.LinesAreDataFrames`, `DeepseekSse.BareEventThrows`). An error reported by a
  hint is lost, and so is every identifier of a message (`EventNames.NamesMatterExactly` says exactly when the report
  differs, `EventNames.HintIsLost` and `EventNames.NoIdentifier` show how).
* `aigptbot.cpp:724-735, 835-848, 998`: indices of fragments are `int`. When one is 2147483647, the loop that joins the
  texts has no end, and the next object appended overflows it; the result of `atoi` for a number beyond `int` is undefined
  (`DeepseekSse.LimitMetExactly`, with inputs in `DeepseekSse.LastFragmentHasNoEnd`, `DeltaIndices.AppendAfterLimit` and
  `DeltaIndices.BeyondIntIsUndefined`).
* `eventpoller.cpp:138` promises every accepted request a callback at shutdown. The callbacks run while the poller still
  counts as ready; what they ask for is queued and dropped (`PumpLaws.StopExactly` says exactly when that happens,
  `PumpLaws.ShutdownDropsFollowUp` shows a run).
* `eventpoller.cpp:85` promises each request exactly one callback, also when it cannot be scheduled. Where a handle cannot
  be built or attached, the callback runs while `pendingMutex` is held, and the mutex is not recursive: a callback that
  goes on with a request of its own, as all three bots do with their next candidate, waits for ever
  (`PumpLocks.RunBlocksExactly` for the pump, `BotLocks.RunHaltsExactly` for the bots on it,
  `BotLocks.FailedRepliesLeadOn`, `PumpLocks.RefusedRequestHalts`).
* `cache_db.cpp:107-109` expects a key whose alias leads to a deleted row to heal by being stored again. When the content
  has a row under another key, the store only refreshes the alias and the key stays unreadable
  (`CacheLaws.ReadAfterWrite`, `CacheLaws.StrandedAliasStaysStranded`).
* `cache_db.cpp:260-267` reports an avatar of more than 256 KB as stored without storing it, as its comment says; the next
  get does not find it (`CacheLaws.LargeAvatarIsNotStored`).
* `aigptbot.cpp:855-872`: with the path of a whole fragment APPEND replaces the fragment's text and its type, and with the
  path of a type it replaces the type (`DeltaLaws.AppendKeepsExactly`, with a frame for each case).

## Model

| member | source | states |
|---|---|---|
| `EdgeDrm.Sha256Digest` | qlappcom/edgedrm.cpp:139-179 | succeeds exactly on seven bytes or more, and then the digest is SHA-256 of the hidden prefix followed by the data, with the constants of `Sha256Constants` |
| `Sha256Constants.ConstantsAreCubeRoots` | qlappcom/edgedrm.cpp:46-63 | each of the 64 round constants is the first 32 bits of the fraction of the cube root of its prime (section 4.2.2 of FIPS 180-4), by an integer whose cube is just below the prime and the next one's just above |
| `Sha256Constants.PrimesAreFirst` | qlappcom/edgedrm.cpp:46-63 | those primes are the first 64, every number up to the last of them being prime exactly when it is in the list |
| `Sha256Constants.InitialValueIsSquareRoots` | qlappcom/edgedrm.cpp:32-35 | the initial hash value that the precomputed state starts from is made of the square roots of the first eight primes |
| `Sha256Vector.TwoBlockExample` | qlappcom/edgedrm.cpp:77-179 | the hash function that the digest is held to gives the published digest of the 56-byte example of FIPS 180-4, through padding, byte order, schedule, both compressions and their chaining |
| `EdgeDrm.Sha256Init` | qlappcom/edgedrm.cpp:105-136 | the state after the first block is the standard compression of the block made of the prefix and seven data bytes |
| `EdgeDrm.MidstateIsFourteenRounds` | qlappcom/edgedrm.cpp:36-39 | the precomputed registers are those after fourteen standard rounds on the prefix |
| `EdgeDrm.EntryIsSchedule` | qlappcom/edgedrm.cpp:111-123 | every word computed from a table entry is the standard schedule word of the first block, although word 14 lacks its top byte |
| `EdgeDrm.ScheduleConstant` | qlappcom/edgedrm.cpp:40-45 | each table entry is the part of the schedule sum that the unseen words contribute |
| `EdgeDrm.Adjustments` | qlappcom/edgedrm.cpp:64-66 | the three adjustments are the sigmas of the missing byte, and that byte added to the round constant |
| `EdgeDrm.RoundFourteenInput` | qlappcom/edgedrm.cpp:124-131 | round 14 consumes the same sum of constant and word as the standard |
| `EdgeDrm.FirstBlockRounds` | qlappcom/edgedrm.cpp:128-135 | rounds 14 to 63 from the precomputed registers end where 64 standard rounds end |
| `EdgeDrm.FirstBlockIsPrefixThenData` | qlappcom/edgedrm.cpp:105-110 | the words of the first block are those of the prefix followed by the data |
| `EdgeDrm.Sha256Rounds` | qlappcom/edgedrm.cpp:77-93 | the rotation of eight local registers runs the standard rounds on the given sums |
| `EdgeDrm.ExpandSchedule` | qlappcom/edgedrm.cpp:96-102 | in place, the words from the given one on become the standard schedule of the words before |
| `EdgeDrm.FirstSchedule` | qlappcom/edgedrm.cpp:106-126 | the words 15 to 63 of the array are the standard schedule of the first block |
| `EdgeDrm.BlockConstants` | qlappcom/edgedrm.cpp:129-131 | the round constants with the fourteenth replaced |
| `EdgeDrm.PadTail` | qlappcom/edgedrm.cpp:142-156 | the padded rest of the message, with the zero count by truncating remainder and the length of prefix and data |
| `EdgeDrm.PadSplits` | qlappcom/edgedrm.cpp:142-156 | prefix, seven bytes and padded rest are the padded message of section 5.1.1 |
| `EdgeDrm.AbsorbBlocks` | qlappcom/edgedrm.cpp:160-171 | in place, the state becomes the standard chaining value over all remaining blocks |
| `EdgeDrm.LoadWords` | qlappcom/edgedrm.cpp:162-166 | sixteen big-endian words |
| `EdgeDrm.DigestBytes` | qlappcom/edgedrm.cpp:172-177 | the state as 32 big-endian bytes |
| `WordAlgebra.Sigma0Linear` | qlappcom/edgedrm.cpp:69-71 | the small sigma 0 of an exclusive or is the exclusive or of the sigmas |
| `WordAlgebra.Sigma1Linear` | qlappcom/edgedrm.cpp:72-74 | the same of sigma 1 |
| `HttpDate.NextDayAddsOne` | qlappcom/edgedrm.cpp:362-370 | the day number rises by exactly one from each valid date to the next |
| `HttpDate.NumberOfDate` | qlappcom/edgedrm.cpp:362-370 | the day number of the date reached by counting n days from the epoch, either way, is n |
| `HttpDate.DateOfNumber` | qlappcom/edgedrm.cpp:362-370 | counting to the day number of any valid date arrives at that date |
| `HttpDate.UnixSeconds` | qlappcom/edgedrm.cpp:350-373 | rejected exactly when a field is out of its range or the month unknown; otherwise the seconds since the epoch, a day past the end of its month counting on |
| `HttpDate.MonthIndex` | qlappcom/edgedrm.cpp:354-357 | the one month of that name, or none |
| `HttpDate.MonthNames` | qlappcom/edgedrm.cpp:352-355 | the twelve names, one by one |
| `HttpDate.ExampleDate` | qlappcom/edgedrm.cpp:362-373 | the seconds of the example date of RFC 2616 |
| `GaloisField.InvMixOfMix` | qlappcom/fanyibot.cpp:629-638 | the inverse column mixture undoes the mixture, by the products in GF(2^8) |
| `GaloisField.MixOfInvMix` | qlappcom/fanyibot.cpp:629-638 | and the other way round |
| `AesTables.TablesAreInverse` | qlappcom/fanyibot.cpp:512-580 | the two S-box tables are inverse to each other on all 256 bytes |
| `SboxSpec.SboxIsStandard` | qlappcom/fanyibot.cpp:512-545 | every byte has one inverse in GF(2^8), and the table holds the affine image of it that section 5.1.1 of FIPS 197 defines |
| `SboxSpec.InverseUnique` | qlappcom/fanyibot.cpp:582-592 | products in the field associate, so that no byte has two inverses |
| `Fips197.InvCipherOfCipher` | qlappcom/fanyibot.cpp:640-656 | for every key and block the inverse cipher undoes the cipher |
| `Fips197.CipherOfInvCipher` | qlappcom/fanyibot.cpp:640-656 | and the other way round |
| `AesDecrypt.AesMul` | qlappcom/fanyibot.cpp:582-592 | the loop over eight bits computes the product in GF(2^8) |
| `AesDecrypt.AesExpandKey` | qlappcom/fanyibot.cpp:594-611 | the array becomes the expanded key, which `KeySchedule` proves to be that of section 5.2 |
| `KeySchedule.ExpansionIsStandard` | qlappcom/fanyibot.cpp:594-611 | for every key, word i of the expanded key is w[i] of section 5.2, written over words with RotWord, SubWord and Rcon defined on their own |
| `AesVector.RoundKey10` | qlappcom/fanyibot.cpp:594-611 | the last round key of Appendix A.1, reached through the forty words before it |
| `AesDecrypt.AesAddRoundKey` | qlappcom/fanyibot.cpp:613-615 | in place, the state plus a round key |
| `AesDecrypt.AesInvShiftRows` | qlappcom/fanyibot.cpp:617-623 | in place, the rows shifted back |
| `AesDecrypt.AesInvSubBytes` | qlappcom/fanyibot.cpp:625-627 | in place, every byte through the inverse table |
| `AesDecrypt.AesInvMixColumns` | qlappcom/fanyibot.cpp:629-638 | in place, every column mixed back |
| `AesDecrypt.AesDecryptBlock` | qlappcom/fanyibot.cpp:640-656 | the inverse cipher of section 5.3 under the expanded key, which undoes the cipher that `AesVector.CipherExample` holds to the standard |
| `AesVector.CipherExample` | qlappcom/fanyibot.cpp:617-656 | the cipher that the program inverts gives the ciphertext of Appendix B, round by round |
| `AesVector.InverseExample` | qlappcom/fanyibot.cpp:640-656 | the inverse cipher gives its plaintext |
| `AesVector.RowsMoveLeft` | qlappcom/fanyibot.cpp:617-623 | row r of the cipher moves r places to the left, so that of its inverse moves right |
| `CbcMode.CbcDecryptOfEncrypt` | qlappcom/fanyibot.cpp:666-676 | CBC decryption undoes CBC encryption for any number of blocks and any invertible cipher |
| `CbcMode.CbcEncryptOfDecrypt` | qlappcom/fanyibot.cpp:666-676 | and the other way round |
| `CbcMode.BlocksAreChained` | qlappcom/fanyibot.cpp:666-676 | the mode that is inverted is that of section 6.2 of SP 800-38A: each block of ciphertext is the cipher of its plaintext plus the block before, the first plus the vector |
| `CbcMode.PadIsStandard` | qlappcom/fanyibot.cpp:678-684 | the padding that is removed is that of section 6.3 of RFC 5652: k bytes of value k, from 1 to 16 |
| `CbcMode.UnpadOfPad` | qlappcom/fanyibot.cpp:678-684 | removing the padding of section 6.3 of RFC 5652 gives the plaintext |
| `CbcMode.PadOfUnpad` | qlappcom/fanyibot.cpp:678-684 | a non-empty result, padded, is the input |
| `CbcMode.RemovePadding` | qlappcom/fanyibot.cpp:678-684 | nothing unless the last n bytes, 1 to 16, all are n |
| `CbcMode.Aes128CbcDecrypt` | qlappcom/fanyibot.cpp:659-685 | nothing for key, vector or data of a wrong length; otherwise the unpadded CBC decryption |
| `CbcMode.DecryptedRoundTrip` | qlappcom/fanyibot.cpp:659-685 | every plaintext of any length comes back from its padded encryption |
| `CbcMode.NonEmptyOutputReencrypts` | qlappcom/fanyibot.cpp:659-685 | an input decrypts to a non-empty plaintext if and only if it is that plaintext padded and encrypted |
| `CbcMode.ReplyRoundTrip` | qlappcom/fanyibot.cpp:998-1000 | a reply padded, encrypted and sent in the URL alphabet, with or without padding characters, is decoded and deciphered to the plaintext |
| `Base64.Base64Encode` | qlappcom/aigptbot.cpp:522-551 | the encoding of section 4 of RFC 4648 |
| `Base64.Base64UrlDecode` | qlappcom/fanyibot.cpp:482-509 | the bytes of the digits before the first padding character, in either alphabet, all else skipped, although the 32-bit accumulator is never masked |
| `Base64.AllVariantsRoundTrip` | qlappcom/fanyibot.cpp:482-509 | every byte string comes back: as encoded, unpadded, and in the URL alphabet |
| `Base64.StripPaddingKeepsValues` | qlappcom/aigptbot.cpp:553-557 | the encoding without padding has the same digits |
| `Base64.LetterIsStandard` | qlappcom/aigptbot.cpp:523-524 | the letters are those of table 1 of RFC 4648, written out |
| `Base64.ValueIsStandard` | qlappcom/fanyibot.cpp:479-500 | a character stands for a value exactly when it is its letter in table 1 or in table 2 |
| `Base64.ExampleOfSix` | qlappcom/aigptbot.cpp:526-551 | foobar is Zm9vYmFy, as section 10 has it |
| `Base64.UrlVariantIsSafe` | qlappcom/aigptbot.cpp:553-557 | without its padding and in the URL alphabet an encoding has no character that a URL reserves |
| `CacheDb.CacheDb.PutInternal` | qlappcom/cache_db.cpp:41-93 | an alias to the newest row with the same hash, or a new row; on conflict only the access time changes; each statement may fail |
| `CacheDb.CacheDb.FindDuplicate` | qlappcom/cache_db.cpp:53-57 | a newest row with that hash, if there is one |
| `CacheDb.CacheDb.PutRef` | qlappcom/cache_db.cpp:203-226 | a reference, or its access time; large avatars are reported stored and are not |
| `CacheDb.CacheDb.StoreMedia` | qlappcom/cache_db.cpp:258-276 | up to one megabyte in the table, beyond it in a file with a reference |
| `CacheDb.CacheDb.WriteFile` | qlappcom/cache_fs.cpp:54-60 | the file is truncated and holds the bytes that were written |
| `CacheDb.CacheDb.Get` | qlappcom/cache_db.cpp:96-154 | the row, or the row an alias leads to, with the access time refreshed |
| `CacheDb.CacheDb.Exists` | qlappcom/cache_db.cpp:156-168 | a row or an alias, dangling or not |
| `CacheDb.CacheDb.LoadMedia` | qlappcom/cache_db.cpp:278-366 | the referenced file unless empty, otherwise as get |
| `CacheDb.CacheDb.Remove` | qlappcom/cache_db.cpp:170-176 | the row goes, aliases and references stay |
| `CacheDb.CacheDb.ClearByTag` | qlappcom/cache_db.cpp:178-189 | the rows and references of a tag, all for tag 0, go; aliases and files stay; what that means for later loads is in `CacheUse` |
| `CacheDb.CacheDb.TotalCacheSize` | qlappcom/cache_db.cpp:191-201 | the sum of all sizes, as far as the statements succeed |
| `CacheDb.SelectOldest` | qlappcom/cache_db.cpp:379-388 | as many keys as allowed, none younger than one left out |
| `CacheDb.CacheDb.Evict` | qlappcom/cache_db.cpp:368-401 | nothing up to the target size; beyond it the old large rows, the hundred oldest rows, and up to a hundred stale references with their files |
| `CacheLaws.StepCoherence` | qlappcom/cache_db.cpp:41-401 | every operation, whatever fails, keeps the agreement of rows, aliases and files with a function from keys to bytes, except exactly a torn file write under a key that has a reference before or whose reference is then inserted |
| `CacheLaws.RunCoherence` | qlappcom/cache_db.cpp:41-401 | every state of a run that stores f(key) under every key agrees with f if and only if no step of the run tears the file of a key that has a reference or is given one |
| `CacheLaws.RunAgrees` | qlappcom/cache_db.cpp:96-366 | over every such run from a coherent store each lookup finds nothing or bytes of a key whose content has the same hash, and without a collision nothing or f(key) |
| `CacheLaws.EveryLookupAgrees` | qlappcom/cache_db.cpp:96-366 | from the empty store, every lookup of every run finds nothing or f(key) |
| `CacheLaws.TornWriteDisagrees` | qlappcom/cache_fs.cpp:54-60 | a second store of the same large content whose writing stops after one byte makes the key load that byte |
| `CacheLaws.StepFrame` | qlappcom/cache_db.cpp:41-401 | only its access time ever changes in a row that stays, and an alias is never removed or redirected |
| `CacheLaws.StepDedup` | qlappcom/cache_db.cpp:46-92 | no operation stores a content twice, except exactly an insertion after a failed lookup or alias |
| `CacheLaws.RunDedup` | qlappcom/cache_db.cpp:46-92 | from a store whose rows carry hashes, no two rows hold the same non-empty content in any state of a run, if and only if no insertion of the run follows a failed lookup or alias |
| `CacheLaws.FailedLookupDuplicates` | qlappcom/cache_db.cpp:52-72 | two accepted stores of the same byte, the second with a failed lookup, leave two rows of it |
| `CacheLaws.ReadAfterWrite` | qlappcom/cache_db.cpp:51-136 | an accepted store of up to a megabyte is read back by the next get, except exactly a large avatar whose key could not be read before, and a duplicate under a key whose alias leads to a deleted row |
| `CacheLaws.LargeAvatarIsNotStored` | qlappcom/cache_db.cpp:258-267 | an avatar of 300000 bytes is accepted by the empty cache, which stays empty |
| `CacheLaws.ReadableLoads` | qlappcom/cache_db.cpp:278-366 | a load finds the bytes exactly when there is a file with content, a row, or an alias to a row |
| `CacheLaws.StoreMakesReadable` | qlappcom/cache_db.cpp:258-276 | an accepted store of any size makes its key readable, except exactly for those two cases and a file that received no byte |
| `CacheLaws.ReadablePersists` | qlappcom/cache_db.cpp:41-366 | what is readable stays readable until something is removed |
| `CacheLaws.RunPersists` | qlappcom/cache_db.cpp:41-366 | over a whole run without removals a readable key still loads its bytes |
| `CacheLaws.StrandedAliasStaysStranded` | qlappcom/cache_db.cpp:57-70 | the exception is reachable: every store accepted, the key exists, and it is not found |
| `CacheUse.ClearSpares` | qlappcom/cache_db.cpp:178-189 | after a tag other than 0 is cleared no row and no reference has it, and every key whose row, reference and alias target have other tags loads and gets what it did before, whatever statement of the lookup fails |
| `CacheUse.ClearForgets` | qlappcom/cache_db.cpp:178-189 | a key that had nothing but that tag loads nothing |
| `CacheUse.ClearAll` | qlappcom/cache_db.cpp:178-189 | after tag 0 is cleared every load finds nothing, and only aliases exist |
| `CacheUse.ClearInPart` | qlappcom/cache_db.cpp:178-189 | a statement that fails leaves its table as it is, and the other one is cleared all the same |
| `CacheUse.RemoveForgets` | qlappcom/cache_db.cpp:170-176 | for every key: a removed row is found no more under its key and the aliases that lead to it, and every other key loads what it did |
| `CacheUse.EvictExactly` | qlappcom/cache_db.cpp:368-401 | with the numbers written out, exactly which rows an eviction deletes and keeps, and that it deletes no reference used within seven days and no file but those of such references |
| `CacheUse.AccessIsLastRead` | qlappcom/cache_db.cpp:96-154 | over every sequence of lookups the access time of a row is that of the last lookup of its key |
| `CacheUse.LastReadGoesLast` | qlappcom/cache_db.cpp:379-388 | a row that was read after another one is not evicted while that one is kept |
| `CacheUse.StoredIsLoaded` | qlappcom/cache_db.cpp:258-366 | with every statement succeeding, what is stored under a new key is loaded with the type it was stored with, in the table up to a megabyte and in a file beyond, except a large avatar; a duplicate is loaded with the type of the first one |
| `CacheUse.StoredExists` | qlappcom/cache_db.cpp:156-276 | and it exists, and is gone when its tag is cleared |
| `CacheUse.StoredAgain` | qlappcom/cache_db.cpp:78-92 | storing a key that has a row keeps the bytes and type of that row, and renews the time of its last use |
| `CacheUse.FoundExists` | qlappcom/cache_db.cpp:96-168 | what a lookup finds exists, and a key with a row is found with the bytes and type of the row |
| `EventPoller.EventPoller.AddRequest` | qlappcom/eventpoller.cpp:169-197 | delayed, pending, or finished at once with whatever its callback asks for |
| `EventPoller.EventPoller.CallDone` | qlappcom/eventpoller.cpp:86-94 | the callback is called once, and its own requests are taken in, nested |
| `EventPoller.EventPoller.PromoteDelayed` | qlappcom/eventpoller.cpp:357-363 | due requests leave the front of the queue one by one |
| `EventPoller.EventPoller.AttachPending` | qlappcom/eventpoller.cpp:364-388 | every pending handle is attached or finished; the loop ends although callbacks add to its queue, as long as callbacks ask for finitely many requests in turn |
| `EventPoller.EventPoller.RecoverMulti` | qlappcom/eventpoller.cpp:297-332 | no handle stays active, and every one of them is finished |
| `EventPoller.EventPoller.WatchStalls` | qlappcom/eventpoller.cpp:411-466 | the stalled handles are collected first, then aborted one by one; which ones those are, by the events of a run, is in `PumpTimes` |
| `EventPoller.EventPoller.DispatchMessages` | qlappcom/eventpoller.cpp:473-531 | the handle of each message is detached and finished |
| `EventPoller.EventPoller.RunOnce` | qlappcom/eventpoller.cpp:337-532 | one round of the loop |
| `EventPoller.EventPoller.NoteProgress` | qlappcom/eventpoller.cpp:97-118 | activity is noted only for requests that report progress |
| `EventPoller.EventPoller.Stop` | qlappcom/eventpoller.cpp:134-165 | pending and delayed requests are finished, while the poller still counts as ready |
| `PumpSpec.FinishSize` | qlappcom/eventpoller.cpp:86-94 | whatever a callback queues, at any depth, weighs less than the request it ends, requests being finite trees of what their callbacks ask for |
| `PumpLaws.StepLaw` | qlappcom/eventpoller.cpp:134-531 | every step keeps the conservation of requests and the order of handles, and takes no callback back |
| `PumpLaws.ExactlyOnePlace` | qlappcom/eventpoller.cpp:134-531 | in every reachable state a request asked for once is in exactly one of delayed, pending, active and done |
| `PumpLaws.DueExactly` | qlappcom/eventpoller.cpp:357-363 | a delayed request is taken exactly when it and all those ahead of it are ready |
| `PumpLaws.DelayedLeaveInOrder` | qlappcom/eventpoller.cpp:357-363 | over every run without shutdown, exactly the first requests that were ready at the last admission have left, the others wait in order |
| `PumpDelays.QueueExactly` | qlappcom/eventpoller.cpp:172-190 | over every run from the start without shutdown the queue of delayed requests is all that were ever asked for with a delay, by callbacks too, each ready delayMs after it was asked for, without the first ones that were ready at the last admission |
| `PumpDelays.WaitsExactly` | qlappcom/eventpoller.cpp:355-363 | one of them still waits if and only if its own delay, or that of one asked for before it, was not over at the last admission |
| `PumpLaws.WatchLaw` | qlappcom/eventpoller.cpp:411-466 | exactly the stalled handles leave |
| `PumpTimes.WatchEndsExactly` | qlappcom/eventpoller.cpp:411-466 | after every run from the start a watchdog step at time t ends an active request, and calls its callback, if and only if it has a limit of n > 0 seconds and the last event that made its handle or brought bytes noted for it came before t - 1000 n milliseconds |
| `PumpTimes.WatchEndsIdle` | qlappcom/eventpoller.cpp:411-466 | with a clock that does not run backwards, if and only if no such event came at or after that time |
| `PumpTimes.LastActiveIsLastNote` | qlappcom/eventpoller.cpp:97-118 | over every run the time kept for a handle is that of the last such event |
| `PumpLaws.RecoverLaw` | qlappcom/eventpoller.cpp:297-332 | recovery keeps the invariant and leaves no handle active |
| `PumpLaws.StopExactly` | qlappcom/eventpoller.cpp:134-165 | after a shutdown only requests that were active lack a callback, exactly when no callback of a queued request queues a request of its own |
| `PumpLaws.ShutdownDropsFollowUp` | qlappcom/eventpoller.cpp:134-165 | a queued request whose callback asks for another leaves that one pending in a poller that is gone |
| `PumpLaws.IterationIsRun` | qlappcom/eventpoller.cpp:337-532 | a round of the loop is an admission followed by recovery, or by the watchdog and messages |
| `PumpLocks.AdmitBlocksExactly` | qlappcom/eventpoller.cpp:355-389 | admission halts if and only if a request that cannot be built or attached has a callback that asks for more; otherwise the lock changes nothing |
| `PumpLocks.StepBlocksExactly` | qlappcom/eventpoller.cpp:134-531 | a step of the pump waits for its own lock if and only if a callback asks for more that is called under the lock |
| `PumpLocks.RunBlocksExactly` | qlappcom/eventpoller.cpp:134-531 | a run halts if and only if one of its steps does; all others are runs without a lock |
| `PumpLocks.RefusedRequestHalts` | qlappcom/eventpoller.cpp:367-386 | a request that the multi handle does not accept, and whose callback asks for another, halts the pump |
| `PumpLocks.CallsInOrder` | qlappcom/eventpoller.cpp:355-389 | unless it halts, an admission calls the callbacks of the due requests that cannot be built, then those of the pending and the just built ones that cannot be attached, in order |
| `PumpUsers.ActedLaw` | qlappcom/eventpoller.cpp:297-531 | by itself the pump keeps its invariant, takes no callback back, and asks for nothing but what other users' callbacks ask for |
| `PumpUsers.BotFlightMoves` | qlappcom/eventpoller.cpp:134-531 | of one bot's requests, those in flight stay in flight or have their callbacks called, whatever others ask for |
| `Failover.SucceedsExactlyWithFirst` | qlappcom/fanyibot.cpp:717-899 | a session succeeds exactly with the first candidate whose whole script succeeds after all before it failed; it fails exactly when all fail, and lists them in order |
| `Failover.DriveIsSequential` | qlappcom/aigptbot.cpp:486-511 | driven by callbacks, a session does what trying the candidates in turn does, for any candidates and completions |
| `Failover.DriveInParts` | qlappcom/eventpoller.cpp:172-196 | it does not matter which completions come before addRequest returns |
| `Failover.RequestsBounded` | qlappcom/pasteuploader.cpp:445-512 | a session makes at most the sum of its candidates' bounds in requests |
| `Failover.SessionEnds` | qlappcom/pasteuploader.cpp:445-512 | after that many completions it is over |
| `Sessions.RunConsistent` | qlappcom/aigptbot.cpp:267-313 | over every interleaving of starts and completions, each live session is carried by one outstanding request, and each start is live or over exactly once |
| `Sessions.CompleteConsistent` | qlappcom/aigptbot.cpp:2410-2421 | a completion finds its session standing at a candidate, so the removals for an index out of range are unreachable |
| `Sessions.DiscardedForLater` | qlappcom/fanyibot.cpp:274-306 | over every run a start is discarded only for a later start that answers the same message; every other start that is no longer live has led to a result |
| `Sessions.DiscardedForLive` | qlappcom/fanyibot.cpp:274-306 | over every run a completion is discarded if and only if a start for the same message that came later is live; no result of its session is then ever posted, whatever follows |
| `Fanyibot.EnginesBounded` | qlappcom/fanyibot.cpp:746-1059 | youdao makes at most five requests, yandex four, the others one |
| `Fanyibot.YoudaoBoundReached` | qlappcom/fanyibot.cpp:955-1022 | five are reached |
| `Fanyibot.YandexBoundReached` | qlappcom/fanyibot.cpp:1024-1056 | four are reached |
| `Fanyibot.AtMostElevenRequests` | qlappcom/fanyibot.cpp:687-899 | whatever is asked and comes back, a translation makes at most eleven requests and is over then |
| `Fanyibot.EnginesNeverSilent` | qlappcom/fanyibot.cpp:746-882 | no engine returns without a request and without a result |
| `Fanyibot.WinsExactly` | qlappcom/fanyibot.cpp:901-1059 | which replies are a translation, of every engine and every step, and that it is the text of the reply |
| `Fanyibot.YoudaoStartsOver` | qlappcom/fanyibot.cpp:955-1022 | youdao starts over exactly on code 40 or 50 or an empty answer, once, and from which step |
| `Fanyibot.YoudaoAsksForKey` | qlappcom/fanyibot.cpp:955-990 | what the answer to its request for a key leads to |
| `Fanyibot.YandexStartsOver` | qlappcom/fanyibot.cpp:1024-1056 | yandex starts over exactly on an empty answer, once |
| `Fanyibot.BeginsExactly` | qlappcom/fanyibot.cpp:746-882 | the first request of every engine |
| `Fanyibot.GoodRepliesTranslate` | qlappcom/fanyibot.cpp:717-1059 | a session whose engine answers well succeeds with the text of the last reply |
| `Fanyibot.BuildCandidates` | qlappcom/fanyibot.cpp:687-712 | for "any" a permutation of the usable engines, for a name that engine if it is usable |
| `Fanyibot.FanyibotSession.StartNext` | qlappcom/fanyibot.cpp:884-899 | the fields follow the protocol from a candidate on, also through callbacks that run before the request is handed over |
| `Fanyibot.FanyibotSession.FailEngine` | qlappcom/fanyibot.cpp:717-732 | the candidate is noted as tried, its fields are reset and the next one begins |
| `Fanyibot.FanyibotSession.SendEngine` | qlappcom/fanyibot.cpp:746-882 | the request of the current step, or the one after it when the key or the SID is known |
| `Fanyibot.FanyibotSession.SendHttp` | qlappcom/fanyibot.cpp:734-744 | the session belongs to the request; the index of the key pair is in range |
| `Fanyibot.FanyibotSession.OnDone` | qlappcom/fanyibot.cpp:901-1059 | a completion moves the session as the protocol does |
| `Fanyibot.FanyibotSession.OnYoudaoDone` | qlappcom/fanyibot.cpp:955-1022 | youdao: the other key pair, one retry with a new key, success or failure |
| `Fanyibot.FanyibotSession.OnYandexDone` | qlappcom/fanyibot.cpp:1024-1056 | yandex: one retry with a new SID, success or failure |
| `Aigptbot.ProvidersBounded` | qlappcom/aigptbot.cpp:1013-2361 | deepseek makes at most six requests, chatgpt and meta three, gemini two, the others one |
| `Aigptbot.DeepseekBoundReached` | qlappcom/aigptbot.cpp:1013-1207 | six are reached |
| `Aigptbot.InTurnBoundReached` | qlappcom/aigptbot.cpp:1515-2361 | the bounds of gemini, chatgpt and meta are reached |
| `Aigptbot.ProvidersNeverSilent` | qlappcom/aigptbot.cpp:403-484 | no provider returns without a request and without a result |
| `Aigptbot.WinsExactly` | qlappcom/aigptbot.cpp:1013-2449 | which replies are the answer, of every provider and every step, and that it is the text of the reply |
| `Aigptbot.AsksExactly` | qlappcom/aigptbot.cpp:1013-2361 | which replies lead to a further request, and to which step |
| `Aigptbot.BeginsExactly` | qlappcom/aigptbot.cpp:403-484 | the first request of every provider |
| `Aigptbot.GoodRepliesAnswer` | qlappcom/aigptbot.cpp:1515-2408 | a session whose provider answers well succeeds with the text of the last reply after exactly its number of requests |
| `Aigptbot.UsableInOrder` | qlappcom/aigptbot.cpp:2451-2512 | which providers are usable, and that they keep the order of the table |
| `Aigptbot.BuildCandidates` | qlappcom/aigptbot.cpp:2451-2512 | "all" in the order of the table, "any" a permutation of the same, a name that provider; AI Horde only by name |
| `Aigptbot.RejectedExactly` | qlappcom/aigptbot.cpp:436-441 | whatever comes in, a session is rejected if and only if AI Horde is its only candidate, and then at once |
| `Aigptbot.AigptSession.StartNext` | qlappcom/aigptbot.cpp:486-503 | the fields follow the protocol from a candidate on |
| `Aigptbot.AigptSession.SendHost` | qlappcom/aigptbot.cpp:403-484 | tried first; without a credential the next candidate, otherwise the first request |
| `Aigptbot.AigptSession.SendWebHost` | qlappcom/aigptbot.cpp:2363-2374 | the request of the current step of a web provider |
| `Aigptbot.AigptSession.OnWebDone` | qlappcom/aigptbot.cpp:2376-2408 | a completion of a web provider moves the session as the protocol does |
| `Aigptbot.AigptSession.DsOnDone` | qlappcom/aigptbot.cpp:1013-1207 | deepseek: token, challenge, conversation new or continued, completion, one new conversation when full |
| `Aigptbot.AigptSession.GemOnDone` | qlappcom/aigptbot.cpp:1515-1581 | gemini: the token of the page, then the reply |
| `Aigptbot.AigptSession.GrokOnDone` | qlappcom/aigptbot.cpp:1751-1793 | grok: the reply, or the next candidate |
| `Aigptbot.AigptSession.CgptOnDone` | qlappcom/aigptbot.cpp:1928-2056 | chatgpt: the fields and the proof of work, then an answer without an error, then the reply |
| `Aigptbot.AigptSession.MetaOnDone` | qlappcom/aigptbot.cpp:2269-2361 | meta: the token of the page, then the access token, then the reply |
| `Aigptbot.AigptSession.OnDone` | qlappcom/aigptbot.cpp:2410-2449 | a completion of any other provider |
| `PasteUploader.UploadsBounded` | qlappcom/pasteuploader.cpp:350-512 | storage.to takes at most three requests, every other host one |
| `PasteUploader.StorageToBoundReached` | qlappcom/pasteuploader.cpp:475-504 | three are reached |
| `PasteUploader.BuildCandidates` | qlappcom/pasteuploader.cpp:297-335 | the hosts that fit kind and lifetime, in order, shuffled or one by name; never pastebin.com |
| `PasteUploader.FittingHosts` | qlappcom/pasteuploader.cpp:24-38 | the hosts that fit, named one by one for every kind and lifetime |
| `PasteUploader.RepliesExactly` | qlappcom/pasteuploader.cpp:460-512 | which replies are the address and which lead to a further request, of every host and step |
| `PasteUploader.CandidatesNeverPastebin` | qlappcom/pasteuploader.cpp:297-335 | what an upload may go to are different hosts, and never pastebin.com |
| `PasteUploader.SilentExactlyPastebin` | qlappcom/pasteuploader.cpp:437-439 | the return without a request is reachable exactly when pastebin.com is a candidate |
| `PasteUploader.PasteSession.StartNext` | qlappcom/pasteuploader.cpp:445-458 | the fields follow the protocol from a candidate on |
| `PasteUploader.PasteSession.SendHost` | qlappcom/pasteuploader.cpp:377-443 | tried first, then the first request; the bare return is not taken |
| `PasteUploader.PasteSession.OnDone` | qlappcom/pasteuploader.cpp:460-512 | a completion moves the session as the protocol does, although the step of storage.to is never reset |
| `EndToEnd.CarriedExactlyOnce` | qlappcom/fanyibot.cpp:274-306 | in every state that a run of the pump, all three bots and other users reaches, the requests in flight and callbacks due that carry a session of a bot are one if it is live and none otherwise, and each session that is not live is over exactly once |
| `EndToEnd.NewSound` | qlappcom/eventpoller.cpp:120-132 | the empty system, from which runs start, is sound |
| `EndToEnd.StepSound` | qlappcom/eventpoller.cpp:134-531 | every step of the pump, of a bot or of another user keeps the sessions of all bots linked to their requests; no bot is ever silent |
| `EndToEnd.DueIsLive` | qlappcom/aigptbot.cpp:2376-2387 | every callback finds its session live and standing at a candidate |
| `EndToEnd.CallbacksBounded` | qlappcom/fanyibot.cpp:717-899 | over every run, the callbacks that a bot handles and those that its live sessions may still handle are at most those of before and what the candidates of its starts are bounded by |
| `EndToEnd.EveryStartEnds` | qlappcom/fanyibot.cpp:687-899 | from the empty system on, however the bots and others take turns, a bot handles at most the sum of the bounds of all candidates of all its starts |
| `SessionBounds.StartLoad` | qlappcom/aigptbot.cpp:486-511 | a start adds no more to what the sessions may still handle than the bounds of its candidates |
| `SessionBounds.CompleteLoad` | qlappcom/aigptbot.cpp:2410-2449 | each callback lowers it |
| `BotLocks.FailedRepliesLeadOn` | qlappcom/fanyibot.cpp:717-732 | with each of the three bots, a failed reply leads on to the next candidate that can ask, those in between being passed over at once |
| `BotLocks.GoesOnExactly` | qlappcom/fanyibot.cpp:274-306 | a callback hands its session on exactly when the session is live afterwards, that is, neither outdated nor over |
| `BotLocks.AdmissionHaltsExactly` | qlappcom/eventpoller.cpp:355-389 | an admission halts the system if and only if one of the callbacks it calls under the lock goes on, each judged by the sessions as those called before it leave them |
| `BotLocks.StepHaltsExactly` | qlappcom/eventpoller.cpp:134-531 | a step of the pump, of a bot or of another user waits for its own lock if and only if an admission does, or another user's callback does, or a session is handed over that can go on when its request cannot be built |
| `BotLocks.RunHaltsExactly` | qlappcom/eventpoller.cpp:134-531 | a run of the pump, the three bots and other users halts if and only if one of its steps does; every other run is one without a lock |
| `GeminiFrames.SplitFrames` | qlappcom/aigptbot.cpp:1387-1428 | on any bytes the loop ends with the frames of the body, never reading past its end |
| `GeminiFrames.ScanPayload` | qlappcom/aigptbot.cpp:1401-1423 | the index after as many code units as announced, at most the length |
| `GeminiFrames.ScanHeader` | qlappcom/aigptbot.cpp:1393-1400 | white space, digits and a line end, or nothing |
| `GeminiFrames.DecodeOfUtf8` | qlappcom/aigptbot.cpp:1403-1418 | the character at the front of well-formed UTF-8 is recognised with its length |
| `GeminiFrames.TakeUnitsOfText` | qlappcom/aigptbot.cpp:1401-1423 | a text is cut off exactly at its length in UTF-16 code units |
| `GeminiFrames.TakesAsManyAsFit` | qlappcom/aigptbot.cpp:1401-1423 | for any announced number, as many characters are taken as have no more code units, a pair of surrogates never being parted |
| `GeminiFrames.UnitsAreUtf16` | qlappcom/aigptbot.cpp:1413-1417 | the length counted is that of the UTF-16 encoding, surrogates written out |
| `GeminiFrames.EncodingExamples` | qlappcom/aigptbot.cpp:1403-1418 | the characters of the examples in section 7 of RFC 3629 |
| `GeminiFrames.HeaderMeans` | qlappcom/aigptbot.cpp:1393-1400 | whatever is taken for a header is white space, digits and a line end |
| `GeminiFrames.BlankIsWhiteText` | qlappcom/aigptbot.cpp:1424-1428 | the payloads left out are the texts of blanks, tabs and line ends alone |
| `GeminiFrames.SplitOfPrinted` | qlappcom/aigptbot.cpp:1387-1428 | printed frames of any texts, with any white space between them, are split into exactly the payloads that are not blank, in order |
| `DeltaLaws.FramesInRange` | qlappcom/aigptbot.cpp:724-895 | with unbounded indices, over every sequence of frames all fragments and types have an index from 0 to the largest one |
| `DeltaLaws.SpokenInOrder` | qlappcom/aigptbot.cpp:998-1003 | in range, the loop joins the texts of all fragments that are not thoughts, in ascending order |
| `DeltaLaws.AppendKeepsExactly` | qlappcom/aigptbot.cpp:823-884 | with unbounded indices, APPEND keeps every text as the beginning of its new text, and every type, except exactly an object at a whole fragment with another text or type, and another type at the path of a type |
| `DeltaLaws.AppendedObjectReplacesText` | qlappcom/aigptbot.cpp:855-865 | a frame that takes the text of a fragment away |
| `DeltaLaws.AppendedObjectReplacesType` | qlappcom/aigptbot.cpp:855-865 | a frame that extends a text and makes it a thought |
| `DeltaLaws.AppendedTypeReplacesType` | qlappcom/aigptbot.cpp:866-872 | a frame that makes a text a thought |
| `DeltaLaws.OpIsLeaves` | qlappcom/aigptbot.cpp:765-797 | an operation does what its flat operations do, however deeply batches nest |
| `DeltaLaws.LeavesAreFlat` | qlappcom/aigptbot.cpp:769-797 | flat operations have a path, an operator and no batch |
| `DeltaLaws.TokensOfJoin` | qlappcom/aigptbot.cpp:781-810 | the parts of a joined path are the parts of both |
| `DeltaLaws.NormalisationKeepsMeaning` | qlappcom/aigptbot.cpp:951-981 | making every inherited path and operator explicit and every batch flat gives the same aggregate, from any path and operator in force |
| `DeltaTexts.AppendsLengthen` | qlappcom/aigptbot.cpp:854-873 | over every sequence of texts: frames that append them to one fragment, or bare texts after such a frame, lengthen its text by exactly their concatenation and leave all else as it was |
| `DeltaTexts.BareTextsLengthen` | qlappcom/aigptbot.cpp:755-762 | texts without any path lengthen the last fragment by exactly their concatenation, or make the first |
| `DeltaTexts.SetReplaces` | qlappcom/aigptbot.cpp:867-869 | SET leaves exactly its text, and all else as it was |
| `DeltaTexts.ReplyContent` | qlappcom/aigptbot.cpp:875-885 | with the path of the reply's content SET replaces the text of the last fragment and everything else lengthens it |
| `DeltaTexts.ListReplacesAll` | qlappcom/aigptbot.cpp:825-843 | SET of a list leaves exactly its fragments, with their types and texts |
| `DeltaBatches.BatchEdits` | qlappcom/aigptbot.cpp:769-797 | over every sequence of edits, a batch leaves the text that its items make one after the other, an item without an operator setting it, and all else as it was |
| `DeltaBatches.PlainFrameSets` | qlappcom/aigptbot.cpp:951-978 | a frame without an operator takes the one in force, and sets its text when there is none |
| `DeltaTexts.AppendsAreRead` | qlappcom/aigptbot.cpp:898-1009 | from the start, frames that append texts to any fragment are read as the trimmed concatenation of the texts |
| `DeltaTexts.AnswerIsParsed` | qlappcom/aigptbot.cpp:898-1009 | any answer of no more pieces than an int counts, printed as a snapshot, appended pieces, appended texts and statuses, is read, with 32-bit indices, as the trimmed concatenation of all pieces that are not thoughts, each with every text appended to it, or as interrupted |
| `DeltaTexts.ErrorIsReported` | qlappcom/aigptbot.cpp:929-941 | an error after any frames is what is reported |
| `DeltaTexts.TrimIsMiddle` | qlappcom/aigptbot.cpp:1004 | trimming takes away all blanks at both ends and nothing else |
| `DeltaBodies.BodyIsRead` | qlappcom/aigptbot.cpp:906-929 | a body of data lines with white space around their frames, lines of other kinds and blank ones, with either line end, is read as the frames of its data lines |
| `DeltaBodies.SentAnswerIsParsed` | qlappcom/aigptbot.cpp:898-1009 | with any such lines between its frames, an answer is read from the body itself as what it says |
| `DeltaIndices.FramesTrack` | qlappcom/aigptbot.cpp:724-981 | over every sequence of frames the interpreter with 32-bit indices does what the one with unbounded indices does if and only if the indices that the frames name and the objects that they append stay within int; the largest index is then the one they lead to |
| `DeltaIndices.SmallIndicesFit` | qlappcom/aigptbot.cpp:724-856 | they do if the largest index named and the number of objects appended are below 2147483647 together |
| `DeltaIndices.AppendKeepsWithin` | qlappcom/aigptbot.cpp:823-884 | with 32-bit indices, APPEND goes beyond int exactly where its frame says so, and keeps texts and types with the same exceptions otherwise |
| `DeltaIndices.LastFrameReachesLimit` | qlappcom/aigptbot.cpp:724-735 | a frame that makes the largest index 2147483647 |
| `DeltaIndices.AppendAfterLimit` | qlappcom/aigptbot.cpp:835-848 | the next object appended overflows the largest index |
| `DeltaIndices.BeyondIntIsUndefined` | qlappcom/aigptbot.cpp:724-735 | a frame that names fragment 4294967296, which is no int |
| `DeepseekSse.DsAgg.ResolveIdx` | qlappcom/aigptbot.cpp:724-735 | the index a key names, and the largest index raised to it; fails exactly when the number is no int |
| `DeepseekSse.DsAgg.SeedFragments` | qlappcom/aigptbot.cpp:737-752 | status and fragments of a snapshot; fails exactly when there are more fragments than an int counts |
| `DeepseekSse.DsAgg.AppendActive` | qlappcom/aigptbot.cpp:755-762 | the last fragment extended, or the first one made; by how much, over runs, is in `DeltaTexts` |
| `DeepseekSse.DsAgg.ApplyOp` | qlappcom/aigptbot.cpp:765-895 | an operation applied to the fields, recursion on the nested values included; fails exactly when an index goes beyond int; what APPEND and SET leave is in `DeltaTexts` |
| `DeepseekSse.DsAgg.TakeFrame` | qlappcom/aigptbot.cpp:929-981 | errors, path and operator in force, value; fails exactly when an index goes beyond int |
| `DeepseekSse.EventNeverNamed` | qlappcom/aigptbot.cpp:917-920 | the comparison holds of the line "event:" alone |
| `DeepseekSse.LinesAreDataFrames` | qlappcom/aigptbot.cpp:906-983 | reading throws exactly when a line is "event:", and otherwise yields what the data lines alone yield |
| `DeepseekSse.BareEventThrows` | qlappcom/aigptbot.cpp:917-920 | a body that throws |
| `EventNames.NamesMatterExactly` | qlappcom/aigptbot.cpp:917-993 | for every body, not seeing event names changes the report if and only if a line is "event:" or what the frames add by name and content (last error, full conversation, last identifier) is not what they add by content alone |
| `EventNames.HintIsLost` | qlappcom/aigptbot.cpp:917-941 | a hint of an error after which the answer is reported as empty |
| `EventNames.NoIdentifier` | qlappcom/aigptbot.cpp:942-950 | whatever the body, no identifier of a message is found |
| `DeepseekSse.DsAgg.JoinSpoken` | qlappcom/aigptbot.cpp:998-1003 | no end exactly when the largest index is 2147483647; otherwise the texts up to it, and, in range, those of all fragments that are not thoughts, in order |
| `DeepseekSse.MeaningIsEveryText` | qlappcom/aigptbot.cpp:898-1010 | with unbounded indices, for every body the result is made of the texts of all its fragments that are not thoughts, in ascending order, and such an order exists |
| `DeepseekSse.LimitMetExactly` | qlappcom/aigptbot.cpp:898-1010 | for every body, 32-bit indices change the outcome if and only if the frames before a throw name or append beyond int, or lead to 2147483647 and the texts are to be joined |
| `DeepseekSse.LastFragmentHasNoEnd` | qlappcom/aigptbot.cpp:998-1003 | a body for which the joining loop has no end, where unbounded indices give a reply |
| `DeepseekSse.ParseDeepseekSse` | qlappcom/aigptbot.cpp:898-1010 | a throw, an int beyond its limit, or an error, an interruption, an empty answer or the trimmed text of all fragments that are not thoughts, in order, with the identifier of the next message's parent and whether the conversation is full; `DeltaBodies.SentAnswerIsParsed` says what that is for an answer as it is sent |
| `PromptTransport.PercentRoundTrip` | qlappcom/aigptbot.cpp:584-600 | every byte string comes back from its percent-encoding, which has no separator of a form in it |
| `PromptTransport.UrlEncode` | qlappcom/aigptbot.cpp:584-600 | that encoding |
| `PromptTransport.ReadOfEscaped` | qlappcom/aigptbot.cpp:315-338 | every string comes back from its escaped form, whatever follows the closing quotation mark |
| `PromptTransport.JsonEscape` | qlappcom/aigptbot.cpp:315-338 | that escaped form |
| `PromptTransport.GemInnerJson` | qlappcom/aigptbot.cpp:1287-1318 | the array of 81 slots, printed |
| `PromptTransport.ReadOfPrinted` | qlappcom/aigptbot.cpp:1287-1318 | printed nested arrays are read back |
| `PromptTransport.PromptArrives` | qlappcom/aigptbot.cpp:1597-1609 | from the form to the string in slot 0 of 81, the prompt arrives byte for byte, and so do the other 80 slots and the token in the other field |
| `PromptTransport.BuildForm` | qlappcom/aigptbot.cpp:1605-1609 | the body that is built carries the prompt, all other slots and the token |
| `PromptTransport.SlotsAreThose` | qlappcom/aigptbot.cpp:1287-1318 | what each of the 81 slots holds, by its number |
| `PromptTransport.StandardEscapes` | qlappcom/aigptbot.cpp:315-338 | the reader's escapes are those of section 7 of RFC 8259 |
| `PromptTransport.UnreservedAre` | qlappcom/aigptbot.cpp:584-600 | what is not escaped is what section 2.3 of RFC 3986 leaves alone |

## Left out

- HttpDate.UnixSeconds: starts from the fields that `sscanf` leaves; integers are unbounded, so years beyond the range of `int` are not covered by the 32-bit arithmetic of the source.
- CacheDb.CacheDb.Remove: its one statement is taken to succeed; one that fails leaves the row.
- CacheDb.CacheDb.Evict: rows and references are chosen from one snapshot, as the statements are written; deleting references while stepping through the query is not modelled.
- CacheLaws.RunAgrees: paths of files are taken to be distinct for distinct keys; of the content hash nothing is assumed but what the lemma states.
- EventPoller.EventPoller.PromoteDelayed: one clock reading serves a whole admission.
- EventPoller.EventPoller.CallDone: the lock is not part of the class; modules PumpLocks and BotLocks say which runs it stops.
- BotLocks.RunHaltsExactly: callbacks under the lock of an admission are judged one after the other; those called without it are steps of their own, as in module EndToEnd.
- PumpSpec.FinishSize: what callbacks ask for is a finite tree by the shape of a request; the program sets no bound, and a callback that always asks for a request that fails at once would keep a loop of the pump going.
- EventPoller.EventPoller.DispatchMessages: a message for a handle that is no longer attached does not arrive, as libcurl promises.
- EndToEnd.CarriedExactlyOnce: a bot's callbacks are steps of their own after the pump step that called them, bot by bot in order; sessions that a shutdown leaves in flight stay live; the lock is in module BotLocks.
- Aigptbot.AigptSession.OnWebDone: whether a body holds the token, the fields or the reply that a step looks for, and whether a proof of work is found, are answers of the environment, and so is whether a stored conversation may be continued.
- GeminiFrames.SplitFrames: the number before a frame is unbounded, `atoll` is not; reading a frame's JSON is not modelled.
- DeepseekSse.ParseDeepseekSse: reading and printing JSON is left to the environment; the identifier of a message is kept as its text, and counters for the log are dropped. What the program does once an int goes beyond its limit is undefined and not modelled.
- PromptTransport.ReadOfPrinted: the reader takes no white space, booleans or objects and no escapes of characters beyond ASCII, none of which the program prints.
- The wording of messages, and the log.
- libcurl, sockets, TLS, proxies, the Android certificate bundle and JNI: environment.
- Threads and locks: steps are atomic.
- The CS64 digest, the grok challenge, proofs of work, random numbers and identifiers: no independent definition to hold them to.
- Removing placeholder links from Gemini's text: the loop does not backtrack, so it is not the regular expression it quotes.
- .NET ticks in floating point, cJSON, MD5 and SQLite themselves.
- channel_db, message_db and pending_db store and fetch rows, one SQL statement to a function; aigpt_sessions keeps records in a JSON file; seen_unknown asks two Bloom filters of other libraries; netproxy checks a proxy's address and hands it to libcurl; linkpreview reads titles and pictures out of pages.
- The Qt user interface, recording and sound.
