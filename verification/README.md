# Verified core of an embedded operating system

This project models three parts of the system in Dafny and proves what they are for.

* **Hashes, checksums and codecs.** SHA-256, SHA-384 and SHA-512 with the in-place
  sixteen-word message schedule, MD5, HMAC-MD5, four different CRC algorithms over one
  polynomial, and base64. The fast forms are proved equal to the texts of FIPS 180-4,
  RFC 1321, RFC 2104, RFC 1662 and RFC 4648 for every message and every way to cut it
  into pieces.
* **The virtual file system and the event device.** The doubly linked list on the heap,
  the event queue with its urgent lane and its cache of spent buffers, the poll protocol
  between one poller and any number of writers, and the file table with its
  reference-counted inodes.
* **The event loop.** The sorted timer list with callbacks that post and cancel timers,
  the reader table, and the way of an event from posting to the filters.

Code that updates objects in place is a class (`Sha2Stream.Context`, `Md5Stream.Context`,
`EventDevice.Device`, `YLoop.Loop`, `Readers.Table`, `VfsTable.Tables`,
`EventFilters.FilterList`, `LocalService.Service`), proved against functions on values; what holds over whole
runs is proved about those functions.

| files | what they hold |
|---|---|
| `Common` | options, integer widths, words in memory |
| `BlockStream`, `Chunks`, `Memory` | folding over blocks, padding, byte order, memcpy and memset |
| `Sha2Spec`, `Sha2Transform`, `Sha2Words`, `Sha2Counter`, `Sha2Stream` | SHA-2 |
| `Sha2Bits`, `Sha2Roots`, `Primes`, `Sha2Vectors` | what its functions and constants are: by bits, as roots of primes, and on published digests |
| `Md5Spec`, `Md5Transform`, `Md5Stream`, `Hmac` | MD5 and HMAC-MD5 |
| `Md5Vectors`, `HmacVectors` | the functions of MD5 by their bits, and published values |
| `CrcRegister`, `CrcWords`, `CrcSpec`, `CrcCode` | CRC theory on bit strings, its word form, and the four programs |
| `Base64`, `Base64Bits` | base64, and its alphabet and bits |
| `DList`, `EventDevice`, `PollProtocol` | list, event device, poll |
| `VfsSpec`, `VfsTable` | file table and inodes |
| `Timers`, `YLoop`, `Readers`, `LocalEvents`, `EventFilters`, `LocalService` | event loop |

The word size of SHA-2 is a parameter: the source writes the same program twice, for 32-bit
and for 64-bit words, and both are instances of one generic context.

## Where the code does not do what one might expect

* `inode_avail_count` counts only the free nodes at the front of the table; `AvailCountExact`
  says exactly when that is the number of free nodes.
* Polling one fd in two pollfds loses events of the earlier one: `NoneMissedIffDistinct`.
  Closing and opening a polled fd again during the poll loses its later events:
  `ResultIsExact` says exactly what is shown, `ReopenedIsMissed` that it happens.
* A negative delay can make timers fire out of deadline order: `NegativeDelayOvertakes`.
* Cancelling a reader while a poll result is dispatched makes later slots call another
  reader, and a cancelled last reader is called all the same: `CancelShiftsCalls` says what
  is called, `CancelMovesSlots` exactly where it is the right one.
* A filter on an event type with the urgent bit, or on EV_RPC, never runs: `FilterCanRun`
  says exactly which filters can.
* Event lengths from 2^27 on do not survive the ioctl command word: `CommandRoundTrip`.
* The reference counts fit their uint8_t only with fewer than 256 file slots: `CountsFit`.
* `aos_close` ignores the error of the driver's close although its header says that errors
  are returned (`VfsTable.Tables.Close`), `aos_poll` returns 0 when an fd is not open
  (`ResultIsExact`), and `aos_post_event` returns the length written
  (`LocalService.Service.PostEvent`). The model follows the code.
* base64 decoding accepts characters outside the alphabet as zeros, so encoding the decoded
  text gives it back exactly when the text is canonical: `EncodeOfDecode`.

## Model

| member | source | states |
|---|---|---|
| `Sha2Transform.Transform` | utility/digest_algorithm/sha2.c:327-401 | For every state and block the in-place sixteen-word rolling window gives the compression with the fully expanded schedule of FIPS 180-4, also when the block read is the context's own buffer |
| `Sha2Transform.Mix` | utility/digest_algorithm/sha2.c:528-598 | After all rounds the working variables are those of the specification, with the window holding the last sixteen schedule words at every turn |
| `Sha2Transform.Expand` | utility/digest_algorithm/sha2.c:366-376 | One step turns slot j mod 16 from W(j-16) into W(j) and moves the window on |
| `Sha2Transform.Fetch` | utility/digest_algorithm/sha2.c:345-364 | The first sixteen words are swapped into the buffer while it may itself be the source; words not yet read stay unread |
| `Sha2Transform.StoreWord` | utility/digest_algorithm/sha2.c:375-375 | Storing a word changes that word of the byte buffer and no other |
| `Sha2Words.Machine256IsLawful` | utility/digest_algorithm/sha2.c:258-297 | On a little-endian host swap after load reads a big-endian 32-bit word, and load undoes store |
| `Sha2Words.Machine256OutputIsLawful` | utility/digest_algorithm/sha2.c:290-297 | Swapped and stored, a 32-bit word lies big-endian in memory |
| `Sha2Words.Machine512IsLawful` | utility/digest_algorithm/sha2.c:273-313 | The same for 64-bit words and reverse_64bit |
| `Sha2Words.Machine512OutputIsLawful` | utility/digest_algorithm/sha2.c:300-307 | The same for storing 64-bit words |
| `Sha2Counter.AddBitsAdds` | utility/digest_algorithm/sha2.c:95-100 | ADDINC128 adds modulo 2^128: it carries exactly when the low word wraps; the one-word counter adds modulo 2^64 |
| `Sha2Counter.CountBytes` | utility/digest_algorithm/sha2.c:426-449 | Counting k more bytes keeps the counter equal to eight times the length modulo its size |
| `Sha2Counter.FillFromCount` | utility/digest_algorithm/sha2.c:418-418 | The low counter word alone gives the fill of the partial block, for messages of any length |
| `Sha2Counter.FieldOfCount` | utility/digest_algorithm/sha2.c:656-690 | The swapped counter words, high word first, lie in memory as the big-endian length field of FIPS 180-4 |
| `Sha2Stream.Context.Init` | utility/digest_algorithm/sha2.c:316-325 | A new context has absorbed nothing |
| `Sha2Stream.Context.Update` | utility/digest_algorithm/sha2.c:404-453 | Any chunk, null and empty ones included, is appended to the message; state and buffer stay the hash of the whole blocks and the rest |
| `Sha2Stream.Context.Complete` | utility/digest_algorithm/sha2.c:423-429 | The bytes that complete the partial block are copied behind it and hashed where they lie |
| `Sha2Stream.Context.AbsorbFrom` | utility/digest_algorithm/sha2.c:439-450 | Whole blocks are hashed from the caller's memory, the rest is kept |
| `Sha2Stream.Context.Spill` | utility/digest_algorithm/sha2.c:669-678 | When the length no longer fits, the zero-filled block is hashed and the next starts empty |
| `Sha2Stream.Context.Last` | utility/digest_algorithm/sha2.c:652-694 | The state becomes the fold of the compression over the message padded as in section 5.1 of FIPS 180-4 |
| `Sha2Stream.Context.WriteDigest` | utility/digest_algorithm/sha2.c:709-717 | The leading words are written out big-endian, eight of them or six |
| `Sha2Stream.Context.Final` | utility/digest_algorithm/sha2.c:455-514 | The output is the digest of everything absorbed; SHA-256 and SHA-512 contexts are zeroed |
| `Sha2Stream.HashChunks` | utility/digest_algorithm/sha2.c:404-514 | For every list of chunks the digest is that of the joined message, so it does not depend on the cut |
| `Sha2Stream.SHA256Supported` | utility/digest_algorithm/sha2.c:168-177 | SHA-256 is an instance of all of this: its word size, round count and byte order meet what the streaming context asks for |
| `Sha2Stream.SHA512Supported` | utility/digest_algorithm/sha2.c:236-244 | So is SHA-512, with 64-bit words, 80 rounds and a 16-byte length |
| `Sha2Stream.SHA384Supported` | utility/digest_algorithm/sha2.c:726-764 | So is SHA-384: its own initial value and the first six words of the state |
| `Sha2Bits.Fields256` | utility/digest_algorithm/sha2.c:327-401 | The functions that the SHA-256 transform uses in each place are those of the following rows |
| `Sha2Bits.Fields512` | utility/digest_algorithm/sha2.c:528-598 | The same for SHA-512 and SHA-384 |
| `Sha2Bits.Ch32Chooses` | utility/digest_algorithm/sha2.c:122-122 | Ch takes the bits of y where x is set and of z elsewhere, on 32-bit words |
| `Sha2Bits.Maj32IsMajority` | utility/digest_algorithm/sha2.c:123-123 | Maj is what x and y are where they agree, and z elsewhere, on 32-bit words |
| `Sha2Bits.Ch64Chooses` | utility/digest_algorithm/sha2.c:122-122 | Ch takes the bits of y where x is set and of z elsewhere, on 64-bit words |
| `Sha2Bits.Maj64IsMajority` | utility/digest_algorithm/sha2.c:123-123 | Maj is what x and y are where they agree, and z elsewhere, on 64-bit words |
| `Sha2Bits.BigSigma0Bits256` | utility/digest_algorithm/sha2.c:126-126 | Each bit is the sum of the bits 2, 13 and 22 places up, round the end |
| `Sha2Bits.BigSigma1Bits256` | utility/digest_algorithm/sha2.c:127-127 | Each bit is the sum of the bits 6, 11 and 25 places up, round the end |
| `Sha2Bits.Sigma0Bits256` | utility/digest_algorithm/sha2.c:128-128 | Each bit is the sum of the bits 7 and 18 places up, round the end, and 3 places up if there is one |
| `Sha2Bits.Sigma1Bits256` | utility/digest_algorithm/sha2.c:129-129 | Each bit is the sum of the bits 17 and 19 places up, round the end, and 10 places up if there is one |
| `Sha2Bits.BigSigma0Bits512` | utility/digest_algorithm/sha2.c:132-132 | Each bit is the sum of the bits 28, 34 and 39 places up, round the end |
| `Sha2Bits.BigSigma1Bits512` | utility/digest_algorithm/sha2.c:133-133 | Each bit is the sum of the bits 14, 18 and 41 places up, round the end |
| `Sha2Bits.Sigma0Bits512` | utility/digest_algorithm/sha2.c:134-134 | Each bit is the sum of the bits 1 and 8 places up, round the end, and 7 places up if there is one |
| `Sha2Bits.Sigma1Bits512` | utility/digest_algorithm/sha2.c:135-135 | Each bit is the sum of the bits 19 and 61 places up, round the end, and 6 places up if there is one |
| `Primes.PrimesInOrder` | utility/digest_algorithm/sha2.c:147-221 | The eighty numbers whose roots the constants are taken from are the primes from 2 on, none left out |
| `Sha2Roots.ConstantsAreRoots256` | utility/digest_algorithm/sha2.c:148-165 | Each of the 64 constants is the first 32 bits of the fractional part of the cube root of its prime, by cubes of integers |
| `Sha2Roots.ConstantsAreRoots512` | utility/digest_algorithm/sha2.c:180-221 | Each of the 80 constants is the first 64 bits of that |
| `Sha2Roots.InitialIsRoots256` | utility/digest_algorithm/sha2.c:168-177 | The initial value of SHA-256 is the first 32 bits of the fractional parts of the square roots of the first eight primes |
| `Sha2Roots.InitialIsRoots512` | utility/digest_algorithm/sha2.c:236-245 | That of SHA-512 is the first 64 bits of them |
| `Sha2Roots.InitialIsRoots384` | utility/digest_algorithm/sha2.c:224-233 | That of SHA-384 takes the ninth to the sixteenth prime |
| `Sha2Vectors.DigestSHA256OfAbc` | utility/digest_algorithm/sha2.c:316-514 | The digest of "abc" is the one that FIPS 180-4 publishes, through padding, schedule, all 64 rounds and output |
| `Sha2Vectors.DigestSHA512OfAbc` | utility/digest_algorithm/sha2.c:528-717 | The published SHA-512 digest of "abc", through all 80 rounds |
| `Sha2Vectors.DigestSHA384OfAbc` | utility/digest_algorithm/sha2.c:726-764 | The published SHA-384 digest of "abc" |
| `BlockStream.BlocksAppend` | utility/digest_algorithm/sha2.c:404-453 | Only the state and the partial block matter for what comes after |
| `BlockStream.LastBlock` | utility/digest_algorithm/sha2.c:466-499 | The one-block and the two-block ending both complete the padded message |
| `BlockStream.PaddedIsWhole` | utility/digest_algorithm/sha2.c:466-499 | A padded message is whole blocks |
| `BlockStream.PaddingIsLeast` | utility/digest_algorithm/sha2.c:466-499 | No smaller number of zero bytes would do |
| `Md5Transform.Transform` | utility/digest_algorithm/md5.c:189-271 | The sixty-four operations written out on four registers equal the table-driven definition of section 3.4 of RFC 1321 with rotating registers |
| `Md5Transform.Round1` | utility/digest_algorithm/md5.c:195-211 | The first sixteen operations, word order, rotations and constants included |
| `Md5Transform.Round2` | utility/digest_algorithm/md5.c:213-229 | The second sixteen |
| `Md5Transform.Round3` | utility/digest_algorithm/md5.c:231-247 | The third sixteen |
| `Md5Transform.Round4` | utility/digest_algorithm/md5.c:249-265 | The last sixteen |
| `Md5Transform.MixIsOp` | utility/digest_algorithm/md5.c:88-107 | The macros add in another order than the RFC, with the same result |
| `Md5Transform.Decode` | utility/digest_algorithm/md5.c:293-301 | A block is read as sixteen little-endian words |
| `Md5Transform.Encode` | utility/digest_algorithm/md5.c:277-287 | Words are written little-endian, nothing behind them changes |
| `Md5Transform.WordsOfBytes` | utility/digest_algorithm/md5.c:277-301 | Decode undoes Encode for every number of words |
| `Md5Stream.AddLengthAdds` | utility/digest_algorithm/md5.c:136-140 | The two 32-bit words with the carry and the high bits of the length add modulo 2^64 |
| `Md5Stream.FillFromCount` | utility/digest_algorithm/md5.c:133-134 | The low word alone gives the fill of the buffer |
| `Md5Stream.FieldOfCount` | utility/digest_algorithm/md5.c:170-171 | The two words written out are the little-endian bit count |
| `Md5Stream.PaddingFits` | utility/digest_algorithm/md5.c:173-180 | The bytes of PADDING taken, then the length, are exactly the padding of the RFC and end on a block |
| `Md5Stream.Context.Init` | utility/digest_algorithm/md5.c:112-122 | A new context has absorbed nothing |
| `Md5Stream.Context.Update` | utility/digest_algorithm/md5.c:127-160 | Any chunk is appended to the message absorbed |
| `Md5Stream.Context.Final` | utility/digest_algorithm/md5.c:165-184 | The digest of RFC 1321 of everything absorbed, in sixteen bytes and no more |
| `Md5Stream.HashChunks` | utility/digest_algorithm/md5.c:127-184 | For every list of chunks the digest is that of the joined message |
| `Md5Vectors.FChooses` | utility/digest_algorithm/md5.c:78-78 | F takes the bits of y where x is set and of z elsewhere |
| `Md5Vectors.GChooses` | utility/digest_algorithm/md5.c:79-79 | G takes the bits of x where z is set and of y elsewhere |
| `Md5Vectors.HIsParity` | utility/digest_algorithm/md5.c:80-80 | H is z where x and y agree and its complement elsewhere |
| `Md5Vectors.IComplements` | utility/digest_algorithm/md5.c:81-81 | I is the complement of y where x is set or z is not, and y elsewhere |
| `Md5Vectors.InitialBytes` | utility/digest_algorithm/md5.c:118-121 | The initial buffer holds the bytes that section 3.3 of RFC 1321 lists |
| `Md5Vectors.DigestOfAbc` | utility/digest_algorithm/md5.c:112-271 | The digest of "abc" is the one of section A.5 of RFC 1321, through padding and all 64 operations |
| `Hmac.DigestHmacMd5` | utility/digest_algorithm/hmac.c:8-47 | The construction of section 2 of RFC 2104 for every key and message, with the digest buffer as input and output of the outer hash, even when it is the key's or the message's own memory |
| `Hmac.ShortKey` | utility/digest_algorithm/hmac.c:17-24 | A key longer than 64 bytes is replaced by its digest |
| `Hmac.KeyPad` | utility/digest_algorithm/hmac.c:26-34 | The zero-extended key XORed with the pad |
| `HmacVectors.HmacOfHiThere` | utility/digest_algorithm/hmac.c:8-47 | The code of the first test case in section 2 of RFC 2202, which fixes both pads and the order of the two passes |
| `CrcRegister.RemainderIsDirect` | utility/digest_algorithm/CheckSumUtils.c:51-90 | Over any polynomial, dividing the message with as many zeros as the degree appended is the direct register from the seed clocked that often |
| `CrcRegister.DirectIsAhead` | utility/digest_algorithm/CheckSumUtils.c:51-67 | The direct register is the dividing one, degree clocks ahead, after every prefix |
| `CrcRegister.BurstDetected` | app/GUI/Kids_A20/crc16.c:40-56 | Two bit strings that differ only inside a window as long as the register end in different registers |
| `CrcRegister.GeneratorUndetected` | app/GUI/Kids_A20/crc16.c:40-56 | The bound is sharp: a burst one bit longer, the generator itself, is never seen |
| `CrcRegister.ShiftIsInjective` | app/GUI/Kids_A20/crc16.c:48-52 | With a constant term in the polynomial the shift step loses nothing |
| `CrcRegister.FeedWord` | app/GUI/Kids_A20/crc16.c:46-53 | XORing a whole byte in and then clocking is feeding its bits one by one |
| `CrcSpec.BurstChangesCrc` | app/GUI/Kids_A20/crc16.c:40-61 | Equal-length messages that differ, but only inside sixteen consecutive bits, have different CRCs |
| `CrcSpec.CrcAppend` | app/GUI/Kids_A20/crc16.c:40-56 | A CRC may be continued from the value reached |
| `CrcSpec.CrcOfCodeword` | app/GUI/Kids_A20/crc16.c:40-61 | A message followed by its CRC has CRC zero |
| `Crc16C.Reverse8` | app/GUI/Kids_A20/crc16.c:29-38 | The loop turns the bit order round |
| `Crc16C.Reverse16` | app/GUI/Kids_A20/crc16.c:14-23 | The same for sixteen bits |
| `Crc16C.FeedByte` | app/GUI/Kids_A20/crc16.c:46-53 | One byte feeds its eight bits to the register |
| `Crc16C.Crc16Common` | app/GUI/Kids_A20/crc16.c:40-56 | For every message, order functions, seed and polynomial: the register fed with the mapped message bits, a negative count meaning none |
| `Crc16C.Ccitt` | app/GUI/Kids_A20/crc16.c:59-61 | The CRC with seed 0xffff |
| `Crc16C.Xmodem` | app/GUI/Kids_A20/crc16.c:63-65 | The CRC with seed 0 |
| `Crc16C.Kermit` | app/GUI/Kids_A20/crc16.c:67-70 | The reflected CRC with its two bytes exchanged |
| `Crc16C.X25` | app/GUI/Kids_A20/crc16.c:72-76 | The complement of the reflected CRC with seed 0xffff |
| `Crc16C.Ccitt1d0f` | app/GUI/Kids_A20/crc16.c:78-80 | The CRC with seed 0x1d0f |
| `Crc16C.Ibm` | app/GUI/Kids_A20/crc16.c:82-84 | The reflected CRC with polynomial 0x8005 |
| `CrcC.UtilsCrc16` | utility/digest_algorithm/crc.c:15-31 | For any number of bits below 2^31 the bit-serial program is the register fed with that many message bits |
| `CrcC.SerialIsBytewise` | utility/digest_algorithm/crc.c:15-31 | The register after all bits of whole bytes is crc16ccitt |
| `CrcC.UtilsCrc16OfBytes` | utility/digest_algorithm/crc.c:15-31 | utils_crc16 on 8n bits is crc16ccitt of the n bytes |
| `CheckSumUtils.UpdateCrc16` | utility/digest_algorithm/CheckSumUtils.c:51-67 | The marker-bit loop divides by the eight bits of the byte, shifting them in at the low end |
| `CheckSumUtils.DivisionIsCrc` | utility/digest_algorithm/CheckSumUtils.c:85-90 | With the two zero bytes the division is crc16ccitt_xmodem of the message |
| `CheckSumUtils.Crc16Context.Update` | utility/digest_algorithm/CheckSumUtils.c:75-82 | Any chunk continues the division |
| `CheckSumUtils.Crc16Context.Final` | utility/digest_algorithm/CheckSumUtils.c:85-90 | The direct CRC with seed 0 of everything absorbed |
| `CheckSumUtils.Crc16OfChunks` | utility/digest_algorithm/CheckSumUtils.c:69-90 | For every cut of a message, Init, Update and Final give its crc16ccitt_xmodem |
| `CheckSumUtils.DivisionFromFfff` | app/GUI/Kids_A20/crc16.c:78-80 | The seed 0x1d0f is the augmented form of the seed 0xffff |
| `CheckSumUtils.ReflectedIsLowFirst` | app/GUI/Kids_A20/crc16.c:40-84 | For every seed, polynomial and message the bit-reversing instances are LSB-first registers |
| `CheckSumUtils.UpdateCrc8` | utility/digest_algorithm/CheckSumUtils.c:8-23 | With 0x8C, one byte feeds its bits, low one first, to the register of polynomial 0x31 |
| `CheckSumUtils.Crc8Context.Final` | utility/digest_algorithm/CheckSumUtils.c:42-46 | The result is the reverse_8 image of the MSB-first CRC-8 with polynomial 0x31 of the mirrored bytes |
| `CheckSumUtils.Crc8OfChunks` | utility/digest_algorithm/CheckSumUtils.c:26-46 | For every cut of a message |
| `Rfc1662.FcsByteFeeds` | app/GUI/Kids_A20/crc16.c:72-76 | The table step of Appendix C of RFC 1662 is eight clocks of the LSB-first register |
| `Rfc1662.X25IsFcs` | app/GUI/Kids_A20/crc16.c:72-76 | crc16x25 is the complement of the table-driven frame check sequence, for every message |
| `Rfc1662.GoodFcs` | app/GUI/Kids_A20/crc16.c:72-76 | A frame with its check sequence appended leaves the good value 0xf0b8 |
| `Base64.DecodeOfEncode` | utility/base64/base64.c:41-119 | Decoding an encoding gives every non-empty byte string back, at its exact length |
| `Base64.EncodeOfDecode` | utility/base64/base64.c:41-119 | For every text of whole groups, encoding its decoding gives it back if and only if it is canonical |
| `Base64.PaddingOverwrites` | utility/base64/base64.c:55-70 | Writing '=' over the zero-extended groups gives the encoding of section 4 of RFC 4648 |
| `Base64.EncodeInto` | utility/base64/base64.c:41-73 | The buffer holds the encoding, its length is exact, nothing behind it changes |
| `Base64.DecodeInto` | utility/base64/base64.c:75-119 | The buffer holds the decoding, its length is exact, nothing behind it changes |
| `Base64.SymbolOfIndex` | utility/base64/base64.c:9-37 | A byte is the symbol of its index exactly when it is in the alphabet |
| `Base64Bits.Alphabet1` | utility/base64/base64.c:10-11 | The first sixteen symbols are A to P |
| `Base64Bits.Alphabet2` | utility/base64/base64.c:12-13 | The next are Q to Z and a to f |
| `Base64Bits.Alphabet3` | utility/base64/base64.c:14-15 | The next are g to v |
| `Base64Bits.Alphabet4` | utility/base64/base64.c:16-17 | The last are w to z, the digits, plus and slash |
| `Base64Bits.OutsideIsZero` | utility/base64/base64.c:20-37 | Every byte of the alphabet is decoded to the index of its symbol, every other byte to zero |
| `Base64Bits.EncodeBits` | utility/base64/base64.c:41-73 | For every byte string, six bits for each symbol of its encoding are the bits of the string, most significant first, and the zeros that fill the last symbol |
| `Base64Bits.DecodeBits` | utility/base64/base64.c:75-119 | For every text of whole groups, canonical or not: the length is three octets a group less one for each of the last two characters that is a pad, and the bits of the octets are the first ones of the text, six a character |
| `DList.InsertBetween` | include/aos/list.h:36-43 | Linking a node between two neighbours of a ring gives the ring with it inserted there |
| `DList.Add` | include/aos/list.h:56-59 | dlist_add inserts right behind the head |
| `DList.AddTail` | include/aos/list.h:61-64 | dlist_add_tail inserts before a node, before the head meaning at the end |
| `DList.Del` | include/aos/list.h:66-73 | dlist_del takes exactly that node out of the ring |
| `DList.Empty` | include/aos/list.h:86-89 | Empty exactly when the ring is the head alone |
| `DList.Forward` | include/aos/list.h:114-115 | Forward iteration ends and visits the list in order |
| `DList.Backward` | include/aos/list.h:174-177 | Backward iteration ends and visits it in the opposite order |
| `DList.EntryNumber` | include/aos/list.h:185-190 | The number of entries |
| `DList.List.AddFirst` | include/aos/list.h:56-59 | The node sequence of a list in use changes by that node in front |
| `DList.List.AddLast` | include/aos/list.h:61-64 | by that node at the end |
| `DList.List.AddBefore` | include/aos/list.h:61-64 | by that node before position k |
| `DList.List.Remove` | include/aos/list.h:66-73 | by node k taken out |
| `EventDevice.Device.constructor` | kernel/vfs/device.c:34-43 | A new device is empty and has issued no buffer |
| `EventDevice.Device.Obtain` | kernel/vfs/device.c:73-86 | The first cached buffer is taken exactly when its length matches, else a new one is issued; null exactly when it does not match and the allocator gives none |
| `EventDevice.Device.Enqueue` | kernel/vfs/device.c:88-96 | A normal event goes behind, an urgent one in front; the buffer leaves the hand |
| `EventDevice.Device.Write` | kernel/vfs/device.c:67-105 | The device is a deque of byte strings; on success the installed pollfd gets POLLIN and one signal, on failure nothing changes |
| `EventDevice.Device.Read` | kernel/vfs/device.c:127-155 | The first event, cut to the caller's room, whatever buffers were recycled before |
| `EventDevice.Device.Retire` | kernel/vfs/device.c:143-148 | A read buffer goes to the front of the cache exactly while fewer than four are there, else it is freed, once |
| `EventDevice.Device.Poll` | kernel/vfs/device.c:157-181 | Set-up signals at once when an event waits; tear-down removes the callback |
| `EventDevice.Device.Close` | kernel/vfs/device.c:45-65 | Every buffer ever issued has been freed, none twice |
| `PollProtocol.StepKeeps` | kernel/vfs/vfs.c:873-980 | Every step of the poller, a writer, a reader, an opener or a closer keeps the protocol's invariant |
| `PollProtocol.RunKeeps` | kernel/vfs/vfs.c:873-980 | So does every interleaving of such steps |
| `PollProtocol.NoLostWakeup` | kernel/vfs/device.c:88-105 | In every interleaving, an event on a polled device while the poller waits has set POLLIN and signalled the semaphore, so the wait ends, unless that fd itself was closed and opened again while set up |
| `PollProtocol.PendingShows` | kernel/vfs/device.c:157-181 | With the same exception for that fd, between set-up and tear-down an event waiting on the device has set POLLIN; polls that fail on an fd that is not open are included |
| `PollProtocol.ReturnsOnlyForEvents` | kernel/vfs/vfs.c:726-731 | In every interleaving, a poll that neither fails nor is timed out returns only after an event was seen on one of its fds: it does not end early |
| `PollProtocol.FailsIffNotOpen` | kernel/vfs/vfs.c:873-906 | When nobody opens or closes meanwhile, a poll fails if and only if one of its own fds is not open |
| `PollProtocol.ForeignIsReady` | kernel/vfs/vfs.c:960-969 | Pollfds that are not of VFS are marked ready exactly when the poll does not fail |
| `PollProtocol.NothingLeftBehind` | kernel/vfs/vfs.c:908-980 | After aos_poll returns no device holds a callback, whatever was opened and closed meanwhile |
| `PollProtocol.ResultIsExact` | kernel/vfs/vfs.c:908-980 | After the return, in every run: POLLIN is set if and only if at some point of the run an event waited while the pollfd was set up and its fd had not been opened again since. The result is the number of such pollfds less those that post_poll found closed (none, if no fd was closed), or 0 when an fd was not open |
| `PollProtocol.ShowsWhatWasSeen` | kernel/vfs/device.c:98-101 | From every state of a poll: POLLIN at the end if and only if it was set before or such an event came on the way |
| `PollProtocol.ReopenedIsMissed` | kernel/vfs/vfs.c:908-937 | The condition on the fd is needed: for every fd of every poll there is a run in which it is closed and opened again, an event then waits on it, and the poll returns 0 without POLLIN |
| `PollProtocol.ComesToWait` | kernel/vfs/vfs.c:873-906 | Undisturbed, pre_poll ends with every pollfd set up and nothing shown |
| `PollProtocol.TwiceTheSameFd` | kernel/vfs/vfs.c:873-906 | With one fd in two pollfds, from every start, there is a run in which the earlier pollfd misses an event |
| `PollProtocol.NoneMissedIffDistinct` | kernel/vfs/vfs.c:873-906 | Over every interleaving of every poll: no waiting event is missed if and only if the fds of VFS are distinct |
| `VfsSpec.StepKeeps` | kernel/vfs/vfs.c:166-257 | Every call keeps: refs equal the file slots on the inode, and open slots refer to registered inodes |
| `VfsSpec.RunKeeps` | kernel/vfs/vfs.c:166-257 | So does every sequence of calls |
| `VfsSpec.ReachableTables` | kernel/vfs/vfs_inode.c:35-103 | For any table sizes, in every reachable table an open fd is on a registered inode whose count is the number of its fds, positive, and at most the number of slots |
| `VfsSpec.CountsFit` | kernel/vfs/vfs_inode.c:93-96 | The counts fit their uint8_t over every run if and only if there are fewer than 256 file slots |
| `VfsSpec.OpenGivesNewFd` | kernel/vfs/vfs.c:137-219 | A new fd was held by nobody and is on the first inode that serves the path; a failed open leaves all slots |
| `VfsSpec.ServesIsBelow` | kernel/vfs/vfs_inode.c:55-80 | An inode serves a path if and only if the path is its name, or it is a file system and the path is its name, a slash and anything |
| `VfsSpec.OpenAnswers` | kernel/vfs/vfs.c:166-219 | For every path and every answer of the driver: which error comes back, in the order of the checks, and a new fd is on the first inode of which the path is the name or lies below its mount point, which takes the flags and one opening more while nothing else changes |
| `VfsSpec.CloseAnswers` | kernel/vfs/vfs.c:222-257 | close is refused exactly for an fd that is not open; else its slot is free, its inode has one opening less, and nothing else changes |
| `VfsSpec.CloseDirAnswers` | kernel/vfs/vfs.c:585-619 | closedir likewise, with the answer of the driver exactly when the inode is a file system |
| `VfsSpec.VisitAnswers` | kernel/vfs/vfs.c:652-695 | stat, unlink, rename and mkdir: ENODEV exactly when no inode has the path, ENOENT without a slot, and the driver is asked exactly when that inode is a file system |
| `VfsSpec.OpenDirAnswers` | kernel/vfs/vfs.c:534-583 | opendir gives a directory exactly when the path is on a file system that finds it, and its fd is on that inode |
| `VfsSpec.UnregisterAnswers` | kernel/vfs/vfs_inode.c:171-189 | Exactly the inode of the path is cleared, unless none has it or it is in use |
| `VfsSpec.RegisterAnswers` | kernel/vfs/vfs_inode.c:142-169 | Registering fails without a path starting with a slash, an unused inode or memory; else the first unused inode takes path and kind and no other changes |
| `VfsSpec.RegisterThenOpen` | kernel/vfs/vfs_inode.c:142-169 | A path that could not be opened can be once it is registered, and the fd is on the inode registered |
| `VfsSpec.OpenThenClose` | kernel/vfs/vfs.c:166-257 | Closing what was opened succeeds whatever the driver answers, and restores every slot and count |
| `VfsSpec.VisitKeeps` | kernel/vfs/vfs.c:396-439 | stat, unlink, rename and mkdir leave slots and counts as they were |
| `VfsSpec.OpenDirKeeps` | kernel/vfs/vfs.c:534-583 | opendir keeps the invariant, and a failed one leaves slots and counts |
| `VfsSpec.UnregisterBusy` | kernel/vfs/vfs_inode.c:171-189 | Unregistering is refused exactly while an fd is open on the inode |
| `VfsSpec.AvailCount` | kernel/vfs/vfs_inode.c:110-122 | The loop counts the free nodes at the front |
| `VfsSpec.AvailCountExact` | kernel/vfs/vfs_inode.c:110-122 | That is the number of free nodes exactly when no free node follows a used one |
| `VfsSpec.AvailCountAfterRegister` | kernel/vfs/vfs_inode.c:110-122 | After one registration it gives 0 while all nodes but one are free |
| `VfsTable.Tables.InodeOpen` | kernel/vfs/vfs_inode.c:55-80 | The scan finds the first inode that serves the path |
| `VfsTable.Tables.InodeAlloc` | kernel/vfs/vfs_inode.c:22-33 | The scan finds the first unused inode |
| `VfsTable.Tables.NewFile` | kernel/vfs/vfs.c:137-158 | The first free slot is taken and the inode referenced |
| `VfsTable.Tables.DelFile` | kernel/vfs/vfs.c:160-164 | The slot is given back and the reference dropped |
| `VfsTable.Tables.Open` | kernel/vfs/vfs.c:166-219 | On the arrays aos_open is the step of the specification |
| `VfsTable.Tables.Close` | kernel/vfs/vfs.c:222-257 | So is aos_close, which succeeds on every open fd, whatever the driver answers |
| `VfsTable.Tables.Visit` | kernel/vfs/vfs.c:652-695 | So are stat, unlink, rename and mkdir |
| `VfsTable.Tables.OpenDir` | kernel/vfs/vfs.c:534-583 | So is aos_opendir |
| `VfsTable.Tables.CloseDir` | kernel/vfs/vfs.c:585-619 | So is aos_closedir |
| `VfsTable.Tables.Register` | kernel/vfs/vfs_register.c:14-48 | So are the registrations |
| `VfsTable.Tables.Unregister` | kernel/vfs/vfs_register.c:50-67 | So are the removals |
| `Timers.TimersAreConserved` | kernel/yloop/yloop.c:185-325 | Over every run the timers posted are those pending, fired, cancelled and destroyed together, as a multiset of timers with their deadline, callback and argument |
| `Timers.EveryTimerOnce` | kernel/yloop/yloop.c:216-284 | From a new loop, each posted timer is in exactly one of the four, once, and nothing else is |
| `Timers.RunKeeps` | kernel/yloop/yloop.c:185-213 | Pending timers stay sorted by deadline, ties in posting order, and none fired before its deadline |
| `Timers.PostedIsAsked` | kernel/yloop/yloop.c:185-213 | Over every run the timers posted are those the actions asked for: each due at the clock of its post and its delay, the clock read from the actions alone |
| `Timers.NoneFiresEarly` | kernel/yloop/yloop.c:274-284 | Whatever fired was posted in the run with that callback and argument, and fired at a check whose clock was at least that of the post and the delay |
| `Timers.CancelsTheEarliest` | kernel/yloop/yloop.c:216-238 | A cancel takes out the earliest pending timer with that callback, argument and delay, any delay for -1, and changes nothing without one |
| `Timers.FiresTheEarliest` | kernel/yloop/yloop.c:274-284 | The timer fired is due and the earliest of all pending |
| `Timers.PollDelayFits` | kernel/yloop/yloop.c:247-260 | The wait fits an int, is never past the earliest deadline, and at its end that timer fires |
| `Timers.FiresInDeadlineOrder` | kernel/yloop/yloop.c:241-300 | Without negative delays a whole run fires in deadline order |
| `Timers.NegativeDelayOvertakes` | kernel/yloop/yloop.c:197-210 | Every negative delay can break that order |
| `YLoop.Loop.Post` | kernel/yloop/yloop.c:185-213 | On the linked list a post is the step of the specification, due at the present time and the delay; without callback or memory nothing changes |
| `YLoop.Loop.Cancel` | kernel/yloop/yloop.c:216-238 | A cancel is the step of the specification, and the node of the first match is freed |
| `YLoop.Loop.CheckFirst` | kernel/yloop/yloop.c:274-284 | The due timer is unlinked, then its callback posts, cancels and takes time as it likes, then it is freed: the history grows by the check and those actions |
| `YLoop.Loop.Destroy` | kernel/yloop/yloop.c:310-325 | Every timer left is unlinked and freed |
| `YLoop.Loop.RunsTransfer` | kernel/yloop/yloop.c:185-325 | A loop in use holds exactly the timers pending after its history, so all that is proved over runs holds of the list in the heap: order, deadlines, conservation; those posted are those its history asked for, each due at the clock of its post and its delay |
| `YLoop.Loop.Delay` | kernel/yloop/yloop.c:247-260 | The wait computed from the list is that of the specification |
| `Readers.Table.Add` | kernel/yloop/yloop.c:110-154 | Both arrays grow together, keep what they held, and the reader is the last |
| `Readers.Table.Cancel` | kernel/yloop/yloop.c:157-182 | The first reader of the socket goes, the others keep their order |
| `Readers.Table.Prepare` | kernel/yloop/yloop.c:262-265 | Each of the first n pollfds gets the socket of its reader |
| `Readers.Table.Dispatch` | kernel/yloop/yloop.c:290-296 | Over the n slots polled, with callbacks that only add readers, exactly the ready slots are called, in order, each with the reader of the socket polled there |
| `Readers.SelectedOwn` | kernel/yloop/yloop.c:290-296 | A slot is called if and only if it is among the first n and ready, and then with the reader and the socket of that slot |
| `Readers.SelectedInOrder` | kernel/yloop/yloop.c:290-296 | The slots called ascend, so none is called twice |
| `Readers.Table.Serve` | kernel/yloop/yloop.c:247-296 | A whole turn: the count is taken, the pollfds are set and polled, a timer callback may add readers, and then the readers called are those polled ready, each with the fd that was polled at its index |
| `Readers.Table.ServeAll` | kernel/yloop/yloop.c:245-297 | Over any number of turns whose callbacks only add readers, every callback called at an index belongs to the socket polled at that index, and readers keep their places |
| `Readers.Table.DispatchCancelling` | kernel/yloop/yloop.c:290-296 | With callbacks that cancel any readers, slot i calls whatever reader the earlier cancels have left in it |
| `Readers.CancelShiftsCalls` | kernel/yloop/yloop.c:157-182 | With n readers in arrays of any length, after one cancel of slot c from the callback of slot j, the whole rest of the dispatch: slots from c on call the next reader, the last slot its own again |
| `Readers.CancelMovesSlots` | kernel/yloop/yloop.c:171-181 | So slot i calls the reader polled there exactly when i is at most j, before c, or the last |
| `Readers.CancelledLastIsCalled` | kernel/yloop/yloop.c:157-182 | A ready last reader is called even after it was cancelled |
| `LocalEvents.PostedIsDeliveredPlusPending` | kernel/yloop/local_event.c:56-78 | Over every run, the events delivered and pending are, as a multiset with all their contents, those that the run asked to post, each once, normal ones in posting order, none with the urgent bit |
| `LocalEvents.NextDelivered` | kernel/yloop/local_event.c:71-78 | Next comes the latest urgent event, else the earliest normal one |
| `LocalEvents.CalledIffWanted` | kernel/yloop/local_event.c:46-53 | A filter is called if and only if it is in the list with EV_ALL or the type of the event |
| `LocalEvents.CalledInOrder` | kernel/yloop/local_event.c:46-53 | In registration order |
| `LocalEvents.WalkServesAll` | kernel/yloop/local_event.c:46-53 | A walk whose callbacks register filters calls those of the list as it stands at the end, the new ones included |
| `LocalEvents.DispatchIs` | kernel/yloop/local_event.c:36-54 | An RPC event runs its own handler only, any other exactly the filters that want it, and earlier filters keep their places |
| `LocalEvents.HandlersAreThoseAsked` | kernel/yloop/local_event.c:160-181 | Over every run, the functions run with their arguments, and those still waiting, are as a multiset those that the run scheduled, read from its actions |
| `LocalEvents.ScheduledCallRuns` | kernel/yloop/local_event.c:36-44 | An urgent call, or any call when nothing waits, is what the next delivery runs: that function with that argument, and the queue is as before |
| `LocalEvents.FilterCanRun` | kernel/yloop/local_event.c:36-69 | There is a run in which a filter is called if and only if it has a callback and its type is EV_ALL, or has no urgent bit and is not EV_RPC |
| `LocalEvents.CommandRoundTrip` | kernel/vfs/include/event_device.h:15-17 | In a signed int the command always survives the packing, and the length does if and only if it is below 2^27 |
| `LocalEvents.LongestLengthFails` | kernel/vfs/device.c:112-117 | At 2^27 the length that event_ioctl sees is negative |
| `EventFilters.FilterList.Register` | kernel/yloop/local_event.c:111-129 | The filter goes to the end of the list; without a callback nothing changes |
| `EventFilters.FilterList.Unregister` | kernel/yloop/local_event.c:132-154 | The first equal filter is unlinked and freed, or nothing changes |
| `EventFilters.FilterList.HandleEvents` | kernel/yloop/local_event.c:36-54 | On the linked list, while each callback called registers filters: an RPC event runs its own handler only, any other calls the filters of the final list that want it, and the old list is a prefix of that |
| `LocalService.DecodeOfEncode` | include/aos/yloop.h:64-75 | An event read back from its bytes is the event written |
| `LocalService.Service.PostEvent` | kernel/yloop/local_event.c:99-108 | Through the event device in the heap, posting is the step of the specification; the length is returned, or -1 without memory |
| `LocalService.Service.ScheduleCall` | kernel/yloop/local_event.c:160-181 | So is scheduling a call, which is refused without a function |
| `LocalService.Service.Deliver` | kernel/yloop/local_event.c:71-78 | Reading an event from the device and dispatching it to the filter list is the step of the specification, and runs what that runs |
| `LocalService.Service.EndToEnd` | kernel/yloop/local_event.c:36-181 | In every service in use the bytes in the device decode to the pending events, these with the delivered ones are those posted, and the functions run and waiting are those scheduled, with their arguments |
| `LocalService.RunScript` | kernel/yloop/local_event.c:36-181 | Any script of posts, calls, deliveries and filter changes on a new service, in the heap, runs what the specification runs over its history |
| `LocalService.RunWithMemory` | kernel/yloop/local_event.c:36-181 | With memory enough it runs what the specification runs over the script itself |

## Left out

- utils_crc32: one more instance of the same register, 32 bits wide, with no second implementation to agree with.
- slist: the singly linked list of include/aos/list.h is used by none of the parts modelled.
- SHA384_Final: what it leaves in the context; it clears only the size of a pointer, and nothing is claimed about it.
- Sha2Counter: the counters are integers with explicit wrap-around and their byte swap is on base-256 digits, while the schedule words are bit-vectors.
- Big-endian hosts: os_is_big_endian is taken to be false, and the SHA End and hex functions are not modelled.
- digest_algorithm.c: allocation of contexts and hashing of files; in HMAC the contexts are always allocated.
- Readers.Table.Add: needs fewer than 255 readers, as reader_count is a uint8_t, and a callback is taken to register only while there is room; max_sock and the fcntl calls are not modelled.
- Readers.Table.DispatchCancelling: callbacks only cancel. A dispatch in which one callback cancels and a later one registers reads array slots that were never written, and is not modelled.
- EventDevice.Device.Read: counter is sampled before the lock in the source; with one reader per device, as assumed here, that is the same.
- PollProtocol: the CONFIG_NO_TCPIP variant only, and one poll at a time; the eventfd and select variants, and pollfds of foreign fds beyond their POLLIN mark, are not modelled. Waiting is a step that a time-out may end at any moment.
- VfsSpec: each API call is one step, mutexes never fail, drivers answer with any number, reference counts are natural numbers (see `CountsFit`), and fds or paths that are not VFS's own are refused with -ENOSYS as the trap functions do; a null directory in aos_closedir is not modelled.
- VfsSpec: the read, write, ioctl, lseek, sync, readdir and fcntl calls only forward to the driver and change no table.
- Timers: the clock never runs backwards and its arithmetic does not overflow; terminate and the choice of the loop's context are not modelled.
- LocalEvents: callbacks that unregister filters while an event is dispatched, and dispatches that never end because every callback registers one more filter that wants the event; events that callbacks post are the steps that follow the dispatch.
- local_event.c: aos_loop_schedule_work and aos_cancel_work rest on kernel work queues that are not part of this model.
- Sensor drivers, graphics, Wi-Fi, OTA, logging and start-up code.
