# plan9port in Dafny

A model of the hard parts of plan9port and proofs about it. Eight components are modelled, each in its own group of modules:

- `Dc*`: the arithmetic of `dc`, on blocks of base-100 digits with moving read and write positions: sum, negation, product, long division with guessed digits, square root and power.
- `NineP*`: the 9P multiplexer `9pserve` as a transition system. The threads' bodies are cut at the points where they block. A thread that is handed something it waited for runs later, in a step of its own, and any other thread may run in between. The server behind it answers requests in any order. The invariant is proved for every step but the one that follows a nil fid, which is named exactly, hence for every interleaving and every run without it.
- `Sort*`: `sort`: the in-place radix sort with its shared count array, the external merge, the key made of a number, and lines with several fields.
- `Yacc*`: the table generator: which nonterminals are empty, first sets, LR(1) closure, the states, the gotos, and the packing of shifts and gotos into one array.
- `EdStore`, `EdSession`: the line store of `ed`, a file seen through two block buffers.
- `Join*`: `join` on two key-sorted files, the second of which is rewound.
- `PathSpec`, `CleanName`: path cleaning, in place.
- `Stat*`: the directory entry of 9P2000 and its bytes: encoder, decoder and validity check, against a layout written out byte by byte.

Code that changes things step by step is modelled by classes and methods with loops. Each is proved against a function or predicate that does not mention the code: an integer value, a derivation in a grammar, a nested loop, a plain map, a walk through a directory tree.

The main theorems are these.

- `DcDivTop.Div`: quotient and remainder are exact for every well-formed dividend and every divisor whose magnitude has no leading zero, the remainder is smaller than the divisor and has the sign of the dividend. `DcDiv.GuessMiddle` and `DcDiv.GuessLast` are the error bounds behind it.
- `NinePTold.WireRight`, `NinePTold.PendApart` and `NinePReply.RepliesRight`: what the server is asked is what a client asked, every number replaced by the fid that the client's own table had for it; requests of different connections never name the same fid; and a reply leaves of the tables exactly what it should.
- `NinePRun.RunInv` and its consequences: reference counts equal the number of holders, nothing free is reachable, no assertion fails, tags and fids are not reused while anything refers to them, and every answer goes to the connection that asked, under its own tag, once.
- `SortDescend.Sort4` and `SortMain.Sort`: a sorted permutation, with any amount of memory; `SortSpec.SameKeys`: the same keys whatever the amount. `SortText.ReadMeans` and `SortText.EveryText`: a number key stands for the number that the characters of the text say. `SortFields.SortByFields`: lines come out in the order of their fields, the first that differs deciding, be it text, reversed text or a number.
- `YaccClosure.Closure`, `YaccGenerate.Generate`, `YaccOpt.Callopt`, `YaccBuild.Build`: the closure is the least one; the states have distinct cores, there is one for every viable prefix, and generation fails if and only if the grammar needs too many; from a grammar to the packed tables, what is read from them is exactly the shifts and gotos of its automaton. `YaccLalr.LooksExact`: when no state is at risk of losing its mark, the recorded lookaheads are exactly the LALR(1) ones.
- `EdSession.Session`, `JoinSeek.Joiner.Seek2`, `PathSpec.CleanCanonical`, `StatLayout.EncodeLayout`, `StatLayout.DecodeShown`, `StatSpec.RoundTrip`, `StatSpec.EncodeDecode`.

Where the code does not do what one might expect, the model follows the code:

- `dc`'s `add` leaves -1 as the two digits 99, -1. So `dcexp` with a negative exponent and such a base gives zero, though it gives the base back for the one-digit block -1 (src/cmd/dc.c:1148-1162). `chsign` of a negative block leaves a leading zero exactly when the block has a redundant 99 below its -1 (`DcBlk.NegTrim`); `div` compares lengths, so it answers zero for a dividend with fewer digits than such a divisor's magnitude. `DcDivTop.ShortExact`: that answer is right for all such dividends exactly when the divisor has no leading zero and no redundant 99, as no block made by `add` has. `DcDivTop.RedundantDivisor` is a pair for which it is wrong.
- `9pserve` follows a nil fid when it takes the reply to an open or create that it refused itself (src/cmd/9pserve.c:835). `NinePRun.FaultExact`: in any run without fault so far, the next step faults if and only if it is that one. `NinePOpens.OpensMustPass`: an open or create leaves such a reply behind if and only if it fails the tests at src/cmd/9pserve.c:390, src/cmd/9pserve.c:475 and src/cmd/9pserve.c:497. `NinePOpens.StepStuck` and `NinePOpens.StuckFaults`: the reply stays until it is taken, and the writing thread alone gets there. `NinePOpens.PassingRuns`: runs in which all opens and creates pass never fault.
- `sort`'s comparison by position ignores a key that is a proper prefix of another (`SortKey.GreaterIs`). `SortBubble.Bsort` sorts if and only if no key is followed by a proper prefix of it; `SortBubble.LeavesUnsorted` is a case. `SortFields.NulExact`: keys of text fields are never prefixes of one another exactly as long as the text has no zero byte.
- `yacc` can lose a mark: src/cmd/yacc.c:987 overwrites what src/cmd/yacc.c:828 sets on the state being processed, so lookaheads that came to it meanwhile are not passed on. `YaccGenerate.Generate` and `YaccLalr.LooksExact`: that concerns only states with a goto to themselves whose closure opens an empty production.
- In `9pserve` a reply to a clunk does not always end the client's number: the number may stand for another fid by then, and stays. `NinePReply.RepliesRight` says exactly which numbers go.
- `sort -n` keeps the decimal exponent in sixteen bits. `SortNumber.ReachExact`: a number's key has its place among those of all numbers in reach exactly when it is in reach itself.
- `ed`'s `putline`, when the temporary file is full, goes back to where the failed line began. The next line put there loses what the block had before it if neither buffer holds that block and a stored line ends in it. `EdSession.Session`: all answers are right as long as no such put is made, puts that fail among them. `EdSession.LostLine`: after such a put, every line that ends in the block is lost. `EdSession.LossySession` is a session that comes to one, and `EdSession.FitsSafe` says that none does in which every line fits.
- `cleanname`'s manual page promises the shortest string that names the same file. `PathSpec.CleanShortest`: it is the shortest if and only if it is not `.`, since the empty string leads to the same place (`PathSpec.EmptyShorter`).
- The manual page of `convM2D` says that without memory for strings the pointers are nil; the code makes them empty strings.
- The decoded strings end at their first zero, so bytes that `statcheck` accepts come back from encoding the decoded entry exactly when no string in them has a zero (`StatSpec.EncodeDecode`).

## Model

| member | source | states |
|---|---|---|
| `DcBlk.Blk.More` | src/cmd/dc.c:2180-2208 | the block gets longer and keeps its digits |
| `DcBlk.Blk.Sputc` | src/cmd/dc.c:36-37 | one digit is appended to the block's digits, whether or not it had to grow |
| `DcBlk.Blk.Salterc` | src/cmd/dc.c:38-40 | the digit at the read position is replaced, or appended at the end; the others stay |
| `DcBlk.Blk.Sgetc` | src/cmd/dc.c:31 | the digit at the read position, which moves on; -1 at the end |
| `DcBlk.Blk.Sbackc` | src/cmd/dc.c:34 | the digit before the read position, which moves back; -1 at the beginning |
| `DcBlk.Blk.Truncate` | src/cmd/dc.c:27 | the digits up to the read position stay |
| `DcBlk.Blk.Seekc` | src/cmd/dc.c:2137-2165 | the read position is n, the block reaches at least there, and what was stored stays |
| `DcBlk.Blk.Copy` | src/cmd/dc.c:2088-2122 | a new block with the same digits |
| `DcBlk.CompValue` | src/cmd/dc.c:1396-1406 | the hundred's complement of well-formed digits has minus their value, up to the borrow out |
| `DcBlk.NegValue` | src/cmd/dc.c:1390-1423 | negation of digits is exact on every well-formed block and well formed again |
| `DcBlk.NegTrim` | src/cmd/dc.c:1390-1423 | the result has no leading zero if and only if the block has no redundant 99 under its -1 |
| `DcBlk.Chsign` | src/cmd/dc.c:1390-1423 | in place: the block's value is negated, and a normalised block stays normalised |
| `DcArith.AddLoop` | src/cmd/dc.c:1765-1786 | digit by digit, also when lengths differ and one block ends in -1, the value is the sum |
| `DcArith.StripZeros` | src/cmd/dc.c:1787-1795 | leading zeros go and the value stays |
| `DcArith.StripNines` | src/cmd/dc.c:1796-1805 | redundant 99s below a -1 go, the value stays and the result is normalised |
| `DcArith.Add` | src/cmd/dc.c:1759-1807 | the sum of any two well-formed blocks, exact and normalised |
| `DcArith.MulRows` | src/cmd/dc.c:1358-1379 | row after row, the product of two magnitudes, and its length within one digit |
| `DcArith.Mult` | src/cmd/dc.c:1332-1388 | the product of any two well-formed blocks, exact; normalised if they are |
| `DcDiv.GuessMiddle` | src/cmd/dc.c:862-882 | a digit guessed before the last never exceeds the true one, misses by less than a bounded amount, and fits a signed char |
| `DcDiv.GuessLast` | src/cmd/dc.c:862-882 | the last guess is at most one above the true digit, and one below it when marked as undershot |
| `DcDivide.MulScratch` | src/cmd/dc.c:883-892 | the scratch block holds digit times divisor, whatever it held before |
| `DcDivide.SubScratch` | src/cmd/dc.c:893-905 | the scratch block is subtracted at its offset, with the borrow |
| `DcDivide.FoldTopValue` | src/cmd/dc.c:909-914 | folding the top digit into the next keeps the value |
| `DcDivide.FoldableWhenSmall` | src/cmd/dc.c:909-914 | the error bound keeps the folded digit below 128 |
| `DcLongDiv.MiddleDigit` | src/cmd/dc.c:862-917 | one turn of the digit loop keeps dividend = quotient so far times divisor + rest, with the rest within the bound |
| `DcLongDiv.LastDigit` | src/cmd/dc.c:862-917 | after the last digit the rest is off by at most one divisor, in the direction the flags say |
| `DcDivTop.RepairUnder` | src/cmd/dc.c:918-930 | an undershot last digit is corrected only if it was one too small |
| `DcDivTop.RepairOver` | src/cmd/dc.c:931-937 | an overshot last digit is corrected and the rest made positive |
| `DcDivTop.NormalizeQuotient` | src/cmd/dc.c:939-956 | digits above 99 are carried and leading zeros dropped, keeping the value |
| `DcDivTop.Div` | src/cmd/dc.c:814-972 | for a divisor without leading zero or redundant 99: dividend = quotient * divisor + rem, the rem smaller than the divisor and of the dividend's sign; for any divisor with more digits than the dividend: an empty quotient, and the dividend; an empty divisor gives an empty quotient and no rem |
| `DcDivTop.TruncDivUnique` | src/cmd/dc.c:814-972 | there is only one such quotient and remainder |
| `DcDivTop.ShortExact` | src/cmd/dc.c:847-849 | the answer for a dividend with fewer digits is right for all of them if and only if the divisor has no leading zero and no redundant 99 |
| `DcDivTop.RedundantDivisor` | src/cmd/dc.c:847-849 | 79 by the digits 86, 99, -1 is such a short dividend, for which zero is wrong: -5 is the quotient of 79 by -14 |
| `DcRoot.RootStart` | src/cmd/dc.c:1065-1085 | the first estimate lies strictly above the root |
| `DcRoot.NewtonStep` | src/cmd/dc.c:1086-1105 | an estimate not below the root steps to another such, and is the floor root when it does not decrease |
| `DcRoot.Dcsqrt` | src/cmd/dc.c:1059-1110 | the floor square root of every positive normalised block; the estimates decrease |
| `DcRoot.RootUnique` | src/cmd/dc.c:1059-1110 | there is one floor square root |
| `DcRoot.PowStep` | src/cmd/dc.c:1131-1147 | halving the exponent and squaring the base keeps the power still to be computed |
| `DcRoot.PowLoop` | src/cmd/dc.c:1131-1147 | the power of every well-formed base, by repeated squaring; normalised if the base is |
| `DcRoot.Dcexp` | src/cmd/dc.c:1112-1167 | base to the power ex for every well-formed base and every non-negative exponent; for a negative one the base if it is the single digit 1, 0 or -1, and otherwise zero |
| `NinePPut.PutMsg` | src/cmd/9pserve.c:1054-1108 | msgput hands back exactly one reference, through any chain of flushes, and frees what nobody holds and nothing else |
| `NinePPut.FidPutCnt` | src/cmd/9pserve.c:1000-1011 | fidput hands back exactly one reference and frees the fid with the last |
| `NinePCnt.FidNewCnt` | src/cmd/9pserve.c:975-998 | fidnew gives a fid nobody names, with one reference, never the multiplexer's own |
| `NinePEnter.EnterCnt` | src/cmd/9pserve.c:1026-1044 | msgnew gives a message nobody refers to, counted at its connection, with one reference |
| `NinePRecv.RecvInv` | src/cmd/9pserve.c:384-523 | taking in any request a client may send keeps the invariant and logs it |
| `NinePOwn.FlushInv` | src/cmd/9pserve.c:527-542 | after end of file, asking for the flush of a request keeps it |
| `NinePOwn.ClunkInv` | src/cmd/9pserve.c:572-586 | asking for the clunk of a fid keeps it |
| `NinePRun.WakeInv` | src/cmd/9pserve.c:915-916 | handing the answer to such a request over to the thread that waits, with the reference to it, keeps it |
| `NinePRun.TakeUpInv` | src/cmd/9pserve.c:543-592 | when that thread runs, the answer is the one it waits for, and ending the request through msgclear, msgput and fidput keeps it |
| `NinePClose.FlushedInv` | src/cmd/9pserve.c:553-563 | a mark in the queue to the server once no request is left |
| `NinePClose.OutSyncInv` | src/cmd/9pserve.c:864-867 | the writer to the server comes to the mark and wakes the closing thread |
| `NinePClose.CloseQueueInv` | src/cmd/9pserve.c:565-567 | that thread, when it runs, closes the queue of its own writer |
| `NinePClose.ConnNilInv` | src/cmd/9pserve.c:848-851 | the writing thread goes when it finds its queue closed, and wakes the closing thread |
| `NinePClose.DeadInv` | src/cmd/9pserve.c:567-570 | when that thread runs, the assertion that no message of the connection is left anywhere holds |
| `NinePClose.CloseInv` | src/cmd/9pserve.c:598-601 | the assertion that no message is left holds when the connection is freed |
| `NinePSettle.ConnTakeInv` | src/cmd/9pserve.c:793-839 | settling a reply for a client keeps the invariant, whatever the server answered; what becomes of the tables is `NinePReply.TakenTables` |
| `NinePTurn.ConnWrittenInv` | src/cmd/9pserve.c:841-847 | so does giving up the message once the reply is written |
| `NinePOut.OutTakeInv` | src/cmd/9pserve.c:863-871 | the writer to the server takes the next request; requests leave in the order they came |
| `NinePOut.OutPutInv` | src/cmd/9pserve.c:870-873 | the writer gives up its reference although the reply may already be there |
| `NinePOut.ServeInv` | man/man9/flush.9p:27-51 | the server may answer any request it has, and forgets the one a flush names |
| `NinePRun.InputInv` | src/cmd/9pserve.c:879-925 | every reply read finds its message and its connection, and keeps the invariant |
| `NinePRun.StepInv` | src/cmd/9pserve.c:363-925 | every enabled step of every thread and of the server keeps the invariant, but for taking a reply to a refused open or create |
| `NinePRun.RunInv` | src/cmd/9pserve.c:363-925 | the invariant holds after every run without such a step |
| `NinePRun.NeverFaults` | src/cmd/9pserve.c:363-925 | in no such run does an assertion fail, a count drop below zero or a nil pointer get followed |
| `NinePRun.CountsExact` | src/cmd/9pserve.c:1000-1123 | every message's and every fid's count is its number of holders |
| `NinePRun.FreeUnreachable` | src/cmd/9pserve.c:1026-1123 | a message is on the free list if and only if its count is zero, and if and only if nothing refers to it |
| `NinePRun.TagsNotReused` | src/cmd/9pserve.c:1110-1123 | whatever the server has or has answered is still the request that was sent under that tag |
| `NinePRun.AnswersRight` | src/cmd/9pserve.c:505-518 | every answer goes to the connection that asked, under the tag it used, and no request is answered twice |
| `NinePRun.FlushEnds` | src/cmd/9pserve.c:405-413 | once a flush is answered, the request it names is not on its way any more |
| `NinePRun.FaultExact` | src/cmd/9pserve.c:833-836 | after such a run, a step faults if and only if it takes a reply to an open or create without a fid |
| `NinePOpens.OpensMustPass` | src/cmd/9pserve.c:384-523 | an open or create keeps the invariant; if it passes the tests none is refused that was not before, and otherwise its reply waits in the queue without a fid |
| `NinePOpens.StepStuck` | src/cmd/9pserve.c:363-925 | every other step of any thread keeps that reply where it is, without a fid |
| `NinePOpens.StuckFaults` | src/cmd/9pserve.c:793-836 | the writing thread alone, whatever is queued before that reply, follows the nil fid |
| `NinePOpens.PassingRuns` | src/cmd/9pserve.c:363-925 | runs in which every open and create passes the tests have no such step and refuse none |
| `NinePFids.FidsApart` | src/cmd/9pserve.c:975-998 | two entries of clients' tables, of one connection or two, have the same fid only if they are the same entry, and none is xafid |
| `NinePFids.FidsFree` | src/cmd/9pserve.c:975-1011 | a fid is on the free list if and only if its count is zero, and if and only if no table and no message has it |
| `NinePFids.ClosedEmpty` | src/cmd/9pserve.c:598-610 | a closed connection has no message, tag, fid or queued reply, and no message points to it |
| `NinePTold.PassedOn` | src/cmd/9pserve.c:384-503 | a request goes on to the server if and only if its tag is new and the tables have what it names and lack what it makes; otherwise it is queued as answered, with an error unless it is a version or a flush of nothing |
| `NinePTold.StepLog` | src/cmd/9pserve.c:384-586 | every step logs exactly what it asks: a client's request with the tables when it has been taken in, or a flush or clunk of a closing connection |
| `NinePTold.LogTold` | src/cmd/9pserve.c:384-586 | every entry of the log was made by some step of the run |
| `NinePSent.StepWire` | src/cmd/9pserve.c:363-925 | every step keeps this: messages on their way name what their log entry translates to, hold the fids they name, and share none with another connection's |
| `NinePTold.WireRight` | src/cmd/9pserve.c:505-518 | every request the server has was asked in some step, and its fid, newfid, afid and flushed tag are those that the connection's tables gave for the client's numbers then |
| `NinePTold.PendApart` | src/cmd/9pserve.c:505-518 | two requests of different connections that the server has name no fid in common, but for the multiplexer's own afid |
| `NinePTold.HeldUnder` | src/cmd/9pserve.c:975-998 | a fid that a message holds is in no table but its connection's, and there under the number that its request gave |
| `NinePReply.TakenTables` | src/cmd/9pserve.c:793-839 | taking a reply deletes exactly the entries whose fid it ends, and none of another connection |
| `NinePReply.RunOutcomes` | src/cmd/9pserve.c:879-925 | a message whose reply was read has the outcome that the server gave for that very request; one answered here has an error, or is a flush or a version |
| `NinePReply.RepliesRight` | src/cmd/9pserve.c:793-839 | a reply taken answers a request its connection sent; the number of a clunk or remove goes, that of a walk, attach or auth stays if and only if the server made it in full, unless the number stands for another fid by then; every other entry of every connection stays |
| `SortKey.GreaterIs` | src/cmd/sort.c:1711-1766 | the comparison at a position is the order of whole keys if and only if the second is not a proper prefix of the first |
| `SortBubble.Bsort` | src/cmd/sort.c:1711-1766 | a permutation of its stretch of the array, which alone is changed; lines change their order only if the first is greater; sorted if and only if no key was followed by a proper prefix of it |
| `SortBubble.PrefixesStay` | src/cmd/sort.c:1711-1766 | exchanges of neighbours found greater leave a stretch sorted only if no key was followed by a proper prefix of it |
| `SortBubble.LeavesUnsorted` | src/cmd/sort.c:1711-1766 | three lines, one key empty, that come back unsorted |
| `SortRadix.CountPass` | src/cmd/sort.c:1609-1632 | count holds the size of each byte's bucket, and the range of bytes seen is right |
| `SortRadix.PartPass` | src/cmd/sort.c:1634-1658 | each bucket starts where the ones before it end, and the list of buckets is complete |
| `SortBuckets.PlaceStep` | src/cmd/sort.c:1669-1688 | one exchange puts a line in its bucket and disturbs none that is placed |
| `SortRadix.ChasePass` | src/cmd/sort.c:1660-1688 | the cycles end with every line in its bucket and the counts at zero |
| `SortDescend.Rsort` | src/cmd/sort.c:1600-1705 | a sorted permutation; count is all zero on entry and on exit; recursion ends with the longest key |
| `SortDescend.Sort4` | src/cmd/sort.c:1591-1598 | the whole array is a sorted permutation, for any prefix-free keys |
| `SortSpec.KeyCmpIs` | src/cmd/sort.c:487-500 | keycmp is zero only for equal keys, and positive exactly when the first is greater |
| `SortMerge.EmitStep` | src/cmd/sort.c:449-461 | writing a least remaining line, unless -u drops it, keeps the output sorted and complete |
| `SortMerge.Merge` | src/cmd/sort.c:408-485 | a merge of sorted runs writes their lines in order, each once, or with -u each key once |
| `SortMain.Sorter.TempOut` | src/cmd/sort.c:303-332 | the lines in memory become one more sorted run |
| `SortMain.Sorter.DoFile` | src/cmd/sort.c:191-232 | the runs and the lines in memory are the lines read |
| `SortMain.Sorter.MergeOut` | src/cmd/sort.c:379-406 | at most ten runs at a time, each used once, down to one output |
| `SortMain.Sorter.PrintOut` | src/cmd/sort.c:502-519 | what fits in memory is written sorted, or with -u each key once |
| `SortMain.Sort` | src/cmd/sort.c:129-189 | for every input and every mline the output is sorted and a permutation; with -u strictly sorted, each key once |
| `SortSpec.SameKeys` | src/cmd/sort.c:129-189 | two outputs of the same lines have the same keys in the same order, so memory does not matter |
| `SortDecimal.NormalVal` | src/cmd/sort.c:1001-1199 | a number without its leading and trailing zeros has the same value |
| `SortNumber.Embed` | src/cmd/sort.c:1144-1199 | keys of numbers in reach order as the values, or the other way round with -r, are equal only for equal values, and none is a prefix of another |
| `SortNumber.ReachExact` | src/cmd/sort.c:1144-1199 | that holds of a number against all those in reach if and only if its exponent fits sixteen bits |
| `SortGn.DokeyGn` | src/cmd/sort.c:1001-1199 | the state machine writes the key of the number that the line begins with; which number that is, `SortText.ReadMeans` says |
| `SortGn.KeysEmbed` | src/cmd/sort.c:1001-1199 | the keys of two lines order as their values |
| `SortText.ReadMeans` | src/cmd/sort.c:1015-1137 | a text of blanks, sign, blanks, digits, point, digits and exponent, each there or not, and anything after, is read as its digits times the power of ten that point and exponent give, negative for '-' alone |
| `SortText.EveryText` | src/cmd/sort.c:1015-1137 | every text can be parted so |
| `SortText.TextReach` | src/cmd/sort.c:1182-1199 | its exponent fits the key if and only if the value said is zero or within the bounds given |
| `SortText.KeysOfTexts` | src/cmd/sort.c:1001-1199 | the keys built for two texts are in the order of what their characters say, reversed with -r, equal only for equal values, and none is a prefix of the other |
| `SortFields.DokeyR` | src/cmd/sort.c:1331-1358 | the complemented bytes and a terminator, behind what the key has |
| `SortFields.FieldRanked` | src/cmd/sort.c:1361-1375 | keys of text without zero bytes, reversed text and numbers in reach order as the fields do, are equal only for fields that compare equal, and none is a prefix of another |
| `SortFields.NulExact` | src/cmd/sort.c:1361-1375 | a text's key is never a prefix of another's, or the other way round, if and only if the text has no zero byte |
| `SortFields.LinesRanked` | src/cmd/sort.c:1378-1440 | keys made of several fields order by the first field that differs |
| `SortFields.BuildKey` | src/cmd/sort.c:1378-1440 | the keys of the fields in turn, and of the whole line unless -u makes do with the fields |
| `SortFields.SortByFields` | src/cmd/sort.c:129-189 | lines come out in the order of their fields, each once; with -u one of every group that compares equal |
| `YaccGrammar.Cempty` | src/cmd/yacc.c:917-936 | exactly the nonterminals with a derivation of the empty string are marked |
| `YaccGrammar.Cpfir` | src/cmd/yacc.c:725-762 | each set has exactly the tokens that a derivation can begin with |
| `YaccClosure.FollowLoop` | src/cmd/yacc.c:1064-1076 | the lookaheads after the dot, through nonterminals that can be empty |
| `YaccClosure.Pass` | src/cmd/yacc.c:1042-1114 | one pass adds only what is justified, and if it adds nothing all flags are clear |
| `YaccClosure.Closure` | src/cmd/yacc.c:1020-1117 | ends with all flags clear and exactly the items and lookaheads that derivations give |
| `YaccItems.ClosureLeast` | src/cmd/yacc.c:1020-1117 | any set of items and lookaheads closed under the rules has all of these |
| `YaccSort.SortItems` | src/cmd/yacc.c:786-799 | the items of a new state in order, with their lookaheads |
| `YaccSort.AscendingSame` | src/cmd/yacc.c:802-816 | sorted lists of the same items are equal, so comparing lists compares cores |
| `YaccState.State` | src/cmd/yacc.c:776-850 | the state with this core, found or added: its lookaheads are exactly those it had and those given, it is to be done again if they are more, and nothing else changes; fails if and only if the core is new and the states are used up, and then the grammar needs too many |
| `YaccStagen.Collect` | src/cmd/yacc.c:990-996 | the items with the dot before a symbol, moved past it, and their flags set |
| `YaccPaths.ClosureValid` | src/cmd/yacc.c:1020-1117 | the closure of a core a prefix leads to is exactly the items valid for the prefix |
| `YaccPaths.GotoLeads` | src/cmd/yacc.c:990-1000 | and moving past a symbol gives the core the longer prefix leads to |
| `YaccGenerate.Generator.Process` | src/cmd/yacc.c:972-1013 | one state done: every symbol but the end marker has its goto, with every lookahead that the closure of the kernel as taken gives the moved items, and less is left to do; fails only if the grammar needs too many states |
| `YaccGenerate.Generator.Stagen` | src/cmd/yacc.c:942-1015 | ends with every state done, if and only if the grammar does not need too many; every state not at risk has passed all its lookaheads on |
| `YaccGenerate.Generate` | src/cmd/yacc.c:942-1015 | from a grammar to its states, the tables of empty nonterminals and first tokens being exact, every state not at risk having passed all its lookaheads on; fails if and only if the cores that prefixes lead to are too many |
| `YaccGenerate.CoresDistinct` | src/cmd/yacc.c:776-850 | no two states have the same core |
| `YaccGenerate.PrefixesClosed` | src/cmd/yacc.c:942-1015 | a prefix that leads to a state leads, with any symbol but the end marker, to another |
| `YaccGenerate.EveryPrefix` | src/cmd/yacc.c:942-1015 | every prefix without the end marker that has a valid item leads to a state |
| `YaccGenerate.LooksSound` | src/cmd/yacc.c:819-832 | every recorded lookahead is one the grammar has after some prefix that leads to the state |
| `YaccLalr.LooksExact` | src/cmd/yacc.c:942-1015 | if no state is at risk, a state records a lookahead for an item if and only if the grammar has it after some prefix that leads to the state |
| `YaccGenerate.FindShift` | src/cmd/yacc.c:2221-2225 | state, called again without lookaheads, always finds its core: the error for a new one is unreachable |
| `YaccGenerate.Shifts` | src/cmd/yacc.c:2212-2229 | the shifts of a state are exactly the tokens after a dot in its closure, each to the state with the goto's core |
| `YaccBuild.Corners` | src/cmd/yacc.c:2390-2410 | exactly the nonterminals that can begin with the given one are marked |
| `YaccBuild.GotosWhere` | src/cmd/yacc.c:2412-2431 | a state has a goto on it if and only if some kernel item stands before a marked one |
| `YaccBuild.Go2gen` | src/cmd/yacc.c:2383-2431 | the column of a nonterminal: for every state the state its goto leads to, or zero |
| `YaccGoto.Best` | src/cmd/yacc.c:2341-2362 | the default is a most frequent goto, and there is none only if there is no goto |
| `YaccGoto.GotoRead` | src/cmd/yacc.c:2331-2378 | with the default left out of the list, every goto is still read back |
| `YaccPack.PlaceState` | src/cmd/yacc.c:2819-2882 | a state written where it fits disturbs no state or nonterminal placed before |
| `YaccPack.ShareState` | src/cmd/yacc.c:2843-2864 | a state that shares another's place shifts exactly as it does |
| `YaccPack.PlaceNonterminal` | src/cmd/yacc.c:2777-2817 | gotos written into free cells disturb nothing placed before |
| `YaccOpt.Optimizer.Stin` | src/cmd/yacc.c:2819-2882 | places one state, keeping all that is placed; fails if and only if it fits at no offset tried, and then changes nothing |
| `YaccOpt.Optimizer.Gin` | src/cmd/yacc.c:2777-2817 | places one nonterminal, keeping all that is placed; fails if and only if it fits at no offset tried, and then changes nothing |
| `YaccOpt.Optimizer.Nxti` | src/cmd/yacc.c:2884-2909 | something unplaced, or nothing when all is placed |
| `YaccOpt.Optimizer.Pack` | src/cmd/yacc.c:2747-2760 | all are placed, or what is placed is kept and something left fits at no offset |
| `YaccOpt.Callopt` | src/cmd/yacc.c:2660-2775 | reading the array with yychk gives exactly the shifts of every state, and the gotos of every nonterminal; or what is placed is right and something left fits at no offset tried |
| `YaccTables.ShiftsKept` | src/cmd/yacc.c:418-425 | the cell at indgo plus token holds a state with that accessing symbol if and only if the state shifts the token to it |
| `YaccTables.GotosKept` | src/cmd/yacc.c:2777-2817 | the cell at pgo plus state plus one gives the goto, and otherwise the default |
| `YaccLink.Yychk` | src/cmd/yacc.c:418-425 | walking the lists of all symbols gives every state its accessing symbol |
| `YaccLink.RowsFit` | src/cmd/yacc.c:2212-2229 | a row of shifts of a generated state, with that yychk, is what the optimizer needs |
| `YaccLink.PackedShift` | src/cmd/yacc.c:2819-2882 | the state the packed table gives for a token is the one the prefix with that token leads to |
| `YaccBuild.AllFit` | src/cmd/yacc.c:2660-2775 | all rows of shifts and all columns of gotos of generated states are what the optimizer needs |
| `YaccBuild.Build` | src/cmd/yacc.c:942-1015 | from a grammar to packed tables that give exactly the shifts and gotos of its states; or too many states are needed, if and only if that is so; or something fits at no offset |
| `EdStore.Store.GetBlock` | src/cmd/ed.c:1077-1110 | the block asked for is in the buffer pointed to, for any address to write up to one past the last block; reading changes nothing that is stored; writing to a block in neither buffer makes the output buffer that block with what was in the buffer |
| `EdStore.Store.GetLine` | src/cmd/ed.c:1013-1031 | the text stored at the address, whichever blocks are in the buffers; fails if and only if there is none |
| `EdStore.Store.PutLine` | src/cmd/ed.c:1033-1061 | the text up to the newline is stored at the address returned; all that was stored stays, but for the block the line begins in if neither buffer held it; fails if and only if it runs out of blocks |
| `EdStore.Store.constructor` | src/cmd/ed.c:1112-1131 | a new store is empty and its first address is 2 |
| `EdSession.Session` | src/cmd/ed.c:1013-1131 | any sequence of putline and getline answers as a plain map from addresses to texts does, failed puts included, as long as every put begins in a block that a buffer holds or in which no line ends |
| `EdSession.LostLine` | src/cmd/ed.c:1077-1110 | after any other put, whether or not it fails, getline does not return the text of a line that ended in that block |
| `EdSession.FitsSafe` | src/cmd/ed.c:1033-1061 | if every line put fits, every put is of the first kind |
| `EdSession.LossySession` | src/cmd/ed.c:1033-1061 | a session of the first kind, with a failed put, whose next put is of the other and loses a line |
| `JoinKeys.RuneCmp` | src/cmd/join.c:142-151 | the dictionary order of two zero-terminated strings |
| `JoinKeys.CompareTrans` | src/cmd/join.c:142-151 | the order is transitive, strictly if one step is strict |
| `JoinSteps.GroupDone` | src/cmd/join.c:200-205 | after a group of equal keys every pair of it is written once and the files stand past it |
| `JoinSeek.Joiner.FirstRow` | src/cmd/join.c:183-188 | the first line of a group against all of file 2's group, whose end is found |
| `JoinSeek.Joiner.OtherRows` | src/cmd/join.c:189-206 | the others, each after a rewind; ends with file 2 after the group |
| `JoinSeek.Joiner.Seek2` | src/cmd/join.c:167-209 | the pairs of the nested loops in their order, each unmatched line once if asked for, all in key order |
| `JoinSpec.JoinUnique` | src/cmd/join.c:167-209 | there is only one such output |
| `CleanName.Backtrack` | src/lib9/cleanname.c:31-33 | the writer goes back over exactly the last element |
| `CleanName.CopyElement` | src/lib9/cleanname.c:44-45 | an element is moved down without touching what is unread |
| `CleanName.Turn` | src/lib9/cleanname.c:24-47 | one turn does to the written text what the element does to the stack; the writer stays behind the reader |
| `CleanName.CleanInPlace` | src/lib9/cleanname.c:8-52 | the buffer holds the elements folded over a stack |
| `PathSpec.StackGood` | src/lib9/cleanname.c:16-22 | the result has no empty or dot elements, and parents only in front of a relative path |
| `PathSpec.CleanTwice` | src/lib9/cleanname.c:8-52 | cleaning a clean name changes nothing |
| `PathSpec.CleanResolves` | src/lib9/cleanname.c:4-6 | the clean name leads to the same directory from every directory |
| `PathSpec.CleanCanonical` | man/man3/cleanname.3:13-16 | two names lead to the same place from everywhere if and only if their clean names are equal |
| `PathSpec.CleanShortest` | man/man3/cleanname.3:13-16 | no name that leads to the same places is shorter than the clean one, if and only if that is not the dot |
| `PathSpec.EmptyShorter` | man/man3/cleanname.3:13-16 | the empty name leads where the dot does |
| `StatConv.PBit64` | include/fcall.h:61-62 | eight bytes in two's complement, least significant first, and nothing else |
| `StatConv.G64` | include/fcall.h:55-56 | the integer in eight bytes |
| `StatConv.SizeD2M` | src/lib9/convD2M.c:5-25 | the number of bytes of the encoded entry |
| `StatConv.ConvD2M` | src/lib9/convD2M.c:27-101 | the whole encoding if it fits, every number and string at its place, only its count if not, nothing if not even that; no byte after it changes |
| `StatConv.StatCheck` | src/lib9/convM2D.c:5-29 | zero if and only if the bytes are as many as they say, with exactly four strings after the fixed part |
| `StatRead.ConvM2D` | src/lib9/convM2D.c:33-98 | the decoded entry, its numbers from their places and its strings in their order, and the bytes it takes; zero if and only if the strings do not fit; all bytes are used if statcheck accepts them |
| `StatLayout.EncodeLayout` | man/man9/stat.9p:36-85 | bytes are the encoding of an entry if and only if size, type, dev, qid, mode, atime, mtime and length are at bytes 0, 2, 4, 8, 21, 25, 29 and 33, least byte first, and name, uid, gid and muid follow with their lengths |
| `StatLayout.DecodeLayout` | src/lib9/convM2D.c:33-98 | what is decoded from bytes with four strings after byte 41: the numbers there, and the strings up to their first zeros |
| `StatLayout.DecodeShown` | src/lib9/convM2D.c:33-98 | the decoded entry is the only one that the bytes show |
| `StatSpec.EncodeSize` | include/fcall.h:70-72 | an entry takes 49 bytes and its strings |
| `StatSpec.EncodeValid` | src/lib9/convM2D.c:5-29 | statcheck accepts an encoded entry if and only if its size fits the count |
| `StatSpec.DecodeEncode` | src/lib9/convM2D.c:33-98 | decoding gives back the entry, its numbers cut to their widths |
| `StatSpec.RoundTrip` | src/lib9/convM2D.c:33-98 | an entry comes back if and only if every number fits its field and no string is missing |
| `StatSpec.EncodeDecode` | src/lib9/convD2M.c:27-101 | accepted bytes come back if and only if no string has a zero in it |

## Left out

- dc: the command interpreter, input and output of numbers, scale factors, the symbol table and the allocator's counters.
- DcDivTop.Div: nothing is claimed of a divisor with a leading zero or a redundant 99 and a dividend with as many digits or more.
- 9pserve: sockets, pipes and Ioprocs, the openfd path, the stall when a connection has too many requests, and the repacking of packets. Messages carry what the tables need of a packet.
- 9pserve: clients are assumed not to flush a request's own tag; authentication, attach names and file types are choices made with the request; the server is assumed to answer each request once and to forget a request when it answers its flush.
- 9pserve: the closing loops look at the tables in any order rather than bucket by bucket, which allows more interleavings than the code has.
- sort: argument parsing, finding the fields of a line, month names, folding tables, and -c. Lines are read and written as values; a merge sees its temporary files as sequences.
- SortGn.DokeyGn: writes to a sequence that grows, not through a pointer into the line's key.
- yacc: the scanner, actions, conflicts and precedence, the driver template, the first half of cempty, and the lists printed for people. A row keeps every shift, since conflicts are not resolved.
- YaccLalr.LooksExact: nothing is claimed of a grammar with a state at risk; such a state may have all its lookaheads or not.
- YaccBuild.Go2gen: the goto of a state is looked up by its core, not in the array where apack put it.
- YaccClosure.Closure: the working set is a sequence that the methods return changed, not an array; tables that overflow are errors.
- ed: regular expressions, commands, and addresses with the mark bit set, and the size of the buffer that getline fills. Reading and writing the temporary file never fail.
- join: options, the splitting of lines into fields and the printing of lists; a line is its join field and its number of fields. seek1 is not modelled.
- StatRead.ConvM2D: the strings of the result are values, so sharing between the entry and the memory for strings is not modelled.
- StatConv.ConvD2M: sizes are unbounded integers, so strings of more than 2^31 bytes are not as in C.
- Other programs and libraries of the repository are not modelled.
