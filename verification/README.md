# Verification of the RT-Thread core

This project models the hard core of RT-Thread 1.1.0 in Dafny and proves what its
parts are for. Configuration: RT_ALIGN_SIZE 8, 32 (and, for the scheduler, 256)
priorities, RT_DEBUG on. `dafny verify dfyconfig.toml` checks all of it.

The kernel is modelled as atomic sections, the stretches of code that run with
interrupts off. Each object has a step function on values, an invariant that every
step keeps, and a theorem about whole runs of interleaved steps; a class with the
source's own fields does the same in place, each method proved to be the step. The
allocators and the shell are classes and methods over in-band headers, node tables
and byte arrays, proved against functions on values.

- **Shell** (`Finsh*.dfy`): parser, type checker, code generator and stack machine of
  finsh, and the theorem that joins them: a line does what evaluating it directly does.
  `FinshOperators.dfy` says what the operators compute without saying how, `FinshLimits.dfy`
  and `FinshRejects.dfy` which lines are refused, `FinshLines.dfy` what short ones answer.
- **Allocators**: the first-fit heap of `mem.c` (`SmallHeap.dfy`), the slab heap with its
  page list (`Slab*.dfy`), the two-list heap of `memheap.c` (`MemHeap.dfy`).
- **Threads and scheduler**: the list nodes and heads as pointers and the lists they stand
  for (`ThreadLists.dfy`), the ready bitmap in both layouts (`ReadyBits.dfy`), the two
  together (`Queues.dfy`), every thread call cut into its sections with the theorem when
  each thread keeps its one place (`Threads.dfy`), what each section does to its thread and
  to no other (`ThreadCalls.dfy`), and the same in place (`Scheduler.dfy`).
- **Hard timers** (`Timer.dfy`): exact firing across the wrap of the tick counter.
- **IPC**: mailbox, mutex, event set, message queue (`Mailbox.dfy`, `Mutex.dfy`,
  `EventSet.dfy`, `MessageQueue.dfy` with its receivers in `QueueWaits.dfy`), with the wait
  lists of `WaitList.dfy`.
- **Reader-writer lock** (`RwLock.dfy`), **lists** (`Rings.dfy`), **division**
  (`Division.dfy`). `Basics.dfy` holds what several parts share.

## What the proofs brought out

The model follows the code where code and documentation differ.

- A finsh operator whose first operand starts with a call gets no opcode: a binary
  operator and `~` are then never right, `*` only if the word at the address is the address
  (`FinshCorrect.BinaryRightIff`, `FinshCorrect.UnaryRightIff`). `++` and `--` on a system
  variable use the address its record would have as a shell variable: prefix forms are
  right exactly if the words at both addresses agree, postfix forms exactly if the
  addresses are the same (`FinshCorrect.SystemVariableStep`).
- A parenthesis that groups is taken for a cast and never parses
  (`FinshRejects.ParenthesesRejected`). Behind the first statement of a line an empty
  statement makes the parser skip the token that follows it, so that `1;;2;` loses its
  second statement (`FinshEmpty.LostStatement`).
  `FinshEmpty.EmptyStatementsIff` says exactly which lines keep their statements; one of
  them is `1;;0-2;`, because `-2` has the tree of `0-2`, but for the kind of the zero, which
  the compiler does not look at (`FinshShell.PlainStages`).
- The small heap refuses an exact fit that touches the end of the heap, and after a
  shrinking realloc lfree need not be the lowest free block (`SmallHeap.Heap.Shrink`
  gives the exact condition).
- The slab heap promises that all power-of-two allocations are aligned to their size and
  that `rt_malloc(0)` is not NULL. The first holds up to the page size
  (`SlabHeap.PowerAligned`); above, it holds exactly if the first page of the block's zone
  or of the block is aligned (`SlabHeap.PowerAlignedIff`, `SlabHeap.PagesAlignedIff`), and
  the page allocator takes the lowest pages with room (`SlabHeap.Slab.Malloc`). So a first
  request of 8192 bytes on a heap that starts at page 2 is served at page 3
  (`SlabHeap.MisalignedRequest`). The second never holds.
- `rt_memheap_alloc` refuses a request for all of available_size even when one block has
  exactly that much.
- A timer callback that stops and restarts its own timer always breaks the timer list
  (`Timer.RestartBreaks`); every other callback is safe (`Timer.FiredKeeps`).
- The thread calls test and change a thread in several sections with interrupts on in
  between. `Threads.StepExact` and `Threads.RunExact` give the exact condition, section by
  section, under which every thread keeps its one place. It fails in runs from the start of
  the system: if the tick comes between the first two sections of a deletion
  (`Threads.TickReached`), if a thread is deleted while it is resumed
  (`Threads.DeleteReached`), and if two resumes of a thread overlap
  (`Threads.OverlapReached`). A node inserted while it is linked ruins the lists for good
  (`ThreadLists.InsertBeforeRuins`).
- A mutex hands priority inheritance on exactly if the waiter that gets it is the most
  urgent one (`Mutex.HandOffInheritsIff`), which queueing by priority ensures.
- When a timed write lock gives up, nobody wakes the readers that wait behind it, although
  they may share the lock (`RwLock.ReaderLeftAsleep`, `RwLock.FailedWriterIff`).

## Model

| member | source | states |
|---|---|---|
| `FinshShell.LineCorrect` | components/finsh/shell.c:195-235 | end to end: for every paren-free well-formed statement list that fits 16 nodes and 128 bytes, parsing its tokens, checking, compiling and running gives the value and memory of direct evaluation, and is undefined exactly when that is |
| `FinshLines.TwoOperands` | components/finsh/finsh_parser.c:451-652 | the line of two literals with an operator token between them answers the word C asks for on 32-bit longs (every bit of 6&3, the quotient of 7/2), and is undefined exactly where C is |
| `FinshLines.ThreeOperands` | components/finsh/finsh_parser.c:451-652 | on a line of three literals the tighter operator of C is applied first, and of two equally tight ones the left one |
| `FinshOperators.ApplyIff` | components/finsh/finsh_ops.c:27-280 | an operator gives exactly the word C asks for: sums, differences, products and left shifts modulo 2^32; the quotient rounded to zero and the remainder of the sign of the dividend; and, or, xor bit by bit; the right shift of a long rounded down |
| `FinshOperators.SignedIs` | components/finsh/finsh_ops.c:27-30 | a slot read as a long is the number congruent to its word between -2^31 and 2^31 - 1 |
| `FinshOperators.ComputesOnce` | components/finsh/finsh_ops.c:27-280 | there is only one such word |
| `FinshOperators.ComplementFlips` | components/finsh/finsh_ops.c:230-236 | ~ flips every bit, so that a word and its complement add up to 2^32 - 1 |
| `FinshSyntax.EvalBin` | components/finsh/finsh_compiler.c:202-268 | direct evaluation of a binary operator: operands left to right, defined where C defines it, with the result C asks for |
| `FinshSyntax.EvalUnary` | components/finsh/finsh_compiler.c:208-255 | minus gives the number that adds up to zero, ~ flips every bit, and neither changes memory |
| `FinshSyntax.EvalIncr` | components/finsh/finsh_compiler.c:355-675 | ++ and -- leave one more or less at the address and nothing else changed; the prefix forms give the new word, the postfix forms the old one |
| `FinshSyntax.EvalAssign` | components/finsh/finsh_compiler.c:293-352 | an assignment leaves its value at the address of its target and nothing else changed |
| `FinshShell.RunLine` | components/finsh/shell.c:195-235 | the in-place parser, checker, code generator and machine together compute the outcome function of the line, errors included |
| `FinshCorrect.CompilerCorrect` | components/finsh/finsh_compiler.c:885-919 | compiler correctness: the run ends at the end of the text with exactly one stack slot holding the last value modulo 2^32 and the memory of direct evaluation |
| `FinshCorrect.RunStatements` | components/finsh/finsh_compiler.c:904-916 | the same for the code of a statement list placed anywhere in the text, followed by no-ops |
| `FinshCorrect.RunExpr` | components/finsh/finsh_compiler.c:39-739 | the code of an expression pushes its value and changes memory as direct evaluation does, without overflowing the stack |
| `FinshCorrect.RunAddr` | components/finsh/finsh_compiler.c:39-182 | the code of an lvalue pushes its address |
| `FinshCorrect.RunArgs` | components/finsh/finsh_compiler.c:270-292 | the code of an argument list pushes the argument values in order |
| `FinshCorrect.CodeLength` | components/finsh/finsh_compiler.c:28-739 | every pushed slot costs at least five bytes of code, so 128 bytes of text cannot overflow 64 slots |
| `FinshCorrect.BinaryRightIff` | components/finsh/finsh_compiler.c:773-777 | a binary operator statement runs to its value if and only if the type of its first operand is DWORD; otherwise (the operand starts with a call) it has no opcode and both operands stay on the stack |
| `FinshCorrect.UnaryRightIff` | components/finsh/finsh_compiler.c:773-777 | over an operand that starts with a call ~ has no opcode and is never right, and * is right if and only if the word at the address is the address itself |
| `FinshCorrect.SystemVariableStep` | components/finsh/finsh_compiler.c:355-675 | ++ and -- on a system variable use the address the record would have as a shell variable: the prefix forms are right if and only if the words at both addresses agree, the postfix forms if and only if the addresses are the same |
| `FinshCorrect.StoresApart` | components/finsh/finsh_ops.c:413-420 | counting up or down at two different addresses never gives the same memory, even if the two words overlap |
| `FinshCompiler.HeadIsType` | components/finsh/finsh_compiler.c:741-883 | the type the checker gives a node is the type of its leftmost leaf |
| `FinshMachine.LoadAfterStore` | components/finsh/finsh_ops.c:413-420 | a 32-bit store followed by a load at the same address gives the stored word |
| `FinshMachine.StoreBytes` | components/finsh/finsh.h:32-50 | the four bytes of a stored word lie from its address on, least significant first |
| `FinshMachine.StoreElsewhere` | components/finsh/finsh_ops.c:413-420 | a store changes no other byte |
| `FinshMachine.BinaryRow` | components/finsh/finsh_ops.c:556-607 | which opcode byte stands for which operator |
| `FinshMachine.JoinBytes` | components/finsh/finsh.h:32-50 | the four little-endian bytes of a word join to that word |
| `FinshMachine.ExecNoops` | components/finsh/finsh_vm.c:48-57 | the machine runs through trailing zeros to the end of the text and changes nothing |
| `FinshMachine.Vm.BinDword` | components/finsh/finsh_ops.c:27-280 | the binary opcodes in place: by its byte, each takes two words off the stack and leaves the one word C asks for, exactly where C defines it |
| `FinshMachine.Vm.BitwiseDword` | components/finsh/finsh_ops.c:230-236 | the complement opcode in place: every bit of the top word is flipped |
| `FinshMachine.Vm.StDword` | components/finsh/finsh_ops.c:413-420 | the store opcode in place |
| `FinshMachine.Vm.PopArguments` | components/finsh/finsh_ops.c:442-449 | the call opcode collects the arguments in the order they were pushed |
| `FinshMachine.Vm.Call` | components/finsh/finsh_ops.c:429-554 | the call opcode pops arguments and function and pushes the result |
| `FinshMachine.Vm.Run` | components/finsh/finsh_vm.c:43-57 | the fetch and execute loop computes the execution function and ends because pc grows |
| `FinshNodes.TypeCheck` | components/finsh/finsh_compiler.c:741-883 | the in-place checker turns the node table of a tree into that of the annotated tree and touches no other slot |
| `FinshNodes.Emitter.Compile` | components/finsh/finsh_compiler.c:28-739 | the in-place generator appends exactly the code of the tree to the text |
| `FinshNodes.CountSiblings` | components/finsh/finsh_compiler.c:272-281 | the argument count of a call is the length of its argument list |
| `FinshShell.CompilerRun` | components/finsh/finsh_compiler.c:885-919 | clear, check and compile leave the code followed by zeros in the text segment and report failure exactly when a node is rejected |
| `FinshParser.AssignDone` | components/finsh/finsh_parser.c:426-449 | precedence parsing inverts linearisation: the tokens of every tree that needs no parentheses parse to that tree, with the first token not consumed replayed |
| `FinshParser.BinDone` | components/finsh/finsh_parser.c:451-652 | the same for each of the left-associative binary levels |
| `FinshParser.CastDone` | components/finsh/finsh_parser.c:659-692 | the same for the cast level |
| `FinshParser.PrefixDone` | components/finsh/finsh_parser.c:694-740 | the same for prefix operators |
| `FinshParser.ParamsDone` | components/finsh/finsh_parser.c:848-879 | the same for argument lists |
| `FinshParser.ProgramDone` | components/finsh/finsh_parser.c:900-978 | the same for a whole line of statements |
| `FinshRejects.CastFails` | components/finsh/finsh_parser.c:659-692 | a left parenthesis where an operand must start always ends in an error, because it is taken for a cast |
| `FinshRejects.ParenthesesRejected` | components/finsh/finsh_parser.c:900-978 | a line in which the parser gets to a left parenthesis that follows no operand ends in an error, wherever it stands; the one exception stands behind a semicolon after an empty statement |
| `FinshRejects.ProgramSticky` | components/finsh/finsh_parser.c:900-978 | an error is never taken back: a line without one at the end had none at any statement |
| `FinshTokens.AssignPaid` | components/finsh/finsh_parser.c:426-879 | an expression read without an error has taken a token for each of its nodes, save the zero that a prefix minus makes, and no semicolon |
| `FinshTokens.AssignBegun` | components/finsh/finsh_parser.c:694-740 | the first token of an expression read without an error shows on the way down to the leftmost leaf of its tree |
| `FinshTokens.FirstLost` | components/finsh/finsh_parser.c:948-974 | an expression whose first token is skipped is read as itself only if that token is the zero of a minus, as in 0-x |
| `FinshTokens.StripSame` | components/finsh/finsh_parser.c:710-712 | 0-x and -x have the same tree, but for the kind of the zero literal |
| `FinshEmpty.KeptParsed` | components/finsh/finsh_parser.c:900-978 | the statements the parser finds in a line with empty statements in it, token by token |
| `FinshEmpty.NoMore` | components/finsh/finsh_parser.c:900-978 | it never finds more statements than the line has |
| `FinshEmpty.EmptyStatementsIff` | components/finsh/finsh_parser.c:948-974 | for every line of statements that fit: it is read as all of its statements, up to the kinds of literals and without an error, if and only if behind the first one each empty statement comes in front of another one, at the end of the line, or in front of a zero that can be left out |
| `FinshEmpty.LostStatement` | components/finsh/finsh_parser.c:948-974 | the line 1;;2; is read as 1; alone, without an error |
| `FinshShell.PlainStages` | components/finsh/finsh_compiler.c:28-919 | neither the type check nor the code depends on the kinds of literals |
| `FinshShell.HarmlessLineCorrect` | components/finsh/shell.c:195-235 | such a line does what evaluating its statements directly does |
| `FinshShell.GroupingRejected` | components/finsh/shell.c:195-235 | a line with a parenthesis that groups is answered with a parse error and nothing runs |
| `FinshLimits.LineReadIff` | components/finsh/finsh_parser.c:426-978 | a line of statements that need no parentheses is read without an error if and only if every name in it has a symbol and sixteen nodes are enough for it |
| `FinshLimits.AssignFails` | components/finsh/finsh_parser.c:426-879 | an expression with a name that has no symbol, or for which too few nodes are left, is never read without an error |
| `FinshLines.LineRefused` | components/finsh/shell.c:195-235 | such a line is answered with a parse error and nothing runs |
| `FinshReader.Reader.ProcAssign` | components/finsh/finsh_parser.c:426-449 | the in-place parser builds in the node table the tree that the parse function returns |
| `FinshReader.Reader.ProcBinary` | components/finsh/finsh_parser.c:451-652 | the same for the binary levels and their loops |
| `FinshReader.Reader.ProcUnary` | components/finsh/finsh_parser.c:694-740 | the same for prefix operators |
| `FinshReader.Reader.ProcPostfix` | components/finsh/finsh_parser.c:742-796 | the same for postfix operators and calls |
| `FinshReader.Reader.ProcPrimary` | components/finsh/finsh_parser.c:798-846 | the same for identifiers, literals and parentheses |
| `FinshReader.Reader.ProcParamList` | components/finsh/finsh_parser.c:848-879 | the same for the sibling chain of arguments |
| `FinshReader.Reader.MakeSysNode` | components/finsh/finsh_parser.c:881-898 | an operator node gets its operands as child and sibling, or fails when the table is full |
| `FinshReader.Reader.Allocate` | components/finsh/finsh_node.c:30-47 | a node is the next free slot of the table, or none after sixteen |
| `FinshReader.Reader.ParserRun` | components/finsh/finsh_parser.c:900-978 | the statement loop, with its error and end conditions |
| `SmallHeap.Heap.constructor` | src/mem.c:168-215 | the initial heap is one free block before the end marker |
| `SmallHeap.Heap.PlugHoles` | src/mem.c:124-158 | merging with both neighbours keeps the tiling, the links and the account, and leaves no two free neighbours |
| `SmallHeap.Heap.FirstFit` | src/mem.c:261-281 | the scan finds the lowest fitting block from lfree on, or there is none |
| `SmallHeap.Heap.Malloc` | src/mem.c:229-353 | whole heap invariant kept; NULL if and only if nothing fits; the lowest fitting block is taken; it has the requested size, rounded, unless what is left is too small for a block; only that block becomes live; lfree stays the lowest free block; the peak is the most ever used |
| `SmallHeap.Heap.Free` | src/mem.c:482-535 | the block leaves the live set, nothing else does, and the whole heap invariant is kept |
| `SmallHeap.Heap.Shrink` | src/mem.c:408-432 | a shrunk block keeps its place; lfree stays the lowest free block if and only if it lay before the block or was its free neighbour |
| `SmallHeap.Heap.Realloc` | src/mem.c:363-447 | every case of realloc: same, shrunk in place, moved with its bytes, or refused; no other live block changes a byte; refused exactly if rt_malloc refuses |
| `SmallHeap.Apart` | src/mem.c:261-331 | live blocks never overlap and stay inside the heap |
| `SmallHeap.LayoutDetermined` | src/mem.c:124-158 | the block layout, the free blocks and used_mem are a function of the live blocks |
| `SmallHeap.RefusalMeansNoRoom` | src/mem.c:261-281 | a refusal means that every free block is too small, but for an exact fit touching the end of the heap |
| `SmallHeap.SplitTiled` | src/mem.c:283-298 | cutting a block keeps headers tiling the heap with exact links |
| `SmallHeap.MergeTiled` | src/mem.c:135-157 | merging two blocks keeps headers tiling the heap with exact links |
| `SlabPages.CanonicalUnique` | src/slab.c:285-316 | two canonical page lists of the same free pages are equal |
| `SlabPages.PageList.Alloc` | src/slab.c:235-268 | the result is the lowest page from which enough pages in a row are free, NULL if and only if there is none; the list stays canonical |
| `SlabPages.PageList.Free` | src/slab.c:271-321 | exactly the given pages become free and the list stays sorted, disjoint and coalesced |
| `SlabPages.Restore` | src/slab.c:235-321 | taking and giving back pages restores the identical list |
| `SlabPages.FirstFitIsLowest` | src/slab.c:245-263 | the first run long enough starts at the lowest page with room |
| `SlabZones.SmallestClass` | src/slab.c:400-457 | a request gets the smallest of the 72 size classes that holds it |
| `SlabZones.ClassRoundTrip` | src/slab.c:400-457 | a rounded size is its own class |
| `SlabZones.Waste` | src/slab.c:133-142 | rounding wastes fewer than eight bytes or less than an eighth of the request |
| `SlabZones.OffsetShape` | src/slab.c:625-635 | the chunk array starts behind the header, on a multiple of 8 and of a power-of-two chunk size, at the first such place |
| `SlabZones.ThreeChunks` | src/slab.c:625-640 | every zone holds at least three chunks, all inside the zone, and no further one fits |
| `SlabZones.NoneLeft` | src/slab.c:639-639 | behind the header of a zone no more chunks fit than its capacity, for every chunk size |
| `SlabZones.PickZoneSize` | src/slab.c:371-376 | the zone size is 32, 64 or 128 KB, by the size of the heap |
| `SlabSteps.FullyFree` | src/slab.c:867-867 | the chunks of a zone in use are its capacity less the count of free ones; so all are free if and only if none is in use |
| `SlabSteps.ChunkTaken` | src/slab.c:540-578 | handing out a chunk keeps the whole invariant and adds exactly that chunk to the live blocks |
| `SlabSteps.ChunkGiven` | src/slab.c:843-859 | taking a chunk back keeps the whole invariant and removes exactly that chunk |
| `SlabSteps.LargeTakenKeeps` | src/slab.c:495-521 | a large block keeps the page partition, the memusage records and the account |
| `SlabSteps.LargeGivenKeeps` | src/slab.c:812-834 | giving a large block back does so too |
| `SlabSteps.ZoneAddedKeeps` | src/slab.c:597-620 | cutting a zone from the pages keeps the partition and records every page of the zone |
| `SlabSteps.ZoneOpenedKeeps` | src/slab.c:622-656 | opening a zone puts it on its class list with its first chunk live |
| `SlabSteps.ZoneRetiredKeeps` | src/slab.c:867-885 | moving a fully free zone to the idle zones loses no live block |
| `SlabSteps.ZoneReleasedKeeps` | src/slab.c:888-911 | giving the pages of an idle zone back keeps the partition |
| `SlabHeap.LiveApart` | src/slab.c:495-656 | blocks in use never overlap, within a zone or across zones and large blocks |
| `SlabHeap.LiveNotFree` | src/slab.c:495-656 | no byte of a block in use lies on a free page or in the memusage table |
| `SlabHeap.LiveNotHeader` | src/slab.c:169-183 | no byte of a block in use lies in a zone header |
| `SlabHeap.Lookup` | src/slab.c:810-841 | the memusage lookup of rt_free finds the owning zone or large block of every block in use |
| `SlabHeap.PowerAligned` | src/slab.c:152-153 | power-of-two blocks up to the page size are aligned to their size |
| `SlabHeap.AlignedIff` | src/slab.c:625-641 | a power-of-two chunk is aligned if and only if the address of its zone is a multiple of its size |
| `SlabHeap.PowerAlignedIff` | src/slab.c:152-153 | every power-of-two block in use, of every size, is aligned to its size if and only if the first page of its zone or of its pages is |
| `SlabHeap.PagesAlignedIff` | src/slab.c:495-505 | a block of n pages is aligned to its size if and only if its first page number is a multiple of n |
| `SlabHeap.MisalignedRequest` | src/slab.c:495-521 | on every heap of 3 to 1024 pages that starts at page 2 a first request of 8192 bytes is served at page 3, which is not a multiple of 8192 |
| `SlabHeap.NextChunkKeeps` | src/slab.c:545-569 | free chunk count equals never-used chunks plus free list, so a zone that counts free chunks has one to give |
| `SlabHeap.ZoneIsFilled` | src/slab.c:639-641 | a zone in use has no room for one more chunk |
| `SlabHeap.Slab.RefusalMeansFull` | src/slab.c:540-607 | a chunk is refused only if each zone of its class has all its chunks in use and no room for another |
| `SlabHeap.Slab.constructor` | src/slab.c:343-394 | the initial heap: the memusage table at the front, all other pages free, nothing live |
| `SlabHeap.Slab.Malloc` | src/slab.c:475-669 | whole invariant kept; NULL if and only if nothing can serve the request; the new block was not in use, is large enough, and is the only change to the live blocks; a small request gets a chunk of the first zone on the list of its class, or else the first chunk of an idle zone or of one cut from the lowest pages with room; a large one gets the lowest pages with room; a power of two from 8 on is granted exactly; used_mem is the total of the live blocks and max_mem its peak |
| `SlabHeap.Slab.Free` | src/slab.c:777-917 | whole invariant kept; exactly the block leaves the live blocks; its zone is retired if and only if it became fully free and the class has another zone to allocate from |
| `SlabHeap.Slab.RetireZone` | src/slab.c:867-911 | a retired zone stays idle, or is released if two idle zones are kept already |
| `Rings.InsertAfterRing` | include/rtservice.h:49-56 | the four assignments of insert-after put the node right behind, in a ring with exact next and prev links |
| `Rings.InsertBeforeHead` | include/rtservice.h:64-71 | insert-before the list head appends |
| `Rings.RemoveRing` | include/rtservice.h:77-83 | remove closes the ring and leaves the node linked to itself |
| `Rings.InsertRemove` | include/rtservice.h:49-83 | inserting and removing a node restores the list |
| `Rings.EmptyIff` | include/rtservice.h:89-93 | the emptiness test is right |
| `Rings.ListInsertAfter` | include/rtservice.h:49-56 | the same on node objects, in place |
| `Rings.ListInsertBefore` | include/rtservice.h:64-71 | insertion before any node of a list, in place; before the head it appends |
| `Rings.ListRemove` | include/rtservice.h:77-83 | the same on node objects, in place |
| `MemHeap.Pool.constructor` | src/memheap.c:40-103 | one free block and the used tailer, nothing in use |
| `MemHeap.Pool.Search` | src/memheap.c:131-145 | the first block of the free list with room, or no free block has room |
| `MemHeap.Pool.Alloc` | src/memheap.c:115-221 | whole invariant kept (both lists exact, blocks tile the pool from its start to the tailer, free neighbours merged, available_size the free payload); the bytes returned lie inside the pool; NULL exactly if the rounded size is not below available_size or no free block has room; the block is the first of the free list with room, cut to the rounded size if the rest makes a block, and available_size drops by just what is gone; nothing else changes hands |
| `MemHeap.Pool.Free` | src/memheap.c:226-302 | whole invariant kept; exactly the block goes out of use; it goes to the head of the free list unless the free block in front takes it in, and the free block behind it leaves the list |
| `MemHeap.Pool.MergeLeft` | src/memheap.c:254-269 | merging with the block in front |
| `MemHeap.Pool.MergeRight` | src/memheap.c:272-289 | merging with the block behind, which leaves the free list |
| `MemHeap.TakenSplitKeeps` | src/memheap.c:153-191 | splitting a free block keeps the whole invariant |
| `MemHeap.TakenWholeKeeps` | src/memheap.c:192-209 | taking a free block whole keeps the whole invariant |
| `MemHeap.LiveApart` | src/memheap.c:115-221 | blocks in use do not overlap |
| `MemHeap.LiveInside` | src/memheap.c:60-96 | a block in use lies between the first header and the tailer |
| `MemHeap.Conserved` | src/memheap.c:115-302 | headers, bytes in use and available_size always add up to the size of the pool |
| `WaitList.Suspend` | src/ipc.c:80-118 | the insertion loop puts a thread at the end, or before the first less urgent one |
| `WaitList.SuspendedInOrder` | src/ipc.c:91-113 | a wait list stays ordered by priority and first come first served among equals |
| `ReadyBits.TableIsLowest` | src/scheduler.c:51-70 | the lookup table holds the lowest set bit of every byte but zero |
| `ReadyBits.LowestOfGroup` | src/scheduler.c:231-249 | the byte by byte search finds the lowest set bit of the group word |
| `ReadyBits.MarkedBits` | src/scheduler.c:333-336 | setting bits on insertion keeps a bit set exactly if its queue is not empty, in both layouts |
| `ReadyBits.ClearedBits` | src/scheduler.c:368-379 | clearing bits on removal does so too |
| `ReadyBits.HighestReady` | src/scheduler.c:226-257 | the bitmap search returns what a linear scan for the lowest non-empty queue returns, for 32 and for 256 priorities |
| `ThreadLists.UnlinkRep` | include/rtservice.h:77-83 | taking a node out by its own pointers takes its thread out of whatever list it was in and changes no other list |
| `ThreadLists.LinkBeforeRep` | include/rtservice.h:64-71 | inserting a lone node before the k-th member (or the head) of a list puts the thread there and changes no other list |
| `ThreadLists.LinkAfterRep` | include/rtservice.h:49-56 | the same for insertion behind a node |
| `ThreadLists.RepUnique` | include/rtservice.h:38-90 | the pointers determine all lists: the same links cannot stand for two sets of lists |
| `ThreadLists.InsertBeforeRuins` | include/rtservice.h:64-71 | inserting a node that is still in a list leaves links that stand for no lists whatever |
| `ThreadLists.InsertAfterRuins` | include/rtservice.h:49-56 | the same for insertion behind a node |
| `Queues.TakenKeeps` | src/scheduler.c:349-383 | rt_schedule_remove_thread on the links and the bitmap: the thread is in no list, every other list and the bitmap stay exact |
| `Queues.PutKeeps` | src/scheduler.c:309-343 | rt_schedule_insert_thread on the links and the bitmap: the thread is the last of its queue, the rest stays exact |
| `Threads.StepExact` | src/thread.c:35-630 | from every good state (links, bitmap, statuses, timers and pending calls consistent) each atomic section of every thread call leads to a good state if and only if it is lawful: no wake-up, timeout or priority change of a READY thread in the middle of a deletion; no first resume section for a thread that is READY by then; no second one for a thread that is being deleted, closed, timed or linked by then; no suspension of a closed thread; no burial of a linked one |
| `Threads.RunExact` | src/thread.c:35-630 | a run, with all calls cut into their sections and interleaved freely, stays good throughout if and only if every section of it is lawful |
| `Threads.OnePlace` | src/thread.c:524-630 | after every run of lawful sections a thread is READY and not being deleted if and only if it is in the ready queue of its current priority, it is on at most one list, no list holds it twice, and unless it is being deleted its timer runs if and only if it is suspended with a time |
| `Threads.LawfulKeeps` | src/thread.c:35-630 | where each lawful section puts each thread, as lists |
| `Threads.TickDuringDelete` | src/thread.c:311-338 | from every good state with a sleeping thread: deletion, tick between its first two sections, rest of the deletion leave a closed thread as the last of a ready queue |
| `Threads.TickReached` | src/thread.c:311-338 | such a run from the start of the system |
| `Threads.DeleteDuringResume` | src/thread.c:579-598 | from every good state between the two sections of a resume: a deletion there leaves a closed thread READY again |
| `Threads.DeleteReached` | src/thread.c:579-598 | such a run from the start of the system |
| `Threads.OverlappingResumes` | src/thread.c:562-598 | from every good state with two resumes of one thread past their tests: once both have done their first sections, the run does not stay good |
| `Threads.OverlapReached` | src/thread.c:562-598 | such a run from the start of the system |
| `Threads.SchedulePicks` | src/scheduler.c:216-299 | the scheduler picks the first thread of the most urgent queue: it is READY, is not being deleted and has no more urgent rival |
| `Threads.BlockedList` | src/ipc.c:80-118 | the suspension on an IPC object, walking the links by priority, leaves the wait list that rt_ipc_list_suspend promises |
| `ThreadCalls.CallsDo` | src/thread.c:35-630 | what each atomic section does to the thread it is about: its status, priority, timer and place in the lists, and the stage of its call; and that it does nothing to any other thread |
| `ThreadCalls.TimerRuns` | src/ipc.c:1537-1547 | a thread that blocks has its timer running afterwards if and only if the wait is timed; one that sleeps always has |
| `Scheduler.Kernel.constructor` | src/scheduler.c:126-153 | every list head linked to itself, no bit set, and that is a good state |
| `Scheduler.Kernel.ListRemove` | include/rtservice.h:77-83 | four pointer assignments in place; for all lists the links may stand for, the thread is in no list afterwards |
| `Scheduler.Kernel.ListInsertBefore` | include/rtservice.h:64-71 | four pointer assignments in place; for all lists, the thread stands before the node afterwards |
| `Scheduler.Kernel.ListInsertAfter` | include/rtservice.h:49-56 | four pointer assignments in place, behind a list head |
| `Scheduler.Kernel.InsertThread` | src/scheduler.c:309-343 | rt_schedule_insert_thread in place: the thread is the last of its queue and the bitmap exact |
| `Scheduler.Kernel.RemoveThread` | src/scheduler.c:349-383 | rt_schedule_remove_thread in place: the thread is in no list and the bitmap exact |
| `Scheduler.Kernel.FindPlace` | src/ipc.c:95-113 | the walk over the wait list finds the first less urgent thread |
| `Scheduler.Kernel.CreateThread` | src/thread.c:73-133 | rt_thread_init in place |
| `Scheduler.Kernel.StartThread` | src/thread.c:181-204 | rt_thread_startup in place, up to the call of rt_thread_resume |
| `Scheduler.Kernel.ResumeTested` | src/thread.c:571-577 | the test of rt_thread_resume |
| `Scheduler.Kernel.ResumeBegin` | src/thread.c:579-592 | the first section of rt_thread_resume in place; the state stays good if and only if it is lawful |
| `Scheduler.Kernel.ResumeEnd` | src/thread.c:594-598 | the second section in place; the state stays good if and only if it is lawful |
| `Scheduler.Kernel.SuspendTested` | src/thread.c:533-539 | the test of rt_thread_suspend |
| `Scheduler.Kernel.SuspendThread` | src/thread.c:541-551 | its section in place; the state stays good if and only if it is lawful |
| `Scheduler.Kernel.WakeThread` | src/thread.c:562-600 | rt_thread_resume with interrupts off in place; good if and only if lawful |
| `Scheduler.Kernel.TimeoutThread` | src/thread.c:607-630 | the expiry of a thread timer in place; good if and only if lawful |
| `Scheduler.Kernel.BlockOn` | src/ipc.c:80-118 | the suspension of the running thread on an IPC object in place, with or without a time: its timer runs afterwards if and only if the wait is timed |
| `Scheduler.Kernel.SleepThread` | src/thread.c:391-410 | rt_thread_sleep in place: its timer runs afterwards |
| `Scheduler.Kernel.YieldThread` | src/thread.c:348-380 | rt_thread_yield in place, with its test on the node pointers |
| `Scheduler.Kernel.ChangePriority` | src/thread.c:455-496 | the priority change in place; good if and only if lawful |
| `Scheduler.Kernel.ExitThread` | src/thread.c:35-66 | rt_thread_exit in place |
| `Scheduler.Kernel.DeleteBegin` | src/thread.c:315-319 | the first section of rt_thread_delete and rt_thread_detach in place |
| `Scheduler.Kernel.DetachTimerOf` | src/timer.c:132-151 | the second section, rt_timer_detach, which leaves the flag set |
| `Scheduler.Kernel.CloseThread` | src/thread.c:324-325 | the third section, the status |
| `Scheduler.Kernel.BuryThread` | src/thread.c:327-334 | the fourth section, onto the defunct list; good if and only if the node is alone |
| `Scheduler.Kernel.ReclaimThread` | src/idle.c:66-95 | the idle thread takes a closed thread off the defunct list |
| `Scheduler.Kernel.Reschedule` | src/scheduler.c:216-299 | with the scheduler unlocked the head of the most urgent queue becomes the current thread |
| `Timer.StartedExact` | src/timer.c:221-297 | a timer started at tick t fires at t + init_tick and then, if periodic, every init_tick ticks, and at no other time, however often the 32-bit tick wraps |
| `Timer.SetExact` | src/timer.c:339-364 | a timer at rest, set to n ticks and to one shot or periodic, fires n ticks after its start and then, if periodic, every n ticks |
| `Timer.SetRunning` | src/timer.c:339-364 | set while it runs, it fires at the tick it was due at and by its new setting from there on |
| `Timer.RunsExact` | src/timer.c:373-432 | the same for any running timer over every run of calls and ticks |
| `Timer.LateStartExact` | src/timer.c:229-236 | reading the tick before interrupts are off does no harm if the due tick has not passed at insertion |
| `Timer.LateStartFirstIff` | src/timer.c:229-274 | if it has passed, the timer stands first in the list if and only if the first other timer is due less than half the tick range after it |
| `Timer.LateStartFires` | src/timer.c:373-432 | and then it fires at the next tick, once, and goes on from there |
| `Timer.StoppedSilent` | src/timer.c:303-327 | a stopped timer stays silent |
| `Timer.RestsSilent` | src/timer.c:373-432 | a timer never fires before it is started |
| `Timer.TickWindow` | src/timer.c:258-262 | the 32-bit comparison orders ticks less than half the range apart |
| `Timer.SpotIsByDue` | src/timer.c:255-274 | the insertion loop puts the timer where its due tick belongs |
| `Timer.StepKeeps` | src/timer.c:221-432 | every call and every tick keeps the list sorted by due tick, exact with the flags, and free of overdue timers |
| `Timer.FiredKeeps` | src/timer.c:397-420 | firing the head keeps that if its callback does not leave its own timer restarted, and makes progress |
| `Timer.RestartBreaks` | src/timer.c:399-420 | if it does, the list is always broken: the timer is inserted while it is listed, or listed and not flagged |
| `Timer.RestartExample` | src/timer.c:399-420 | such a callback: stop, then start |
| `Timer.CheckFires` | src/timer.c:386-424 | a timer due now fires in the check, exactly once |
| `Timer.HardTimers.StartTimer` | src/timer.c:221-297 | rt_timer_start in place |
| `Timer.HardTimers.StopTimer` | src/timer.c:303-327 | rt_timer_stop in place |
| `Timer.HardTimers.CheckTimers` | src/timer.c:373-432 | rt_timer_check in place; it ends because callbacks only add timers due later |
| `Timer.HardTimers.TickIncrease` | src/clock.c:73-95 | the tick counter wraps and the timers are checked |
| `Mailbox.NoWakeupLost` | src/ipc.c:1347-1641 | in every interleaving, if a receiver is blocked there are no more mails than receivers already woken, and the same for senders and free slots; so with nobody woken a blocked receiver means empty and a blocked sender full; both lists are served in order |
| `Mailbox.FirstInFirstOut` | src/ipc.c:1433-1440 | in every run the mails taken are the mails put, in order, and the rest is in the mailbox |
| `Mailbox.StepKeeps` | src/ipc.c:1347-1641 | every atomic section keeps the invariant |
| `Mailbox.StepOrdered` | src/ipc.c:80-118 | every atomic section keeps both wait lists in order |
| `Mailbox.StepAnswers` | src/ipc.c:1347-1641 | what each section answers and whom it wakes: a mail put or taken wakes just the first thread of the other list, a full or empty mailbox refuses at once or blocks with its time running if it has one, a timeout and a reset wake with their errors |
| `Mailbox.Box.Store` | src/ipc.c:1433-1440 | storing into the ring appends to the sequence it stands for |
| `Mailbox.Box.Fetch` | src/ipc.c:1576-1584 | fetching from the ring takes the first |
| `Mailbox.Box.SendSection` | src/ipc.c:1365-1458 | one turn of the sending loop in place |
| `Mailbox.Box.ReceiveSection` | src/ipc.c:1506-1605 | one turn of the receiving loop in place |
| `Mailbox.Box.Continue` | src/ipc.c:1413-1431 | what a woken thread does |
| `Mailbox.Box.TimedOut` | src/thread.c:607-627 | a timeout takes the thread off its list |
| `Mailbox.Box.ResetBox` | src/ipc.c:1624-1641 | reset empties the mailbox and wakes everybody with an error |
| `Mutex.PriorityInheritance` | src/ipc.c:615-810 | in every reachable state: free, unowned and not held coincide; waiters imply an owner who does not wait and runs at least as urgently as each of them; everyone else runs at its own priority; the owner's own priority is the one saved; the waiters are queued by priority and arrival and the first has the most urgent priority of all |
| `Mutex.HeldByOne` | src/ipc.c:615-818 | over every run: a thread that has been granted more takes, hand-offs included, than it has released is the owner, hold is the difference, and no two threads are ever inside |
| `Mutex.Answers` | src/ipc.c:615-818 | over every run: a take is granted if and only if nobody else is inside, else refused at once or waits with its time running if it has one; a release is accepted if and only if the caller is inside |
| `Mutex.StepKeeps` | src/ipc.c:615-810 | take, nested take, release, hand-off and timeout keep that and keep the waiters ordered by priority and arrival |
| `Mutex.HandOffInheritsIff` | src/ipc.c:783-800 | a hand-off keeps inheritance if and only if the waiter that gets the mutex is the most urgent |
| `Mutex.MutexObject.TakeSection` | src/ipc.c:615-731 | rt_mutex_take in place |
| `Mutex.MutexObject.ReleaseSection` | src/ipc.c:740-818 | rt_mutex_release in place: a nested release gives one level back and keeps the mutex, the last one hands it over |
| `Mutex.MutexObject.TimeoutSection` | src/thread.c:607-627 | the timeout of a waiter in place |
| `EventSet.OfferIsReceive` | src/ipc.c:985-1026 | each hand-over in the send loop gives the waiter what its own immediate receive would, and leaves the same set |
| `EventSet.NobodyForgotten` | src/ipc.c:979-1027 | after a send no thread waits whose condition the set satisfies |
| `EventSet.NobodyLost` | src/ipc.c:979-1027 | every waiter either still waits or was given its flags |
| `EventSet.NeverStarved` | src/ipc.c:959-1180 | over every run of send, receive, timeout and reset nobody waits for what is there |
| `EventSet.ReceiveAnswers` | src/ipc.c:1078-1101 | an AND wait is satisfied if and only if all its flags are set, an OR wait if and only if one is; it gets those of its flags that are set, and with CLEAR just its flags are cleared |
| `EventSet.SendServes` | src/ipc.c:979-1027 | in a send each waiter that is served was satisfied, got its flags that were set, and the flags gone are those of served waiters with CLEAR |
| `EventSet.StepDoes` | src/ipc.c:959-1180 | what each section does to the flags, to the waiting threads and to what they are told |
| `EventSet.NobodyWaitsInVain` | src/ipc.c:959-1180 | over every run: the condition of a thread that waits, flag by flag, is not met |
| `EventSet.EventObject.SendSection` | src/ipc.c:959-1041 | the send loop in place equals immediate receives by the waiters in list order |
| `EventSet.EventObject.ReceiveSection` | src/ipc.c:1053-1125 | rt_event_recv in place |
| `MessageQueue.RunRefines` | src/ipc.c:1849-2182 | over every interleaving of the split sections cells are conserved, both lists and head, tail and entry stay exact, and the queue behaves like a sequence |
| `MessageQueue.StepKeeps` | src/ipc.c:1868-2182 | every section keeps every cell in exactly one place |
| `MessageQueue.StepRefines` | src/ipc.c:1868-2130 | send appends, urgent prepends, receive pops, each at its linking section, and nothing else changes the queue |
| `MessageQueue.FlightSafe` | src/ipc.c:1883-1886 | a message being copied is not disturbed by other threads |
| `MessageQueue.SentBytes` | src/ipc.c:1883-1904 | what a send links into the queue is a message of full size that begins with the bytes sent |
| `MessageQueue.GotBytes` | src/ipc.c:2108-2132 | a receive gets the first message, and if it asks for at least as many bytes as were sent, those bytes |
| `QueueWaits.NoWakeupLost` | src/ipc.c:1849-2182 | in every interleaving of senders, receivers, timeouts and resets, while a receiver is blocked the messages in the queue do not outnumber the receivers already woken for one; the blocked ones are listed by priority or arrival |
| `QueueWaits.StepKeeps` | src/ipc.c:1849-2182 | every section, the waking of a receiver in the linking section included, keeps cells, links and wait list consistent |
| `QueueWaits.StepAnswers` | src/ipc.c:1849-2185 | what each section answers and whom it wakes: a receiver takes the first message, or returns, or waits with its time running if it has one; linking a cell wakes just the first blocked receiver; a timeout and a reset wake with their errors |
| `MessageQueue.Conserved` | src/ipc.c:1868-2182 | no section gains or loses a cell |
| `MessageQueue.Queue.constructor` | src/ipc.c:1671-1711 | all cells on the free list |
| `MessageQueue.Queue.ReserveCell` | src/ipc.c:1867-1881 | the first section of a send; full exactly if no cell is free |
| `MessageQueue.Queue.FillCell` | src/ipc.c:1883-1886 | the copy between the sections of a send, with interrupts on, in place |
| `MessageQueue.Queue.LinkCell` | src/ipc.c:1888-1904 | the second section of a send and of an urgent send |
| `MessageQueue.Queue.PopCell` | src/ipc.c:2108-2121 | the section that takes the first message |
| `MessageQueue.Queue.RecycleCell` | src/ipc.c:2123-2132 | the copy out and the section that frees the cell |
| `MessageQueue.Queue.ResetQueue` | src/ipc.c:2158-2185 | reset moves every queued cell to the free list |
| `RwLock.Exclusion` | components/pthreads/pthread_rwlock.c:95-265 | in every run a writer that holds the lock holds it alone, and then the count is -1 |
| `RwLock.StepKeeps` | components/pthreads/pthread_rwlock.c:95-265 | the count is -1 exactly with one writer and no reader, else the number of readers; the wait counters are exact |
| `RwLock.StepAnswers` | components/pthreads/pthread_rwlock.c:95-265 | what each section answers, by who holds and waits: a request is granted if and only if nothing stands in its way (a reader: no writer holds or waits; a writer: nobody holds), else a try form is told it is busy and any other waits; an unlock wakes a writer, all readers or nobody, exactly as stated |
| `RwLock.AwakeExact` | components/pthreads/pthread_rwlock.c:95-240 | every section keeps it that while the lock is free and writers wait one of them is awake, and while no writer holds it or waits every waiting reader is awake, except for the error return of a waiting writer in exactly stated cases |
| `RwLock.FailedWriterIff` | components/pthreads/pthread_rwlock.c:178-191 | those cases: it was the last one waiting and readers sleep behind it, or it was the only writer awake |
| `RwLock.AwakeRuns` | components/pthreads/pthread_rwlock.c:95-240 | in a run from the start that holds at every point if and only if no error return in the run is one of those cases |
| `RwLock.ReaderLeftAsleep` | components/pthreads/pthread_rwlock.c:168-191 | from the start: a timed write lock gives up behind a reader, and a second reader sleeps on although it may share the lock |
| `RwLock.RwLockObject.ReadSection` | components/pthreads/pthread_rwlock.c:95-166 | the three forms of read lock in place |
| `RwLock.RwLockObject.WriteSection` | components/pthreads/pthread_rwlock.c:168-265 | the three forms of write lock in place |
| `RwLock.RwLockObject.Woken` | components/pthreads/pthread_rwlock.c:105-116 | the return from a wait in place |
| `RwLock.RwLockObject.UnlockSection` | components/pthreads/pthread_rwlock.c:212-240 | unlock in place |
| `Division.Unique` | libcpu/ia32/__udivsi3.c:36-49 | what the loops maintain determines quotient and remainder |
| `Division.Justify` | libcpu/ia32/__udivsi3.c:30-34 | the first loop: the denominator times a power of two, top bit set |
| `Division.DivideModulo` | libcpu/ia32/__udivsi3.c:20-49 | both loops end and return quotient and remainder, for every 32-bit numerator and denominator (0 for a zero denominator) |

## Left out

Parts of the repository without a model:

- Semaphores, memory pools, devices, modules and ELF loading, the object container, hooks, console and logging; of the idle thread's work, all but taking a thread off the defunct list.
- Soft timers and the timer thread; `rt_tick_set`; the time slice part of `rt_tick_increase`.
- `rt_realloc` and `rt_calloc` of the slab heap, `rt_calloc` of the small heap: copies on top of malloc and free.
- The finsh tokenizer, type keywords, declarations, character, string and NULL literals, BYTE and WORD operands and opcodes, the finsh heap and its collector.
- Initialisation, destruction and attributes of reader-writer locks, and the inside of condition variables (pthread_cond.c); barriers and spin locks.
- Context switching, board support, drivers, file systems, network and GUI code.

Assumptions and simplifications of the parts that are modelled:

- FinshShell.LineCorrect: the 128-byte bound on the text segment is a condition, because the source does not check it; variables are taken to lie outside the machine's own arrays; a C-undefined operator result (division by zero, oversized shift) is an undefined outcome on both sides.
- SmallHeap.Heap.Malloc: requires a heap of at least 16 bytes, because below that the bound of the source's loop wraps around and the loop does not end; request sizes do not wrap when aligned; headers and payload bytes are separate maps, so that a header write cannot touch payload is built in (that they lie apart is SmallHeap.Apart); the prev field of the end marker is not part of the invariant.
- SlabHeap.Slab.Malloc: a call is one atomic section, although the source gives the heap semaphore up around each call of the page allocator; lists of zones, chunks and page runs are sequences, so the in-band next pointers of these lists are not modelled; addresses do not wrap.
- SlabHeap.Slab.constructor: takes whole pages; the early return for an empty address range is not modelled.
- MemHeap.Pool.Alloc: the return statement of the source stands inside a debug macro, so the model assumes RT_DEBUG on; magic numbers and the pool pointer in the headers are not modelled.
- Threads.StepExact: a thread blocks, sleeps, yields or exits only while it runs, that is while it is READY and not being deleted (with the scheduler locked the source lets a suspended thread run on); the front of rt_thread_startup, up to the call of rt_thread_resume, is one section; the priority masks in a thread are those of its current priority; a thread once closed stays known, its memory is not reused; the timer list is a set here, its order is the subject of Timer.
- Scheduler.Kernel.TimeoutThread: that the timer is due is the subject of Timer; here a running timer may expire at any time.
- Timer.StartedExact: requires 1 <= init_tick < RT_TICK_MAX/2 for every timer and callbacks that do not restart their own timer; a zero-length periodic timer would keep the check from ending. Calls are atomic. In the source rt_timer_start tests the flag and reads the tick before it turns interrupts off, and rt_timer_stop clears the flag after it has turned them on again; the late tick is treated by LateStartExact, LateStartFirstIff and LateStartFires, the two accesses to the flag are not (a callback that stops and starts the timer in the gap of rt_timer_stop leaves it listed and unflagged).
- Timer.RestartBreaks: the timer list is a sequence here, so an insertion of a listed timer shows as a second occurrence; in the source's ring it ruins the links, as ThreadLists.InsertBeforeRuins shows for the same function.
- Timer.HardTimers.StopTimer: clears the flag in the section that takes the timer off the list.
- Timer.HardTimers.TickIncrease: without the time slice of the running thread.
- Mailbox.NoWakeupLost: waits are blocked threads and timeouts may strike at any time, so the arithmetic on the remaining ticks is an input of the section; threads are not deleted while they wait; priorities do not change from outside.
- Mutex.PriorityInheritance: one mutex, waiters queued by priority, hold count below 256, no priority changes from outside.
- EventSet.NeverStarved: a word of flags is the set of its bit numbers.
- MessageQueue.RunRefines: covers the cells and the messages; blocked receivers and their wake-ups are added in QueueWaits, on values.
- MessageQueue.Queue.LinkCell: the method does not wake a receiver; QueueWaits.Step does, in the same section.
- MessageQueue.Queue.PopCell: the method does not wait on an empty queue; QueueWaits.Step does.
- MessageQueue.Queue.ResetQueue: the method does not wake the waiting threads; QueueWaits.Step does.
- RwLock.Exclusion: unlocks are lawful, that is by a holder; a wait may end at any time. A recursive read lock counts as a second request.
- RwLock.AwakeExact: condition variables are as POSIX describes them, so that a broadcast reaches every waiter; the one here, built on a semaphore, leaves a single token for waiters that have not blocked yet.
- Division.DivideModulo: the trap on a zero denominator is its return value 0.
