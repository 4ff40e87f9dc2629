# Trees on tiny pointers: a model and its proofs

The repository stores the links of trees as one-byte *tiny pointers*. A tiny pointer means something only together with two
hash values of the edge that owns it: it says which of two buckets to look in and at which slot. This project models the
parts that make such links safe to use, and proves them correct for arbitrary hash functions.

| part | modules | main results |
|---|---|---|
| bucket index and pointer encoding | `Primes`, `PrimeTable`, `TableSizing`, `TinyPtrs` | exactly which table rows make multiply-and-shift division exact, and that all 814 shipped rows do; how many buckets a table gets; encoding is a bijection that avoids the two reserved words |
| slot allocator, one thread | `DerefTables` | the free list chained through the slots and the live objects always partition each bucket |
| slot allocator, any number of threads | `AllocModel`, `AllocInvariant`, `AllocSteps`, `AllocTheorems`, `AllocAlone`, `AllocWrap` | in every interleaving no slot is handed out twice, placement is two-choice at one common instant, the counters are exact at rest; alone every operation ends and does what the sequential one does; what an 8-bit version is worth, with an execution in which it is not enough |
| adaptive radix tree | `ArtShape`, `ArtNodes`, `ArtTables`, `ArtPhysical`, `ArtInvariant`, `ArtLookup`, `ArtInsert`, `ArtReady`, `ArtTrees`, `ArtTheorems` | lookup and insert refine a map; an insert fails exactly if a node it needs has no slot; every pointer resolves to its own live slot; the shape depends on the key set alone; no slot is lost, and its cleanup frees exactly what no announced epoch can reach |
| reclamation, one thread | `LabelChains`, `DeletionLists`, `ArtEpoch` | the linked labels and the spare ones stay apart and acyclic; which entries a cleanup frees, each exactly once |
| lock coupling and epochs, any number of threads | `OlcModel`, `OlcInvariant`, `OlcSteps`, `OlcWrites`, `OlcTheorems`, `OlcReclaim`, `OlcCleanup` | every node is freed at most once, not while a guarded reader holds it, and none is forgotten; upgrades see the current tree; locks are left behind exactly by inserts that ran out of space |
| the concurrent tree on its tables | `OlcSlots` | with slots used again and any hash functions, every edge resolves to a slot of its child alone; no slot a guarded reader holds is passed to free; free gets only what was allocated, once |
| concurrent lookups and inserts | `OlcKeys`, `OlcView`, `OlcKeyed`, `OlcKeyedSteps`, `OlcLinear`, `OlcAlone` | in every interleaving the tree is the map of the stored keys, with the one shape these keys have; each lookup and each insert takes effect at one moment of its run; left alone each ends within a bound, with the map's answer |
| Aho-Corasick automaton | `AhoSpec`, `AhoBfs`, `AhoCorasick` | links are the longest suffixes; search equals the naive list of matches; total link steps are linear |
| tagged tries | `TrieShape`, `TrieStores`, `TinyTries2`, `TinyTries` | both refine a set of words; the node count is a function of the words |
| node-count histogram | `NodeCounts` | the recursive range scan counts the prefixes by number of next bytes; it predicts the bulk-created trie |

## How the model is laid out

Code that updates fields is a class with those fields (`DerefTable`, `ArtDerefTables`, `DeletionList`, `Epoche`, `Tree`,
`Automaton`, `TrieStore`, `TinyTrie2`, `TinyTrie`); its loops are loops. `Valid()` ties the real fields to ghost fields that
say what they mean: `DerefTable.objects` is the map from slots to live objects, `ArtDerefTables.store` the same for four
tables, `Tree.v` lists where each key's leaf and each inner node lives, `Automaton.nodes` names nodes by path. A key path
names an inner node of the radix tree; its edges go to leaves or to deeper inner nodes. Where the source throws because both
candidate buckets are full, a method returns `None` or `ok == false`, and its contract says that this is so exactly then.

The two concurrent parts are transition systems. One step of a thread is one atomic access of the source. `AllocModel` has a
program counter for each load, store and compare-and-swap of `allocate_impl` and `free`
(src/tiny_ptr/deref_table.h:396-478, src/tiny_ptr/sequence_lock.h:81-242) and lets callers write into slots they own at any
time, so an optimistic reader may see garbage. `OlcModel` has one for each version check, upgrade, pointer change, mark and
epoch access of the tree (src/art/tiny_art/Tree.cpp:29-96, 537-682; src/art/tiny_art/N.cpp:25-45, 85-125, 262-287, 333-360;
src/art/tiny_art/Epoche.cpp:65-112); `Program` lists, for each kind of insert, what is done under lock in the order of the
source. `Run` is a sequence of steps by any threads in any order; theorems are about every state of every run.

`OlcSlots` gives every node of `OlcModel` a slot and a pointer from tables that may hand a slot out again as soon as it was
freed, and deletion lists that keep pointer and hashes. An insert throws there exactly where no slot is to be had.

`OlcKeys` adds the keys to `OlcModel` without changing its steps. Each node has a tag that never changes: its path, where
its compressed prefix begins, a leaf's value. Each thread has an operation, and `Allowed` says which of the scheduler's
choices its key asks for: the optimistic or the pessimistic comparison with the bytes a node stores, a leaf loaded for longer
prefixes, the byte to follow, the bytes of a split. `stored` gains a key at the step that moves the anchor's pointer, and
`TreeIsTheMap` shows that it is what following the pointers finds.

Points where the code and what is said about it differ; the model follows the code:

- A row of the prime table is usually justified by an excess `e` with `0 < e <= 2^shift`. Nine of the 814 rows
  (for example src/util/primes.hpp:781) have a larger excess. `DivIsExact` gives the exact condition, a check on one worst
  argument; `RowBeyondUsualBound` proves such a row exact all the same.
- src/trie/tiny_trie_2.h:12-13 lists deleting empty nodes as still to be done; src/trie/tiny_trie_2.cpp:61-80 does it.
- The documentation of `allocate` (src/tiny_ptr/deref_table.h:285-296) says it aborts when there is no space; it throws.
- The 8-bit lock version may come back to an old value. `WrapHandsOutTwice` gives, for every bucket size from three on, an
  execution of two threads that ends with a slot taken away from the caller who has it: one thread stops before its upgrade
  while the other takes the lock 128 times. What the pop needs is `Sound`: head and successor read before are the current
  ones. Slots are safe in an execution as long as that holds whenever a lock is won (`EveryReachableState`), and the first
  time it does not a bucket gets out of order (`FirstUnsoundStep`). It holds if versions with equal eight bits are equal
  whenever a lock is won (`GenuineRunsAreSound`); only the results about two choices need this of the validation as well.
- An insert that throws because a table is full unlocks nothing (src/art/tiny_art/Tree.cpp:571-606,
  src/art/tiny_art/N.cpp:96-119). `NoLockLeftBehind` says that these are the only locks ever left behind, `LeftForGood` that
  they stay, and `RootLeftLocked` gives a run in which an insert leaves the root locked and ends.
- Bucket counts are kept in 32 bits. Above 4226643191 requested buckets the prime picked does not fit and would be cut off;
  `ShippedTable` shows that this is the exact bound, and beyond it the model makes no table.

## Model

| member | source | states |
|---|---|---|
| Primes.DivIsOneDivision | src/util/primes.hpp:878-880 | The 128-bit product, its high half and the shift together are one division by 2^(64+shift). |
| Primes.DivIsExact | src/util/primes.hpp:878-880 | For a row with excess e, 0 < e <= 2^(shift+1), `div` equals integer division for every 64-bit argument if and only if e times (the largest multiple of p up to 2^64, minus one) is below 2^(64+shift). |
| Primes.QuotientExact | src/util/primes.hpp:878-880 | A row that meets the condition divides every 64-bit argument exactly. |
| Primes.WorstCaseFails | src/util/primes.hpp:878-880 | A row that does not meet it divides a named 64-bit argument wrongly. |
| Primes.ModIsExact | src/util/primes.hpp:882-884 | `mod`, with its wrapping product and difference, is the remainder. |
| Primes.RowBeyondUsualBound | src/util/primes.hpp:781 | A row of the table whose excess is above 2^shift still divides and reduces every 64-bit argument exactly. |
| PrimeTable.TableOk | src/util/primes.hpp:45-858 | There are 814 rows, all plausible and exact, in ascending order, each prime about 1.05 times the one before. |
| PrimeTable.TableEnds | src/util/primes.hpp:45-858 | They go from 3 to 17617221824571301183. |
| PrimeTable.PickedNear | src/util/primes.hpp:887-905 | For 4 to 4226643191 requested buckets the row picked is at least the request, and above it by less than a twentieth and 169. |
| PrimeTable.FitsWord | src/util/primes.hpp:887-905 | The row picked from the table fits 32 bits if and only if at most 4226643191 buckets are requested. |
| TableSizing.EnoughBuckets | src/tiny_ptr/deref_table.h:80-101 | The buckets asked for have room for the capacity. |
| TableSizing.BucketsAskedFor | src/tiny_ptr/deref_table.h:75-101 | They are the fewest buckets n that have the slots, divided by the load factor of the bucket size and rounded down: for 31 to 62 slots, 82 r <= 100 n < 82 (r + 1), and likewise with 45, 70, 90, 95 and 100 for the other sizes. |
| TableSizing.RowFor | src/tiny_ptr/deref_table.h:47-52 | The row for a capacity is the least one with as many buckets as are asked for; there is one exactly if it fits 32 bits. |
| TableSizing.NewTable | src/tiny_ptr/deref_table.h:371-379 | A new table of that many buckets is valid, empty and indexable. |
| TableSizing.ShippedTable | src/util/primes.hpp:45-858 | With the shipped rows there is a table exactly if at most 4226643191 buckets are requested. |
| TableSizing.BigEnough | src/tiny_ptr/deref_table.h:372-379 | With the shipped rows a new table has at least as many slots as asked for. |
| Primes.Pick | src/util/primes.hpp:887-905 | The binary search returns the least table entry not below the request, or the last entry for larger requests. |
| TinyPtrs.EncodeDecode | src/tiny_ptr/tiny_ptr.h:30-83 | Packing then unpacking gives back index, special bits and hash bit; the word fits its width; 0 and 1 are reached only by the null and the tagged pointer. |
| TinyPtrs.EncodeInjective | src/tiny_ptr/tiny_ptr.h:36-56 | Comparing words compares pointers. |
| DerefTables.BucketOf | src/tiny_ptr/deref_table.h:54-56 | The bucket of a hash is in range and is the hash modulo the bucket count. |
| DerefTables.PopOk | src/tiny_ptr/deref_table.h:422-454 | Taking the head of a bucket's list yields a slot that was not live, and list and live slots partition the bucket again. |
| DerefTables.PushOk | src/tiny_ptr/deref_table.h:470-473 | Linking a live slot in as the new head removes just that object and keeps list and partition. |
| DerefTables.OverwriteOk | src/tiny_ptr/deref_table.h:185-206 | Writing an object never touches the links of the free list. |
| DerefTables.DerefTable.constructor | src/tiny_ptr/deref_table.h:347-368 | A new table is valid and empty: every bucket's list runs through all its slots. |
| DerefTables.DerefTable.LinkAll | src/tiny_ptr/deref_table.h:363-366 | The loop links slot i to slot i+1 and the last one to 0. |
| DerefTables.DerefTable.FullMeansNoRoom | src/tiny_ptr/deref_table.h:435-437 | The free counts of both candidates are zero exactly if every slot of both buckets is live. |
| DerefTables.DerefTable.Allocate | src/tiny_ptr/deref_table.h:396-456 | Fails exactly when both candidates are full, changing nothing; else adds one object in a slot that was free, in the candidate with more free slots (the first on a tie), and returns a pointer that resolves to it. |
| DerefTables.DerefTable.Free | src/tiny_ptr/deref_table.h:459-478 | Removes exactly the object the pointer resolves to. |
| DerefTables.DerefTable.Read | src/tiny_ptr/deref_table.h:488-501 | A live slot yields the object constructed there. |
| DerefTables.DerefTable.Write | src/tiny_ptr/deref_table.h:185-206 | Updating an object through its pointer changes that object alone. |
| AllocSteps.StepKeeps | src/tiny_ptr/deref_table.h:396-478 | Every step of every thread keeps the invariant: lists chained, live and free slots disjoint, optimistic snapshots right unless the version moved, one owner per slot. |
| AllocSteps.EveryReachableState | src/tiny_ptr/deref_table.h:396-478 | The invariant holds in every state of every execution as long as whoever wins the lock of a bucket with free slots has read its current head and successor. |
| AllocSteps.GenuineRunsAreSound | src/tiny_ptr/sequence_lock.h:119-145 | For that it is enough that at upgrades equal eight bits mean equal versions, whatever other comparisons did. |
| AllocSteps.HeadIsCurrent | src/tiny_ptr/deref_table.h:422-443 | When the pop begins, the head read before is the first free slot and the successor read before is the next one, if there is one. |
| AllocTheorems.UnlockedBucket | src/tiny_ptr/deref_table.h:185-206 | Walking the links of an unlocked bucket from its head meets exactly `free_slot_count` distinct slots in range, which are exactly those without an owner. |
| AllocTheorems.LockedBucket | src/tiny_ptr/sequence_lock.h:81-89 | A bucket's version is odd exactly while one thread, the one recorded, holds it. |
| AllocTheorems.UpgradeIsCurrent | src/tiny_ptr/sequence_lock.h:119-145 | If the compare-and-swap is about to succeed on an equal version, count, head and successor read earlier are those of the bucket now. |
| AllocTheorems.OwnerChanges | src/tiny_ptr/deref_table.h:396-478 | A slot changes hands only from nobody to an allocating thread, to its caller, to a freeing thread and back to nobody: it is never handed out twice. |
| AllocTheorems.PoppedIsFree | src/tiny_ptr/deref_table.h:442-444 | The slot being taken has no owner. |
| AllocTheorems.FullChangesNothing | src/tiny_ptr/deref_table.h:435-437 | When the overflow is thrown the locked bucket has no free slot, and both candidates were seen full if the versions compared were equal; the table is as before, and the lock is released. |
| AllocTheorems.SeenAtOneInstant | src/tiny_ptr/deref_table.h:407-433 | The two counts a committed allocation relies on were the counts of both buckets in one single earlier state of the run. |
| AllocTheorems.TwoChoices | src/tiny_ptr/deref_table.h:407-437 | At that state the chosen bucket had at least as many free slots as the other; overflow only if both had none. |
| AllocTheorems.SizeIsExact | src/tiny_ptr/deref_table.h:216-224 | When no operation is under way, the summed thread counters equal the number of live slots, although single counters may be negative. |
| AllocTheorems.PeakIsBound | src/tiny_ptr/deref_table.h:275-281 | The summed local peaks at rest bound the number of live slots at every earlier state of the run. |
| AllocTheorems.FailedCallChangesNothing | src/tiny_ptr/deref_table.h:396-437 | From the start of a call up to any point before its pop, its overflow included, none of its own steps changes counts, heads, cells, free slots or owners. |
| AllocAlone.AllocatesAlone | src/tiny_ptr/deref_table.h:396-456 | From any state in order in which neither candidate is locked, an allocation that runs alone ends in thirteen steps: its caller has the first free slot of the candidate with more free slots, the first on a tie, and that count is one less; or both are full, it ends in ten, and only a version has changed. |
| AllocAlone.FreesAlone | src/tiny_ptr/deref_table.h:459-478 | A free that runs alone on an unlocked bucket ends in eight steps, and the slot is the first free one. |
| AllocAlone.EndsAlone | src/tiny_ptr/deref_table.h:396-478 | Any operation, wherever it stands and however old the versions it has read, ends within 26 steps if it is left alone and its buckets are not locked by others. |
| AllocWrap.FalseMatchIsFar | src/tiny_ptr/sequence_lock.h:119-145 | A comparison of eight bits is wrong only if the version has moved by 256 or more since it was read. |
| AllocWrap.GenuineIsCurrent | src/tiny_ptr/deref_table.h:422-443 | When the upgrade succeeds on an unchanged version, the head and successor read are the current ones. |
| AllocWrap.TakingIsSound | src/tiny_ptr/deref_table.h:439-454 | Whatever the versions, at validation and at the upgrade, a bucket is in order after the pop if and only if head and successor were the current ones. |
| AllocWrap.FirstUnsoundStep | src/tiny_ptr/deref_table.h:407-454 | Any execution in which that held so far, and in which a thread is about to win a lock where it does not, goes on by four steps of this thread to a bucket out of order. |
| AllocWrap.OwnedHeadIsHandedOut | src/tiny_ptr/deref_table.h:439-454 | If the head read has an owner by then, the pop takes it from that owner, and the match was a false one. |
| AllocWrap.WrapHandsOutTwice | src/tiny_ptr/deref_table.h:133 | For every bucket size from three on, an execution of two threads in which all comparisons but the last are genuine and the last step takes slot 0 away from the caller who has it. |
| ArtShape.ShapeIsUnique | src/art/tiny_art/Tree.cpp:570-676 | For a given key set there is one set of inner paths and one set of edges. |
| ArtShape.AddAtFreeEdge | src/art/tiny_art/Tree.cpp:619-629 | A leaf under a free byte, where the walk of the key ends, gives the shape of the larger key set. |
| ArtShape.AddAtSplit | src/art/tiny_art/Tree.cpp:570-676 | Splitting the edge the key leaves, where it leaves it, gives the shape of the larger key set; for prefix splits and leaf splits alike. |
| ArtShape.EdgeOfKey | src/art/tiny_art/Tree.cpp:613-615 | Below every inner path of a stored key there is an edge that leads to the key or towards it. |
| ArtShape.KeyBeyondInner | src/art/tiny_art/Tree.cpp:651-653 | In a prefix-free universe a key that passes an inner node goes on, so neither walk reads past the key's end. |
| ArtShape.TwoChildren | src/art/tiny_art/Tree.cpp:596-598 | Every inner node but the root has at least two edges. |
| ArtShape.OneEdgePerTarget | src/art/tiny_art/Tree.cpp:570-676 | No two edges lead to the same leaf or node. |
| ArtShape.EdgeInto | src/art/tiny_art/N.cpp:333-360 | Each target below a node is reached from it by edges. |
| ArtShape.InnerCount | src/art/tiny_art/Tree.cpp:570-676 | Fewer branching paths than keys. |
| ArtNodes.FlipKeepsOrder | src/art/tiny_art/N16.cpp:17-28 | Flipping the sign bit turns unsigned order into signed order and undoes itself. |
| ArtNodes.Insert | src/art/tiny_art/N16.cpp:16-29 | In all three node kinds, the entry for the new byte appears, every other byte keeps its child, keys stay sorted, and the count grows by one modulo 256. |
| ArtNodes.GetChild | src/art/tiny_art/N4.cpp:44-51 | Finds the child of a byte, or null when there is none. |
| ArtNodes.Change | src/art/tiny_art/N.cpp:66-83 | Replaces the pointer of one byte and nothing else. |
| ArtNodes.CopyToBigger | src/art/tiny_art/N16.cpp:31-36 | A full N4 or N16 becomes the next kind with the same children and room for more. |
| ArtNodes.GetAnyChild | src/art/tiny_art/N4.cpp:64-74 | Some child with its byte; a leaf whenever the node has one. |
| ArtTables.ArtDerefTables.constructor | src/art/tiny_art/ArtDerefTables.h:13-19 | Four empty tables with the tag of each kind and the given numbers of buckets. |
| ArtTables.ArtDerefTables.CreateLeaf | src/art/tiny_art/Tree.cpp:621-622 | A leaf under a pointer tagged as leaf that resolves to its new slot; nothing exactly if both candidate buckets of the leaf table are full. |
| ArtTables.ArtDerefTables.CreateNode | src/art/tiny_art/ArtDerefTables.h:40-61 | A node allocated in the table of its kind under the given hashes, as relocation and creation do; nothing exactly if both candidate buckets there are full. |
| ArtTables.ArtDerefTables.Free | src/art/tiny_art/ArtDerefTables.h:21-38 | Frees exactly the slot of the given pointer and hashes, in the table its special bits select. |
| ArtTables.ArtDerefTables.Read | src/art/tiny_art/ArtDerefTables.h:63-75 | Yields the item in the slot; its kind is that of the table. |
| ArtTables.ArtDerefTables.Write | src/art/tiny_art/ArtDerefTables.h:63-75 | Changes one node in place and no other item. |
| LabelChains.SpareTaken | src/art/tiny_art/Epoche.cpp:44-46 | Taking the first spare label keeps both chains, and that label is on neither. |
| LabelChains.Pushed | src/art/tiny_art/Epoche.cpp:50-52 | A label that is on neither chain becomes the head of the list. |
| LabelChains.Unlinked | src/art/tiny_art/Epoche.cpp:25-30 | Skipping one label, at the head or behind its predecessor, leaves the chain of the others, in order; the label is then on neither chain and still as it was. |
| LabelChains.Returned | src/art/tiny_art/Epoche.cpp:33-34 | A label on neither chain becomes the first spare one; overwriting its `next` touches neither chain. |
| DeletionLists.WithEntryOk | src/art/tiny_art/Epoche.cpp:38-59 | Adding an entry keeps full labels behind the head and epochs that never increase towards the tail, and inserts that entry into what waits. |
| DeletionLists.DeletionList.Add | src/art/tiny_art/Epoche.cpp:38-59 | The head label takes the entry while it has room, else a new label does; added equals deleted plus waiting. |
| DeletionLists.DeletionList.PushLabel | src/art/tiny_art/Epoche.cpp:44-53 | A new empty head label, a spare one if there is any. |
| DeletionLists.DeletionList.Remove | src/art/tiny_art/Epoche.cpp:25-36 | The label with the given predecessor leaves the list and becomes the first spare one; the others keep their order, the counters move by its entries. |
| DeletionLists.DeletionList.Cleanup | src/art/tiny_art/Epoche.cpp:96-109 | Exactly the labels older than the oldest epoch go, each of their entries is returned once and in order, the others stay; `next` is read before it is overwritten. |
| ArtEpoch.Epoche.Enter | src/art/tiny_art/Epoche.cpp:65-68 | The thread announces the current epoch. |
| ArtEpoch.Epoche.MarkNodeForDeletion | src/art/tiny_art/Epoche.cpp:70-74 | The pointer waits, with the hashes that resolve it, labelled with the current epoch; nothing waits twice. |
| ArtEpoch.Epoche.OldestEpoch | src/art/tiny_art/Epoche.cpp:88-94 | The scan yields the least announced epoch, or the largest number if none is announced. |
| ArtEpoch.Epoche.ExitAndCleanup | src/art/tiny_art/Epoche.cpp:76-112 | Epoch, threshold and local epoch after an operation; frees the slots of exactly the labels older than every announced epoch, and only above the threshold. |
| ArtEpoch.Epoche.FreeOlder | src/art/tiny_art/Epoche.cpp:96-109 | The freed slots leave the tables and the list; all others stay. |
| ArtEpoch.Epoche.FreeAll | src/art/tiny_art/Epoche.cpp:101-103 | Each entry's slot is freed under the hashes kept with it. |
| ArtPhysical.LeafAdded | src/art/tiny_art/N.cpp:98-100 | After a plain insert every edge still resolves to its own live slot under the hash of parent id and byte. |
| ArtPhysical.NodeMoved | src/art/tiny_art/N.cpp:112-119 | So it does after a node moved to a new slot with its id kept, because the hashes of its edges depend on the id. |
| ArtPhysical.EdgeSplit | src/art/tiny_art/Tree.cpp:579-601 | So it does after a split, because the target whose parent edge changed is allocated again under the new edge. |
| ArtInvariant.PlainInsert | src/art/tiny_art/N.cpp:91-101 | A plain insert keeps the whole invariant: shape, resolution of pointers, node kinds, slots accounted for. |
| ArtInvariant.GrowInsert | src/art/tiny_art/N.cpp:103-124 | Growth keeps it, with the old node's slot now waiting to be freed. |
| ArtInvariant.SplitInsert | src/art/tiny_art/Tree.cpp:570-676 | Both splits keep it, with the old node's or leaf's slot now waiting to be freed. |
| ArtLookup.CheckPrefix | src/art/tiny_art/Tree.cpp:783-802 | No match exactly when the key is too short or differs in a stored byte; optimistic only beyond 11 bytes; the level moves by the prefix length. |
| ArtLookup.Follow | src/art/tiny_art/Tree.cpp:63-86 | A node's pointer is null exactly when there is no edge; else it resolves under the hash of id and byte to the edge's leaf or node, told apart by its tag. |
| ArtLookup.NoMatchMeansAbsent | src/art/tiny_art/Tree.cpp:47-50 | A prefix mismatch rules the key out. |
| ArtLookup.AfterCheck | src/art/tiny_art/Tree.cpp:51-57 | As long as no prefix was skipped, a match means that the whole path is a prefix of the key. |
| ArtLookup.EndsAtLeaf | src/art/tiny_art/Tree.cpp:66-84 | The leaf at the end of a walk is the key's if any is; without skipped bytes, and at the last byte, it is the key's for sure, so the final comparison may be left out there and only there. |
| ArtLookup.ComparisonDecides | src/art/tiny_art/Tree.cpp:75-84 | At a leaf, comparing the key loaded for its value with the key looked for answers for every key of the universe; where nothing was skipped and one byte is left, the leaf's value is the answer without it. |
| ArtInsert.GetAnyChildTid | src/art/tiny_art/N.cpp:333-360 | Yields a stored key that passes through the node. |
| ArtInsert.CheckPrefixPessimistic | src/art/tiny_art/Tree.cpp:804-842 | Compares the full prefix, stored or not: a match means the path is a prefix of the key; else it gives the first differing position, the node's byte there, and the rest of the prefix. |
| ArtInsert.WritePlain | src/art/tiny_art/N.cpp:96-100 | What a plain insert leaves in the tables; nothing exactly if both candidate buckets of the leaf are full. |
| ArtInsert.WriteGrowth | src/art/tiny_art/N.cpp:112-119 | What growth leaves in the tables: a bigger copy with the same id and children and the new leaf, and the parent's pointer to it; it fails exactly if the copy or the leaf finds both its candidate buckets full. |
| ArtInsert.SetPrefix | src/art/tiny_art/N.cpp:305-312 | Sets the length, and the stored bytes up to eleven; id and children stay. |
| ArtInsert.WriteSplit | src/art/tiny_art/Tree.cpp:579-601 | What a split leaves in the tables: an N4 with the front of the prefix over the new leaf and the relocated target, and the parent's pointer to it; it fails exactly if one of the three, in turn, finds both its candidate buckets full. |
| ArtReady.PlainReady | src/art/tiny_art/N.cpp:91-101 | From the end of the walk and those writes, the invariant for the tree with the key. |
| ArtReady.GrowReady | src/art/tiny_art/N.cpp:103-124 | The same for growth. |
| ArtReady.SplitReady | src/art/tiny_art/Tree.cpp:570-676 | The same for both splits. |
| ArtReady.PrefixSplitPieces | src/art/tiny_art/Tree.cpp:579-594 | The matched bytes make the new node's prefix and the remaining bytes, one dropped, the moved node's. |
| ArtReady.OneWay | src/art/tiny_art/Tree.cpp:551-681 | Tree and key determine which change an insert makes and where, and so what it has to allocate, but for the id of a new node. |
| ArtEpoch.NothingExpiredWaits | src/art/tiny_art/Epoche.cpp:96-109 | After a cleanup every waiting label has an epoch that some thread has announced or passed. |
| ArtTrees.Tree.constructor | src/art/tiny_art/Tree.cpp:13-20 | Over tables holding just an empty root, a valid tree that stores nothing. |
| ArtTrees.Tree.Create | src/art/tiny_art/Tree.cpp:13-20 | Over four tables sized for the given capacities, an empty valid tree; allocating the root cannot fail. |
| ArtTrees.Tree.Over | src/art/tiny_art/Tree.cpp:13-20 | The same over given rows of the prime table. |
| ArtTrees.Tree.Lookup | src/art/tiny_art/Tree.cpp:29-96 | Returns the value stored for the key and zero for every other key of the universe; announces the current epoch and changes nothing else. |
| ArtTrees.Tree.Find | src/art/tiny_art/Tree.cpp:38-96 | The walk itself ends and answers right, including prefixes longer than the 11 stored bytes. |
| ArtTrees.Tree.Visit | src/art/tiny_art/Tree.cpp:45-88 | One round of the walk either answers right or moves strictly deeper with what is known of the key carried on. |
| ArtTrees.Tree.Insert | src/art/tiny_art/Tree.cpp:537-682 | Announces the current epoch. The contents are then the old ones with the new key and no slot lost; or one of the nodes the key's way needs has both its candidate buckets full, with a slot taken for each before it, and only then is the tree as before. What is replaced waits under the current epoch; above the threshold exactly the slots of labels older than all announced epochs are freed and the threshold is 0; the epoch moves as in the source. |
| ArtTrees.Tree.InsertGuarded | src/art/tiny_art/Tree.cpp:551-681 | The walk of an insert ends in one of the four changes, with that outcome: what it needed, whether there was room, what waits. |
| ArtTrees.Tree.InsertVisit | src/art/tiny_art/Tree.cpp:551-681 | One round of it changes the tree with that outcome, or nothing and moves strictly deeper. |
| ArtTrees.Tree.InsertPlain | src/art/tiny_art/N.cpp:91-101 | A free byte in a node with room. |
| ArtTrees.Tree.InsertGrow | src/art/tiny_art/N.cpp:103-124 | A free byte in a full node; the node replaced waits to be freed with the hashes of its edge. |
| ArtTrees.Tree.SplitPrefix | src/art/tiny_art/Tree.cpp:570-609 | A key that leaves a node's prefix. |
| ArtTrees.Tree.SplitLeaf | src/art/tiny_art/Tree.cpp:636-676 | A key whose edge holds another leaf. |
| ArtTrees.Tree.Split | src/art/tiny_art/Tree.cpp:579-607 | What the two splits share: the writes, the pointer change, the mark. |
| ArtTrees.Tree.CommonPrefix | src/art/tiny_art/Tree.cpp:649-653 | The first byte in which the two keys differ; it exists, so the loop ends inside both. |
| ArtTrees.Tree.Exit | src/art/tiny_art/Epoche.cpp:76-112 | Above the threshold exactly the slots of the labels older than every announced epoch are freed and the others keep their order; epoch, threshold and announced epoch are as in the source; the tree stays. |
| ArtTheorems.HashCoherence | src/art/tiny_art/ArtDerefTables.h:40-61 | Whatever the hash functions, a slot an edge's pointer resolves to is live, not waiting to be freed, and no other edge's pointer resolves to it. |
| ArtTheorems.OrderIndependent | src/art/tiny_art/Tree.cpp:570-676 | Two trees, with any tables and hash functions, over the same keys have the same inner paths and edges, and nodes of the same kind, prefix length, stored bytes and child bytes. |
| ArtTheorems.SameKeysSameShape | src/art/tiny_art/Tree.cpp:537-682 | The same for any two valid trees, whatever inserts made them. |
| ArtTheorems.SizeBound | src/art/tiny_art/N.cpp:91-124 | A tree that is not empty has fewer inner nodes besides the root than leaves, and each of them has two children. |
| ArtTheorems.SlotsConserved | src/art/tiny_art/Tree.cpp:595-608 | The live slots of the four tables are the disjoint union of nodes, leaves, waiting slots and those lost to failed inserts; each waiting entry resolves to its slot by the hashes kept with it. |
| OlcSteps.ValidatedChild | src/art/tiny_art/N.cpp:281-287 | A child read from a node whose version is still the one read is part of the tree and not obsolete. |
| OlcSteps.UpgradeNodeMove | src/art/tiny_art/N.cpp:103-110 | After the second upgrade the thread holds exactly the two locks it needs and may start its change. |
| OlcSteps.ReadLeafGood | src/art/tiny_art/N.cpp:25-32 | Under the parent's lock the leaf is neither locked nor obsolete. |
| OlcSteps.UpgradeLeafGood | src/art/tiny_art/N.cpp:34-41 | And its version cannot have moved, so the upgrade succeeds. |
| OlcWrites.RelinkedGraph | src/art/tiny_art/Tree.cpp:579-601 | Moving one pointer of the locked parent leaves a tree in which each node has one parent. |
| OlcWrites.NobodyHolds | src/art/tiny_art/Epoche.cpp:88-103 | No thread inside an operation holds an entry of a label older than the minimum the cleaner computed. |
| OlcWrites.StepKeeps | src/art/tiny_art/Tree.cpp:537-682 | Every step of every thread keeps the invariant that ties locks, stages, held pointers, deletion lists and epochs together, whichever bytes it follows and whether or not it runs out of space. |
| OlcWrites.EveryReachableState | src/art/tiny_art/Tree.cpp:537-682 | The invariant holds in every state of every run. |
| OlcSlots.HeldSlotStays | src/art/tiny_art/Epoche.cpp:65-112 | The slot of a node that a thread obtained by a validated read in its current operation is not passed to free, and is no other node's, before that operation ends, in any interleaving. |
| OlcSlots.TouchesOwnSlots | src/art/tiny_art/Tree.cpp:29-96 | The slot of every node, parent, probed node or locked node a thread accesses is in use and is that node's alone. |
| OlcReclaim.FreesOnlyGarbage | src/art/tiny_art/Epoche.cpp:96-109 | What a cleanup frees is cut off from the tree, not freed before, held by no thread inside an operation, and stands once in its label. |
| OlcReclaim.GivenOnce | src/art/tiny_art/Epoche.cpp:96-109 | Over a whole run no node is freed twice. |
| OlcCleanup.NoneForgotten | src/art/tiny_art/Tree.cpp:595-608 | In every reachable state a node that was cut off and not freed is in the list of the thread that cut it off, or that thread is about to enter it. |
| OlcCleanup.CleansUpAlone | src/art/tiny_art/Epoche.cpp:76-112 | A cleanup that runs alone frees exactly the entries of its labels older than every epoch another thread has announced, keeps the other labels in order, and moves the epoch as asked. |
| OlcSlots.SlotsKept | src/art/tiny_art/Tree.cpp:537-682 | Every step of every thread keeps pointers, hashes, ids and slots together: children and entries resolve to the slots of their nodes, and nodes in use have slots of their own. |
| OlcSlots.EdgesResolve | src/art/tiny_art/ArtDerefTables.h:40-61 | In every reachable state, whatever the hash functions, a child's pointer under its parent's id and byte means the child's slot, and that slot is its own. |
| OlcSlots.ReadsResolve | src/art/tiny_art/Tree.cpp:63-86 | What a thread newly obtains is a child of the tree whose pointer, under the id and byte it went through, means that child's slot then and ever after. |
| OlcSlots.FreesOwnSlots | src/art/tiny_art/Epoche.cpp:101-103 | Every slot passed to free, found by the hashes kept in the list, is in use, that entry's own, and passed once; afterwards it is not in use. |
| OlcSlots.LeftLockedWhenFull | src/art/tiny_art/Tree.cpp:579-587 | A lock is left behind only by an insert that held it and found in use every slot that a node it needed could have had. |
| OlcSlots.SlotRunsAreRuns | src/art/tiny_art/Tree.cpp:537-682 | Without the slots a run is a run of the step model. |
| OlcTheorems.BothUpgradesAreCurrent | src/art/tiny_art/N.cpp:103-110 | When the first upgrade succeeded and the second does, the node is still the parent's child under that byte, and neither changed since it was read. |
| OlcTheorems.LeafLockNeverFails | src/art/tiny_art/Tree.cpp:637-644 | The leaf lock taken under the parent's lock never fails, so the restart after it, which would leave the parent locked, is never taken. |
| OlcTheorems.NoLockHeld | src/art/tiny_art/Tree.cpp:571-577 | Outside the stretch between its first upgrade and its last unlock a thread holds no lock. |
| OlcTheorems.NoLockLeftBehind | src/art/tiny_art/Tree.cpp:571-587 | A locked node is locked by a thread in that stretch or was left locked; those left locked are exactly the nodes that inserts had locked when they threw. |
| OlcTheorems.LeftForGood | src/art/tiny_art/Tree.cpp:579-587 | What is left locked is the same, lock, version and children, in every later state. |
| OlcTheorems.RootLeftLocked | src/art/tiny_art/N.cpp:91-101 | It happens: a run of one insert into an empty tree that gets no slot for its leaf, and ends with the root locked. |
| OlcTheorems.OnlyTheHolderWrites | src/art/tiny_art/N.cpp:34-45 | Children and version of a node change only by the thread that locked it, and nothing changes an obsolete node. |
| OlcView.TreeKept | src/art/tiny_art/N.cpp:25-45 | A step that moves no pointer of the tree leaves places, edges and shape as they are. |
| OlcView.PlainView | src/art/tiny_art/N.cpp:91-101 | A leaf hung under a free byte gives the tree of the larger key set. |
| OlcView.GrowView | src/art/tiny_art/N.cpp:103-124 | So does a bigger copy with the new leaf, put in the place of a full node. |
| OlcView.SplitOk | src/art/tiny_art/Tree.cpp:579-601 | So does a new node over the new leaf and a copy of what the key leaves, for prefixes and leaves alike. |
| OlcKeyed.FirstDifference | src/art/tiny_art/Tree.cpp:804-842 | With a leaf's key loaded for what is not stored, the comparison stops at the first byte of the prefix that differs, or shows that the path is a prefix of the key. |
| OlcKeyed.NoMatch | src/art/tiny_art/Tree.cpp:47-60 | A lookup whose key leaves a node's prefix or ends in it: the key was not stored when the lookup began, even if the node has been cut off since. |
| OlcKeyed.ReadTells | src/art/tiny_art/Tree.cpp:63-86 | A validated read finds a child whose path goes on from the node's under that byte, on the way of every key of it that is stored; no child means that the key is not. |
| OlcKeyed.LeafAnswer | src/art/tiny_art/Tree.cpp:73-84 | The value returned at a leaf is stored under the key; zero means that the key was not stored when the lookup began. |
| OlcKeyedSteps.KeysKept | src/art/tiny_art/Tree.cpp:29-96 | Every step of every thread keeps the tree equal to the stored map and every operation on its key's way. |
| OlcLinear.KeyedReachable | src/art/tiny_art/Tree.cpp:537-682 | So it is in every state of every run. |
| OlcLinear.KeyedRunsAreRuns | src/art/tiny_art/Tree.cpp:537-682 | Without the keys a run is a run of the step model, so what is proved there about locks and reclamation holds. |
| OlcLinear.TreeIsTheMap | src/art/tiny_art/Tree.cpp:29-96 | In every reachable state, following a key's bytes from the root ends at a leaf with the key and its value exactly if it is stored. |
| OlcLinear.SameKeysSameTree | src/art/tiny_art/Tree.cpp:537-682 | At two moments, of any runs, at which the same keys are stored, every node of the one tree has exactly one counterpart in the other: same key, or same path, prefix, bytes in use and paths of the children. |
| OlcLinear.LookupLinearises | src/art/tiny_art/Tree.cpp:29-96 | A finished lookup's answer is what the map held for its key at one moment between its beginning and its end. |
| OlcLinear.InsertLinearises | src/art/tiny_art/Tree.cpp:537-682 | A finished insert stored its key with its value at exactly one moment in between, where the key was not stored before; its other steps store nothing. |
| OlcLinear.StoredChanges | src/art/tiny_art/N.cpp:66-83 | What is stored changes only where a thread moves the pointer of its insert, and then by that key alone. |
| OlcLinear.NeverBlocked | src/art/tiny_art/Tree.cpp:551-681 | In every reachable state, among any others, each operation has a step its key allows other than the choice to start again: no insert reads past the end of a key, and the two paths of a split part inside both. A version that has moved meanwhile may still send it back to the root. |
| OlcAlone.OperationEnds | src/art/tiny_art/Tree.cpp:29-96 | An operation left alone, with no lock held by others or left behind, ends from wherever it stands, however much of what it has read is out of date, within 2 (n + 2) (3 n + 20) steps for keys of at most n bytes; it neither throws nor chooses to start again. |
| OlcAlone.LookupAlone | src/art/tiny_art/Tree.cpp:29-96 | A lookup that runs alone ends within that bound and answers with the value stored under its key, or zero; it has announced the current epoch and stored nothing. |
| OlcAlone.InsertAlone | src/art/tiny_art/Tree.cpp:537-682 | An insert that runs alone ends within that bound; the stored map is the one before with its key and value, and nothing else. |
| AhoSpec.WordsEndingIsNaive | src/aho_corasick/automaton.cpp:97-103 | The specification of what ends at a position: exactly the dictionary words that are suffixes, longest first, each once. |
| AhoSpec.AllMatchesIsNaive | src/aho_corasick/automaton.cpp:81-107 | A match is reported exactly if the word stands in the text from its start to its end and is in the dictionary. |
| AhoSpec.AllMatchesOrdered | src/aho_corasick/automaton.cpp:85-104 | Matches come by end, longest first, none twice. |
| AhoSpec.LongestIsLongest | src/aho_corasick/automaton.cpp:88-95 | The automaton's state is the longest suffix that is a trie path: every other such suffix is a suffix of it. |
| AhoSpec.LongestStep | src/aho_corasick/automaton.cpp:88-95 | The next state depends on the text only through the current state. |
| AhoSpec.FallBack | src/aho_corasick/automaton.cpp:65-67 | Without an edge for the byte, the state to look from next is the suffix link. |
| AhoSpec.LinkOfChild | src/aho_corasick/automaton.cpp:62-72 | The suffix link of a child follows from its parent's. |
| AhoSpec.TerminalIsLongest | src/aho_corasick/automaton.cpp:50-53 | The terminal link is the longest proper suffix that is a word. |
| AhoSpec.TerminalFromLink | src/aho_corasick/automaton.cpp:50-53 | It is the suffix link if that is a word, else the suffix link's terminal link. |
| AhoSpec.WordsOfState | src/aho_corasick/automaton.cpp:97-103 | The words that end in a state are those that end in the text that led to it. |
| AhoBfs.Shallow | src/aho_corasick/automaton.cpp:46-76 | When a node leaves the queue, every path as short has been seen and every shorter one finished, so its links may be read. |
| AhoBfs.AllDone | src/aho_corasick/automaton.cpp:46-76 | When the queue is empty, every path is finished. |
| AhoBfs.WholeCost | src/aho_corasick/automaton.cpp:55-75 | Link steps paid per path sum to at most the summed word lengths. |
| AhoBfs.PathsArePrefixes | src/aho_corasick/automaton.cpp:17-33 | The trie's paths are the prefixes of the words. |
| AhoCorasick.Automaton.InsertWord | src/aho_corasick/automaton.cpp:18-33 | Adds the word and exactly its prefixes. |
| AhoCorasick.Automaton.MakePath | src/aho_corasick/automaton.cpp:19-30 | Ends at the node of the word; missing nodes on the way are new, nothing else changes. |
| AhoCorasick.Automaton.FindFallback | src/aho_corasick/automaton.cpp:63-67 | The loop ends, because depth drops, at the node from which the longest path with the next byte continues; its rounds are the links from the start to there, no more than depth was lost. |
| AhoCorasick.Automaton.SetTerminal | src/aho_corasick/automaton.cpp:50-53 | The terminal link is right when its node leaves the queue. |
| AhoCorasick.Automaton.LinkChild | src/aho_corasick/automaton.cpp:62-74 | The child's suffix link is right; the links followed are those its path asks for, and are paid by the depth of the links. |
| AhoCorasick.Automaton.ExpandRoot | src/aho_corasick/automaton.cpp:39-44 | Children of the root link to the root and start the queue. |
| AhoCorasick.Automaton.Expand | src/aho_corasick/automaton.cpp:55-75 | All children of a node are linked and queued. |
| AhoCorasick.Automaton.BuildLinks | src/aho_corasick/automaton.cpp:35-76 | Every node ends up with both links right; the links followed are exactly those of all paths, within the summed word lengths. |
| AhoCorasick.Automaton.Create | src/aho_corasick/automaton.cpp:14-79 | The automaton of a word list is valid for exactly those words; the links followed are exactly those of all paths. |
| AhoCorasick.Automaton.Search | src/aho_corasick/automaton.cpp:81-107 | Returns exactly the specified list of matches; the suffix links followed are exactly those from each state on the way, at most the text length. |
| AhoCorasick.Automaton.Advance | src/aho_corasick/automaton.cpp:88-95 | One byte moves to the longest suffix of the longer text that is a path. |
| AhoCorasick.Automaton.Report | src/aho_corasick/automaton.cpp:97-103 | Walking the terminal links reports exactly the words that end here, longest first, with their positions. |
| TrieShape.CanonicalSize | src/trie/tiny_trie_2.cpp:61-80 | In a pruned trie the nodes are the root and the proper prefixes of the words, one object each. |
| TrieShape.Grown | src/trie/tiny_trie_2.cpp:139-144 | A new node in place of a null or tag keeps the words: it is terminal exactly if there was a tag. |
| TrieShape.TagSet | src/trie/tiny_trie_2.cpp:23-28 | A tag set or cleared under a byte adds or removes exactly that word. |
| TrieShape.TerminalSet | src/trie/tiny_trie_2.cpp:35-39 | A flag set or cleared adds or removes exactly that word. |
| TrieShape.Pruned | src/trie/tiny_trie_2.cpp:66-76 | Taking out a node without pointers keeps the words if a terminal one becomes a tag. |
| TrieShape.StillNeeded | src/trie/tiny_trie_2.cpp:77-79 | A node with a pointer left is needed, and so is everything above it: pruning may stop. |
| TrieShape.NowTagged | src/trie/tiny_trie_2.cpp:71-74 | So it may where a word's node turned into a tag. |
| TrieStores.TrieStore.CreateChild | src/trie/tiny_trie_2.cpp:139-144 | A node is made under the byte and the words stay; it fails exactly if both candidate buckets of the edge's hashes are full. |
| TrieStores.TrieStore.InsertLast | src/trie/tiny_trie_2.cpp:15-39 | The last byte adds the word by tag or flag and tells whether it is new. |
| TrieStores.TrieStore.ContainsLast | src/trie/tiny_trie_2.cpp:109-126 | The last byte decides whether the word is stored. |
| TrieStores.TrieStore.ChildCount | src/trie/tiny_trie_2.cpp:172-180 | The number of pointers in use. |
| TrieStores.TrieStore.Unlink | src/trie/tiny_trie_2.cpp:66-76 | One node goes, the words stay, and a word that sat in it is told. |
| TinyTries2.TinyTrie2.constructor | src/trie/tiny_trie_2.h:88-92 | Over a table with just a root: no words, and pruned. |
| TinyTries2.TinyTrie2.Size | src/trie/tiny_trie_2.h:70 | The number of words. |
| TinyTries2.TinyTrie2.NodeCount | src/trie/tiny_trie_2.h:72 | 1 plus the number of distinct proper non-empty prefixes of the stored words. |
| TinyTries2.TinyTrie2.CreateParentNode | src/trie/tiny_trie_2.cpp:129-151 | Ends at the node above the last byte and adds only nodes for proper prefixes of the word. |
| TinyTries2.TinyTrie2.Insert | src/trie/tiny_trie_2.cpp:6-40 | Adds the word, tells whether it is new, and keeps the shape pruned; fails, with the words unchanged, exactly if some proper prefix of the word without a node, behind one with a node, has both candidate buckets full. |
| TinyTries2.TinyTrie2.GetParentNode | src/trie/tiny_trie_2.cpp:153-170 | The node above the last byte, or none, and then the word is not stored. |
| TinyTries2.TinyTrie2.Contains | src/trie/tiny_trie_2.cpp:97-127 | True exactly for the stored words. |
| TinyTries2.TinyTrie2.Remove | src/trie/tiny_trie_2.cpp:42-95 | Removes the word, tells whether it was there, and keeps the shape pruned. |
| TinyTries2.TinyTrie2.Prune | src/trie/tiny_trie_2.cpp:61-80 | The upward loop restores the pruned shape. |
| TinyTries.TinyTrie.constructor | src/trie/tiny_trie.h:80-84 | Over a table with just a root: no words. |
| TinyTries.TinyTrie.Size | src/trie/tiny_trie.h:62 | The number of words. |
| TinyTries.TinyTrie.NodeCount | src/trie/tiny_trie.h:64 | Over any run, 1 plus the number of distinct proper non-empty prefixes of all words ever inserted. |
| TinyTries.TinyTrie.CreateParentNode | src/trie/tiny_trie.cpp:111-135 | The node above the last byte, with the hash of its path. |
| TinyTries.TinyTrie.Insert | src/trie/tiny_trie.cpp:6-40 | Adds the word and tells whether it is new; nodes stay exactly those the words ever inserted need; fails exactly as TinyTrie2's does. |
| TinyTries.TinyTrie.GetParentNode | src/trie/tiny_trie.cpp:137-156 | The node above the last byte with the hash of its path, or none, and then the word is not stored. |
| TinyTries.TinyTrie.Contains | src/trie/tiny_trie.cpp:79-109 | True exactly for the stored words. |
| TinyTries.TinyTrie.Remove | src/trie/tiny_trie.cpp:42-77 | Removes the word, tells whether it was there, and leaves every node. |
| TinyTries.TinyTrie.FillFrom | src/trie/tiny_trie.h:96-98 | Inserts the words one by one: the trie then holds exactly these. |
| TinyTries.TinyTrie.BulkCreate | src/trie/tiny_trie.h:86-100 | Picks the row of the prime table for the sum of the counts and inserts the words; the node count is that sum minus entry 0 exactly when some word is not empty. |
| TinyTries.InnerCount | src/trie/tiny_trie.h:91-94 | Prefixes that go on number 1 plus the proper prefixes exactly when some word is not empty. |
| NodeCounts.GroupAdded | src/trie/trie_util.h:47-62 | Counts of words that share a next byte add up over the groups. |
| NodeCounts.PathsAdded | src/trie/trie_util.h:64-67 | So do the numbers of prefixes. |
| NodeCounts.NextAdded | src/trie/trie_util.h:50-51 | Each group adds one next byte. |
| NodeCounts.ComputeForDepth | src/trie/trie_util.h:11-74 | For any range of words that share a prefix, entry j counts the prefixes from there on with exactly j next bytes; recursion ends at the longest word. |
| NodeCounts.ScanGroups | src/trie/trie_util.h:47-61 | The scan cuts the range at every change of byte and adds up all groups but the last. |
| NodeCounts.ComputeNodeCounts | src/trie/trie_util.h:84-91 | For every sorted list, duplicates allowed, entry j is the number of prefixes with j next bytes; they sum to the number of prefixes, and weighted by j to one less. |

## Left out

Assumptions:

- Atomics are sequentially consistent steps; memory orders, fences, back-off and yielding are not modelled.
- AllocTheorems.TwoChoices: assumes that two versions that are compared are equal if their eight bits are (`Genuine`); AllocSteps.EveryReachableState needs only `SoundUpTo`, without which it is false (`FirstUnsoundStep`), and `WrapHandsOutTwice` shows that executions do get there.
- The version words and 64-bit epochs of the tree are unbounded numbers; so are sizes, counts and word lengths.
- ArtTrees.Tree.Insert: assumes a new key from a prefix-free universe, a nonzero value, and that the key loaded for the value is the inserted key, as the source does. Calling it with a stored key is outside the model; there the source compares past the end of the keys.
- Trie words consist of bytes below 128, because the source indexes 256 children by plain `char`.
- Hash functions, node ids and `loadKey` are arbitrary functions; node ids need not be distinct.

Simplifications:

- DerefTables.DerefTable.Allocate: constructs the object in the same call, as every caller does at once, and uses the sequential meaning of the retry loop; the loop itself is in `AllocModel`. `compare_exchange_weak` failing for no reason is the same as another round of its loop and has no step of its own.
- DerefTables.DerefTable.constructor: takes the row of the prime table as a parameter, and so does ArtDerefTables; `TableSizing` computes it. The load factor is a real number there; rounding of the floating-point division is not modelled.
- Power-of-two bucket masks, the build-time alternative to primes, are not modelled.
- Vectors and arrays embedded in an object are sequence fields that methods reassign. Node bodies of the radix tree are values kept in the tables' cells, so `ArtNodes` works on values; how `memcpy` lays them out, SIMD comparison and uninitialised padding are not modelled.
- DeletionLists.DeletionList.Add: labels are nodes of an arena linked by indices; one that is removed goes to the spare list and is never given back, as in the source until the list is destroyed.
- ArtTrees.Tree.Insert: on a full bucket the source throws and leaves nodes locked; the model's tree stays valid and records the slots already taken as `leaked`. Cleanup after that is the model's choice.
- TinyTries2.TinyTrie2.Insert: when it fails, nodes made on the way stay, as in the source; the shape is then no longer pruned.
- OlcWrites.StepKeeps: which byte a thread looks at, which change it makes and whether there is space is up to the scheduler, so it covers every real choice; `OlcKeyed` adds the keys. A node that is allocated gets a new name; `OlcSlots` has the slots, which are used again.
- OlcSlots.SlotsKept: the tables are any function from pointers and hashes to slots and a set of slots in use; how one is found is the subject of `DerefTables` and `AllocModel`. Ids of new nodes are arbitrary.
- OlcLinear.InsertLinearises: an insert begins only with a key of a prefix-free universe that is not stored and that no other insert under way has, as the source demands. Prefix bytes and loaded keys are read off the path in a node's tag, which never changes; the final version check of a lookup's leaf may restart at any time. That an operation ends is stated where it is left alone (`OlcAlone`); among others that keep changing what it reads it need not.
- The counting of `steps` in the automaton is ghost code: one per round of a fallback loop.

Parts of the repository:

- src/art/tiny_art_64 and src/art/tiny_art_256: the same algorithm with other node sizes.
- Range lookup and removal in the radix trees, commented out in the source, and the helpers only they use.
- The destructors of trees, deletion lists and `Epoche`, move operations, and a thread's exit, which stores the largest epoch.
- TinyTrie2's bulk creation: the same as TinyTrie's.
- src/trie/value_trie.h and src/trie/tiny_value_trie.h, the pointer-based and value tries; src/aho_corasick/tiny_automaton.cpp, which is not built.
- Statistics, printing, benchmarks and the hash distribution simulation.
