# Lazy sequences of `task/07-yield-tasks.js`, in Dafny

The JavaScript file defines five generator functions. Each one keeps a few local
variables and yields values one pull at a time:

- `get99BottlesOfBeer` yields the 200 lines of the song;
- `getFibonacciSequence` yields the Fibonacci numbers forever;
- `depthTraversalTree` walks a tree depth first with a worklist;
- `breadthTraversalTree` walks a tree breadth first with the same worklist
  used as a queue;
- `mergeSortedSequences` pulls from two sources in lockstep and then drains
  whichever source is left.

Each generator is a class here. Its fields are the generator's local variables
(`numOfBottles`; `prevPrevNum`, `prevNum`, `currNum`; `nodesToVisit`; the two
cursors). The bottles, Fibonacci and merge classes also have a `point` field
that records at which `yield` the generator is suspended. The two tree walks
need none: their single `yield` ends the loop body, so the worklist alone is
their state.
`Next()` runs the body from there to the next `yield`. It returns the yielded
value, or `None` once the body has finished.

A ghost field `emitted` records what has been yielded so far. `Remaining()` is
what the generator will still yield from its current state. `Valid()` says
that the two together always make up the same reference listing:

- the whole song, for the bottles generator;
- `PreOrder(root)`, for the depth-first walk;
- `Drain([root])`, for the breadth-first walk; this is the queue loop as a
  function, and `LevelOrder([root])` is proved equal to it;
- `Merged(source1, source2)`, for the merge.

The bottles and merge generators keep that listing in a ghost constant set
by the constructor.

The Fibonacci generator instead keeps a ghost count of yields, and `Valid()`
ties its fields to `Fib`.

The caller methods `Sing`, `Take`, `Traverse` (one in each traversal module)
and `MergeAll` pull until the end, or `n` times, without reaching into the
object. Their contracts state the complete output.

Modules:

- `Options`: an optional value, for what a pull returns once a generator has
  finished.
- `Bottles`: the lyrics as functions, and the generator.
- `Fibonacci`: the Fibonacci numbers and the generator.
- `Trees`: nodes, pre-order, depth levels, level order and their laws.
- `DepthFirst`: the depth-first generator.
- `BreadthFirst`: the breadth-first generator.
- `Merge`: the merge as the code computes it, its properties, and the
  generator.
- `Sequences`: two concatenation laws the proofs share.

Two points about the merge, as the code is written:

- On equal values the merge yields the second source's value first: the test
  on line 179 is a strict `<`. With integers the two orders give the same
  output.
- The doc-comment calls the merge output sorted (lines 160-161). The code never
  compares a value with the next value of the other source: each step yields
  the two current values, smaller first, and then advances BOTH sources.
  - `Merge.Merged` is the output exactly as the code computes it, and the
    generator follows it.
  - `Merge.MergedSortedIff` gives the exact condition under which that output
    is sorted.
  - `Merge.SortedSourcesUnsortedOutput` shows sorted sources with an unsorted
    output: [1, 2] and [3, 4] give 1, 3, 2, 4.
  - `Merge.StreamMerge` is the merge the doc-comment (lines 160-161)
    promises. It advances only the source whose value was yielded. It is
    proved to be a rearrangement of both sources and to be sorted whenever
    both sources are.

## Model

| member | source | states |
|---|---|---|
| Bottles.NatToString | task/07-yield-tasks.js:38-39 | the text a template literal writes for a count: at least one character, decimal digits only, no leading zero |
| Bottles.NatToStringRoundTrip | task/07-yield-tasks.js:38-39 | the decimal text a template literal writes for a count reads back as that count, so different counts give different text |
| Bottles.Verse | task/07-yield-tasks.js:38 | the verse line for a count starts with that count's decimal text |
| Bottles.TakeOneDown | task/07-yield-tasks.js:39 | the take-one-down line names the count in decimal right after its 34-letter opening |
| Bottles.SongFrom | task/07-yield-tasks.js:36-47 | how many lines are yielded from the loop test: at least six, and `2(n-2)+6` from counter `n >= 2` |
| Bottles.SongFromAt | task/07-yield-tasks.js:37-39 | for counter `n` and iteration `k`, line `2k` is the verse for `n-k` and line `2k+1`, after the pre-decrement, names `n-k-1` |
| Bottles.SongFromClosing | task/07-yield-tasks.js:42-47 | after the loop lines come exactly the six fixed lines, in order |
| Bottles.SongLength | task/07-yield-tasks.js:36-47 | the loop runs for the counts 99 down to 3, 97 iterations of two lines, so the song has 97*2+6 = 200 lines |
| Bottles.SongLines | task/07-yield-tasks.js:37-39 | for every `k < 97`, line `2k` is the verse for `99-k` and line `2k+1` announces `98-k` |
| Bottles.SongEnding | task/07-yield-tasks.js:42-47 | lines 194 to 199 are the six fixed lines, and line 199 is "Go to the store and buy some more, 99 bottles of beer on the wall." |
| Bottles.TopCounts | task/07-yield-tasks.js:36-39 | the counts 99 and 98 are written "99" and "98" |
| Bottles.SongOpening | task/07-yield-tasks.js:36-39 | line 0 is the verse for 99 and line 1 is the take-one-down line for 98 |
| Bottles.OpeningText | task/07-yield-tasks.js:15-16 | the first two lines, letter for letter, are the two lines the documentation lists first |
| Bottles.TwoBottlesIsGeneric | task/07-yield-tasks.js:42 | the first fixed line is exactly what the loop's verse template would give for 2 |
| Bottles.ClosingShapes | task/07-yield-tasks.js:43-47 | lengths and single letters of the last five fixed lines, the letters that tell them apart from loop lines |
| Bottles.VerseNotSpecial | task/07-yield-tasks.js:38 | no verse line, for any count, equals one of the last five fixed lines (the singular "1 bottle", "no more", the store line) |
| Bottles.TakeOneDownNotSpecial | task/07-yield-tasks.js:39 | no take-one-down line, for any count, equals one of the last five fixed lines |
| Bottles.LoopLinesNotSpecial | task/07-yield-tasks.js:37-39 | none of the loop lines, from any starting counter, is one of the last five fixed lines |
| Bottles.SpecialLinesOnlyInClosing | task/07-yield-tasks.js:36-47 | the singular, "no more" and store lines occur in the song only among the last six lines |
| Bottles.BottlesSong.constructor | task/07-yield-tasks.js:36 | a fresh generator has the counter at 99, has yielded nothing, and will yield the whole song |
| Bottles.BottlesSong.LoopTest | task/07-yield-tasks.js:37-42 | at the loop test: with the counter above 2 it yields the verse for the counter, otherwise it leaves the loop and yields the first fixed line |
| Bottles.BottlesSong.TakeDown | task/07-yield-tasks.js:39 | the counter is decremented first, then the line naming the new counter is yielded |
| Bottles.BottlesSong.ClosingStep | task/07-yield-tasks.js:42-48 | after `k` fixed lines it yields fixed line `k`; after the sixth it reports the end |
| Bottles.BottlesSong.Next | task/07-yield-tasks.js:35-48 | one pull yields the next line still due, or `None` exactly when nothing is due; the invariant `emitted + Remaining() == lyrics` is kept, where the constructor fixes `lyrics` to the whole song |
| Bottles.Sing | task/07-yield-tasks.js:35-48 | pulling until the end collects exactly the song, 200 lines |
| Fibonacci.FibonacciSequence.constructor | task/07-yield-tasks.js:61-62 | a fresh generator holds `prevPrevNum = 0`, `prevNum = 1` and has yielded nothing |
| Fibonacci.FibonacciSequence.Next | task/07-yield-tasks.js:64-73 | every pull yields another value, never an end, and the `n`-th value (from 0) is `Fib(n)`; after the shifts the three fields hold three consecutive Fibonacci numbers |
| Fibonacci.Take | task/07-yield-tasks.js:60-75 | the first `n` values are `Fib(0) .. Fib(n-1)`; they start 0, 1, and each later one is the sum of the two before it |
| Fibonacci.FirstFourteen | task/07-yield-tasks.js:53 | the first fourteen values are 0, 1, 1, 2, 3, 5, 8, 13, 21, 34, 55, 89, 144, 233 |
| Trees.ChildrenShrink | task/07-yield-tasks.js:148-153 | replacing a non-empty forest by the children of its roots loses exactly its roots, so the total size strictly decreases |
| Trees.PreOrderLength | task/07-yield-tasks.js:112-118 | the pre-order lists as many nodes as the tree has |
| Trees.PreOrderStartsWithRoot | task/07-yield-tasks.js:109-113 | the pre-order starts with the root |
| Trees.PreOrderForestAppend | task/07-yield-tasks.js:116 | the pre-order of a worklist made by `concat` is the two pre-orders, one after the other |
| Trees.ChildrenAtDepth | task/07-yield-tasks.js:131 | the children of the depth-`d` nodes, in order, are the depth-`d+1` nodes |
| Trees.AtDepthBeyondHeight | task/07-yield-tasks.js:131 | there are no nodes below the height of a forest |
| Trees.LevelOrderIsLevels | task/07-yield-tasks.js:131 | level order is the tree listed depth by depth, all nodes of each depth from left to right |
| Trees.AtDepthNonEmpty | task/07-yield-tasks.js:131 | every depth up to the height holds a node |
| Trees.LevelOrderPermutesPreOrder | task/07-yield-tasks.js:131 | level order lists the same nodes as pre-order, each as often |
| DepthFirst.DepthTraversal.constructor | task/07-yield-tasks.js:109 | the worklist starts as `[root]` and the whole pre-order is still due |
| DepthFirst.DepthTraversal.Next | task/07-yield-tasks.js:112-118 | on an empty worklist, `None` and nothing changes; otherwise it yields the front node and the worklist becomes its children followed by the rest (a node without children adds nothing); this keeps "yielded + pre-order of the pending nodes = `PreOrder(root)`", and the size of the pending subtrees drops by one |
| DepthFirst.Traverse | task/07-yield-tasks.js:108-120 | the walk yields exactly `PreOrder(root)`: as many nodes as the tree has, the root first |
| DepthFirst.ExampleShapePreOrder | task/07-yield-tasks.js:89-105 | a tree shaped like the documentation example, with any ids, is listed in the order 1..8 of that example |
| DepthFirst.Example | task/07-yield-tasks.js:105 | the documentation tree yields the ids 1, 2, 3, 4, 5, 6, 7, 8 |
| BreadthFirst.Drain | task/07-yield-tasks.js:148-155 | the queue loop as a function: it yields one node for every node of the pending subtrees |
| BreadthFirst.QueueShrinks | task/07-yield-tasks.js:149-152 | taking the front node off and appending its children lowers the total size of the queue by one, so the loop ends |
| BreadthFirst.DrainLevel | task/07-yield-tasks.js:148-155 | a queue holding the rest of one level followed by the children of the part already taken yields that rest, then continues from the next level |
| BreadthFirst.DrainIsLevelOrder | task/07-yield-tasks.js:148-155 | the queue loop yields the level order of its starting queue |
| BreadthFirst.BreadthTraversal.constructor | task/07-yield-tasks.js:145 | the queue starts as `[root]` |
| BreadthFirst.BreadthTraversal.Next | task/07-yield-tasks.js:148-154 | on an empty queue, `None` and nothing changes; otherwise it yields the front node, and the node's children go after ALL pending nodes, in their own order (first in, first out) |
| BreadthFirst.Traverse | task/07-yield-tasks.js:144-156 | the walk yields the tree level by level (non-decreasing depth), each level from left to right; every node of the tree exactly as often as pre-order has it; the root first |
| BreadthFirst.ExampleShapeLevels | task/07-yield-tasks.js:133-141 | a tree shaped like the documentation example, with any ids, is listed in the order 1..8 of that example |
| BreadthFirst.ExampleLevels | task/07-yield-tasks.js:133-141 | the level order of the documentation tree has the ids 1..8 |
| BreadthFirst.Example | task/07-yield-tasks.js:133-141 | the documentation tree yields the ids 1, 2, 3, 4, 5, 6, 7, 8 |
| Merge.Ordered | task/07-yield-tasks.js:179-185 | one lockstep step yields two values, the smaller first |
| Merge.Merged | task/07-yield-tasks.js:172-202 | the output of the generator as the code computes it, with `|source1| + |source2|` values |
| Merge.MergedPermutes | task/07-yield-tasks.js:172-202 | the output has `|source1| + |source2|` values and is a rearrangement of the two sources |
| Merge.MergedFirstPair | task/07-yield-tasks.js:179-185 | with both sources non-empty, the output starts with their first values, the smaller first and the second source's on a tie |
| Merge.MergedPairAt | task/07-yield-tasks.js:178-188 | output positions `2i` and `2i+1` hold `source1[i]` and `source2[i]`, the smaller one first and the second source's on a tie |
| Merge.MergedTail | task/07-yield-tasks.js:191-201 | after the `min` lockstep pairs, the rest of the longer source follows unchanged and in order |
| Merge.MergedSortedIff | task/07-yield-tasks.js:160-161 | the output is sorted exactly when `PairsChain` holds: each pair lies at or below the next, and the leftover is sorted and starts at or above the last pair |
| Merge.SortedSourcesUnsortedOutput | task/07-yield-tasks.js:178-188 | the sorted sources [1, 2] and [3, 4] give 1, 3, 2, 4, which is not sorted |
| Merge.StreamMerge | task/07-yield-tasks.js:160-165 | the merge the documentation describes: a rearrangement of both sources, starting with the smaller head, and sorted whenever both sources are sorted |
| Merge.MergeSequence.constructor | task/07-yield-tasks.js:173-176 | a fresh generator has yielded nothing; the whole merged output is still due |
| Merge.MergeSequence.LockstepTest | task/07-yield-tasks.js:178-185 | at the loop test: if both sources have a value, the smaller one is yielded; otherwise the generator goes on to drain the other source |
| Merge.MergeSequence.DrainSecond | task/07-yield-tasks.js:191-195 | once the first source is done, the next value of the second is yielded, or the end is reported |
| Merge.MergeSequence.DrainFirst | task/07-yield-tasks.js:196-200 | once the second source is done, the next value of the first is yielded, or the end is reported |
| Merge.MergeSequence.Start | task/07-yield-tasks.js:173-178 | the first pull reads the first value of each source and runs the loop test |
| Merge.MergeSequence.YieldLarger | task/07-yield-tasks.js:180-184 | the second `yield` of a pair gives the larger value, the first source's on a tie |
| Merge.MergeSequence.ResumeLockstep | task/07-yield-tasks.js:187-189 | after a pair both sources advance together, then the loop test runs again |
| Merge.MergeSequence.ResumeDrainFirst | task/07-yield-tasks.js:198-199 | while draining the first source, it advances and the next value is yielded |
| Merge.MergeSequence.ResumeDrainSecond | task/07-yield-tasks.js:193-194 | while draining the second source, it advances and the next value is yielded |
| Merge.MergeSequence.Next | task/07-yield-tasks.js:172-202 | one pull yields the next value still due, or `None` exactly when nothing is due; the invariant `emitted + Remaining() == output` is kept, where the constructor fixes `output` to `Merged(source1, source2)` |
| Merge.MergeAll | task/07-yield-tasks.js:172-202 | pulling until the end collects exactly `Merged(source1, source2)`, all values of both sources |
| Merge.DocExamples | task/07-yield-tasks.js:167-170 | the three documentation examples, on finite prefixes of the sources |

## Left out

- The generator protocol (`{ value, done }` objects, `return()`, `throw()`) is left out. A pull is `Next()`, and the end is `None`.
- The Fibonacci sequence is infinite. It is pulled through `Take(n)`, and no infinite sequence is built.
- Fibonacci.FibonacciSequence.Next: values are unbounded integers. JavaScript numbers are IEEE-754 doubles, which stop being exact after `Fib(78)` (past 2^53), and the model does not capture that loss.
- `currNum` starts `undefined` in JavaScript (line 67). Here it starts at 0. It is read only after it has been assigned.
- `mergeSortedSequences` receives two functions and calls each once to get an iterator (lines 173-174). Here the sources are finite sequences of integers, and a cursor stands for an iterator. Infinite sources and sources with side effects are not modelled.
- A tree node is a value `Node(id, children)`. JavaScript object identity, shared subtrees and cyclic graphs are not modelled; on a cycle the JavaScript walk never ends.
- A node without a `children` property is a node with no children. A `children` value that is present but not an array is not modelled.
- The costs of `shift()` and `concat` are not modelled, nor are the mocha timeouts named in the comments on lines 108 and 144.
- Template-literal formatting is modelled only for non-negative integer counts, by `NatToString`.
- The breadth-first claim "non-decreasing depth" is stated as `LevelOrder([root]) == Levels(root, 0)`. This says the output is depth 0, then depth 1, and so on, each level left to right. No separate per-node depth function is stated.
