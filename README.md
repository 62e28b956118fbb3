# Interference alignment, simulation bookkeeping and a text progress bar

This project models four parts of pyphysim in Dafny and proves properties of
the model.

- **The multi-user channel** (`ia/ia.py`, `MultiUserChannelMatrix`). The
  channel of K users is one matrix, cut into a K x K grid of blocks of
  non-uniform size. Block (k, l) is the channel from transmitter l to
  receiver k. It has Nr[k] rows and Nt[l] columns.
- **The alternating-minimisation solver** (`ia/ia.py`,
  `AlternatingMinIASolver`). It keeps one precoder F, one interference basis
  C and one receive filter W per user, and `step` recomputes C, then F,
  then W. The complex linear algebra (numpy's random draws, products,
  adjoints, sums, identities, zeros, Frobenius normalisation, the `peig` and
  `leig` eigenvector helpers and the inverse) is the `Kernel` parameter.
  The model relies on one thing about it: each routine returns a matrix of
  the shape numpy would. So what is proved about the solver is its
  dimension bookkeeping. Each update is a loop proved equal to a
  specification function (`NewC`, `NewF`, `FiltersUpTo`), and that function
  is what the shapes and the error cases are proved about.
- **Simulation bookkeeping** (`util/simulations.py`):
  - `Result` is a typed accumulator: sums, ratios, strings, floats.
  - `SimulationResults` stores results by name, with its append and merge
    operations.
  - `SimulationParameters` holds named parameters, some of them lists marked
    to be unpacked. `get_unpacked_params_list` returns one parameter set per
    element of the cartesian product of the marked lists.
- **The text progress bar** (`util/progressbar.py`): `center_message`, and
  `ProgressbarText`, whose `progress` writes only the characters still
  missing. Standard output is modelled as the text written so far.

Two Python behaviours are modelled as they are, where the documentation
suggests otherwise:
- `set_unpack_parameter` ignores its `unpack_bool` argument, so marking
  cannot be undone.
- `SimulationResults.__len__` counts names, not results.

Python's set of marked parameter names has no defined iteration order.
Every operation that visits it takes an `order` argument: a duplicate-free
enumeration of the set (`Enumerates`). The lemmas about the result say
where the result depends on that order and where it does not.

Modules, one per file: `Wrappers` (`wrappers.dfy`), `Matrices`
(`matrices.dfy`), `Channel` (`channel.dfy`), `Solver` (`solver.dfy`),
`Results` (`results.dfy`), `Parameters` (`parameters.dfy`) and
`Progressbar` (`progressbar.dfy`).

## Model

| member | source | states |
|---|---|---|
| Matrices.SubMatrix | ia/ia.py:120 | numpy's `m[r0:r1, c0:c1]` is (r1-r0) x (c1-c0) and entry (i, j) is entry (r0+i, c0+j) of `m` |
| Matrices.HStack | ia/ia.py:279-281 | `hstack([a, b])` has the rows of both, the columns of `a` first, then those of `b` |
| Matrices.TopRows | ia/ia.py:283-284 | `m[0:n]` keeps the first n rows, or every row when n is larger |
| Matrices.SumBounds | ia/ia.py:75 | `np.sum` of antenna counts is at least each count, and zero exactly when every count is zero |
| Matrices.Prefix | ia/ia.py:117-118 | `hstack([0, cumsum(s)])` starts at 0, ends at `sum(s)`, and each step adds the next count |
| Matrices.PrefixMonotone | ia/ia.py:117-118 | running sums of antenna counts never decrease |
| Matrices.PrefixSlot | ia/ia.py:117-120 | every row (column) index below the total lies in the interval of some user k |
| Matrices.PrefixSlotUnique | ia/ia.py:117-120 | no index lies in the intervals of two users |
| Matrices.PrefixSlotOnly | ia/ia.py:117-120 | the user `PrefixSlot` finds is exactly the one whose interval holds the index |
| Matrices.Broadcast | ia/ia.py:100-103 | a single count becomes K equal counts (`np.ones(K) * n`), a per-user list is kept as given |
| Channel.CheckChannel | ia/ia.py:75-81 | no error exactly when the matrix is sum(Nr) x sum(Nt) and Nr, Nt have K entries; the shape error is reported first |
| Channel.Block | ia/ia.py:110-120 | block (k, l) is Nr[k] x Nt[l] and holds the channel matrix's rows from the k-th running sum of Nr and columns from the l-th running sum of Nt |
| Channel.BlockEntry | ia/ia.py:16-22 | an entry inside receiver k's rows and transmitter l's columns is found in block (k, l) at its offset from the block's corner |
| Channel.BlocksTile | ia/ia.py:16-22 | the blocks tile the channel matrix: every entry belongs to exactly one receiver and one transmitter, and their block holds it |
| Channel.BlockExample | ia/ia.py:24-46 | with antennas [2, 4, 6] and [2, 3, 5], block (1, 0) is 4 x 2 and holds rows 2-5 and columns 0-1 |
| Channel.MismatchedLengthsRejected | ia/ia.py:78-81 | two receive counts with three transmit counts are rejected whatever the matrix |
| Channel.MultiUserChannelMatrix.constructor | ia/ia.py:56-60 | an empty channel: no users, no antennas, an empty matrix |
| Channel.MultiUserChannelMatrix.InitFromChannelMatrix | ia/ia.py:62-86 | the error is the one `CheckChannel` finds; on success H, Nr, Nt and K are the arguments; on an error nothing changes |
| Channel.MultiUserChannelMatrix.Randomize | ia/ia.py:88-108 | Nr and Nt are the broadcast counts, K is set, and H is the generator's next draw, of shape sum(Nr) x sum(Nt); the draw number advances by one |
| Channel.MultiUserChannelMatrix.GetChannel | ia/ia.py:110-120 | a block exists exactly for in-range users, and it is block (k, l) of shape Nr[k] x Nt[l] |
| Solver.CovC | ia/ia.py:213-220 | the interference covariance at receiver k, summed over the other transmitters, is Nr[k] x Nr[k] |
| Solver.Basis | ia/ia.py:226-228 | the new basis of receiver k has Nr[k] rows and Nr[k] - Ns[k] columns |
| Solver.NewC | ia/ia.py:211-228 | the new bases, one per receiver, of those shapes |
| Solver.Projector | ia/ia.py:245-248 | I - C C^H is square of the receiver's antenna count |
| Solver.Projectors | ia/ia.py:240-248 | one projector per receiver, Nr[k] x Nr[k] |
| Solver.CovF | ia/ia.py:258-265 | the leakage covariance at transmitter l, summed over the other receivers, is Nt[l] x Nt[l] |
| Solver.Leakage | ia/ia.py:261-265 | one receiver's term H_kl^H Y_k H_kl is Nt[l] x Nt[l] |
| Solver.Precoder | ia/ia.py:267 | the new precoder of transmitter l is Nt[l] x Ns[l] |
| Solver.NewF | ia/ia.py:256-268 | the new precoders have the shapes the old ones had, so the next step can use them |
| Solver.StackedFilter | ia/ia.py:279-281 | [H_kk F_k \| C_k] is square: Nr[k] x Nr[k] |
| Solver.FiltersUpTo | ia/ia.py:277-285 | the filters of the first users are Ns[k] x Nr[k], one per user; a failure names one of those users |
| Solver.FiltersOkIffInvertible | ia/ia.py:282 | the filters exist exactly when every stacked matrix is invertible |
| Solver.FiltersErrFirstSingular | ia/ia.py:278-282 | on failure the user named is the first one whose stacked matrix is singular |
| Solver.FiltersErrSingular | ia/ia.py:278-282 | the user a failure names has a singular stacked matrix |
| Solver.FiltersErrPrefixInvertible | ia/ia.py:278-282 | the filters of all users before the one a failure names exist |
| Solver.FiltersContent | ia/ia.py:278-284 | when the filters exist, filter k is the first Ns[k] rows of the inverse of [H_kk F_k \| C_k] |
| Solver.FiltersErrPersists | ia/ia.py:278-282 | once a user's matrix is singular, the outcome for more users names that same user |
| Solver.ComputeProjectors | ia/ia.py:244-248 | the loop computes exactly `Projectors` |
| Solver.InterferenceCovariance | ia/ia.py:213-220 | the inner loop computes exactly `CovC` over all users, an Nr[k] x Nr[k] matrix |
| Solver.AddInterference | ia/ia.py:214-220 | one pass of the inner loop takes `CovC` over the first l transmitters to `CovC` over the first l + 1 |
| Solver.LeakageCovariance | ia/ia.py:258-265 | the inner loop computes exactly `CovF` over all users, an Nt[l] x Nt[l] matrix |
| Solver.AddLeakage | ia/ia.py:259-265 | one pass of the inner loop takes `CovF` over the first k receivers to `CovF` over the first k + 1 |
| Solver.ComputeBases | ia/ia.py:211-228 | the outer loop computes exactly `NewC` |
| Solver.ComputePrecoders | ia/ia.py:240-268 | the two loops compute exactly `NewF` |
| Solver.ComputeFilters | ia/ia.py:277-284 | the loop, stopping at the first singular matrix, computes exactly `FiltersUpTo` for all users |
| Solver.NextFilter | ia/ia.py:279-284 | one pass appends user k's filter, or names k when its stacked matrix is singular |
| Solver.AlternatingMinIASolver.constructor | ia/ia.py:136-146 | no precoders, filters or bases, no streams, over a fresh empty channel |
| Solver.AlternatingMinIASolver.InitFromChannelMatrix | ia/ia.py:322-336 | delegates to the channel: the solver's K, Nr and Nt read the arguments on success and are unchanged on an error |
| Solver.AlternatingMinIASolver.RandomizeH | ia/ia.py:310-319 | delegates to the channel's `randomize`: broadcast counts, K set, and H the generator's next draw, with the draw number advanced by one |
| Solver.AlternatingMinIASolver.K | ia/ia.py:149-153 | in a solver ready to step, the number of users is the number of antenna counts, precoders and stream counts |
| Solver.AlternatingMinIASolver.Nr | ia/ia.py:155-159 | the receive antennas add up to the channel matrix's rows; when ready to step, there are K of them and each user's stream count is at most its receive antennas |
| Solver.AlternatingMinIASolver.Nt | ia/ia.py:161-165 | the transmit antennas add up to the channel matrix's columns; when ready to step, there are K of them and precoder l has Nt[l] rows |
| Solver.AlternatingMinIASolver.GetChannel | ia/ia.py:340-347 | delegates to the channel: a block exists exactly for in-range users, and it is block (k, l) of the channel matrix, of shape Nr[k] x Nt[l] |
| Solver.AlternatingMinIASolver.RandomizeF | ia/ia.py:287-308 | K normalised random precoders, F[k] of shape Nt[k] x Ns[k] and drawn as the k-th of the draws this call takes, so no two users share a draw, and Ns recorded; a count list shorter than K is an `IndexError` at the first missing index, which leaves the precoders drawn so far and Ns unchanged |
| Solver.AlternatingMinIASolver.UpdateC | ia/ia.py:204-228 | C becomes `NewC` of the precoders; F, Ns and W are unchanged |
| Solver.AlternatingMinIASolver.UpdateF | ia/ia.py:230-268 | F becomes `NewF` of the bases, with the shapes it had; C, Ns and W are unchanged |
| Solver.AlternatingMinIASolver.UpdateW | ia/ia.py:270-285 | W becomes the filters when every stacked matrix is invertible; otherwise the first singular user is reported and W is unchanged |
| Solver.AlternatingMinIASolver.Step | ia/ia.py:196-201 | C from the old precoders, F from the new bases, then W from both; the precoders stay ready for another step |
| Results.CodeOf | util/simulations.py:745-750 | `get_type` returns a code from 0 to 3 for the named types, and the stored code for any other |
| Results.TypeOfCode | util/simulations.py:640-646 | codes 0 to 3 are SUMTYPE, RATIOTYPE, STRINGTYPE and FLOATTYPE; any other code is kept as unknown |
| Results.CodeRoundTrip | util/simulations.py:745-750 | `get_type` returns the code the result was created with |
| Results.Updated | util/simulations.py:685-740 | `update` counts every call; a sum adds; a ratio adds value and total unless the total is 0 or the value exceeds it; strings and floats replace; an unknown type changes only the count |
| Results.Merged | util/simulations.py:752-766 | `merge` is allowed exactly for the same type and name and not for strings; counts, values and totals then add up |
| Results.ResultOf | util/simulations.py:768-776 | "Nothing yet" before any update; value/total for a ratio (a division by zero when the total is 0); the value otherwise |
| Results.Run | util/simulations.py:685-700 | a run of updates keeps the name and type and counts one update per sample |
| Results.RunAppend | util/simulations.py:685-700 | updating with xs then ys is updating with xs + ys |
| Results.MergeThenUpdate | util/simulations.py:752-766 | for sums, ratios and unknown types, merging commutes with a later update |
| Results.MergeOfRuns | util/simulations.py:752-766 | merging a result with a fresh result that saw samples ys equals updating the first with ys |
| Results.MergeOfSplitRun | util/simulations.py:752-766 | results that saw xs and ys separately merge into the result that saw xs + ys |
| Results.MergeCommutes | util/simulations.py:752-766 | merging is symmetric |
| Results.RatioAtMostTotal | util/simulations.py:714-722 | a ratio's value never exceeds its total, whatever samples it is given |
| Results.ResultExamples | util/simulations.py:598-637 | the class doctest: a sum of 13 and 4 is 17 after 2 updates; 4/10 and 3/4 give 7/14; merged into 3/11 they give 10/25 after 3 updates |
| Results.Result.constructor | util/simulations.py:648-656 | a fresh result of the given name and type code: value, total and count 0 |
| Results.Result.Create | util/simulations.py:659-674 | a fresh result updated once with the value and total |
| Results.Result.Update | util/simulations.py:685-740 | the new state is `Updated` of the old; false exactly where the ratio assertion fails |
| Results.Result.Merge | util/simulations.py:752-766 | false exactly where an assertion fails, and then nothing changes; otherwise the state is `Merged`, also when merging with itself |
| Results.Result.GetResult | util/simulations.py:768-776 | `get_result` is `ResultOf` the current state |
| Results.Appended | util/simulations.py:480-498 | `append_result` adds the result to the end of its name's list, starting one when there is none; other names are untouched |
| Results.AppendedOver | util/simulations.py:500-511 | after visiting some names of the other store, those names' lists follow the existing ones |
| Results.AppendedAgain | util/simulations.py:508-511 | appending results one by one extends a name's list by all of them |
| Results.AppendedOverStep | util/simulations.py:508-511 | visiting one more name appends that name's whole list |
| Results.AppendedOverNone | util/simulations.py:500-511 | before any name is visited the store is unchanged |
| Results.AllAppendedWellNamed | util/simulations.py:500-511 | appending a well-named store keeps every list non-empty and of its own name |
| Results.AllAppendedToEmpty | util/simulations.py:500-511 | appending into an empty store copies the other's lists |
| Results.MergedLast | util/simulations.py:533-535 | a merged list keeps its length and all but its last result |
| Results.PartlyMerged | util/simulations.py:533-535 | after visiting some names, exactly those have their last result merged |
| Results.PartlyMergedStep | util/simulations.py:533-535 | visiting one more name merges exactly that name's last result |
| Results.AllMerged | util/simulations.py:513-535 | an empty store takes the other's lists; otherwise the names stay the same, every list keeps its length and has its last result merged with the other's last (`MergedLast`), and the store stays well named |
| Results.PartlyMergedAll | util/simulations.py:533-535 | after visiting every name the partial merge is the whole merge |
| Results.DoctestTallies | util/simulations.py:419-446 | the states the class doctest's `update` calls produce |
| Results.AppendExample | util/simulations.py:432-440 | appending the second "lala" result lists the values 13 and 7 under two names |
| Results.MergeExampleAllowed | util/simulations.py:442-450 | the doctest stores are well named and every name merges |
| Results.MergeExampleKeys | util/simulations.py:447-454 | the merged store keeps the names "lala" and "lele" |
| Results.MergeExampleSum | util/simulations.py:449-450 | "lala" merges to 9 (2 + 7, only the last appended result) after 2 updates |
| Results.MergeExampleRatio | util/simulations.py:453-454 | "lele" merges to 15/25 after 4 updates |
| Results.SimulationResults.constructor | util/simulations.py:462-463 | an empty store |
| Results.SimulationResults.AddResult | util/simulations.py:470-478 | the name now holds that result alone; other names are untouched |
| Results.SimulationResults.AppendResult | util/simulations.py:480-498 | the new store is `Appended` of the old |
| Results.SimulationResults.AppendResults | util/simulations.py:510-511 | the inner loop appends a whole list to its name |
| Results.SimulationResults.AppendAllOf | util/simulations.py:508-511 | one outer pass appends one more name's list |
| Results.SimulationResults.AppendAllResults | util/simulations.py:500-511 | every list of the other store is appended to this store's list of that name, in any order of names |
| Results.SimulationResults.CopyAll | util/simulations.py:528-530 | an empty store takes exactly the other's lists |
| Results.SimulationResults.MergeLast | util/simulations.py:534-535 | succeeds exactly when the name's last result merges with the other's last; then one more name is merged, otherwise nothing changes |
| Results.SimulationResults.MergeLasts | util/simulations.py:533-535 | the loop merges names until one fails: all names merged, or a failing name reported with the names before it merged |
| Results.SimulationResults.MergeAllResults | util/simulations.py:513-535 | no failure exactly when the store is empty or every name merges, and then the result is `AllMerged`; otherwise the failing name is reported; names are kept and each list is unchanged or merged |
| Results.SimulationResults.Len | util/simulations.py:556-559 | the number of names |
| Results.SimulationResults.GetResultValuesList | util/simulations.py:540-548 | the values of the results under the name, in order; a `KeyError` for an unknown name |
| Results.AppendedLen | util/simulations.py:480-498 | appending grows the count of names only for a new name |
| Parameters.ProdZero | util/simulations.py:290 | `np.prod` of a shape is zero exactly when one dimension is zero |
| Parameters.ReduceMul | util/simulations.py:278 | `reduce` with multiplication is zero exactly when one of the lengths is zero |
| Parameters.ProdSnoc | util/simulations.py:278 | the product of a list with one more element is multiplied by it |
| Parameters.ReduceMulIsProd | util/simulations.py:278 | `reduce` with multiplication over a non-empty list is the product |
| Parameters.ProdRemove | util/simulations.py:272-278 | the product is any one element times the product of the others, whatever the order of visit |
| Parameters.Wrap | util/simulations.py:283-291 | numpy indexing accepts -n <= i < n, and a negative index counts from the end |
| Parameters.RavelMultiIndex | util/simulations.py:283-291 | a position exists exactly when every index is in range, and it is below the number of elements |
| Parameters.PositionBound | util/simulations.py:283-291 | a row-major position stays below the array size |
| Parameters.Unravel | util/simulations.py:283-291 | splitting a position gives one index per dimension |
| Parameters.RavelUnravel | util/simulations.py:283-291 | every position is the C-order position of its split indexes, each in range |
| Parameters.UnravelRavel | util/simulations.py:283-291 | in-range indexes have a position, and splitting it gives the indexes back |
| Parameters.Lengths | util/simulations.py:274 | one length per list |
| Parameters.PrefixAll | util/simulations.py:376 | each first element paired with each tail: |xs| * |tails| combinations |
| Parameters.PrefixAllAt | util/simulations.py:376 | combination i * |tails| + j is the i-th first element followed by the j-th tail |
| Parameters.Combinations | util/simulations.py:376 | `itertools.product` yields as many combinations as the product of the list lengths, each with one item per list |
| Parameters.Pick | util/simulations.py:376 | picking one item from each list at the given indexes |
| Parameters.CombinationAt | util/simulations.py:376 | the combination at the C-order position of some indexes picks those indexes: `itertools.product` enumerates in the order `ravel_multi_index` numbers |
| Parameters.CombinationsExample | util/simulations.py:346-355 | for c = [c0, c1] and d = [d0, d1], the four combinations in product order |
| Parameters.EnumeratesEmpty | util/simulations.py:357-359 | an enumeration of the marked names is empty exactly when nothing is marked |
| Parameters.Lists | util/simulations.py:363-370 | the marked lists in the order of visit |
| Parameters.AllItemsOrderFree | util/simulations.py:363-370 | whether every marked parameter is a list does not depend on the order of visit |
| Parameters.EnumeratesWithout | util/simulations.py:272-278 | removing one name from an enumeration enumerates the set without it |
| Parameters.LengthsWithout | util/simulations.py:272-278 | removing one marked name removes its length |
| Parameters.ProdIndependentOfOrder | util/simulations.py:272-278 | the product of the marked list lengths does not depend on the order of visit |
| Parameters.SimulationParameters.constructor | util/simulations.py:184-194 | no parameters and nothing marked |
| Parameters.SimulationParameters.Create | util/simulations.py:202-215 | a new object holding the given parameters, nothing marked |
| Parameters.SimulationParameters.Add | util/simulations.py:217-227 | the name now holds the value, replacing any previous one; marks unchanged |
| Parameters.SimulationParameters.SetUnpackParameter | util/simulations.py:229-246 | a `ValueError` exactly for an unknown name or a value that is not a list, and then nothing changes; otherwise the name is marked |
| Parameters.SimulationParameters.NumUnpackedVariations | util/simulations.py:272-278 | a count exists exactly when something is marked and every marked value is a list, and it is the product of their lengths |
| Parameters.SimulationParameters.NumUnpackedVariationsOrderFree | util/simulations.py:272-278 | the count does not depend on the order the set is visited in |
| Parameters.SimulationParameters.BuildVariation | util/simulations.py:386-392 | the marked names take the combination's items and every other parameter keeps its value |
| Parameters.SimulationParameters.AllIterable | util/simulations.py:363-370 | succeeds exactly when every marked parameter is a list |
| Parameters.SimulationParameters.BuildVariations | util/simulations.py:383-393 | one parameter set per combination, in the same order |
| Parameters.SimulationParameters.GetUnpackedParamsList | util/simulations.py:342-397 | with nothing marked, the parameters themselves; a failure exactly when a marked value is not a list; otherwise as many sets as `get_num_unpacked_variations` counts, set i built from combination i of the product |
| Progressbar.Copies | util/progressbar.py:222-225 | Python's `x * n` has n copies, none for n <= 0 |
| Progressbar.CopiesOfChar | util/progressbar.py:222-225 | copies of one character hold only that character |
| Progressbar.CopiesAdd | util/progressbar.py:113-114 | m copies of an item then n copies are m + n copies |
| Progressbar.FillSize | util/progressbar.py:214-217 | the fill is what is left of `length` after the message, its two blanks and both ends; it is non-negative exactly when they fit |
| Progressbar.CenterMessage | util/progressbar.py:200-226 | with room, the line has the requested length; without room, the message sits between blanks and the ends; it starts with `left` and ends with `right` |
| Progressbar.CenterMessageCentred | util/progressbar.py:217-220 | the left fill is the ceiling of half the room and the right fill its floor |
| Progressbar.CenterMessageExample | util/progressbar.py:211-212 | the documented example line |
| Progressbar.FloorDiv | util/progressbar.py:97 | Python 2 integer division rounds towards minus infinity |
| Progressbar.Percent | util/progressbar.py:92-101 | 100 for a final count of 0; otherwise between 1 and 100, and 100 exactly when the count reaches the final count |
| Progressbar.PercentOfCapped | util/progressbar.py:92-97 | a capped count is at most 100 percent, exactly 100 only for the whole |
| Progressbar.NextBlockcount | util/progressbar.py:107-117 | the bar never shows fewer characters than before |
| Progressbar.StepOutput | util/progressbar.py:107-121 | one call writes the characters still missing, plus a newline when complete |
| Progressbar.Header | util/progressbar.py:71-80 | the header is written exactly when the final count is not 0 |
| Progressbar.ProgressbarText.constructor | util/progressbar.py:58-81 | no characters shown, and the header written |
| Progressbar.ProgressbarText.Progress | util/progressbar.py:83-121 | the bar shows `NextBlockcount` characters and the output grows by `StepOutput`; the bar stays within its 50 characters |
| Progressbar.WithoutNewlinesAppend | util/progressbar.py:113-121 | text and newlines of two outputs add up |
| Progressbar.WithoutNewlinesOfBlocks | util/progressbar.py:113-114 | progress characters hold no newline |
| Progressbar.RunBlockcountIsRunningMax | util/progressbar.py:107-117 | after a run of calls the bar shows the largest target asked for, and never less than before |
| Progressbar.HighestTargetOfTail | util/progressbar.py:107-117 | the largest target of a run is the larger of the first call's and the rest's |
| Progressbar.RunStaysWithinBar | util/progressbar.py:103-117 | for a final count that is not negative the bar never exceeds 50 characters |
| Progressbar.StepOutputParts | util/progressbar.py:108-121 | one call's output is the missing characters and at most one newline |
| Progressbar.RunOutputBlocks | util/progressbar.py:36-41 | the progress characters written add up to how far the bar advanced |
| Progressbar.RunOutputNewlines | util/progressbar.py:119-121 | one newline for every call that found the bar complete |
| Progressbar.RunBlockcountMonotone | util/progressbar.py:108-117 | a run never lowers the characters shown |
| Progressbar.CompletionsOfTail | util/progressbar.py:119-121 | counting completed calls from the front |
| Progressbar.ProgressExample | util/progressbar.py:43-56 | the documented run: 20, 40, 50 and 100 write 10, 10, 5 and 25 characters, the last followed by a newline, and end with 50 shown |

## Left out

- Numerical values: complex floating-point arithmetic, random draws, norms and eigen-decompositions are the `Kernel` parameter. Only the shapes of their results are modelled, and the model does not fix what the numbers are.
- numpy's global random generator is modelled by the number of draws taken so far. `Kernel.randn(d, rows, cols)` is draw number d. `Randomize`, `RandomizeH` and `RandomizeF` take the next draw number as `draw` and return the number after their last draw as `next`; every draw gets its own number, so no two draws are equated. That a Gaussian draw is random is not modelled.
- `getCost` (ia/ia.py:175-194) is left out: it computes a floating-point Frobenius norm and has no shape bookkeeping of its own.
- `normalized` in `randomizeF` is `Kernel.normalize`. Dividing by the Frobenius norm is not modelled.
- Solver.AlternatingMinIASolver.UpdateC: the accumulator at ia/ia.py:213 starts as a zero vector that numpy broadcasts to a square matrix. `CovC` starts from an Nr[k] x Nr[k] zero matrix. That gives the same sum for K >= 2. For K = 1 nothing is added, so the source passes a zero vector, not a matrix, to `peig`, while the model passes a square zero matrix.
- Solver.AlternatingMinIASolver.UpdateF: ia/ia.py:258 passes Nt[l] twice to `np.zeros`, and the second one lands in the dtype argument, so the accumulator starts as a zero vector. `CovF` starts from the intended Nt[l] x Nt[l] zero matrix. That gives the same sum for K >= 2. For K = 1 nothing is added, so the source passes a zero vector, not a matrix, to `leig`, while the model passes a square zero matrix.
- numpy shape errors inside the solver are not modelled as errors. The solver's methods require `PrecodersReady` (and bases of the right shapes) instead, which states the shapes under which numpy raises nothing.
- Solver.AlternatingMinIASolver.constructor: `_Ns` starts as the integer 0 in the source. The model starts with no stream counts.
- Solver.AlternatingMinIASolver.RandomizeF: the loop's `IndexError` is an `indexError` result. Antenna and stream counts are naturals, while the source lets numpy build float arrays from `np.ones(K) * n`.
- Solver.AlternatingMinIASolver.RandomizeF: on an `IndexError` the model keeps only the precoders drawn before the missing index. The source has already replaced F by a length-K array (ia/ia.py:304), so its F keeps K entries, with the integer 0 from the missing index on. In both, the old precoders are gone.
- Channel.MultiUserChannelMatrix.GetChannel: Python's negative indexes and numpy's silently clipped slices are not modelled. An index k outside 0..|Nr|-1, or l outside 0..|Nt|-1, gives None.
- Channel.MultiUserChannelMatrix.InitFromChannelMatrix requires a well-formed matrix: numpy arrays always are.
- Result values and totals are integers. Float samples and Python's float division in `get_result` are not modelled. A ratio result is returned as its numerator and denominator.
- String values of STRINGTYPE results are not modelled: every value is an integer.
- The "Update Ignored" and "Warning" messages that `update` prints are not modelled. `__repr__` of all three classes, the `SimulationResults` iterator and `get_result_names` are also left out.
- Results.SimulationResults.AppendAllResults requires the other store to be a different object: appending a store to itself never ends in the source.
- Results.SimulationResults.MergeAllResults: stores hold result values (`Tally`), not shared `Result` objects. An empty store taking the other's lists, and a merge writing into a Result object that another store also holds, are therefore copies in the model, not aliases.
- The order in which Python iterates a set or a dictionary is not modelled. Loops over one take any order (`:|`), and `get_unpacked_params_list` takes it as the `order` argument.
- `get_pack_indexes`, `get_num_parameters`, `__getitem__`, `unpacked_parameters`, `save_to_file` and `SimulationRunner` are not part of this model. `SimulationRunner` drives simulations, processes and the clock.
- Parameters.RavelMultiIndex requires one index per dimension. numpy's behaviour for fewer indexes (a sub-array) or more (an `IndexError`) is not modelled. For an empty shape the source raises, because `reshape` gets no dimensions (util/simulations.py:290), while the model returns position 0.
- Parameters.SimulationParameters.SetUnpackParameter: "iterable" is modelled as "a list" (`Items`). Python strings, which are iterable, are not distinguished.
- Parameters.SimulationParameters.Create: `copy.deepcopy` is a value copy of the map. `get_unpacked_params_list` returns parameter maps rather than new `SimulationParameters` objects, and `[self]` rather than the object itself.
- `ProgressbarMultiProcessText` and `DummyProgressbar` (util/progressbar.py:18-26, 124-198) are left out: processes, shared values and sleeping are outside the model.
- Writes to `sys.stdout` are appends to the `out` string, and `flush` is not modelled.
