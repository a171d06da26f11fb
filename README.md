# Range-data generator, modelled in Dafny

The generator produces synthetic training data for an ultra-wideband indoor
positioning experiment. It walks a tag over a 3-D grid of positions, with x
outermost and z innermost. Each position is repeated once per trial. For each
emitted row it records the row number, the tag coordinates and one range per
anchor. It fills two tables in parallel:

- the *actual* table holds the true Euclidean distances;
- the *noised* (read) table holds those distances plus a random perturbation.

The model has five modules:

- `Distance` (`distance.dfy`): points, the squared distance, the true and the
  noisy distance.
- `Grid` (`grid.dfy`): the configuration values the loops read, and the
  mixed-radix row numbering of the (x, y, z, trial) index tuples.
- `ColumnNames` (`naming.dfy`): decimal rendering of the anchor index and the
  table header.
- `Tables` (`tables.dfy`): the class `RangeTable`, a dictionary of growing
  column lists.
- `Generator` (`generate.dfy`): table construction and the nested assembly
  loops, proved against the functions above.

The square root is a parameter `sqrt: real -> real`. Properties that depend on
it assume only `IsSqrt(sqrt)`: for every non-negative argument it returns the
non-negative root. The random numbers are a parameter `draws: (nat, nat) ->
Draw`. `draws(k, ai)` holds the four numbers that the noisy reading of anchor
`ai` in row `k` consumes, in the order they are drawn: two uniform samples that
pick the signs, one normal sample, and one uniform sample.

## Model

| member | source | states |
|---|---|---|
| `Distance.Square` | data/generate.py:21 | a coordinate difference raised to the power two is never negative, and it is positive unless the difference is zero |
| `Distance.SquaredDistance` | data/generate.py:21 | the radicand, the sum of the squared coordinate differences, is never negative and is zero exactly when tag and anchor coincide |
| `Distance.CalcDistance` | data/generate.py:18-21 | `calcDistance`: the square root of the radicand; with a true square root it is non-negative, squares back to the radicand, and is zero exactly when tag and anchor coincide |
| `Distance.SquaredDistanceSymmetric` | data/generate.py:21 | the sum under the root is the same with tag and anchor exchanged |
| `Distance.CalcDistanceSymmetric` | data/generate.py:18-21 | the distance from tag to anchor equals the distance from anchor to tag |
| `Distance.Signed` | data/generate.py:26-27 | a random sign (+1 below one half, -1 otherwise) keeps the magnitude of what it multiplies |
| `Distance.Perturbation` | data/generate.py:26-28 | the noise term `sign1*normal + sign2*ERR_MEAN*rand`, in draw order; with the uniform sample in [0, 1) its magnitude is at most that of the normal sample plus that of ERR_MEAN |
| `Distance.NoisedDistance` | data/generate.py:23-28 | `calcDistanceWithNoise`: the true distance plus exactly the draw's perturbation, so within the perturbation's bound of the true distance |
| `Distance.ScaledBound` | data/generate.py:28 | multiplying ERR_MEAN by a uniform sample in [0, 1) never increases its magnitude |
| `Grid.Config.TagAt` | data/generate.py:41-44 | the tag of row k: x advances once per y-axis sweep, y once per z-axis sweep, z once per batch of trials, each wrapping round its axis; each coordinate is a point of its own axis |
| `Grid.Config.PositionAt` | data/generate.py:41-44 | the tag position with number p, x outermost and z innermost; each coordinate is a point of its own axis |
| `Grid.Config.RowOf` | data/generate.py:41-54 | the row number `data_cnt` holds when the loops reach index tuple (ix, iy, iz, trial); an in-range tuple gets a row below the row count |
| `Grid.DivModUnique` | data/generate.py:41-45 | quotient and remainder are fixed by any decomposition with a remainder in range, which is how a row number is read back into the loop indices |
| `Grid.DivDiv` | data/generate.py:41-45 | dividing by one loop's row count and then by the next axis's length is dividing by their product |
| `Grid.MixedRadixBound` | data/generate.py:41-45 | an inner index in range, placed after an outer index in range, gives a combined index below the product of the two sizes |
| `Grid.RowDigitsInRange` | data/generate.py:41-45 | a row below the row count has an x index inside the x axis, and all inner axes and the trial count are non-empty |
| `Grid.PositionDigitsInRange` | data/generate.py:41-43 | a tag position below the position count has an x index inside the x axis, with non-empty y and z axes |
| `Grid.RowOfDecodes` | data/generate.py:41-54 | the loop indices (ix, iy, iz, trial) reach a row below the row count, its digits read back to those same indices, and its tag is (xs[ix], ys[iy], zs[iz]) |
| `Grid.RowOfDigits` | data/generate.py:41-54 | every row below the row count is the row the loops give to its own digits, so rows and index tuples match one to one |
| `Grid.TagAtPosition` | data/generate.py:41-45 | there are positions times trials rows, and the tag of row k is tag position k / trials, a position that does not depend on the trial count |
| `Grid.EmptyGrid` | data/generate.py:41-45 | no row is emitted exactly when some axis is empty or the trial count is not positive |
| `ColumnNames.DigitChar` | data/generate.py:37 | the character of decimal digit d lies between '0' and '9' and reads back to d |
| `ColumnNames.NatToString` | data/generate.py:37 | the `f'{idx}'` rendering: a non-empty digit string that reads back to the index and starts with '0' only for the index 0 |
| `ColumnNames.NatToStringInjective` | data/generate.py:37 | different indices render differently |
| `ColumnNames.AnchorName` | data/generate.py:37 | an anchor column name is "anchor" followed by at least one more character |
| `ColumnNames.AnchorNameInjective` | data/generate.py:36-38 | different anchors get different column names |
| `ColumnNames.HeaderShape` | data/generate.py:34-38 | a table over N anchors has exactly 4 + N pairwise distinct columns: no, tag_x, tag_y, tag_z, then anchor0 to anchor{N-1} in order |
| `Tables.RangeTable.constructor` | data/generate.py:34-35 | a new table holds the four empty key columns no, tag_x, tag_y, tag_z and no anchor column |
| `Tables.RangeTable.AddAnchorColumn` | data/generate.py:37-38 | adds an empty column named after the next anchor index and leaves every other column as it was |
| `Tables.RangeTable.AppendKeys` | data/generate.py:46-53 | appends the row number and the three tag coordinates to the key columns and touches nothing else |
| `Tables.RangeTable.AppendRange` | data/generate.py:57-58 | appends a range to one anchor's column only |
| `Generator.KeysAppend` | data/generate.py:46-53 | appending row n's number and tag keeps the key columns equal to the first n + 1 grid rows |
| `Generator.ColumnsAppend` | data/generate.py:55-58 | appending the next anchor's range for the current row keeps every anchor column equal to its expected prefix |
| `Generator.NewTables` | data/generate.py:34-38 | both tables start with the full header for every anchor, empty key columns and one empty column per anchor |
| `Generator.EmitRanges` | data/generate.py:55-58 | after the anchor loop, every anchor column of both tables holds the current row's true and noisy range respectively, and the key columns are unchanged |
| `Generator.EmitRow` | data/generate.py:46-58 | one trial adds exactly one complete, correct row to both tables and advances the counter by one |
| `Generator.EmitTrials` | data/generate.py:44-58 | the trial loop of one tag position adds one complete, correct row per trial to both tables, leaving the counter at the first row of the next z value |
| `Generator.ProgressComplete` | data/generate.py:46-53 | when both tables hold their first n rows, their key columns are identical and every anchor column has n entries |
| `Generator.Generate` | data/generate.py:34-58 | data_cnt ends at the product of the three axis lengths and the trial count. Every column has that many entries. `no` is 0 to n-1 and the key columns agree between the tables. Row k carries the tag of grid row k. Actual cells are the true distance and noised cells the noisy reading of draw (k, anchor) |
| `Generator.TrialRowsAgree` | data/generate.py:45-57 | rows of the same tag position, one per trial, carry the same tag and the same true range to every anchor |
| `Generator.CellsRelated` | data/generate.py:55-58 | each noised cell is the actual cell of the same row and anchor plus its draw's perturbation, bounded accordingly; the actual cell is non-negative and zero exactly when the tag sits on the anchor |

## Left out

- Configuration loading from generate.yaml (lines 7-16): the model takes the values as a `Config`. TRIAL_NUM is an integer, and a non-positive one gives no trials, as `range` does.
- The construction of the axes with `np.arange` (lines 30-32): the axes are given as sequences of reals. Floating-point stepping is outside the model.
- Floating-point arithmetic: coordinates and ranges are exact reals. `np.sqrt` is the parameter `sqrt`, and rounding is not modelled.
- The random number generator: its state, and the distributions of `np.random.rand` and `np.random.normal`, are replaced by the `draws` parameter. ERR_STDEV enters only as the scale of the normal distribution, so it does not appear as a value. The model does not capture that consecutive readings draw from one shared stream; each (row, anchor) reading gets its own draw.
- `Generator.Generate`: the noise oracle is assumed always to return. In the source, `np.random.normal(0.0, ERR_STDEV)` raises an error when ERR_STDEV is negative. With at least one grid row and one anchor, the script then stops at the first noisy reading, after row 0's keys and its first actual range have been appended, and writes no output. The model does not capture this abort; `Generate` always completes.
- Anchor positions are points with exactly three coordinates. The source only reads the first three entries of each configured list.
- The output stage (lines 60-74): the random folder name, `os.mkdir`, the CSV files and the copy of the configuration.
- `Tables.RangeTable.AppendKeys` bundles the source's four separate `append` calls on one table into one method. Nothing runs between those calls.
- `Tables.RangeTable.AddAnchorColumn` always adds a new key. Dictionary `update` on an existing key would replace its list, but the loop never repeats an index.
