# incytr-viz comparative pathway engine, modelled in Dafny

incytr-viz is a Dash application that compares cell-cell communication
pathways between two experimental groups, A and B. A pathway row is a
`ligand*receptor*em*target` molecule chain from a sender cell type to a
receiver cell type. Each group's metrics (sigprob, p-value, prs/tprs,
kinase scores) sit in columns carrying that group's suffix. This project
models the engine behind the views, not the views themselves:

- **Loading** (`headers.dfy`, `pathway_loading.dfy`, `clusters_loading.dfy`,
  `legacy_loading.dfy`, `legacy_input.dfy`).
  - It normalises headers and checks the required and optional columns,
    raising `ValueError`.
  - It splits `path` into its four roles, normalises sender and receiver, and
    extends `path`.
  - It drops duplicated and incomplete rows.
  - It derives group names from column and file names, and loads the
    cell-type population tables.
- **Per-group views and filter chains** (`frames.dfy`, `chains.dfy`,
  `pathways_filter.dfy`, `filter_policies.dfy`).
  - `PathwaysFilter` projects the table onto one group's columns (an object
    whose `__post_init__` rewrites its fields).
  - It splits rows by the sign of the fold change.
  - It ANDs the UMAP box, thresholds, outside-band prs/tprs, categorical
    selections, any-role test and the fail-closed kinase selector.
  - The older filters keep the same shape under their own policies: an
    inclusive band, an up/down direction, or strict inequalities.
- **Network graph** (`network.dfy`, `legacy_network.dfy`).
  - Nodes exist for populated cell types only, with a logarithmic diameter.
  - There is one edge per (sender, receiver) pair, weighted by its pathway
    count and coloured by its source node.
  - Edge widths are relative to a maximum taken over both groups.
  - The older cluster graph sizes nodes by their share of all cells.
- **Sankey diagram** (`sankey.dfy`).
  - It counts three stage pairs and optionally splits them by sender or
    receiver for colour.
  - Node ids are `label_stage`, without repeats, and links point to their
    ends by position.
  - The target stage is drawn only under a ceiling: 200, 75 or 50, by variant.
  - The app warns when the target stage is missing.
- **Interface state** (`ui_state.dfy`).
  - A click on a Sankey node extends a stage selection.
  - The UMAP zoom box passes from the scatter plot to the filter.
  - The slider values are read back from the filter panel's tree.

`wrappers.dfy` (`Option`, `Result` and the Python exceptions the code
raises), `seqs.dfy` (counting, de-duplication, tallies) and `text.dfy`
(`strip`, `lower`, `split`, `replace`, `join`, `endswith`) model the
Python and pandas primitives the engine relies on.

Tables are pandas DataFrames with named columns and rows mapping a column
to a cell: text, a real number, or missing (`NaN`/`None`). Each loop
that fills a list or a dictionary in the source is a `method` with a
`while` loop, proved against the function that specifies it. Stateful
objects are classes: `PathwaysFilter` and a frame whose columns are
rewritten in place.

## Model

| member | source | states |
|---|---|---|
| Headers.FormattedHasNoSpace | src/incytr_viz/app.py:48-55 | a formatted header never contains a space |
| Headers.FormatCanonical | src/incytr_viz/util.py:57-64 | a lowercase name with no whitespace and no `.group` spelling is left unchanged by formatting |
| Headers.ScanColumns | src/incytr_viz/app.py:153-155 | the scan loop marks each wanted column found exactly when it is among the formatted headers |
| Headers.RequiredFound | src/incytr_viz/app.py:153-165 | the scan-then-check succeeds exactly when every required column is among the formatted headers |
| Headers.KeepFormatted | src/incytr_viz/app.py:172-176 | the comprehension over `zip(headers, formatted)` returns the kept headers, in file order |
| Headers.ParsePathwayHeaders | src/incytr_viz/util.py:137-201 | the procedure returns the header selection: `ValueError` or the original headers to read |
| Headers.HeaderSelectionFails | src/incytr_viz/app.py:162-165 | `ValueError` is raised if and only if some required column is missing after formatting |
| Headers.SelectedCoverRequired | src/incytr_viz/app.py:172-176 | after success, every required column is among the selected headers once formatted |
| Headers.SelectedAreWanted | src/incytr_viz/app.py:172-176 | every selected header, formatted, is a required or an optional column |
| Headers.KeptBySound | src/incytr_viz/app.py:172-176 | every kept header is one of the headers, and its formatted name is wanted |
| Headers.KeptByComplete | src/incytr_viz/app.py:172-176 | every header whose formatted name is wanted is kept |
| PathwayLoading.NormalizeInPlace | src/incytr_viz/app.py:228-270 | the step-by-step column assignments and row filters leave the frame holding the normalised table |
| PathwayLoading.RoleCellOfFourParts | src/incytr_viz/app.py:241-244 | when the stripped path has four `*` parts, the unstripped one has four too, and role `i` is the stripped `i`-th part, never holding `*` or surrounding whitespace |
| PathwayLoading.RolesOfFourPartPath | src/incytr_viz/app.py:228-244 | every retained row's ligand, receptor, em and target are the stripped `*` parts 0-3 of its path |
| PathwayLoading.NormalizeRowLookup | src/incytr_viz/app.py:241-251 | a normalised row holds the four parts, the stripped lowercased sender and receiver, and the path extended with both |
| PathwayLoading.NormalizedPath | src/incytr_viz/app.py:247-251 | `path` becomes `path*sender*receiver` with the normalised endpoints, and is missing if any of the three is missing |
| PathwayLoading.NormalizedKeepsOthers | src/incytr_viz/app.py:241-251 | every column other than path, endpoints and roles keeps its value |
| PathwayLoading.NormalizedSound | src/incytr_viz/app.py:228-270 | every loaded row is the normalisation of some input row whose path has four parts |
| PathwayLoading.NormalizedComplete | src/incytr_viz/app.py:253-270 | every four-part input row whose normalisation has all required values is loaded |
| PathwayLoading.NormalizedClean | src/incytr_viz/app.py:253-270 | no two loaded rows are equal in every column, none has a missing required value, and each has its four role texts |
| PathwayLoading.GetPathwaysApp | src/incytr_viz/app.py:202-277 | the loader returns the app's pathway load of the header row and rows |
| PathwayLoading.LoadedAppClean | src/incytr_viz/app.py:253-270 | a successful load has every required column and the role columns, no duplicate rows, and no row missing `afc` or either `sigprob` |
| PathwayLoading.ReplaceKinaseValues | src/incytr_viz/util.py:298-308 | the replace loop clears every present `sik_*` indicator column and nothing else |
| PathwayLoading.ClearStep | src/incytr_viz/util.py:306-308 | one turn of the loop clears the first column when present, then the rest |
| PathwayLoading.ClearColumnsClears | src/incytr_viz/util.py:306-308 | after the loop, no cleared column holds 0, `False`, `"NA"` or `"nan"` |
| PathwayLoading.StaysCleared | src/incytr_viz/util.py:306-308 | a cell already cleared stays cleared through the remaining turns |
| PathwayLoading.GetPathwaysSik | src/incytr_viz/util.py:225-314 | the `sik_*` loader returns the same load followed by the replace loop |
| PathwayLoading.ValidatePathways | src/incytr_viz/i_o.py:100-196 | the columns are stripped and lowercased in place before any check, the rows renamed with them, and the result is the validation of the original table |
| PathwayLoading.ValidatedFails | src/incytr_viz/i_o.py:143-146 | `ValueError` if and only if one of the six required columns is missing after strip and lowercase |
| PathwayLoading.ValidatedColumns | src/incytr_viz/i_o.py:153 | the result starts with the present required and optional columns in list order, which include every required one |
| PathwayLoading.ValidatedClean | src/incytr_viz/i_o.py:182-194 | rows of a successful validation are distinct and hold all six required values |
| PathwayLoading.LoadPathways | src/incytr_viz/i_o.py:257-282 | fewer than two groups is an `IndexError` and leaves the frame alone; otherwise the frame's columns are renamed in place, the load fails with validation's exception or yields the input built from the validated table and the lowercased group names |
| PathwaysFiltering.NamespacedColumns | src/incytr_viz/util.py:415-420 | exactly the table's columns that start with `sigprob`, `p_value` or `siks_score` |
| PathwaysFiltering.RenamedClashes | src/incytr_viz/util.py:427-433 | a renamed column either keeps its name or shares a prefix with a namespace, so it never reads as a plain column |
| PathwaysFiltering.DefaultedCharacterised | src/incytr_viz/util.py:397-398 | an empty selection becomes the observed values of its column, a missing column raises `KeyError`, and a given selection is kept |
| PathwaysFiltering.InitializedFails | src/incytr_viz/util.py:391-413 | `__post_init__` raises if and only if some empty selection names a missing column |
| PathwaysFiltering.InitializedCharacterised | src/incytr_viz/util.py:391-413 | on success each empty selection is defaulted and every other field is unchanged |
| PathwaysFiltering.InitializedSelections | src/incytr_viz/util.py:391-413 | the same, stated against the table the initialised filter keeps |
| PathwaysFiltering.ViewColumnsOrigin | src/incytr_viz/util.py:423-450 | a view keeps, in order, the columns not ending with the other group's suffix; a namespaced one with its own suffix loses it, the rest keep their names |
| PathwaysFiltering.ViewNameStrips | src/incytr_viz/util.py:427-433 | putting the group's suffix back on a stripped namespaced name gives the original name |
| PathwaysFiltering.ViewFails | src/incytr_viz/util.py:425-426 | a view raises `KeyError("afc")` if and only if the fold-change sign is asked for and `afc` is missing |
| PathwaysFiltering.ViewRow | src/incytr_viz/util.py:423-450 | every view row comes from a table row, agrees with it on every plain column, and has the group's fold-change sign when asked |
| PathwaysFiltering.ViewAfcSign | src/incytr_viz/util.py:425-426 | with the sign asked for, group A's rows have `afc > 0` and group B's `afc < 0`; rows with `afc == 0` are in neither |
| PathwaysFiltering.FilteredCharacterised | src/incytr_viz/util.py:452-529 | `filter` succeeds exactly when the view does and no mask raises, and then keeps exactly the view rows passing every mask, in order |
| PathwaysFiltering.FilteredIdempotent | src/incytr_viz/util.py:452-529 | applying the same masks to the result again changes nothing |
| PathwaysFiltering.FilteredThresholds | src/incytr_viz/util.py:478-480 | every kept row is a view row, meets the sigprob threshold, and meets the p-value ceiling when that is truthy |
| PathwaysFiltering.FilteredBands | src/incytr_viz/util.py:482-490 | every kept row lies outside each `prs`/`tprs` band given with two bounds |
| PathwaysFiltering.ShortBandFails | src/incytr_viz/util.py:482-490 | a band with a single bound makes `filter` raise |
| PathwaysFiltering.FilteredCategory | src/incytr_viz/util.py:491-498 | every kept row has a selected value in each column under a membership test |
| PathwaysFiltering.FilteredCategories | src/incytr_viz/util.py:491-498 | every kept row has its ligand, receptor, em, target, sender and receiver among the selected ones |
| PathwaysFiltering.FilteredAnyRole | src/incytr_viz/util.py:499-505 | with molecules selected for any role, every kept row holds one of them in one of its four roles |
| PathwaysFiltering.FilteredUmap | src/incytr_viz/util.py:460-476 | with UMAP filtering on, each axis whose lower bound is truthy has its upper bound, and every kept row lies within that closed interval |
| PathwaysFiltering.UmapMissingUpperFails | src/incytr_viz/util.py:461-473 | a truthy lower bound without its upper bound raises `KeyError` |
| PathwaysFiltering.UmapIgnoredUnlessAsked | src/incytr_viz/util.py:460 | without UMAP filtering the result does not depend on the boxes |
| PathwaysFiltering.FalsyCeilingIgnored | src/incytr_viz/util.py:479-480 | a p-value ceiling of `None` or zero filters nothing |
| PathwaysFiltering.UnknownSelectorIgnored | src/incytr_viz/util.py:507-522 | a kinase selector naming no indicator column, `""` included, filters nothing |
| PathwaysFiltering.FilteredKinase | src/incytr_viz/util.py:507-522 | with a known selector, its indicator column is in the view and every kept row has a non-blank indicator |
| PathwaysFiltering.MissingKinaseColumnEmpties | src/incytr_viz/util.py:523-527 | when the view lacks the selector's column, the `KeyError` is caught and no row is kept |
| PathwaysFiltering.SigprobMonotone | src/incytr_viz/util.py:478 | raising the sigprob threshold never adds a row and never turns failure into success |
| PathwaysFiltering.PrsBandMonotone | src/incytr_viz/util.py:482-485 | widening the excluded `prs` band never adds a row |
| PathwaysFiltering.TprsBandMonotone | src/incytr_viz/util.py:486-490 | widening the excluded `tprs` band never adds a row |
| PathwaysFiltering.ObservedValuesPass | src/incytr_viz/util.py:397-413 | the observed values of a plain column hold the value of every row of either view |
| PathwaysFiltering.DefaultedSelectionsPass | src/incytr_viz/util.py:397-413 | after `__post_init__`, every selection given empty passes every row of either view |
| PathwaysFiltering.SikRofRNeverLoaded | src/incytr_viz/util.py:158-163 | no table the `sik_*` loader returns has a `sik_r_of_r` column |
| PathwaysFiltering.SikRofRNotInView | src/incytr_viz/util.py:423-450 | a view has no `sik_r_of_r` column unless the table has one |
| PathwaysFiltering.TrAsWrittenAlwaysEmpty | src/incytr_viz/util.py:519-520 | as written, selector `t_r` reads `sik_r_of_r`, so with no such column a successful filter keeps no row |
| PathwaysFiltering.SelectorsReadLoadedColumns | src/incytr_viz/util.py:507-522 | with `t_r` read as the `t`-of-`r` indicator, every selector names a loaded optional column; as written, `t_r` names none |
| PathwaysFiltering.ReadingsAgreeExceptTr | src/incytr_viz/util.py:507-527 | on every kinase selector but `t_r`, the selector table as written and the corrected one filter alike |
| PathwaysFiltering.PathwaysFilter.Filter | src/incytr_viz/util.py:452-529 | the method as written: on every selector but `t_r` it is the filter characterised above; with `t_r` and no `sik_r_of_r` column a successful call keeps no row |
| PathwaysFiltering.PathwaysFilter.constructor | src/incytr_viz/util.py:367-389 | the generated dataclass constructor stores the fields as given |
| PathwaysFiltering.PathwaysFilter.PostInit | src/incytr_viz/util.py:391-413 | sets the suffixes; raises exactly when the initialisation does, and otherwise leaves the initialised fields |
| PathwaysFiltering.NewPathwaysFilter | src/incytr_viz/util.py:367-413 | constructing a filter fails exactly when `__post_init__` raises, and otherwise yields a fresh, valid filter holding the initialised fields |
| FilterPolicies.DefaultsCharacterised | callbacks.py:44-55 | the defaults raise `KeyError` exactly when an empty selection names a missing column; otherwise each empty selection becomes the observed values and the rest of the request is unchanged |
| FilterPolicies.DefaultsIgnoreScores | data.py:88-99 | the defaults depend only on the selections: changing a score argument changes nothing they compute |
| FilterPolicies.DefaultsPassAll | callbacks.py:44-55 | every selection given empty lets every row of the table through |
| FilterPolicies.InclusiveScoresKept | callbacks.py:65-78 | every kept row meets the threshold, the truthy ceiling and each two-bound band, endpoints included |
| FilterPolicies.InclusivePicksKept | callbacks.py:80-95 | every kept row has its roles and endpoints among the selections and, when molecules are selected for any role, one of them in some role |
| FilterPolicies.InclusiveFsMonotone | callbacks.py:70-73 | narrowing the kept `final_score` band never adds a row |
| FilterPolicies.InclusiveSwMonotone | callbacks.py:65 | raising the sigweight threshold never adds a row |
| FilterPolicies.ShortInclusiveBandFails | callbacks.py:70-78 | a band with a single bound raises, whatever the rows |
| FilterPolicies.CallbacksScoresKept | callbacks.py:25-97 | every row the root filter keeps is a table row with `sigweight_<group>` at least the threshold, `p_value_<group>` at most a truthy ceiling, and each score within its band |
| FilterPolicies.CallbacksBoxKept | callbacks.py:57-63 | with a nonempty UMAP dictionary, the dictionary held all four bounds and every kept row lies in the closed box |
| FilterPolicies.CallbacksBoxNeedsAllBounds | callbacks.py:57-63 | a nonempty UMAP dictionary missing a bound makes the filter raise |
| FilterPolicies.CallbacksPicksKept | callbacks.py:80-95 | the categorical and any-role selections hold for every kept row |
| FilterPolicies.CallbacksFsMonotone | callbacks.py:70-73 | in the root filter, narrowing the `final_score` band never adds a row |
| FilterPolicies.DataScoresKept | data.py:101-116 | every row the `data.py` filter keeps meets the group's sigweight threshold, the truthy p-value ceiling and the inclusive bands, the columns named after the group's suffix |
| FilterPolicies.DataPicksKept | data.py:118-135 | the categorical and any-role selections hold for every kept row |
| FilterPolicies.DataNeedsSigweight | data.py:101 | without any sigweight column, the suffix lookup's `StopIteration` escapes the filter |
| FilterPolicies.DataSwMonotone | data.py:101 | raising the sigweight threshold never adds a row |
| FilterPolicies.SankeyScoreKept | sankey.py:44-49 | every kept row's score has the chosen sign, zero allowed either way, and an absolute value at least a truthy threshold |
| FilterPolicies.SankeyPickKept | sankey.py:50-61 | a kept row's value is in every nonempty selection that tests its column |
| FilterPolicies.SankeyPicksKept | sankey.py:50-61 | every nonempty selection holds the kept row's sender, receiver, ligand, receptor, em and target |
| FilterPolicies.SankeyUnfilteredKeepsAll | sankey.py:30-68 | with no direction, no truthy threshold and no selection, the input comes back unchanged |
| FilterPolicies.SankeyZeroBothWays | sankey.py:44-47 | a zero-score row is kept by `up` exactly when it is kept by `down` |
| FilterPolicies.StrictKept | clusters.py:96-102 | every row the strict filter keeps has a nonzero score of the chosen sign, with absolute value above a truthy threshold |
| FilterPolicies.StrictWithinSankey | clusters.py:96-102 | the strict filter keeps a subset of what `filter_pathways_df` keeps for the same direction and threshold |
| FilterPolicies.StrictStronger | clusters.py:96-102 | mask by mask, the strict comparisons imply the inclusive ones on the same columns |
| Chains.RunCharacterised | callbacks.py:57-97 | a chain of `df = df[mask]` steps succeeds exactly when no stage raises and every mask finds its columns, and then keeps the columns and exactly the rows passing every mask, in order |
| Chains.RunError | callbacks.py:57-97 | the error of a failing chain is the one its first failing stage raises |
| Chains.PassesStage | callbacks.py:57-97 | every kept row comes from the input and passes each mask of the chain |
| Chains.FailStageFails | src/incytr_viz/util.py:482-490 | a stage that raises makes the whole chain raise |
| Chains.RunReplace | callbacks.py:57-97 | replacing one mask by a weaker one on the same columns raises in the same cases and keeps at least the same rows |
| Chains.RunIdempotent | callbacks.py:57-97 | running a chain again over its own result changes nothing |
| Chains.RunWeaker | clusters.py:96-102 | a chain of stronger masks raises in the same cases as the weaker one and keeps a subset of its rows |
| Chains.SelectAllMonotone | callbacks.py:57-97 | rows passing every strong mask pass every weak one, so no more rows are kept |
| Chains.SelectAllIdempotent | callbacks.py:57-97 | selecting again with the same masks changes nothing |
| Frames.Select | src/incytr_viz/app.py:239 | a boolean mask keeps exactly the rows passing the test, each a row of the input |
| Frames.Where | src/incytr_viz/util.py:478 | `df[mask]` raises `KeyError` for a column the mask reads and the table lacks; otherwise it keeps the columns and the passing rows |
| Frames.SelectAll | src/incytr_viz/util.py:491-498 | a conjunction of masks keeps exactly the rows passing all of them |
| Frames.ChainIsConjunction | src/incytr_viz/util.py:478-505 | masking step by step keeps the same rows as one conjoined mask |
| Frames.SelectIdempotent | src/incytr_viz/util.py:478 | masking a second time with the same test changes nothing |
| Frames.SelectMonotone | src/incytr_viz/util.py:478 | a stronger test keeps no more rows than a weaker one, and only rows the weaker one keeps |
| Frames.CatCell | src/incytr_viz/app.py:247-251 | `str.cat` with a separator is missing exactly when either operand is, and otherwise joins the two texts |
| Frames.AddColumns | src/incytr_viz/app.py:241-244 | assigning new columns keeps the existing ones first and in order, adds each new one, and keeps names distinct |
| Frames.RenameRowAt | src/incytr_viz/app.py:219-220 | after `usecols` and the renaming, each new name holds the cell of the old column at its first position |
| Frames.RenameRowKeeps | src/incytr_viz/i_o.py:102 | a name that only renames itself reads the same cell after the renaming, and a name not kept reads missing |
| Frames.Present | src/incytr_viz/i_o.py:153 | the wanted columns that are present, in the wanted order |
| Frames.DropInvalid | src/incytr_viz/app.py:253-270 | removing duplicates and rows missing a required value leaves distinct rows of the input, none missing a value, and keeps every row that has all its values |
| Frames.FirstMissing | src/incytr_viz/app.py:258 | reports a missing column exactly when some listed column is absent |
| ClustersLoading.Positives | src/incytr_viz/app.py:92 | exactly the positive numeric populations |
| ClustersLoading.MinPositive | src/incytr_viz/app.py:91-93 | the smallest positive population, which is one of the populations; none exactly when no population is positive |
| ClustersLoading.ClusterRowLookup | src/incytr_viz/app.py:86-95 | a cluster row holds the stripped, lowercased type, the group taken from the condition, the filled population and its ratio, and no condition column |
| ClustersLoading.ClusterRowsFromRaw | src/incytr_viz/app.py:78-95 | one cluster row per input row, read under the stripped lowercase column names, with population never missing |
| ClustersLoading.PickedCells | src/incytr_viz/app.py:84 | projecting onto the three cluster columns keeps their cells |
| ClustersLoading.ClustersResult | src/incytr_viz/app.py:78-114 | a missing column raises; a successful load has exactly two distinct groups and every row's group is one of them |
| ClustersLoading.RatioAtLeastOne | src/incytr_viz/app.py:91-93 | every positive population's ratio to the smallest positive one is at least 1, and exactly 1 at the smallest |
| ClustersLoading.GroupNameFromPath | i_o.py:84 | the group named by a file path holds no `_` |
| ClustersLoading.GroupNameOfFile | i_o.py:84 | the group of `dir/group_rest` is the lowercased text before the first `_` of the base name |
| ClustersLoading.LoadCellClusters | i_o.py:78-115 | the `concat` loop raises the first bad file's error, and otherwise returns every file's rows in file order with the colour column added |
| ClustersLoading.AllClustersPrefixFails | i_o.py:89-93 | a failing file fails the whole load with its error, whatever follows it |
| ClustersLoading.FileClustersRow | i_o.py:94-99 | each row of one file carries that file's group and a filled population |
| ClustersLoading.AllClustersGroups | i_o.py:82-101 | every loaded row carries the group named by one of the files, and a filled population |
| LegacyLoading.FirstIndexContaining | util.py:13 | the position of the first name containing the text; none exactly when no name contains it |
| LegacyLoading.SecondPart | util.py:13 | `split("_")[1]` succeeds exactly when the name holds `_`, giving the second part, and raises `IndexError` otherwise |
| LegacyLoading.GroupSuffixSources | util.py:11-16 | `StopIteration` exactly when no column names a sigweight; otherwise group A's suffix comes from the first sigweight column and group B's from the last |
| LegacyLoading.NamesShareSuffix | util.py:18-28 | `SIGWEIGHT` and `PVAL` fail together, with the escaping `StopIteration` exactly when no column names a sigweight, and otherwise name `sigweight_` and `p_value_` with the same group suffix |
| LegacyLoading.PValueAvailableIff | util.py:38-40 | p-values are available exactly when some column name contains `p_value_` |
| LegacyLoading.Containing | i_o.py:143-146 | exactly the names containing the text, in column order |
| LegacyLoading.TargetNeedsFourParts | i_o.py:133-136 | the `target` role is text only when the path had at least four parts |
| LegacyLoading.LoadLegacyFails | i_o.py:131-153 | the load fails exactly when `path`, `sender` or `receiver` is missing, there are not exactly two sigweight columns, the p-value columns are neither none nor two, or a sigweight name has no `_` |
| LegacyLoading.LoadLegacyClean | i_o.py:176-188 | a successful load keeps distinct rows with every kept value present, `target` among them |
| LegacyInput.RawPart | data.py:40-43 | the unstripped `i`-th `*` part of the path, missing exactly when the path is missing or too short |
| LegacyInput.RawRolesLookup | data.py:40-43 | each role column holds its raw part of the path; every other column is untouched |
| LegacyInput.ReverseRows | util.py:16 | `df[::-1]` keeps the columns as they are |
| LegacyInput.PValOfFrameIgnoresGroup | data.py:60-64 | given the frame instead of its columns, the p-value name is the same for both groups |
| LegacyInput.FirstSuffixDecides | data.py:60-64 | as written, both groups' p-value names carry group A's suffix |
| LegacyInput.AsWrittenLosesGroupB | data.py:60-67 | as written, when the first and last sigweight columns name different groups `x` and `y`, `p_value_y` is never kept and `p_value_x`, when present, is kept twice |
| LegacyInput.LoadPathwaysInput | data.py:37-67 | renames the frame's columns in place, adds the four raw roles, and returns the corrected load; a frame without `path` is left renamed |
| LegacyInput.CorrectedKeepsPValues | data.py:60-66 | corrected, each group's p-value column is kept whenever the frame has it |
| LegacyInput.KeptColumns | data.py:66-67 | every kept column is a present wanted name, and the four role columns are kept |
| LegacyInput.WantedRoles | data.py:45-50 | the wanted names list the four role columns right after `path` |
| LegacyInput.PreparedRoles | data.py:39-43 | a prepared frame has the four role columns, each holding its raw part of the renamed row's path |
| LegacyInput.TwoGroupsPrepared | data.py:39-43 | a file with columns `path`, `sigweight_x`, `sigweight_y`, `p_value_x`, `p_value_y` is prepared with the four role columns appended |
| LegacyInput.TwoGroupsLosesPValueY | data.py:60-66 | counterexample: as written, `p_value_y` is lost although the frame has it |
| LegacyInput.TwoGroupsKeepsBothPValues | data.py:60-66 | corrected, the same frame keeps both `p_value_x` and `p_value_y` |
| LegacyInput.TwoGroupsFileLoads | data.py:37-67 | end to end, that file loads without `p_value_y` as written, and with both p-value columns once corrected |
| Network.LogMonotone | src/incytr_viz/util.py:564-575 | under the logarithm's laws, `log` never decreases |
| Network.NodesOf | src/incytr_viz/app.py:604-609 | every row with a shown population yields its node, and no more nodes than rows |
| Network.NodeSource | src/incytr_viz/app.py:587-609 | every emitted node is the node of a row whose population is nonzero and not missing |
| Network.WithDiametersAt | src/incytr_viz/app.py:563-583 | each row's `node_diameter` is the diameter of its population measured among all populations |
| Network.WithDiametersKeeps | src/incytr_viz/app.py:565 | adding the diameter column keeps every other cell |
| Network.LoadNodesFromShown | src/incytr_viz/app.py:540-609 | every node comes from a cluster row with a shown population, with the row's type as id and label and its population as size |
| Network.LoadNodesOfShown | src/incytr_viz/app.py:540-609 | every cluster row with a shown population gets a node of its type whose width and height are the row's diameter |
| Network.NonePositiveZeroDiameters | src/incytr_viz/app.py:566-569 | with no positive population every diameter is 0 |
| Network.SmallestDiameter | src/incytr_viz/app.py:571-582 | the smallest positive population gets area 400, so its diameter does not depend on the scale factor |
| Network.DiameterMonotone | src/incytr_viz/app.py:571-582 | for a scale factor above 1, a larger positive population never gets a smaller diameter |
| Network.MinNum | callbacks.py:123 | the smallest number among the cells, skipping missing ones; none exactly when no cell is a number |
| Network.LoadNodesLog2 | callbacks.py:100-167 | rewrites the frame's population (zeros made missing) and diameter columns, and returns the nodes of the rewritten rows |
| Network.Log2RowsFacts | callbacks.py:123-167 | a node is emitted exactly for a shown population, and a population equal to the baseline gets area 2000 |
| Network.Log2RowAt | callbacks.py:138-142 | row `j` holds its population with zero made missing, and the log2 diameter of that population from the baseline |
| Network.BaselineIsMin | callbacks.py:123 | the baseline is the smallest population, or 1 when that is 0; it is missing only when no population is a number |
| Network.Log2DiameterMonotone | callbacks.py:125-135 | in the log2 mapping a larger population never gets a smaller diameter |
| Network.LoadNodesTwoGroups | data.py:138-225 | writes colours, zero-free populations and both groups' diameters into the frame, and returns the nodes of the requested group |
| Network.TwoGroupRowAt | data.py:183-192 | a row's population in a group has zeros made missing, and its diameter is measured from the joint minimum of both groups |
| Network.JointMinBelow | data.py:186 | every shown population is at least the joint minimum |
| Network.JointMinNonNegative | data.py:186 | with no negative population the joint minimum is not negative |
| Network.TwoGroupsComparable | data.py:186-192 | both groups' diameters use one baseline, so a larger population in either group never gets a smaller diameter |
| Network.Base | src/incytr_viz/util.py:546-548 | the width before the exponent is never below the floor of 2 |
| Network.BaseBounds | src/incytr_viz/util.py:546-548 | for a weight up to the global maximum the base lies between 2 and 10, reaching 10 at the maximum |
| Network.WidthMonotone | src/incytr_viz/util.py:543-550 | a heavier edge is never drawn thinner, under either width rule |
| Network.PairKeys | src/incytr_viz/app.py:633 | the keys `groupby` sees: every pair of a row with both ends named, and only such pairs |
| Network.FirstColor | src/incytr_viz/app.py:644-648 | the colour of the first node with the label; none exactly when no node has it |
| Network.Drafts | src/incytr_viz/app.py:636-650 | the loop succeeds exactly when every pair's draft does, and then gives one edge per pair, in order |
| Network.DraftsPrefixFails | src/incytr_viz/app.py:644-648 | once a pair's sender has no node, the whole loop raises that error |
| Network.WithWidths | src/incytr_viz/app.py:652-658 | the width loop keeps one edge per edge, each given its width |
| Network.DraftEdges | src/incytr_viz/app.py:636-650 | the append loop over the pairs computes the drafts |
| Network.SetWidths | src/incytr_viz/app.py:652-658 | the loop over the edges sets every width |
| Network.LoadEdges | src/incytr_viz/app.py:612-660 | the procedure returns exactly what `load_edges` returns or raises |
| Network.LinkedRows | src/incytr_viz/app.py:622-626 | the link filter fails only for a missing sender or receiver column, and keeps exactly the input pathways whose ends are both node labels |
| Network.PairsFindColors | src/incytr_viz/app.py:644-648 | every pair's sender has a node, so the colour lookup's `next` never raises |
| Network.DraftsSucceed | src/incytr_viz/app.py:636-650 | drafting raises nothing when every sender has a node |
| Network.EdgesRaiseOnlyKeyError | src/incytr_viz/app.py:612-660 | `load_edges` raises if and only if the sender or receiver column is missing, and then raises `KeyError` |
| Network.EdgeAt | src/incytr_viz/app.py:636-658 | edge `i` is the draft of pair `i` with its width set |
| Network.PairAt | src/incytr_viz/app.py:633-635 | each pair is a key some row holds, with its number of rows, at least 1 |
| Network.EdgeEnds | src/incytr_viz/app.py:636-642 | each edge joins two drawn nodes by a pair some linked pathway holds; its id joins the two names, and its weight is the number of linked pathways with that pair |
| Network.EdgeLooks | src/incytr_viz/app.py:643-658 | each edge's label is its weight in decimal, its colour that of the first node labelled as its source, and its width the rule applied to its weight |
| Network.EdgesDistinct | src/incytr_viz/app.py:633-650 | no two edges join the same two nodes in the same direction |
| Network.LinkedPathwayHasEdge | src/incytr_viz/app.py:622-650 | every linked pathway with both ends named has an edge from its sender to its receiver |
| Network.EdgeOfPair | src/incytr_viz/app.py:636-650 | the `i`-th edge joins the ends of the `i`-th pair |
| Network.TotalWeightIsPathways | src/incytr_viz/app.py:633-650 | the edge weights add up to the number of linked pathways with both ends named |
| Network.EdgeWeights | src/incytr_viz/app.py:642 | one edge per pair, weighted by the pair's number of pathways |
| Network.MaxCount | src/incytr_viz/app.py:899-900 | the largest count of a tally, which some entry has; 0 for an empty one |
| Network.GlobalMaxPaths | src/incytr_viz/app.py:899-907 | the larger of the two groups' largest pair counts |
| Network.CountSelectAll | src/incytr_viz/app.py:623-626 | filtering pathways never raises the count of a pair |
| Network.WeightWithinGlobalMax | src/incytr_viz/app.py:899-919 | with the maximum taken over both groups, every edge weighs between 1 and that maximum, and under the plain rule every width lies between 2 and 10 pixels |
| LegacyNetwork.NodeSizeAsWritten | clusters.py:29-32 | as written, a size is a number exactly when the total is nonzero |
| LegacyNetwork.NodeSize | clusters.py:29-32 | the documented size is a number exactly when the total is nonzero |
| LegacyNetwork.SizesAddTo200 | clusters.py:29-32 | as written, the node sizes of a graph with any cells add up to 200% of its width |
| LegacyNetwork.SizesAddTo50 | clusters.py:30 | with the documented mapping the node sizes add up to 50% of the width |
| LegacyNetwork.NodeSizeMonotone | clusters.py:29-32 | under either mapping, a larger cluster gets a larger node, and an empty cluster a node of size 0 |
| LegacyNetwork.LoadNodes | clusters.py:54-82 | one node per cluster row, in order, each sized against the total population by the size mapping given: `NodeSizeAsWritten` for the load as written, `NodeSize` for the documented one |
| LegacyNetwork.LoadedNodes | clusters.py:54-82 | as written, the nodes are labelled by their cluster type, are square, and their widths share out 200% of the graph width; with no cells every width is missing |
| LegacyNetwork.CorrectedLoadedNodes | clusters.py:29-32 | with the documented size mapping, the loaded nodes' widths share out 50% of the graph width |
| LegacyNetwork.GroupKeys | clusters.py:104 | the keys `groupby` sees: every group pair of a row with both groups named, and only such pairs |
| LegacyNetwork.GroupPairs | clusters.py:104 | grouping raises `KeyError` exactly when a group column is missing, and otherwise tallies the keys |
| LegacyNetwork.Find | clusters.py:107-112 | the first edge with the key, or none exactly when no edge has it |
| LegacyNetwork.AccumulateNeverFires | clusters.py:105-121 | over pairs with distinct keys, as a dictionary's items are, the `weight +=` branch never runs and every pair appends its own edge |
| LegacyNetwork.MaxWeight | clusters.py:123 | the largest weight, which some edge has |
| LegacyNetwork.Widened | clusters.py:124-125 | the width loop gives every edge its width and changes nothing else |
| LegacyNetwork.FindEdge | clusters.py:107-112 | the `next(...)` search computes the first matching edge |
| LegacyNetwork.Accumulate | clusters.py:105-121 | the loop over the pairs computes the merged edges, as written |
| LegacyNetwork.SetWidths | clusters.py:124-125 | the loop sets every edge's width relative to the heaviest one |
| LegacyNetwork.LoadEdges | clusters.py:85-126 | the procedure returns exactly what `load_edges` returns or raises, and its widths are scaled |
| LegacyNetwork.EdgesOfPairs | clusters.py:104-126 | no pairs raises `ValueError` from `max`; otherwise one fresh edge per pair, widths relative to the heaviest |
| LegacyNetwork.GroupEdgesRaise | clusters_graph.py:95-136 | `load_edges` raises exactly for a filter `KeyError`, a missing group column, or no kept pathway with both groups; the first two raise `KeyError` |
| LegacyNetwork.GroupEdgeAt | clusters.py:104-125 | edge `i` is the fresh edge of pair `i`, its width relative to the heaviest pair |
| LegacyNetwork.GroupEdgeEnds | clusters.py:104-121 | each edge joins a distinct pair of groups some kept pathway has, and weighs the number of kept pathways with that pair |
| LegacyNetwork.KeptPathwayHasEdge | clusters.py:104-121 | every kept pathway with both groups named has the edge of its pair |
| LegacyNetwork.WidenedWidths | clusters.py:35-36 | widths lie in (0, 5] px, the heaviest edge gets exactly 5 px, and a heavier edge is never thinner |
| LegacyNetwork.WidthBounds | clusters.py:35-36 | a weight between 1 and the maximum gets a width in (0, 5], exactly 5 at the maximum |
| LegacyNetwork.WidthMonotone | clusters.py:35-36 | a heavier edge is never thinner |
| LegacyNetwork.CountedPathwaysPassFilter | clusters.py:96-102 | every pathway counted in an edge passed the strict filter and comes from the input |
| LegacyNetwork.GroupEdgesCountEveryPathway | clusters.py:104-121 | the edge weights add up to the number of kept pathways with both groups named |
| Sankey.FlowColoring | src/incytr_viz/app.py:673-693 | links are coloured by group exactly when the colour flow is "sender" or "receiver", by that column and the cluster palette; otherwise grey |
| Sankey.PaletteColorAbsent | src/incytr_viz/app.py:683-685 | a group name missing from the cluster palette gets a missing colour |
| Sankey.PaletteColorLast | src/incytr_viz/app.py:683-685 | a group name present in the palette gets the colour of its last palette entry, as building a dict from the pairs does |
| Sankey.Complete | src/incytr_viz/app.py:675-679 | `groupby(...).value_counts()` counts exactly the rows with no missing key column, and no others |
| Sankey.Ids | src/incytr_viz/app.py:724 | the node ids have no repeats and are exactly the links' source and target ids |
| Sankey.Position | src/incytr_viz/app.py:727-728 | the index found for an id is its first position in the id list |
| Sankey.DiagramOf | src/incytr_viz/app.py:722-733 | ids are distinct, each label belongs to its id, and every link's source and target index the position holding exactly its own source and target id, with its value and colour kept |
| Sankey.SankeyOf | src/incytr_viz/app.py:663-733 | the diagram is built exactly when every stage column (and the colour column, when colouring by group) exists; otherwise a KeyError names a missing one |
| Sankey.StageValuesSum | src/incytr_viz/app.py:675-679 | every counted row is counted once: a stage pair's link values add up to its number of complete rows |
| Sankey.LinkAt | src/incytr_viz/app.py:669-705 | each link is a key some complete row holds, valued by how many counted rows hold it (at least one), with ids of name plus "_" plus stage column and the colour of its group |
| Sankey.KeyOfComplete | src/incytr_viz/app.py:675-679 | a counted row is one of the input rows and has its source, target and group columns present |
| Sankey.LinksDistinct | src/incytr_viz/app.py:675-679 | no two links of a stage pair share their source, group and target |
| Sankey.RowHasLink | src/incytr_viz/app.py:675-679 | every row with its key columns present has the link of its key |
| Sankey.HigherCeiling | src/incytr_viz/app.py:714-722 | a higher target ceiling keeps every link a lower one keeps, and forcing targets draws all three stage pairs |
| Sankey.PackagedDrawsMore | callbacks.py:268-276 | the callbacks module (at most 75 targets) fails exactly when the packaged app (at most 200) does, and draws a prefix of its links |
| Sankey.LinkStage | src/incytr_viz/app.py:707-722 | every drawn link comes from the ligand-receptor, receptor-EM or (only when shown) EM-target counts |
| Sankey.TargetLinksIncluded | src/incytr_viz/app.py:719-722 | when the target stage is shown, every EM-target link is drawn |
| Sankey.IdsSeparateStages | src/incytr_viz/app.py:702-703 | with no "_" in names or columns, two ids are equal exactly when their name and stage both are, so one name at two stages gives two nodes; the label of an id is its name |
| Sankey.LinkIds | src/incytr_viz/app.py:702-722 | each drawn link's ids carry the stage columns of its stage pair, and neither end is missing |
| Sankey.LinkLabels | src/incytr_viz/app.py:725-728 | the node a link starts at is labelled with its source name and the node it ends at with its target name |
| Sankey.IdOrigin | src/incytr_viz/app.py:724 | every node id is the source or target id of some drawn link |
| Sankey.LinkOfId | src/incytr_viz/app.py:724 | every link id comes from a concrete drawn link |
| Sankey.LinkEndsPlain | src/incytr_viz/app.py:702-703 | on names without "_", both ends of every link are such names |
| Sankey.NodeColorOfId | util.py:68-76 | the colour of the node `x_stage` is the colour dictionary's entry for that stage, for the lower-case and the capitalised stage names alike |
| Sankey.StageColor | sankey.py:21-27 | the colour dictionary has exactly the four stage names as keys; any other segment raises a KeyError |
| Sankey.NodeColors | sankey.py:27 | colouring the ids succeeds exactly when every id has a colour, and gives each id its colour, in order |
| Sankey.IdColor | sankey.py:19-27 | on names without "_", every node id of the diagram is a name at one of the four stages and takes that stage's colour |
| Sankey.DiagramColors | sankey.py:335 | on names without "_", colouring the diagram's node ids raises nothing and each node gets its stage's colour |
| Sankey.StageNodeColors | sankey.py:27 | a list of stage nodes is coloured without error |
| Sankey.MaxNum | sankey.py:76-78 | the maximum skips missing values, is one of the numbers present and bounds them all, and is absent exactly when no value is a number |
| Sankey.ScoreRange | sankey.py:76-81 | the score range is (0, 0) when no score is a number, and otherwise its ends are scores in the column that bound every score |
| Sankey.PrepSankey | sankey.py:76-78 | a table without a `final_score` column raises a KeyError |
| Sankey.PrepSankeyResult | sankey.py:71-122 | `prep_sankey_data` succeeds exactly when the score and capitalised stage columns exist, returns the uncoloured diagram with a ceiling of 50 targets, and its score range is ordered |
| Sankey.DrawnTargetLink | src/incytr_viz/app.py:714-722 | when the target stage is drawn with a named target, some drawn link's target id ends in "target" |
| Sankey.DrawnTargetHasId | src/incytr_viz/app.py:724 | then some node id ends in "target" |
| Sankey.TargetIdIsDrawn | src/incytr_viz/app.py:702-724 | a node id ending in "target" only arises from a drawn target stage; ligand, receptor and EM ids never end so |
| Sankey.TargetIdPresent | src/incytr_viz/app.py:714-724 | some node id ends in "target" if and only if the target stage is drawn with a named target |
| Sankey.WarnIffTargetsHidden | src/incytr_viz/app.py:872 | the packaged app warns exactly when the diagram has links but the target stage is not drawn |
| UiState.UpdateFilterValue | src/incytr_viz/util.py:532-533 | the new selection holds the added name once and no repeats; from a list it is exactly the old names plus the new one, from anything else just the new name |
| UiState.UpdateFilterValueIdempotent | util.py:47-48 | adding the same name a second time leaves the same set of names |
| UiState.CustomData | src/incytr_viz/callbacks.py:532 | the clicked node's custom data is read exactly when the click has a first point whose custom data is text; otherwise the lookup raises |
| UiState.MalformedClickKeepsSelections | src/incytr_viz/callbacks.py:528-551 | no click, malformed click data, custom data without a `_`, or a part after it that names no stage leaves all four selections unchanged |
| UiState.ClickAddsLabel | src/incytr_viz/callbacks.py:532-542 | a click naming a stage adds the label before the first `_` to that stage's selection, as a set, and leaves the other three stages unchanged |
| UiState.ClickOnSankeyNode | src/incytr_viz/callbacks.py:514-551 | clicking the diagram node `x_stage` (no `_` in `x`) selects `x` at that stage and changes no other stage |
| UiState.NodeIdParts | src/incytr_viz/callbacks.py:533-534 | splitting the id `x_stage` on `_` gives the label `x` and the stage `stage` |
| UiState.UmapCallback | src/incytr_viz/callbacks.py:415-433 | a relayout event is stored exactly when it carries `xaxis.range[0]` |
| UiState.ParseUmapFilterData | src/incytr_viz/util.py:335-340 | a non-empty box is the stored event itself, and its `xaxis.range[0]` is truthy |
| UiState.UmapRoundTrip | src/incytr_viz/util.py:335-340 | an event stored by the UMAP callback reads back as itself when its x-range start is truthy and as the empty box otherwise |
| UiState.UmapZeroStartDropped | src/incytr_viz/util.py:338 | a zoom whose x-range starts at exactly 0 is stored but reads back as no box |
| UiState.Gathered | src/incytr_viz/util.py:345-348 | gathering the sliders succeeds exactly when every panel has at least two columns, and otherwise raises an IndexError |
| UiState.FirstValue | src/incytr_viz/util.py:350-353 | the value found is that of the first slider with the wanted index, and nothing is found exactly when no slider has it |
| UiState.FirstValueAt | src/incytr_viz/util.py:350-353 | the first slider carrying an index decides that index's value |
| UiState.GatherSliders | src/incytr_viz/util.py:345-348 | the gathering loop yields the gathered sliders or the IndexError |
| UiState.FindSlider | src/incytr_viz/util.py:350-353 | the scan returns the first matching slider's value, or none on `StopIteration` |
| UiState.LookUpSliders | src/incytr_viz/util.py:355-362 | the lookup loop maps each of the four slider ids to its first slider's value |
| UiState.ParseSliderValuesFromTree | src/incytr_viz/util.py:343-364 | the parser returns the slider values of the tree, or the IndexError |
| UiState.GatheredMembers | src/incytr_viz/util.py:345-348 | a slider is gathered exactly when it sits in one of the first two columns of some panel |
| UiState.SliderValuesCharacterised | src/incytr_viz/util.py:343-364 | the parser fails only with an IndexError and only for a short panel; otherwise it has exactly the keys sigprob, tprs, prs and p-value, each with its first gathered slider's value |
| UiState.MissingSliderIsNone | src/incytr_viz/util.py:357-362 | a slider id no slider in the panels carries maps to `None` |

## Left out

- Dash, Plotly and Cytoscape presentation is not modelled: layouts, callback wiring, stylesheets, histograms, figure sizing, `components.py`, `filters.py`, `stylesheet.py`, `incytr_stylesheets.py`, `main.py`, `run.py` and the package entry point. The model starts from the values the callbacks receive.
- File and environment access is not modelled: `pd.read_csv`, the `.csv`/`.tsv` sniffing and its `ValueError` (src/incytr_viz/app.py:203-210, i_o.py:120-125), `os.environ`, the module-level reads of `sankey.py` and the tables `clusters_graph.py` reads from disk. Tables are parameters.
- Caching decorators and logger output are left out, including the warning logged for a missing kinase column. The Sankey warning flag is the predicate `Sankey.Warn`.
- Colours are not computed: matplotlib palettes and `random_color` are external or non-deterministic. A cluster's colour is an opaque cell, and the Sankey palette is a parameter.
- Floating point is not modelled. Reals are exact, and `log`, `sqrt` and `pow` are fields of a `Math` record constrained only by the laws in `Network.Lawful`. No exact `np.log`, `np.round` or exponent value is reproduced.
- NumPy `NaN` is the missing cell. Other infinities and overflow are left out, except the infinite width a zero global maximum gives in `Network.WidthOf`.
- Comparisons between text and a number make pandas raise `TypeError`; in the model such a comparison is false.
- Duplicate column names are not modelled, because a row maps each name to one cell.
- Order: the source's sorted `groupby`/`value_counts` order and Python's `set` order are replaced by first-occurrence order; no contract depends on order.
- Text.LowerChar, Text.Lower: only ASCII letters are lowercased; Python's `str.lower` also folds non-ASCII letters. This reaches Headers.FormatHeader, the group names in PathwayLoading.LoadPathways, ClustersLoading.GroupNameFromPath, the sender and receiver names, the cluster types and Sankey.GroupKey.
- Frames.CatCell: an operand that is not text gives a missing cell. In the source, two numbers are added, and a number joined with text makes pandas raise `TypeError`.
- Widths and diameters are reals in the model. The source turns them into unit strings (`"px"` or `"%"`), and a `NaN` becomes the text `"nanpx"`; the model's missing cell stands for that text.
- Group names are the two values of `Group`. A `group_id` other than `"a"` or `"b"` makes `PathwaysFilter.filter` raise `UnboundLocalError` in the source; that error is left out.
- The unreachable `"positive"`/`"negative"` branch of `sankey.py:62-66` is left out.
- Regex escaping of group names (src/incytr_viz/util.py:427) is not modelled: the suffix is stripped as an anchored literal.
- `get_cn`, imported by `data.py`, is not part of this model. It is read as returning the column name it is given.
- JSON encoding is not modelled: the UMAP store holds the dictionary `json.dumps` would encode. Stored text that is not a JSON object is left out.
- UiState.Gathered: a panel without `props` or `children` keys raises a `KeyError` in the source. The model's panel always has both, so only the `IndexError` of a panel with fewer than two columns is modelled.
- UiState.CustomData: the kind of exception is recorded, but `update_filters_click_node` swallows every exception, so only "the selections are unchanged" is stated.
- PathwaysFiltering.PathwaysFilter.PostInit: on a `KeyError` the model sets only the two suffixes. The source has then already replaced the selections before the failing one, and the contract does not state the fields after a raise.
- The `PathwaysFilter` call sites in src/incytr_viz/app.py:811-829 and src/incytr_viz/callbacks.py:298-316 are not modelled. They omit the required `filter_afc_direction` or pass fields the dataclass does not declare. The dataclass is modelled as declared.
- `test.py` depends on fixture files and on code not shown, so it is not modelled.

## Findings

| source | as written | input that shows it | evidently intended | confidence | as-written member | corrected member |
|---|---|---|---|---|---|---|
| src/incytr_viz/util.py:519-520 | kinase selector `t_r` reads the column `sik_r_of_r` | any loaded table filtered with kinase selector `t_r`: `sik_r_of_r` is never among the optional columns loaded, so the filter keeps no row | `t_r` reads the target-of-receptor indicator `sik_t_of_r`, one of the loaded optional columns | not executed | PathwaysFiltering.TrAsWrittenAlwaysEmpty | PathwaysFiltering.SelectorsReadLoadedColumns |
| data.py:60-64 | `CN.PVAL(full_pathways, "b")` passes the frame, and `cols[::-1]` then reverses its rows and leaves its columns as they are, so group B's p-value name takes group A's suffix | a frame with columns `path`, `sigweight_x`, `sigweight_y`, `p_value_x`, `p_value_y`: `p_value_y` is not kept | each group's p-value column is looked up from the frame's column names and kept | not executed | LegacyInput.TwoGroupsLosesPValueY | LegacyInput.TwoGroupsKeepsBothPValues |
| clusters.py:29-32 | `node_size_map` divides the share of cells by 0.5 | any cluster table with a nonzero cell total: the node sizes add up to 200% of the width | the sizes add up to 50% of the width, as the function's documentation says | not executed | LegacyNetwork.SizesAddTo200 | LegacyNetwork.SizesAddTo50 |
