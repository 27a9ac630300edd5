# desilike core: covariance layout, CMB spectra requests, sample sources

This project models three parts of desilike, a framework for cosmological
likelihoods, and proves properties of the models in Dafny.

- `covariance.dfy` (module `Covariance`) covers the Gaussian covariance of
  galaxy-clustering observables:
  - bin intervals, their intersection and emptiness;
  - box and cut-sky survey footprints: construction, size, shot noise, and
    the `&` combination of two footprints. For cut-sky footprints this is the
    ordering and merging of redshift edges;
  - `ObservablesCovarianceMatrix`: construction, then `run`. `run` computes
    the lower-triangle observable pairs with `_run`, mirrors them, and
    assembles them with `np.bmat`. The per-bin integrals are abstract kernels
    passed in as functions. The memo of sigma_k tables is kept.
- `cmb.dfy` (module `ClTheoryModel`) covers the `ClTheory` calculator:
  - how a dictionary of requested spectra becomes the two multipole maxima,
    the lensing flag and the non-linear default;
  - how that request is merged into the cosmology's init configuration;
  - how `calculate` truncates and rescales the engine's tables (to muK);
  - the `__getstate__` / `__setstate__` snapshot.
- `samples.dfy` (module `Samples`) covers `load_source` and `SourceConfig`:
  - gathering sources from patterns and objects, and optional burn-in removal;
  - the same-type check and the concatenation;
  - the `choice` branch: chosen values, with default filling for the
    parameters the source lacks;
  - the `cov` branch: the source's covariance block embedded into a matrix
    over the requested parameters, with a diagonal fill for the missing ones.
    The embedding is built in place in an `array2`.
- `wrappers.dfy` (module `Wrappers`) holds `Option`, `Result`, `OneOrMany`
  (one value or a sequence of values) and min/max helpers.

How Python values are modelled:
- A Python `__init__` or method that can raise becomes a method that returns
  an optional error.
- A pure computation becomes a function returning a `Result`.
- Dictionaries whose insertion order matters (the requested spectra) are
  sequences of pairs with distinct keys.
- All other dictionaries are maps.
- Globbing, pickle loading, the sample objects' own methods, the harmonic
  engine and the numeric kernels are parameters of the model.
- In `load_source`, `cov: bool` stands for `cov is not None`. So `cov=False`
  in Python also takes the covariance branch.

## Model

| member | source | states |
|---|---|---|
| `Covariance.IntersectionBounds` | desilike/observables/galaxy_clustering/covariance.py:41-43 | the intersection's lower bound is at least every lower bound and equals one of them; its upper bound is at most every upper bound and equals one of them |
| `Covariance.IntersectionInside` | desilike/observables/galaxy_clustering/covariance.py:41-43 | a non-empty intersection lies inside every input interval |
| `Covariance.IntersectionNonEmptyIff` | desilike/observables/galaxy_clustering/covariance.py:41-48 | the intersection is non-empty exactly when some point lies in all the half-open bins |
| `Covariance.NewBox` | desilike/observables/galaxy_clustering/covariance.py:53-58 | construction succeeds exactly when nbar or size is given; otherwise the missing-density error; the given fields are stored |
| `Covariance.BoxShotnoiseRule` | desilike/observables/galaxy_clustering/covariance.py:73-75 | shot noise times size gives back the volume; from a density alone, shot noise is 1/nbar |
| `Covariance.BoxAndFields` | desilike/observables/galaxy_clustering/covariance.py:77-78 | `&` succeeds exactly when both densities and both volumes are set; densities add; the smaller volume is kept; size is unset; the result is a valid footprint |
| `Covariance.BoxAndSize` | desilike/observables/galaxy_clustering/covariance.py:64-78 | the combination of two boxes has size (nbar_a + nbar_b) times the smaller volume, so its shot noise is 1 / (nbar_a + nbar_b) |
| `Covariance.BoxAndCommutative` | desilike/observables/galaxy_clustering/covariance.py:77-78 | `a & b == b & a`, errors included |
| `Covariance.BoxAndAssociative` | desilike/observables/galaxy_clustering/covariance.py:77-78 | `(a & b) & c == a & (b & c)` when both inner combinations succeed |
| `Covariance.Permute` | desilike/observables/galaxy_clustering/covariance.py:99-100 | fancy indexing `a[p]`: entry i is `a[p[i]]` |
| `Covariance.InsertPos` | desilike/observables/galaxy_clustering/covariance.py:98 | inserting an index into the argsort places it at one position and keeps the others in order |
| `Covariance.ArgSortUpTo` | desilike/observables/galaxy_clustering/covariance.py:98 | the argsort of n values holds n indices, each below n |
| `Covariance.InsertIndexSorted` | desilike/observables/galaxy_clustering/covariance.py:98 | inserting one index keeps the indices ordered by value |
| `Covariance.ArgSortSorted` | desilike/observables/galaxy_clustering/covariance.py:98 | the argsort orders the values ascending |
| `Covariance.SpliceStep` | desilike/observables/galaxy_clustering/covariance.py:98-100 | splicing a new index into a permutation of the first k entries permutes the first k + 1 |
| `Covariance.ArgSortPermutes` | desilike/observables/galaxy_clustering/covariance.py:98-100 | picking any array by the argsort is a permutation of it (multiset equality) |
| `Covariance.CutskyConstruction` | desilike/observables/galaxy_clustering/covariance.py:88-100 | errors in the source's order: no density, then no area or zrange, then an empty area, zrange or nbar (which cannot be reshaped to a scalar), then a one-edge zrange (a scalar the argsort result cannot index). Construction succeeds exactly when none of these applies. The stored zrange keeps at least two edges, is sorted and is a permutation of the input; when nbar has one value per edge each edge keeps its own density, otherwise nbar is kept as given |
| `Covariance.InsertUniqueProps` | desilike/observables/galaxy_clustering/covariance.py:148 | inserting into a strictly increasing sequence keeps it strictly increasing and adds exactly the new value |
| `Covariance.Unique` | desilike/observables/galaxy_clustering/covariance.py:148 | `np.unique`: strictly increasing, with exactly the input's values |
| `Covariance.Mask` | desilike/observables/galaxy_clustering/covariance.py:149-150 | the masked edges are exactly the input values inside [lo, hi] |
| `Covariance.MaskKeepsOrder` | desilike/observables/galaxy_clustering/covariance.py:149-150 | masking a strictly increasing sequence keeps it strictly increasing |
| `Covariance.CutskyAndZrangeProps` | desilike/observables/galaxy_clustering/covariance.py:143-158 | a merged redshift range is strictly increasing, has at least two edges, and is exactly the edges of both footprints inside the common range |
| `Covariance.CutskyAndZrangeCommutative` | desilike/observables/galaxy_clustering/covariance.py:148-150 | merging redshift ranges does not depend on operand order |
| `Covariance.StrictlySortedUnique` | desilike/observables/galaxy_clustering/covariance.py:148 | two strictly increasing sequences with the same values are equal, so the result of `np.unique` is unique |
| `Covariance.Transpose` | desilike/observables/galaxy_clustering/covariance.py:206 | `c.T` has swapped dimensions and entry (i, j) equal to (j, i) of c |
| `Covariance.TransposeInvolution` | desilike/observables/galaxy_clustering/covariance.py:277 | transposing twice gives back the matrix |
| `Covariance.Symmetrize` | desilike/observables/galaxy_clustering/covariance.py:204 | `(c + c.T) / 2` is a matrix of the same shape |
| `Covariance.SymmetrizeSymmetric` | desilike/observables/galaxy_clustering/covariance.py:204 | `(c + c.T) / 2` is symmetric, is its own transpose, and leaves a symmetric matrix unchanged |
| `Covariance.OffsetLast` | desilike/observables/galaxy_clustering/covariance.py:306 | a block's offset plus its size stays within the total size |
| `Covariance.Locate` | desilike/observables/galaxy_clustering/covariance.py:306 | a global index of `np.bmat` falls in one block, at its offset plus a local index |
| `Covariance.LocateOffset` | desilike/observables/galaxy_clustering/covariance.py:306 | a block's offset plus a local index locates back to that block and local index |
| `Covariance.Bmat` | desilike/observables/galaxy_clustering/covariance.py:207 | `np.bmat(blocks).A` is a matrix whose dimensions are the summed block sizes |
| `Covariance.BmatAt` | desilike/observables/galaxy_clustering/covariance.py:207 | entry (k, l) of block (i, j) sits at the blocks' offsets plus (k, l) |
| `Covariance.BmatSymmetric` | desilike/observables/galaxy_clustering/covariance.py:199-207 | if every block (j, i) is the transpose of block (i, j), the assembled matrix is symmetric |
| `Covariance.IndexOf` | desilike/observables/galaxy_clustering/covariance.py:258 | `ells.index(ell)`: the first position holding ell |
| `Covariance.DataSizes` | desilike/observables/galaxy_clustering/covariance.py:302 | one data size per multipole |
| `Covariance.DisjointBinsZero` | desilike/observables/galaxy_clustering/covariance.py:257-262 | a power-spectrum bin pair whose k-bins share no point has zero covariance |
| `Covariance.ZeroWidthBinZero` | desilike/observables/galaxy_clustering/covariance.py:257-262 | a zero-width power-spectrum bin (two equal consecutive edges) has zero covariance with every power-spectrum bin |
| `Covariance.EllBlock` | desilike/observables/galaxy_clustering/covariance.py:302-303 | the (ell1, ell2) block has n1 x n2 entries |
| `Covariance.EllBlocks` | desilike/observables/galaxy_clustering/covariance.py:298-305 | the multipole blocks are shaped by the two observables' data sizes |
| `Covariance.PairCovariance` | desilike/observables/galaxy_clustering/covariance.py:209-306 | `_run(io1, io2)` is a matrix of total size io1 by total size io2 |
| `Covariance.PairCovarianceAt` | desilike/observables/galaxy_clustering/covariance.py:298-306 | for a directly computed pair, the entry at the multipoles' offsets plus (i1, i2) is that bin pair's covariance |
| `Covariance.PairCovarianceSwap` | desilike/observables/galaxy_clustering/covariance.py:276-277 | a (power, correlation) pair is the transpose of the (correlation, power) pair |
| `Covariance.CovarianceBlocks` | desilike/observables/galaxy_clustering/covariance.py:199-206 | one block for each pair of observables |
| `Covariance.TotalSizes` | desilike/observables/galaxy_clustering/covariance.py:207 | one total data size per observable |
| `Covariance.AssembledCovariance` | desilike/observables/galaxy_clustering/covariance.py:199-207 | the blocks are correctly shaped; the assembled covariance is symmetric; each lower block is `_run` of its pair |
| `Covariance.ResolutionAccepted` | desilike/observables/galaxy_clustering/covariance.py:177-179 | `int(resolution) <= 0` rejects exactly the resolutions below 1, because `int` truncates toward zero |
| `Covariance.FootprintArgs` | desilike/observables/galaxy_clustering/covariance.py:169-170 | a single footprint is repeated once per observable; a list is used as given |
| `Covariance.ChosenFootprintsProps` | desilike/observables/galaxy_clustering/covariance.py:171-174 | one footprint per zipped pair: the given one, else the observable's own. It fails exactly when some pair has neither, naming the first such pair |
| `Covariance.ChooseFootprints` | desilike/observables/galaxy_clustering/covariance.py:171-174 | the loop over the zipped pairs gives the reference footprint list, or the error for the first pair with no footprint |
| `Covariance.ObservablesCovarianceMatrix.constructor` | desilike/observables/galaxy_clustering/covariance.py:161-165 | a blank object, with no covariance computed yet |
| `Covariance.ObservablesCovarianceMatrix.Initialize` | desilike/observables/galaxy_clustering/covariance.py:165-179 | stores the observables (a single one wrapped). Fails on the first missing footprint; otherwise stores the chosen footprints, one per zipped pair (so as many as the shorter of the two lists), the theories (None for each by default) and `int(resolution)`, and fails exactly when that is not positive |
| `Covariance.ObservablesCovarianceMatrix.BinCovCached` | desilike/observables/galaxy_clustering/covariance.py:257-296 | returns the bin covariance of the reference definition; the sigma_k memo stays sound |
| `Covariance.ObservablesCovarianceMatrix.RunEllBlock` | desilike/observables/galaxy_clustering/covariance.py:302-303 | the nested loop returns exactly the (ell1, ell2) block |
| `Covariance.ObservablesCovarianceMatrix.RunPair` | desilike/observables/galaxy_clustering/covariance.py:209-306 | `_run(io1, io2)` returns exactly the pair covariance, swapping and transposing a (power, correlation) pair |
| `Covariance.ObservablesCovarianceMatrix.RunBlocks` | desilike/observables/galaxy_clustering/covariance.py:199-206 | the two loops over the lower pairs, with mirrored transposes and symmetrised diagonals, give exactly the reference blocks |
| `Covariance.ObservablesCovarianceMatrix.Run` | desilike/observables/galaxy_clustering/covariance.py:185-212 | with no observables, fails as `np.bmat` of no blocks does. When `zip` kept fewer footprints than observables, fails with the index error of the first pair past them. Either way it stores nothing. Otherwise the stored covariance is the `np.bmat` of the lower pairs, their transposes and the symmetrised diagonal blocks, which AssembledCovariance shows is symmetric |
| `ClTheoryModel.MaxEllOverIsMax` | desilike/likelihoods/cmb/base.py:10-13 | the running maximum bounds every selected ellmax and is one of them, or 0 when none is selected |
| `ClTheoryModel.KnownPrefix` | desilike/likelihoods/cmb/base.py:11-15 | the loop stops at the first unknown key; all keys before it are known |
| `ClTheoryModel.UnknownClRejected` | desilike/likelihoods/cmb/base.py:11-15 | initialize fails with an unknown-spectrum error exactly when some key is unknown, and then names the first unknown key |
| `ClTheoryModel.EllMaxima` | desilike/likelihoods/cmb/base.py:10-18 | the two maxima bound their groups' ellmax and are 0 for an absent group; the overall ellmax is the larger of the two |
| `ClTheoryModel.UnselectedIgnored` | desilike/likelihoods/cmb/base.py:12-14 | changing the ellmax of a key outside a group does not move that group's maximum |
| `ClTheoryModel.OddParityIgnored` | desilike/likelihoods/cmb/base.py:14 | the ellmax of tb/eb moves neither maximum |
| `ClTheoryModel.LensingDefault` | desilike/likelihoods/cmb/base.py:16-17 | by default, lensing is on exactly when a lens-potential spectrum asks for a positive ellmax |
| `ClTheoryModel.NonLinearDefault` | desilike/likelihoods/cmb/base.py:19-23 | by default, non_linear is 'mead' or ''. It is 'mead' exactly when a lens-potential spectrum is wanted or a key with a 'b' exceeds multipole 50 |
| `ClTheoryModel.EmptyRequestFails` | desilike/likelihoods/cmb/base.py:20 | with no spectra and no non_linear, the `max` over nothing raises |
| `ClTheoryModel.UnitChecked` | desilike/likelihoods/cmb/base.py:24-27 | with a well-formed request, initialize succeeds exactly when the unit is None or 'muK', and otherwise reports that unit |
| `ClTheoryModel.MergeInit` | desilike/likelihoods/cmb/base.py:33-35 | after the update, lensing, ellmax_cl and non_linear are all set |
| `ClTheoryModel.MergeMonotone` | desilike/likelihoods/cmb/base.py:33-35 | the merge never drops an existing lensing, ellmax or non_linear requirement, and always meets the new one |
| `ClTheoryModel.MergeIdempotent` | desilike/likelihoods/cmb/base.py:33-35 | merging the same request twice gives what merging it once gives |
| `ClTheoryModel.MergeCommutesOnLensingAndEllmax` | desilike/likelihoods/cmb/base.py:33-35 | lensing and ellmax_cl do not depend on the order of two merges |
| `ClTheoryModel.Count` | desilike/likelihoods/cmb/base.py:53 | `cl.count('p')` is positive exactly when 'p' occurs |
| `ClTheoryModel.Truncate` | desilike/likelihoods/cmb/base.py:49-51 | `a[:n]` keeps the first min(len, n) entries |
| `ClTheoryModel.KnownClHasFewP` | desilike/likelihoods/cmb/base.py:53-54 | a known spectrum has at most two 'p', so the unit exponent is not negative |
| `ClTheoryModel.OddParityAsWrittenFails` | desilike/likelihoods/cmb/base.py:46-51 | as written, requesting only 'tb' reads a lensed table that was never computed |
| `ClTheoryModel.Spectrum` | desilike/likelihoods/cmb/base.py:46-47 | corrected: tb and eb give ellmax + 1 zeros, whatever the tables and the unit |
| `ClTheoryModel.SpectrumFromTable` | desilike/likelihoods/cmb/base.py:48-55 | any other known key reads its table (by whether the key has a 'p'), cut to min(len, ellmax + 1) entries and, under 'muK', scaled by (T0 * 1e6)^(2 - #p) with at most two 'p'. It fails exactly when that table was not computed or lacks the key |
| `ClTheoryModel.CalcRunKeys` | desilike/likelihoods/cmb/base.py:45-56 | a successful calculate stores exactly the requested keys |
| `ClTheoryModel.CalcRunSpectra` | desilike/likelihoods/cmb/base.py:45-56 | with distinct keys, a successful calculate stores each requested key with the spectrum its own ellmax calls for |
| `ClTheoryModel.CalcRunPrefix` | desilike/likelihoods/cmb/base.py:45-56 | one more step of the loop either stops with that key's error or stores its spectrum |
| `ClTheoryModel.CalcRunStops` | desilike/likelihoods/cmb/base.py:45-56 | once one spectrum raises, later keys change nothing |
| `ClTheoryModel.MuKScalingLensed` | desilike/likelihoods/cmb/base.py:52-55 | under 'muK', tt/ee/te/bb are scaled by (T0 * 1e6)^2 |
| `ClTheoryModel.MuKScalingPotential` | desilike/likelihoods/cmb/base.py:52-55 | under 'muK', 'pp' is left unscaled |
| `ClTheoryModel.SnapshotRoundTrip` | desilike/likelihoods/cmb/base.py:61-71 | restoring a snapshot gives back the unit, plus the spectra with an added 'requested_cls' entry, so the restored spectra differ from the originals |
| `ClTheoryModel.SnapshotWithoutUnit` | desilike/likelihoods/cmb/base.py:61-70 | a snapshot taken without a unit cannot be restored |
| `ClTheoryModel.Cosmology.constructor` | desilike/likelihoods/cmb/base.py:33-39 | a cosmology with an empty init configuration and the given CMB temperature |
| `ClTheoryModel.ClTheory.constructor` | desilike/likelihoods/cmb/base.py:6-8 | a calculator with no attribute set |
| `ClTheoryModel.ClTheory.ScanRequest` | desilike/likelihoods/cmb/base.py:10-15 | the loop stops at the first unknown key; the two attributes are the maxima over the keys before it |
| `ClTheoryModel.ClTheory.Settle` | desilike/likelihoods/cmb/base.py:16-27 | the lensing and non-linear defaults and the unit check, after a scan without unknown keys, give the reference `Initialized`; the only errors are the empty `max` and the unit |
| `ClTheoryModel.ClTheory.Initialize` | desilike/likelihoods/cmb/base.py:8-35 | sets the request and maxima, and fails as the reference `Initialized` does. On success it stores unit, T0 and cosmology and merges the init. On failure the init is untouched, and the unit is set only if the unit check failed |
| `ClTheoryModel.ClTheory.Calculate` | desilike/likelihoods/cmb/base.py:37-56 | the stored spectra and the error are those of the reference loop, over the tables computed for non-zero maxima. Through `CalcRun` and `Spectrum` it stores the corrected tb/eb zeros of the Findings table, not what base.py:46-51 computes as written |
| `ClTheoryModel.ClTheory.Get` | desilike/likelihoods/cmb/base.py:58-59 | the spectra, or an attribute error if calculate never ran |
| `ClTheoryModel.ClTheory.GetState` | desilike/likelihoods/cmb/base.py:61-66 | the keys are the spectra plus 'requested_cls' and 'unit' when set; a spectrum of the same name wins |
| `ClTheoryModel.ClTheory.SetState` | desilike/likelihoods/cmb/base.py:68-71 | pops 'unit' and keeps the rest as the spectra; a missing 'unit' key leaves the state unchanged and reports that key |
| `Samples.Expand` | desilike/samples/__init__.py:25-29 | a pattern gives everything loaded from it; an object or None is kept |
| `Samples.GatherConcat` | desilike/samples/__init__.py:24-29 | gathering is done entry by entry, in order |
| `Samples.GatherObjects` | desilike/samples/__init__.py:21-29 | gathering already loaded sources gives them back unchanged |
| `Samples.WithoutBurnin` | desilike/samples/__init__.py:31-32 | burn-in is removed from the sources that have `remove_burnin`; the others pass through unchanged, in order |
| `Samples.Unwrapped` | desilike/samples/__init__.py:37 | the sources passed to concatenate, one per source |
| `Samples.Filter` | desilike/samples/__init__.py:47-50 | an empty-dict source holds no parameter |
| `Samples.FilterMembers` | desilike/samples/__init__.py:47-50 | `params_in_source` / `params_not_in_source` hold exactly the params that the source does / does not hold |
| `Samples.FillChoiceAt` | desilike/samples/__init__.py:51-52 | after filling, a missing parameter maps to its reference value, or to the default when one is given; other names keep their values |
| `Samples.FirstAbsent` | desilike/samples/__init__.py:53 | the first requested name the filled dict lacks, or none |
| `Samples.ChoiceValues` | desilike/samples/__init__.py:40-53 | with params, the choice is a list aligned with params: the source's chosen value where it holds the parameter, the fill value elsewhere. It fails exactly when the source's choice lacks a requested name |
| `Samples.SourceBlock` | desilike/samples/__init__.py:65 | the source's covariance block is square over the names |
| `Samples.IndexOfName` | desilike/samples/__init__.py:72 | `params.index(param)`: the first parameter of that name |
| `Samples.Positions` | desilike/samples/__init__.py:72 | one valid position per parameter |
| `Samples.LastIndex` | desilike/samples/__init__.py:74 | of repeated fancy-index writes to a cell, the last one stays |
| `Samples.CovWrites` | desilike/samples/__init__.py:69-81 | the two index assignments write within the matrix, with matching shapes |
| `Samples.Embedding` | desilike/samples/__init__.py:69-81 | the embedded covariance is square over the params |
| `Samples.PositionsOfFilter` | desilike/samples/__init__.py:72-75 | with distinct names, the positions of (not) held parameters are exactly their places in params |
| `Samples.EmbeddingEntries` | desilike/samples/__init__.py:62-81 | the embedded covariance holds the source's entry between two held parameters, the fill value (proposal squared, NaN, or the default) on the diagonal of a missing one, and 0 elsewhere |
| `Samples.EmbeddingEntry` | desilike/samples/__init__.py:62-81 | the same property, for one entry |
| `Samples.EmbedEntryMatches` | desilike/samples/__init__.py:72-81 | the cell the writes leave is the one the reference description names |
| `Samples.AllInSourceFailsAsWritten` | desilike/samples/__init__.py:75-76 | as written, the covariance of a parameter the source holds fails on an empty concatenate |
| `Samples.AllInSourceCorrected` | desilike/samples/__init__.py:62-81 | corrected, when every parameter is in the source the result is the source's own block over them |
| `Samples.CovStepAgrees` | desilike/samples/__init__.py:58-85 | the as-written and corrected covariance branches agree whenever some parameter is missing |
| `Samples.ReturnShape` | desilike/samples/__init__.py:87-91 | nothing requested gives the source list; one request gives that result alone; both give the pair |
| `Samples.MixedTypesRejected` | desilike/samples/__init__.py:34-36 | a choice or covariance fails with the type error exactly when the sources' types differ |
| `Samples.SingleSourceWrapped` | desilike/samples/__init__.py:21-22 | a single source is treated as a one-element list |
| `Samples.FillRow` | desilike/samples/__init__.py:73-74 | one row of the block assignment moves the matrix from the writes of the first r rows to those of the first r + 1 |
| `Samples.FillCovariance` | desilike/samples/__init__.py:69-81 | the zero matrix after the two fancy-index assignments holds, in each cell, the last value written to it |
| `Samples.LastIndexSnocAll` | desilike/samples/__init__.py:74-81 | a new write to a cell becomes its last write; the last writes of other cells are unchanged |
| `Samples.GatherSources` | desilike/samples/__init__.py:24-29 | the gathering loop builds the reference source list |
| `Samples.FillMissing` | desilike/samples/__init__.py:50-52 | the filling loop gives the reference filled dict |
| `Samples.ChoiceBranch` | desilike/samples/__init__.py:40-56 | the choice branch returns the reference choice |
| `Samples.CovBranch` | desilike/samples/__init__.py:58-85 | the covariance branch returns the corrected reference covariance, which never fails |
| `Samples.LoadSource` | desilike/samples/__init__.py:20-91 | `load_source` returns the reference result, with the corrected covariance branch |
| `Samples.AsConfig` | desilike/samples/__init__.py:97-98 | non-dict data is wrapped as `{'fn': data}` |
| `Samples.SourceEntry` | desilike/samples/__init__.py:100 | 'fn' is preferred to 'source'; None when neither is set |
| `Samples.MergeOptions` | desilike/samples/__init__.py:104 | `{**stored, **call}`: the union of keys, and the call's options win |
| `Samples.SourceConfig.constructor` | desilike/samples/__init__.py:94-96 | an empty configuration with no sources |
| `Samples.SourceConfig.Initialize` | desilike/samples/__init__.py:96-101 | 'fn' and 'source' are popped from the configuration; the sources are those loaded from the entry, with the configured burn-in |
| `Samples.SourceConfig.Choice` | desilike/samples/__init__.py:103-104 | the choice over the stored sources, used as they are, with the merged options; it fails only as combining or choosing does |
| `Samples.SourceConfig.Cov` | desilike/samples/__init__.py:106-107 | the covariance of the stored sources; it fails only when they cannot be combined |
| `Samples.ConfigSourcesKept` | desilike/samples/__init__.py:101-107 | passing the stored sources back to `load_source` gives them back unchanged |

## Left out

- Cosmology lookup in `run` (covariance.py:186-198) is not modelled: searching the footprints and pipelines for a cosmology, and setting it on each footprint.
- Theory discovery in `get_pk` (covariance.py:215-231) is not modelled, nor its error when no theory is found. The stored theories are opaque handles.
- The numerical integrals of `_run` are abstract kernel functions. These are: Legendre products, sigma_k, Bessel weights, bin volumes, integration points at the given resolution, and interpolation. So is the `k` grid cached under `'k'`, which feeds only those integrals.
- Covariance.ObservablesCovarianceMatrix.Run: assumes the footprint combination at covariance.py:212 succeeds for every pair. That combination feeds only the kernels. Its failure cases are modelled separately by BoxAnd and CutskyAndZrange. The index error for a footprint list shorter than the observables is modelled.
- Covariance.ObservablesCovarianceMatrix.Run: observables are taken to satisfy `ValidObservable`, so a few cases are not modelled. `np.bmat` raises ValueError in `_run` (covariance.py:298-306) for an observable without multipoles. It also fails for a multipole with an empty data vector, which `np.array` builds as a 1-D array that does not fit the other blocks. Those observables are excluded rather than modelled as errors. The same predicate also assumes distinct multipoles and one more edge than data points per multipole; the source does not check either. With repeated multipoles, `ells.index` at covariance.py:258 would read the first one's edges for both.
- `self.observables(**params)` at covariance.py:186 is not modelled: the observables are given already computed. So is the initialisation of the ensemble at covariance.py:168.
- Cut-sky footprints are modelled only as far as their redshift ordering and redshift merging. Not modelled: `volume`, `area`, `zavg`, `size`, the `cosmo` property, and the area and nbar parts of `&` (covariance.py:103-147, 151-154, 157). These need a cosmology's distances and floating-point interpolation.
- How numpy stores size-1 arrays as 0-d values (covariance.py:95) is modelled only where it decides an error. A size-0 area, zrange or nbar cannot be reshaped, and a one-edge zrange cannot be indexed by its argsort, so both are construction errors. A one-value area or nbar is kept as a one-element sequence.
- Covariance.ArgSort: modelled as a stable sort. numpy's default argsort is not stable, so when z edges repeat, the order of their nbar values may differ from the model's. The multiset pairing of each edge with its density holds either way.
- Covariance.BoxShotnoise: numpy gives inf or nan for a zero size. Here that case is an error value instead.
- Float rounding of sums, products and the `/ 2.` symmetrisation is not modelled: reals are exact.
- `footprint.copy()` (covariance.py:174) is not modelled: the footprints are values.
- The harmonic engine (cmb/base.py:40-44) is not modelled: its two tables are arguments of `Calculate`.
- Default `Cosmoprimo` construction when no cosmology is given (cmb/base.py:29-31) is not modelled: `Initialize` takes the cosmology.
- `cl.lower()` in the non-linear default (cmb/base.py:20) is not modelled. Every key that reaches it is already a known lower-case key.
- ClTheoryModel.ClTheory.SetState: the 'unit' entry of a state is typed as a unit name. base.py:70 stores whatever value it finds, but here any other value is refused with NotAUnit and the state is left unchanged.
- Multipole limits are natural numbers, so a negative ellmax is not modelled.
- `__call__` of the covariance object (covariance.py:181-183) is `run` followed by a read of `covariance`, so it has no model of its own.
- Globbing and `BaseClass.load` (samples/__init__.py:27) are not modelled. The sample objects' `remove_burnin`, `concatenate`, `choice`, `params` and `cov` methods are abstract functions.
- A source's covariance is a map over pairs of names, where an absent pair reads 0.
- Parameters of size greater than one (samples/__init__.py:68-73) are not modelled: every parameter has size 1, so each index range holds one index.
- The element swap at samples/__init__.py:66 is not modelled. It tests `params in params_in_source`, which is never true, so `params` stays as given.
- The truth value of the `ParameterCovariance` built at samples/__init__.py:82 is taken to be true. Its conversion by `return_type` is kept as the matrix itself.
- SourceConfig keeps only the 'fn', 'source', 'choice' and 'burnin' entries. Any other configuration entry that would be passed on to `load_source` is not modelled, and neither is the `BaseConfig` machinery.

## Findings

| source | as written | input that shows it | evidently intended | confidence | as-written member | corrected member |
|---|---|---|---|---|---|---|
| desilike/likelihoods/cmb/base.py:46-51 | the zero array built for 'tb'/'eb' is immediately overwritten, because the next `if 'p' in cl ... else` reads the lensed table for them | `cls={'tb': 10}`: the lensed table is never computed because its maximum is 0, so `lensed_cl` is unbound | 'tb' and 'eb' give ellmax + 1 zeros | not executed | `ClTheoryModel.OddParityAsWrittenFails` | `ClTheoryModel.Spectrum` |
| desilike/samples/__init__.py:75-76 | the diagonal fill concatenates one index range per missing parameter, and `np.concatenate` of no arrays raises | `cov=True, params=[p]` with `p` held by the source | no fill when no parameter is missing, so the result is the source's own block | not executed | `Samples.AllInSourceFailsAsWritten` | `Samples.AllInSourceCorrected` |
