# Dataset corpus catalog (pyroomacoustics `datasets/base.py`)

A Dafny model of the in-memory catalog of labelled samples that
`pyroomacoustics/datasets/base.py` provides:

- **Metadata** (`Meta`): a set of named scalar fields, and `match`, which
  checks keyword criteria against them. A criterion is an exact value or a
  list of acceptable values; a criterion naming a field the metadata lacks
  raises.
- **Samples** (`SampleBase`, `AudioSample`): an opaque payload paired with its
  metadata; an audio sample also carries its sampling frequency.
- **Corpus** (`CorpusBase`): an ordered list of samples and the frequency index
  `info` (field, then value, then the number of samples with that value), with
  `add_sample`, `add_sample_matching`, `filter`, indexing and length.

Files, one module each:

- `errors.dfy` (`Errors`): the two errors the catalog raises (unknown field,
  index out of range) and the `Result`/`Outcome` types that carry them.
- `metadata.dfy` (`Metadata`): values, metadata, criteria and `Match`, with the
  lemmas that characterise when matching succeeds, fails or raises.
- `samples.dfy` (`Samples`): the sample datatype and its two constructors.
- `corpus.dfy` (`Corpora`): the specification functions `Occurrences` (how
  many samples have a field value), `IsTally` (the index is exactly that
  count) and `Filtered` (the result of `filter` on a sample list), their
  lemmas, and the class `Corpus` whose methods are proved against them.
- `scenario.dfy` (`Scenario`): the usage example of the module docstring
  (four samples, `filter(sex='male')`) and the list-criterion example, as
  client code.

Modelling choices:

- Metadata is `map<string, Value>` with `Value = Str | Int`. base.py's
  duck-typed "a list or a single value" criterion is the tagged union
  `Exact(v) | OneOf(vs)`.
- The criteria of `match` and `filter` are an ordered sequence of
  `(field, criterion)` pairs, not a map. The loop in `Meta.match`
  (base.py:85-88) returns false at the first criterion whose value fails, so
  whether a later unknown field raises depends on the order of the keyword
  arguments, and a map would lose that order.
- The docstring of `Meta.match` (base.py:78-83) says that a keyword with no
  matching attribute raises. The code raises only when no earlier criterion
  has already failed. The model follows the code: `MatchStopsAt`,
  `FirstFailing` and `MatchRaises` state exactly when it raises.
- Indexing with an integer follows Python list indexing: positions
  `-len .. len-1` are valid, and negative ones count from the end. Anything
  else raises `IndexOutOfRange`.
- `add_sample`'s loop over the metadata dictionary is a `while` loop that takes
  the fields from a set one at a time. The order does not matter, because every
  field is visited once and the updates to different fields are independent.
- The class invariant `Corpus.Valid()` is `IsTally(info, samples)`. Every
  count equals `Occurrences`, no stored count is 0, and no field has an empty
  table. Every method that changes the corpus keeps it.
- Exceptions become `Result`/`Outcome` values. `Filter` and
  `AddSampleMatching` hand on the error of `Match`. `add_sample` cannot fail.

## Model

| member | source | states |
|---|---|---|
| `Metadata.NewMeta` | pyroomacoustics/datasets/base.py:73-75 | the metadata built from keyword arguments exposes exactly those fields (as_dict gives them back) |
| `Metadata.AsDict` | pyroomacoustics/datasets/base.py:91-93 | as_dict returns all field/value pairs: metadata rebuilt from the result is the original |
| `Metadata.MetaRoundTrip` | pyroomacoustics/datasets/base.py:91-93 | as_dict of new metadata returns the arguments, and rebuilding metadata from as_dict gives the same metadata |
| `Metadata.Match` | pyroomacoustics/datasets/base.py:77-89 | match answers true if and only if every criterion names a present field whose value equals the single value or is in the list; when it raises, the error names a field the metadata lacks |
| `Metadata.MatchStopsAt` | pyroomacoustics/datasets/base.py:85-88 | at the first criterion that does not hold, match raises UnknownField for that field if it is missing, and answers false otherwise |
| `Metadata.FirstFailing` | pyroomacoustics/datasets/base.py:85-89 | whenever match does not answer true, there is a first failing criterion, all earlier ones hold, and it decides the answer or the error |
| `Metadata.MatchRaises` | pyroomacoustics/datasets/base.py:80-86 | match raises if and only if some criterion names a missing field and every earlier criterion holds |
| `Metadata.MatchKnownFields` | pyroomacoustics/datasets/base.py:85-89 | when every criterion names a present field, match never raises, and its answer is the conjunction of the criteria, whatever their order |
| `Metadata.MatchNoCriteria` | pyroomacoustics/datasets/base.py:85-89 | with no criteria, match answers true |
| `Metadata.MatchIgnoresUnnamedFields` | pyroomacoustics/datasets/base.py:82-89 | fields no criterion names are unconstrained: two metadata that agree on the named fields get the same answer or error |
| `Samples.NewSample` | pyroomacoustics/datasets/base.py:120-123 | the sample keeps the payload, and its metadata holds exactly the keyword arguments |
| `Samples.NewAudioSample` | pyroomacoustics/datasets/base.py:150-152 | an audio sample keeps the payload and the sampling frequency, and its metadata holds exactly the keyword arguments |
| `Corpora.OccurrencesAppend` | pyroomacoustics/datasets/base.py:226-236 | appending a sample adds one to the number of samples with each of its field values and nothing to any other |
| `Corpora.OccurrencesBounded` | pyroomacoustics/datasets/base.py:209-215 | no field value occurs in more samples than the corpus holds |
| `Corpora.OccurrencesWitness` | pyroomacoustics/datasets/base.py:209-215 | a field value has a positive count if and only if some sample has that value for that field |
| `Corpora.TallyValues` | pyroomacoustics/datasets/base.py:209-215 | under the invariant, info has an entry for a field value if and only if some sample of the corpus has that value |
| `Corpora.TallyFields` | pyroomacoustics/datasets/base.py:209-215 | under the invariant, every field of info comes from some sample's metadata, and every sample's fields are in info |
| `Corpora.TallyOfNothing` | pyroomacoustics/datasets/base.py:217-219 | a corpus without samples has an empty index |
| `Corpora.TallyIsFieldTable` | pyroomacoustics/datasets/base.py:226-233 | under the invariant, info's table for a field equals a reference table built by counting the samples one at a time |
| `Corpora.FieldTableCounts` | pyroomacoustics/datasets/base.py:226-233 | the reference table's entry for a value is that value's occurrence count, and it has no zero entries |
| `Corpora.FieldTableTotal` | pyroomacoustics/datasets/base.py:226-233 | the reference table's counts add up to the number of samples that have the field |
| `Corpora.TallyTotal` | pyroomacoustics/datasets/base.py:209-215 | under the invariant, a field's counts add up to the number of samples having the field, and to the corpus length when every sample has it |
| `Corpora.Record` | pyroomacoustics/datasets/base.py:227-233 | one step of the counting loop: the field is recorded, the count of that one (field, value) rises by one and every other count stays; positive counts and non-empty tables are preserved |
| `Corpora.Filtered` | pyroomacoustics/datasets/base.py:248-262 | the result of filter on a sample list is no longer than the list, and every sample it keeps comes from the list and matches |
| `Corpora.FilteredConcat` | pyroomacoustics/datasets/base.py:257-262 | filtering a concatenation: an error in the first part wins, then one in the second; otherwise the two results are concatenated in order |
| `Corpora.FilteredSingle` | pyroomacoustics/datasets/base.py:238-246 | one sample is kept when it matches, dropped when it does not, and its match's error is raised |
| `Corpora.FilteredSucceeds` | pyroomacoustics/datasets/base.py:245-260 | filter raises if and only if the match of some sample raises |
| `Corpora.FirstRaising` | pyroomacoustics/datasets/base.py:257-262 | the error filter raises is that of the first sample whose match raises; all earlier samples' matches do not raise |
| `Corpora.FilteredPositions` | pyroomacoustics/datasets/base.py:257-262 | filter's result is the corpus samples at strictly increasing positions, and a position is picked if and only if its sample matches: the matching subsequence in corpus order |
| `Corpora.PositionsStep` | pyroomacoustics/datasets/base.py:259-260 | one more loop iteration extends the picked positions from all samples but the last to all samples |
| `Corpora.FilteredAllMatch` | pyroomacoustics/datasets/base.py:257-262 | when every sample matches, filter keeps all of them in order |
| `Corpora.FilteredNoCriteria` | pyroomacoustics/datasets/base.py:248-262 | filter with no criteria gives back the same sample sequence |
| `Corpora.FilteredIdempotent` | pyroomacoustics/datasets/base.py:248-262 | filtering a filtered result again with the same criteria gives the same result |
| `Corpora.Corpus.constructor` | pyroomacoustics/datasets/base.py:217-219 | a new corpus has no samples and an empty index, and satisfies the invariant |
| `Corpora.Corpus.AddSample` | pyroomacoustics/datasets/base.py:221-236 | the sample is appended last, earlier samples are unchanged, info gains the sample's fields, each of its field values' counts rises by one (starting at 1 when absent), all other counts stay, and the invariant is kept |
| `Corpora.Corpus.AddSampleMatching` | pyroomacoustics/datasets/base.py:238-246 | when the match is true it does what add_sample does; when false it changes neither samples nor info; when the match raises it returns that error and changes nothing |
| `Corpora.Corpus.Filter` | pyroomacoustics/datasets/base.py:248-262 | returns a new corpus satisfying the invariant whose samples are exactly `Filtered` of this corpus's samples, or the first error; this corpus is not modified |
| `Corpora.Corpus.GetItem` | pyroomacoustics/datasets/base.py:264-265 | returns the sample at a position from the front, or from the back for a negative position, and raises IndexOutOfRange outside -len .. len-1 |
| `Corpora.Corpus.Len` | pyroomacoustics/datasets/base.py:267-268 | the sample count, which bounds every count of the index under the invariant |
| `Scenario.ListCriterion` | pyroomacoustics/datasets/base.py:85-89 | a list criterion holds when the field's value is in the list and fails otherwise; an unknown field raises |
| `Scenario.ExampleFilter` | pyroomacoustics/datasets/base.py:13-49 | in the docstring example, filter(sex='male') keeps exactly bob's two samples, in order |
| `Scenario.ExampleTally` | pyroomacoustics/datasets/base.py:13-36 | in the docstring example, each sex occurs in two samples |
| `Scenario.ExampleSexTable` | pyroomacoustics/datasets/base.py:13-36 | counting the docstring example's samples gives the table {female: 2, male: 2} for sex, with no other value |
| `Scenario.ExampleIndex` | pyroomacoustics/datasets/base.py:13-39 | any index that is the tally of the docstring example's samples reports sex as exactly {female: 2, male: 2} |
| `Scenario.BuildExample` | pyroomacoustics/datasets/base.py:33-36 | adding the four example samples in turn gives a valid corpus with those samples in that order, whose index for sex is exactly {female: 2, male: 2} |
| `Scenario.Example` | pyroomacoustics/datasets/base.py:33-49 | on the docstring example's corpus object, the length is 4, corpus[2] is bob's first sample, and filter(sex='male') returns a corpus holding exactly bob's two samples, of length 2 |

## Left out

- `AudioSample.play` and `AudioSample.plot` (base.py:154-197): they only call
  the external `sounddevice` and `matplotlib` libraries for playback and
  plotting. `fs` is carried as an integer and has no behaviour.
- `__str__` and `__repr__` of `Meta`, `SampleBase` and `CorpusBase`: text for
  diagnostics only. `CorpusBase.__str__` reports `len(self)` and the contents
  of `info`, which are `Len` and `info` here.
- Slices in `CorpusBase.__getitem__`: only integer positions are modelled.
- Python's equality and hashing of metadata values (`True == 1`, `1 == 1.0`
  sharing one key of `info`): values are strings or integers, compared
  structurally. Floating-point values are not modelled.
- Unhashable metadata values (a list as a field value): in base.py
  `add_sample` would raise `TypeError`. The model has only scalar values.
- Reflective attribute lookup in `Meta.__init__` and `Meta.match`: a criterion
  that names an attribute every Python object has (a method such as `match`,
  or a dunder attribute) does not raise in base.py. In the model only
  metadata fields are present.
- Keyword names that clash with Python parameter names: in base.py they raise
  `TypeError`, and the model has no such error. These are `self` as a
  criterion of `match`, `filter` or `add_sample_matching`, or as a field of
  `Meta`; `sample` as a criterion of `filter` on a non-empty corpus, because
  `add_sample_matching` already takes a parameter `sample` ("got multiple
  values for argument"); `data` as a field of `SampleBase`; `data` or `fs` as a
  field of `AudioSample`. A field named `match` or `as_dict` replaces that
  method on the `Meta` object, and the later call of `match` in
  `add_sample_matching` then raises `TypeError`. In the model every string is
  an ordinary field or criterion name.
- Object identity: samples are immutable values, so the sharing of sample
  objects between a corpus and the corpus `filter` derives from it cannot be
  observed and is not modelled. The copy that `as_dict` makes is the value
  itself.
