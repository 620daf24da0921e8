/** Samples (classes SampleBase and AudioSample of datasets/base.py): a payload
    paired with its metadata. The payload is opaque to the catalog. */
module Samples {
  import opened Metadata

  /** A plain sample, or an audio sample that also carries its sampling
      frequency. A sample is never changed after construction. */
  datatype Sample<D> =
    | Sample(data: D, meta: Meta)
    | AudioSample(data: D, fs: int, meta: Meta)

  /** SampleBase(data, **kwargs): the keyword arguments become the metadata. */
  function NewSample<D>(data: D, attrs: map<string, Value>): (s: Sample<D>)
    ensures s.Sample? && s.data == data && AsDict(s.meta) == attrs
  {
    Sample(data, NewMeta(attrs))
  }

  /** AudioSample(data, fs, **kwargs): as SampleBase, and keeps the frequency. */
  function NewAudioSample<D>(data: D, fs: int, attrs: map<string, Value>): (s: Sample<D>)
    ensures s.AudioSample? && s.data == data && s.fs == fs && AsDict(s.meta) == attrs
  {
    AudioSample(data, fs, NewMeta(attrs))
  }
}
