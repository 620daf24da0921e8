/** The corpus (class CorpusBase of datasets/base.py): an ordered list of
    samples and a frequency index of their metadata, with insertion,
    conditional insertion, filtering into a new corpus, indexing and length. */
module Corpora {
  import opened Errors
  import opened Metadata
  import opened Samples

  /** The frequency index `info`: field name, then observed value, then the
      number of samples in the corpus having that value. */
  type Info = map<string, map<Value, nat>>

  /** 1 when the fields map f to v, 0 otherwise. */
  function Hit(fields: map<string, Value>, f: string, v: Value): nat
  {
    if f in fields && fields[f] == v then 1 else 0
  }

  /** The number of samples in s whose metadata maps f to v. */
  function Occurrences<D>(s: seq<Sample<D>>, f: string, v: Value): nat
    decreases |s|
  {
    if s == [] then 0
    else Occurrences(s[..|s| - 1], f, v) + Hit(s[|s| - 1].meta.fields, f, v)
  }

  /** The count the index holds for (f, v); a missing entry is a count of 0. */
  function Tallied(info: Info, f: string, v: Value): nat
  {
    if f in info && v in info[f] then info[f][v] else 0
  }

  /** The index is exactly the tally of the samples' metadata: every count is
      the number of samples with that field value, no stored count is 0, and
      no field has an empty table of values. */
  ghost predicate IsTally<D>(info: Info, s: seq<Sample<D>>)
  {
    && (forall f, v :: Tallied(info, f, v) == Occurrences(s, f, v))
    && (forall f, v :: f in info && v in info[f] ==> info[f][v] > 0)
    && (forall f :: f in info ==> info[f] != map[])
  }

  /** What one call of add_sample does to the index: the fields it records are
      the old ones plus the sample's, and the count of each of the sample's
      field values goes up by one while every other count stays. */
  ghost predicate Bumped(before: Info, after: Info, fields: map<string, Value>)
  {
    && after.Keys == before.Keys + fields.Keys
    && forall f, v :: Tallied(after, f, v) == Tallied(before, f, v) + Hit(fields, f, v)
  }

  lemma OccurrencesAppend<D>(s: seq<Sample<D>>, x: Sample<D>, f: string, v: Value)
    ensures Occurrences(s + [x], f, v) == Occurrences(s, f, v) + Hit(x.meta.fields, f, v)
  {
  }

  /** No field value occurs in more samples than the corpus has. */
  lemma {:induction false} OccurrencesBounded<D>(s: seq<Sample<D>>)
    ensures forall f, v :: Occurrences(s, f, v) <= |s|
    decreases |s|
  {
    if s != [] {
      OccurrencesBounded(s[..|s| - 1]);
    }
  }

  /** A field value is counted exactly when some sample has it. */
  lemma {:induction false} OccurrencesWitness<D>(s: seq<Sample<D>>, f: string, v: Value)
    ensures Occurrences(s, f, v) > 0 <==> exists i :: 0 <= i < |s| && Hit(s[i].meta.fields, f, v) == 1
    decreases |s|
  {
    if s != [] {
      var n := |s| - 1;
      var p := s[..n];
      OccurrencesWitness(p, f, v);
      assert forall i :: 0 <= i < n ==> p[i] == s[i];
      if Hit(s[n].meta.fields, f, v) == 1 {
        assert 0 <= n < |s| && Hit(s[n].meta.fields, f, v) == 1;
      }
    }
  }

  /** Under the invariant, a (field, value) entry exists exactly when some
      sample of the corpus has that field value. */
  lemma TallyValues<D>(info: Info, s: seq<Sample<D>>, f: string, v: Value)
    requires IsTally(info, s)
    ensures (f in info && v in info[f]) <==> exists i :: 0 <= i < |s| && Hit(s[i].meta.fields, f, v) == 1
  {
    OccurrencesWitness(s, f, v);
    assert Tallied(info, f, v) == Occurrences(s, f, v);
  }

  /** Under the invariant, every field of the index comes from some sample's
      metadata, and every field of every sample is in the index. */
  lemma TallyFields<D>(info: Info, s: seq<Sample<D>>, f: string)
    requires IsTally(info, s)
    ensures f in info <==> exists i :: 0 <= i < |s| && f in s[i].meta.fields
  {
    if f in info {
      var v :| v in info[f];
      TallyValues(info, s, f, v);
      var i :| 0 <= i < |s| && Hit(s[i].meta.fields, f, v) == 1;
      assert f in s[i].meta.fields;
    }
    if exists i :: 0 <= i < |s| && f in s[i].meta.fields {
      var i :| 0 <= i < |s| && f in s[i].meta.fields;
      var v := s[i].meta.fields[f];
      assert Hit(s[i].meta.fields, f, v) == 1;
      TallyValues(info, s, f, v);
    }
  }

  /** The empty corpus has an empty index. */
  lemma TallyOfNothing<D>(info: Info)
    requires IsTally<D>(info, [])
    ensures info == map[]
  {
    if info != map[] {
      var f :| f in info;
      var v :| v in info[f];
      assert Tallied(info, f, v) == Occurrences<D>([], f, v);
      assert false;
    }
  }

  /** The sum of the counts of one field's table of values. */
  ghost function Total(table: map<Value, nat>): nat
    decreases table.Keys
  {
    if table == map[] then 0
    else
      var v :| v in table;
      table[v] + Total(table - {v})
  }

  /** The sum does not depend on which value is taken out first. */
  lemma {:induction false} TotalRemove(table: map<Value, nat>, w: Value)
    requires w in table
    ensures Total(table) == table[w] + Total(table - {w})
    decreases table.Keys
  {
    var v :| v in table && Total(table) == table[v] + Total(table - {v});
    if v != w {
      TotalRemove(table - {v}, w);
      TotalRemove(table - {w}, v);
      assert table - {v} - {w} == table - {w} - {v};
    }
  }

  /** Counting one more occurrence of a value adds one to the sum. */
  function Inc(table: map<Value, nat>, v: Value): map<Value, nat>
  {
    table[v := (if v in table then table[v] else 0) + 1]
  }

  lemma TotalInc(table: map<Value, nat>, v: Value)
    ensures Total(Inc(table, v)) == Total(table) + 1
  {
    var bumped := Inc(table, v);
    TotalRemove(bumped, v);
    assert bumped - {v} == table - {v};
    if v in table {
      TotalRemove(table, v);
    } else {
      assert table - {v} == table;
    }
  }

  /** The number of samples in s whose metadata has the field f. */
  function FieldCount<D>(s: seq<Sample<D>>, f: string): nat
    decreases |s|
  {
    if s == [] then 0
    else FieldCount(s[..|s| - 1], f) + (if f in s[|s| - 1].meta.fields then 1 else 0)
  }

  /** A reference definition of one field's table of values, built sample by
      sample from the front of the corpus. */
  function FieldTable<D>(s: seq<Sample<D>>, f: string): map<Value, nat>
    decreases |s|
  {
    if s == [] then map[]
    else
      var x := s[|s| - 1];
      var before := FieldTable(s[..|s| - 1], f);
      if f in x.meta.fields then Inc(before, x.meta.fields[f]) else before
  }

  /** The reference table holds exactly the positive occurrence counts. */
  lemma {:induction false} FieldTableCounts<D>(s: seq<Sample<D>>, f: string, v: Value)
    ensures (if v in FieldTable(s, f) then FieldTable(s, f)[v] else 0) == Occurrences(s, f, v)
    ensures v in FieldTable(s, f) ==> FieldTable(s, f)[v] > 0
    decreases |s|
  {
    if s != [] {
      FieldTableCounts(s[..|s| - 1], f, v);
    }
  }

  /** The reference table's counts add up to the number of samples having f. */
  lemma {:induction false} FieldTableTotal<D>(s: seq<Sample<D>>, f: string)
    ensures Total(FieldTable(s, f)) == FieldCount(s, f)
    decreases |s|
  {
    if s != [] {
      var x := s[|s| - 1];
      FieldTableTotal(s[..|s| - 1], f);
      if f in x.meta.fields {
        TotalInc(FieldTable(s[..|s| - 1], f), x.meta.fields[f]);
      }
    }
  }

  /** Under the invariant, the index's table for a field is the reference
      table. */
  lemma TallyIsFieldTable<D>(info: Info, s: seq<Sample<D>>, f: string)
    requires IsTally(info, s) && f in info
    ensures info[f] == FieldTable(s, f)
  {
    var table := FieldTable(s, f);
    forall v
      ensures (v in info[f] <==> v in table) && (v in table ==> info[f][v] == table[v])
    {
      FieldTableCounts(s, f, v);
      assert Tallied(info, f, v) == Occurrences(s, f, v);
    }
    assert info[f].Keys == table.Keys;
  }

  /** Under the invariant, a field's counts add up to the number of samples
      having that field; when every sample has it, to the corpus length. */
  lemma TallyTotal<D>(info: Info, s: seq<Sample<D>>, f: string)
    requires IsTally(info, s) && f in info
    ensures Total(info[f]) == FieldCount(s, f)
    ensures (forall i :: 0 <= i < |s| ==> f in s[i].meta.fields) ==> Total(info[f]) == |s|
  {
    TallyIsFieldTable(info, s, f);
    FieldTableTotal(s, f);
    if forall i :: 0 <= i < |s| ==> f in s[i].meta.fields {
      FieldCountAll(s, f);
    }
  }

  lemma {:induction false} FieldCountAll<D>(s: seq<Sample<D>>, f: string)
    requires forall i :: 0 <= i < |s| ==> f in s[i].meta.fields
    ensures FieldCount(s, f) == |s|
    decreases |s|
  {
    if s != [] {
      var n := |s| - 1;
      assert forall i :: 0 <= i < n ==> s[..n][i] == s[i];
      FieldCountAll(s[..n], f);
    }
  }

  /** The result of filter(**kwargs) on the samples s: the samples that match,
      in order, or the error of the first sample whose match raises. */
  function Filtered<D>(s: seq<Sample<D>>, criteria: Criteria): (r: Result<seq<Sample<D>>>)
    ensures r.Ok? ==> |r.value| <= |s|
    ensures r.Ok? ==> forall x :: x in r.value ==> x in s && Match(x.meta, criteria) == Ok(true)
    decreases |s|
  {
    if s == [] then Ok([])
    else
      var x := s[|s| - 1];
      match Filtered(s[..|s| - 1], criteria)
      case Err(e) => Err(e)
      case Ok(kept) =>
        match Match(x.meta, criteria)
        case Err(e) => Err(e)
        case Ok(b) => Ok(if b then kept + [x] else kept)
  }

  /** Filtering a concatenation: the first part's error wins, then the second
      part's; otherwise the two results are concatenated. */
  lemma {:induction false} FilteredConcat<D>(s1: seq<Sample<D>>, s2: seq<Sample<D>>, criteria: Criteria)
    ensures Filtered(s1 + s2, criteria) ==
      match Filtered(s1, criteria)
      case Err(e) => Err(e)
      case Ok(r1) =>
        match Filtered(s2, criteria)
        case Err(e) => Err(e)
        case Ok(r2) => Ok(r1 + r2)
    decreases |s2|
  {
    if s2 == [] {
      assert s1 + s2 == s1;
      match Filtered(s1, criteria)
      case Err(e) =>
      case Ok(r1) => assert r1 + [] == r1;
    } else {
      var n := |s2| - 1;
      var x := s2[n];
      FilteredConcat(s1, s2[..n], criteria);
      assert (s1 + s2)[..|s1 + s2| - 1] == s1 + s2[..n];
      assert (s1 + s2)[|s1 + s2| - 1] == x;
      match Filtered(s1, criteria)
      case Err(e) =>
      case Ok(r1) =>
        match Filtered(s2[..n], criteria)
        case Err(e) =>
        case Ok(r2) =>
          assert r1 + r2 + [x] == r1 + (r2 + [x]);
    }
  }

  /** Filtering a single sample keeps it when it matches, drops it when it
      does not, and raises when its match raises. */
  lemma FilteredSingle<D>(x: Sample<D>, criteria: Criteria)
    ensures Filtered([x], criteria) ==
      match Match(x.meta, criteria)
      case Err(e) => Err(e)
      case Ok(b) => Ok(if b then [x] else [])
  {
    assert [x][..0] == [];
    assert Filtered<D>([], criteria) == Ok([]);
    assert [] + [x] == [x];
  }

  /** Filtering raises exactly when some sample's match raises. */
  lemma {:induction false} FilteredSucceeds<D>(s: seq<Sample<D>>, criteria: Criteria)
    ensures Filtered(s, criteria).Ok? <==> forall i :: 0 <= i < |s| ==> Match(s[i].meta, criteria).Ok?
    decreases |s|
  {
    if s != [] {
      var n := |s| - 1;
      FilteredSucceeds(s[..n], criteria);
      assert forall i :: 0 <= i < n ==> s[..n][i] == s[i];
    }
  }

  /** The error filtering raises is that of the first sample whose match
      raises. */
  lemma {:induction false} FirstRaising<D>(s: seq<Sample<D>>, criteria: Criteria) returns (i: nat)
    requires Filtered(s, criteria).Err?
    ensures i < |s| && Match(s[i].meta, criteria) == Err(Filtered(s, criteria).error)
    ensures forall j :: 0 <= j < i ==> Match(s[j].meta, criteria).Ok?
    decreases |s|
  {
    var n := |s| - 1;
    var p := s[..n];
    assert forall j :: 0 <= j < n ==> p[j] == s[j];
    if Filtered(p, criteria).Err? {
      i := FirstRaising(p, criteria);
    } else {
      FilteredSucceeds(p, criteria);
      i := n;
    }
  }

  /** Filtering keeps, in order, exactly the samples at the positions whose
      match gives true: the result is the subsequence of s picked by the
      strictly increasing positions idx, and a position is picked if and only
      if its sample matches. */
  lemma {:induction false} FilteredPositions<D>(s: seq<Sample<D>>, criteria: Criteria) returns (idx: seq<nat>)
    requires Filtered(s, criteria).Ok?
    ensures |idx| == |Filtered(s, criteria).value|
    ensures forall k :: 0 <= k < |idx| ==> idx[k] < |s| && Filtered(s, criteria).value[k] == s[idx[k]]
    ensures forall k, l :: 0 <= k < l < |idx| ==> idx[k] < idx[l]
    ensures forall i :: 0 <= i < |s| ==> (Match(s[i].meta, criteria) == Ok(true) <==> i in idx)
    decreases |s|
  {
    if s == [] {
      idx := [];
    } else {
      var n := |s| - 1;
      var p := s[..n];
      var ip := FilteredPositions(p, criteria);
      idx := PositionsStep(s, criteria, ip);
    }
  }

  /** The inductive step of FilteredPositions: the positions picked from all
      samples but the last extend to all samples. */
  lemma PositionsStep<D>(s: seq<Sample<D>>, criteria: Criteria, ip: seq<nat>) returns (idx: seq<nat>)
    requires s != [] && Filtered(s, criteria).Ok?
    requires Filtered(s[..|s| - 1], criteria).Ok?
    requires |ip| == |Filtered(s[..|s| - 1], criteria).value|
    requires forall k :: 0 <= k < |ip| ==> ip[k] < |s| - 1 && Filtered(s[..|s| - 1], criteria).value[k] == s[..|s| - 1][ip[k]]
    requires forall k, l :: 0 <= k < l < |ip| ==> ip[k] < ip[l]
    requires forall i :: 0 <= i < |s| - 1 ==> (Match(s[..|s| - 1][i].meta, criteria) == Ok(true) <==> i in ip)
    ensures |idx| == |Filtered(s, criteria).value|
    ensures forall k :: 0 <= k < |idx| ==> idx[k] < |s| && Filtered(s, criteria).value[k] == s[idx[k]]
    ensures forall k, l :: 0 <= k < l < |idx| ==> idx[k] < idx[l]
    ensures forall i :: 0 <= i < |s| ==> (Match(s[i].meta, criteria) == Ok(true) <==> i in idx)
  {
    var n := |s| - 1;
    var p := s[..n];
    var kept := Filtered(p, criteria).value;
    var r := Filtered(s, criteria).value;
    assert forall j :: 0 <= j < n ==> p[j] == s[j];
    if Match(s[n].meta, criteria) == Ok(true) {
      assert r == kept + [s[n]];
      idx := ip + [n];
      forall k | 0 <= k < |idx|
        ensures idx[k] < |s| && r[k] == s[idx[k]]
      {
        if k < |ip| {
          assert idx[k] == ip[k] && r[k] == kept[k];
        }
      }
      forall i | 0 <= i < |s|
        ensures Match(s[i].meta, criteria) == Ok(true) <==> i in idx
      {
        assert i in idx <==> i in ip || i == n;
      }
    } else {
      assert r == kept;
      idx := ip;
      assert n !in ip;
    }
  }

  /** When every sample matches, filtering keeps all of them. */
  lemma {:induction false} FilteredAllMatch<D>(s: seq<Sample<D>>, criteria: Criteria)
    requires forall i :: 0 <= i < |s| ==> Match(s[i].meta, criteria) == Ok(true)
    ensures Filtered(s, criteria) == Ok(s)
    decreases |s|
  {
    if s != [] {
      var n := |s| - 1;
      assert forall j :: 0 <= j < n ==> s[..n][j] == s[j];
      FilteredAllMatch(s[..n], criteria);
      assert s[..n] + [s[n]] == s;
    }
  }

  /** filter() without criteria gives back the same samples. */
  lemma FilteredNoCriteria<D>(s: seq<Sample<D>>)
    ensures Filtered(s, []) == Ok(s)
  {
    FilteredAllMatch(s, []);
  }

  /** Filtering a filtered result again with the same criteria changes nothing. */
  lemma FilteredIdempotent<D>(s: seq<Sample<D>>, criteria: Criteria)
    requires Filtered(s, criteria).Ok?
    ensures Filtered(Filtered(s, criteria).value, criteria) == Filtered(s, criteria)
  {
  }

  /** One step of add_sample's loop: creates the field's table if it is
      missing, then starts the value's count at 1 or adds 1 to it. */
  function Record(info: Info, f: string, v: Value): (r: Info)
    ensures r.Keys == info.Keys + {f}
    ensures forall g, w :: Tallied(r, g, w) == Tallied(info, g, w) + (if g == f && w == v then 1 else 0)
    ensures (forall g, w :: g in info && w in info[g] ==> info[g][w] > 0) ==>
      forall g, w :: g in r && w in r[g] ==> r[g][w] > 0
    ensures (forall g :: g in info ==> info[g] != map[]) ==> forall g :: g in r ==> r[g] != map[]
  {
    var table := if f in info then info[f] else map[];
    var count := if v in table then table[v] + 1 else 1;
    info[f := table[v := count]]
  }

  /** CorpusBase. */
  class Corpus<D> {
    var samples: seq<Sample<D>>
    var info: Info

    /** The index is always the tally of the sample list. */
    ghost predicate Valid()
      reads this
    {
      IsTally(info, samples)
    }

    /** CorpusBase(): no samples and an empty index. */
    constructor ()
      ensures Valid() && samples == [] && info == map[]
    {
      samples := [];
      info := map[];
    }

    /** add_sample: records each metadata field value in the index, then
        appends the sample. */
    method AddSample(x: Sample<D>)
      requires Valid()
      modifies this
      ensures Valid()
      ensures samples == old(samples) + [x]
      ensures Bumped(old(info), info, x.meta.fields)
    {
      var fields := AsDict(x.meta);
      var pending := fields.Keys;
      while pending != {}
        invariant pending <= fields.Keys
        invariant samples == old(samples)
        invariant info.Keys == old(info).Keys + (fields.Keys - pending)
        invariant forall f, v :: f in info && v in info[f] ==> info[f][v] > 0
        invariant forall f :: f in info ==> info[f] != map[]
        invariant forall f, v ::
          Tallied(info, f, v) == Tallied(old(info), f, v) + (if f in pending then 0 else Hit(fields, f, v))
        decreases pending
      {
        var key :| key in pending;
        info := Record(info, key, fields[key]);
        pending := pending - {key};
      }
      samples := samples + [x];
      forall f, v
        ensures Tallied(info, f, v) == Occurrences(samples, f, v)
      {
        OccurrencesAppend(old(samples), x, f, v);
      }
    }

    /** add_sample_matching: adds the sample exactly when its metadata
        matches; raises, changing nothing, when the match raises. */
    method AddSampleMatching(x: Sample<D>, criteria: Criteria) returns (outcome: Outcome)
      requires Valid()
      modifies this
      ensures Valid()
      ensures Match(x.meta, criteria).Err? ==> outcome == Fail(Match(x.meta, criteria).error)
      ensures Match(x.meta, criteria).Ok? ==> outcome == Pass
      ensures Match(x.meta, criteria) == Ok(true) ==>
        samples == old(samples) + [x] && Bumped(old(info), info, x.meta.fields)
      ensures Match(x.meta, criteria) != Ok(true) ==> samples == old(samples) && info == old(info)
    {
      match Match(x.meta, criteria)
      case Err(e) =>
        outcome := Fail(e);
      case Ok(matches) =>
        if matches {
          AddSample(x);
        }
        outcome := Pass;
    }

    /** filter(**kwargs): a new corpus built by offering every sample, in
        order, to add_sample_matching. This corpus is not modified. */
    method Filter(criteria: Criteria) returns (res: Result<Corpus<D>>)
      ensures Filtered(samples, criteria).Err? ==> res == Err(Filtered(samples, criteria).error)
      ensures Filtered(samples, criteria).Ok? ==>
        res.Ok? && fresh(res.value) && res.value.Valid() &&
        res.value.samples == Filtered(samples, criteria).value
    {
      var out := new Corpus<D>();
      var i := 0;
      while i < |samples|
        invariant 0 <= i <= |samples|
        invariant fresh(out) && out.Valid()
        invariant Filtered(samples[..i], criteria) == Ok(out.samples)
      {
        var outcome := out.AddSampleMatching(samples[i], criteria);
        assert samples[..i + 1][..i] == samples[..i];
        assert samples[..i + 1][i] == samples[i];
        if outcome.Fail? {
          FilteredConcat(samples[..i + 1], samples[i + 1..], criteria);
          assert samples[..i + 1] + samples[i + 1..] == samples;
          return Err(outcome.error);
        }
        i := i + 1;
      }
      assert samples[..i] == samples;
      res := Ok(out);
    }

    /** __getitem__ with an integer: positions count from the front, negative
        positions from the back; anything else is out of range. */
    function GetItem(i: int): (r: Result<Sample<D>>)
      reads this
      ensures r.Ok? <==> -|samples| <= i < |samples|
      ensures r.Ok? && i >= 0 ==> r.value == samples[i]
      ensures r.Ok? && i < 0 ==> r.value == samples[|samples| + i]
      ensures r.Err? ==> r.error == IndexOutOfRange(i)
    {
      if 0 <= i < |samples| then Ok(samples[i])
      else if -|samples| <= i < 0 then Ok(samples[|samples| + i])
      else Err(IndexOutOfRange(i))
    }

    /** __len__: the number of samples, which bounds every count of the index. */
    function Len(): (n: nat)
      reads this
      ensures Valid() ==> forall f, v :: Tallied(info, f, v) <= n
    {
      OccurrencesBounded(samples);
      |samples|
    }
  }
}
