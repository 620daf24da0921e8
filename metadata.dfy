/** Sample metadata (class Meta of datasets/base.py): a set of named scalar
    fields, and matching them against filter criteria. */
module Metadata {
  import opened Errors

  /** A metadata value. Python's `Meta` accepts any hashable scalar; strings
      and integers are the ones base.py is used with. */
  datatype Value = Str(s: string) | Int(i: int)

  /** The fields of one sample's metadata, by name. */
  datatype Meta = Meta(fields: map<string, Value>)

  /** One keyword argument of `match`: a single acceptable value, or a list of
      acceptable values (`Meta.match` tells them apart by testing for a list). */
  datatype Criterion = Exact(value: Value) | OneOf(values: seq<Value>)

  /** The keyword arguments of `match`, in the order the caller wrote them.
      The order matters: matching stops at the first criterion that fails. */
  type Criteria = seq<(string, Criterion)>

  /** Meta(**attr): every keyword argument becomes a field. */
  function NewMeta(attrs: map<string, Value>): (m: Meta)
    ensures AsDict(m) == attrs
  {
    Meta(attrs)
  }

  /** as_dict: all field/value pairs. A datatype value cannot be mutated, so the
      copy that Python's `as_dict` makes is the value itself: metadata rebuilt
      from it is the original. */
  function AsDict(m: Meta): (d: map<string, Value>)
    ensures Meta(d) == m
  {
    m.fields
  }

  lemma MetaRoundTrip(attrs: map<string, Value>, m: Meta)
    ensures AsDict(NewMeta(attrs)) == attrs
    ensures NewMeta(AsDict(m)) == m
  {
  }

  /** Whether a field value passes one criterion: equal to the single value,
      or a member of the list. */
  predicate Satisfies(attr: Value, c: Criterion)
  {
    match c
    case Exact(v) => attr == v
    case OneOf(vs) => attr in vs
  }

  /** Whether the metadata has the criterion's field and its value passes. */
  predicate Holds(m: Meta, criterion: (string, Criterion))
  {
    criterion.0 in m.fields && Satisfies(m.fields[criterion.0], criterion.1)
  }

  /** match(**kwargs): the criteria are checked in order; a field the metadata
      lacks raises, the first value that fails gives false. */
  function Match(m: Meta, criteria: Criteria): (r: Result<bool>)
    ensures r == Ok(true) <==> forall i :: 0 <= i < |criteria| ==> Holds(m, criteria[i])
    ensures r.Err? ==> r.error.UnknownField? && r.error.field !in m.fields
    decreases |criteria|
  {
    if criteria == [] then Ok(true)
    else
      var (key, c) := criteria[0];
      if key !in m.fields then Err(UnknownField(key))
      else if !Satisfies(m.fields[key], c) then Ok(false)
      else
        var r := Match(m, criteria[1..]);
        assert forall i :: 1 <= i < |criteria| ==> criteria[i] == criteria[1..][i - 1];
        r
  }

  /** Matching stops at the first criterion that does not hold: it raises when
      that criterion's field is missing and answers false otherwise. */
  lemma {:induction false} MatchStopsAt(m: Meta, criteria: Criteria, i: nat)
    requires i < |criteria| && !Holds(m, criteria[i])
    requires forall j :: 0 <= j < i ==> Holds(m, criteria[j])
    ensures Match(m, criteria) ==
      if criteria[i].0 in m.fields then Ok(false) else Err(UnknownField(criteria[i].0))
    decreases i
  {
    if i > 0 {
      assert Holds(m, criteria[0]);
      var rest := criteria[1..];
      forall j | 0 <= j < i - 1
        ensures Holds(m, rest[j])
      {
        assert rest[j] == criteria[j + 1];
      }
      MatchStopsAt(m, rest, i - 1);
    }
  }

  /** Whenever matching does not succeed, there is a first criterion that does
      not hold, and it decides the answer (see MatchStopsAt). */
  lemma {:induction false} FirstFailing(m: Meta, criteria: Criteria) returns (i: nat)
    requires Match(m, criteria) != Ok(true)
    ensures i < |criteria| && !Holds(m, criteria[i])
    ensures forall j :: 0 <= j < i ==> Holds(m, criteria[j])
    ensures Match(m, criteria) ==
      if criteria[i].0 in m.fields then Ok(false) else Err(UnknownField(criteria[i].0))
    decreases |criteria|
  {
    if !Holds(m, criteria[0]) {
      i := 0;
    } else {
      var rest := criteria[1..];
      var k := FirstFailing(m, rest);
      i := k + 1;
      forall j | 0 <= j < i
        ensures Holds(m, criteria[j])
      {
        if j > 0 { assert criteria[j] == rest[j - 1]; }
      }
    }
    MatchStopsAt(m, criteria, i);
  }

  /** Matching raises exactly when some criterion names a missing field and no
      earlier criterion has already failed. */
  lemma MatchRaises(m: Meta, criteria: Criteria)
    ensures Match(m, criteria).Err? <==>
      exists i :: 0 <= i < |criteria| && criteria[i].0 !in m.fields &&
        forall j :: 0 <= j < i ==> Holds(m, criteria[j])
  {
    if Match(m, criteria).Err? {
      var i := FirstFailing(m, criteria);
    }
    if exists i :: 0 <= i < |criteria| && criteria[i].0 !in m.fields &&
         forall j :: 0 <= j < i ==> Holds(m, criteria[j]) {
      var i :| 0 <= i < |criteria| && criteria[i].0 !in m.fields &&
        forall j :: 0 <= j < i ==> Holds(m, criteria[j]);
      MatchStopsAt(m, criteria, i);
    }
  }

  /** When every criterion names a field the metadata has, matching never
      raises, and its answer does not depend on the order of the criteria. */
  lemma MatchKnownFields(m: Meta, criteria: Criteria)
    requires forall i :: 0 <= i < |criteria| ==> criteria[i].0 in m.fields
    ensures Match(m, criteria) == Ok(forall i :: 0 <= i < |criteria| ==> Holds(m, criteria[i]))
  {
    if Match(m, criteria) != Ok(true) {
      var i := FirstFailing(m, criteria);
    }
  }

  /** No criteria: every metadata matches. */
  lemma MatchNoCriteria(m: Meta)
    ensures Match(m, []) == Ok(true)
  {
  }

  /** Fields that no criterion names do not influence matching: two metadata
      that agree on the named fields match (or raise) alike. */
  lemma {:induction false} MatchIgnoresUnnamedFields(m1: Meta, m2: Meta, criteria: Criteria)
    requires forall i :: 0 <= i < |criteria| ==>
      (criteria[i].0 in m1.fields <==> criteria[i].0 in m2.fields)
    requires forall i :: 0 <= i < |criteria| && criteria[i].0 in m1.fields ==>
      m1.fields[criteria[i].0] == m2.fields[criteria[i].0]
    ensures Match(m1, criteria) == Match(m2, criteria)
    decreases |criteria|
  {
    if criteria != [] {
      var rest := criteria[1..];
      assert forall i :: 0 <= i < |rest| ==> rest[i] == criteria[i + 1];
      MatchIgnoresUnnamedFields(m1, m2, rest);
    }
  }
}
