/** The usage example in the module documentation of datasets/base.py, and the
    list-criterion example of Meta.match, as client code of the model. */
module Scenario {
  import opened Errors
  import opened Metadata
  import opened Samples
  import opened Corpora

  /** The metadata the example gives each of its samples. */
  function Person(speaker: string, sex: string, age: int, number: string): map<string, Value>
  {
    map["speaker" := Str(speaker), "sex" := Str(sex), "age" := Int(age), "number" := Str(number)]
  }

  /** A list criterion accepts any of its values. */
  lemma ListCriterion()
    ensures Match(NewMeta(Person("alice", "female", 37, "one")),
                  [("number", OneOf([Str("one"), Str("two")]))]) == Ok(true)
    ensures Match(NewMeta(Person("alice", "female", 37, "one")),
                  [("number", OneOf([Str("two"), Str("three")]))]) == Ok(false)
    ensures Match(NewMeta(Person("alice", "female", 37, "one")),
                  [("height", Exact(Int(170)))]) == Err(UnknownField("height"))
  {
  }

  /** Every example sample has the field sex, with the given value. */
  lemma PersonSex(speaker: string, sex: string, age: int, number: string)
    ensures "sex" in Person(speaker, sex, age, number)
    ensures Person(speaker, sex, age, number)["sex"] == Str(sex)
  {
  }

  /** The example's four samples: alice twice, then bob twice. */
  function ExampleSamples(): seq<Sample<real>>
  {
    [ NewSample(0.99, Person("alice", "female", 37, "one")),
      NewSample(2.1, Person("alice", "female", 37, "two")),
      NewSample(1.02, Person("bob", "male", 48, "one")),
      NewSample(2.07, Person("bob", "male", 48, "two")) ]
  }

  /** filter(sex='male') keeps exactly bob's two samples, in order. */
  lemma ExampleFilter()
    ensures Filtered(ExampleSamples(), [("sex", Exact(Str("male")))]) ==
      Ok([ExampleSamples()[2], ExampleSamples()[3]])
  {
    var s := ExampleSamples();
    var male := [("sex", Exact(Str("male")))];
    PersonSex("alice", "female", 37, "one");
    PersonSex("alice", "female", 37, "two");
    PersonSex("bob", "male", 48, "one");
    PersonSex("bob", "male", 48, "two");
    assert Str("female") != Str("male");
    assert Match(s[0].meta, male) == Ok(false);
    assert Match(s[1].meta, male) == Ok(false);
    assert Match(s[2].meta, male) == Ok(true);
    assert Match(s[3].meta, male) == Ok(true);
    FilteredSingle(s[0], male);
    FilteredSingle(s[1], male);
    FilteredSingle(s[2], male);
    FilteredSingle(s[3], male);
    FilteredConcat([s[0]], [s[1]], male);
    assert [s[0]] + [s[1]] == [s[0], s[1]];
    assert Filtered([s[0], s[1]], male) == Ok([]);
    FilteredConcat([s[0], s[1]], [s[2]], male);
    assert [s[0], s[1]] + [s[2]] == [s[0], s[1], s[2]];
    assert Filtered([s[0], s[1], s[2]], male) == Ok([s[2]]);
    FilteredConcat([s[0], s[1], s[2]], [s[3]], male);
    assert [s[0], s[1], s[2]] + [s[3]] == s;
    assert [s[2]] + [s[3]] == [s[2], s[3]];
  }

  /** Each sex occurs twice among the example's samples. */
  lemma ExampleTally()
    ensures Occurrences(ExampleSamples(), "sex", Str("female")) == 2
    ensures Occurrences(ExampleSamples(), "sex", Str("male")) == 2
  {
    var s := ExampleSamples();
    PersonSex("alice", "female", 37, "one");
    PersonSex("alice", "female", 37, "two");
    PersonSex("bob", "male", 48, "one");
    PersonSex("bob", "male", 48, "two");
    assert Str("female") != Str("male");
    assert s[..1][..0] == [];
    assert s[..2][..1] == s[..1];
    assert s[..3][..2] == s[..2];
    assert s[0].meta.fields["sex"] == Str("female") && s[1].meta.fields["sex"] == Str("female");
    assert s[2].meta.fields["sex"] == Str("male") && s[3].meta.fields["sex"] == Str("male");
    assert Occurrences(s[..1], "sex", Str("female")) == 1;
    assert Occurrences(s[..2], "sex", Str("female")) == 2;
    assert Occurrences(s[..3], "sex", Str("female")) == 2;
    assert Occurrences(s[..1], "sex", Str("male")) == 0;
    assert Occurrences(s[..2], "sex", Str("male")) == 0;
    assert Occurrences(s[..3], "sex", Str("male")) == 1;
  }

  /** The index's table for sex over the example: female and male, twice
      each, and no other value. */
  lemma ExampleSexTable()
    ensures FieldTable(ExampleSamples(), "sex") == map[Str("female") := 2, Str("male") := 2]
  {
    var s := ExampleSamples();
    PersonSex("alice", "female", 37, "one");
    PersonSex("alice", "female", 37, "two");
    PersonSex("bob", "male", 48, "one");
    PersonSex("bob", "male", 48, "two");
    assert Str("female") != Str("male");
    assert s[..1][..0] == [];
    assert s[..2][..1] == s[..1];
    assert s[..3][..2] == s[..2];
    assert s[0].meta.fields["sex"] == Str("female") && s[1].meta.fields["sex"] == Str("female");
    assert s[2].meta.fields["sex"] == Str("male") && s[3].meta.fields["sex"] == Str("male");
    assert FieldTable(s[..1], "sex") == map[Str("female") := 1];
    assert FieldTable(s[..2], "sex") == map[Str("female") := 2];
    assert FieldTable(s[..3], "sex") == map[Str("female") := 2, Str("male") := 1];
  }

  /** Any index that is the tally of the example's samples reports sex as
      {female: 2, male: 2}. */
  lemma ExampleIndex(info: Info)
    requires IsTally(info, ExampleSamples())
    ensures "sex" in info && info["sex"] == map[Str("female") := 2, Str("male") := 2]
  {
    ExampleTally();
    assert Tallied(info, "sex", Str("female")) == 2;
    TallyIsFieldTable(info, ExampleSamples(), "sex");
    ExampleSexTable();
  }

  /** The example's loop: each sample is added to a new corpus in turn. The
      index then reports sex as {female: 2, male: 2}. */
  method BuildExample() returns (corpus: Corpus<real>)
    ensures fresh(corpus) && corpus.Valid() && corpus.samples == ExampleSamples()
    ensures "sex" in corpus.info && corpus.info["sex"] == map[Str("female") := 2, Str("male") := 2]
  {
    var s := ExampleSamples();
    corpus := new Corpus<real>();
    corpus.AddSample(s[0]);
    corpus.AddSample(s[1]);
    corpus.AddSample(s[2]);
    corpus.AddSample(s[3]);
    assert corpus.samples == s;
    ExampleIndex(corpus.info);
  }

  /** Four samples go in; the corpus has four, in order (corpus[2] is bob's
      first sample), tallies the two sexes twice each, and filtering on
      sex = 'male' leaves bob's two samples without changing the corpus. */
  method Example() returns (length: nat, third: Result<Sample<real>>, maleOnly: Result<Corpus<real>>)
    ensures length == 4
    ensures third == Ok(ExampleSamples()[2])
    ensures maleOnly.Ok? && maleOnly.value.samples == [ExampleSamples()[2], ExampleSamples()[3]]
    ensures maleOnly.value.Len() == 2
  {
    var s := ExampleSamples();
    var corpus := BuildExample();
    length := corpus.Len();
    third := corpus.GetItem(2);
    assert corpus.GetItem(-1) == Ok(s[3]);
    assert corpus.GetItem(4) == Err(IndexOutOfRange(4));

    ExampleFilter();
    maleOnly := corpus.Filter([("sex", Exact(Str("male")))]);
    assert corpus.samples == s;
  }
}
