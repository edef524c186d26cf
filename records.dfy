/**
 The records of the dashboard's dataset: one row of the JSON array the
 dashboard fetches, an object whose fields are strings, numbers or missing.
 */
module Records {

  /** A field value as JavaScript sees it: a string, a number, or absent
      (`undefined`). Numbers are only ever copied or compared, never computed
      with, so they are kept opaque as integers. */
  datatype Value = Str(s: string) | Num(n: int) | Absent

  /** The twelve attributes of a record the dashboard reads. */
  datatype Attr =
    | EndYear | Topic | Sector | Region | Pestle | Source | Swot | Country | City
    | Intensity | Likelihood | Relevance

  /** One dataset row; `endYear` is the JSON key `end_year`. */
  datatype Record = Record(
    endYear: Value, topic: Value, sector: Value, region: Value, pestle: Value,
    source: Value, swot: Value, country: Value, city: Value,
    intensity: Value, likelihood: Value, relevance: Value)
  {
    /** The value of attribute `a` of this record (`item.<a>` in JavaScript). */
    function Field(a: Attr): Value {
      match a
      case EndYear => endYear
      case Topic => topic
      case Sector => sector
      case Region => region
      case Pestle => pestle
      case Source => source
      case Swot => swot
      case Country => country
      case City => city
      case Intensity => intensity
      case Likelihood => likelihood
      case Relevance => relevance
    }
  }

  /** `rs.map(item => item.<a>)`: attribute `a` of every record, in order. */
  function Column(rs: seq<Record>, a: Attr): (vs: seq<Value>)
    ensures |vs| == |rs|
    ensures forall i :: 0 <= i < |rs| ==> vs[i] == rs[i].Field(a)
  {
    seq(|rs|, i requires 0 <= i < |rs| => rs[i].Field(a))
  }

  /** `rs.filter(keep)`: the records for which `keep` holds, in their order. */
  function FilterBy(rs: seq<Record>, keep: Record -> bool): (r: seq<Record>)
    ensures |r| <= |rs|
    ensures forall x :: x in r <==> x in rs && keep(x)
  {
    if rs == [] then []
    else (if keep(rs[0]) then [rs[0]] else []) + FilterBy(rs[1..], keep)
  }

  /** How many of the first `i` records of `rs` are kept. */
  function KeptBefore(rs: seq<Record>, keep: Record -> bool, i: nat): (n: nat)
    requires i <= |rs|
    ensures n <= i
  {
    if i == 0 then 0 else (if keep(rs[0]) then 1 else 0) + KeptBefore(rs[1..], keep, i - 1)
  }

  /** `filter` keeps as many records as `keep` admits. */
  lemma {:induction false} FilterByLength(rs: seq<Record>, keep: Record -> bool)
    ensures |FilterBy(rs, keep)| == KeptBefore(rs, keep, |rs|)
  {
    if rs != [] {
      FilterByLength(rs[1..], keep);
    }
  }

  /** A kept record at position `i` of `rs` lands at position
      `KeptBefore(rs, keep, i)` of the result: after exactly the kept records
      that precede it. */
  lemma {:induction false} FilterByPlacesKept(rs: seq<Record>, keep: Record -> bool, i: nat)
    requires i < |rs| && keep(rs[i])
    ensures KeptBefore(rs, keep, i) < |FilterBy(rs, keep)|
    ensures FilterBy(rs, keep)[KeptBefore(rs, keep, i)] == rs[i]
  {
    var head := if keep(rs[0]) then [rs[0]] else [];
    assert FilterBy(rs, keep) == head + FilterBy(rs[1..], keep);
    if i > 0 {
      FilterByPlacesKept(rs[1..], keep, i - 1);
    }
  }

  /** Kept records keep their relative order: one kept at `i` comes before
      anything at a later position `i'`. */
  lemma {:induction false} KeptBeforeIncreases(rs: seq<Record>, keep: Record -> bool, i: nat, i': nat)
    requires i < i' <= |rs| && keep(rs[i])
    ensures KeptBefore(rs, keep, i) < KeptBefore(rs, keep, i')
  {
    if i > 0 {
      KeptBeforeIncreases(rs[1..], keep, i - 1, i' - 1);
    }
  }

  /** A `keep` that holds of every record keeps the whole sequence. */
  lemma {:induction false} FilterByKeepingAll(rs: seq<Record>, keep: Record -> bool)
    requires forall x :: x in rs ==> keep(x)
    ensures FilterBy(rs, keep) == rs
  {
    if rs != [] {
      assert rs[0] in rs;
      FilterByKeepingAll(rs[1..], keep);
    }
  }

  /** Two callbacks that agree on every record of `rs` filter it alike. */
  lemma {:induction false} FilterByAgreeing(rs: seq<Record>, keep: Record -> bool, keep': Record -> bool)
    requires forall x :: x in rs ==> keep(x) == keep'(x)
    ensures FilterBy(rs, keep) == FilterBy(rs, keep')
  {
    if rs != [] {
      assert rs[0] in rs;
      FilterByAgreeing(rs[1..], keep, keep');
    }
  }

  /** When `narrow` only keeps records `wide` keeps, filtering by `narrow`
      equals filtering by `wide` and then by `narrow`. */
  lemma {:induction false} FilterByNarrowing(rs: seq<Record>, wide: Record -> bool, narrow: Record -> bool)
    requires forall x :: x in rs && narrow(x) ==> wide(x)
    ensures FilterBy(rs, narrow) == FilterBy(FilterBy(rs, wide), narrow)
  {
    if rs != [] {
      assert rs[0] in rs;
      FilterByNarrowing(rs[1..], wide, narrow);
      var v := FilterBy(rs, wide);
      if wide(rs[0]) {
        assert v == [rs[0]] + FilterBy(rs[1..], wide);
        assert v[0] == rs[0] && v[1..] == FilterBy(rs[1..], wide);
      } else {
        assert v == FilterBy(rs[1..], wide);
      }
    }
  }
}
