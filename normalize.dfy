/**
 * Normalisation of raw contribution records: renamed fields, numeric conversions with
 * defaults, and the contribution date read as YYYY-MM-DD.
 */
module Normalize {
  import opened Wrappers
  import opened Text
  import opened Dates

  /** A scalar field of a raw record: a number, a string, or JSON `null` (Python `None`). */
  datatype Scalar = IntValue(i: int) | FloatValue(x: real) | TextValue(s: string) | NullValue

  /** A raw contribution; a missing key is None. */
  datatype RawContribution = RawContribution(
    committeeId: Option<string>, recipientId: Option<string>, name: Option<string>, employer: Option<string>,
    occupation: Option<string>, contributorType: Option<string>, industry: Option<string>,
    amount: Option<Scalar>, date: Option<string>, cycle: Option<Scalar>)

  datatype Contribution = Contribution(
    committeeId: Option<string>, recipientFecId: Option<string>, contributorName: Option<string>,
    contributorEmployer: Option<string>, contributorOccupation: Option<string>, contributorType: Option<string>,
    industry: Option<string>, amount: real, date: Option<Date>, cycle: int)

  /** Python `float(v)`; a string must be a plain decimal numeral. */
  function FloatOf(v: Scalar): Result<real, string> {
    match v
    case IntValue(i) => Success(i as real)
    case FloatValue(x) => Success(x)
    case TextValue(s) => (match ParseDecimal(s) case Some(x) => Success(x) case None => Failure("could not convert string to float"))
    case NullValue => Failure("float() argument must be a string or a real number, not 'NoneType'")
  }

  /** Python `int(x)` on a float truncates toward zero. */
  function Truncate(x: real): (r: int)
    ensures x >= 0.0 ==> r as real <= x < r as real + 1.0
    ensures x < 0.0 ==> r as real - 1.0 < x <= r as real
  {
    if x >= 0.0 then x.Floor else -((-x).Floor)
  }

  /** Python `int(v)`; a string must be an optionally signed run of digits. */
  function IntOf(v: Scalar): Result<int, string> {
    match v
    case IntValue(i) => Success(i)
    case FloatValue(x) => Success(Truncate(x))
    case TextValue(s) =>
      if |s| > 1 && (s[0] == '-' || s[0] == '+') && AllDigits(s[1..]) then
        Success(if s[0] == '-' then 0 - DigitsValue(s[1..]) as int else DigitsValue(s[1..]) as int)
      else if |s| > 0 && AllDigits(s) then Success(DigitsValue(s))
      else Failure("invalid literal for int()")
    case NullValue => Failure("int() argument must be a string, a bytes-like object or a real number, not 'NoneType'")
  }

  /** The date of a record: None for a missing or empty string, else the parsed date, or an error. */
  function DateOf(v: Option<string>): (r: Result<Option<Date>, string>)
    ensures v.None? || v.value == "" ==> r == Success(None)
    ensures v.Some? && v.value != "" ==> (r.Success? <==> ParseIso(v.value).Some?)
    ensures v.Some? && v.value != "" && r.Success? ==> r.value == ParseIso(v.value)
  {
    if v.None? || v.value == "" then Success(None)
    else match ParseIso(v.value)
      case Some(d) => Success(Some(d))
      case None => Failure("time data does not match format '%Y-%m-%d'")
  }

  /** One record: the date is read first, then the amount, then the cycle; an absent amount or cycle is 0. */
  function Convert(r: RawContribution): Result<Contribution, string> {
    var date :- DateOf(r.date);
    var amount :- FloatOf(r.amount.GetOr(IntValue(0)));
    var cycle :- IntOf(r.cycle.GetOr(IntValue(0)));
    Success(Contribution(r.committeeId, r.recipientId, r.name, r.employer, r.occupation, r.contributorType,
                         r.industry, amount, date, cycle))
  }

  /** `normalize_contributions`: one contribution appended per record, in order. */
  method NormalizeContributions(records: seq<RawContribution>) returns (r: Result<seq<Contribution>, string>)
    ensures r == MapAll(Convert, records)
  {
    var normalized: seq<Contribution> := [];
    for i := 0 to |records|
      invariant MapAll(Convert, records[..i]) == Success(normalized)
    {
      var c := Convert(records[i]);
      if c.Failure? {
        MapAllFirstFailure(Convert, records, i);
        return Failure(c.error);
      }
      MapAllStep(Convert, records, i);
      normalized := normalized + [c.value];
    }
    assert records[..|records|] == records;
    r := Success(normalized);
  }

  /**
   * Each output carries its record's fields under the new names (committee and industry as
   * they are), amount and cycle 0 when absent, and no date when the date is missing or empty.
   */
  lemma ConvertFields(r: RawContribution)
    requires Convert(r).Success?
    ensures var c := Convert(r).value;
      && c.committeeId == r.committeeId && c.recipientFecId == r.recipientId && c.contributorName == r.name
      && c.contributorEmployer == r.employer && c.contributorOccupation == r.occupation
      && c.contributorType == r.contributorType && c.industry == r.industry
      && (r.amount.None? ==> c.amount == 0.0)
      && (r.cycle.None? ==> c.cycle == 0)
      && (r.date.None? || r.date.value == "" ==> c.date.None?)
      && (r.date.Some? && r.date.value != "" ==> c.date == ParseIso(r.date.value))
  {
  }

  /** A present `null` amount or cycle is not a missing one: `float(None)` and `int(None)` raise. */
  lemma NullNumberFails(r: RawContribution)
    requires r.amount == Some(NullValue) || r.cycle == Some(NullValue)
    ensures Convert(r).Failure?
  {
  }

  /** A record whose date string is a formatted date gets exactly that date back. */
  lemma FormattedDateKept(r: RawContribution, d: Date)
    requires Valid(d) && r.date == Some(Format(d))
    requires r.amount.None? && r.cycle.None?
    ensures Convert(r).Success? && Convert(r).value.date == Some(d)
  {
    ParseFormat(d);
  }

  /** The output has one contribution per record, in order, or the error of the first bad record. */
  lemma NormalizeShape(records: seq<RawContribution>)
    ensures var r := MapAll(Convert, records);
      (r.Success? <==> forall i :: 0 <= i < |records| ==> Convert(records[i]).Success?)
      && (r.Success? ==> |r.value| == |records| && forall i :: 0 <= i < |records| ==> r.value[i] == Convert(records[i]).value)
  {
  }
}
