/**
 * The entries of the congress-legislators data (YAML or JSON), read by several scripts.
 * A key that is absent from an entry is None.
 */
module Legislators {
  import opened Wrappers

  /** `id.fec`: normally a list of FEC candidate IDs, occasionally a single string. */
  datatype FecField = FecList(ids: seq<string>) | FecScalar(id: string)

  datatype IdBlock = IdBlock(bioguide: Option<string>, govtrack: Option<int>, icpsr: Option<int>, fec: Option<FecField>)

  datatype NameBlock = NameBlock(first: Option<string>, middle: Option<string>, last: Option<string>,
                                 suffix: Option<string>, officialFull: Option<string>)

  /** One term of service; `termType` is "sen" or "rep" in the data. */
  datatype Term = Term(termType: Option<string>, party: Option<string>, state: Option<string>, district: Option<int>)

  datatype Person = Person(id: Option<IdBlock>, name: Option<NameBlock>, terms: Option<seq<Term>>)

  /** `terms[-1]` when the list of terms is present and non-empty. */
  function LastTerm(p: Person): (r: Option<Term>)
    ensures r.Some? <==> p.terms.Some? && |p.terms.value| > 0
    ensures r.Some? ==> r.value == p.terms.value[|p.terms.value| - 1]
  {
    match p.terms
    case Some(ts) => if |ts| > 0 then Some(ts[|ts| - 1]) else None
    case None => None
  }

  function Bioguide(p: Person): Option<string> {
    match p.id case Some(ids) => ids.bioguide case None => None
  }

  function FecOf(p: Person): Option<FecField> {
    match p.id case Some(ids) => ids.fec case None => None
  }

  function FirstName(p: Person): Option<string> {
    match p.name case Some(n) => n.first case None => None
  }

  function LastName(p: Person): Option<string> {
    match p.name case Some(n) => n.last case None => None
  }
}
