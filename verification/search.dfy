/**
 * SearchParams.Validate (internal/common/dto/search.go), with the rule
 * semantics of the validation library it uses: `Required` rejects the zero
 * value; `In` and `Min` accept the zero value and leave it to `Required`;
 * the first failing rule of a field gives that field's message, and every
 * failing field is reported, keyed by its JSON name.
 */
module Search {

  datatype SearchParams = SearchParams(term: string, sort: string, page: int, limit: int)

  const SortValues: set<string> := {"DESC", "ASC"}
  const LimitValues: set<int> := {10, 20, 50, 100}

  function SortError(sort: string): (r: seq<string>)
    ensures |r| <= 1
    ensures r == [] <==> sort in SortValues
  {
    if sort == "" then ["this param cannot be empty"]
    else if sort !in SortValues then ["this field must be one of the following values - ASC or DESC"]
    else []
  }

  function PageError(page: int): (r: seq<string>)
    ensures |r| <= 1
    ensures r == [] <==> page >= 1
  {
    if page == 0 then ["this param cannot be empty or zero"]
    else if page < 1 then ["this field must be greater than 0"]
    else []
  }

  function LimitError(limit: int): (r: seq<string>)
    ensures |r| <= 1
    ensures r == [] <==> limit in LimitValues
  {
    if limit == 0 then ["this param cannot be empty or zero"]
    else if limit !in LimitValues then ["this field must be one of the following values - 10, 20, 50, or 100"]
    else []
  }

  /** The field errors, keyed by JSON field name; empty when the parameters are valid. */
  function Validate(s: SearchParams): (errs: map<string, string>)
    ensures "sort" in errs <==> SortError(s.sort) != []
    ensures "page" in errs <==> PageError(s.page) != []
    ensures "limit" in errs <==> LimitError(s.limit) != []
    ensures errs.Keys <= {"sort", "page", "limit"}
  {
    FieldErrors(s.sort, s.page, s.limit)
  }

  /** The three validated fields' errors; the search term has no rule. */
  function FieldErrors(sort: string, page: int, limit: int): (errs: map<string, string>)
    ensures "sort" in errs <==> SortError(sort) != []
    ensures "page" in errs <==> PageError(page) != []
    ensures "limit" in errs <==> LimitError(limit) != []
    ensures errs.Keys <= {"sort", "page", "limit"}
  {
    var m1: map<string, string> := if SortError(sort) == [] then map[] else map["sort" := SortError(sort)[0]];
    var m2 := if PageError(page) == [] then m1 else m1["page" := PageError(page)[0]];
    if LimitError(limit) == [] then m2 else m2["limit" := LimitError(limit)[0]]
  }

  predicate IsValid(s: SearchParams) {
    s.sort in SortValues && s.page >= 1 && s.limit in LimitValues
  }

  /** Validate reports nothing exactly when all three rules hold. */
  lemma ValidIff(s: SearchParams)
    ensures Validate(s) == map[] <==> IsValid(s)
  {
    if Validate(s) == map[] {
      assert "sort" !in Validate(s) && "page" !in Validate(s) && "limit" !in Validate(s);
    }
    if IsValid(s) {
      assert SortError(s.sort) == [] && PageError(s.page) == [] && LimitError(s.limit) == [];
    }
  }

  /** The search term is never inspected. */
  lemma TermIsIgnored(s: SearchParams, t: string)
    ensures Validate(s.(term := t)) == Validate(s)
  {
  }

  /** Sort is case-sensitive and required; page zero or negative and any other limit are rejected. */
  lemma RejectedExamples()
    ensures "sort" in Validate(SearchParams("", "desc", 1, 10))
    ensures Validate(SearchParams("", "", 1, 10)) == map["sort" := "this param cannot be empty"]
    ensures Validate(SearchParams("x", "ASC", 0, 10)) == map["page" := "this param cannot be empty or zero"]
    ensures "page" in Validate(SearchParams("x", "ASC", -3, 10))
    ensures "limit" in Validate(SearchParams("x", "ASC", 1, 25))
    ensures Validate(SearchParams("anything", "DESC", 7, 100)) == map[]
  {
  }
}
