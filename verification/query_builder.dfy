/** The safe ORDER BY builder: every requested field must be on the
    allow-list (after lower-casing), directions default to ASC, and the
    terms are joined in request order. */
module QueryBuilder {
  import opened Options
  import opened Grpc
  import opened Text

  /** One requested sort key. */
  datatype SortRequest = SortRequest(field: string, order: string)

  /** Go's `allowedSortFields[field]`: a missing key reads as false. */
  predicate Allowed(allowed: map<string, bool>, field: string)
  {
    field in allowed && allowed[field]
  }

  /** The direction written into the clause. */
  function Direction(order: string): (d: string)
    ensures d == "ASC" || d == "DESC"
    ensures d == "DESC" <==> Upper(order) == "DESC"
  {
    var o := Upper(order);
    if o != "ASC" && o != "DESC" then "ASC" else o
  }

  /** One clause term: the lower-cased field in double quotes, a space, the
      direction. */
  function Term(s: SortRequest): string
  {
    "\"" + Lower(s.field) + "\" " + Direction(s.order)
  }

  /** The terms of every request, in request order. */
  function Terms(sorts: seq<SortRequest>): (ts: seq<string>)
    ensures |ts| == |sorts|
    ensures forall i :: 0 <= i < |sorts| ==> ts[i] == Term(sorts[i])
  {
    seq(|sorts|, i requires 0 <= i < |sorts| => Term(sorts[i]))
  }

  /** The error reported for a refused field; it quotes the field as the
      caller spelled it. */
  function NotAllowedError(field: string): Error
  {
    Plain("sorting by field '" + field + "' is not allowed")
  }

  /** Index of the first request whose lower-cased field is not allowed. */
  function FirstDisallowed(sorts: seq<SortRequest>, allowed: map<string, bool>): (r: Option<nat>)
    ensures r.Some? ==> r.value < |sorts| && !Allowed(allowed, Lower(sorts[r.value].field))
    ensures r.Some? ==> forall j :: 0 <= j < r.value ==> Allowed(allowed, Lower(sorts[j].field))
    ensures r.None? ==> forall j :: 0 <= j < |sorts| ==> Allowed(allowed, Lower(sorts[j].field))
    decreases |sorts|
  {
    if sorts == [] then None
    else if !Allowed(allowed, Lower(sorts[0].field)) then Some(0)
    else match FirstDisallowed(sorts[1..], allowed)
      case None => None
      case Some(k) => Some(k + 1)
  }

  /** The first refused request is the one `FirstDisallowed` names. */
  lemma {:induction false} FirstDisallowedAt(sorts: seq<SortRequest>, allowed: map<string, bool>, i: nat)
    requires i < |sorts| && !Allowed(allowed, Lower(sorts[i].field))
    requires forall j :: 0 <= j < i ==> Allowed(allowed, Lower(sorts[j].field))
    ensures FirstDisallowed(sorts, allowed) == Some(i)
  {
  }

  /** Appending a request appends its term. */
  lemma TermsSnoc(sorts: seq<SortRequest>, i: nat)
    requires i < |sorts|
    ensures Terms(sorts[..i + 1]) == Terms(sorts[..i]) + [Term(sorts[i])]
  {
    assert sorts[..i + 1][i] == sorts[i];
  }

  /** The clause `BuildOrderByClause` produces, as a function of its inputs. */
  function OrderByClause(sorts: seq<SortRequest>, allowed: map<string, bool>, defaultSort: string)
    : (r: Result<string, Error>)
    ensures sorts == [] ==> r == Success(defaultSort)
    ensures r.Failure? <==> exists i :: 0 <= i < |sorts| && !Allowed(allowed, Lower(sorts[i].field))
    ensures r.Failure? ==>
              exists i :: 0 <= i < |sorts| && !Allowed(allowed, Lower(sorts[i].field)) &&
                (forall j :: 0 <= j < i ==> Allowed(allowed, Lower(sorts[j].field))) &&
                r.error == NotAllowedError(sorts[i].field)
    ensures sorts != [] && r.Success? ==> r.value == "ORDER BY " + Join(Terms(sorts), ", ")
  {
    if sorts == [] then Success(defaultSort)
    else match FirstDisallowed(sorts, allowed)
      case Some(i) => Failure(NotAllowedError(sorts[i].field))
      case None => Success("ORDER BY " + Join(Terms(sorts), ", "))
  }

  /** `BuildOrderByClause`: the loop appends one term per request and stops
      at the first refused field. */
  method BuildOrderByClause(sorts: seq<SortRequest>, allowed: map<string, bool>, defaultSort: string)
    returns (r: Result<string, Error>)
    ensures r == OrderByClause(sorts, allowed, defaultSort)
  {
    if |sorts| == 0 {
      return Success(defaultSort);
    }
    var orderClauses: seq<string> := [];
    for i := 0 to |sorts|
      invariant orderClauses == Terms(sorts[..i])
      invariant forall j :: 0 <= j < i ==> Allowed(allowed, Lower(sorts[j].field))
    {
      var s := sorts[i];
      var field := Lower(s.field);
      if !(field in allowed && allowed[field]) {
        FirstDisallowedAt(sorts, allowed, i);
        return Failure(NotAllowedError(s.field));
      }
      var order := Upper(s.order);
      if order != "ASC" && order != "DESC" {
        order := "ASC";
      }
      TermsSnoc(sorts, i);
      orderClauses := orderClauses + ["\"" + field + "\" " + order];
    }
    assert sorts[..|sorts|] == sorts;
    r := Success("ORDER BY " + Join(orderClauses, ", "));
  }

  /** Field matching ignores case: requests that differ only in the case of
      their fields are accepted or refused alike and give the same clause. */
  lemma {:induction false} CaseOfFieldsIrrelevant(sorts: seq<SortRequest>, sorts': seq<SortRequest>,
                                                   allowed: map<string, bool>, defaultSort: string)
    requires |sorts| == |sorts'|
    requires forall i :: 0 <= i < |sorts| ==>
               Lower(sorts[i].field) == Lower(sorts'[i].field) && sorts[i].order == sorts'[i].order
    ensures OrderByClause(sorts, allowed, defaultSort).Success? ==
            OrderByClause(sorts', allowed, defaultSort).Success?
    ensures OrderByClause(sorts, allowed, defaultSort).Success? ==>
            OrderByClause(sorts, allowed, defaultSort) == OrderByClause(sorts', allowed, defaultSort)
  {
    assert Terms(sorts) == Terms(sorts');
  }
}
