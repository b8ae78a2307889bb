/**
 * The buildings page of src/shared/pages/BuildingsPage.tsx: the search filter
 * over the fetched buildings, the field-error map built from a failed
 * validation, and the create/cancel handlers of the creation modal.
 */
module Buildings {
  import opened Wrappers

  /** The fields of a fetched `Property` that the page reads. */
  datatype Property = Property(id: string, name: string, address: string, zipCode: string, city: string)

  /** `toLowerCase`, restricted to the ASCII letters. */
  function LowerChar(c: char): (r: char)
    ensures 'A' <= c <= 'Z' ==> r as int == c as int + 32
    ensures !('A' <= c <= 'Z') ==> r == c
  {
    if 'A' <= c <= 'Z' then (c as int + 32) as char else c
  }

  function Lower(s: string): (r: string)
    ensures |r| == |s| && forall i :: 0 <= i < |s| ==> r[i] == LowerChar(s[i])
  {
    seq(|s|, i requires 0 <= i < |s| => LowerChar(s[i]))
  }

  /** `q` occurs in `s` starting at position `i`. */
  predicate OccursAt(s: string, q: string, i: int)
  {
    0 <= i && i + |q| <= |s| && s[i..i + |q|] == q
  }

  /** `s.includes(q)`: a left-to-right scan over the start positions. */
  function Includes(s: string, q: string): (r: bool)
    ensures r <==> exists i :: OccursAt(s, q, i)
    decreases |s|
  {
    if |q| > |s| then
      assert forall i :: !OccursAt(s, q, i);
      false
    else if q <= s then
      assert OccursAt(s, q, 0);
      true
    else
      var r := Includes(s[1..], q);
      assert forall i :: OccursAt(s[1..], q, i) <==> OccursAt(s, q, i + 1) by {
        forall i ensures OccursAt(s[1..], q, i) <==> OccursAt(s, q, i + 1) {
          if 0 <= i && i + |q| <= |s| - 1 {
            assert s[1..][i..i + |q|] == s[i + 1..i + 1 + |q|];
          }
        }
      }
      assert !OccursAt(s, q, 0);
      assert forall i :: OccursAt(s, q, i) ==> i == 0 || OccursAt(s[1..], q, i - 1);
      r
  }

  /** The empty string occurs in every string, so an empty query matches everything. */
  lemma EmptyIncluded(s: string)
    ensures Includes(s, "")
  {
    assert OccursAt(s, "", 0);
  }

  /** The search predicate: the lowercased query occurs in the lowercased name, address or city. */
  predicate Matches(b: Property, query: string)
  {
    var q := Lower(query);
    Includes(Lower(b.name), q) || Includes(Lower(b.address), q) || Includes(Lower(b.city), q)
  }

  /** `xs` is `ys` with some elements removed, the rest in their original order. */
  predicate IsSubsequence<T(==)>(xs: seq<T>, ys: seq<T>)
    decreases |ys|
  {
    if xs == [] then true
    else if ys == [] then false
    else if xs[0] == ys[0] then IsSubsequence(xs[1..], ys[1..])
    else IsSubsequence(xs, ys[1..])
  }

  /**
   * `Array.prototype.filter` with the search predicate: an order-preserving
   * subsequence holding every matching building as often as the input does
   * and no other.
   */
  function KeepMatching(bs: seq<Property>, query: string): (r: seq<Property>)
    ensures IsSubsequence(r, bs)
    ensures forall b :: multiset(r)[b] == if Matches(b, query) then multiset(bs)[b] else 0
    decreases |bs|
  {
    if bs == [] then []
    else
      var rest := KeepMatching(bs[1..], query);
      assert bs == [bs[0]] + bs[1..];
      if Matches(bs[0], query) then
        assert ([bs[0]] + rest)[1..] == rest;
        [bs[0]] + rest
      else
        rest
  }

  /** `filteredBuildings`: nothing before the data has arrived, otherwise the matching buildings. */
  function FilterBuildings(data: Option<seq<Property>>, query: string): (r: seq<Property>)
    ensures data.None? ==> r == []
    ensures data.Some? ==> IsSubsequence(r, data.value)
    ensures data.Some? ==> forall b :: multiset(r)[b] == if Matches(b, query) then multiset(data.value)[b] else 0
  {
    match data
    case None => []
    case Some(bs) => KeepMatching(bs, query)
  }

  /** An empty search box shows every fetched building, in order. */
  lemma {:induction false} EmptyQueryKeepsAll(bs: seq<Property>)
    ensures KeepMatching(bs, "") == bs
    decreases |bs|
  {
    if bs != [] {
      EmptyIncluded(Lower(bs[0].name));
      EmptyQueryKeepsAll(bs[1..]);
      assert bs == [bs[0]] + bs[1..];
    }
  }

  /** One validation issue: the path of the offending field and its message. */
  datatype Issue = Issue(path: seq<string>, message: string)

  /** What the create handler caught: a validation error with its issues, or anything else. */
  datatype Thrown = ValidationFailure(issues: seq<Issue>) | OtherThrown

  /** `e.path[0]` used as a record key; an empty path indexes as `undefined`. */
  function FieldOf(issue: Issue): string
  {
    if issue.path == [] then "undefined" else issue.path[0]
  }

  /** The error map after assigning the issues' messages in order. */
  function FieldErrors(issues: seq<Issue>): map<string, string>
    decreases |issues|
  {
    if issues == [] then map[]
    else
      var last := issues[|issues| - 1];
      FieldErrors(issues[..|issues| - 1])[FieldOf(last) := last.message]
  }

  /**
   * The error map has one entry per field named by some issue, and that entry
   * holds the message of the last issue naming the field.
   */
  lemma {:induction false} FieldErrorsMeaning(issues: seq<Issue>)
    ensures FieldErrors(issues).Keys == set i | 0 <= i < |issues| :: FieldOf(issues[i])
    ensures forall i :: 0 <= i < |issues| && (forall j :: i < j < |issues| ==> FieldOf(issues[j]) != FieldOf(issues[i]))
                        ==> FieldErrors(issues)[FieldOf(issues[i])] == issues[i].message
    decreases |issues|
  {
    if issues != [] {
      var init := issues[..|issues| - 1];
      FieldErrorsMeaning(init);
      assert forall i :: 0 <= i < |init| ==> init[i] == issues[i];
      var n := |issues| - 1;
      assert (set i | 0 <= i < |issues| :: FieldOf(issues[i]))
          == (set i | 0 <= i < |init| :: FieldOf(init[i])) + {FieldOf(issues[n])};
    }
  }

  /** The `forEach` loop that fills `errors`. */
  method CollectFieldErrors(issues: seq<Issue>) returns (errors: map<string, string>)
    ensures errors == FieldErrors(issues)
  {
    errors := map[];
    var k := 0;
    while k < |issues|
      invariant 0 <= k <= |issues|
      invariant errors == FieldErrors(issues[..k])
    {
      assert issues[..k + 1][..k] == issues[..k];
      errors := errors[FieldOf(issues[k]) := issues[k].message];
      k := k + 1;
    }
    assert issues[..k] == issues;
  }

  /** The reset value of the creation form. */
  const DefaultForm: map<string, string> := map["type" := "apartment"]

  class BuildingsPage {
    var searchQuery: string
    var isModalOpen: bool
    var formData: map<string, string>
    var formErrors: map<string, string>

    constructor ()
      ensures searchQuery == "" && !isModalOpen && formData == DefaultForm && formErrors == map[]
    {
      searchQuery := "";
      isModalOpen := false;
      formData := DefaultForm;
      formErrors := map[];
    }

    method SetSearchQuery(query: string)
      modifies this
      ensures searchQuery == query
      ensures isModalOpen == old(isModalOpen) && formData == old(formData) && formErrors == old(formErrors)
    {
      searchQuery := query;
    }

    /** Either "new building" button. */
    method OpenModal()
      modifies this
      ensures isModalOpen
      ensures searchQuery == old(searchQuery) && formData == old(formData) && formErrors == old(formErrors)
    {
      isModalOpen := true;
    }

    /**
     * `handleCreateBuilding`, given the outcome of validating `formData` and
     * whether the create mutation later succeeds. It returns the payload handed
     * to the mutation, if any.
     */
    method HandleCreateBuilding(validation: Result<map<string, string>, Thrown>, created: bool)
      returns (submitted: Option<map<string, string>>)
      modifies this
      ensures searchQuery == old(searchQuery)
      ensures validation.Success? ==> submitted == Some(validation.value) && formErrors == map[]
      ensures validation.Success? && created ==> !isModalOpen && formData == DefaultForm
      ensures validation.Success? && !created ==> isModalOpen == old(isModalOpen) && formData == old(formData)
      ensures validation.Failure? ==> submitted.None? && isModalOpen == old(isModalOpen) && formData == old(formData)
      ensures validation.Failure? && validation.error.ValidationFailure? ==> formErrors == FieldErrors(validation.error.issues)
      ensures validation.Failure? && validation.error.OtherThrown? ==> formErrors == map[]
    {
      formErrors := map[];
      match validation
      case Success(validated) =>
        submitted := Some(validated);
        if created {
          isModalOpen := false;
          formData := DefaultForm;
        }
      case Failure(thrown) =>
        submitted := None;
        var errors: map<string, string> := map[];
        if thrown.ValidationFailure? {
          errors := CollectFieldErrors(thrown.issues);
        }
        formErrors := errors;
    }

    /** The "Cancelar" button. */
    method Cancel()
      modifies this
      ensures !isModalOpen && formData == DefaultForm && formErrors == map[]
      ensures searchQuery == old(searchQuery)
    {
      isModalOpen := false;
      formData := DefaultForm;
      formErrors := map[];
    }
  }
}
