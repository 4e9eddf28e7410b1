/** The students page: the case-insensitive search over name and grade, and the count label. */
module StudentsPage {
  import opened Wrappers
  import opened Text
  import opened Lists
  import opened Schema

  /** The search test: the lower-cased name or grade includes the lower-cased query. */
  predicate MatchesQuery(query: string, s: Student) {
    Includes(Lower(s.name), Lower(query)) || Includes(Lower(s.grade), Lower(query))
  }

  function Matches(query: string): Student -> bool {
    (s: Student) => MatchesQuery(query, s)
  }

  /** The students listed for a query, in fetched order; none while unloaded. */
  function FilteredStudents(students: Option<seq<Student>>, query: string): (r: seq<Student>)
    ensures students.None? ==> r == []
    ensures IsSublist(r, students.GetOr([]))
    ensures forall s :: s in r <==> s in students.GetOr([]) && MatchesQuery(query, s)
    ensures forall s :: s in r ==> multiset(r)[s] == multiset(students.GetOr([]))[s]
  {
    forall s ensures s in Filter(students.GetOr([]), Matches(query)) <==> s in students.GetOr([]) && MatchesQuery(query, s) {
      FilterMember(students.GetOr([]), Matches(query), s);
    }
    forall s | s in Filter(students.GetOr([]), Matches(query))
      ensures multiset(Filter(students.GetOr([]), Matches(query)))[s] == multiset(students.GetOr([]))[s]
    {
      FilterMultiplicity(students.GetOr([]), Matches(query), s);
    }
    Filter(students.GetOr([]), Matches(query))
  }

  /** An empty search lists every student, in order. */
  lemma EmptyQueryKeepsAll(students: seq<Student>)
    ensures FilteredStudents(Some(students), "") == students
  {
    forall i | 0 <= i < |students| ensures Matches("")(students[i]) {
      IncludesSelfAndEmpty(Lower(students[i].name));
    }
    FilterKeepsAll(students, Matches(""));
  }

  /** The case of the query's ASCII letters does not matter. */
  lemma QueryCaseIrrelevant(students: seq<Student>, query: string)
    ensures FilteredStudents(Some(students), Lower(query)) == FilteredStudents(Some(students), query)
  {
    LowerIdempotent(query);
    FilterCongruent(students, Matches(Lower(query)), Matches(query));
  }

  /** A student whose name contains the query verbatim is always listed. */
  lemma NameHitListed(students: seq<Student>, query: string, i: nat, k: nat)
    requires i < |students| && k + |query| <= |students[i].name| && students[i].name[k..k + |query|] == query
    ensures students[i] in FilteredStudents(Some(students), query)
  {
    var name := students[i].name;
    assert Lower(name)[k..k + |query|] == Lower(query);
    IncludesAt(Lower(name), Lower(query), k);
  }

  /** The count label's suffix: "s" unless exactly one student is listed. */
  function PluralSuffix(count: nat): (r: string)
    ensures r == "s" <==> count != 1
    ensures r == "" <==> count == 1
  {
    if count != 1 then "s" else ""
  }
}
