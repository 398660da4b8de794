/** The operator picker (OperatorSearchCommand.tsx): a dialog over the
    operators it is given, a results list recomputed from the query, a
    ctrl/meta-k shortcut that toggles the dialog, and selection. */
module OperatorSearchCommand {
  import opened Text
  import opened Types
  import opened OperatorsService

  /** The dialog's test: the lower-cased query occurs in the lower-cased name,
      id or sector, or in the role when the role is not empty. The empty query
      matches everyone. */
  predicate CommandMatches(o: Operator, query: string)
    ensures query == [] ==> CommandMatches(o, query)
  {
    Contains(Lower(o.name), Lower(query)) || Contains(Lower(o.id), Lower(query))
    || Contains(Lower(o.sector), Lower(query)) || (o.role != "" && Contains(Lower(o.role), Lower(query)))
  }

  /** Nothing but the empty string occurs in the empty string. */
  lemma ContainsInEmpty(t: string)
    requires t != []
    ensures !Contains([], t)
  {
  }

  /** For a non-empty query the role guard changes nothing: the dialog's test
      is the service's test on the lower-cased query. */
  lemma {:induction false} CommandMatchesIsMatchesTerm(o: Operator, query: string)
    requires query != ""
    ensures CommandMatches(o, query) <==> MatchesTerm(o, Lower(query))
  {
    if o.role == "" {
      ContainsInEmpty(Lower(query));
    }
  }

  /** The results effect: for an empty query every operator, otherwise the
      matching ones, ordered by name either way. The query is not trimmed. */
  function CommandResults(operators: seq<Operator>, query: string): (r: seq<Operator>)
    ensures SortedByName(r)
    ensures query == "" ==> multiset(r) == multiset(operators)
    ensures query != "" ==> forall o :: multiset(r)[o] == if CommandMatches(o, query) then multiset(operators)[o] else 0
    ensures multiset(r) <= multiset(operators)
  {
    if query != "" then
      var r := SortByName(KeepMatching(operators, Lower(query)));
      forall o ensures multiset(r)[o] == if CommandMatches(o, query) then multiset(operators)[o] else 0 {
        CommandMatchesIsMatchesTerm(o, query);
      }
      r
    else
      SortByName(operators)
  }

  /** A non-empty query without surrounding white space is not blank, and
      its search term is the lower-cased query. */
  lemma {:induction false} TrimmedQueryTerm(query: string)
    requires query != "" && Trim(query) == query
    ensures !IsBlank(query) && SearchTerm(query) == Lower(query)
  {
    TrimLowerCommute(query);
  }

  /** For a non-empty query with no surrounding white space the dialog lists
      exactly what `searchOperators`' search lists over the same operators. */
  lemma {:induction false} CommandAgreesWithSearch(operators: seq<Operator>, query: string)
    requires query != "" && Trim(query) == query
    ensures CommandResults(operators, query) == SearchIn(operators, query)
  {
    TrimmedQueryTerm(query);
    var kept := KeepMatching(operators, Lower(query));
    assert SearchIn(operators, query) == SortByName(kept);
  }

  /** An operator without a space in any field. */
  const Spaceless: Operator := Operator("1", "ANA", "OP", "X")

  /** The dialog's test fails for " " on an operator without spaces. */
  lemma SpaceMissesSpaceless()
    ensures !CommandMatches(Spaceless, " ")
  {
    var o := Spaceless;
    assert Lower(" ") == " ";
    ContainsSingle(Lower(o.name), ' ');
    ContainsSingle(Lower(o.id), ' ');
    ContainsSingle(Lower(o.sector), ' ');
    ContainsSingle(Lower(o.role), ' ');
  }

  /** A one-element list whose multiset is a sub-multiset of it without its
      element is empty; otherwise it equals the list. */
  lemma SingletonSubMultiset(r: seq<Operator>, o: Operator)
    requires multiset(r) <= multiset([o])
    ensures multiset(r)[o] == 0 ==> r == []
    ensures multiset(r) == multiset([o]) ==> r == [o]
  {
    if r != [] {
      assert r[0] in multiset(r);
      assert r[0] == o;
      if multiset(r)[o] != 0 {
        assert |r| == |multiset(r)|;
      }
    }
  }

  /** A query of blanks is not blank here: " " keeps only operators with a
      space somewhere, where `searchOperators` would list everyone. */
  lemma SpaceQueryFilters()
    ensures CommandResults([Spaceless], " ") == [] && SearchIn([Spaceless], " ") == [Spaceless]
  {
    var ops := [Spaceless];
    SpaceMissesSpaceless();
    SingletonSubMultiset(CommandResults(ops, " "), Spaceless);
    assert Trim(" ") == [];
    SingletonSubMultiset(SearchIn(ops, " "), Spaceless);
  }

  /** The component's state. `operators` is its prop. */
  class OperatorSearchCommand {
    var operators: seq<Operator>
    var open: bool
    var query: string
    var results: seq<Operator>

    constructor (ops: seq<Operator>)
      ensures operators == ops && !open && query == "" && results == []
    {
      operators := ops;
      open := false;
      query := "";
      results := [];
    }

    /** The results effect, run when the query or the prop changes. */
    method RefreshResults()
      modifies this
      ensures results == CommandResults(old(operators), old(query))
      ensures operators == old(operators) && open == old(open) && query == old(query)
    {
      if query != "" {
        results := CommandResults(operators, query);
      } else {
        results := SortByName(operators);
      }
    }

    /** A new query typed into the input, followed by the effect. */
    method SetQuery(q: string)
      modifies this
      ensures query == q && results == CommandResults(old(operators), q)
      ensures operators == old(operators) && open == old(open)
    {
      query := q;
      RefreshResults();
    }

    /** A new `operators` prop from the parent, followed by the effect. */
    method SetOperators(ops: seq<Operator>)
      modifies this
      ensures operators == ops && results == CommandResults(ops, old(query))
      ensures open == old(open) && query == old(query)
    {
      operators := ops;
      RefreshResults();
    }

    /** The `keydown` listener: `k` with the meta or the control key toggles
        the dialog and is consumed (`handled`); any other key changes nothing. */
    method KeyDown(key: string, metaKey: bool, ctrlKey: bool) returns (handled: bool)
      modifies this
      ensures handled <==> key == "k" && (metaKey || ctrlKey)
      ensures open == (if handled then !old(open) else old(open))
      ensures operators == old(operators) && query == old(query) && results == old(results)
    {
      handled := key == "k" && (metaKey || ctrlKey);
      if handled {
        open := !open;
      }
    }

    /** The trigger button and the dialog's `onOpenChange`. */
    method SetOpen(value: bool)
      modifies this
      ensures open == value
      ensures operators == old(operators) && query == old(query) && results == old(results)
    {
      open := value;
    }

    /** `handleSelect`: reports the operator to `onSelect` and closes. */
    method HandleSelect(operator: Operator) returns (selected: Operator)
      modifies this
      ensures selected == operator && !open
      ensures operators == old(operators) && query == old(query) && results == old(results)
    {
      selected := operator;
      open := false;
    }
  }
}
