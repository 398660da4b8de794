/** The operator tab of the administration area (OperatorManagement.tsx): a
    search box, add and delete confirmed by a server call whose outcome is an
    input, and a `saving` flag held while a call is awaited. */
module OperatorManagement {
  import opened Collections
  import opened Text
  import opened Types
  import opened OperatorsService

  /** The list the filter effect shows: the managed list for a blank query,
      otherwise `searchOperators(query)`, which searches `roster` (the
      service's built-in roster) and not the managed list. So for a non-blank
      query only roster entries are shown, and an operator added in this tab
      but absent from the roster is never found. */
  function FilterEffect(operators: seq<Operator>, roster: seq<Operator>, query: string): seq<Operator> {
    if Trim(query) == [] then operators else SearchIn(roster, query)
  }

  /** What the effect shows: the managed list for a blank query, otherwise a
      name-sorted list of roster entries that match the trimmed query. */
  lemma FilterEffectShows(operators: seq<Operator>, roster: seq<Operator>, query: string)
    ensures IsBlank(query) ==> FilterEffect(operators, roster, query) == operators
    ensures !IsBlank(query) ==> SortedByName(FilterEffect(operators, roster, query))
    ensures !IsBlank(query) ==>
              forall o :: o in FilterEffect(operators, roster, query) ==> o in roster && MatchesTerm(o, SearchTerm(query))
  {
    if !IsBlank(query) {
      SearchInMembers(roster, query);
    }
  }

  /** Over the built-in roster a non-blank query shows `searchOperators(query)`. */
  lemma FilterEffectIsSearch(operators: seq<Operator>, query: string)
    requires !IsBlank(query)
    ensures FilterEffect(operators, OperatorsList, query) == SearchOperators(query)
  {
  }

  /** The filter applied after a delete: the lower-cased, untrimmed query must
      occur in the lower-cased name, id, sector or role. */
  function DeleteFilter(operators: seq<Operator>, query: string): (r: seq<Operator>)
    ensures IsSubsequence(r, operators)
    ensures forall o :: o in r <==> o in operators && MatchesTerm(o, Lower(query))
    ensures forall o :: multiset(r)[o] == if MatchesTerm(o, Lower(query)) then multiset(operators)[o] else 0
  {
    var p := (o: Operator) => MatchesTerm(o, Lower(query));
    FilterIsSubsequence(operators, p);
    var r := Filter(operators, p);
    forall o ensures multiset(r)[o] == if MatchesTerm(o, Lower(query)) then multiset(operators)[o] else 0 {
      FilterCount(operators, p, o);
    }
    r
  }

  /** For a query without surrounding white space, the delete filter tests
      the same term as the search. */
  lemma {:induction false} DeleteFilterMatchesSearchTerm(query: string)
    requires Trim(query) == query
    ensures Lower(query) == SearchTerm(query)
  {
    TrimLowerCommute(query);
  }

  class OperatorManagement {
    /** The roster `searchOperators` searches. */
    const roster: seq<Operator>
    var operators: seq<Operator>
    var newOperator: Operator
    var operatorSearchQuery: string
    var filteredOperators: seq<Operator>
    var saving: bool

    /** The component mounted with the parent's list. */
    constructor (initial: seq<Operator>)
      ensures roster == OperatorsList
      ensures operators == initial && newOperator == EmptyOperator && operatorSearchQuery == ""
      ensures filteredOperators == initial && !saving
      ensures Settled()
    {
      roster := OperatorsList;
      operators := initial;
      newOperator := EmptyOperator;
      operatorSearchQuery := "";
      filteredOperators := initial;
      saving := false;
    }

    /** The state once the filter effect has run: the shown list is what the
        effect computes from the managed list and the query. */
    predicate Settled()
      reads this`operators, this`operatorSearchQuery, this`filteredOperators
    {
      filteredOperators == FilterEffect(operators, roster, operatorSearchQuery)
    }

    /** The effect that runs when `operators` or the query changes. */
    method RefreshFiltered()
      modifies this`filteredOperators
      ensures Settled()
    {
      filteredOperators := FilterEffect(operators, roster, operatorSearchQuery);
    }

    /** `handleSearchOperator`, followed by the effect it triggers. */
    method HandleSearchOperator(query: string)
      modifies this`operatorSearchQuery, this`filteredOperators
      ensures operatorSearchQuery == query && filteredOperators == FilterEffect(operators, roster, query)
      ensures Settled()
    {
      operatorSearchQuery := query;
      RefreshFiltered();
    }

    /** `handleAddOperator`. Id and name are required and the id must be new;
        otherwise nothing happens and no call is made (`serverCalled`).
        `savingDuringCall` is the flag while `saveOperatorToServer` is
        awaited. On success the managed and the shown lists become the old
        list plus the new operator, ordered by name, and the form is cleared;
        on failure both lists stay. `saving` is false once a call is over. */
    method HandleAddOperator(response: Outcome<()>) returns (serverCalled: bool, savingDuringCall: bool)
      modifies this
      ensures serverCalled <==> old(newOperator).id != "" && old(newOperator).name != ""
                                && !HasKey(old(operators), OperatorId, old(newOperator).id)
      ensures serverCalled ==> savingDuringCall
      ensures operatorSearchQuery == old(operatorSearchQuery)
      ensures saving == (if serverCalled then false else old(saving))
      ensures serverCalled && response.Ok? ==>
                operators == SortByName(old(operators) + [old(newOperator)]) && filteredOperators == operators
                && newOperator == EmptyOperator
      ensures !(serverCalled && response.Ok?) ==>
                operators == old(operators) && filteredOperators == old(filteredOperators) && newOperator == old(newOperator)
    {
      if newOperator.id == "" || newOperator.name == "" {
        return false, saving;
      }
      if HasKey(operators, OperatorId, newOperator.id) {
        return false, saving;
      }
      var operatorToAdd := newOperator;
      saving := true;
      serverCalled, savingDuringCall := true, saving;
      if response.Ok? {
        var sortedOperators := SortByName(operators + [operatorToAdd]);
        operators := sortedOperators;
        filteredOperators := sortedOperators;
        newOperator := EmptyOperator;
      }
      saving := false;
    }

    /** `handleDeleteOperator`. The call is always made, with `saving` set
        while it is awaited. On success exactly the operators with the id are
        dropped, and the shown list is the new list, filtered by the untrimmed
        query unless the query is blank. On failure only `saving` moves. */
    method HandleDeleteOperator(id: string, response: Outcome<()>) returns (savingDuringCall: bool)
      modifies this`saving, this`operators, this`filteredOperators
      ensures savingDuringCall
      ensures !saving
      ensures response.Ok? ==> operators == RemoveKey(old(operators), OperatorId, id)
      ensures response.Ok? && IsBlank(old(operatorSearchQuery)) ==> filteredOperators == operators
      ensures response.Ok? && !IsBlank(old(operatorSearchQuery)) ==>
                filteredOperators == DeleteFilter(operators, old(operatorSearchQuery))
      ensures response.Err? ==> operators == old(operators) && filteredOperators == old(filteredOperators)
    {
      saving := true;
      savingDuringCall := saving;
      if response.Ok? {
        var updatedOperators := RemoveKey(operators, OperatorId, id);
        operators := updatedOperators;
        if IsBlank(operatorSearchQuery) {
          filteredOperators := updatedOperators;
        } else {
          filteredOperators := DeleteFilter(updatedOperators, operatorSearchQuery);
        }
      }
      saving := false;
    }

    /** An add as the user sees it: `handleAddOperator`, then, when it hands
        the parent a new list, the filter effect, whose write replaces the
        handler's own. The settled state is kept. For a non-blank query the
        shown list is drawn from the roster, so a new operator the roster
        lacks is not shown. */
    method AddOperatorAndRender(response: Outcome<()>) returns (serverCalled: bool, savingDuringCall: bool)
      modifies this
      ensures serverCalled <==> old(newOperator).id != "" && old(newOperator).name != ""
                                && !HasKey(old(operators), OperatorId, old(newOperator).id)
      ensures serverCalled ==> savingDuringCall
      ensures operatorSearchQuery == old(operatorSearchQuery)
      ensures serverCalled && response.Ok? ==>
                operators == SortByName(old(operators) + [old(newOperator)]) && newOperator == EmptyOperator && Settled()
      ensures serverCalled && response.Ok? && !IsBlank(operatorSearchQuery) && old(newOperator) !in roster ==>
                old(newOperator) !in filteredOperators
      ensures !(serverCalled && response.Ok?) ==>
                operators == old(operators) && filteredOperators == old(filteredOperators) && newOperator == old(newOperator)
      ensures old(Settled()) ==> Settled()
    {
      serverCalled, savingDuringCall := HandleAddOperator(response);
      if serverCalled && response.Ok? {
        RefreshFiltered();
        FilterEffectShows(operators, roster, operatorSearchQuery);
      }
    }

    /** A delete as the user sees it: `handleDeleteOperator`, then, on
        success, the filter effect, whose write replaces the handler's
        filtered list. The shown list is then the effect's, which for a
        non-blank query is drawn from the roster (`FilterEffect`), so a
        deleted roster operator may still be shown. */
    method DeleteOperatorAndRender(id: string, response: Outcome<()>) returns (savingDuringCall: bool)
      modifies this`saving, this`operators, this`filteredOperators
      ensures savingDuringCall && !saving
      ensures response.Ok? ==> operators == RemoveKey(old(operators), OperatorId, id) && Settled()
      ensures response.Err? ==> operators == old(operators) && filteredOperators == old(filteredOperators)
      ensures old(Settled()) ==> Settled()
    {
      savingDuringCall := HandleDeleteOperator(id, response);
      if response.Ok? {
        RefreshFiltered();
      }
    }
  }

  /** A successful add puts the new operator in the list once more than it was
      and keeps everything that was there, ordered by name. */
  lemma AddedOperatorIsListed(operators: seq<Operator>, o: Operator)
    ensures var r := SortByName(operators + [o]);
            SortedByName(r) && |r| == |operators| + 1 && o in r &&
            forall x :: x in operators ==> x in r
  {
    var r := SortByName(operators + [o]);
    assert multiset(r) == multiset(operators) + multiset{o};
    assert o in multiset(r);
    forall x | x in operators ensures x in r {
      assert x in multiset(r);
    }
    assert |r| == |multiset(r)|;
  }
}
