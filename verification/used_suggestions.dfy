/** The used-suggestion store: a persisted collection of records, each
    noting that a suggestion of some category was used. Categories see
    their used suggestions as a set; a category is reset once everything
    in it has been used. AI suggestions use the category id "ai". */
module UsedSuggestions {
  import opened Seqs

  datatype Record = Record(suggestion: string, categoryId: string)

  /** The stored records, in insertion order (duplicates allowed). */
  type Store = seq<Record>

  /** The category under which AI suggestions are recorded. */
  const AICategoryId: string := "ai"

  /** `getUsed(categoryId:)`: the suggestions recorded for the category. */
  function GetUsed(st: Store, categoryId: string): (r: set<string>)
    ensures forall x :: x in r <==> Record(x, categoryId) in st
  {
    set rec | rec in st && rec.categoryId == categoryId :: rec.suggestion
  }

  /** `markUsed(suggestion:categoryId:)`: adds one record. */
  function MarkUsed(st: Store, suggestion: string, categoryId: string): (st': Store)
    ensures multiset(st') == multiset(st) + multiset{Record(suggestion, categoryId)}
  {
    st + [Record(suggestion, categoryId)]
  }

  /** `shouldReset(categoryId:totalCount:)`. */
  function ShouldReset(st: Store, categoryId: string, totalCount: int): (b: bool)
    ensures b <==> |GetUsed(st, categoryId)| >= totalCount
  {
    |GetUsed(st, categoryId)| >= totalCount
  }

  /** `reset(categoryId:)`: deletes the category's records. */
  function Reset(st: Store, categoryId: string): (st': Store)
    ensures forall rec :: rec in st' <==> rec in st && rec.categoryId != categoryId
  {
    Filter((rec: Record) => rec.categoryId != categoryId, st)
  }

  function MarkAIUsed(st: Store, suggestion: string): Store {
    MarkUsed(st, suggestion, AICategoryId)
  }

  function GetAIUsed(st: Store): set<string> {
    GetUsed(st, AICategoryId)
  }

  function ResetAI(st: Store): Store {
    Reset(st, AICategoryId)
  }

  // ---------------------------------------------------------------------

  /** Marking adds the suggestion to its category and nothing else to
      any category. */
  lemma MarkUsedEffect(st: Store, s: string, c: string)
    ensures GetUsed(MarkUsed(st, s, c), c) == GetUsed(st, c) + {s}
    ensures forall c' :: c' != c ==> GetUsed(MarkUsed(st, s, c), c') == GetUsed(st, c')
  {
    var st' := MarkUsed(st, s, c);
    forall c' ensures GetUsed(st', c') == GetUsed(st, c') + (if c' == c then {s} else {}) {
      assert forall x :: Record(x, c') in st' <==> Record(x, c') in st || Record(x, c') == Record(s, c);
    }
  }

  /** Marking the same suggestion twice looks like marking it once. */
  lemma MarkUsedTwiceSameView(st: Store, s: string, c: string, c': string)
    ensures GetUsed(MarkUsed(MarkUsed(st, s, c), s, c), c') == GetUsed(MarkUsed(st, s, c), c')
  {
    MarkUsedEffect(MarkUsed(st, s, c), s, c);
    MarkUsedEffect(st, s, c);
  }

  /** Resetting empties the category and leaves the others alone. */
  lemma ResetEffect(st: Store, c: string)
    ensures GetUsed(Reset(st, c), c) == {}
    ensures forall c' :: c' != c ==> GetUsed(Reset(st, c), c') == GetUsed(st, c')
  {
    var st' := Reset(st, c);
    forall c' | c' != c ensures GetUsed(st', c') == GetUsed(st, c') {
      assert forall x :: Record(x, c') in st' <==> Record(x, c') in st;
    }
  }

  /** The AI operations are the category operations for "ai". */
  lemma AIOperationsAreCategoryOperations(st: Store, s: string)
    ensures GetAIUsed(MarkAIUsed(st, s)) == GetUsed(st, AICategoryId) + {s}
    ensures GetAIUsed(ResetAI(st)) == {}
    ensures forall c :: c != AICategoryId ==> GetUsed(MarkAIUsed(st, s), c) == GetUsed(st, c)
  {
    MarkUsedEffect(st, s, AICategoryId);
    ResetEffect(st, AICategoryId);
  }

  /** For a category without repeats, whose used set holds only its own
      suggestions, `shouldReset` with the suggestion count holds exactly
      when every suggestion has been used. */
  lemma ShouldResetIffExhausted(st: Store, categoryId: string, suggestions: seq<string>)
    requires Distinct(suggestions)
    requires GetUsed(st, categoryId) <= set x | x in suggestions
    ensures ShouldReset(st, categoryId, |suggestions|) <==> (set x | x in suggestions) <= GetUsed(st, categoryId)
  {
    var used := GetUsed(st, categoryId);
    var all := set x | x in suggestions;
    DistinctElementCount(suggestions);
    assert all == used + (all - used);
    assert |all| == |used| + |all - used|;
    if all - used != {} {
      var x :| x in all - used;
      assert |all - used| >= 1;
    }
  }

  /** For a category with a repeated suggestion, `shouldReset` with the
      suggestion count never holds while the used set holds only the
      category's own suggestions, even once all of them are used. */
  lemma ShouldResetNeverWithRepeats(st: Store, categoryId: string, suggestions: seq<string>)
    requires !Distinct(suggestions)
    requires GetUsed(st, categoryId) <= set x | x in suggestions
    ensures !ShouldReset(st, categoryId, |suggestions|)
  {
    var used := GetUsed(st, categoryId);
    var all := set x | x in suggestions;
    ElementCountBound(suggestions);
    assert all == used + (all - used);
  }

  /** The category-selection policy: reset exactly when `shouldReset`
      holds, then read. The set read back is never as large as the
      suggestion count, unless the count is 0 and the set is empty. */
  function ResetIfExhausted(st: Store, categoryId: string, totalCount: int): (r: (Store, set<string>))
    ensures ShouldReset(st, categoryId, totalCount) ==> r.0 == Reset(st, categoryId)
    ensures !ShouldReset(st, categoryId, totalCount) ==> r.0 == st
    ensures r.1 == GetUsed(r.0, categoryId)
    ensures |r.1| < totalCount || (totalCount <= 0 && r.1 == {})
    ensures forall c' :: c' != categoryId ==> GetUsed(r.0, c') == GetUsed(st, c')
  {
    ResetEffect(st, categoryId);
    var st' := if ShouldReset(st, categoryId, totalCount) then Reset(st, categoryId) else st;
    (st', GetUsed(st', categoryId))
  }
}
