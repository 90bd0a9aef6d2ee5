/** The status filter of app/admin/moderation/ModerationContent.tsx over the
    listed try-ons. */
module ModerationContent {
  import opened Text
  import opened Lists
  import opened Records

  /** The filter buttons: 'all', 'success', 'failed', 'pending'. */
  datatype StatusFilter = All | Only(name: string)

  /** `filter === 'all' || tryOn.status.toLowerCase() === filter`. */
  predicate Shows(t: TryOn, filter: StatusFilter): (b: bool)
    ensures filter.All? ==> b
    ensures b && filter.Only? ==> filter.name in {"pending", "processing", "success", "failed"}
  {
    LowerStatusNames();
    filter.All? || Lower(StatusName(t.status)) == filter.name
  }

  /** `filteredTryOns`. */
  function FilteredTryOns(tryOns: seq<TryOn>, filter: StatusFilter): (r: seq<TryOn>)
    ensures |r| <= |tryOns|
    ensures forall i :: 0 <= i < |r| ==> Shows(r[i], filter)
  {
    Filter(tryOns, t => Shows(t, filter))
  }

  /** 'all' returns every try-on, in order. */
  lemma AllShowsEverything(tryOns: seq<TryOn>)
    ensures FilteredTryOns(tryOns, All) == tryOns
  {
    FilterAcceptAll(tryOns, t => Shows(t, All));
  }

  /** Any other filter keeps, in order, exactly the try-ons whose lower-cased status equals it. */
  lemma OnlyMatchingStatus(tryOns: seq<TryOn>, name: string, t: TryOn)
    ensures SubsequenceOf(FilteredTryOns(tryOns, Only(name)), tryOns)
    ensures t in FilteredTryOns(tryOns, Only(name)) <==> t in tryOns && Lower(StatusName(t.status)) == name
  {
    FilterIsSubsequence(tryOns, t => Shows(t, Only(name)));
    FilterMembers(tryOns, t => Shows(t, Only(name)), t);
  }

  /** The three buttons other than 'all' select their status. */
  lemma ButtonsSelectTheirStatus(t: TryOn)
    ensures Shows(t, Only("success")) <==> t.status == SUCCESS
    ensures Shows(t, Only("failed")) <==> t.status == FAILED
    ensures Shows(t, Only("pending")) <==> t.status == PENDING
  {
    LowerStatusNames();
  }

  /** The lower-cased status names. */
  lemma LowerStatusNames()
    ensures Lower(StatusName(PENDING)) == "pending"
    ensures Lower(StatusName(PROCESSING)) == "processing"
    ensures Lower(StatusName(SUCCESS)) == "success"
    ensures Lower(StatusName(FAILED)) == "failed"
  {
    assert Lower("PENDING") == "pending";
    assert Lower("PROCESSING") == "processing";
    assert Lower("SUCCESS") == "success";
    assert Lower("FAILED") == "failed";
  }

  /** A job still `PROCESSING` matches none of the buttons but 'all', so it is
      listed only there. */
  lemma ProcessingOnlyUnderAll(tryOns: seq<TryOn>, t: TryOn)
    requires t.status == PROCESSING && t in tryOns
    ensures t in FilteredTryOns(tryOns, All)
    ensures t !in FilteredTryOns(tryOns, Only("success"))
    ensures t !in FilteredTryOns(tryOns, Only("failed"))
    ensures t !in FilteredTryOns(tryOns, Only("pending"))
  {
    AllShowsEverything(tryOns);
    FilterMembers(tryOns, t => Shows(t, Only("success")), t);
    FilterMembers(tryOns, t => Shows(t, Only("failed")), t);
    FilterMembers(tryOns, t => Shows(t, Only("pending")), t);
  }
}
