/** The client's "All Profiles" page: the profile list for a company and the
    search box that filters it. */
module ClientService {
  import opened Wrappers
  import opened Text
  import opened Http
  import opened Profiles

  /** The text a profile is searched in: the non-empty values of name, current
      designation, current company, location, CTC, email and mobile, joined by
      one space and lowercased. */
  function Haystack(p: Profile): string {
    Lower(Join(NonEmpty([p.name, p.currentDesignation, p.currentCompany, p.location, p.ctc, p.email, p.mobile]), " "))
  }

  /** The profile's text includes the needle. */
  predicate Keeps(p: Profile, needle: string) {
    Contains(Haystack(p), needle)
  }

  /** `items.filter(p => hay.includes(needle))`. */
  function Matching(items: seq<Profile>, needle: string): (r: seq<Profile>)
    ensures |r| <= |items|
    ensures Subsequence(r, items)
    ensures forall i :: 0 <= i < |r| ==> Keeps(r[i], needle)
    ensures forall p :: p in r <==> p in items && Keeps(p, needle)
    decreases |items|
  {
    if items == [] then []
    else
      var rest := Matching(items[1..], needle);
      if Keeps(items[0], needle) then [items[0]] + rest else rest
  }

  /** Every copy of a kept profile survives the filter, and no copy of another. */
  lemma {:induction false} MatchingCounts(items: seq<Profile>, needle: string, p: Profile)
    ensures multiset(Matching(items, needle))[p] == if Keeps(p, needle) then multiset(items)[p] else 0
    decreases |items|
  {
    if items != [] {
      assert items == [items[0]] + items[1..];
      MatchingCounts(items[1..], needle, p);
    }
  }

  /** The filter keeps order across a split of the list: what it keeps of the
      front comes before what it keeps of the back. */
  lemma {:induction false} MatchingAppend(a: seq<Profile>, b: seq<Profile>, needle: string)
    ensures Matching(a + b, needle) == Matching(a, needle) + Matching(b, needle)
    decreases |a|
  {
    if a != [] {
      assert (a + b)[0] == a[0] && (a + b)[1..] == a[1..] + b;
      MatchingAppend(a[1..], b, needle);
    } else {
      assert a + b == b;
    }
  }

  /** One profile is kept exactly when its text includes the needle. */
  lemma MatchingOne(p: Profile, needle: string)
    ensures Matching([p], needle) == if Keeps(p, needle) then [p] else []
  {
  }

  /** The `filtered` memo: all the items for a blank query, otherwise those whose
      text includes the lowercased query, untrimmed. */
  function Filtered(items: seq<Profile>, q: string): (r: seq<Profile>)
    ensures AllSpace(q) ==> r == items
    ensures !AllSpace(q) ==> forall p :: p in r <==> p in items && Contains(Haystack(p), Lower(q))
    ensures !AllSpace(q) ==>
      forall p :: multiset(r)[p] == if Contains(Haystack(p), Lower(q)) then multiset(items)[p] else 0
    ensures Subsequence(r, items)
  {
    TrimEmptyIff(q);
    SubsequenceRefl(items);
    if Trim(q) == "" then items
    else
      var r := Matching(items, Lower(q));
      assert forall p :: multiset(r)[p] == if Contains(Haystack(p), Lower(q)) then multiset(items)[p] else 0 by {
        forall p ensures multiset(r)[p] == if Contains(Haystack(p), Lower(q)) then multiset(items)[p] else 0 {
          MatchingCounts(items, Lower(q), p);
        }
      }
      r
  }

  /** Lowercasing twice is lowercasing once. */
  lemma LowerIdempotent(s: string)
    ensures Lower(Lower(s)) == Lower(s)
  {
  }

  /** Lowercasing keeps exactly the white space. */
  lemma LowerAllSpace(s: string)
    ensures AllSpace(Lower(s)) <==> AllSpace(s)
  {
    assert forall i :: 0 <= i < |s| ==> (IsSpace(Lower(s)[i]) <==> IsSpace(s[i]));
  }

  /** The search ignores the case of the query's letters. */
  lemma CaseInsensitive(items: seq<Profile>, q: string)
    ensures Filtered(items, Lower(q)) == Filtered(items, q)
  {
    LowerIdempotent(q);
    LowerAllSpace(q);
    TrimEmptyIff(q);
    TrimEmptyIff(Lower(q));
  }

  /** A profile whose only text is its name is searched in its lowercased name. */
  lemma HaystackOfName(p: Profile)
    requires p.name != ""
    requires p.currentDesignation == p.currentCompany == p.location == p.ctc == p.email == p.mobile == ""
    ensures Haystack(p) == Lower(p.name)
  {
    var parts := [p.name, p.currentDesignation, p.currentCompany, p.location, p.ctc, p.email, p.mobile];
    NonEmptyOfBlanks(parts[1..]);
    assert NonEmpty(parts) == [p.name];
  }

  /** A query matching a name in another case finds that profile. */
  lemma FoundByName(p: Profile)
    requires p.name == "asha"
    requires p.currentDesignation == p.currentCompany == p.location == p.ctc == p.email == p.mobile == ""
    ensures Filtered([p], "Asha") == [p]
  {
    HaystackOfName(p);
    assert Lower("asha") == "asha" == Lower("Asha");
    ContainsSelf("asha", "");
    assert !AllSpace("Asha") by { assert !IsSpace("Asha"[0]); }
  }

  /** A leading space is part of the needle. */
  lemma MissedWithSpace(p: Profile)
    requires p.name == "asha"
    requires p.currentDesignation == p.currentCompany == p.location == p.ctc == p.email == p.mobile == ""
    ensures Filtered([p], " Asha") == []
  {
    HaystackOfName(p);
    assert Lower("asha") == "asha";
    assert !AllSpace(" Asha") by { assert !IsSpace(" Asha"[1]); }
    ContainsIff("asha", Lower(" Asha"));
    assert !Keeps(p, Lower(" Asha"));
  }

  /** The needle is not trimmed: a profile whose only text is "asha" is found by
      "Asha" but not by " Asha". */
  lemma PaddedQueryMisses()
    ensures var p := Profile("asha", "", "", "", "", "", "", "", "", "", "", "", "");
      Filtered([p], "Asha") == [p] && Filtered([p], " Asha") == []
  {
    var p := Profile("asha", "", "", "", "", "", "", "", "", "", "", "", "");
    FoundByName(p);
    MissedWithSpace(p);
  }

  const FetchFailed := "Failed to fetch data"

  /** The `parsed-profiles/all-alpha` request; `companyId` is added only when the
      route's query has a non-empty one. */
  datatype ProfilesRequest = ProfilesRequest(companyId: Option<string>)

  function RequestFor(routeCompanyId: Option<string>): (r: ProfilesRequest)
    ensures r.companyId.Some? <==> routeCompanyId.Some? && routeCompanyId.value != ""
    ensures r.companyId.Some? ==> r.companyId == routeCompanyId
  {
    if routeCompanyId.Some? && routeCompanyId.value != "" then ProfilesRequest(routeCompanyId) else ProfilesRequest(None)
  }

  datatype PageState = PageState(loading: bool, error: string, items: seq<Profile>, q: string, requests: seq<ProfilesRequest>)

  class ClientServicePage {
    /** `companyId` from the route's query string (`params.get`). */
    const routeCompanyId: Option<string>
    var loading: bool
    var error: string
    var items: seq<Profile>
    var q: string
    var requests: seq<ProfilesRequest>

    function State(): PageState
      reads this
    {
      PageState(loading, error, items, q, requests)
    }

    /** Mounting starts the fetch. */
    constructor (routeCompanyId: Option<string>)
      ensures this.routeCompanyId == routeCompanyId
      ensures State() == PageState(true, "", [], "", [RequestFor(routeCompanyId)])
    {
      this.routeCompanyId := routeCompanyId;
      loading, error, items, q := true, "", [], "";
      requests := [RequestFor(routeCompanyId)];
    }

    /** The fetch settles: a truthy `success` installs `data.data` (or nothing);
        anything else sets the error and keeps the items. */
    method FetchSettled(reply: Reply<Option<seq<Profile>>>)
      modifies this
      ensures Resolved(reply) && reply.success == Some(true) ==>
        State() == old(State()).(loading := false, items := if reply.data.Some? then reply.data.value else [])
      ensures Resolved(reply) && reply.success != Some(true) ==>
        State() == old(State()).(loading := false, error := OrElse(reply.message, FetchFailed))
      ensures !Resolved(reply) ==>
        State() == old(State()).(loading := false, error := AxiosErrorMessage(reply, FetchFailed))
    {
      if !Resolved(reply) {
        error := AxiosErrorMessage(reply, FetchFailed);
      } else if reply.success == Some(true) {
        items := if reply.data.Some? then reply.data.value else [];
      } else {
        error := OrElse(reply.message, FetchFailed);
      }
      loading := false;
    }

    method SetQuery(value: string)
      modifies this
      ensures State() == old(State()).(q := value)
    {
      q := value;
    }

    /** The table is drawn once loading is over without an error. */
    predicate TableShown()
      reads this
    {
      !loading && error == ""
    }

    /** The "No records found." row. */
    predicate NoRecordsShown()
      reads this
    {
      TableShown() && |Filtered(items, q)| == 0
    }
  }

  /** With a blank query the placeholder row appears only for an empty list. */
  lemma NoRecordsForBlankQuery(items: seq<Profile>, q: string)
    requires AllSpace(q)
    ensures |Filtered(items, q)| == 0 <==> items == []
  {
  }
}
