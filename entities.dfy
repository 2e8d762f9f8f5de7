/**
 * The records of the DamageTrack document store and the outcomes of its
 * request handlers.
 *
 * Every collection (Location, Category, Report, User) is append-only from the
 * handlers' point of view, so a document's identity is modelled as its
 * position in the collection, in insertion order. A Report refers to its
 * Location, Category and owner by such positions.
 */
module Entities {

  datatype Option<+T> = None | Some(value: T)

  type Bytes = seq<bv8>

  /** Position of a document in its collection. */
  type Id = nat

  datatype Location = Location(city: string, streetName: string, streetNumber: string, zipCode: string)

  datatype Category = Category(name: string)

  datatype User = User(email: string, password: string, firstName: string, lastName: string,
                       phone: string, city: string)

  /** `user` is None when the report was filed without a bound session identity;
      `urgency` is None when the urgency index fell outside the table. */
  datatype Report = Report(description: string, user: Option<Id>, location: Id, category: Id,
                           status: string, image: string, urgency: Option<string>, likes: int)

  /** A report with its references expanded for display (the document store's populate). */
  datatype ReportView = ReportView(report: Report, location: Option<Location>, category: Option<Category>)

  /** What a handler answers: a redirect, a bare status, a 500 with the error
      message, or one of the rendered pages with its data. */
  datatype Outcome =
    | Redirect(path: string)
    | Status(code: int)
    | ServerError
    | HomePage(sessionName: Option<string>, reports: seq<ReportView>)
    | SignPage
    | AdminPage(reports: seq<ReportView>, totalPages: int, currentPage: int)

  /** The document store's `findOne`: the position of the first document, in
      store order, that satisfies `p`. */
  function FindFirst<T>(s: seq<T>, p: T -> bool): (r: Option<Id>)
    ensures r.Some? ==> r.value < |s| && p(s[r.value])
    ensures r.Some? ==> forall j :: 0 <= j < r.value ==> !p(s[j])
    ensures r.None? ==> forall j :: 0 <= j < |s| ==> !p(s[j])
  {
    if s == [] then None
    else if p(s[0]) then Some(0)
    else match FindFirst(s[1..], p)
      case None => None
      case Some(i) => Some(i + 1)
  }

  /** Appending documents never changes which document `findOne` reports when
      one already matched, and otherwise reports the first match among the new ones. */
  lemma FindFirstAppend<T>(s: seq<T>, t: seq<T>, p: T -> bool)
    ensures FindFirst(s, p).Some? ==> FindFirst(s + t, p) == FindFirst(s, p)
    ensures FindFirst(s, p).None? && FindFirst(t, p).Some? ==>
              FindFirst(s + t, p) == Some(|s| + FindFirst(t, p).value)
    ensures FindFirst(s, p).None? && FindFirst(t, p).None? ==> FindFirst(s + t, p).None?
  {
    var st := s + t;
    assert forall k :: 0 <= k < |s| ==> st[k] == s[k];
    assert forall k :: |s| <= k < |st| ==> st[k] == t[k - |s|];
    if FindFirst(s, p).None? && FindFirst(t, p).Some? {
      var j := FindFirst(t, p).value;
      assert st[|s| + j] == t[j];
    }
  }

  /** The document store's `find`: the documents that satisfy `keep`, in store order. */
  function Where<T(!new)>(s: seq<T>, keep: T -> bool): (r: seq<T>)
    ensures |r| <= |s|
    ensures forall x :: x in r <==> x in s && keep(x)
  {
    if s == [] then []
    else (if keep(s[0]) then [s[0]] else []) + Where(s[1..], keep)
  }

  /** Selecting over a concatenation selects over each part and keeps their order. */
  lemma {:induction false} WhereAppend<T(!new)>(s: seq<T>, t: seq<T>, keep: T -> bool)
    ensures Where(s + t, keep) == Where(s, keep) + Where(t, keep)
  {
    if s == [] {
      assert s + t == t;
    } else {
      assert (s + t)[1..] == s[1..] + t;
      WhereAppend(s[1..], t, keep);
    }
  }

  /** A selection everything passes is the whole collection. */
  lemma {:induction false} WhereKeepsAll<T(!new)>(s: seq<T>, keep: T -> bool)
    requires forall x :: x in s ==> keep(x)
    ensures Where(s, keep) == s
  {
    if s != [] {
      assert s[0] in s;
      WhereKeepsAll(s[1..], keep);
      assert s == [s[0]] + s[1..];
    }
  }

  /** A selection nothing passes is empty. */
  lemma {:induction false} WhereKeepsNone<T(!new)>(s: seq<T>, keep: T -> bool)
    requires forall x :: x in s ==> !keep(x)
    ensures Where(s, keep) == []
  {
    if s != [] {
      assert s[0] in s;
      WhereKeepsNone(s[1..], keep);
    }
  }

  /** Looks up a referenced document; a dangling reference expands to None. */
  function Lookup<T>(s: seq<T>, id: Id): Option<T>
  {
    if id < |s| then Some(s[id]) else None
  }

  /** Expands the references of each report for display. The stored reports
      are only read: each view carries its report unchanged, in order. */
  function Populate(reports: seq<Report>, locations: seq<Location>, categories: seq<Category>): (r: seq<ReportView>)
    ensures |r| == |reports|
    ensures forall i :: 0 <= i < |r| ==> r[i].report == reports[i]
    ensures forall i :: 0 <= i < |r| && reports[i].location < |locations| ==>
              r[i].location == Some(locations[reports[i].location])
    ensures forall i :: 0 <= i < |r| && reports[i].category < |categories| ==>
              r[i].category == Some(categories[reports[i].category])
    ensures forall i :: 0 <= i < |r| && reports[i].location >= |locations| ==> r[i].location == None
    ensures forall i :: 0 <= i < |r| && reports[i].category >= |categories| ==> r[i].category == None
  {
    seq(|reports|, i requires 0 <= i < |reports| =>
      ReportView(reports[i], Lookup(locations, reports[i].location), Lookup(categories, reports[i].category)))
  }
}
